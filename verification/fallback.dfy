/**
 * The synthetic result built when the remote analysis fails: one primary genre
 * with a confidence in [0.7, 1.0), two further genres distinct from those already
 * chosen (a rejection loop) with confidences in [0, 0.7), and the three ranked by
 * a stable sort of their positions in descending order of confidence.
 *
 * Every call of the browser's random generator is one element of an injected
 * sequence of draws, each in [0, 1), consumed in the order the handler calls it.
 * Confidences are exact reals.
 */
module Fallback {
  import opened Options

  /** The ten labels the fallback chooses from. */
  datatype Genre = Rock | Pop | Jazz | Classical | HipHop | Country | Metal | Blues | Reggae | Disco {
    function Name(): string {
      match this
      case Rock => "rock"
      case Pop => "pop"
      case Jazz => "jazz"
      case Classical => "classical"
      case HipHop => "hiphop"
      case Country => "country"
      case Metal => "metal"
      case Blues => "blues"
      case Reggae => "reggae"
      case Disco => "disco"
    }
  }

  /** The list the random index selects from, in the handler's order. */
  const Genres: seq<Genre> := [Rock, Pop, Jazz, Classical, HipHop, Country, Metal, Blues, Reggae, Disco]

  /** Different genres carry different labels, so distinct genres give distinct strings. */
  lemma NameInjective(a: Genre, b: Genre)
    requires a.Name() == b.Name()
    ensures a == b
  {
    assert |a.Name()| == |b.Name()|;
    assert a.Name()[0] == b.Name()[0];
  }

  function Names(gs: seq<Genre>): seq<string> {
    seq(|gs|, k requires 0 <= k < |gs| => gs[k].Name())
  }

  /** Primary confidence is PrimaryBase + draw * PrimarySpan; the others draw * ExtraSpan. */
  const PrimaryBase: real := 0.7
  const PrimarySpan: real := 0.3
  const ExtraSpan: real := 0.7

  /** Genres drawn after the primary one. */
  const Extras: nat := 2

  /** One value of the random generator. */
  predicate IsDraw(u: real) {
    0.0 <= u < 1.0
  }

  predicate AreDraws(ds: seq<real>) {
    forall k :: 0 <= k < |ds| ==> IsDraw(ds[k])
  }

  /** The genre a draw selects: the list entry at the floor of draw * 10. */
  function GenreAt(u: real): (g: Genre)
    requires IsDraw(u)
  {
    var k := (u * 10.0).Floor;
    Genres[k]
  }

  predicate Distinct<T(==)>(s: seq<T>) {
    forall i, j :: 0 <= i < j < |s| ==> s[i] != s[j]
  }

  /**
   * Where the rejection loop stops when it starts at `from` with `taken` already chosen:
   * the first draw whose genre is new, or |ds| when the draws run out first.
   */
  function FirstFresh(ds: seq<real>, from: nat, taken: seq<Genre>): (p: nat)
    requires AreDraws(ds) && from <= |ds|
    decreases |ds| - from
    ensures from <= p <= |ds|
    ensures p < |ds| ==> GenreAt(ds[p]) !in taken
    ensures forall k :: from <= k < p ==> GenreAt(ds[k]) in taken
  {
    if from == |ds| then |ds|
    else if GenreAt(ds[from]) !in taken then from
    else FirstFresh(ds, from + 1, taken)
  }

  /** The genres and confidences drawn so far, and the next unread draw. */
  datatype Drawn = Drawn(genres: seq<Genre>, confidences: seq<real>, next: nat)

  /** One pass of the extra-genre loop that found a new genre at draw p: push that
      genre and, from the draw after it, a confidence below 0.7. */
  function Step(ds: seq<real>, d: Drawn, p: nat): Drawn
    requires AreDraws(ds) && p + 1 < |ds|
  {
    Drawn(d.genres + [GenreAt(ds[p])], d.confidences + [ds[p + 1] * ExtraSpan], p + 2)
  }

  /** `rounds` more passes of the extra-genre loop, or None when the draws run out. */
  function Extend(ds: seq<real>, d: Drawn, rounds: nat): Option<Drawn>
    requires AreDraws(ds) && d.next <= |ds|
    decreases rounds
  {
    if rounds == 0 then Some(d)
    else
      var p := FirstFresh(ds, d.next, d.genres);
      if p + 1 < |ds| then Extend(ds, Step(ds, d, p), rounds - 1) else None
  }

  /** The unsorted genres and confidences the handler draws from `ds`. */
  function Candidates(ds: seq<real>): Option<Drawn>
    requires AreDraws(ds)
  {
    if |ds| < 2 then None
    else Extend(ds, Drawn([GenreAt(ds[0])], [PrimaryBase + ds[1] * PrimarySpan], 2), Extras)
  }

  /** The draws are valid and long enough for the rejection loop to find its genres. */
  predicate Sufficient(ds: seq<real>) {
    AreDraws(ds) && Candidates(ds).Some?
  }

  /** What the fallback promises of the drawn lists. */
  predicate WellDrawn(d: Drawn) {
    && |d.genres| == |d.confidences| >= 1
    && Distinct(d.genres)
    && PrimaryBase <= d.confidences[0] < 1.0
    && (forall k :: 1 <= k < |d.confidences| ==> 0.0 <= d.confidences[k] < ExtraSpan)
  }

  /** A pass that pushes a genre not yet taken keeps the drawn lists well formed. */
  lemma StepWellDrawn(ds: seq<real>, d: Drawn, p: nat)
    requires AreDraws(ds) && p + 1 < |ds|
    requires WellDrawn(d) && GenreAt(ds[p]) !in d.genres
    ensures var d' := Step(ds, d, p);
      && WellDrawn(d')
      && |d'.genres| == |d.genres| + 1
      && d'.genres[0] == d.genres[0] && d'.confidences[0] == d.confidences[0]
  {
    var d' := Step(ds, d, p);
    forall i, j | 0 <= i < j < |d'.genres| ensures d'.genres[i] != d'.genres[j] {
      if j == |d.genres| {
        assert d'.genres[i] == d.genres[i];
      }
    }
  }

  lemma {:induction false} ExtendWellDrawn(ds: seq<real>, d: Drawn, rounds: nat, r: Drawn)
    requires AreDraws(ds) && d.next <= |ds|
    requires WellDrawn(d)
    requires Extend(ds, d, rounds) == Some(r)
    ensures WellDrawn(r)
    ensures |r.genres| == |d.genres| + rounds
    ensures r.genres[0] == d.genres[0] && r.confidences[0] == d.confidences[0]
    decreases rounds
  {
    if rounds > 0 {
      var p := FirstFresh(ds, d.next, d.genres);
      assert p + 1 < |ds| && Extend(ds, Step(ds, d, p), rounds - 1) == Some(r);
      StepWellDrawn(ds, d, p);
      ExtendWellDrawn(ds, Step(ds, d, p), rounds - 1, r);
    }
  }

  /** Whatever the draws, the fallback holds three distinct listed genres; the first is
      the first draw's genre with a confidence in [0.7, 1.0), the others below 0.7. */
  lemma CandidatesShape(ds: seq<real>)
    requires Sufficient(ds)
    ensures var c := Candidates(ds).value;
      && WellDrawn(c)
      && |c.genres| == 3
      && c.genres[0] == GenreAt(ds[0])
      && c.confidences[0] == PrimaryBase + ds[1] * PrimarySpan
  {
    var d := Drawn([GenreAt(ds[0])], [PrimaryBase + ds[1] * PrimarySpan], 2);
    ExtendWellDrawn(ds, d, Extras, Candidates(ds).value);
  }

  /** One pass of the loop unfolds Extend by one Step. */
  lemma ExtendUnfold(ds: seq<real>, d: Drawn, rounds: nat)
    requires AreDraws(ds) && d.next <= |ds|
    requires 0 < rounds && Extend(ds, d, rounds).Some?
    ensures var p := FirstFresh(ds, d.next, d.genres);
      p + 1 < |ds| && Extend(ds, Step(ds, d, p), rounds - 1) == Extend(ds, d, rounds)
  {
  }

  /**
   * The handler's inner do-while: draw a genre, and draw again while it is already
   * taken. `pos` is the first unread draw before and after.
   */
  method DrawFresh(ds: seq<real>, start: nat, taken: seq<Genre>) returns (next: Genre, pos: nat)
    requires AreDraws(ds) && start <= |ds| && FirstFresh(ds, start, taken) < |ds|
    ensures pos == FirstFresh(ds, start, taken) + 1
    ensures next == GenreAt(ds[pos - 1]) && next !in taken
  {
    ghost var p := FirstFresh(ds, start, taken);
    next := GenreAt(ds[start]);
    pos := start + 1;
    while next in taken
      invariant start < pos <= p + 1
      invariant next == GenreAt(ds[pos - 1])
      decreases p + 1 - pos
    {
      next := GenreAt(ds[pos]);
      pos := pos + 1;
    }
  }

  /** One pass of the handler's `for` loop: find a new genre, push it, and push a
      confidence drawn from the next value. */
  method DrawExtra(ds: seq<real>, d: Drawn) returns (e: Drawn)
    requires AreDraws(ds) && d.next <= |ds|
    requires FirstFresh(ds, d.next, d.genres) + 1 < |ds|
    ensures e == Step(ds, d, FirstFresh(ds, d.next, d.genres))
  {
    var next, pos := DrawFresh(ds, d.next, d.genres);
    e := Drawn(d.genres + [next], d.confidences + [ds[pos] * ExtraSpan], pos + 1);
  }

  /**
   * The handler's drawing code: the primary genre and its confidence, then two
   * passes that each push a genre not yet taken and a lower confidence.
   */
  method DrawCandidates(ds: seq<real>) returns (genres: seq<Genre>, confidences: seq<real>)
    requires Sufficient(ds)
    ensures genres == Candidates(ds).value.genres && confidences == Candidates(ds).value.confidences
  {
    ghost var target := Candidates(ds);
    var d := Drawn([GenreAt(ds[0])], [PrimaryBase + ds[1] * PrimarySpan], 2);
    for i := 0 to Extras
      invariant d.next <= |ds|
      invariant Extend(ds, d, Extras - i) == target
    {
      ExtendUnfold(ds, d, Extras - i);
      d := DrawExtra(ds, d);
    }
    genres, confidences := d.genres, d.confidences;
  }

  /** Position a may stand before position b: higher confidence first, ties in drawing order. */
  predicate RanksBefore(conf: seq<real>, a: nat, b: nat)
    requires a < |conf| && b < |conf|
  {
    conf[a] > conf[b] || (conf[a] == conf[b] && a <= b)
  }

  /** The first i slots hold the positions below i in rank order; the others are untouched. */
  ghost predicate SortedPrefix(order: seq<nat>, conf: seq<real>, i: nat) {
    && i <= |order| <= |conf|
    && (forall k :: 0 <= k < i ==> order[k] < i)
    && (forall k :: i <= k < |order| ==> order[k] == k)
    && (forall p, q :: 0 <= p < q < i ==> RanksBefore(conf, order[p], order[q]))
  }

  /** Position i, now at slot j, is being moved left past those of lower confidence. */
  ghost predicate Inserting(order: seq<nat>, conf: seq<real>, i: nat, j: nat) {
    && j <= i < |order| <= |conf|
    && order[j] == i
    && (forall k :: 0 <= k <= i && k != j ==> order[k] < i)
    && (forall k :: i < k < |order| ==> order[k] == k)
    && (forall p, q :: 0 <= p < q <= i && p != j && q != j ==> RanksBefore(conf, order[p], order[q]))
    && (forall q :: j < q <= i ==> conf[order[q]] < conf[i])
  }

  lemma InsertStep(order: seq<nat>, conf: seq<real>, i: nat, j: nat)
    requires Inserting(order, conf, i, j)
    requires 0 < j && conf[order[j - 1]] < conf[order[j]]
    ensures Inserting(order[j - 1 := order[j]][j := order[j - 1]], conf, i, j - 1)
  {
  }

  lemma InsertDone(order: seq<nat>, conf: seq<real>, i: nat, j: nat)
    requires Inserting(order, conf, i, j)
    requires j == 0 || conf[order[j - 1]] >= conf[order[j]]
    ensures SortedPrefix(order, conf, i + 1)
  {
  }

  method Swap(a: array<nat>, i: nat)
    requires i + 1 < a.Length
    modifies a
    ensures a[..] == old(a[..])[i := old(a[i + 1])][i + 1 := old(a[i])]
    ensures multiset(a[..]) == multiset(old(a[..]))
  {
    a[i], a[i + 1] := a[i + 1], a[i];
  }

  /**
   * The in-place sort of the positions 0, 1, ... by descending confidence. The
   * comparator only compares confidences; the array sort is stable, so positions
   * with equal confidence keep their ascending order.
   */
  method SortByConfidence(order: array<nat>, conf: seq<real>)
    requires order.Length <= |conf|
    requires forall k :: 0 <= k < order.Length ==> order[k] == k
    modifies order
    ensures multiset(order[..]) == multiset(Range(order.Length))
    ensures forall k :: 0 <= k < order.Length ==> order[k] < order.Length
    ensures forall i, j :: 0 <= i < j < order.Length ==> RanksBefore(conf, order[i], order[j])
  {
    assert order[..] == Range(order.Length);
    var i := 0;
    while i < order.Length
      invariant i <= order.Length
      invariant multiset(order[..]) == multiset(Range(order.Length))
      invariant SortedPrefix(order[..], conf, i)
    {
      var j := i;
      while j > 0 && conf[order[j - 1]] < conf[order[j]]
        invariant multiset(order[..]) == multiset(Range(order.Length))
        invariant Inserting(order[..], conf, i, j)
      {
        InsertStep(order[..], conf, i, j);
        Swap(order, j - 1);
        j := j - 1;
      }
      InsertDone(order[..], conf, i, j);
      i := i + 1;
    }
  }

  /** Elements of a sequence, taken in the order `order` lists their positions. */
  function Gather<T>(s: seq<T>, order: seq<nat>): seq<T>
    requires forall k :: 0 <= k < |order| ==> order[k] < |s|
  {
    seq(|order|, k requires 0 <= k < |order| => s[order[k]])
  }

  function Range(n: nat): (r: seq<nat>)
    ensures |r| == n && forall k :: 0 <= k < n ==> r[k] == k
  {
    seq(n, k requires 0 <= k < n => k)
  }

  /** No value occurs twice in a sequence without repeats. */
  lemma {:induction false} DistinctCount<T>(s: seq<T>, v: T)
    requires Distinct(s)
    ensures multiset(s)[v] <= 1
  {
    if s != [] {
      assert s == [s[0]] + s[1..];
      assert Distinct(s[1..]) by {
        forall i, j | 0 <= i < j < |s[1..]| ensures s[1..][i] != s[1..][j] {
          assert s[1..][i] == s[i + 1] && s[1..][j] == s[j + 1];
        }
      }
      DistinctCount(s[1..], v);
      if s[0] == v {
        assert v !in s[1..] by {
          forall k | 0 <= k < |s[1..]| ensures s[1..][k] != v {
            assert s[1..][k] == s[k + 1];
          }
        }
      }
    }
  }

  /** A rearrangement of the positions 0 .. n-1 lists each position exactly once. */
  lemma PermutationDistinct(order: seq<nat>, n: nat)
    requires multiset(order) == multiset(Range(n))
    ensures |order| == n && Distinct(order)
    ensures forall k :: 0 <= k < |order| ==> order[k] < n
  {
    assert |order| == |multiset(order)| == |multiset(Range(n))| == n;
    forall k | 0 <= k < |order| ensures order[k] < n {
      assert order[k] in multiset(order);
      assert order[k] in Range(n);
    }
    forall i, j | 0 <= i < j < |order| ensures order[i] != order[j] {
      if order[i] == order[j] {
        var v := order[i];
        assert order == order[..j] + order[j..];
        assert v in multiset(order[..j]) by { assert order[..j][i] == v; }
        assert v in multiset(order[j..]) by { assert order[j..][0] == v; }
        assert multiset(order)[v] >= 2;
        assert Distinct(Range(n));
        DistinctCount(Range(n), v);
        assert false;
      }
    }
  }

  /** Distinct genres have distinct labels. */
  lemma NamesDistinct(gs: seq<Genre>)
    requires Distinct(gs)
    ensures Distinct(Names(gs))
  {
    forall i, j | 0 <= i < j < |gs| ensures Names(gs)[i] != Names(gs)[j] {
      if Names(gs)[i] == Names(gs)[j] {
        NameInjective(gs[i], gs[j]);
      }
    }
  }

  /** The primary confidence exceeds every other, so position 0 ranks first. */
  lemma PrimaryRanksFirst(conf: seq<real>, order: seq<nat>)
    requires 0 < |order| && (forall k :: 0 <= k < |order| ==> order[k] < |conf|)
    requires Distinct(order) && 0 in order
    requires forall k :: 1 <= k < |conf| ==> conf[k] < conf[0]
    requires forall i, j :: 0 <= i < j < |order| ==> RanksBefore(conf, order[i], order[j])
    ensures order[0] == 0
  {
    assert forall k :: 0 <= k < |order| ==> conf[order[0]] >= conf[order[k]] by {
      forall k | 0 < k < |order| ensures conf[order[0]] >= conf[order[k]] {
        assert RanksBefore(conf, order[0], order[k]);
      }
    }
    var z :| 0 <= z < |order| && order[z] == 0;
    assert conf[order[0]] >= conf[0];
  }

  /**
   * Ranking is a strict total order on positions, so a stable sort has exactly one
   * possible outcome: two arrangements of the same positions that are both in rank
   * order are equal.
   */
  lemma {:induction false} RankOrderUnique(conf: seq<real>, o1: seq<nat>, o2: seq<nat>)
    requires multiset(o1) == multiset(o2)
    requires forall k :: 0 <= k < |o1| ==> o1[k] < |conf|
    requires forall k :: 0 <= k < |o2| ==> o2[k] < |conf|
    requires forall i, j :: 0 <= i < j < |o1| ==> RanksBefore(conf, o1[i], o1[j])
    requires forall i, j :: 0 <= i < j < |o2| ==> RanksBefore(conf, o2[i], o2[j])
    ensures o1 == o2
    decreases |o1|
  {
    assert |o1| == |multiset(o1)| == |multiset(o2)| == |o2|;
    if |o1| > 0 {
      RankedHeadsAgree(conf, o1, o2);
      RankedHeadsAgree(conf, o2, o1);
      var h := o1[0];
      assert h == o2[0];
      var t1, t2 := o1[1..], o2[1..];
      SameTails(o1, o2);
      assert forall i, j :: 0 <= i < j < |t1| ==> RanksBefore(conf, t1[i], t1[j]) by {
        forall i, j | 0 <= i < j < |t1| ensures RanksBefore(conf, t1[i], t1[j]) {
          assert t1[i] == o1[i + 1] && t1[j] == o1[j + 1];
        }
      }
      assert forall i, j :: 0 <= i < j < |t2| ==> RanksBefore(conf, t2[i], t2[j]) by {
        forall i, j | 0 <= i < j < |t2| ensures RanksBefore(conf, t2[i], t2[j]) {
          assert t2[i] == o2[i + 1] && t2[j] == o2[j + 1];
        }
      }
      RankOrderUnique(conf, t1, t2);
    }
  }

  /** Rearrangements with the same head have rearranged tails. */
  lemma SameTails(o1: seq<nat>, o2: seq<nat>)
    requires 0 < |o1| && 0 < |o2| && o1[0] == o2[0] && multiset(o1) == multiset(o2)
    ensures multiset(o1[1..]) == multiset(o2[1..])
  {
    assert o1 == [o1[0]] + o1[1..] && o2 == [o2[0]] + o2[1..];
    assert multiset(o1) == multiset{o1[0]} + multiset(o1[1..]);
    assert multiset(o2) == multiset{o2[0]} + multiset(o2[1..]);
    assert multiset(o1[1..]) == multiset(o1) - multiset{o1[0]};
    assert multiset(o2[1..]) == multiset(o2) - multiset{o2[0]};
  }

  /** The head of a rank-ordered arrangement ranks before the head of any rearrangement. */
  lemma RankedHeadsAgree(conf: seq<real>, o1: seq<nat>, o2: seq<nat>)
    requires 0 < |o1| && 0 < |o2| && multiset(o1) == multiset(o2)
    requires forall k :: 0 <= k < |o1| ==> o1[k] < |conf|
    requires forall k :: 0 <= k < |o2| ==> o2[k] < |conf|
    requires forall i, j :: 0 <= i < j < |o1| ==> RanksBefore(conf, o1[i], o1[j])
    ensures RanksBefore(conf, o1[0], o2[0])
  {
    assert o2[0] in multiset(o1);
    var m :| 0 <= m < |o1| && o1[m] == o2[0];
    if m > 0 {
      assert RanksBefore(conf, o1[0], o1[m]);
    }
  }

  /**
   * What reading the drawn lists through a confidence-sorted permutation of their
   * positions gives: three distinct labels, confidences that never increase, ties in
   * drawing order, and the primary draw still first.
   */
  lemma RankedFacts(c: Drawn, order: seq<nat>)
    requires WellDrawn(c) && |c.genres| == 3
    requires multiset(order) == multiset(Range(3))
    requires forall k :: 0 <= k < |order| ==> order[k] < 3
    requires forall i, j :: 0 <= i < j < |order| ==> RanksBefore(c.confidences, order[i], order[j])
    ensures var ranked := Names(Gather(c.genres, order));
      var rankedConf := Gather(c.confidences, order);
      && |ranked| == |rankedConf| == 3 && Distinct(ranked)
      && (forall i, j :: 0 <= i < j < 3 ==> rankedConf[i] >= rankedConf[j])
      && (forall i, j :: 0 <= i < j < 3 && rankedConf[i] == rankedConf[j] ==> order[i] < order[j])
      && order[0] == 0 && ranked[0] == c.genres[0].Name() && rankedConf[0] == c.confidences[0]
      && (forall k :: 1 <= k < 3 ==> 0.0 <= rankedConf[k] < ExtraSpan)
  {
    PermutationDistinct(order, 3);
    assert Range(3)[0] == 0;
    assert 0 in multiset(order);
    PrimaryRanksFirst(c.confidences, order);
    var sorted := Gather(c.genres, order);
    assert Distinct(sorted);
    NamesDistinct(sorted);
  }

  /**
   * The whole fallback: draw, sort the positions, and read both lists through the
   * sorted positions. `order` is the sorted index array; `ranked` holds the labels.
   */
  method RankFallback(ds: seq<real>) returns (ranked: seq<string>, rankedConf: seq<real>, order: seq<nat>)
    requires Sufficient(ds)
    ensures var c := Candidates(ds).value;
      && multiset(order) == multiset{0, 1, 2}
      && ranked == Names(Gather(c.genres, order))
      && rankedConf == Gather(c.confidences, order)
    ensures |ranked| == |rankedConf| == 3 && Distinct(ranked)
    ensures forall i, j :: 0 <= i < j < 3 ==> rankedConf[i] >= rankedConf[j]
    ensures forall i, j :: 0 <= i < j < 3 && rankedConf[i] == rankedConf[j] ==> order[i] < order[j]
    ensures order[0] == 0 && ranked[0] == GenreAt(ds[0]).Name() && rankedConf[0] == PrimaryBase + ds[1] * PrimarySpan
    ensures PrimaryBase <= rankedConf[0] < 1.0
    ensures forall k :: 1 <= k < 3 ==> 0.0 <= rankedConf[k] < ExtraSpan
  {
    var genres, confidences := DrawCandidates(ds);
    CandidatesShape(ds);
    var indices := new nat[|confidences|](i => i);
    SortByConfidence(indices, confidences);
    order := indices[..];
    RankedFacts(Candidates(ds).value, order);
    assert Range(3) == [0, 1, 2];
    ranked := Names(Gather(genres, order));
    rankedConf := Gather(confidences, order);
  }
}
