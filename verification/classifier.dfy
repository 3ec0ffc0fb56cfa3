/**
 * The music classifier page's state and its three handlers: choosing a file,
 * analysing it, and resetting. The remote analysis is an outcome passed in, the
 * random generator a sequence of draws, and the browser's object-URL table a
 * registry object shared with the page.
 */
module Classifier {
  import opened Options
  import opened Validation
  import Fallback

  /** A browser object URL (a playback handle for the chosen file). */
  type Url = nat

  /** What the page displays after an analysis. */
  datatype Results = Results(
    genre: string,
    confidence: real,
    topGenres: seq<string>,
    topConfidences: seq<real>,
    spectrogram: Option<string>)

  /** The remote service's answer; either list may be missing. */
  datatype Response = Response(
    genre: string,
    confidence: real,
    topGenres: Option<seq<string>>,
    topConfidences: Option<seq<real>>,
    spectrogram: Option<string>)

  /** How the remote call ended: an answer, or a thrown error. */
  datatype Outcome = Answered(response: Response) | Failed

  const AnalysisMessage: string := "Error analyzing audio. Please try again."

  /** The answer copied into the page's results, a missing list read as empty. */
  function FromResponse(r: Response): Results {
    Results(r.genre, r.confidence, r.topGenres.GetOr([]), r.topConfidences.GetOr([]), r.spectrogram)
  }

  /**
   * `ranked` and `rankedConf` are the drawn genre labels and confidences of `c`, read
   * through one permutation `order` of the three positions that keeps equal
   * confidences in drawing order.
   */
  ghost predicate RankedBy(c: Fallback.Drawn, order: seq<nat>, ranked: seq<string>, rankedConf: seq<real>) {
    && |c.genres| == |c.confidences| == 3
    && multiset(order) == multiset{0, 1, 2}
    && (forall k :: 0 <= k < |order| ==> order[k] < 3)
    && ranked == Fallback.Names(Fallback.Gather(c.genres, order))
    && rankedConf == Fallback.Gather(c.confidences, order)
    && (forall i, j :: 0 <= i < j < |order| && rankedConf[i] == rankedConf[j] ==> order[i] < order[j])
  }

  /**
   * What the page shows when the remote call failed: three distinct genres from the
   * list, the drawn genres and confidences under one shared permutation that keeps
   * ties in drawing order, confidences never increasing, the first draw's genre first
   * with a confidence in [0.7, 1.0), the others below 0.7, and no spectrogram.
   */
  ghost predicate IsFallbackFor(res: Results, draws: seq<real>)
    requires Fallback.Sufficient(draws)
  {
    var c := Fallback.Candidates(draws).value;
    && res.spectrogram == None
    && (exists order: seq<nat> :: RankedBy(c, order, res.topGenres, res.topConfidences))
    && |res.topGenres| == |res.topConfidences| == 3
    && Fallback.Distinct(res.topGenres)
    && (forall i, j :: 0 <= i < j < 3 ==> res.topConfidences[i] >= res.topConfidences[j])
    && res.genre == res.topGenres[0] && res.confidence == res.topConfidences[0]
    && res.genre == Fallback.GenreAt(draws[0]).Name()
    && res.confidence == Fallback.PrimaryBase + draws[1] * Fallback.PrimarySpan
    && Fallback.PrimaryBase <= res.confidence < 1.0
    && (forall k :: 1 <= k < 3 ==> 0.0 <= res.topConfidences[k] < Fallback.ExtraSpan)
  }

  /** The ranked lists, led by their top entry and without a spectrogram, form a fallback result. */
  lemma RankingIsFallback(draws: seq<real>, ranked: seq<string>, rankedConf: seq<real>, order: seq<nat>)
    requires Fallback.Sufficient(draws)
    requires RankedBy(Fallback.Candidates(draws).value, order, ranked, rankedConf)
    requires |ranked| == |rankedConf| == 3 && Fallback.Distinct(ranked)
    requires forall i, j :: 0 <= i < j < 3 ==> rankedConf[i] >= rankedConf[j]
    requires ranked[0] == Fallback.GenreAt(draws[0]).Name()
    requires rankedConf[0] == Fallback.PrimaryBase + draws[1] * Fallback.PrimarySpan
    requires Fallback.PrimaryBase <= rankedConf[0] < 1.0
    requires forall k :: 1 <= k < 3 ==> 0.0 <= rankedConf[k] < Fallback.ExtraSpan
    ensures IsFallbackFor(Results(ranked[0], rankedConf[0], ranked, rankedConf, None), draws)
  {
    var c := Fallback.Candidates(draws).value;
    assert RankedBy(c, order, ranked, rankedConf);
  }

  /**
   * A fallback result is determined by the draws: the stable sort leaves no choice in
   * the order of the ranked lists, so two results that both satisfy IsFallbackFor for
   * the same draws are equal.
   */
  lemma FallbackDetermined(draws: seq<real>, r1: Results, r2: Results)
    requires Fallback.Sufficient(draws)
    requires IsFallbackFor(r1, draws) && IsFallbackFor(r2, draws)
    ensures r1 == r2
  {
    var c := Fallback.Candidates(draws).value;
    var o1 :| RankedBy(c, o1, r1.topGenres, r1.topConfidences);
    var o2 :| RankedBy(c, o2, r2.topGenres, r2.topConfidences);
    RankedOrderSorted(c, o1, r1.topGenres, r1.topConfidences);
    RankedOrderSorted(c, o2, r2.topGenres, r2.topConfidences);
    Fallback.RankOrderUnique(c.confidences, o1, o2);
  }

  /** A ranking that satisfies RankedBy with non-increasing confidences lists the positions in rank order. */
  lemma RankedOrderSorted(c: Fallback.Drawn, order: seq<nat>, ranked: seq<string>, rankedConf: seq<real>)
    requires RankedBy(c, order, ranked, rankedConf)
    requires forall i, j :: 0 <= i < j < 3 ==> rankedConf[i] >= rankedConf[j]
    ensures forall k :: 0 <= k < |order| ==> order[k] < |c.confidences|
    ensures forall i, j :: 0 <= i < j < |order| ==> Fallback.RanksBefore(c.confidences, order[i], order[j])
  {
    assert |order| == |multiset(order)| == 3;
    forall i, j | 0 <= i < j < |order| ensures Fallback.RanksBefore(c.confidences, order[i], order[j]) {
      assert rankedConf[i] == c.confidences[order[i]] && rankedConf[j] == c.confidences[order[j]];
    }
  }

  /** The catch branch's synthetic result: the ranked fallback, led by its top entry. */
  method FallbackResults(draws: seq<real>) returns (res: Results)
    requires Fallback.Sufficient(draws)
    ensures IsFallbackFor(res, draws)
  {
    var ranked, rankedConf, order := Fallback.RankFallback(draws);
    Fallback.CandidatesShape(draws);
    RankingIsFallback(draws, ranked, rankedConf, order);
    res := Results(ranked[0], rankedConf[0], ranked, rankedConf, None);
  }

  /** The browser's table of live object URLs. */
  class UrlRegistry {
    var live: set<Url>
    var next: Url

    ghost predicate Valid()
      reads this
    {
      forall u :: u in live ==> u < next
    }

    constructor ()
      ensures Valid() && live == {}
    {
      live := {};
      next := 0;
    }

    /** A URL never handed out before, now live. */
    method Create() returns (u: Url)
      requires Valid()
      modifies this
      ensures Valid()
      ensures old(next) <= u && u !in old(live) && live == old(live) + {u}
    {
      u := next;
      live := live + {u};
      next := next + 1;
    }

    /** Release a URL. */
    method Revoke(u: Url)
      requires Valid()
      modifies this
      ensures Valid()
      ensures live == old(live) - {u} && next == old(next)
    {
      live := live - {u};
    }
  }

  class MusicClassifier {
    var file: Option<AudioFile>
    var fileUrl: Option<Url>
    var analyzing: bool
    var results: Option<Results>
    var error: Option<string>
    var showGenreInfo: Option<string>
    var showRatingSystem: bool
    const urls: UrlRegistry

    /**
     * A chosen file passed the upload check and has a live playback URL; there is
     * a URL exactly when there is a file; results exist only for a chosen file.
     */
    ghost predicate Valid()
      reads this, urls
    {
      && urls.Valid()
      && (file.Some? <==> fileUrl.Some?)
      && (file.Some? ==> Validate(file.value) == Accepted)
      && (fileUrl.Some? ==> fileUrl.value in urls.live)
      && (results.Some? ==> file.Some?)
    }

    /** The page's initial state. */
    constructor (urls: UrlRegistry)
      requires urls.Valid()
      ensures Valid() && this.urls == urls
      ensures file == None && fileUrl == None && !analyzing && results == None
      ensures error == None && showGenreInfo == None && !showRatingSystem
    {
      file := None;
      fileUrl := None;
      analyzing := false;
      results := None;
      error := None;
      showGenreInfo := None;
      showRatingSystem := false;
      this.urls := urls;
    }

    /**
     * Choosing a file. A rejected file only sets the error message. An accepted one
     * becomes the file, clears the error and the results, releases the previous
     * playback URL and then creates a fresh one for the new file.
     */
    method SelectFile(selected: AudioFile)
      requires Valid()
      modifies this, urls
      ensures Valid()
      ensures analyzing == old(analyzing)
      ensures showGenreInfo == old(showGenreInfo) && showRatingSystem == old(showRatingSystem)
      ensures Validate(selected).Rejected? ==>
        && error == Some(Message(Validate(selected).reason))
        && file == old(file) && fileUrl == old(fileUrl) && results == old(results)
        && urls.live == old(urls.live)
      ensures Validate(selected) == Accepted ==>
        && file == Some(selected) && error == None && results == None
        && fileUrl.Some? && fileUrl.value !in old(urls.live)
        && urls.live == (if old(fileUrl).Some? then old(urls.live) - {old(fileUrl).value} else old(urls.live)) + {fileUrl.value}
    {
      var verdict := Validate(selected);
      if verdict.Rejected? {
        error := Some(Message(verdict.reason));
        return;
      }
      file := Some(selected);
      error := None;
      results := None;
      if fileUrl.Some? {
        urls.Revoke(fileUrl.value);
      }
      var url := urls.Create();
      fileUrl := Some(url);
    }

    /**
     * Analysing the chosen file. Without a file nothing happens. Otherwise the
     * remote answer is copied into the results; a failed call sets the error and
     * shows the fallback ranking instead. Either way analysis ends with results.
     * The button that starts it is disabled while an analysis is running.
     */
    method Analyze(outcome: Outcome, draws: seq<real>)
      requires Valid() && !analyzing
      requires file.Some? && outcome.Failed? ==> Fallback.Sufficient(draws)
      modifies this
      ensures Valid()
      ensures old(file).None? ==> unchanged(this)
      ensures file == old(file) && fileUrl == old(fileUrl) && !analyzing
      ensures showGenreInfo == old(showGenreInfo) && showRatingSystem == old(showRatingSystem)
      ensures old(file).Some? ==> results.Some?
      ensures old(file).Some? && outcome.Answered? ==>
        var r := outcome.response;
        && error == None
        && results.value.genre == r.genre && results.value.confidence == r.confidence
        && results.value.spectrogram == r.spectrogram
        && results.value.topGenres == (if r.topGenres.Some? then r.topGenres.value else [])
        && results.value.topConfidences == (if r.topConfidences.Some? then r.topConfidences.value else [])
      ensures old(file).Some? && outcome.Failed? ==>
        error == Some(AnalysisMessage) && IsFallbackFor(results.value, draws)
    {
      if file.None? {
        return;
      }
      analyzing := true;
      error := None;
      match outcome {
        case Answered(r) =>
          results := Some(FromResponse(r));
        case Failed =>
          error := Some(AnalysisMessage);
          var fallback := FallbackResults(draws);
          results := Some(fallback);
      }
      analyzing := false;
    }

    /**
     * "Analyze Another Track": clears the file, its URL, the results, the error and
     * both panels. The playback URL is dropped without being released, so it stays live.
     */
    method Reset()
      requires Valid()
      modifies this
      ensures Valid()
      ensures file == None && fileUrl == None && results == None && error == None
      ensures showGenreInfo == None && !showRatingSystem
      ensures analyzing == old(analyzing)
      ensures urls.live == old(urls.live)
      ensures old(fileUrl).Some? ==> old(fileUrl).value in urls.live
    {
      file := None;
      fileUrl := None;
      results := None;
      error := None;
      showGenreInfo := None;
      showRatingSystem := false;
    }
  }

  /** A 12 MB ".mp3" is refused as too large and the page stays empty. */
  method OversizedUploadScenario() {
    var urls := new UrlRegistry();
    var page := new MusicClassifier(urls);
    page.SelectFile(AudioFile("track.mp3", "audio/mpeg", 12 * 1024 * 1024));
    assert page.error == Some(SizeMessage);
    assert page.file == None && page.fileUrl == None && urls.live == {};
  }

  /** Draws picking rock (0.85), then pop, then classical, each new at the first try. */
  lemma DemoDrawsSuffice()
    ensures Fallback.Sufficient([0.05, 0.5, 0.15, 0.25, 0.35, 0.45])
    ensures Fallback.GenreAt(0.05) == Fallback.Rock
  {
    var draws := [0.05, 0.5, 0.15, 0.25, 0.35, 0.45];
    assert Fallback.GenreAt(draws[0]) == Fallback.Rock;
    assert Fallback.GenreAt(draws[2]) == Fallback.Pop;
    assert Fallback.GenreAt(draws[4]) == Fallback.Classical;
    assert Fallback.FirstFresh(draws, 2, [Fallback.Rock]) == 2;
    assert Fallback.FirstFresh(draws, 4, [Fallback.Rock, Fallback.Pop]) == 4;
  }

  /** A 2 MB ".wav" analysed while the service is down ends with the error and a fallback ranking. */
  method FailedAnalysisScenario() {
    var urls := new UrlRegistry();
    var page := new MusicClassifier(urls);
    var wav := AudioFile("song" + ".wav", "", 2 * 1024 * 1024);
    ExtensionAloneSuffices("song", ".wav", "", 2 * 1024 * 1024);
    page.SelectFile(wav);
    var draws := [0.05, 0.5, 0.15, 0.25, 0.35, 0.45];
    DemoDrawsSuffice();
    page.Analyze(Failed, draws);
    assert page.error == Some(AnalysisMessage);
    assert page.results.Some? && page.results.value.genre == "rock";
  }

  /** A remote answer rock 0.9, jazz 0.4, pop 0.2 is shown as it came. */
  method AnsweredAnalysisScenario() {
    var urls := new UrlRegistry();
    var page := new MusicClassifier(urls);
    MimeTypeAloneSuffices(AudioFile("a", "audio/mpeg", 100));
    page.SelectFile(AudioFile("a", "audio/mpeg", 100));
    var answer := Response("rock", 0.9, Some(["rock", "jazz", "pop"]), Some([0.9, 0.4, 0.2]), None);
    page.Analyze(Answered(answer), []);
    assert page.error == None;
    assert page.results == Some(Results("rock", 0.9, ["rock", "jazz", "pop"], [0.9, 0.4, 0.2], None));
  }

  /** Choosing a second file releases the first file's URL and clears the old results. */
  method ReselectScenario(first: AudioFile, second: AudioFile)
    requires Validate(first) == Accepted && Validate(second) == Accepted
  {
    var urls := new UrlRegistry();
    var page := new MusicClassifier(urls);
    page.SelectFile(first);
    var firstUrl := page.fileUrl.value;
    page.Analyze(Answered(Response("pop", 0.5, None, None, None)), []);
    page.SelectFile(second);
    assert firstUrl !in urls.live && page.results == None;
    assert urls.live == {page.fileUrl.value};
  }

  /** Resetting twice leaves the page as resetting once did. */
  method ResetTwiceScenario(page: MusicClassifier)
    requires page.Valid()
    modifies page
  {
    page.Reset();
    var once := (page.file, page.fileUrl, page.results, page.error, page.showGenreInfo, page.showRatingSystem, page.analyzing);
    page.Reset();
    assert (page.file, page.fileUrl, page.results, page.error, page.showGenreInfo, page.showRatingSystem, page.analyzing) == once;
  }
}
