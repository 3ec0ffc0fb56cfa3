# Music genre classifier page — a Dafny model

The page lets a user choose an audio file, checks it, and sends it to a remote
classification service. It then shows the predicted genre with its confidence
and a ranked list of alternatives. When the remote call fails, the page shows an
error. It also fabricates a plausible ranking: a random primary genre with high
confidence, two other distinct random genres with lower confidence, sorted by
confidence.

This project models the page component's state and its three handlers:

- `validation.dfy` (module `Validation`): the upload check. A file is accepted when
  its MIME type is one of five audio types OR its name ends in one of four
  extensions, and its size is at most 10 MiB. The format is checked first.
- `fallback.dfy` (module `Fallback`): the synthetic ranking built when the remote
  call fails. It covers the drawing loop with its inner rejection loop, the
  in-place stable sort of positions by descending confidence, and reading both
  lists through the sorted positions.
- `classifier.dfy` (module `Classifier`): class `MusicClassifier`, whose fields are
  the component's state (`file`, `fileUrl`, `analyzing`, `results`, `error`,
  `showGenreInfo`, `showRatingSystem`). Its methods `SelectFile`, `Analyze` and
  `Reset` are the three handlers. The browser's object-URL table is a
  `UrlRegistry` object shared with the page. A few client methods at the end walk
  through the page's usage scenarios.
- `options.dfy` (module `Options`): the `Option` type used for nullable fields.

Abstractions:
- The remote analysis is an `Outcome` argument: an answer, or a failure.
- Each call of the random generator reads the next element of an injected
  sequence of reals in [0, 1).
- Confidences are exact `real`s.
- The ten genres are an enumerated type whose `Name()` is the label string.

## Behaviour notes

- `handleReset` (page.tsx lines 205-216) clears `fileUrl` without calling
  `URL.revokeObjectURL`, so the playback URL stays live after a reset. `Reset`
  states that the old URL is still in the live set.
- A file that is both too large and of an unsupported format gets the format error:
  the format check returns before the size is looked at (lines 117-124).
- A missing `top_genres` or `top_confidences` in the answer becomes `[]`
  (lines 158-159); lists that are present, including empty ones, are copied as
  they are.
- The page state is a set of independent fields, not one tagged variant.

## Model

| member | source | states |
|---|---|---|
| Validation.Validate | src/app/music-classifier/page.tsx:114-130 | accepted iff (listed MIME type or listed extension) and size at most 10485760; unsupported format iff the format test fails, whatever the size; too large iff the format passes and the size exceeds the limit |
| Validation.ExtensionAloneSuffices | src/app/music-classifier/page.tsx:116-121 | any name ending in .mp3/.wav/.ogg/.m4a passes the format test with any MIME type; the verdict then depends on size alone |
| Validation.MimeTypeAloneSuffices | src/app/music-classifier/page.tsx:116-117 | a listed MIME type passes the format test with any name |
| Validation.FormatReportedFirst | src/app/music-classifier/page.tsx:116-130 | a file failing both tests is rejected for its format and shown the format message |
| Fallback.NameInjective | src/app/music-classifier/page.tsx:167 | the ten genre labels are pairwise different |
| Fallback.FirstFresh | src/app/music-classifier/page.tsx:177-180 | the rejection loop stops at the first draw whose genre is not yet taken; every draw it skips has a taken genre |
| Fallback.DrawFresh | src/app/music-classifier/page.tsx:177-180 | the do-while returns a genre not yet taken, exactly at the position FirstFresh names |
| Fallback.DrawExtra | src/app/music-classifier/page.tsx:176-184 | one pass of the for loop pushes the fresh genre and a confidence of the next draw times 0.7 |
| Fallback.DrawCandidates | src/app/music-classifier/page.tsx:167-184 | the drawing code produces exactly the lists the specification function Candidates gives for the same draws |
| Fallback.StepWellDrawn | src/app/music-classifier/page.tsx:176-184 | pushing a not-yet-taken genre keeps the genres distinct, keeps the lists of equal length, and leaves the primary entry in place |
| Fallback.ExtendWellDrawn | src/app/music-classifier/page.tsx:176-184 | after any number of passes the lists stay distinct and of equal length, the primary confidence stays in [0.7, 1.0), and the extra confidences stay in [0, 0.7) |
| Fallback.CandidatesShape | src/app/music-classifier/page.tsx:167-184 | the drawn lists hold three distinct genres; the first is the first draw's genre, with confidence 0.7 + 0.3 times the second draw |
| Fallback.SortByConfidence | src/app/music-classifier/page.tsx:187-188 | the index array ends as a permutation of 0 .. n-1, ordered by non-increasing confidence, with equal confidences kept in ascending index order (the sort is stable) |
| Fallback.PermutationDistinct | src/app/music-classifier/page.tsx:187-191 | a rearrangement of 0 .. n-1 lists each position once, so reading lists through it loses and repeats nothing |
| Fallback.DistinctCount | src/app/music-classifier/page.tsx:187 | in a list without repeats every value occurs at most once |
| Fallback.NamesDistinct | src/app/music-classifier/page.tsx:190 | distinct genres give distinct labels |
| Fallback.PrimaryRanksFirst | src/app/music-classifier/page.tsx:169-188 | because the primary confidence exceeds every other, the sort leaves position 0 first |
| Fallback.RankedFacts | src/app/music-classifier/page.tsx:186-194 | reading the drawn lists through the sorted positions gives three distinct labels, non-increasing confidences with ties in drawing order, and the first-drawn genre first |
| Fallback.RankFallback | src/app/music-classifier/page.tsx:166-191 | the sorted genres and confidences are the drawn ones under one shared permutation; there are three distinct genres; confidences are non-increasing; the primary draw is first with confidence in [0.7, 1.0); the others are in [0, 0.7) |
| Fallback.RankOrderUnique | src/app/music-classifier/page.tsx:187-188 | ranking positions by descending confidence and then ascending index is a strict total order, so two arrangements of the same positions that are both in rank order are equal: the stable sort has one possible outcome |
| Classifier.RankingIsFallback | src/app/music-classifier/page.tsx:186-199 | any ranking with RankFallback's properties, including ties kept in drawing order, packed with entry 0 as genre and confidence and no spectrogram, is a valid fallback result for those draws |
| Classifier.FallbackResults | src/app/music-classifier/page.tsx:164-199 | the fallback result reads the drawn lists through one shared permutation that keeps equal confidences in drawing order; it has three distinct genres, non-increasing confidences, genre and confidence equal to entry 0 (the first draw's genre with 0.7 + 0.3 times the second draw), the other confidences in [0, 0.7), and no spectrogram |
| Classifier.RankedOrderSorted | src/app/music-classifier/page.tsx:187-190 | lists read through a permutation that keeps ties in drawing order, with non-increasing confidences, list the positions in the sort's rank order |
| Classifier.FallbackDetermined | src/app/music-classifier/page.tsx:164-199 | the draws fix the fallback result completely: two results that both satisfy the fallback predicate for the same draws are equal, so the model admits exactly the ranking the page shows |
| Classifier.UrlRegistry.Create | src/app/music-classifier/page.tsx:140 | creating a URL yields one never handed out before and adds only it to the live set |
| Classifier.UrlRegistry.Revoke | src/app/music-classifier/page.tsx:138 | revoking removes exactly that URL from the live set |
| Classifier.MusicClassifier.constructor | src/app/music-classifier/page.tsx:80-95 | the page starts with no file, URL, results, error or open panel, and not analysing |
| Classifier.MusicClassifier.SelectFile | src/app/music-classifier/page.tsx:114-142 | a rejected file sets only the matching error; an accepted file becomes the file and clears the error and results; the old URL is released and a fresh one is created and stored, so the live set loses the old URL and gains exactly the new one; the invariant that the chosen file passed the check is kept |
| Classifier.MusicClassifier.Analyze | src/app/music-classifier/page.tsx:144-203 | without a file nothing changes; otherwise analysis ends not analysing and with results; an answer is copied with missing lists read as empty and the error cleared; a failure sets the error message and shows the fallback result, which the draws determine exactly (FallbackDetermined); it requires that no analysis is running, because the button is disabled then (line 315) |
| Classifier.MusicClassifier.Reset | src/app/music-classifier/page.tsx:205-216 | file, URL, results, error and genre panel become empty and the rating panel closes; the state after it does not depend on the state before, so a second reset changes nothing; the dropped URL stays live |
| Classifier.DemoDrawsSuffice | src/app/music-classifier/page.tsx:167-180 | draws 0.05, 0.5, 0.15, 0.25, 0.35, 0.45 select rock first and let the rejection loop finish within the sequence |

## Left out

- Rendering (page.tsx lines 247-490) and the drag-and-drop event plumbing (lines 99-112) are UI. So are the genre-panel and rating-panel buttons (`toggleGenreInfo`, `setShowRatingSystem`) and clearing the file input element on reset (lines 213-215).
- `ApiStatusIndicator` (lines 36-77) is a mount-time network health check. The unused `apiStatus`/`apiMessage` state is left out with it.
- `analyzeAudio`, `checkApiHealth` and `submitRating` belong to the API module, which is not part of this model; they are network calls. The analysis call is modelled only by its outcome.
- `shareResults` (lines 222-245) is left out: it opens windows, writes to the clipboard, uses a timer, and rounds floats.
- `RatingSystem` is not part of this model. The `genreInfo` descriptions (lines 22-33) are display text.
- Logging with `console.error` is left out.
- Floating-point arithmetic is not modelled. Confidences are exact reals, so `0.7 + r * 0.3` can never round up to 1.0 in the model.
- Fallback.Sufficient: the model requires draws long enough for the rejection loop to find its two new genres. The source's loop ends only with probability one; a draw sequence that runs out stands for a run that would loop forever, so the model excludes it.
- Classifier.MusicClassifier.Analyze: the await is modelled as one atomic step. Other handlers that could run while the call is pending (choosing or resetting a file) are not interleaved, and `analyzing` is true only inside the method.
- React's batching of state updates and re-rendering are not modelled. Each handler's assignments take effect in order.
