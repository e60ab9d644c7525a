# Fruit classifier stand-in, modelled in Dafny

`web/tfjs_model.js` is a browser stand-in for a TensorFlow Lite fruit
classifier. It holds one mutable model state: the `loaded` and `loading`
flags, the label list, and a cached class count in `modelInfo.classes`. It
loads a label file, one label per line. It "predicts" by counting pixels of
a 224 x 224 RGBA canvas that meet hard-coded colour thresholds for Apple,
Banana and Orange. It adds random jitter and padding scores, normalises by
the sum, and returns the label at the argmax.

The project models that core in four modules:

- `Wrappers` (`wrappers.dfy`): `Option` and `Result`. `None` stands for a
  fetch that threw. `Failure` stands for the error `predict` throws.
- `Labels` (`labels.dfy`): `split('\n')`, ECMAScript `trim`, and the
  empty-line filter, as pure functions. The lemmas prove three things.
  Trimming cuts off only white space, at both ends. Split and join are
  inverses. A label file of well-formed labels parses back to exactly those
  labels, in order.
- `Scorer` (`scorer.dfy`): `simulateYourModel`. The counting loop is a
  method over the RGBA buffer, proved against a per-fruit hit count. The
  score vector is built by `push` calls and a padding `while` loop, proved
  against a slot layout. Normalisation is over reals with an explicit `NaN`.
  JavaScript's `0 / 0` on a zero sum is therefore kept, not hidden.
- `Model` (`model.dfy`): the argmax loop, proved against a specification:
  the first index of the largest score, or `(0, 0)` when nothing exceeds 0.
  It also holds the prediction result and the `ModelState` class with the
  load/predict state machine and the info snapshot.

Random draws (`Math.random()`) are a parameter `draws`: one draw per score
slot, in the order the slots are pushed, each in [0, 1). The fetched label
text is a parameter of type `Option<string>`. The canvas buffer is a
parameter of type `seq<Byte>`.

The model follows the code in three places where a reader might expect
otherwise.

- The score slots do not follow label positions. Slot 0 is always Apple's
  score when "Apple" is a label, then Banana, then Orange, then padding.
  Yet `allScores[i]` and the predicted fruit are named by `labels[i]`. With
  the labels ordered Orange, Apple, Banana, a solid red image is reported
  as "Orange" (`ReorderedLabelsMislabelRedImage`).
- Normalisation has no zero-sum guard. A solid black image with the default
  labels gives every score `NaN`. `NaN > maxScore` never holds, so the
  prediction is the first label at 0 % (`BlackImageIsFirstLabelAtZero`).
  One might expect a uniform distribution instead.
- A failed load clears only `loading`; it does not reset `loaded`
  (`FinishLoad`). One might expect a failed load to leave the model
  unloaded.

## Model

| member | source | states |
|---|---|---|
| `Labels.IsSpace` | web/tfjs_model.js:23 | definition: the characters `.trim()` removes, ECMAScript's WhiteSpace and LineTerminator set; `LeadingBlanks`, `TrailingBlanks` and `TrimIsSlice` rest on it |
| `Labels.TrimStart` | web/tfjs_model.js:23 | the result is a suffix of the input and does not start with white space |
| `Labels.TrimEnd` | web/tfjs_model.js:23 | the result is a prefix of the input and does not end with white space |
| `Labels.LeadingBlanks` | web/tfjs_model.js:23 | every character cut off at the front is ECMAScript white space |
| `Labels.TrailingBlanks` | web/tfjs_model.js:23 | every character cut off at the back is ECMAScript white space |
| `Labels.Trim` | web/tfjs_model.js:23 | `.trim()`: the result has no white space at either end; `TrimIsSlice` proves it is the contiguous middle of the input with only white space around it |
| `Labels.TrimIsSlice` | web/tfjs_model.js:23 | `trim` returns the contiguous middle of the line; everything before and after it is white space |
| `Labels.TrimKeepsCharacters` | web/tfjs_model.js:23 | trimming introduces no character, so a line without a line feed trims to one without |
| `Labels.TrimFixesTrimmed` | web/tfjs_model.js:23 | trimming leaves a string unchanged exactly when it has no white space at either end |
| `Labels.Split` | web/tfjs_model.js:22 | `split('\n')` gives at least one piece and no piece holds a line feed |
| `Labels.JoinSplit` | web/tfjs_model.js:22 | joining the pieces with line feeds gives back the text (nothing is lost by splitting) |
| `Labels.SplitLine` | web/tfjs_model.js:22 | a line without a line feed splits off first, ahead of the pieces of the rest |
| `Labels.SplitJoin` | web/tfjs_model.js:22 | pieces without line feeds, joined then split, come back unchanged and in order |
| `Labels.CleanLines` | web/tfjs_model.js:23-24 | the trim-and-filter result is no longer than the lines and holds only non-empty trimmed strings |
| `Labels.ParseLabels` | web/tfjs_model.js:22-24 | the split/trim/filter chain yields at most one label per line, each non-empty, trimmed and free of line feeds; `ParseLabelsLine`, `CleanLinesEmpty` and `ParseJoin` characterise it further |
| `Labels.CleanLinesSingleLine` | web/tfjs_model.js:22-24 | trim-and-filter of line-feed-free lines yields well-formed labels only |
| `Labels.ParseLabelsLine` | web/tfjs_model.js:22-24 | a blank first line contributes nothing; otherwise its trimmed text comes first, before the labels of the rest |
| `Labels.CleanLinesEmpty` | web/tfjs_model.js:23-26 | the parsed list is empty exactly when every line is blank after trimming |
| `Labels.ParseJoin` | web/tfjs_model.js:22-24 | a file of well-formed labels, one per line, parses back to exactly those labels in the same order |
| `Scorer.Fruit.Matches` | web/tfjs_model.js:67-73 | definition: the colour thresholds (apple r>150, g<110, b<110; banana r>180, g>160, b<100; orange r>200, g>120, b<80); `AppleDisjoint` and `SolidHits` rest on it |
| `Scorer.Counter` | web/tfjs_model.js:57-75 | definition: the final value of a counter, its fruit's hit count when the `includes` gate passes and 0 otherwise; `CountPixels` proves the loop computes it and `CounterBounds` bounds it |
| `Scorer.Hits` | web/tfjs_model.js:60-75 | a per-fruit hit count over the first n pixels never exceeds n |
| `Scorer.CountPixels` | web/tfjs_model.js:57-75 | the stride-4 loop leaves each counter equal to its fruit's hit count over all pixels when the fruit's exact name is a label, and 0 otherwise; alpha is ignored |
| `Scorer.AppleDisjoint` | web/tfjs_model.js:67-73 | no pixel counts as both apple and banana, nor as both apple and orange |
| `Scorer.CounterBounds` | web/tfjs_model.js:57-75 | each counter is at most totalPixels, a counter whose name is not a label is 0, and red+yellow and red+orange are at most totalPixels |
| `Scorer.SolidHits` | web/tfjs_model.js:60-75 | on a one-colour buffer a fruit counts every pixel or none |
| `Scorer.RedImageCounters` | web/tfjs_model.js:60-74 | solid (200,50,50) with "Apple" a label gives redScore = totalPixels and yellowScore = orangeScore = 0 |
| `Scorer.BlackImageCounters` | web/tfjs_model.js:60-74 | solid black leaves all three counters at 0 |
| `Scorer.Present` | web/tfjs_model.js:79-87 | the fruits that get a counter slot: a fruit is listed exactly when its exact name is a label, and the listed fruits are strictly in `push` order Apple, Banana, Orange (so none twice) |
| `Scorer.PresentFits` | web/tfjs_model.js:78-92 | there are never more known-fruit slots than labels |
| `Scorer.Layout` | web/tfjs_model.js:78-92 | the vector has one slot per label; the first slots are the known names present, in the fixed order Apple, Banana, Orange; the rest are padding |
| `Scorer.Jittered` | web/tfjs_model.js:79-87 | `count / totalPixels * (0.8 + Math.random() * 0.2)`: for a draw in [0, 1) the score lies between 0 and the plain ratio |
| `Scorer.Raw` | web/tfjs_model.js:78-92 | the raw score vector has one score per label, slot i taking the i-th draw; `RawScores` proves the pushes and loop compute it, and `RawNonNegative` and `RedImageRaw` bound it |
| `Scorer.RawNonNegative` | web/tfjs_model.js:80-91 | every pushed raw score is non-negative |
| `Scorer.PushKnown` | web/tfjs_model.js:78-87 | the three conditional pushes produce one jittered counter ratio for each known fruit present, in fixed order, with slot i using the i-th draw |
| `Scorer.RawScores` | web/tfjs_model.js:78-92 | the pushes and the padding loop yield exactly the layout's scores, one per label |
| `Scorer.Sum` | web/tfjs_model.js:95 | the `reduce` left fold from 0: a sum of non-negative scores is non-negative; `SumNonNegative` and `SumScaled` prove the rest |
| `Scorer.SumNonNegative` | web/tfjs_model.js:95 | the sum of non-negative scores bounds each score and is 0 exactly when every score is 0 |
| `Scorer.SumScaled` | web/tfjs_model.js:95-96 | dividing every score by the sum divides the total by it |
| `Scorer.Normalize` | web/tfjs_model.js:95-96 | normalisation keeps one entry per raw score |
| `Scorer.NormalizeDistribution` | web/tfjs_model.js:95-96 | with a positive sum every normalised score lies in [0, 1] and they sum to 1 |
| `Scorer.NormalizeSumsToOne` | web/tfjs_model.js:95-96 | the scores divided by their positive sum add up to 1 |
| `Scorer.NormalizeZeroSum` | web/tfjs_model.js:95-96 | the sum is 0 exactly when every raw score is 0, and then every normalised score is NaN |
| `Scorer.Simulated` | web/tfjs_model.js:57-98 | the score vector has exactly one entry per label |
| `Scorer.Simulate` | web/tfjs_model.js:57-98 | counting, pushing and normalising together compute the specified score vector |
| `Model.DefaultLabelsWellFormed` | web/tfjs_model.js:8 | the built-in labels are three non-empty, trimmed, single-line names |
| `Model.Exceeds` | web/tfjs_model.js:155 | definition: JavaScript's `scores[i] > maxScore` on a score that may be NaN, false for NaN; `Best` and `Argmax` prove a NaN never wins (`s[r.0] == Num(r.1)` when the score is positive) |
| `Model.Peak` | web/tfjs_model.js:151-159 | the peak is at least 0, at least every finite score, and is itself a score when positive |
| `Model.FirstIndex` | web/tfjs_model.js:154-158 | the index holds the value and no earlier index does |
| `Model.Best` | web/tfjs_model.js:151-159 | maxScore >= 0 and >= every finite score; when positive, maxIndex is the first index holding it; otherwise maxIndex = 0 and maxScore = 0; maxIndex is in range for a non-empty vector |
| `Model.Argmax` | web/tfjs_model.js:151-159 | the strict-`>` loop from (0, 0) returns exactly that specified argmax, NaN scores never winning |
| `Model.ScanStep` | web/tfjs_model.js:154-159 | one loop iteration turns the argmax of a prefix into the argmax of the prefix one longer |
| `Model.BestIsStrictMaximum` | web/tfjs_model.js:151-159 | a positive score strictly above all others is selected, at its index |
| `Model.PickLabel` | web/tfjs_model.js:161 | the falsy fallback from `labels[maxIndex]` to 'Inconnu' yields one of the labels or 'Inconnu', and never the empty string; `PredictedShape` proves the fallback is never taken when the labels satisfy the state invariant |
| `Model.Percent` | web/tfjs_model.js:176-179 | definition: `s * 100` on a score that may be NaN (before `toFixed(1)`); `Predicted` pairs it with each label in `allScores` |
| `Model.Predicted` | web/tfjs_model.js:151-179 | the resolved object: modelType 'TFLite Personnel', fruit the label picked at the argmax index, confidence 100 times the argmax score (never negative), and one `allScores` entry per label pairing `labels[k]` with 100 times score k |
| `Model.PredictedShape` | web/tfjs_model.js:161-179 | with non-empty well-formed labels, `allScores` has one entry per label, entry i carries `labels[i]`, and the fruit is `labels[maxIndex]`, so the 'Inconnu' fallback is never taken |
| `Model.RedImageRaw` | web/tfjs_model.js:78-92 | with tallies (n, 0, 0) and "Apple" a label, slot 0 holds 0.8 + 0.2 times its draw and every other slot is below 0.3 (0 for a known fruit); `RedImageCounters` shows these are the tallies of a solid (200,50,50) image |
| `Model.RedImagePredictsFirstLabel` | web/tfjs_model.js:78-161 | a solid (200,50,50) image is predicted as `labels[0]` wherever "Apple" sits in the labels |
| `Model.ReorderedLabelsMislabelRedImage` | web/tfjs_model.js:78-178 | with labels Orange, Apple, Banana, a solid red image is reported as "Orange" |
| `Model.RedImageScores` | web/tfjs_model.js:57-96 | with the default labels a solid (200,50,50) image normalises to the scores [1, 0, 0] |
| `Model.RedImageIsApple` | web/tfjs_model.js:57-162 | with the default labels a solid (200,50,50) image scores [1, 0, 0] and is predicted "Apple" at 100 % |
| `Model.BlackImageIsFirstLabelAtZero` | web/tfjs_model.js:57-162 | with the default labels a solid black image gives NaN scores and is predicted "Apple" at 0 % |
| `Model.ReloadedLabels` | web/tfjs_model.js:26-28 | the labels after a label load are either the old ones or the parsed text, and never empty when the old ones were not |
| `Model.ReloadedLabelsWellFormed` | web/tfjs_model.js:26-35 | a label load keeps the labels non-empty and well-formed; a failed fetch or an all-blank text leaves them unchanged |
| `Model.ReloadFromFile` | web/tfjs_model.js:22-28 | a file of well-formed labels, one per line, replaces the store with exactly those labels |
| `Model.ModelState.constructor` | web/tfjs_model.js:5-15 | the start state is not loaded, not loading, has the three default labels and classes = 3 |
| `Model.ModelState.LoadCustomLabels` | web/tfjs_model.js:18-36 | returns true exactly when the fetch succeeded; labels and classes are replaced together only by a non-empty parsed list; the invariant (labels non-empty and well-formed, classes = number of labels) is kept |
| `Model.ModelState.BeginLoad` | web/tfjs_model.js:105-107 | a load already in flight is refused (false, nothing changes); otherwise `loading` becomes true; the invariant is kept |
| `Model.ModelState.FinishLoad` | web/tfjs_model.js:110-132 | labels are reloaded; success ends loaded and not loading; failure ends not loading with `loaded` unchanged |
| `Model.ModelState.LoadModel` | web/tfjs_model.js:104-133 | while loading it returns false and changes nothing; otherwise it ends with loading false, returns true and sets loaded exactly when no fault occurs, and keeps the invariant |
| `Model.ModelState.Predict` | web/tfjs_model.js:136-186 | fails with NotLoaded when not loaded; otherwise returns the specified prediction for the buffer; never changes the state |
| `Model.ModelState.GetLabels` | web/tfjs_model.js:189-191 | under the invariant the labels returned are non-empty and well-formed |
| `Model.ModelState.GetModelInfo` | web/tfjs_model.js:194-202 | the snapshot carries the same labels as `getLabels` and the loaded flag, and its classes equals the number of labels |
| `Model.PredictDuringReload` | web/tfjs_model.js:104-139 | after a successful load, predict still succeeds while a second load is in flight, since only `loaded` is checked |
| `Model.ConcurrentLoadRefused` | web/tfjs_model.js:105 | a second load started while one is in flight returns false |

## Left out

- convert_tflite.py is not part of this model. It is I/O plumbing: it runs pip and the converter as subprocesses, checks and copies files, and prints.
- `fetch('model/labels.txt')` and `response.text()` are replaced by the `Option<string>` input. The source never checks the HTTP status, so the text of an error page would be parsed as labels; the model takes whatever text arrives.
- Canvas `drawImage`/`getImageData` resampling is a host call. The RGBA buffer is an input of 4 x 224 x 224 bytes. An exception from `drawImage` or `getImageData` (web/tfjs_model.js:52-53), which `predict` rethrows at web/tfjs_model.js:184, is not modelled.
- The `setTimeout` delays and async suspension are not modelled: steps run in sequence. `loadModel` is split into `BeginLoad` and `FinishLoad` so the `loading` window can be seen. `Predict` reads the labels once, so a reload landing during its 1.5 s delay (between the `loaded` check and the scoring) is not modelled.
- `Math.random()` is the `draws` parameter, one draw per score slot. `Predict` therefore requires `|draws| == |labels|`; the random source itself is not modelled.
- `Scorer.Normalize`: computes in exact reals with an explicit NaN. Floating-point rounding is not modelled, so the sum of normalised scores is exactly 1, not 1 up to rounding.
- `toFixed` formatting of `confidence` and of each `allScores` score is not modelled: both are kept as unformatted percentages.
- `getLabels` and `getModelInfo` return the store's own array in the source, so a caller could mutate the labels through it. Dafny sequences are values, so that aliasing is not modelled.
- The `examModelReady` `CustomEvent`, the `window.tfjsModel` export, the automatic start-up load scheduled by `setTimeout`, and all `console` logging are not modelled.
- `Model.ModelState.FinishLoad`: the `fault` flag stands for an exception in the awaited steps. Nothing in those steps can throw as written, because `loadCustomLabels` catches its own errors and the delay never rejects. The model keeps the path so that the failure branch is visible.
