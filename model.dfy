/**
 * The lifecycle controller of the fruit classifier stand-in: the single
 * model state with its `loaded`/`loading` flags, label list and cached class
 * count; loading (label fetch, then a simulated delay); prediction (scoring,
 * argmax, label pick and result shaping); and the info snapshot.
 */
module Model {
  import opened Wrappers
  import opened Labels
  import opened Scorer

  /** Side of the square canvas the image is resampled to. */
  const InputSize: nat := 224
  const ModelName: string := "Votre Modèle TFLite"
  const ModelKind: string := "TensorFlow Lite"
  const ModelSource: string := "assets/model/model.tflite"
  const Student: string := "VOTRE NOM - EXAMEN"
  /** The `modelType` every prediction reports. */
  const PredictionKind: string := "TFLite Personnel"
  /** The fallback fruit name when the winning index names no label. */
  const Unknown: string := "Inconnu"
  /** The built-in labels the state starts with. */
  const DefaultLabels: seq<string> := ["Apple", "Banana", "Orange"]

  /** The built-in labels are non-empty, trimmed single-line names. */
  lemma DefaultLabelsWellFormed()
    ensures |DefaultLabels| == 3
    ensures forall k :: 0 <= k < |DefaultLabels| ==> WellFormedLabel(DefaultLabels[k])
  {
    assert WellFormedLabel(DefaultLabels[0]);
    assert WellFormedLabel(DefaultLabels[1]);
    assert WellFormedLabel(DefaultLabels[2]);
  }

  // ---------------------------------------------------------------- argmax

  /** `score > maxScore` in JavaScript: false whenever the score is NaN. */
  predicate Exceeds(x: Number, m: real) {
    x.Num? && x.v > m
  }

  /** The largest finite score, or 0 when none is positive. */
  function Peak(s: seq<Number>): (m: real)
    ensures m >= 0.0
    ensures forall j :: 0 <= j < |s| && s[j].Num? ==> s[j].v <= m
    ensures m > 0.0 ==> Num(m) in s
  {
    if s == [] then 0.0
    else
      var p := Peak(s[..|s| - 1]);
      if Exceeds(s[|s| - 1], p) then s[|s| - 1].v else p
  }

  /** The position of the first occurrence of `x`. */
  function FirstIndex(s: seq<Number>, x: Number): (k: nat)
    requires x in s
    ensures k < |s| && s[k] == x
    ensures forall j :: 0 <= j < k ==> s[j] != x
  {
    if s[0] == x then 0 else 1 + FirstIndex(s[1..], x)
  }

  /**
   * The pair `(maxIndex, maxScore)` of the argmax loop: the first index of
   * the largest score when that score is positive, and `(0, 0)` otherwise.
   */
  function Best(s: seq<Number>): (r: (nat, real))
    ensures r.1 >= 0.0
    ensures forall j :: 0 <= j < |s| && s[j].Num? ==> s[j].v <= r.1
    ensures r.1 > 0.0 ==> r.0 < |s| && s[r.0] == Num(r.1) && forall j :: 0 <= j < r.0 ==> s[j] != Num(r.1)
    ensures r.1 == 0.0 ==> r.0 == 0
    ensures |s| > 0 ==> r.0 < |s|
  {
    var m := Peak(s);
    if m > 0.0 then (FirstIndex(s, Num(m)), m) else (0, 0.0)
  }

  /** The argmax loop of `predict`: strict `>` from `maxScore = 0, maxIndex = 0`. */
  method Argmax(scores: seq<Number>) returns (maxIndex: nat, maxScore: real)
    ensures (maxIndex, maxScore) == Best(scores)
  {
    maxScore, maxIndex := 0.0, 0;
    for i := 0 to |scores|
      invariant Scanned(scores, i, maxIndex, maxScore)
    {
      ScanStep(scores, i, maxIndex, maxScore);
      if Exceeds(scores[i], maxScore) {
        maxScore := scores[i].v;
        maxIndex := i;
      }
    }
    assert scores[..|scores|] == scores;
  }

  /** After scanning `s[..i]`, `(idx, m)` is the argmax of that prefix. */
  ghost predicate Scanned(s: seq<Number>, i: nat, idx: nat, m: real)
    requires i <= |s|
  {
    m == Peak(s[..i])
    && (m > 0.0 ==> idx < i && s[idx] == Num(m) && forall j :: 0 <= j < idx ==> s[j] != Num(m))
    && (m == 0.0 ==> idx == 0)
  }

  /** One iteration of the argmax loop keeps `Scanned`. */
  lemma ScanStep(s: seq<Number>, i: nat, idx: nat, m: real)
    requires i < |s| && Scanned(s, i, idx, m)
    ensures Exceeds(s[i], m) ==> Scanned(s, i + 1, i, s[i].v)
    ensures !Exceeds(s[i], m) ==> Scanned(s, i + 1, idx, m)
  {
    assert s[..i + 1][..i] == s[..i];
    if Exceeds(s[i], m) {
      forall j | 0 <= j < i ensures s[j] != Num(s[i].v) {
        assert s[..i][j] == s[j];
      }
    }
  }

  /** A positive score strictly above every other one wins, at its index. */
  lemma BestIsStrictMaximum(s: seq<Number>, k: nat)
    requires k < |s| && s[k].Num? && s[k].v > 0.0
    requires forall j :: 0 <= j < |s| && j != k ==> s[j].Num? && s[j].v < s[k].v
    ensures Best(s) == (k, s[k].v)
  {
    var m := Peak(s);
    assert m == s[k].v;
  }

  // ---------------------------------------------------------------- prediction

  /** One entry of `allScores`: a label and its score as a percentage (before `toFixed(1)`). */
  datatype ScoreEntry = ScoreEntry(fruit: string, percent: Number)

  /** The object `predict` resolves to; `confidence` is the percentage before `toFixed(2)`. */
  datatype Prediction = Prediction(fruit: string, confidence: real, modelType: string, allScores: seq<ScoreEntry>)

  /** The error `predict` throws before the model has loaded. */
  datatype PredictError = NotLoaded

  /** A score times 100; NaN stays NaN. */
  function Percent(x: Number): Number {
    match x
    case Num(v) => Num(v * 100.0)
    case NaN => NaN
  }

  /**
   * `labels[maxIndex] || 'Inconnu'`: an index past the end or an empty label
   * is falsy. The fruit is one of the labels or the fallback, and never empty.
   */
  function PickLabel(labels: seq<string>, i: nat): (fruit: string)
    ensures fruit == Unknown || fruit in labels
    ensures fruit != []
  {
    if i < |labels| && labels[i] != [] then labels[i] else Unknown
  }

  /** The prediction for a canvas buffer, given the labels and the random draws of the call. */
  function Predicted(labels: seq<string>, data: seq<Byte>, draws: seq<real>): (p: Prediction)
    requires |data| > 0 && |data| % 4 == 0 && |draws| == |labels| && ValidDraws(draws)
    ensures p.modelType == PredictionKind
    ensures p.fruit == PickLabel(labels, Best(Simulated(labels, data, draws)).0)
    ensures p.confidence == 100.0 * Best(Simulated(labels, data, draws)).1 && p.confidence >= 0.0
    ensures |p.allScores| == |labels|
    ensures forall k :: 0 <= k < |labels| ==>
              p.allScores[k] == ScoreEntry(labels[k], Percent(Simulated(labels, data, draws)[k]))
  {
    var scores := Simulated(labels, data, draws);
    var best := Best(scores);
    Prediction(PickLabel(labels, best.0), best.1 * 100.0, PredictionKind,
               seq(|scores|, k requires 0 <= k < |scores| => ScoreEntry(labels[k], Percent(scores[k]))))
  }

  /**
   * With a non-empty list of well-formed labels, `allScores` pairs entry `i`
   * with `labels[i]` and the fruit is the label at the argmax: the
   * `'Inconnu'` fallback is never taken.
   */
  lemma PredictedShape(labels: seq<string>, data: seq<Byte>, draws: seq<real>)
    requires |data| > 0 && |data| % 4 == 0 && |draws| == |labels| && ValidDraws(draws)
    requires |labels| > 0 && forall k :: 0 <= k < |labels| ==> WellFormedLabel(labels[k])
    ensures var p := Predicted(labels, data, draws);
            |p.allScores| == |labels|
            && (forall k :: 0 <= k < |labels| ==> p.allScores[k].fruit == labels[k])
            && p.fruit == labels[Best(Simulated(labels, data, draws)).0]
            && p.fruit in labels
  {
    var scores := Simulated(labels, data, draws);
    var best := Best(scores);
    assert best.0 < |labels|;
    assert WellFormedLabel(labels[best.0]);
  }

  /** The raw scores for tallies (n, 0, 0), those of a solid (200, 50, 50) image: slot 0 holds the jittered apple ratio, every other slot less than 0.3. */
  lemma RedImageRaw(labels: seq<string>, n: nat, draws: seq<real>)
    requires "Apple" in labels && n > 0
    requires |draws| == |labels| && ValidDraws(draws)
    ensures var raw := Raw(labels, Tally(n, 0, 0), n, draws);
            raw[0] == 0.8 + draws[0] * 0.2
            && (forall j :: 0 < j < |raw| ==> 0.0 <= raw[j] < 0.3)
            && (forall j :: 0 < j < |raw| && Layout(labels)[j].Known? ==> raw[j] == 0.0)
  {
    var t := Tally(n, 0, 0);
    var raw := Raw(labels, t, n, draws);
    SelfRatio(n as real);
    assert Present(labels)[0] == Apple;
    forall j | 0 < j < |raw| ensures 0.0 <= raw[j] < 0.3 && (Layout(labels)[j].Known? ==> raw[j] == 0.0) {
      var slot := Layout(labels)[j];
      if slot.Known? {
        assert Present(labels)[j] != Apple;
        assert t.Of(slot.fruit) == 0;
      }
    }
  }

  /**
   * A solid (200, 50, 50) image, with "Apple" among the labels, is predicted
   * as the FIRST label, whichever position "Apple" holds: the apple score
   * always sits in slot 0.
   */
  lemma RedImagePredictsFirstLabel(labels: seq<string>, a: Byte, n: nat, draws: seq<real>)
    requires "Apple" in labels && n > 0
    requires |draws| == |labels| && ValidDraws(draws)
    ensures Best(Simulated(labels, Solid(200, 50, 50, a, n), draws)).0 == 0
    ensures Predicted(labels, Solid(200, 50, 50, a, n), draws).fruit == PickLabel(labels, 0)
  {
    var data := Solid(200, 50, 50, a, n);
    RedImageCounters(labels, a, n);
    var t := Tally(n, 0, 0);
    assert |data| / 4 == n;
    var raw := Raw(labels, t, n, draws);
    RedImageRaw(labels, n, draws);
    RawNonNegative(labels, t, n, draws);
    SumNonNegative(raw);
    var total := Sum(raw);
    var s := Normalize(raw);
    assert s == Simulated(labels, data, draws);
    forall j | 0 <= j < |s| && j != 0 ensures s[j].Num? && s[j].v < s[0].v {
      StrictRatio(raw[j], raw[0], total);
    }
    StrictRatio(0.0, raw[0], total);
    BestIsStrictMaximum(s, 0);
  }

  /**
   * Score slots do not follow label positions: with the labels listed as
   * Orange, Apple, Banana a solid (200, 50, 50) image is reported as "Orange".
   */
  lemma ReorderedLabelsMislabelRedImage(a: Byte, n: nat, draws: seq<real>)
    requires n > 0 && |draws| == 3 && ValidDraws(draws)
    ensures Predicted(["Orange", "Apple", "Banana"], Solid(200, 50, 50, a, n), draws).fruit == "Orange"
  {
    RedImagePredictsFirstLabel(["Orange", "Apple", "Banana"], a, n, draws);
  }

  /** Dividing by a positive whole keeps a strict order. */
  lemma StrictRatio(x: real, y: real, whole: real)
    requires x < y && whole > 0.0
    ensures x / whole < y / whole
  {
  }

  /** With the default labels a solid (200, 50, 50) image is an apple at 100 % and the other scores are 0. */
  lemma RedImageIsApple(a: Byte, n: nat, draws: seq<real>)
    requires n > 0 && |draws| == 3 && ValidDraws(draws)
    ensures Simulated(DefaultLabels, Solid(200, 50, 50, a, n), draws) == [Num(1.0), Num(0.0), Num(0.0)]
    ensures Predicted(DefaultLabels, Solid(200, 50, 50, a, n), draws).fruit == "Apple"
    ensures Predicted(DefaultLabels, Solid(200, 50, 50, a, n), draws).confidence == 100.0
  {
    RedImageScores(a, n, draws);
    BestIsStrictMaximum([Num(1.0), Num(0.0), Num(0.0)], 0);
  }

  /** The normalised scores of a solid (200, 50, 50) image under the default labels. */
  lemma RedImageScores(a: Byte, n: nat, draws: seq<real>)
    requires n > 0 && |draws| == 3 && ValidDraws(draws)
    ensures Simulated(DefaultLabels, Solid(200, 50, 50, a, n), draws) == [Num(1.0), Num(0.0), Num(0.0)]
  {
    var data := Solid(200, 50, 50, a, n);
    RedImageCounters(DefaultLabels, a, n);
    assert |data| / 4 == n;
    var raw := Raw(DefaultLabels, Tally(n, 0, 0), n, draws);
    RedImageRaw(DefaultLabels, n, draws);
    assert Present(DefaultLabels) == [Apple, Banana, Orange];
    assert raw == [raw[0], 0.0, 0.0];
    assert raw[..2][..1] == [raw[0]];
    assert Sum([raw[0]]) == raw[0];
    assert Sum(raw[..2]) == raw[0];
    var total := Sum(raw);
    assert total == raw[0];
    SelfRatio(total);
    assert Simulated(DefaultLabels, data, draws) == [Num(1.0), Num(0.0), Num(0.0)];
  }

  /**
   * A solid black image scores 0 everywhere, the zero sum makes every score
   * NaN, and the prediction falls back to the first label at 0 %.
   */
  lemma BlackImageIsFirstLabelAtZero(a: Byte, n: nat, draws: seq<real>)
    requires n > 0 && |draws| == 3 && ValidDraws(draws)
    ensures forall k :: 0 <= k < 3 ==> Simulated(DefaultLabels, Solid(0, 0, 0, a, n), draws)[k] == NaN
    ensures Predicted(DefaultLabels, Solid(0, 0, 0, a, n), draws).fruit == "Apple"
    ensures Predicted(DefaultLabels, Solid(0, 0, 0, a, n), draws).confidence == 0.0
  {
    var data := Solid(0, 0, 0, a, n);
    BlackImageCounters(DefaultLabels, a, n);
    assert |data| / 4 == n;
    var t := Tally(0, 0, 0);
    var raw := Raw(DefaultLabels, t, n, draws);
    assert Present(DefaultLabels) == [Apple, Banana, Orange];
    forall k | 0 <= k < 3 ensures raw[k] == 0.0 {
      assert Layout(DefaultLabels)[k].Known?;
    }
    RawNonNegative(DefaultLabels, t, n, draws);
    NormalizeZeroSum(raw);
    var s := Simulated(DefaultLabels, data, draws);
    assert s == Normalize(raw);
    assert Peak(s) == 0.0;
  }

  // ---------------------------------------------------------------- state

  /** The labels after a label load: the parsed list when the fetch gave text that parses to at least one label. */
  function ReloadedLabels(current: seq<string>, fetched: Option<string>): (next: seq<string>)
    ensures |current| > 0 ==> |next| > 0
    ensures next == current || (fetched.Some? && next == ParseLabels(fetched.value))
  {
    if fetched.Some? && ParseLabels(fetched.value) != [] then ParseLabels(fetched.value) else current
  }

  /**
   * A label load keeps the store non-empty and well-formed; a failed fetch or
   * a text of blank lines keeps the labels; a file written one well-formed
   * label per line installs exactly those labels, in order.
   */
  lemma ReloadedLabelsWellFormed(current: seq<string>, fetched: Option<string>)
    requires |current| > 0 && forall k :: 0 <= k < |current| ==> WellFormedLabel(current[k])
    ensures var next := ReloadedLabels(current, fetched);
            |next| > 0 && forall k :: 0 <= k < |next| ==> WellFormedLabel(next[k])
    ensures fetched.None? ==> ReloadedLabels(current, fetched) == current
    ensures fetched.Some? && ParseLabels(fetched.value) == [] ==> ReloadedLabels(current, fetched) == current
  {
  }

  /** A label file that lists well-formed labels one per line replaces the store with exactly them. */
  lemma ReloadFromFile(current: seq<string>, file: seq<string>)
    requires |file| > 0 && forall k :: 0 <= k < |file| ==> WellFormedLabel(file[k])
    ensures ReloadedLabels(current, Some(Join(file))) == file
  {
    ParseJoin(file);
  }

  /** The snapshot `getModelInfo` returns. */
  datatype ModelInfo = ModelInfo(
    name: string, kind: string, inputSize: nat, classes: int,
    loaded: bool, labels: seq<string>, source: string, student: string)

  /** The single mutable model state. */
  class ModelState {
    var loaded: bool
    var loading: bool
    var labels: seq<string>
    /** The cached `modelInfo.classes`. */
    var classes: int

    /** The labels are non-empty, trimmed single-line names, and the cached count matches them. */
    ghost predicate Valid()
      reads this
    {
      |labels| > 0 && classes == |labels|
      && forall k :: 0 <= k < |labels| ==> WellFormedLabel(labels[k])
    }

    /** The state at start-up: not loaded, not loading, the default labels. */
    constructor ()
      ensures Valid()
      ensures !loaded && !loading && labels == DefaultLabels && classes == 3
    {
      loaded, loading := false, false;
      labels := DefaultLabels;
      classes := 3;
      DefaultLabelsWellFormed();
    }

    /** `loadCustomLabels`, with the fetched text (or `None` when the fetch threw) as input. */
    method LoadCustomLabels(fetched: Option<string>) returns (ok: bool)
      requires Valid()
      modifies this`labels, this`classes
      ensures Valid()
      ensures ok <==> fetched.Some?
      ensures labels == ReloadedLabels(old(labels), fetched)
    {
      match fetched
      case None =>
        ok := false;
      case Some(text) =>
        var customLabels := ParseLabels(text);
        assert ReloadedLabels(labels, fetched) == if customLabels != [] then customLabels else labels;
        if |customLabels| > 0 {
          labels := customLabels;
          classes := |customLabels|;
        }
        ok := true;
    }

    /** The synchronous start of `loadModel`: refuse while a load is in flight, else mark loading. */
    method BeginLoad() returns (started: bool)
      requires Valid()
      modifies this`loading
      ensures Valid()
      ensures started <==> !old(loading)
      ensures loading
    {
      if loading {
        return false;
      }
      loading := true;
      started := true;
    }

    /**
     * The rest of `loadModel`, once resumed: the label load, then the
     * simulated delay; `fault` stands for an exception from the awaited
     * steps, after which only `loading` is cleared.
     */
    method FinishLoad(fetched: Option<string>, fault: bool) returns (ok: bool)
      requires Valid() && loading
      modifies this`loaded, this`loading, this`labels, this`classes
      ensures Valid() && !loading
      ensures ok <==> !fault
      ensures loaded == (old(loaded) || !fault)
      ensures labels == ReloadedLabels(old(labels), fetched)
    {
      var _ := LoadCustomLabels(fetched);
      if fault {
        loading := false;
        return false;
      }
      loaded := true;
      loading := false;
      ok := true;
    }

    /** `loadModel` run to completion without interleaving. */
    method LoadModel(fetched: Option<string>, fault: bool) returns (ok: bool)
      requires Valid()
      modifies this`loaded, this`loading, this`labels, this`classes
      ensures Valid()
      ensures old(loading) ==> !ok && loading && unchanged(this)
      ensures !old(loading) ==>
                !loading && (ok <==> !fault) && loaded == (old(loaded) || !fault)
                && labels == ReloadedLabels(old(labels), fetched)
    {
      var started := BeginLoad();
      if !started {
        return false;
      }
      ok := FinishLoad(fetched, fault);
    }

    /**
     * `predict` on the buffer the canvas produced and the random draws of
     * the call: it fails with `NotLoaded` unless `loaded`, and changes nothing.
     */
    method Predict(data: seq<Byte>, draws: seq<real>) returns (r: Result<Prediction, PredictError>)
      requires |data| == 4 * InputSize * InputSize
      requires |draws| == |labels| && ValidDraws(draws)
      ensures !loaded ==> r == Failure(NotLoaded)
      ensures loaded ==> r == Success(Predicted(labels, data, draws))
    {
      if !loaded {
        return Failure(NotLoaded);
      }
      var scores := Simulate(labels, data, draws);
      var maxIndex, maxScore := Argmax(scores);
      var predictedFruit := PickLabel(labels, maxIndex);
      var names := labels;
      var allScores := seq(|scores|, k requires 0 <= k < |scores| => ScoreEntry(names[k], Percent(scores[k])));
      r := Success(Prediction(predictedFruit, maxScore * 100.0, PredictionKind, allScores));
    }

    /** `getLabels`. */
    function GetLabels(): (r: seq<string>)
      reads this
      ensures Valid() ==> |r| > 0 && forall k :: 0 <= k < |r| ==> WellFormedLabel(r[k])
    {
      labels
    }

    /** `getModelInfo`: its labels are those of `getLabels` and its class count is their number. */
    function GetModelInfo(): (info: ModelInfo)
      reads this
      ensures info.labels == GetLabels() && info.loaded == loaded
      ensures Valid() ==> info.classes == |info.labels|
    {
      ModelInfo(ModelName, ModelKind, InputSize, classes, loaded, labels, ModelSource, Student)
    }
  }

  /**
   * `predict` only checks `loaded`: once a first load has succeeded it keeps
   * answering while a reload is in flight.
   */
  method PredictDuringReload(data: seq<Byte>, draws: seq<real>)
    returns (r: Result<Prediction, PredictError>)
    requires |data| == 4 * InputSize * InputSize
    requires |draws| == |DefaultLabels| && ValidDraws(draws)
    ensures r == Success(Predicted(DefaultLabels, data, draws))
  {
    var state := new ModelState();
    var ok := state.LoadModel(None, false);
    assert state.labels == DefaultLabels;
    var started := state.BeginLoad();
    assert state.loaded && state.loading && started;
    r := state.Predict(data, draws);
  }

  /** A `loadModel` issued while a load is in flight returns false and leaves the state alone. */
  method ConcurrentLoadRefused(fetched: Option<string>) returns (ok: bool)
    ensures !ok
  {
    var state := new ModelState();
    var started := state.BeginLoad();
    ok := state.LoadModel(fetched, false);
    assert state.loading && !state.loaded && state.labels == DefaultLabels;
  }
}
