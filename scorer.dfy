/**
 * The heuristic scorer (`simulateYourModel`): one pass over an RGBA buffer
 * counting pixels that meet each known fruit's colour thresholds, a score
 * vector laid out as the known fruits present followed by padding slots,
 * and a sum normalisation that, as in JavaScript, yields NaN on a zero sum.
 */
module Scorer {

  /** One channel byte of the canvas buffer (a `Uint8ClampedArray` element). */
  type Byte = x: int | 0 <= x < 256

  /** The three label names the scorer has a colour rule for. */
  datatype Fruit = Apple | Banana | Orange {

    /** The exact, case-sensitive label name the rule is keyed on. */
    function Name(): string {
      match this
      case Apple => "Apple"
      case Banana => "Banana"
      case Orange => "Orange"
    }

    /** The position of this fruit's `push` block: Apple first, then Banana, then Orange. */
    function Rank(): nat {
      match this
      case Apple => 0
      case Banana => 1
      case Orange => 2
    }

    /** The channel thresholds a pixel must meet to count for this fruit. */
    predicate Matches(r: int, g: int, b: int) {
      match this
      case Apple => r > 150 && g < 110 && b < 110
      case Banana => r > 180 && g > 160 && b < 100
      case Orange => r > 200 && g > 120 && b < 80
    }
  }

  /** The three per-fruit counters `redScore`, `yellowScore` and `orangeScore`. */
  datatype Tally = Tally(red: nat, yellow: nat, orange: nat) {
    function Of(f: Fruit): nat {
      match f
      case Apple => red
      case Banana => yellow
      case Orange => orange
    }
  }

  /** Pixel `p` of the buffer meets the thresholds of `f`; the alpha byte plays no part. */
  predicate PixelMatches(data: seq<Byte>, p: nat, f: Fruit)
    requires 4 * p + 4 <= |data|
  {
    f.Matches(data[4 * p], data[4 * p + 1], data[4 * p + 2])
  }

  /** The number of the first `n` pixels that meet the thresholds of `f`. */
  function Hits(data: seq<Byte>, f: Fruit, n: nat): (c: nat)
    requires 4 * n <= |data|
    ensures c <= n
  {
    if n == 0 then 0
    else Hits(data, f, n - 1) + (if PixelMatches(data, n - 1, f) then 1 else 0)
  }

  /** The final value of the counter of `f`: it only moves when `f`'s name is one of the labels. */
  function Counter(labels: seq<string>, data: seq<Byte>, f: Fruit): nat
    requires |data| % 4 == 0
  {
    if f.Name() in labels then Hits(data, f, |data| / 4) else 0
  }

  /** The counting loop of `simulateYourModel`: stride 4 over the buffer, alpha ignored. */
  method CountPixels(labels: seq<string>, data: seq<Byte>) returns (t: Tally)
    requires |data| % 4 == 0
    ensures t.red == Counter(labels, data, Apple)
    ensures t.yellow == Counter(labels, data, Banana)
    ensures t.orange == Counter(labels, data, Orange)
  {
    var redScore, yellowScore, orangeScore := 0, 0, 0;
    var i := 0;
    while i < |data|
      invariant 0 <= i <= |data| && i % 4 == 0
      invariant redScore == if Apple.Name() in labels then Hits(data, Apple, i / 4) else 0
      invariant yellowScore == if Banana.Name() in labels then Hits(data, Banana, i / 4) else 0
      invariant orangeScore == if Orange.Name() in labels then Hits(data, Orange, i / 4) else 0
    {
      var r, g, b := data[i], data[i + 1], data[i + 2];
      if Apple.Name() in labels {
        if Apple.Matches(r, g, b) { redScore := redScore + 1; }
      }
      if Banana.Name() in labels {
        if Banana.Matches(r, g, b) { yellowScore := yellowScore + 1; }
      }
      if Orange.Name() in labels {
        if Orange.Matches(r, g, b) { orangeScore := orangeScore + 1; }
      }
      i := i + 4;
    }
    t := Tally(redScore, yellowScore, orangeScore);
  }

  /** No pixel is both an apple and a banana, nor both an apple and an orange. */
  lemma {:induction false} AppleDisjoint(data: seq<Byte>, n: nat)
    requires 4 * n <= |data|
    ensures Hits(data, Apple, n) + Hits(data, Banana, n) <= n
    ensures Hits(data, Apple, n) + Hits(data, Orange, n) <= n
  {
    if n > 0 {
      AppleDisjoint(data, n - 1);
    }
  }

  /**
   * Each counter is at most the pixel count and is zero when its name is not
   * a label; the apple counter shares no pixel with the other two.
   */
  lemma CounterBounds(labels: seq<string>, data: seq<Byte>)
    requires |data| % 4 == 0
    ensures forall f: Fruit :: Counter(labels, data, f) <= |data| / 4
    ensures forall f: Fruit :: f.Name() !in labels ==> Counter(labels, data, f) == 0
    ensures Counter(labels, data, Apple) + Counter(labels, data, Banana) <= |data| / 4
    ensures Counter(labels, data, Apple) + Counter(labels, data, Orange) <= |data| / 4
  {
    AppleDisjoint(data, |data| / 4);
  }

  /** An `n`-pixel buffer of one colour. */
  function Solid(r: Byte, g: Byte, b: Byte, a: Byte, n: nat): (data: seq<Byte>)
    ensures |data| == 4 * n
    ensures forall p :: 0 <= p < n ==> data[4 * p] == r && data[4 * p + 1] == g && data[4 * p + 2] == b
  {
    seq(4 * n, i => if i % 4 == 0 then r else if i % 4 == 1 then g else if i % 4 == 2 then b else a)
  }

  /** On a one-colour buffer a fruit counts every pixel or none. */
  lemma {:induction false} SolidHits(r: Byte, g: Byte, b: Byte, a: Byte, n: nat, f: Fruit, k: nat)
    requires k <= n
    ensures Hits(Solid(r, g, b, a, n), f, k) == if f.Matches(r, g, b) then k else 0
  {
    if k > 0 {
      SolidHits(r, g, b, a, n, f, k - 1);
    }
  }

  /** Solid (200, 50, 50) counts every pixel as an apple and none as banana or orange. */
  lemma RedImageCounters(labels: seq<string>, a: Byte, n: nat)
    requires "Apple" in labels
    ensures Counter(labels, Solid(200, 50, 50, a, n), Apple) == n
    ensures Counter(labels, Solid(200, 50, 50, a, n), Banana) == 0
    ensures Counter(labels, Solid(200, 50, 50, a, n), Orange) == 0
  {
    SolidHits(200, 50, 50, a, n, Apple, n);
    SolidHits(200, 50, 50, a, n, Banana, n);
    SolidHits(200, 50, 50, a, n, Orange, n);
  }

  /** A solid black buffer leaves every counter at zero. */
  lemma BlackImageCounters(labels: seq<string>, a: Byte, n: nat)
    ensures forall f: Fruit :: Counter(labels, Solid(0, 0, 0, a, n), f) == 0
  {
    SolidHits(0, 0, 0, a, n, Apple, n);
    SolidHits(0, 0, 0, a, n, Banana, n);
    SolidHits(0, 0, 0, a, n, Orange, n);
  }

  /** What a score slot is for: a known fruit's counter, or a padding draw. */
  datatype Slot = Known(fruit: Fruit) | Padding

  /** The known fruits whose names are labels, always in the order Apple, Banana, Orange. */
  function Present(labels: seq<string>): (known: seq<Fruit>)
    ensures forall f: Fruit :: f in known <==> f.Name() in labels
    ensures forall i, j :: 0 <= i < j < |known| ==> known[i].Rank() < known[j].Rank()
  {
    (if Apple.Name() in labels then [Apple] else [])
    + (if Banana.Name() in labels then [Banana] else [])
    + (if Orange.Name() in labels then [Orange] else [])
  }

  /** There are never more known fruits present than labels. */
  lemma {:induction false} PresentFits(labels: seq<string>)
    ensures |Present(labels)| <= |labels|
  {
    if labels != [] {
      var rest := labels[1..];
      PresentFits(rest);
      assert forall x :: x in labels <==> x == labels[0] || x in rest;
    }
  }

  /** The slot layout of the score vector: present fruits first, then padding up to the label count. */
  function Layout(labels: seq<string>): (slots: seq<Slot>)
    ensures |slots| == |labels|
    ensures forall i :: 0 <= i < |Present(labels)| ==> slots[i] == Known(Present(labels)[i])
    ensures forall i :: |Present(labels)| <= i < |labels| ==> slots[i] == Padding
  {
    PresentFits(labels);
    var known := Present(labels);
    seq(|labels|, i requires 0 <= i < |labels| => if i < |known| then Known(known[i]) else Padding)
  }

  /** `count / totalPixels * (0.8 + Math.random() * 0.2)` for a given draw. */
  function Jittered(count: nat, total: nat, draw: real): (score: real)
    requires total > 0
    ensures 0.0 <= draw < 1.0 ==> 0.0 <= score <= (count as real) / (total as real)
  {
    var ratio := (count as real) / (total as real);
    ScaledBelow(ratio, 0.8 + draw * 0.2);
    ratio * (0.8 + draw * 0.2)
  }

  /** Scaling a non-negative value by a factor in [0, 1] keeps it in [0, value]. */
  lemma ScaledBelow(x: real, f: real)
    requires x >= 0.0
    ensures 0.0 <= f <= 1.0 ==> 0.0 <= x * f <= x
  {
    if 0.0 <= f <= 1.0 {
      assert x * f <= x * 1.0;
    }
  }

  /** The score pushed for a slot: counter ratio times a jitter in [0.8, 1), or a padding draw in [0, 0.3). */
  function SlotScore(slot: Slot, t: Tally, total: nat, draw: real): real
    requires total > 0
  {
    match slot
    case Known(f) => Jittered(t.Of(f), total, draw)
    case Padding => draw * 0.3
  }

  /** Every `Math.random()` draw lies in [0, 1). */
  predicate ValidDraws(draws: seq<real>) {
    forall i :: 0 <= i < |draws| ==> 0.0 <= draws[i] < 1.0
  }

  /** The raw score vector: slot `i` uses the `i`-th random draw. */
  function Raw(labels: seq<string>, t: Tally, total: nat, draws: seq<real>): (raw: seq<real>)
    requires total > 0 && |draws| == |labels|
    ensures |raw| == |labels|
  {
    var slots := Layout(labels);
    seq(|labels|, i requires 0 <= i < |labels| => SlotScore(slots[i], t, total, draws[i]))
  }

  /** Raw scores are never negative. */
  lemma RawNonNegative(labels: seq<string>, t: Tally, total: nat, draws: seq<real>)
    requires total > 0 && |draws| == |labels| && ValidDraws(draws)
    ensures forall i :: 0 <= i < |labels| ==> Raw(labels, t, total, draws)[i] >= 0.0
  {
    forall i | 0 <= i < |labels| ensures Raw(labels, t, total, draws)[i] >= 0.0 {
      var slot := Layout(labels)[i];
      if slot.Known? {
        var q := (t.Of(slot.fruit) as real) / (total as real);
        assert q >= 0.0;
        assert 0.8 + draws[i] * 0.2 > 0.0;
      }
    }
  }

  /** The three conditional `push`es: one jittered counter ratio per known fruit present. */
  method PushKnown(labels: seq<string>, t: Tally, total: nat, draws: seq<real>) returns (scores: seq<real>)
    requires total > 0 && |draws| == |labels|
    ensures KnownScores(scores, Present(labels), t, total, draws)
  {
    PresentFits(labels);
    scores := [];
    ghost var pushed: seq<Fruit> := [];
    if Apple.Name() in labels {
      scores := scores + [Jittered(t.red, total, draws[|scores|])];
      pushed := pushed + [Apple];
    }
    assert KnownScores(scores, pushed, t, total, draws);
    if Banana.Name() in labels {
      scores := scores + [Jittered(t.yellow, total, draws[|scores|])];
      pushed := pushed + [Banana];
    }
    assert KnownScores(scores, pushed, t, total, draws);
    if Orange.Name() in labels {
      scores := scores + [Jittered(t.orange, total, draws[|scores|])];
      pushed := pushed + [Orange];
    }
    assert pushed == Present(labels);
  }

  /** The score vector before normalisation: known fruits' scores, then padding draws up to the label count. */
  method RawScores(labels: seq<string>, t: Tally, total: nat, draws: seq<real>) returns (scores: seq<real>)
    requires total > 0 && |draws| == |labels|
    ensures scores == Raw(labels, t, total, draws)
  {
    scores := PushKnown(labels, t, total, draws);
    KnownScoresAreRaw(labels, scores, t, total, draws);
    while |scores| < |labels|
      invariant |Present(labels)| <= |scores| <= |labels|
      invariant forall i :: 0 <= i < |scores| ==> scores[i] == Raw(labels, t, total, draws)[i]
      decreases |labels| - |scores|
    {
      scores := scores + [draws[|scores|] * 0.3];
    }
  }

  /** The scores pushed so far are those of the known fruits `pushed`, slot by slot. */
  ghost predicate KnownScores(scores: seq<real>, pushed: seq<Fruit>, t: Tally, total: nat, draws: seq<real>)
    requires total > 0
  {
    |scores| == |pushed| <= |draws|
    && forall i :: 0 <= i < |scores| ==> scores[i] == SlotScore(Known(pushed[i]), t, total, draws[i])
  }

  /** Known scores for exactly the present fruits are the leading entries of `Raw`. */
  lemma KnownScoresAreRaw(labels: seq<string>, scores: seq<real>, t: Tally, total: nat, draws: seq<real>)
    requires total > 0 && |draws| == |labels|
    requires KnownScores(scores, Present(labels), t, total, draws)
    ensures forall i :: 0 <= i < |scores| ==> scores[i] == Raw(labels, t, total, draws)[i]
  {
  }

  /** `scores.reduce((a, b) => a + b, 0)`. */
  function Sum(xs: seq<real>): (total: real)
    ensures (forall i :: 0 <= i < |xs| ==> xs[i] >= 0.0) ==> total >= 0.0
  {
    if xs == [] then 0.0 else Sum(xs[..|xs| - 1]) + xs[|xs| - 1]
  }

  /** A JavaScript number as far as the scorer needs it: a real value or NaN. */
  datatype Number = Num(v: real) | NaN

  /** `scores.map(score => score / sum)`: with a zero sum every entry is 0 / 0, which is NaN. */
  function Normalize(raw: seq<real>): (r: seq<Number>)
    requires forall i :: 0 <= i < |raw| ==> raw[i] >= 0.0
    ensures |r| == |raw|
  {
    var total := Sum(raw);
    seq(|raw|, i requires 0 <= i < |raw| => if total == 0.0 then NaN else Num(raw[i] / total))
  }

  /** The finite values of a vector that holds no NaN. */
  function Values(r: seq<Number>): (xs: seq<real>)
    requires forall i :: 0 <= i < |r| ==> r[i].Num?
    ensures |xs| == |r| && forall i :: 0 <= i < |r| ==> r[i] == Num(xs[i])
  {
    seq(|r|, i requires 0 <= i < |r| => r[i].v)
  }

  /** A sum of non-negative terms bounds each term, and is zero only when every term is. */
  lemma {:induction false} SumNonNegative(xs: seq<real>)
    requires forall i :: 0 <= i < |xs| ==> xs[i] >= 0.0
    ensures Sum(xs) >= 0.0
    ensures forall i :: 0 <= i < |xs| ==> xs[i] <= Sum(xs)
    ensures Sum(xs) == 0.0 <==> forall i :: 0 <= i < |xs| ==> xs[i] == 0.0
  {
    if xs != [] {
      var init := xs[..|xs| - 1];
      SumNonNegative(init);
      assert forall i :: 0 <= i < |init| ==> init[i] == xs[i];
    }
  }

  /** Dividing every term by `c` divides the sum by `c`. */
  lemma {:induction false} SumScaled(xs: seq<real>, ys: seq<real>, c: real)
    requires c != 0.0 && |ys| == |xs|
    requires forall i :: 0 <= i < |xs| ==> ys[i] == xs[i] / c
    ensures Sum(ys) == Sum(xs) / c
  {
    if xs != [] {
      var n := |xs| - 1;
      var init, scaled := xs[..n], ys[..n];
      assert forall i :: 0 <= i < n ==> scaled[i] == init[i] / c;
      SumScaled(init, scaled, c);
      assert Sum(ys) == Sum(scaled) + ys[n] && Sum(xs) == Sum(init) + xs[n];
      DivAdd(Sum(init), xs[n], c);
    }
  }

  /** Division by `c` distributes over a sum. */
  lemma DivAdd(p: real, q: real, c: real)
    requires c != 0.0
    ensures p / c + q / c == (p + q) / c
  {
  }

  /** A non-negative share of a positive whole lies in [0, 1]. */
  lemma RatioAtMostOne(x: real, whole: real)
    requires 0.0 <= x <= whole && whole > 0.0
    ensures 0.0 <= x / whole <= 1.0
  {
    assert x / whole * whole == x;
  }

  /** With a positive sum the normalised scores form a distribution: each in [0, 1], all summing to 1. */
  lemma NormalizeDistribution(raw: seq<real>)
    requires forall i :: 0 <= i < |raw| ==> raw[i] >= 0.0
    requires Sum(raw) > 0.0
    ensures forall i :: 0 <= i < |raw| ==> Normalize(raw)[i].Num? && 0.0 <= Normalize(raw)[i].v <= 1.0
    ensures Sum(Values(Normalize(raw))) == 1.0
  {
    SumNonNegative(raw);
    var total := Sum(raw);
    var r := Normalize(raw);
    forall i | 0 <= i < |raw| ensures r[i].Num? && 0.0 <= r[i].v <= 1.0 {
      RatioAtMostOne(raw[i], total);
    }
    NormalizeSumsToOne(raw, total, Values(r));
  }

  lemma NormalizeSumsToOne(raw: seq<real>, total: real, xs: seq<real>)
    requires total == Sum(raw) && total > 0.0
    requires |xs| == |raw| && forall i :: 0 <= i < |raw| ==> xs[i] == raw[i] / total
    ensures Sum(xs) == 1.0
  {
    SumScaled(raw, xs, total);
    SelfRatio(total);
  }

  lemma SelfRatio(x: real)
    requires x > 0.0
    ensures x / x == 1.0
  {
  }

  /** The sum is zero exactly when every raw score is 0, and then every normalised score is NaN. */
  lemma NormalizeZeroSum(raw: seq<real>)
    requires forall i :: 0 <= i < |raw| ==> raw[i] >= 0.0
    ensures Sum(raw) == 0.0 <==> forall i :: 0 <= i < |raw| ==> raw[i] == 0.0
    ensures Sum(raw) == 0.0 ==> forall i :: 0 <= i < |raw| ==> Normalize(raw)[i] == NaN
  {
    SumNonNegative(raw);
  }

  /** The score vector `simulateYourModel` returns, as a function of labels, buffer and draws. */
  function Simulated(labels: seq<string>, data: seq<Byte>, draws: seq<real>): (scores: seq<Number>)
    requires |data| > 0 && |data| % 4 == 0 && |draws| == |labels| && ValidDraws(draws)
    ensures |scores| == |labels|
  {
    var t := Tally(Counter(labels, data, Apple), Counter(labels, data, Banana), Counter(labels, data, Orange));
    RawNonNegative(labels, t, |data| / 4, draws);
    Normalize(Raw(labels, t, |data| / 4, draws))
  }

  /** `simulateYourModel` once the canvas has produced the buffer. */
  method Simulate(labels: seq<string>, data: seq<Byte>, draws: seq<real>) returns (scores: seq<Number>)
    requires |data| > 0 && |data| % 4 == 0 && |draws| == |labels| && ValidDraws(draws)
    ensures scores == Simulated(labels, data, draws)
  {
    var totalPixels := |data| / 4;
    var t := CountPixels(labels, data);
    var raw := RawScores(labels, t, totalPixels, draws);
    RawNonNegative(labels, t, totalPixels, draws);
    scores := Normalize(raw);
  }
}
