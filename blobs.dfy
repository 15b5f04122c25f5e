/** The blob records of the lava lamp: a batch generated from a base hue and
    a stream of random draws, and the hue drift applied to a batch on each
    tick of the lamp screen. */
module Blobs {
  import opened Hues

  /** One animated blob: horizontal position (%), diameter (px), rise
      duration (s), start delay (s), and its colour as hue, saturation (%)
      and lightness (%). */
  datatype Blob = Blob(
    id: int,
    x: real,
    size: real,
    duration: real,
    delay: real,
    hue: real,
    saturation: real,
    lightness: real)

  /** Number of blobs in a batch when the caller gives no count. */
  const DefaultBlobCount: nat := 12

  /** Random draws each blob consumes, in the order its fields are written:
      x, size, duration, saturation, lightness. */
  const DrawsPerBlob: nat := 5

  /** Hue added to every blob on one drift tick. */
  const DriftStep: real := 0.1

  /** A value `Math.random()` can return. */
  predicate IsDraw(u: real) {
    0.0 <= u < 1.0
  }

  predicate AllDraws(us: seq<real>) {
    forall k :: 0 <= k < |us| ==> IsDraw(us[k])
  }

  /** The documented ranges of every field of a blob. */
  predicate WellFormed(b: Blob) {
    && 15.0 <= b.x < 85.0
    && 80.0 <= b.size < 180.0
    && 10.0 <= b.duration < 18.0
    && -10.0 < b.delay <= 0.0
    && 0.0 <= b.hue < 360.0
    && 70.0 <= b.saturation < 90.0
    && 45.0 <= b.lightness < 60.0
  }

  /** Start delay of blob `i` of `count`: `(i / count) * -10` seconds, so the
      batch is spread over one 10-second animation cycle. */
  function StaggerDelay(i: nat, count: nat): (delay: real)
    requires i < count
    ensures -10.0 < delay <= 0.0
    ensures i == 0 ==> delay == 0.0
  {
    var n := count as real;
    DivBelowOne(i as real, n);
    (i as real / n) * -10.0
  }

  lemma DivBelowOne(a: real, n: real)
    requires 0.0 <= a < n
    ensures 0.0 <= a / n < 1.0
  {}

  lemma DivStrictMono(a: real, b: real, n: real)
    requires a < b && 0.0 < n
    ensures a / n < b / n
  {}

  lemma DivStep(a: real, n: real)
    requires 0.0 < n
    ensures (a + 1.0) / n - a / n == 1.0 / n
  {}

  /** Later blobs start strictly earlier in the cycle, each one `10 / count`
      seconds before the previous. */
  lemma {:induction false} StaggerDelayOrder(i: nat, j: nat, count: nat)
    requires i < j < count
    ensures StaggerDelay(i, count) > StaggerDelay(j, count)
    ensures j == i + 1 ==> StaggerDelay(i, count) - StaggerDelay(j, count) == 10.0 / count as real
  {
    var n := count as real;
    DivStrictMono(i as real, j as real, n);
    if j == i + 1 {
      DivStep(i as real, n);
    }
  }

  /** Blob `i` of a batch of `count`, taking its five draws from
      `draws[5 * i ..]` and its hue round-robin from `palette`. */
  function BlobAt(palette: seq<real>, count: nat, i: nat, draws: seq<real>): Blob
    requires |palette| > 0
    requires i < count
    requires |draws| >= DrawsPerBlob * count
  {
    var u := draws[DrawsPerBlob * i..DrawsPerBlob * i + DrawsPerBlob];
    Blob(
      id := i,
      x := u[0] * 70.0 + 15.0,
      size := u[1] * 100.0 + 80.0,
      duration := u[2] * 8.0 + 10.0,
      delay := StaggerDelay(i, count),
      hue := palette[i % |palette|],
      saturation := 70.0 + u[3] * 20.0,
      lightness := 45.0 + u[4] * 15.0)
  }

  /** A batch of `count` blobs around `baseHue`; `draws` stands for the
      successive results of `Math.random()`. */
  function GenerateBlobs(baseHue: real, count: nat, draws: seq<real>): (blobs: seq<Blob>)
    requires |draws| >= DrawsPerBlob * count
    ensures |blobs| == count
    ensures forall i :: 0 <= i < |blobs| ==> blobs[i].id == i
  {
    var palette := AnalogousColors(baseHue);
    seq(count, i requires 0 <= i < count => BlobAt(palette, count, i, draws))
  }

  /** Hues are dealt from the palette round-robin: blob `i` gets entry
      `i % 5`, so every hue of the batch is a palette hue, and once the batch
      has at least five blobs every palette hue occurs. */
  lemma {:induction false} BatchHues(baseHue: real, count: nat, draws: seq<real>)
    requires |draws| >= DrawsPerBlob * count
    ensures forall i :: 0 <= i < count ==>
      GenerateBlobs(baseHue, count, draws)[i].hue == AnalogousColors(baseHue)[i % 5]
    ensures forall i :: 0 <= i < count ==>
      GenerateBlobs(baseHue, count, draws)[i].hue in AnalogousColors(baseHue)
    ensures count >= 5 ==> forall k :: 0 <= k < 5 ==>
      AnalogousColors(baseHue)[k] == GenerateBlobs(baseHue, count, draws)[k].hue
  {
    var blobs, palette := GenerateBlobs(baseHue, count, draws), AnalogousColors(baseHue);
    forall i | 0 <= i < count
      ensures blobs[i].hue == palette[i % 5] && blobs[i].hue in palette
    {
      assert blobs[i] == BlobAt(palette, count, i, draws);
      assert |palette| == 5;
      var k := i % 5;
      assert 0 <= k < 5;
      assert blobs[i].hue == palette[k];
    }
    forall k | 0 <= k < 5 && count >= 5
      ensures palette[k] == blobs[k].hue
    {
      assert k % 5 == k;
    }
  }

  /** Delays stagger the batch across one 10-second cycle: blob `i` starts
      `10 * i / count` seconds early, the first one not at all, and each one
      a constant `10 / count` earlier than the one before. */
  lemma {:induction false} BatchDelays(baseHue: real, count: nat, draws: seq<real>)
    requires |draws| >= DrawsPerBlob * count
    ensures forall i :: 0 <= i < count ==>
      GenerateBlobs(baseHue, count, draws)[i].delay == -10.0 * (i as real / count as real)
    ensures forall i :: 0 <= i < count ==>
      -10.0 < GenerateBlobs(baseHue, count, draws)[i].delay <= 0.0
    ensures count > 0 ==> GenerateBlobs(baseHue, count, draws)[0].delay == 0.0
    ensures forall i :: 0 <= i < count - 1 ==>
      GenerateBlobs(baseHue, count, draws)[i].delay
        - GenerateBlobs(baseHue, count, draws)[i + 1].delay == 10.0 / count as real
    ensures forall i, j :: 0 <= i < j < count ==>
      GenerateBlobs(baseHue, count, draws)[i].delay > GenerateBlobs(baseHue, count, draws)[j].delay
  {
    var blobs, palette := GenerateBlobs(baseHue, count, draws), AnalogousColors(baseHue);
    forall i | 0 <= i < count
      ensures blobs[i].delay == StaggerDelay(i, count)
    {
      assert blobs[i] == BlobAt(palette, count, i, draws);
    }
    forall i, j | 0 <= i < j < count
      ensures blobs[i].delay > blobs[j].delay
      ensures j == i + 1 ==> blobs[i].delay - blobs[j].delay == 10.0 / count as real
    {
      StaggerDelayOrder(i, j, count);
    }
    forall i | 0 <= i < count - 1
      ensures blobs[i].delay - blobs[i + 1].delay == 10.0 / count as real
    {
      StaggerDelayOrder(i, i + 1, count);
    }
  }

  /** With draws in [0, 1), every random field lands in its documented range,
      and with a base hue in [0, 360) so does every hue. */
  lemma {:induction false} BatchWellFormed(baseHue: real, count: nat, draws: seq<real>)
    requires |draws| >= DrawsPerBlob * count
    requires AllDraws(draws)
    requires 0.0 <= baseHue < 360.0
    ensures forall i :: 0 <= i < count ==> WellFormed(GenerateBlobs(baseHue, count, draws)[i])
  {
    var blobs, palette := GenerateBlobs(baseHue, count, draws), AnalogousColors(baseHue);
    BatchDelays(baseHue, count, draws);
    forall i | 0 <= i < count
      ensures WellFormed(blobs[i])
    {
      assert blobs[i] == BlobAt(palette, count, i, draws);
      var base := DrawsPerBlob * i;
      assert base + DrawsPerBlob <= DrawsPerBlob * count;
      var u := draws[base..base + DrawsPerBlob];
      assert IsDraw(draws[base]) && IsDraw(draws[base + 1]) && IsDraw(draws[base + 2])
        && IsDraw(draws[base + 3]) && IsDraw(draws[base + 4]);
      assert u[0] == draws[base] && u[1] == draws[base + 1] && u[2] == draws[base + 2]
        && u[3] == draws[base + 3] && u[4] == draws[base + 4];
    }
  }

  /** One drift tick of one blob: `(hue + 0.1) % 360`, every other field kept. */
  function Drift(b: Blob): (d: Blob)
    ensures d == b.(hue := d.hue)
    ensures WholeTurns(b.hue + DriftStep - d.hue)
    ensures 0.0 <= b.hue ==> 0.0 <= d.hue < 360.0
    ensures WellFormed(b) ==> WellFormed(d)
  {
    b.(hue := Rem360(b.hue + DriftStep))
  }

  /** One drift tick of a whole batch: the same blobs in the same order, each
      drifted. */
  function DriftAll(blobs: seq<Blob>): (drifted: seq<Blob>)
    ensures |drifted| == |blobs|
    ensures forall i :: 0 <= i < |blobs| ==> drifted[i] == blobs[i].(hue := drifted[i].hue)
    ensures forall i :: 0 <= i < |blobs| ==>
      WholeTurns(blobs[i].hue + DriftStep - drifted[i].hue)
    ensures forall i :: 0 <= i < |blobs| ==> WellFormed(blobs[i]) ==> WellFormed(drifted[i])
  {
    seq(|blobs|, i requires 0 <= i < |blobs| => Drift(blobs[i]))
  }

  /** The batch after `n` drift ticks. */
  function DriftTimes(blobs: seq<Blob>, n: nat): seq<Blob>
  {
    if n == 0 then blobs else DriftAll(DriftTimes(blobs, n - 1))
  }

  /** After `n` ticks a blob whose hue started in [0, 360) has hue
      `(hue + 0.1 * n) % 360` and is otherwise unchanged: ticks compose
      into one drift by their sum. */
  lemma {:induction false} DriftTimesHue(blobs: seq<Blob>, n: nat, i: nat)
    requires i < |blobs|
    requires 0.0 <= blobs[i].hue < 360.0
    ensures |DriftTimes(blobs, n)| == |blobs|
    ensures DriftTimes(blobs, n)[i]
      == blobs[i].(hue := Rem360(blobs[i].hue + DriftStep * n as real))
  {
    if n == 0 {
      assert DriftStep * n as real == 0.0;
    } else {
      DriftTimesHue(blobs, n - 1, i);
      var h := blobs[i].hue;
      var before, after := h + DriftStep * (n - 1) as real, h + DriftStep * n as real;
      var prev := Rem360(before);
      var next := DriftTimes(blobs, n)[i].hue;
      // next is (prev + step) reduced and prev is `before` reduced, so next
      // is a whole number of turns away from `after`
      assert next == Drift(DriftTimes(blobs, n - 1)[i]).hue;
      WholeTurnsAdd(before - prev, prev + DriftStep - next);
      assert (before - prev) + (prev + DriftStep - next) == after - next;
      Rem360Canonical(after, next);
    }
  }
}
