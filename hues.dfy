/** Hue arithmetic of the lava lamp: JavaScript's `%` by 360 on (exact) real
    numbers, the normalisation of a clicked angle into a hue, and the
    five-entry analogous palette derived from a base hue. */
module Hues {

  /** `k` whole turns, in degrees. */
  function Turns(k: int): real {
    360.0 * k as real
  }

  /** True when `d` is a whole number of turns, i.e. an integer multiple of 360 degrees. */
  ghost predicate WholeTurns(d: real) {
    exists k :: d == Turns(k)
  }

  /** A whole number of turns strictly between -360 and 360 is no turn at all. */
  lemma {:induction false} SmallWholeTurnIsZero(d: real)
    requires WholeTurns(d)
    requires -360.0 < d < 360.0
    ensures d == 0.0
  {
    var k :| d == Turns(k);
    assert -1 < k < 1;
  }

  /** Whole turns are closed under addition. */
  lemma {:induction false} WholeTurnsAdd(d: real, e: real)
    requires WholeTurns(d) && WholeTurns(e)
    ensures WholeTurns(d + e)
  {
    var k :| d == Turns(k);
    var m :| e == Turns(m);
    assert d + e == Turns(k + m);
  }

  /** Whole turns are closed under negation. */
  lemma {:induction false} WholeTurnsNeg(d: real)
    requires WholeTurns(d)
    ensures WholeTurns(-d)
  {
    var k :| d == Turns(k);
    assert -d == Turns(-k);
  }

  /** Exactly 360 degrees is one whole turn. */
  lemma OneTurn()
    ensures WholeTurns(360.0)
  {
    assert 360.0 == Turns(1);
  }

  /** JavaScript's `x % 360` on a finite number: the remainder of truncating
      division, which has the sign of `x` and differs from it by whole turns. */
  function Rem360(x: real): (r: real)
    ensures 0.0 <= x ==> 0.0 <= r < 360.0
    ensures x <= 0.0 ==> -360.0 < r <= 0.0
    ensures WholeTurns(x - r)
    ensures -360.0 < x < 360.0 ==> r == x
  {
    if x >= 0.0 then
      var k := (x / 360.0).Floor;
      assert x - (x - Turns(k)) == Turns(k);
      x - Turns(k)
    else
      var k := (-x / 360.0).Floor;
      assert x - (x + Turns(k)) == Turns(-k);
      x + Turns(k)
  }

  /** Two angles in [0, 360) that differ by whole turns are the same hue. */
  lemma {:induction false} SameHue(a: real, b: real)
    requires 0.0 <= a < 360.0 && 0.0 <= b < 360.0
    requires WholeTurns(a - b)
    ensures a == b
  {
    SmallWholeTurnIsZero(a - b);
  }

  /** On a non-negative angle, `% 360` yields the one hue in [0, 360) that is
      a whole number of turns away from it. */
  lemma {:induction false} Rem360Canonical(x: real, h: real)
    requires 0.0 <= x
    requires 0.0 <= h < 360.0
    requires WholeTurns(x - h)
    ensures Rem360(x) == h
  {
    var r := Rem360(x);
    WholeTurnsNeg(x - r);
    WholeTurnsAdd(x - h, -(x - r));
    assert (x - h) + -(x - r) == r - h;
    SameHue(r, h);
  }

  /** The hue of a clicked angle: `(deg + 360) % 360`, where `deg` is the
      clockwise angle from the top of the colour wheel, in (-180, 180]. */
  function NormalizeAngle(deg: real): (hue: real)
    ensures -360.0 < deg ==> 0.0 <= hue < 360.0
    ensures WholeTurns(hue - deg)
    ensures -360.0 < deg < 0.0 ==> hue == deg + 360.0
    ensures 0.0 <= deg < 360.0 ==> hue == deg
  {
    var r := Rem360(deg + 360.0);
    OneTurn();
    WholeTurnsNeg(deg + 360.0 - r);
    WholeTurnsAdd(-(deg + 360.0 - r), 360.0);
    assert -(deg + 360.0 - r) + 360.0 == r - deg;
    if 0.0 <= deg < 360.0 then SameHue(r, deg); r else r
  }

  /** The palette offsets in source order: base, +30, -30, +15, -15 degrees. */
  const Offsets: seq<real> := [0.0, 30.0, -30.0, 15.0, -15.0]

  /** Five analogous hues around `baseHue`; the subtracted offsets add a
      turn before `%` so that they stay non-negative. */
  function AnalogousColors(baseHue: real): (palette: seq<real>)
    ensures |palette| == |Offsets| == 5
    ensures palette[0] == baseHue
    ensures 0.0 <= baseHue < 360.0 ==>
      forall k :: 0 <= k < |palette| ==> 0.0 <= palette[k] < 360.0
  {
    [ baseHue,
      Rem360(baseHue + 30.0),
      Rem360(baseHue - 30.0 + 360.0),
      Rem360(baseHue + 15.0),
      Rem360(baseHue - 15.0 + 360.0) ]
  }

  /** For a base hue in [0, 360), palette entry `k` is exactly the hue of
      `baseHue + Offsets[k]`, whether or not the source added a turn first. */
  lemma {:induction false} PaletteEntries(baseHue: real)
    requires 0.0 <= baseHue < 360.0
    ensures forall k :: 0 <= k < 5 ==>
      AnalogousColors(baseHue)[k] == NormalizeAngle(baseHue + Offsets[k])
  {
    var p := AnalogousColors(baseHue);
    forall k | 0 <= k < 5
      ensures p[k] == NormalizeAngle(baseHue + Offsets[k])
    {
      var n := NormalizeAngle(baseHue + Offsets[k]);
      var raw := if k == 2 || k == 4 then baseHue + Offsets[k] + 360.0 else baseHue + Offsets[k];
      assert p[k] == Rem360(raw);
      // raw and n are a whole number of turns apart, since raw and the angle are
      OneTurn();
      WholeTurnsNeg(n - (baseHue + Offsets[k]));
      if k == 2 || k == 4 {
        WholeTurnsAdd(-(n - (baseHue + Offsets[k])), 360.0);
        assert -(n - (baseHue + Offsets[k])) + 360.0 == raw - n;
      } else {
        assert -(n - (baseHue + Offsets[k])) == raw - n;
      }
      Rem360Canonical(raw, n);
    }
  }

  /** A base hue in [0, 360) yields five pairwise different hues. */
  lemma {:induction false} PaletteDistinct(baseHue: real)
    requires 0.0 <= baseHue < 360.0
    ensures forall i, j :: 0 <= i < j < 5 ==>
      AnalogousColors(baseHue)[i] != AnalogousColors(baseHue)[j]
  {
    var p := AnalogousColors(baseHue);
    PaletteEntries(baseHue);
    forall i, j | 0 <= i < j < 5
      ensures p[i] != p[j]
    {
      if p[i] == p[j] {
        var a, b := baseHue + Offsets[i], baseHue + Offsets[j];
        // p[i] - a and p[j] - b are whole turns, so a - b is one too
        WholeTurnsNeg(p[j] - b);
        WholeTurnsAdd(p[i] - a, -(p[j] - b));
        WholeTurnsNeg((p[i] - a) + -(p[j] - b));
        assert -((p[i] - a) + -(p[j] - b)) == Offsets[i] - Offsets[j];
        SmallWholeTurnIsZero(Offsets[i] - Offsets[j]);
        assert false;
      }
    }
  }

  /** The worked example: base hue 30 gives [30, 60, 0, 45, 15]. */
  lemma PaletteOf30()
    ensures AnalogousColors(30.0) == [30.0, 60.0, 0.0, 45.0, 15.0]
  {
    OneTurn();
    Rem360Canonical(360.0, 0.0);
    assert 375.0 - 15.0 == 360.0;
    Rem360Canonical(375.0, 15.0);
  }
}
