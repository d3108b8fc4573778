/**
 * The per-frame step of the volume meter (`VolumeMeters.tsx`, `draw`):
 * the level in decibels clamped to [-60, 0], the clipping flag, the
 * peak-hold rule with its delayed decay, and the geometry of the bar, the
 * peak marker and the scale. The conversion of the normalised mean to
 * decibels (`20 * Math.log10`) is the parameter `toDb`.
 */
module Meter {
  import opened Wrappers

  /** An entry of the analyser's `Uint8Array` of frequency magnitudes. */
  type Byte = x: int | 0 <= x < 256

  /** The bottom of the meter's range, in dB. */
  const Floor: real := -60.0
  /** Levels strictly above this count as clipping, in dB. */
  const ClipThreshold: real := -3.0
  /** The held peak is multiplied by this factor by the decay timer. */
  const PeakDecayFactor: real := 0.95
  /** The dB values labelled on the scale, left to right. */
  const ScalePoints: seq<real> := [-60.0, -40.0, -20.0, -10.0, -6.0, -3.0, 0.0]

  /** `dataArray.reduce((acc, val) => acc + val, 0)`. */
  function Sum(bins: seq<Byte>): (r: nat)
    ensures r <= 255 * |bins|
  {
    if bins == [] then 0 else bins[0] + Sum(bins[1..])
  }

  /** The sum is zero exactly when every bin is zero. */
  lemma {:induction false} SumZero(bins: seq<Byte>)
    ensures Sum(bins) == 0 <==> forall i :: 0 <= i < |bins| ==> bins[i] == 0
  {
    if bins != [] {
      SumZero(bins[1..]);
      assert forall i :: 1 <= i < |bins| ==> bins[i] == bins[1..][i - 1];
    }
  }

  /** Whether `normalizedLevel > 0` holds. With no bins the average is NaN
      and the comparison is false. */
  predicate Audible(bins: seq<Byte>): (b: bool)
    ensures b <==> exists i :: 0 <= i < |bins| && bins[i] != 0
  {
    SumZero(bins);
    |bins| > 0 && Sum(bins) > 0
  }

  /** `(sum / dataArray.length) / 255`: the mean magnitude scaled to [0, 1]. */
  function NormalizedLevel(bins: seq<Byte>): (r: real)
    requires |bins| > 0
    ensures 0.0 <= r <= 1.0
    ensures r > 0.0 <==> Sum(bins) > 0
  {
    var n := |bins| as real;
    var s := Sum(bins) as real;
    var mean := s / n;
    assert mean <= 255.0 by {
      assert mean * n == s;
      assert s <= 255.0 * n;
    }
    assert mean >= 0.0;
    assert mean > 0.0 <==> s > 0.0;
    mean / 255.0
  }

  /** `Math.max(-60, Math.min(0, x))`. */
  function Clamp(x: real): (r: real)
    ensures Floor <= r <= 0.0
    ensures Floor <= x <= 0.0 ==> r == x
    ensures x < Floor ==> r == Floor
    ensures x > 0.0 ==> r == 0.0
  {
    var capped := if x < 0.0 then x else 0.0;
    if capped > Floor then capped else Floor
  }

  /** The value the meter displays: the clamped decibel level of the mean,
      or the floor when nothing is audible. */
  function DisplayLevel(bins: seq<Byte>, toDb: real -> real): (r: real)
    ensures Floor <= r <= 0.0
  {
    var dB := if Audible(bins) then toDb(NormalizedLevel(bins)) else Floor;
    Clamp(dB)
  }

  /** What one frame reports to `onLevelUpdate` and `onClipping`. */
  datatype MeterSample = MeterSample(level: real, clipping: bool)

  /** The level and clipping flag of one frame: the level lies in
      [-60, 0], and the frame clips exactly when the level is above -3. */
  function Analyze(bins: seq<Byte>, toDb: real -> real): (m: MeterSample)
    ensures Floor <= m.level <= 0.0
    ensures m.clipping <==> m.level > ClipThreshold
  {
    var level := DisplayLevel(bins, toDb);
    MeterSample(level, level > ClipThreshold)
  }

  /** All-zero magnitudes (silence) show exactly the floor and never clip,
      whatever the decibel conversion. */
  lemma SilenceShowsFloor(bins: seq<Byte>, toDb: real -> real)
    requires forall i :: 0 <= i < |bins| ==> bins[i] == 0
    ensures Analyze(bins, toDb) == MeterSample(Floor, false)
  {
    SumZero(bins);
  }

  /** A frame clips only when some magnitude is non-zero and the decibel
      conversion of the mean is above -3. */
  lemma ClippingNeedsSignal(bins: seq<Byte>, toDb: real -> real)
    requires Analyze(bins, toDb).clipping
    ensures |bins| > 0 && exists i :: 0 <= i < |bins| && bins[i] > 0
    ensures toDb(NormalizedLevel(bins)) > ClipThreshold
  {
    SumZero(bins);
  }

  /** `if (displayLevel > peakLevel)`: the peak is raised to the level only
      when the level is strictly above it. */
  function RaisePeak(peak: real, level: real): (r: real)
    ensures r >= peak && r >= level
    ensures r == peak || r == level
  {
    if level > peak then level else peak
  }

  /** The width of the level bar: `Math.max(0, ((level + 60) / 60) * meterWidth)`. */
  function BarWidth(level: real, meterWidth: real): (w: real)
    ensures w >= 0.0
    ensures Floor <= level <= 0.0 && meterWidth >= 0.0 ==> w <= meterWidth
  {
    var raw := ((level + 60.0) / 60.0) * meterWidth;
    assert Floor <= level <= 0.0 && meterWidth >= 0.0 ==> raw <= meterWidth by {
      if Floor <= level <= 0.0 && meterWidth >= 0.0 {
        assert (level + 60.0) / 60.0 <= 1.0;
      }
    }
    if raw > 0.0 then raw else 0.0
  }

  /** The x position of the dB value `dB` on a meter starting at `meterX`. */
  function ScaleX(dB: real, meterX: real, meterWidth: real): (x: real)
    ensures dB == Floor ==> x == meterX
    ensures dB == 0.0 ==> x == meterX + meterWidth
  {
    meterX + ((dB + 60.0) / 60.0) * meterWidth
  }

  /** On a meter of positive width, louder is further right. */
  lemma ScaleXIncreasing(a: real, b: real, meterX: real, meterWidth: real)
    requires a < b && meterWidth > 0.0
    ensures ScaleX(a, meterX, meterWidth) < ScaleX(b, meterX, meterWidth)
  {
    assert ((b + 60.0) / 60.0) - ((a + 60.0) / 60.0) == (b - a) / 60.0;
    assert ((b + 60.0) / 60.0) * meterWidth - ((a + 60.0) / 60.0) * meterWidth
        == ((b - a) / 60.0) * meterWidth;
    var d := (b - a) / 60.0;
    assert d > 0.0;
    assert d * meterWidth > 0.0;
    assert ScaleX(b, meterX, meterWidth) - ScaleX(a, meterX, meterWidth) == d * meterWidth;
  }

  /** The bar widens with the level, up to the full meter at 0 dB. */
  lemma BarWidthMonotone(l1: real, l2: real, meterWidth: real)
    requires Floor <= l1 <= l2 <= 0.0 && meterWidth >= 0.0
    ensures BarWidth(l1, meterWidth) <= BarWidth(l2, meterWidth)
    ensures BarWidth(Floor, meterWidth) == 0.0 && BarWidth(0.0, meterWidth) == meterWidth
  {
    assert ((l2 + 60.0) / 60.0) * meterWidth - ((l1 + 60.0) / 60.0) * meterWidth
        == ((l2 - l1) / 60.0) * meterWidth;
    var d := (l2 - l1) / 60.0;
    assert d >= 0.0;
    assert d * meterWidth >= 0.0;
  }

  /** Where the peak marker is drawn, if at all: only above the floor. */
  function PeakMarkerX(peak: real, meterX: real, meterWidth: real): (x: Option<real>)
    ensures x.Some? <==> peak > Floor
  {
    if peak > Floor then Some(ScaleX(peak, meterX, meterWidth)) else None
  }

  /** The x positions of the scale's tick marks, left to right: the
      `scalePoints.forEach` loop. On a meter of positive width they are
      strictly increasing, from `meterX` to `meterX + meterWidth`. */
  method ScaleTicks(meterX: real, meterWidth: real) returns (xs: seq<real>)
    ensures |xs| == |ScalePoints|
    ensures forall i :: 0 <= i < |xs| ==> xs[i] == ScaleX(ScalePoints[i], meterX, meterWidth)
    ensures xs[0] == meterX && xs[|xs| - 1] == meterX + meterWidth
    ensures meterWidth > 0.0 ==> forall i, j :: 0 <= i < j < |xs| ==> xs[i] < xs[j]
  {
    xs := [];
    for i := 0 to |ScalePoints|
      invariant |xs| == i
      invariant forall k :: 0 <= k < i ==> xs[k] == ScaleX(ScalePoints[k], meterX, meterWidth)
      invariant meterWidth > 0.0 ==> forall k, l :: 0 <= k < l < i ==> xs[k] < xs[l]
    {
      var x := ScaleX(ScalePoints[i], meterX, meterWidth);
      if meterWidth > 0.0 && i > 0 {
        forall k | 0 <= k < i ensures xs[k] < x {
          ScaleXIncreasing(ScalePoints[k], ScalePoints[i], meterX, meterWidth);
        }
      }
      xs := xs + [x];
    }
  }

  /** The meter component's state: `currentLevel`, `peakLevel`,
      `isClipping`, and the decay timers scheduled and not yet fired. */
  class VolumeMeter {
    var currentLevel: real
    var peakLevel: real
    var isClipping: bool
    var pendingDecays: nat

    predicate Valid()
      reads this
    {
      Floor <= currentLevel <= 0.0
    }

    /** The peak is at its initial 0 dB with no decay scheduled. */
    predicate PeakAtRest()
      reads this
    {
      peakLevel == 0.0 && pendingDecays == 0
    }

    /** `useState(0)`, `useState(0)`, `useState(false)`. */
    constructor()
      ensures Valid() && PeakAtRest()
      ensures currentLevel == 0.0 && !isClipping
    {
      currentLevel, peakLevel, isClipping, pendingDecays := 0.0, 0.0, false, 0;
    }

    /** One `draw` frame. When the analyser or canvas is missing
        (`ready` false) the frame returns early and changes nothing;
        otherwise the level and clipping flag are stored and returned, and
        the peak is raised, with a decay scheduled, only when the level is
        above it. */
    method Draw(ready: bool, bins: seq<Byte>, toDb: real -> real) returns (sample: Option<MeterSample>)
      requires Valid()
      modifies this
      ensures Valid()
      ensures !ready ==> sample == None && unchanged(this)
      ensures ready ==> sample == Some(Analyze(bins, toDb))
      ensures ready ==> currentLevel == sample.value.level && isClipping == sample.value.clipping
      ensures ready ==> peakLevel == RaisePeak(old(peakLevel), currentLevel)
      ensures ready ==> pendingDecays == old(pendingDecays) + (if currentLevel > old(peakLevel) then 1 else 0)
      ensures old(PeakAtRest()) ==> PeakAtRest()
    {
      if !ready {
        return None;
      }
      var m := Analyze(bins, toDb);
      currentLevel := m.level;
      if m.level > peakLevel {
        peakLevel := m.level;
        pendingDecays := pendingDecays + 1;
      }
      isClipping := m.level > ClipThreshold;
      sample := Some(m);
    }

    /** A decay timer fires: `setPeakLevel(prev => prev * 0.95)`. */
    method DecayTick()
      requires Valid()
      modifies this
      ensures Valid()
      ensures old(pendingDecays) > 0 ==>
        peakLevel == old(peakLevel) * PeakDecayFactor && pendingDecays == old(pendingDecays) - 1
      ensures old(pendingDecays) == 0 ==> unchanged(this)
      ensures currentLevel == old(currentLevel) && isClipping == old(isClipping)
      ensures old(PeakAtRest()) ==> PeakAtRest()
    {
      if pendingDecays > 0 {
        peakLevel := peakLevel * PeakDecayFactor;
        pendingDecays := pendingDecays - 1;
      }
    }

    /** The peak marker, drawn only above the floor; while the peak is at
        rest it sits at the 0 dB end of the meter. */
    function PeakMarker(meterX: real, meterWidth: real): (x: Option<real>)
      reads this
      ensures PeakAtRest() ==> x == Some(meterX + meterWidth)
    {
      PeakMarkerX(peakLevel, meterX, meterWidth)
    }
  }

  /** Since the peak starts at 0 dB and every displayed level is at most
      0 dB, no frame ever raises it: however many frames are drawn, the
      peak stays at 0 and no decay is ever scheduled. */
  lemma {:induction false} PeakNeverRaised(peak: real, frames: seq<seq<Byte>>, toDb: real -> real)
    requires peak == 0.0
    ensures PeakAfter(peak, frames, toDb) == 0.0
    decreases frames
  {
    if frames != [] {
      PeakNeverRaised(RaisePeak(peak, DisplayLevel(frames[0], toDb)), frames[1..], toDb);
    }
  }

  /** The held peak after a run of frames, before any decay fires. */
  function PeakAfter(peak: real, frames: seq<seq<Byte>>, toDb: real -> real): (r: real)
    ensures r == peak || exists k :: 0 <= k < |frames| && r == DisplayLevel(frames[k], toDb)
    decreases frames
  {
    if frames == [] then peak
    else
      var next := RaisePeak(peak, DisplayLevel(frames[0], toDb));
      var r := PeakAfter(next, frames[1..], toDb);
      assert r != next ==> exists k :: 1 <= k < |frames| && r == DisplayLevel(frames[k], toDb) by {
        if r != next {
          var k :| 0 <= k < |frames[1..]| && r == DisplayLevel(frames[1..][k], toDb);
          assert frames[1..][k] == frames[k + 1];
        }
      }
      r
  }

  /** Whatever the starting peak, after a run of frames it is at least every
      level shown in the run (the peak hold). */
  lemma {:induction false} PeakHoldsMaximum(peak: real, frames: seq<seq<Byte>>, toDb: real -> real, k: nat)
    requires k < |frames|
    ensures PeakAfter(peak, frames, toDb) >= DisplayLevel(frames[k], toDb)
    decreases frames
  {
    var next := RaisePeak(peak, DisplayLevel(frames[0], toDb));
    if k == 0 {
      PeakAfterAtLeast(next, frames[1..], toDb);
    } else {
      PeakHoldsMaximum(next, frames[1..], toDb, k - 1);
    }
  }

  lemma {:induction false} PeakAfterAtLeast(peak: real, frames: seq<seq<Byte>>, toDb: real -> real)
    ensures PeakAfter(peak, frames, toDb) >= peak
    decreases frames
  {
    if frames != [] {
      PeakAfterAtLeast(RaisePeak(peak, DisplayLevel(frames[0], toDb)), frames[1..], toDb);
    }
  }
}
