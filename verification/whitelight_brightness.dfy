// whitelight's BrightnessAdjuster: auto brightness snapped to a grid of
// percentages, gated by a minimum change, and manual brightness from hotkeys.
module WhitelightBrightness {
  import opened Common

  /** The monitors commanded through ddcutil, in order. */
  const Displays: seq<string> := ["3", "2", "1"]

  /** The percentages auto brightness may take, scanned in this order. */
  const AutoClampBrightness: seq<int> := [0, 10, 20, 30, 40, 50, 60, 70, 80, 90, 100]

  /** Smallest change of the lux-derived percentage that is acted upon. */
  const MinDiff: int := 7

  /** Result of the clamp when no grid value is closer than this distance. */
  const DefaultMode: int := 50
  const InitialClosestValue: int := 100

  lemma GridSpacing()
    ensures |AutoClampBrightness| == 11
    ensures forall j :: 0 <= j < 11 ==> AutoClampBrightness[j] == 10 * j
  {
  }

  /** Python's `int(x)` on a float: truncation toward zero. */
  function TruncToInt(x: real): (n: int)
    ensures 0.0 <= x ==> 0 <= n && n as real <= x < n as real + 1.0
    ensures x < 0.0 ==> n <= 0 && x <= n as real && n as real - 1.0 < x
  {
    if x >= 0.0 then x.Floor else -((-x).Floor)
  }

  /** Some grid value lies strictly closer than the initial closest distance. */
  predicate InClampRange(x: int)
  {
    -InitialClosestValue < x < 100 + InitialClosestValue
  }

  /** `r` is a grid value at least as close to `x` as every other grid value. */
  ghost predicate IsNearest(x: int, r: int)
  {
    r in AutoClampBrightness &&
    forall j :: 0 <= j < |AutoClampBrightness| ==> Abs(x - r) <= Abs(x - AutoClampBrightness[j])
  }

  /** No smaller grid value (scanned earlier) is as close to `x` as `r`: ties go low. */
  ghost predicate NoEarlierTie(x: int, r: int)
  {
    forall j :: 0 <= j < |AutoClampBrightness| && AutoClampBrightness[j] < r ==>
      Abs(x - r) < Abs(x - AutoClampBrightness[j])
  }

  /** Closed form of the clamp; the scan in GetClampedBrightness is proved to compute it. */
  function ClampedBrightness(x: int): (r: int)
    ensures r in AutoClampBrightness
    ensures !InClampRange(x) ==> r == DefaultMode
  {
    if !InClampRange(x) then DefaultMode
    else if x <= 0 then 0
    else if x >= 100 then 100
    else (x + 4) / 10 * 10
  }

  /** Within range the clamp is the first nearest grid value. */
  lemma ClampedIsFirstNearest(x: int)
    requires InClampRange(x)
    ensures IsNearest(x, ClampedBrightness(x)) && NoEarlierTie(x, ClampedBrightness(x))
  {
    GridSpacing();
    if 0 < x < 100 {
      var q := (x + 4) / 10;
      assert x - 6 < 10 * q <= x + 4;
      assert ClampedBrightness(x) == AutoClampBrightness[q];
    } else if x <= 0 {
      assert ClampedBrightness(x) == AutoClampBrightness[0];
    } else {
      assert ClampedBrightness(x) == AutoClampBrightness[10];
    }
  }

  /** At most one grid value is first nearest. */
  lemma FirstNearestUnique(x: int, r1: int, r2: int)
    requires IsNearest(x, r1) && NoEarlierTie(x, r1)
    requires IsNearest(x, r2) && NoEarlierTie(x, r2)
    ensures r1 == r2
  {
    var i1 :| 0 <= i1 < |AutoClampBrightness| && AutoClampBrightness[i1] == r1;
    var i2 :| 0 <= i2 < |AutoClampBrightness| && AutoClampBrightness[i2] == r2;
    assert Abs(x - r1) <= Abs(x - AutoClampBrightness[i2]);
    assert Abs(x - r2) <= Abs(x - AutoClampBrightness[i1]);
  }

  /** Midpoints between two grid values go to the lower one: 15 -> 10, 95 -> 90. */
  lemma ClampTiesGoLower(k: int)
    requires 0 <= k < 10
    ensures ClampedBrightness(10 * k + 5) == 10 * k
  {
  }

  /** Auto mode's first call after start-up passes both gates for any lux in [0, 1]. */
  lemma FirstAutoCallApplies(lux: real)
    requires 0.0 <= lux <= 1.0
    ensures Abs(-100 - TruncToInt(lux * 100.0)) >= MinDiff
    ensures ClampedBrightness(TruncToInt(lux * 100.0)) != -100
  {
  }

  /** The gates of `set_auto_brightness`: auto mode on, the lux-derived percentage at least
      MinDiff away from the last applied one, and its clamp differing from the brightness. */
  predicate AutoApplies(autoMode: bool, autoBrightness: int, brightness: int, lux: real)
    ensures !autoMode ==> !AutoApplies(autoMode, autoBrightness, brightness, lux)
    ensures Abs(autoBrightness - TruncToInt(lux * 100.0)) < MinDiff ==>
      !AutoApplies(autoMode, autoBrightness, brightness, lux)
    ensures AutoApplies(autoMode, autoBrightness, brightness, lux) ==>
      ClampedBrightness(TruncToInt(lux * 100.0)) != brightness
  {
    var n := TruncToInt(lux * 100.0);
    autoMode && Abs(autoBrightness - n) >= MinDiff && ClampedBrightness(n) != brightness
  }

  /** A manual setpoint: one percentage for all displays, or a list. */
  datatype BrightnessSetting = Uniform(percent: int) | PerDisplay(percents: seq<int>)

  /** Whether `_set_brightness` can store the setting (a list needs an element [1]). */
  predicate CanStore(setting: BrightnessSetting)
  {
    setting.Uniform? || |setting.percents| >= 2
  }

  /** The value stored and sent to every display: the scalar, or element [1] of a list. */
  function StoredValue(setting: BrightnessSetting): (v: int)
    requires CanStore(setting)
    ensures setting.Uniform? ==> v == setting.percent
    ensures setting.PerDisplay? ==> v in setting.percents && v == setting.percents[1]
  {
    if setting.Uniform? then setting.percent else setting.percents[1]
  }

  /** Number of displays commanded before the per-display lookup `brightness[index]` fails. */
  function CommandedCount(setting: BrightnessSetting): (n: nat)
    ensures n <= |Displays|
    ensures n == |Displays| <==> setting.Uniform? || |setting.percents| >= |Displays|
    ensures n < |Displays| ==> n == 0 || n == |setting.percents|
    ensures n == 0 <==> !CanStore(setting)
  {
    if setting.Uniform? || |setting.percents| >= |Displays| then |Displays|
    else if |setting.percents| < 2 then 0
    else |setting.percents|
  }

  class BrightnessAdjuster {
    var autoMode: bool
    var brightness: int
    var autoBrightness: int
    /** Every `ddcutil setvcp 10` call issued so far. */
    var commands: seq<DisplayCommand<int>>

    constructor ()
      ensures !autoMode && brightness == -100 && autoBrightness == -100 && commands == []
    {
      autoMode := false;
      brightness := -100;
      autoBrightness := -100;
      commands := [];
    }

    /** The grid scan: ascending, strict comparison, starting from distance 100 and mode 50. */
    static method GetClampedBrightness(newBrightness: int) returns (closestMode: int)
      ensures closestMode == ClampedBrightness(newBrightness)
      ensures InClampRange(newBrightness) ==>
        IsNearest(newBrightness, closestMode) && NoEarlierTie(newBrightness, closestMode)
    {
      var closestValue := InitialClosestValue;
      closestMode := DefaultMode;
      ghost var k := 0;
      GridSpacing();
      for i := 0 to |AutoClampBrightness|
        invariant 0 <= k <= i
        invariant closestValue <= InitialClosestValue
        invariant closestValue == InitialClosestValue ==> closestMode == DefaultMode
        invariant closestValue < InitialClosestValue ==>
          k < i && closestMode == AutoClampBrightness[k] && closestValue == Abs(newBrightness - closestMode)
        invariant forall j :: 0 <= j < i ==> closestValue <= Abs(newBrightness - AutoClampBrightness[j])
        invariant closestValue < InitialClosestValue ==>
          forall j :: 0 <= j < k ==> closestValue < Abs(newBrightness - AutoClampBrightness[j])
      {
        var diffValue := Abs(newBrightness - AutoClampBrightness[i]);
        if diffValue < closestValue {
          closestValue := diffValue;
          closestMode := AutoClampBrightness[i];
          k := i;
        }
      }
      if InClampRange(newBrightness) {
        var j := if newBrightness <= 0 then 0 else if newBrightness >= 100 then 10 else newBrightness / 10;
        assert Abs(newBrightness - AutoClampBrightness[j]) < InitialClosestValue;
        assert IsNearest(newBrightness, closestMode);
        ClampedIsFirstNearest(newBrightness);
        FirstNearestUnique(newBrightness, closestMode, ClampedBrightness(newBrightness));
      } else {
        assert Abs(newBrightness - AutoClampBrightness[0]) >= InitialClosestValue;
        assert Abs(newBrightness - AutoClampBrightness[10]) >= InitialClosestValue;
      }
    }

    /** `_set_brightness`: store the value, then command each display with the stored value.
        Returns false where Python raises IndexError on a too-short list. */
    method SetBrightness(setting: BrightnessSetting) returns (ok: bool)
      modifies this`brightness, this`commands
      ensures ok == (setting.Uniform? || |setting.percents| >= |Displays|)
      ensures brightness == if CanStore(setting) then StoredValue(setting) else old(brightness)
      ensures commands == old(commands) +
        (if CanStore(setting) then Broadcast(Displays[..CommandedCount(setting)], StoredValue(setting)) else [])
    {
      if !CanStore(setting) {
        return false;
      }
      brightness := StoredValue(setting);
      var i := 0;
      while i < |Displays| && (setting.Uniform? || i < |setting.percents|)
        invariant 0 <= i <= |Displays|
        invariant setting.PerDisplay? ==> i <= |setting.percents|
        invariant brightness == StoredValue(setting)
        invariant commands == old(commands) + Broadcast(Displays[..i], brightness)
      {
        assert Displays[..i + 1][..i] == Displays[..i];
        commands := commands + [SetDisplay(Displays[i], brightness)];
        i := i + 1;
      }
      ok := i == |Displays|;
    }

    /** `set_auto_brightness(lux)`: act only in auto mode, only on a change of at least
        MinDiff from the last applied reading, and only if the clamped value is new. */
    method SetAutoBrightness(lux: real)
      modifies this`brightness, this`autoBrightness, this`commands
      ensures AutoApplies(old(autoMode), old(autoBrightness), old(brightness), lux) ==>
        var n := TruncToInt(lux * 100.0);
        autoBrightness == n && brightness == ClampedBrightness(n)
        && commands == old(commands) + Broadcast(Displays, ClampedBrightness(n))
      ensures !AutoApplies(old(autoMode), old(autoBrightness), old(brightness), lux) ==>
        autoBrightness == old(autoBrightness) && brightness == old(brightness) && commands == old(commands)
      ensures brightness != old(brightness) ==> brightness in AutoClampBrightness
    {
      if autoMode {
        var newBrightness := TruncToInt(lux * 100.0);
        var diffBrightness := Abs(autoBrightness - newBrightness);
        if diffBrightness >= MinDiff {
          var clampedBrightness := GetClampedBrightness(newBrightness);
          if clampedBrightness != brightness {
            autoBrightness := newBrightness;
            var _ := SetBrightness(Uniform(clampedBrightness));
            assert Displays[..CommandedCount(Uniform(clampedBrightness))] == Displays;
          }
        }
      }
    }

    method ToggleAutoBrightness(on: bool)
      modifies this`autoMode
      ensures autoMode == on
    {
      autoMode := on;
    }

    /** `set_manual_brightness`: leave auto mode, then set the brightness as given. */
    method SetManualBrightness(setting: BrightnessSetting) returns (ok: bool)
      modifies this
      ensures !autoMode && autoBrightness == old(autoBrightness)
      ensures ok == (setting.Uniform? || |setting.percents| >= |Displays|)
      ensures brightness == if CanStore(setting) then StoredValue(setting) else old(brightness)
      ensures commands == old(commands) +
        (if CanStore(setting) then Broadcast(Displays[..CommandedCount(setting)], StoredValue(setting)) else [])
    {
      autoMode := false;
      ok := SetBrightness(setting);
    }
  }
}
