// whitelight's RedshiftAdjuster: a colour temperature that follows the time
// since sunset, reached by fixed-size steps so the screen never jumps.
module WhitelightRedshift {
  import opened Common

  /** Colour temperatures in kelvin and the transition length in minutes (config.py). */
  const Day: real := 6500.0
  const Night: real := 2800.0
  const TransitionTime: real := 120.0
  const DayNightDiffTemperature: real := Day - Night

  /** Kelvin per step: 7000 K per second times the 0.01 s sleep between steps. */
  const AdjustPerInterval: real := 70.0

  /** The temperature `update_redshift` aims for, `minutesSinceSunset` minutes after sunset. */
  function TargetTemperature(minutesSinceSunset: real): (k: real)
    ensures Night <= k <= Day
    ensures minutesSinceSunset <= 0.0 ==> k == Day
    ensures minutesSinceSunset >= TransitionTime ==> k == Night
  {
    if minutesSinceSunset < 0.0 then Day
    else if minutesSinceSunset < TransitionTime then
      Night + (TransitionTime - minutesSinceSunset) / TransitionTime * DayNightDiffTemperature
    else Night
  }

  /** The later it is after sunset, the warmer (lower) the target. */
  lemma TargetNonIncreasing(t1: real, t2: real)
    requires t1 <= t2
    ensures TargetTemperature(t2) <= TargetTemperature(t1)
  {
  }

  /** Halfway through the transition the target is halfway between day and night. */
  lemma TargetMidTransition()
    ensures TargetTemperature(TransitionTime / 2.0) == (Day + Night) / 2.0
  {
  }

  /** Number of full steps between `s` and `x`: `int(abs(x - s) / 70)`. */
  function StepCount(s: real, x: real): (n: nat)
    ensures n as real * AdjustPerInterval <= AbsReal(x - s) < (n + 1) as real * AdjustPerInterval
  {
    (AbsReal(x - s) / AdjustPerInterval).Floor
  }

  /** The setting `n` steps from `s`, upward or downward. */
  function StepsFrom(s: real, up: bool, n: nat): real
  {
    if up then s + n as real * AdjustPerInterval else s - n as real * AdjustPerInterval
  }

  /** The `n` intermediate settings, one step apart, that follow `s`. */
  function Intermediates(s: real, up: bool, n: nat): (vs: seq<real>)
    ensures |vs| == n
  {
    if n == 0 then [] else Intermediates(s, up, n - 1) + [StepsFrom(s, up, n)]
  }

  /** The settings `_set_redshift_slowly(x)` sends from screen temperature `s`. */
  function FadeSteps(s: real, x: real): (vs: seq<real>)
    ensures vs == [] <==> x == s
    ensures vs != [] ==> vs[|vs| - 1] == x
  {
    if x == s then [] else Intermediates(s, s < x, StepCount(s, x)) + [x]
  }

  lemma {:induction false} IntermediatesAt(s: real, up: bool, n: nat)
    ensures forall k :: 0 <= k < n ==> Intermediates(s, up, n)[k] == StepsFrom(s, up, k + 1)
  {
    if n > 0 {
      IntermediatesAt(s, up, n - 1);
    }
  }

  /** Up to `n` steps toward `x` stay strictly past `s` and never pass `x`. */
  lemma StepsBetween(s: real, x: real, n: nat, k: nat)
    requires s != x && n as real * AdjustPerInterval <= AbsReal(x - s)
    requires 1 <= k <= n
    ensures s < x ==> s < StepsFrom(s, true, k) <= x
    ensures x < s ==> x <= StepsFrom(s, false, k) < s
  {
    assert k as real * AdjustPerInterval <= n as real * AdjustPerInterval;
  }

  /** A fade sends nothing when already at the target; otherwise it sends StepCount
      settings, each exactly one 70 K step further toward the target and none past it,
      and then the target itself, which is less than one step from the last of them. */
  lemma FadeStepsSpec(s: real, x: real)
    ensures s == x <==> FadeSteps(s, x) == []
    ensures s != x ==> |FadeSteps(s, x)| == StepCount(s, x) + 1 && FadeSteps(s, x)[StepCount(s, x)] == x
    ensures forall k :: 0 <= k < StepCount(s, x) ==> FadeSteps(s, x)[k] == StepsFrom(s, s < x, k + 1)
    ensures s < x ==> forall k :: 0 <= k < |FadeSteps(s, x)| ==> s < FadeSteps(s, x)[k] <= x
    ensures x < s ==> forall k :: 0 <= k < |FadeSteps(s, x)| ==> x <= FadeSteps(s, x)[k] < s
    ensures s != x ==> AbsReal(x - StepsFrom(s, s < x, StepCount(s, x))) < AdjustPerInterval
  {
    if s != x {
      var n := StepCount(s, x);
      var vs := Intermediates(s, s < x, n);
      assert FadeSteps(s, x) == vs + [x];
      IntermediatesAt(s, s < x, n);
      forall k | 0 <= k < n
        ensures s < x ==> s < FadeSteps(s, x)[k] <= x
        ensures x < s ==> x <= FadeSteps(s, x)[k] < s
      {
        StepsBetween(s, x, n, k + 1);
      }
    }
  }

  class RedshiftAdjuster {
    var enabled: bool
    /** The last target computed by UpdateRedshift. */
    var redshiftTemperature: real
    /** The temperature the screen was last set to. */
    var screenTemperature: real
    /** Every `redshift -O` setting issued so far. */
    var calls: seq<real>

    constructor ()
      ensures enabled && redshiftTemperature == Day - 500.0 && screenTemperature == Day - 500.0
      ensures calls == []
    {
      enabled := true;
      redshiftTemperature := Day - 500.0;
      screenTemperature := Day - 500.0;
      calls := [];
    }

    /** `update_redshift`: when enabled, record the target and fade the screen to it. */
    method UpdateRedshift(minutesSinceSunset: real)
      modifies this`redshiftTemperature, this`screenTemperature, this`calls
      ensures !old(enabled) ==>
        redshiftTemperature == old(redshiftTemperature)
        && screenTemperature == old(screenTemperature) && calls == old(calls)
      ensures old(enabled) ==>
        redshiftTemperature == TargetTemperature(minutesSinceSunset)
        && screenTemperature == TargetTemperature(minutesSinceSunset)
        && calls == old(calls) + FadeSteps(old(screenTemperature), TargetTemperature(minutesSinceSunset))
    {
      if enabled {
        var newTemperature := TargetTemperature(minutesSinceSunset);
        redshiftTemperature := newTemperature;
        SetRedshiftSlowly(newTemperature);
      }
    }

    /** `_set_redshift_slowly`: step by 70 K toward the target, then set it exactly. */
    method SetRedshiftSlowly(newTemperature: real)
      modifies this`screenTemperature, this`calls
      ensures screenTemperature == newTemperature
      ensures calls == old(calls) + FadeSteps(old(screenTemperature), newTemperature)
    {
      if newTemperature != screenTemperature {
        var diffTemperature := newTemperature - screenTemperature;
        var intervals := (AbsReal(diffTemperature) / AdjustPerInterval).Floor;
        var intervalAdjustment := if diffTemperature < 0.0 then -AdjustPerInterval else AdjustPerInterval;
        ghost var start, up := screenTemperature, screenTemperature < newTemperature;
        for i := 1 to intervals + 1
          invariant screenTemperature == StepsFrom(start, up, i - 1)
          invariant calls == old(calls) + Intermediates(start, up, i - 1)
        {
          SetRedshift(screenTemperature + intervalAdjustment);
        }
        SetRedshift(newTemperature);
      }
    }

    /** `_set_redshift`: one `redshift -O` call. */
    method SetRedshift(temperature: real)
      modifies this`screenTemperature, this`calls
      ensures screenTemperature == temperature && calls == old(calls) + [temperature]
    {
      screenTemperature := temperature;
      calls := calls + [temperature];
    }

    /** Stop following the sun and fade back to the day temperature. */
    method Disable()
      modifies this`enabled, this`screenTemperature, this`calls
      ensures !enabled && screenTemperature == Day
      ensures calls == old(calls) + FadeSteps(old(screenTemperature), Day)
    {
      enabled := false;
      SetRedshiftSlowly(Day);
    }

    /** Follow the sun again, fading to the last computed target. */
    method Enable()
      modifies this`enabled, this`screenTemperature, this`calls
      ensures enabled && screenTemperature == redshiftTemperature
      ensures calls == old(calls) + FadeSteps(old(screenTemperature), redshiftTemperature)
    {
      enabled := true;
      SetRedshiftSlowly(redshiftTemperature);
    }
  }
}
