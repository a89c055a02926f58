// brightnessAdjuster.py: the older controller. Around sunset the xrandr
// brightness ramps from 1.0 down to 0.75, always by a fade of 0.01 steps;
// video players and fullscreen windows switch the correction off.
//
// Instants are seconds (as `real`); `gmtime`/`utcnow` readings, the `ps aux`
// listing and the xprop outputs are parameters, and the ephemeris is the
// function `nextSetting` of the observer date string.
module LegacyAdjuster {
  import opened Common
  import opened WindowTracking

  const AlwaysEnabled: bool := true
  const ProgramsEnabled: seq<string> := ["eclipse", "android-studio"]
  const ProgramsDisabled: seq<string> := ["mplayer", "smplayer", "vlc"]
  const FullscreenDisabled: bool := true
  const Displays: seq<string> := ["DFP1", "DFP2", "DFP5"]

  /** A point of the ramp: minutes till sunset and the brightness there. */
  datatype RampPoint = RampPoint(minutes: real, brightness: real)

  const AdjustFrom: RampPoint := RampPoint(60.0, 1.0)
  const AdjustTo: RampPoint := RampPoint(-60.0, 0.75)

  /** Size of one fade step (`BRIGHTNESS_ADJUSTMENT_PER_10MS`). */
  const FadeStep: real := 0.01

  // ---------------------------------------------------------------- sunset

  class SunsetChecker {
    const nextSetting: string -> real
    var currentDate: string
    var midnight: real
    var sunsetDate: string
    var sunsetTime: real

    ghost predicate Valid()
      reads this
    {
      IsDateString(currentDate) && sunsetTime == nextSetting(sunsetDate + NoonSuffix)
    }

    constructor (nextSetting: string -> real, utcDate: string, utcNow: real)
      requires IsDateString(utcDate)
      ensures Valid() && this.nextSetting == nextSetting
      ensures currentDate == utcDate && sunsetDate == utcDate && midnight == utcNow
    {
      this.nextSetting := nextSetting;
      currentDate := InvalidDate;
      midnight := 0.0;  // unset until the first date update, which always fires
      sunsetDate := InvalidDate;
      sunsetTime := nextSetting(InvalidDate + NoonSuffix);
      new;
      InvalidDateIsNoDate();
      UpdateCurrentDate(utcDate, utcNow);
      UpdateSunsetTime();
    }

    /** `update`: on the same day nothing changes; on a new day the date is refreshed and
        then the call of the missing `updateSunset` fails (ok == false), leaving the
        cached sunset stale. */
    method Update(utcDate: string, utcNow: real) returns (ok: bool)
      requires Valid() && IsDateString(utcDate)
      modifies this`currentDate, this`midnight
      ensures Valid()
      ensures ok <==> old(sunsetDate) == utcDate
      ensures currentDate == utcDate
      ensures midnight == if old(currentDate) == utcDate then old(midnight) else utcNow
      ensures ok && old(currentDate) == utcDate ==> unchanged(this)
    {
      UpdateCurrentDate(utcDate, utcNow);
      ok := IsSunsetTimeUpToDate();
    }

    method UpdateCurrentDate(utcDate: string, utcNow: real)
      modifies this`currentDate, this`midnight
      ensures currentDate == utcDate
      ensures midnight == if old(currentDate) == utcDate then old(midnight) else utcNow
    {
      if utcDate != currentDate {
        currentDate := utcDate;
        midnight := utcNow;
      }
    }

    predicate IsSunsetTimeUpToDate()
      reads this
    {
      sunsetDate == currentDate
    }

    method UpdateSunsetTime()
      modifies this`sunsetDate, this`sunsetTime
      ensures sunsetDate == currentDate && sunsetTime == nextSetting(currentDate + NoonSuffix)
    {
      sunsetDate := currentDate;
      sunsetTime := nextSetting(sunsetDate + NoonSuffix);
    }

    /** `getMinutesTillSunset`: `midnight` cancels; positive before sunset, negative after. */
    function MinutesTillSunset(now: real): (m: real)
      reads this
      ensures m == (sunsetTime - now) / 60.0
      ensures m > 0.0 <==> now < sunsetTime
      ensures m < 0.0 <==> now > sunsetTime
    {
      var secondsSinceMidnightNow := now - midnight;
      var secondsSinceMidnightSunset := sunsetTime - midnight;
      (secondsSinceMidnightSunset - secondsSinceMidnightNow) / 60.0
    }
  }

  // ---------------------------------------------------------------- ramp and fade

  /** Brightness change per minute along the ramp. */
  function PerMinute(from: RampPoint, to: RampPoint): (r: real)
    requires from.minutes != to.minutes
    ensures r * (from.minutes - to.minutes) == from.brightness - to.brightness
  {
    (from.brightness - to.brightness) / (from.minutes - to.minutes)
  }

  /** The brightness `adjustBrightness` fades to, `minutesToSunset` before sunset: the line
      through both ramp points, held at the end point's brightness past its time. */
  function RampBrightness(from: RampPoint, to: RampPoint, minutesToSunset: real): (r: real)
    requires from.minutes != to.minutes
    ensures to.minutes < from.minutes && minutesToSunset == from.minutes ==> r == from.brightness
    ensures minutesToSunset <= to.minutes ==> r == to.brightness
  {
    var clampedTime := if minutesToSunset < to.minutes then to.minutes else minutesToSunset;
    var diffTime := from.minutes - clampedTime;
    from.brightness - diffTime * PerMinute(from, to)
  }

  lemma PerMinuteValue()
    ensures PerMinute(AdjustFrom, AdjustTo) == 0.25 / 120.0
  {
  }

  /** While adjusting, the configured ramp stays in [0.75, 1.0) and bottoms out at 0.75
      from an hour after sunset on. */
  lemma RampRange(m: real)
    requires m < AdjustFrom.minutes
    ensures AdjustTo.brightness <= RampBrightness(AdjustFrom, AdjustTo, m) < AdjustFrom.brightness
    ensures m <= AdjustTo.minutes ==> RampBrightness(AdjustFrom, AdjustTo, m) == AdjustTo.brightness
  {
    PerMinuteValue();
  }

  /** The configured ramp never gets darker as sunset gets further away. */
  lemma RampMonotone(m1: real, m2: real)
    requires m1 <= m2
    ensures RampBrightness(AdjustFrom, AdjustTo, m1) <= RampBrightness(AdjustFrom, AdjustTo, m2)
  {
    PerMinuteValue();
  }

  /** Bound on the number of 0.01 steps left between `a` and `b`. */
  function StepsLeft(a: real, b: real): nat
  {
    if a < b then ((b - a) * 100.0).Floor + 1 else 0
  }

  lemma StepsLeftDecreases(a: real, b: real)
    requires a < b
    ensures StepsLeft(a + FadeStep, b) < StepsLeft(a, b)
  {
    assert (b - (a + FadeStep)) * 100.0 == (b - a) * 100.0 - 1.0;
  }

  lemma DownStepsLeftDecreases(a: real, b: real)
    requires a > b
    ensures StepsLeft(b, a - FadeStep) < StepsLeft(b, a)
  {
    assert (a - FadeStep - b) * 100.0 == (a - b) * 100.0 - 1.0;
  }

  /** The values an upward fade sets before the target: `a`, `a + 0.01`, ... while below `b`. */
  function UpSteps(a: real, b: real): seq<real>
    decreases StepsLeft(a, b)
  {
    if a < b then StepsLeftDecreases(a, b); [a] + UpSteps(a + FadeStep, b) else []
  }

  /** The values a downward fade sets before the target: `a`, `a - 0.01`, ... while above `b`. */
  function DownSteps(a: real, b: real): seq<real>
    decreases StepsLeft(b, a)
  {
    if a > b then DownStepsLeftDecreases(a, b); [a] + DownSteps(a - FadeStep, b) else []
  }

  /** Every brightness `setBrightnessFade(b)` sets, starting from current brightness `a`. */
  function FadeValues(a: real, b: real): (vs: seq<real>)
    ensures |vs| >= 1 && vs[|vs| - 1] == b
    ensures a == b ==> vs == [b]
  {
    (if a < b then UpSteps(a, b) else DownSteps(a, b)) + [b]
  }

  lemma {:induction false} UpStepsShape(a: real, b: real)
    ensures forall k :: 0 <= k < |UpSteps(a, b)| ==>
      UpSteps(a, b)[k] == a + k as real * FadeStep && UpSteps(a, b)[k] < b
    decreases StepsLeft(a, b)
  {
    if a < b {
      StepsLeftDecreases(a, b);
      UpStepsShape(a + FadeStep, b);
    }
  }

  lemma {:induction false} DownStepsShape(a: real, b: real)
    ensures forall k :: 0 <= k < |DownSteps(a, b)| ==>
      DownSteps(a, b)[k] == a - k as real * FadeStep && DownSteps(a, b)[k] > b
    decreases StepsLeft(b, a)
  {
    if a > b {
      DownStepsLeftDecreases(a, b);
      DownStepsShape(a - FadeStep, b);
    }
  }

  /** The last value of a rising fade is within one step of the target. */
  lemma {:induction false} UpStepsEnd(a: real, b: real)
    requires a < b
    ensures |UpSteps(a, b)| >= 1 && b - UpSteps(a, b)[|UpSteps(a, b)| - 1] <= FadeStep
    decreases StepsLeft(a, b)
  {
    StepsLeftDecreases(a, b);
    assert UpSteps(a, b) == [a] + UpSteps(a + FadeStep, b);
    if a + FadeStep < b {
      UpStepsEnd(a + FadeStep, b);
    }
  }

  /** The last value of a falling fade is within one step of the target. */
  lemma {:induction false} DownStepsEnd(a: real, b: real)
    requires a > b
    ensures |DownSteps(a, b)| >= 1 && DownSteps(a, b)[|DownSteps(a, b)| - 1] - b <= FadeStep
    decreases StepsLeft(b, a)
  {
    DownStepsLeftDecreases(a, b);
    assert DownSteps(a, b) == [a] + DownSteps(a - FadeStep, b);
    if a - FadeStep > b {
      DownStepsEnd(a - FadeStep, b);
    }
  }

  /** A rising fade: the current value, then 0.01 steps up while below the target, each
      below it and the last within one step of it, then the target itself. */
  lemma RisingFadeSpec(a: real, b: real)
    requires a < b
    ensures var vs := FadeValues(a, b);
      && |vs| >= 2 && vs[0] == a && vs[|vs| - 1] == b
      && (forall k :: 0 <= k < |vs| - 1 ==> vs[k] == a + k as real * FadeStep && vs[k] < b)
      && b - vs[|vs| - 2] <= FadeStep
      && (forall i, j :: 0 <= i <= j < |vs| ==> vs[i] <= vs[j])
  {
    var vs := FadeValues(a, b);
    UpStepsEnd(a, b);
    UpStepsShape(a, b);
    assert vs[..|vs| - 1] == UpSteps(a, b);
    forall i, j | 0 <= i <= j < |vs|
      ensures vs[i] <= vs[j]
    {
      if j < |vs| - 1 {
        assert vs[i] == a + i as real * FadeStep;
        assert vs[j] == a + j as real * FadeStep;
      }
    }
  }

  /** A falling fade, the mirror image of a rising one. */
  lemma FallingFadeSpec(a: real, b: real)
    requires a > b
    ensures var vs := FadeValues(a, b);
      && |vs| >= 2 && vs[0] == a && vs[|vs| - 1] == b
      && (forall k :: 0 <= k < |vs| - 1 ==> vs[k] == a - k as real * FadeStep && vs[k] > b)
      && vs[|vs| - 2] - b <= FadeStep
      && (forall i, j :: 0 <= i <= j < |vs| ==> vs[i] >= vs[j])
  {
    var vs := FadeValues(a, b);
    DownStepsEnd(a, b);
    DownStepsShape(a, b);
    assert vs[..|vs| - 1] == DownSteps(a, b);
    forall i, j | 0 <= i <= j < |vs|
      ensures vs[i] >= vs[j]
    {
      if j < |vs| - 1 {
        assert vs[i] == a - i as real * FadeStep;
        assert vs[j] == a - j as real * FadeStep;
      }
    }
  }

  /** A fade starts at the current value, moves in 0.01 steps monotonically toward the
      target without reaching it, and ends exactly on the target after a last jump of at
      most one step; so the number of values is fixed by the distance. With no distance to
      cover it sets the target once. */
  lemma FadeSpec(a: real, b: real)
    ensures a == b ==> FadeValues(a, b) == [b]
    ensures a < b ==> var vs := FadeValues(a, b);
      && |vs| >= 2 && vs[0] == a && vs[|vs| - 1] == b
      && (forall k :: 0 <= k < |vs| - 1 ==> vs[k] == a + k as real * FadeStep && vs[k] < b)
      && b - vs[|vs| - 2] <= FadeStep
      && (forall i, j :: 0 <= i <= j < |vs| ==> vs[i] <= vs[j])
    ensures a > b ==> var vs := FadeValues(a, b);
      && |vs| >= 2 && vs[0] == a && vs[|vs| - 1] == b
      && (forall k :: 0 <= k < |vs| - 1 ==> vs[k] == a - k as real * FadeStep && vs[k] > b)
      && vs[|vs| - 2] - b <= FadeStep
      && (forall i, j :: 0 <= i <= j < |vs| ==> vs[i] >= vs[j])
  {
    if a < b {
      RisingFadeSpec(a, b);
    } else if a > b {
      FallingFadeSpec(a, b);
    }
  }

  /** One iteration of the upward fade loop moves `a` from the pending steps to the done ones. */
  lemma FadeUpStep(done: seq<real>, a: real, b: real)
    requires a < b
    ensures StepsLeft(a + FadeStep, b) < StepsLeft(a, b)
    ensures (done + [a]) + UpSteps(a + FadeStep, b) == done + UpSteps(a, b)
  {
    StepsLeftDecreases(a, b);
    assert UpSteps(a, b) == [a] + UpSteps(a + FadeStep, b);
  }

  /** One iteration of the downward fade loop. */
  lemma FadeDownStep(done: seq<real>, a: real, b: real)
    requires a > b
    ensures StepsLeft(b, a - FadeStep) < StepsLeft(b, a)
    ensures (done + [a]) + DownSteps(a - FadeStep, b) == done + DownSteps(a, b)
  {
    DownStepsLeftDecreases(a, b);
    assert DownSteps(a, b) == [a] + DownSteps(a - FadeStep, b);
  }

  /** The xrandr commands issued by setting each of `vs` in turn. */
  function Calls(vs: seq<real>): (cs: seq<DisplayCommand<real>>)
    ensures |cs| == |vs| * |Displays|
  {
    if vs == [] then [] else Calls(vs[..|vs| - 1]) + Broadcast(Displays, vs[|vs| - 1])
  }

  lemma CallsAppend(vs: seq<real>, v: real)
    ensures Calls(vs + [v]) == Calls(vs) + Broadcast(Displays, v)
  {
    assert (vs + [v])[..|vs|] == vs;
  }

  class BrightnessAdjuster {
    const adjustFrom: RampPoint
    const adjustTo: RampPoint
    const adjustPerMinute: real
    var currentBrightness: real
    /** Every `xrandr --brightness` call issued so far. */
    var commands: seq<DisplayCommand<real>>

    ghost predicate Valid()
      reads this
    {
      adjustFrom.minutes != adjustTo.minutes && adjustPerMinute == PerMinute(adjustFrom, adjustTo)
    }

    constructor (adjustFrom: RampPoint, adjustTo: RampPoint)
      requires adjustFrom.minutes != adjustTo.minutes
      ensures Valid() && this.adjustFrom == adjustFrom && this.adjustTo == adjustTo
      ensures currentBrightness == adjustFrom.brightness - FadeStep && commands == []
    {
      this.adjustFrom := adjustFrom;
      this.adjustTo := adjustTo;
      var adjustTotalTime := adjustFrom.minutes - adjustTo.minutes;
      var adjustTotalDiff := adjustFrom.brightness - adjustTo.brightness;
      adjustPerMinute := adjustTotalDiff / adjustTotalTime;
      currentBrightness := adjustFrom.brightness - FadeStep;
      commands := [];
    }

    predicate IsAdjusting(minutesToSunset: real)
      reads this
    {
      adjustFrom.minutes > minutesToSunset
    }

    /** `adjustBrightness`: inside the adjusting window, fade to the ramp value; else nothing. */
    method AdjustBrightness(minutesToSunset: real)
      requires Valid()
      modifies this`currentBrightness, this`commands
      ensures IsAdjusting(minutesToSunset) ==>
        var target := RampBrightness(adjustFrom, adjustTo, minutesToSunset);
        currentBrightness == target && commands == old(commands) + Calls(FadeValues(old(currentBrightness), target))
      ensures !IsAdjusting(minutesToSunset) ==>
        currentBrightness == old(currentBrightness) && commands == old(commands)
    {
      if IsAdjusting(minutesToSunset) {
        var clampedTime := if minutesToSunset < adjustTo.minutes then adjustTo.minutes else minutesToSunset;
        var diffTime := adjustFrom.minutes - clampedTime;
        var brightness := adjustFrom.brightness - diffTime * adjustPerMinute;
        SetBrightnessFade(brightness);
      }
    }

    /** `setBrightnessFade`: set the current value, step by 0.01 toward the target while it
        has not been reached, then set the target. */
    method SetBrightnessFade(brightness: real)
      modifies this`currentBrightness, this`commands
      ensures currentBrightness == brightness
      ensures commands == old(commands) + Calls(FadeValues(old(currentBrightness), brightness))
    {
      var adjustingBrightness := currentBrightness;
      currentBrightness := brightness;
      ghost var done: seq<real>;
      if adjustingBrightness < brightness {
        done := FadeUp(adjustingBrightness, brightness);
      } else {
        done := FadeDown(adjustingBrightness, brightness);
      }
      assert done + [brightness] == FadeValues(adjustingBrightness, brightness);
      ghost var before := commands;
      SetBrightness(brightness);
      CallsAppend(done, brightness);
      assert commands == before + Broadcast(Displays, brightness);
    }

    /** The increasing loop of `setBrightnessFade`. */
    method FadeUp(from: real, to: real) returns (ghost done: seq<real>)
      modifies this`currentBrightness, this`commands
      ensures done == UpSteps(from, to)
      ensures commands == old(commands) + Calls(done)
      ensures done == [] ==> currentBrightness == old(currentBrightness)
      ensures done != [] ==> currentBrightness == done[|done| - 1]
    {
      var adjustingBrightness := from;
      done := [];
      while adjustingBrightness < to
        invariant done + UpSteps(adjustingBrightness, to) == UpSteps(from, to)
        invariant commands == old(commands) + Calls(done)
        invariant done == [] ==> currentBrightness == old(currentBrightness)
        invariant done != [] ==> currentBrightness == done[|done| - 1]
        decreases StepsLeft(adjustingBrightness, to)
      {
        SetBrightness(adjustingBrightness);
        CallsAppend(done, adjustingBrightness);
        FadeUpStep(done, adjustingBrightness, to);
        done := done + [adjustingBrightness];
        adjustingBrightness := adjustingBrightness + FadeStep;
      }
    }

    /** The decreasing loop of `setBrightnessFade`. */
    method FadeDown(from: real, to: real) returns (ghost done: seq<real>)
      modifies this`currentBrightness, this`commands
      ensures done == DownSteps(from, to)
      ensures commands == old(commands) + Calls(done)
      ensures done == [] ==> currentBrightness == old(currentBrightness)
      ensures done != [] ==> currentBrightness == done[|done| - 1]
    {
      var adjustingBrightness := from;
      done := [];
      while adjustingBrightness > to
        invariant done + DownSteps(adjustingBrightness, to) == DownSteps(from, to)
        invariant commands == old(commands) + Calls(done)
        invariant done == [] ==> currentBrightness == old(currentBrightness)
        invariant done != [] ==> currentBrightness == done[|done| - 1]
        decreases StepsLeft(to, adjustingBrightness)
      {
        SetBrightness(adjustingBrightness);
        CallsAppend(done, adjustingBrightness);
        FadeDownStep(done, adjustingBrightness, to);
        done := done + [adjustingBrightness];
        adjustingBrightness := adjustingBrightness - FadeStep;
      }
    }

    /** `setBrightness`: one xrandr call per display. */
    method SetBrightness(brightness: real)
      modifies this`currentBrightness, this`commands
      ensures currentBrightness == brightness
      ensures commands == old(commands) + Broadcast(Displays, brightness)
    {
      currentBrightness := brightness;
      for i := 0 to |Displays|
        invariant currentBrightness == brightness
        invariant commands == old(commands) + Broadcast(Displays[..i], brightness)
      {
        assert Displays[..i + 1][..i] == Displays[..i];
        commands := commands + [SetDisplay(Displays[i], brightness)];
      }
      assert Displays[..|Displays|] == Displays;
    }

    /** `disable`: fade back to full brightness, after which the adjuster is inactive. */
    method Disable()
      modifies this`currentBrightness, this`commands
      ensures currentBrightness == adjustFrom.brightness && !IsActive()
      ensures commands == old(commands) + Calls(FadeValues(old(currentBrightness), adjustFrom.brightness))
    {
      SetBrightnessFade(adjustFrom.brightness);
    }

    /** The correction is active while the brightness differs from the ramp's start. */
    predicate IsActive()
      reads this
    {
      adjustFrom.brightness != currentBrightness
    }
  }

  // ---------------------------------------------------------------- programs

  /** `_isWindowFullscreen`: the window state lists the fullscreen atom (no length guard). */
  function FullscreenProbe(windowProps: string -> string): (isFullscreen: string -> bool)
    ensures forall id :: isFullscreen(id) <==> exists i :: OccursAt(windowProps(id), FullscreenAtom, i)
  {
    ContainsIffAll(windowProps, FullscreenAtom);
    id => Contains(windowProps(id), FullscreenAtom)
  }

  class ProgramChecker {
    /** The `ALWAYS_ENABLED` setting the checker consults. */
    const alwaysEnabled: bool
    const programsActive: seq<string>
    const programsDisable: seq<string>
    const fullscreenDisable: bool
    var fullscreenWindowIds: seq<string>

    ghost predicate Valid()
      reads this
    {
      NoDuplicates(fullscreenWindowIds)
    }

    constructor (alwaysEnabled: bool, programsActive: seq<string>, programsDisable: seq<string>,
                 fullscreenDisable: bool)
      ensures Valid() && fullscreenWindowIds == [] && this.alwaysEnabled == alwaysEnabled
      ensures this.programsActive == programsActive && this.programsDisable == programsDisable
      ensures this.fullscreenDisable == fullscreenDisable
    {
      this.alwaysEnabled := alwaysEnabled;
      this.programsActive := programsActive;
      this.programsDisable := programsDisable;
      this.fullscreenDisable := fullscreenDisable;
      fullscreenWindowIds := [];
    }

    /** `isEnableProgramRunning`: always true while the setting is on; otherwise whether
        an enabling program is listed. */
    predicate IsEnableProgramRunning(psOutput: string)
      reads this
    {
      alwaysEnabled || AnyProgramRunning(programsActive, psOutput)
    }

    ghost function CheckedIds(rootOutput: string, windowProps: string -> string): seq<string>
      reads this
    {
      if fullscreenDisable
      then Tracked(fullscreenWindowIds, ActiveWindowId(rootOutput), FullscreenProbe(windowProps))
      else fullscreenWindowIds
    }

    /** `checkForFullscreen`: prune the tracked windows, then track the active one if new. */
    method CheckForFullscreen(rootOutput: string, windowProps: string -> string)
      requires Valid()
      modifies this`fullscreenWindowIds
      ensures Valid()
      ensures fullscreenWindowIds == old(CheckedIds(rootOutput, windowProps))
    {
      if fullscreenDisable {
        var isFullscreen := FullscreenProbe(windowProps);
        ghost var before := fullscreenWindowIds;
        PruneWindowIds(isFullscreen);
        var windowId := ActiveWindowId(rootOutput);
        if isFullscreen(windowId) {
          if windowId !in fullscreenWindowIds {
            fullscreenWindowIds := fullscreenWindowIds + [windowId];
          }
        }
        TrackedSpec(before, windowId, isFullscreen);
      }
    }

    /** The first half of `checkForFullscreen`: remove, in place, the tracked windows that
        are no longer fullscreen. */
    method PruneWindowIds(isFullscreen: string -> bool)
      requires NoDuplicates(fullscreenWindowIds)
      modifies this`fullscreenWindowIds
      ensures fullscreenWindowIds == Kept(old(fullscreenWindowIds), isFullscreen)
    {
      var snapshot := fullscreenWindowIds;
      for i := 0 to |snapshot|
        invariant fullscreenWindowIds == Kept(snapshot[..i], isFullscreen) + snapshot[i..]
      {
        PruneStep(snapshot, i, isFullscreen);
        var windowId := snapshot[i];
        if !isFullscreen(windowId) {
          fullscreenWindowIds := Remove(fullscreenWindowIds, windowId);
        }
      }
      assert snapshot[..|snapshot|] == snapshot;
    }

    predicate IsFullscreenActive()
      reads this
    {
      |fullscreenWindowIds| > 0
    }

    /** `isDisableProgramRunnnig`: a listed program answers true before the fullscreen check. */
    method IsDisableProgramRunning(psOutput: string, rootOutput: string, windowProps: string -> string)
      returns (disabling: bool)
      requires Valid()
      modifies this`fullscreenWindowIds
      ensures Valid()
      ensures AnyProgramRunning(programsDisable, psOutput) ==>
        disabling && fullscreenWindowIds == old(fullscreenWindowIds)
      ensures !AnyProgramRunning(programsDisable, psOutput) ==>
        fullscreenWindowIds == old(CheckedIds(rootOutput, windowProps))
        && disabling == (fullscreenWindowIds != [])
    {
      for i := 0 to |programsDisable|
        invariant forall j :: 0 <= j < i ==> !Contains(psOutput, programsDisable[j])
      {
        if Contains(psOutput, programsDisable[i]) {
          return true;
        }
      }
      CheckForFullscreen(rootOutput, windowProps);
      disabling := IsFullscreenActive();
    }
  }

  // ---------------------------------------------------------------- main loop

  datatype Action = DisableCorrection | AdjustToSunset | KeepDefault

  /** The main loop's choice. Both of its branches agree on when the ramp is followed
      (an enabling program and no disabling one); only an active correction is ever
      switched off, and an inactive one is otherwise left alone. */
  function Decide(active: bool, disabling: bool, enabling: bool): (a: Action)
    ensures a == AdjustToSunset <==> enabling && !disabling
    ensures a == DisableCorrection <==> active && (disabling || !enabling)
    ensures a == KeepDefault <==> !active && (disabling || !enabling)
  {
    if active then
      if disabling then DisableCorrection
      else if !enabling then DisableCorrection
      else AdjustToSunset
    else if enabling && !disabling then AdjustToSunset
    else KeepDefault
  }

  /** The action one pass of the main loop takes, judged on the state before it. */
  ghost function PollAction(programs: ProgramChecker, active: bool, psOutput: string, rootOutput: string,
                            windowProps: string -> string): Action
    reads programs
  {
    Decide(active,
           AnyProgramRunning(programs.programsDisable, psOutput) || programs.CheckedIds(rootOutput, windowProps) != [],
           programs.IsEnableProgramRunning(psOutput))
  }

  /** One pass of the main loop. Returns false when `update` fails on a new day, which
      ends the program. The fullscreen list is refreshed whenever the disable check runs:
      for an active correction always, for an inactive one only while an enabling program
      runs, and in both cases only when no disabling program is listed. */
  method PollStep(programs: ProgramChecker, adjuster: BrightnessAdjuster, sunset: SunsetChecker,
                  psOutput: string, rootOutput: string, windowProps: string -> string,
                  utcDate: string, utcNow: real, now: real)
    returns (ok: bool)
    requires programs.Valid() && adjuster.Valid() && sunset.Valid() && IsDateString(utcDate)
    modifies programs, adjuster, sunset
    ensures programs.Valid() && sunset.Valid()
    ensures programs.fullscreenWindowIds ==
      if (old(adjuster.IsActive()) || programs.IsEnableProgramRunning(psOutput))
         && !AnyProgramRunning(programs.programsDisable, psOutput)
      then old(programs.CheckedIds(rootOutput, windowProps))
      else old(programs.fullscreenWindowIds)
    ensures old(PollAction(programs, adjuster.IsActive(), psOutput, rootOutput, windowProps)) != AdjustToSunset ==>
      unchanged(sunset)
    ensures sunset.sunsetDate == old(sunset.sunsetDate) && sunset.sunsetTime == old(sunset.sunsetTime)
    ensures sunset.midnight == if old(sunset.currentDate) == sunset.currentDate then old(sunset.midnight) else utcNow
    ensures old(PollAction(programs, adjuster.IsActive(), psOutput, rootOutput, windowProps)) == DisableCorrection ==>
      ok && adjuster.currentBrightness == adjuster.adjustFrom.brightness && !adjuster.IsActive()
      && adjuster.commands == old(adjuster.commands)
           + Calls(FadeValues(old(adjuster.currentBrightness), adjuster.adjustFrom.brightness))
    ensures old(PollAction(programs, adjuster.IsActive(), psOutput, rootOutput, windowProps)) == KeepDefault ==>
      ok && adjuster.currentBrightness == old(adjuster.currentBrightness)
      && adjuster.commands == old(adjuster.commands)
    ensures old(PollAction(programs, adjuster.IsActive(), psOutput, rootOutput, windowProps)) == AdjustToSunset ==>
      (ok <==> old(sunset.sunsetDate) == utcDate) && sunset.currentDate == utcDate
    ensures old(PollAction(programs, adjuster.IsActive(), psOutput, rootOutput, windowProps)) == AdjustToSunset
            && ok && adjuster.IsAdjusting(sunset.MinutesTillSunset(now)) ==>
      var target := RampBrightness(adjuster.adjustFrom, adjuster.adjustTo, sunset.MinutesTillSunset(now));
      adjuster.currentBrightness == target
      && adjuster.commands == old(adjuster.commands) + Calls(FadeValues(old(adjuster.currentBrightness), target))
    ensures old(PollAction(programs, adjuster.IsActive(), psOutput, rootOutput, windowProps)) == AdjustToSunset
            && !(ok && adjuster.IsAdjusting(sunset.MinutesTillSunset(now))) ==>
      adjuster.currentBrightness == old(adjuster.currentBrightness) && adjuster.commands == old(adjuster.commands)
  {
    ok := true;
    if adjuster.IsActive() {
      var disabling := programs.IsDisableProgramRunning(psOutput, rootOutput, windowProps);
      if disabling {
        adjuster.Disable();
      } else if !programs.IsEnableProgramRunning(psOutput) {
        adjuster.Disable();
      } else {
        ok := sunset.Update(utcDate, utcNow);
        if ok {
          adjuster.AdjustBrightness(sunset.MinutesTillSunset(now));
        }
      }
    } else {
      if programs.IsEnableProgramRunning(psOutput) {
        var disabling := programs.IsDisableProgramRunning(psOutput, rootOutput, windowProps);
        if !disabling {
          ok := sunset.Update(utcDate, utcNow);
          if ok {
            adjuster.AdjustBrightness(sunset.MinutesTillSunset(now));
          }
        }
      }
    }
  }

  /** The objects the program builds at start-up, with the configured settings. The
      correction starts active (0.99), and with ALWAYS_ENABLED every listing enables it. */
  method Start(nextSetting: string -> real, utcDate: string, utcNow: real)
    returns (programs: ProgramChecker, adjuster: BrightnessAdjuster, sunset: SunsetChecker)
    requires IsDateString(utcDate)
    ensures fresh(programs) && fresh(adjuster) && fresh(sunset)
    ensures programs.Valid() && adjuster.Valid() && sunset.Valid()
    ensures programs.alwaysEnabled == AlwaysEnabled && programs.programsActive == ProgramsEnabled
    ensures programs.programsDisable == ProgramsDisabled && programs.fullscreenDisable == FullscreenDisabled
    ensures programs.fullscreenWindowIds == []
    ensures forall ps :: programs.IsEnableProgramRunning(ps)
    ensures adjuster.adjustFrom == AdjustFrom && adjuster.adjustTo == AdjustTo
    ensures adjuster.currentBrightness == 0.99 && adjuster.IsActive() && adjuster.commands == []
    ensures sunset.currentDate == utcDate && sunset.sunsetDate == utcDate && sunset.nextSetting == nextSetting
    ensures sunset.midnight == utcNow
  {
    programs := new ProgramChecker(AlwaysEnabled, ProgramsEnabled, ProgramsDisabled, FullscreenDisabled);
    adjuster := new BrightnessAdjuster(AdjustFrom, AdjustTo);
    sunset := new SunsetChecker(nextSetting, utcDate, utcNow);
  }
}
