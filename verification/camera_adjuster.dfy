// brightnessAdjuster-camera.py: brightness from a webcam's light level, with a
// movie mode that keeps the screen at least half bright while a video player
// runs or a window is fullscreen.
//
// The camera frame is reduced to one grey pixel in [0, 255] outside the model;
// `ps aux` is its output text, `xprop -root _NET_ACTIVE_WINDOW` its output
// text, and `xprop -id <id>` the function `windowProps`.
module CameraAdjuster {
  import opened Common
  import opened WindowTracking

  const ProgramsDisabled: seq<string> := ["mplayer", "smplayer", "vlc"]
  const FullscreenDisabled: bool := true
  const Displays: seq<string> := ["adl:0:0", "adl:0:1", "adl:0:4"]
  const AdjustMax: int := 100
  const AdjustMin: int := 0
  const AdjustMovieMin: int := 50
  /** Smallest change of the stored brightness that is sent to the displays. */
  const MinCommandedChange: int := 5
  /** Length of a window id such as `0x3a00007`. */
  const WindowIdLength: int := 9

  /** `getNormalizedLux`: Python 2 integer division `lux * 100 / 256` (floor division;
      Dafny's `/` with a positive divisor floors as well). */
  function NormalizedLux(lux: int): (n: int)
    ensures 0 <= lux <= 255 ==> 0 <= n <= 99
  {
    lux * 100 / 256
  }

  lemma NormalizedLuxMonotone(a: int, b: int)
    requires a <= b
    ensures NormalizedLux(a) <= NormalizedLux(b)
  {
  }

  /** `_isWindowFullscreen`: ids that are not nine characters long are never fullscreen;
      others are when their window state lists the fullscreen atom. */
  function FullscreenProbe(windowProps: string -> string): (isFullscreen: string -> bool)
    ensures forall id :: isFullscreen(id) <==>
      |id| == WindowIdLength && exists i :: OccursAt(windowProps(id), FullscreenAtom, i)
  {
    ContainsIffAll(windowProps, FullscreenAtom);
    id => |id| == WindowIdLength && Contains(windowProps(id), FullscreenAtom)
  }

  /** The value `setBrightness` stores: floored at the movie minimum in movie mode. */
  function StoredBrightness(movieMode: bool, movieMin: int, brightness: int): (b: int)
    ensures movieMode ==> b >= movieMin && (brightness >= movieMin ==> b == brightness)
    ensures movieMode && brightness < movieMin ==> b == movieMin
    ensures !movieMode ==> b == brightness
  {
    if movieMode then if brightness < movieMin then movieMin else brightness
    else brightness
  }

  /** The ddccontrol commands one `setBrightness` issues. */
  function BrightnessCommands(oldBrightness: int, newBrightness: int): (cs: seq<DisplayCommand<int>>)
    ensures cs != [] <==> Abs(oldBrightness - newBrightness) >= MinCommandedChange
    ensures cs != [] ==> |cs| == |Displays| && forall i :: 0 <= i < |cs| ==> cs[i] == SetDisplay(Displays[i], newBrightness)
  {
    if Abs(oldBrightness - newBrightness) >= MinCommandedChange then Broadcast(Displays, newBrightness)
    else []
  }

  /** Movie mode only floors the brightness: it still dims down to the minimum. */
  lemma MovieModeStillDims()
    ensures StoredBrightness(true, AdjustMovieMin, 0) == 50
    ensures BrightnessCommands(90, StoredBrightness(true, AdjustMovieMin, 0)) == Broadcast(Displays, 50)
  {
  }

  class AmbientLightChecker {
    var lux: int

    constructor ()
      ensures lux == 0
    {
      lux := 0;
    }

    /** `update`: keep the grey level of the downscaled camera frame. */
    method Update(pixel: int)
      requires 0 <= pixel <= 255
      modifies this`lux
      ensures lux == pixel
    {
      lux := pixel;
    }
  }

  class ProgramChecker {
    const programsDisable: seq<string>
    const fullscreenDisable: bool
    var fullscreenWindowIds: seq<string>

    /** The tracked list never repeats an id and holds only nine-character ids. */
    ghost predicate Valid()
      reads this
    {
      NoDuplicates(fullscreenWindowIds) && forall id :: id in fullscreenWindowIds ==> |id| == WindowIdLength
    }

    constructor (programsDisable: seq<string>, fullscreenDisable: bool)
      ensures Valid() && fullscreenWindowIds == []
      ensures this.programsDisable == programsDisable && this.fullscreenDisable == fullscreenDisable
    {
      this.programsDisable := programsDisable;
      this.fullscreenDisable := fullscreenDisable;
      fullscreenWindowIds := [];
    }

    /** The list after `checkForFullscreen`, as a function of the list before. */
    ghost function CheckedIds(rootOutput: string, windowProps: string -> string): seq<string>
      reads this
    {
      if fullscreenDisable
      then Tracked(fullscreenWindowIds, ActiveWindowId(rootOutput), FullscreenProbe(windowProps))
      else fullscreenWindowIds
    }

    /** `checkForFullscreen`: drop tracked windows no longer fullscreen, then append the
        active window if it is fullscreen and not tracked yet. */
    method CheckForFullscreen(rootOutput: string, windowProps: string -> string)
      requires Valid()
      modifies this`fullscreenWindowIds
      ensures Valid()
      ensures fullscreenWindowIds == old(CheckedIds(rootOutput, windowProps))
    {
      if fullscreenDisable {
        var isFullscreen := FullscreenProbe(windowProps);
        ghost var before := fullscreenWindowIds;
        PruneWindowIds(isFullscreen);
        var windowId := ActiveWindowId(rootOutput);
        if isFullscreen(windowId) {
          if windowId !in fullscreenWindowIds {
            fullscreenWindowIds := fullscreenWindowIds + [windowId];
          }
        }
        TrackedSpec(before, windowId, isFullscreen);
        assert forall id :: id in fullscreenWindowIds ==> isFullscreen(id);
      }
    }

    /** The first half of `checkForFullscreen`: re-check every tracked window and remove,
        in place, the ones no longer fullscreen. */
    method PruneWindowIds(isFullscreen: string -> bool)
      requires NoDuplicates(fullscreenWindowIds)
      modifies this`fullscreenWindowIds
      ensures fullscreenWindowIds == Kept(old(fullscreenWindowIds), isFullscreen)
    {
      var snapshot := fullscreenWindowIds;
      for i := 0 to |snapshot|
        invariant fullscreenWindowIds == Kept(snapshot[..i], isFullscreen) + snapshot[i..]
      {
        PruneStep(snapshot, i, isFullscreen);
        var windowId := snapshot[i];
        if !isFullscreen(windowId) {
          fullscreenWindowIds := Remove(fullscreenWindowIds, windowId);
        }
      }
      assert snapshot[..|snapshot|] == snapshot;
    }

    predicate IsFullscreenActive()
      reads this
    {
      |fullscreenWindowIds| > 0
    }

    /** `shouldBeDisabled`: a listed program returns true before the fullscreen check runs;
        otherwise the list is refreshed and the answer is whether it is non-empty. */
    method ShouldBeDisabled(psOutput: string, rootOutput: string, windowProps: string -> string)
      returns (disabled: bool)
      requires Valid()
      modifies this`fullscreenWindowIds
      ensures Valid()
      ensures AnyProgramRunning(programsDisable, psOutput) ==>
        disabled && fullscreenWindowIds == old(fullscreenWindowIds)
      ensures !AnyProgramRunning(programsDisable, psOutput) ==>
        fullscreenWindowIds == old(CheckedIds(rootOutput, windowProps))
        && disabled == (fullscreenWindowIds != [])
    {
      for i := 0 to |programsDisable|
        invariant forall j :: 0 <= j < i ==> !Contains(psOutput, programsDisable[j])
      {
        if Contains(psOutput, programsDisable[i]) {
          return true;
        }
      }
      CheckForFullscreen(rootOutput, windowProps);
      disabled := IsFullscreenActive();
    }
  }

  class BrightnessAdjuster {
    const adjustMin: int
    const adjustMax: int
    const adjustMovieMin: int
    var movieMode: bool
    var brightness: int
    /** Every `ddccontrol -r 0x10 -w` call issued so far. */
    var commands: seq<DisplayCommand<int>>

    constructor (adjustMin: int, adjustMax: int, adjustMovieMin: int)
      ensures this.adjustMin == adjustMin && this.adjustMax == adjustMax
      ensures this.adjustMovieMin == adjustMovieMin
      ensures !movieMode && brightness == 0 && commands == []
    {
      this.adjustMin := adjustMin;
      this.adjustMax := adjustMax;
      this.adjustMovieMin := adjustMovieMin;
      movieMode := false;
      brightness := 0;
      commands := [];
    }

    /** `setBrightness`: the stored value always follows the request (floored in movie
        mode); the displays are commanded only on a change of at least 5. */
    method SetBrightness(newBrightness: int)
      modifies this`brightness, this`commands
      ensures brightness == StoredBrightness(movieMode, adjustMovieMin, newBrightness)
      ensures commands == old(commands) + BrightnessCommands(old(brightness), brightness)
    {
      var oldBrightness := brightness;
      if movieMode {
        brightness := if newBrightness < adjustMovieMin then adjustMovieMin else newBrightness;
      } else {
        brightness := newBrightness;
      }
      ghost var stored := StoredBrightness(movieMode, adjustMovieMin, newBrightness);
      assert brightness == stored;
      var diffBrightness := Abs(oldBrightness - brightness);
      if diffBrightness >= MinCommandedChange {
        for i := 0 to |Displays|
          invariant brightness == stored
          invariant commands == old(commands) + Broadcast(Displays[..i], brightness)
        {
          assert Displays[..i + 1][..i] == Displays[..i];
          commands := commands + [SetDisplay(Displays[i], brightness)];
        }
        assert Displays[..|Displays|] == Displays;
        assert BrightnessCommands(oldBrightness, brightness) == Broadcast(Displays, brightness);
      } else {
        assert BrightnessCommands(oldBrightness, brightness) == [];
      }
    }

    method EnableMovieMode()
      modifies this`movieMode
      ensures movieMode
    {
      movieMode := true;
    }

    method DisableMovieMode()
      modifies this`movieMode
      ensures !movieMode
    {
      movieMode := false;
    }
  }

  /** One pass of the main loop: read the light, set movie mode from the program and
      fullscreen checks, then set the brightness from the normalised light. */
  method PollStep(light: AmbientLightChecker, programs: ProgramChecker, adjuster: BrightnessAdjuster,
                  pixel: int, psOutput: string, rootOutput: string, windowProps: string -> string)
    requires 0 <= pixel <= 255
    requires programs.Valid()
    modifies light, programs, adjuster
    ensures programs.Valid()
    ensures light.lux == pixel
    ensures adjuster.movieMode ==
      (AnyProgramRunning(programs.programsDisable, psOutput) || programs.fullscreenWindowIds != [])
    ensures AnyProgramRunning(programs.programsDisable, psOutput) ==>
      programs.fullscreenWindowIds == old(programs.fullscreenWindowIds)
    ensures !AnyProgramRunning(programs.programsDisable, psOutput) ==>
      programs.fullscreenWindowIds == old(programs.CheckedIds(rootOutput, windowProps))
    ensures adjuster.brightness == StoredBrightness(adjuster.movieMode, adjuster.adjustMovieMin, NormalizedLux(pixel))
    ensures adjuster.movieMode ==> adjuster.brightness >= adjuster.adjustMovieMin
    ensures 0 <= NormalizedLux(pixel) <= 99
    ensures adjuster.commands == old(adjuster.commands) + BrightnessCommands(old(adjuster.brightness), adjuster.brightness)
  {
    light.Update(pixel);
    var lux := NormalizedLux(light.lux);
    var disabled := programs.ShouldBeDisabled(psOutput, rootOutput, windowProps);
    if disabled {
      adjuster.EnableMovieMode();
    } else {
      adjuster.DisableMovieMode();
    }
    adjuster.SetBrightness(lux);
  }

  /** The objects the program builds at start-up, with the configured settings. */
  method Start() returns (light: AmbientLightChecker, programs: ProgramChecker, adjuster: BrightnessAdjuster)
    ensures fresh(light) && fresh(programs) && fresh(adjuster)
    ensures light.lux == 0
    ensures programs.Valid() && programs.fullscreenWindowIds == []
    ensures programs.programsDisable == ProgramsDisabled && programs.fullscreenDisable == FullscreenDisabled
    ensures adjuster.adjustMin == AdjustMin && adjuster.adjustMax == AdjustMax
    ensures adjuster.adjustMovieMin == AdjustMovieMin
    ensures !adjuster.movieMode && adjuster.brightness == 0 && adjuster.commands == []
  {
    programs := new ProgramChecker(ProgramsDisabled, FullscreenDisabled);
    adjuster := new BrightnessAdjuster(AdjustMin, AdjustMax, AdjustMovieMin);
    light := new AmbientLightChecker();
  }
}
