# brightness-adjuster, modelled in Dafny

brightness-adjuster dims monitors and warms their colour after sunset. It has
three generations of controller:

- **whitelight** has three parts:
  - `BrightnessAdjuster` snaps a lux reading to a grid of percentages (0, 10, …, 100). A minimum-change threshold gates each update, and an auto/manual mode decides whether the reading applies.
  - `RedshiftAdjuster` follows a piecewise-linear colour-temperature target after sunset. It reaches the target in ±70 K steps.
  - `SunsetChecker` caches one sunset per UTC day and turns it into signed minutes.
- **The camera-era controller** (`brightnessAdjuster-camera.py`) works from a webcam's grey level.
  - A movie mode keeps the brightness at 50 or above while a video player runs or a window is fullscreen.
  - The displays are commanded only on a change of at least 5.
- **The legacy controller** (`brightnessAdjuster.py`) ramps xrandr brightness from 1.0 down to 0.75 between an hour before and an hour after sunset. It always fades in 0.01 steps. It switches the correction off for video players and fullscreen windows.

## How the model is built

Each class whose methods update fields is a Dafny `class` with the same fields. The external world becomes parameters and logs:

- **Display commands.** Every `ddcutil`, `ddccontrol`, `xrandr` or `redshift` invocation is appended to a `commands` (or `calls`) sequence field. Methods state the exact commands they issue.
- **Probes.** The `ps aux` listing and the `xprop -root` output are strings passed in. The per-window `xprop -id` output is a function `windowProps` from window id to text.
- **Ephemeris.** The sunset for a date is a function `nextSetting` from the observer date string (`YYYY-MM-DD 12:00:00`) to an instant. Instants are seconds, as `real`.
- **Clocks.** `gmtime`, `utcnow` and `now` are parameters.
- **Numbers.** Python floats are `real`. Python 2 integer division is Dafny's `/`, since the divisors are positive. `int(x)` truncates toward zero.

## Module layout

| module | file | models |
|---|---|---|
| `Common` | common.dfy | display-command log, substring search (`str.find != -1`), the `[40:-1]` window-id slice, date strings |
| `WindowTracking` | window_tracking.dfy | the fullscreen-window list both `ProgramChecker` classes keep |
| `WhitelightBrightness` | whitelight_brightness.dfy | whitelight/BrightnessAdjuster.py |
| `WhitelightRedshift` | whitelight_redshift.dfy | whitelight/RedshiftAdjuster.py |
| `WhitelightSunset` | whitelight_sunset.dfy | whitelight/SunsetChecker.py |
| `CameraAdjuster` | camera_adjuster.dfy | brightnessAdjuster-camera.py |
| `LegacyAdjuster` | legacy_adjuster.dfy | brightnessAdjuster.py |

## Model

| member | source | states |
|---|---|---|
| Common.ContainsIff | brightnessAdjuster-camera.py:118-124 | the substring test used for process names and window state holds exactly when the pattern occurs at some position of the text |
| Common.Contains | brightnessAdjuster-camera.py:118-124 | a match needs a pattern no longer than the text, and the empty pattern is found in every text |
| Common.Broadcast | brightnessAdjuster-camera.py:144-145 | setting every display issues one command per display, in display order, each with the same value |
| Common.ActiveWindowId | brightnessAdjuster-camera.py:82-83 | `output[40:-1]`: empty for outputs of 41 characters or fewer, otherwise the characters from index 40 up to but excluding the last |
| WindowTracking.RemoveFirstOccurrence | brightnessAdjuster-camera.py:80 | `list.remove(x)` on a list whose first `x` follows prefix `a` yields the list without that one element |
| WindowTracking.Remove | brightnessAdjuster-camera.py:80 | removing an absent id changes nothing; removing a present one shortens the list by one and adds no id |
| WindowTracking.Kept | brightnessAdjuster-camera.py:78-80 | the pruned list is no longer than before and holds exactly the old ids that re-check as fullscreen |
| WindowTracking.KeptNoDuplicates | brightnessAdjuster-camera.py:78-80 | pruning keeps a duplicate-free list duplicate-free |
| WindowTracking.PruneStep | brightnessAdjuster-camera.py:78-80 | removing (or keeping) one id inside the iteration over a copy extends the pruned prefix by exactly that id's verdict |
| WindowTracking.Tracked | brightnessAdjuster-camera.py:75-88 | every id in the list after a check was just seen fullscreen |
| WindowTracking.TrackedSpec | brightnessAdjuster-camera.py:75-88 | after a full check the list is duplicate-free, holds exactly the fullscreen ids among the old ids and the active one, keeps the surviving old ids in order, and grows by one exactly when the active window is fullscreen and was not tracked |
| WhitelightBrightness.TruncToInt | whitelight/BrightnessAdjuster.py:20 | `int(x)` truncates toward zero: within one of `x` and no further from zero than `x` |
| WhitelightBrightness.ClampedBrightness | whitelight/BrightnessAdjuster.py:55-66 | the clamp is always a grid value (the grid being 10·j for j = 0..10), and is the default 50 when no grid value is within distance 100 |
| WhitelightBrightness.ClampedIsFirstNearest | whitelight/BrightnessAdjuster.py:60-64 | for inputs in (-100, 200) the clamp is a nearest grid value and no smaller grid value is equally near |
| WhitelightBrightness.FirstNearestUnique | whitelight/BrightnessAdjuster.py:60-64 | "nearest with no earlier tie" singles out one grid value |
| WhitelightBrightness.ClampTiesGoLower | whitelight/BrightnessAdjuster.py:60-64 | a midpoint 10k+5 goes to the lower grid value 10k |
| WhitelightBrightness.FirstAutoCallApplies | whitelight/BrightnessAdjuster.py:13-29 | from the initial -100 values, the first auto reading with lux in [0, 1] passes both the threshold and the changed-value gate |
| WhitelightBrightness.AutoApplies | whitelight/BrightnessAdjuster.py:19-27 | with auto mode off, or a change below 7 from the last applied reading, the reading does not apply; when it applies its clamp differs from the current brightness |
| WhitelightBrightness.StoredValue | whitelight/BrightnessAdjuster.py:41-45 | the stored value is the scalar itself, or element [1] of the list |
| WhitelightBrightness.CommandedCount | whitelight/BrightnessAdjuster.py:48-53 | all three displays are commanded exactly for a scalar or a list of at least three values; a list of fewer than two values commands none (the lookup of element [1] fails first); a list of two commands exactly two before the lookup of element [2] fails |
| WhitelightBrightness.BrightnessAdjuster.constructor | whitelight/BrightnessAdjuster.py:13-16 | starts in manual mode with brightness and auto brightness at -100, no commands |
| WhitelightBrightness.BrightnessAdjuster.GetClampedBrightness | whitelight/BrightnessAdjuster.py:55-66 | the ascending strict-`<` scan returns the closed-form clamp, which is the first nearest grid value for in-range inputs |
| WhitelightBrightness.BrightnessAdjuster.SetBrightness | whitelight/BrightnessAdjuster.py:39-53 | stores the scalar or element [1] of a list, commands each display with that stored value, and fails where a list is too short |
| WhitelightBrightness.BrightnessAdjuster.SetAutoBrightness | whitelight/BrightnessAdjuster.py:18-29 | with auto mode off, below the threshold of 7, or when the clamp equals the brightness, nothing changes; otherwise the reading is recorded, the clamp is stored and all three displays get it; a changed brightness is always a grid value |
| WhitelightBrightness.BrightnessAdjuster.ToggleAutoBrightness | whitelight/BrightnessAdjuster.py:31-32 | sets the mode flag and nothing else |
| WhitelightBrightness.BrightnessAdjuster.SetManualBrightness | whitelight/BrightnessAdjuster.py:34-37 | always leaves auto mode, then sets the brightness as SetBrightness does |
| WhitelightRedshift.TargetTemperature | whitelight/RedshiftAdjuster.py:26-38 | the target lies in [2800, 6500], is 6500 up to sunset and 2800 from 120 minutes after |
| WhitelightRedshift.TargetNonIncreasing | whitelight/RedshiftAdjuster.py:26-38 | the later after sunset, the lower the target |
| WhitelightRedshift.TargetMidTransition | whitelight/RedshiftAdjuster.py:30-34 | an hour after sunset the target is midway between day and night |
| WhitelightRedshift.StepCount | whitelight/RedshiftAdjuster.py:47 | the number of full steps is the floor of the distance over 70, one step being 7000 K/s times 0.01 s |
| WhitelightRedshift.IntermediatesAt | whitelight/RedshiftAdjuster.py:53-54 | the k-th intermediate setting is k+1 steps from the start |
| WhitelightRedshift.StepsBetween | whitelight/RedshiftAdjuster.py:53-54 | no intermediate step passes the target |
| WhitelightRedshift.FadeSteps | whitelight/RedshiftAdjuster.py:43-57 | a fade sends nothing exactly when the screen is already at the target, and otherwise ends on the target |
| WhitelightRedshift.FadeStepsSpec | whitelight/RedshiftAdjuster.py:43-57 | a fade sends nothing when already at the target; otherwise floor(distance/70) settings, each one 70 K step further and none past the target, then the target, less than a step from the last |
| WhitelightRedshift.RedshiftAdjuster.constructor | whitelight/RedshiftAdjuster.py:17-20 | starts enabled at 6000 K with no calls |
| WhitelightRedshift.RedshiftAdjuster.UpdateRedshift | whitelight/RedshiftAdjuster.py:22-41 | disabled: nothing changes; enabled: records the target and fades the screen to it |
| WhitelightRedshift.RedshiftAdjuster.SetRedshiftSlowly | whitelight/RedshiftAdjuster.py:43-57 | the screen ends at the requested temperature and the calls are exactly the fade settings |
| WhitelightRedshift.RedshiftAdjuster.SetRedshift | whitelight/RedshiftAdjuster.py:59-61 | records the temperature and issues one call |
| WhitelightRedshift.RedshiftAdjuster.Disable | whitelight/RedshiftAdjuster.py:63-65 | turns following off and fades the screen to 6500 K |
| WhitelightRedshift.RedshiftAdjuster.Enable | whitelight/RedshiftAdjuster.py:67-69 | turns following on and fades the screen to the last target |
| WhitelightSunset.SunsetChecker.constructor | whitelight/SunsetChecker.py:12-21 | the current date and the sunset date are today's date, and the sunset is the ephemeris answer for it; midnight is the start-up instant, set by the first date update, which always fires because the placeholder `invalid` is never a date |
| WhitelightSunset.SunsetChecker.Update | whitelight/SunsetChecker.py:23-26 | afterwards both dates are today's and the sunset is today's; a second update on the same day changes no field |
| WhitelightSunset.SunsetChecker.UpdateCurrentDate | whitelight/SunsetChecker.py:28-34 | `midnight` is reset only when the date string changes |
| WhitelightSunset.SunsetChecker.UpdateSunsetTime | whitelight/SunsetChecker.py:42-46 | the sunset is recomputed from noon of the current date |
| WhitelightSunset.SunsetChecker.MinutesSinceSunset | whitelight/SunsetChecker.py:49-55 | `midnight` cancels: (now − sunset)/60, negative exactly before sunset, positive exactly after |
| WhitelightSunset.SunsetChecker.IsSunset | whitelight/SunsetChecker.py:57-58 | as written, true exactly while now is at or before the sunset |
| CameraAdjuster.NormalizedLux | brightnessAdjuster-camera.py:63-64 | grey levels 0..255 map into 0..99 |
| CameraAdjuster.NormalizedLuxMonotone | brightnessAdjuster-camera.py:63-64 | a brighter frame never gives a lower normalised value |
| CameraAdjuster.StoredBrightness | brightnessAdjuster-camera.py:137-140 | in movie mode the stored value is the request raised to 50 (`max(b, 50)`): 50 for requests below 50, the request otherwise; outside movie mode it is the request |
| CameraAdjuster.MovieModeStillDims | brightnessAdjuster-camera.py:135-145 | movie mode still lowers a bright screen to 50 and commands it |
| CameraAdjuster.FullscreenProbe | brightnessAdjuster-camera.py:91-97 | a window is fullscreen exactly when its id has nine characters and its state text contains the fullscreen atom at some position; any other id is not |
| CameraAdjuster.BrightnessCommands | brightnessAdjuster-camera.py:142-145 | commands are sent exactly when the stored value moved by 5 or more, and then one per display with the new value |
| CameraAdjuster.AmbientLightChecker.constructor | brightnessAdjuster-camera.py:39-41 | starts at lux 0 |
| CameraAdjuster.AmbientLightChecker.Update | brightnessAdjuster-camera.py:47-56 | keeps the frame's grey level |
| CameraAdjuster.ProgramChecker.constructor | brightnessAdjuster-camera.py:70-73 | starts with an empty fullscreen list |
| CameraAdjuster.ProgramChecker.CheckForFullscreen | brightnessAdjuster-camera.py:75-97 | the list becomes the tracked-list function of the old one (unchanged when fullscreen checking is off), stays duplicate-free and holds only nine-character ids |
| CameraAdjuster.ProgramChecker.PruneWindowIds | brightnessAdjuster-camera.py:77-80 | removing in place while iterating over a copy leaves exactly the ids that still re-check as fullscreen |
| CameraAdjuster.ProgramChecker.ShouldBeDisabled | brightnessAdjuster-camera.py:105-116 | a listed program answers true with the list untouched; otherwise the list is checked and the answer is whether it is non-empty |
| CameraAdjuster.BrightnessAdjuster.constructor | brightnessAdjuster-camera.py:128-133 | starts outside movie mode at brightness 0 |
| CameraAdjuster.BrightnessAdjuster.SetBrightness | brightnessAdjuster-camera.py:135-145 | the stored value always follows the request (floored in movie mode); the displays get it only on a change of 5 or more |
| CameraAdjuster.BrightnessAdjuster.EnableMovieMode | brightnessAdjuster-camera.py:147-148 | sets movie mode and nothing else |
| CameraAdjuster.BrightnessAdjuster.DisableMovieMode | brightnessAdjuster-camera.py:150-151 | clears movie mode and nothing else |
| CameraAdjuster.PollStep | brightnessAdjuster-camera.py:162-170 | movie mode is set from the program and fullscreen checks before the brightness, which then follows the normalised light. A listed program leaves the fullscreen list untouched; otherwise the list is refreshed |
| CameraAdjuster.Start | brightnessAdjuster-camera.py:157-159 | the program starts with the configured disabling programs, fullscreen setting and brightness limits, lux 0, an empty list, no movie mode and brightness 0 |
| LegacyAdjuster.SunsetChecker.constructor | brightnessAdjuster.py:47-56 | the current and sunset dates are today's, the sunset is the ephemeris answer for it, and midnight is the start-up instant, set by the first date update, which always fires because the placeholder `invalid` is never a date |
| LegacyAdjuster.SunsetChecker.Update | brightnessAdjuster.py:58-61 | on the same day nothing changes; on a new day the date and midnight are refreshed and the call of the missing `updateSunset` fails |
| LegacyAdjuster.SunsetChecker.UpdateCurrentDate | brightnessAdjuster.py:63-68 | `midnight` is reset only when the date string changes |
| LegacyAdjuster.SunsetChecker.UpdateSunsetTime | brightnessAdjuster.py:76-80 | the sunset is recomputed from noon of the current date |
| LegacyAdjuster.SunsetChecker.MinutesTillSunset | brightnessAdjuster.py:82-87 | (sunset − now)/60: positive exactly before sunset, negative exactly after |
| LegacyAdjuster.PerMinute | brightnessAdjuster.py:166-168 | the slope times the ramp's length in minutes is its drop in brightness (0.25 over 120 minutes for the configured ramp) |
| LegacyAdjuster.RampBrightness | brightnessAdjuster.py:174-176 | the ramp is full brightness at its start time and the end brightness from its end time on |
| LegacyAdjuster.RampRange | brightnessAdjuster.py:174-176 | inside the adjusting window the ramp lies in [0.75, 1.0) and is 0.75 from an hour after sunset |
| LegacyAdjuster.RampMonotone | brightnessAdjuster.py:174-176 | the ramp never darkens as sunset moves further away |
| LegacyAdjuster.UpStepsShape | brightnessAdjuster.py:188-190 | the k-th value of a rising fade is start + 0.01·k and stays below the target |
| LegacyAdjuster.DownStepsShape | brightnessAdjuster.py:195-197 | the k-th value of a falling fade is start − 0.01·k and stays above the target |
| LegacyAdjuster.UpStepsEnd | brightnessAdjuster.py:188-190 | a rising fade sets at least one value before the target, and its last one is within 0.01 of the target |
| LegacyAdjuster.DownStepsEnd | brightnessAdjuster.py:195-197 | a falling fade sets at least one value before the target, and its last one is within 0.01 of the target |
| LegacyAdjuster.FadeValues | brightnessAdjuster.py:182-200 | a fade always ends by setting the target, and sets only the target when already there |
| LegacyAdjuster.RisingFadeSpec | brightnessAdjuster.py:187-191 | a rising fade starts at the current value, climbs in 0.01 steps that stay below the target, ends within 0.01 of it, then sets the target; the values never decrease |
| LegacyAdjuster.FallingFadeSpec | brightnessAdjuster.py:194-198 | the mirror image for a falling fade; the values never increase |
| LegacyAdjuster.FadeSpec | brightnessAdjuster.py:182-200 | a fade starts at the current value and moves monotonically toward the target in 0.01 steps without reaching it. Its last step before the target is within 0.01 of it, which fixes the number of values. It ends exactly on the target, and only sets the target when already there |
| LegacyAdjuster.FadeUpStep | brightnessAdjuster.py:188-190 | one rising iteration moves one value from pending to done and brings the loop closer to its end |
| LegacyAdjuster.FadeDownStep | brightnessAdjuster.py:195-197 | one falling iteration moves one value from pending to done and brings the loop closer to its end |
| LegacyAdjuster.Decide | brightnessAdjuster.py:227-247 | the ramp is followed exactly when an enabling program runs and no disabling one does; only an active correction is switched off; an inactive one is otherwise left alone |
| LegacyAdjuster.BrightnessAdjuster.constructor | brightnessAdjuster.py:163-169 | the per-minute slope comes from the ramp end points and the brightness starts at 0.99, so the correction starts active |
| LegacyAdjuster.BrightnessAdjuster.AdjustBrightness | brightnessAdjuster.py:171-180 | outside the window nothing happens; inside it the brightness fades to the ramp value |
| LegacyAdjuster.BrightnessAdjuster.SetBrightnessFade | brightnessAdjuster.py:182-201 | the brightness ends on the target and the commands are exactly the fade values sent to every display |
| LegacyAdjuster.BrightnessAdjuster.FadeUp | brightnessAdjuster.py:187-191 | the rising loop sends every value of the rising fade and leaves the brightness at the last value sent (unchanged when it sent none) |
| LegacyAdjuster.BrightnessAdjuster.FadeDown | brightnessAdjuster.py:194-198 | the falling loop sends every value of the falling fade and leaves the brightness at the last value sent (unchanged when it sent none) |
| LegacyAdjuster.BrightnessAdjuster.SetBrightness | brightnessAdjuster.py:203-206 | records the value and commands each display with it |
| LegacyAdjuster.BrightnessAdjuster.Disable | brightnessAdjuster.py:208-216 | fades to full brightness, after which the correction is inactive |
| LegacyAdjuster.FullscreenProbe | brightnessAdjuster.py:124-129 | a window is fullscreen exactly when its state text contains the fullscreen atom at some position, whatever the length of its id |
| LegacyAdjuster.ProgramChecker.constructor | brightnessAdjuster.py:93-97 | starts with an empty fullscreen list |
| LegacyAdjuster.ProgramChecker.CheckForFullscreen | brightnessAdjuster.py:108-129 | the list becomes the tracked-list function of the old one (unchanged when fullscreen checking is off) and stays duplicate-free |
| LegacyAdjuster.ProgramChecker.PruneWindowIds | brightnessAdjuster.py:110-113 | removing in place while iterating over a copy leaves exactly the ids that still re-check as fullscreen |
| LegacyAdjuster.ProgramChecker.IsDisableProgramRunning | brightnessAdjuster.py:137-148 | a listed program answers true with the list untouched; otherwise the list is checked and the answer is whether it is non-empty |
| LegacyAdjuster.PollStep | brightnessAdjuster.py:227-247 | one pass acts as Decide says. The fullscreen list is refreshed whenever the disable check runs and no disabling program is listed, and is otherwise untouched; this includes an inactive correction that stays at default. The cached sunset (its date and time) never changes; following the ramp refreshes only the current date and midnight, midnight moving to now exactly on a new day. Disabling fades to full brightness with exactly those commands. Staying at default sends nothing. Following the ramp updates the date and fails on a new day; on success it fades to the ramp value inside the window and sends nothing outside it |
| LegacyAdjuster.Start | brightnessAdjuster.py:222-224 | the program starts with the configured programs, display settings and ramp; the correction starts active at 0.99, with ALWAYS_ENABLED every listing counts as enabling, and the sunset cache holds today's date with midnight at the start-up instant |

## Left out

- Camera capture (`cv2` frame grab, grey conversion, resize to one pixel) is outside the model. The resulting grey level is an input in [0, 255].
- The subprocess calls are outside the model. They are `ps aux`, `xprop`, `xrandr`, `ddcutil`, `ddccontrol` and `redshift`. Probes are parameters and actuators are a command log. The `Popen`/`call` processes themselves are not modelled.
- A failing probe (`CalledProcessError`) is not modelled. The camera loop catches it and skips the rest of the poll; the legacy loop does not catch it. Every probe here succeeds.
- Within one poll the model gives every `ps aux` call the same listing. The source runs `ps aux` once per program name.
- Within one poll every window probe returns the same answer for the same window id. The source re-runs `xprop -id` for each check.
- The `ephem` computation and the observer settings (latitude, longitude, elevation, pressure, horizon) are not modelled. They are folded into the `nextSetting` function.
- Time zones are not modelled. `get_minutes_since_sunset` reads the local clock `datetime.now()`, while `midnight` and the sunset are UTC. The model treats all instants as one time line.
- The result of `midnight.replace(...)` is discarded in the source, so `midnight` is the instant of the date change. This has no effect, because `midnight` cancels in the minute arithmetic.
- `sleep`, the endless `while True` loops and logging are not modelled. One pass of each main loop is modelled.
- Floating point is not modelled: all quantities are `real`. In particular, the accumulated 0.01 fade steps are exact here, while in Python they collect rounding error.
- whitelight/KeyboardListener.py and whitelight/__main__.py are not part of this model. They are a hotkey wrapper and the command-line entry point. whitelight/config.py is not part of this model beyond the constants it fixes, which the modules restate.
- The legacy `ALWAYS_ENABLED` setting is a field of `LegacyAdjuster.ProgramChecker`, set at construction. This way the "no enabling program" branch of the main loop is still analysed.
- In whitelight, `_get_clamped_brightness` receives only integers, because `set_auto_brightness` truncates first. The model takes `int` inputs.
- `isProgramRunning` has no member of its own. Its test is `Common.Contains` on the listing, and the loops that call it use `Common.AnyProgramRunning` in their contracts. `isFullscreenActive`, `isEnableProgramRunning`, `_is_sunset_time_updated`, `isAdjusting` and `isActive` are predicates without contracts of their own. Their meaning is used in the contracts of their callers.
- Three behaviours are not in any of the modelled files, so they are not modelled:
  - a ceiling on brightness in the dark;
  - rejection of light-level spikes;
  - a movie mode that only brightens.

  The camera movie mode only floors the brightness at 50, and it does lower a brighter screen to 50 (see `CameraAdjuster.MovieModeStillDims`).
