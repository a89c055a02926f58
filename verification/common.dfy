// Helpers shared by every controller: absolute value, the log of display
// commands, substring search and the window-id slice of the xprop output.
module Common {

  function Abs(x: int): (r: nat)
    ensures r == x || r == -x
  {
    if x < 0 then -x else x
  }

  function AbsReal(x: real): (r: real)
    ensures r >= 0.0 && (r == x || r == -x)
  {
    if x < 0.0 then -x else x
  }

  /** One actuator invocation: set `display` to `value` (ddcutil, ddccontrol or xrandr). */
  datatype DisplayCommand<T> = SetDisplay(display: string, value: T)

  /** The commands issued when every display in `displays` is set to `v`, in order. */
  function Broadcast<T>(displays: seq<string>, v: T): (cs: seq<DisplayCommand<T>>)
    ensures |cs| == |displays|
    ensures forall i :: 0 <= i < |displays| ==> cs[i] == SetDisplay(displays[i], v)
  {
    if displays == [] then []
    else Broadcast(displays[..|displays| - 1], v) + [SetDisplay(displays[|displays| - 1], v)]
  }

  /** `s.find(p) != -1`: `p` occurs in `s` (the empty string occurs everywhere). */
  predicate Contains(s: string, p: string)
    ensures Contains(s, p) ==> |p| <= |s|
    ensures p == [] ==> Contains(s, p)
    decreases |s|
  {
    |p| <= |s| && (s[..|p|] == p || (|s| > 0 && Contains(s[1..], p)))
  }

  /** `p` occurs in `s` starting at index `i`. */
  ghost predicate OccursAt(s: string, p: string, i: int)
  {
    0 <= i <= |s| - |p| && s[i..i + |p|] == p
  }

  /** Contains agrees with the positional definition of a substring. */
  lemma {:induction false} ContainsIff(s: string, p: string)
    ensures Contains(s, p) <==> exists i :: OccursAt(s, p, i)
    decreases |s|
  {
    if |p| <= |s| && s[..|p|] == p {
      assert OccursAt(s, p, 0);
    } else if |p| <= |s| && |s| > 0 {
      ContainsIff(s[1..], p);
      if Contains(s[1..], p) {
        var i :| OccursAt(s[1..], p, i);
        assert s[i + 1..i + 1 + |p|] == s[1..][i..i + |p|];
        assert OccursAt(s, p, i + 1);
      } else if exists i :: OccursAt(s, p, i) {
        var i :| OccursAt(s, p, i);
        assert i != 0;
        assert s[1..][i - 1..i - 1 + |p|] == s[i..i + |p|];
        assert OccursAt(s[1..], p, i - 1);
      }
    }
  }

  /** ContainsIff for every text a probe function can return. */
  lemma ContainsIffAll(f: string -> string, p: string)
    ensures forall x :: Contains(f(x), p) <==> exists i :: OccursAt(f(x), p, i)
  {
    forall x {
      ContainsIff(f(x), p);
    }
  }

  /** Python's `output[40:-1]`: the window id in `xprop -root _NET_ACTIVE_WINDOW` output. */
  function ActiveWindowId(output: string): (id: string)
    ensures |id| == if |output| > 41 then |output| - 41 else 0
    ensures forall i :: 0 <= i < |id| ==> id[i] == output[40 + i]
  {
    if |output| > 41 then output[40..|output| - 1] else ""
  }

  /** Whether some program name occurs in the `ps aux` listing. */
  predicate AnyProgramRunning(programs: seq<string>, psOutput: string)
  {
    exists p :: p in programs && Contains(psOutput, p)
  }

  /** A `strftime("%Y-%m-%d")` string: ten characters with dashes at 4 and 7. */
  predicate IsDateString(d: string)
  {
    |d| == 10 && d[4] == '-' && d[7] == '-'
  }

  /** The placeholder date a sunset checker starts from. */
  const InvalidDate: string := "invalid"

  /** The sunset is computed from noon of the cached date. */
  const NoonSuffix: string := " 12:00:00"

  lemma InvalidDateIsNoDate()
    ensures !IsDateString(InvalidDate)
  {
  }
}
