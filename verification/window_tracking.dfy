// The list of fullscreen window ids that both ProgramChecker classes keep:
// on each poll the tracked ids are re-checked and the ones no longer
// fullscreen are removed, then the active window is appended when it is
// fullscreen and not yet tracked.
module WindowTracking {

  /** The window-manager state that marks a fullscreen window. */
  const FullscreenAtom: string := "_NET_WM_STATE_FULLSCREEN"

  predicate NoDuplicates(ids: seq<string>)
  {
    forall i, j :: 0 <= i < j < |ids| ==> ids[i] != ids[j]
  }

  /** Python's `list.remove(x)`: drop the first occurrence of `x`. */
  function Remove(s: seq<string>, x: string): (r: seq<string>)
    ensures x !in s ==> r == s
    ensures x in s ==> |r| == |s| - 1
    ensures forall y :: y in r ==> y in s
  {
    if s == [] then []
    else if s[0] == x then
      assert s == [x] + s[1..];
      s[1..]
    else
      assert s == [s[0]] + s[1..];
      [s[0]] + Remove(s[1..], x)
  }

  lemma {:induction false} RemoveFirstOccurrence(a: seq<string>, x: string, b: seq<string>)
    requires x !in a
    ensures Remove(a + [x] + b, x) == a + b
  {
    if a != [] {
      assert (a + [x] + b)[1..] == a[1..] + [x] + b;
      RemoveFirstOccurrence(a[1..], x, b);
      assert [a[0]] + (a[1..] + b) == a + b;
    } else {
      assert a + [x] + b == [x] + b;
    }
  }

  /** The tracked ids that a re-check still reports as fullscreen, in their original order. */
  function Kept(ids: seq<string>, isFullscreen: string -> bool): (kept: seq<string>)
    ensures |kept| <= |ids|
    ensures forall x :: x in kept <==> x in ids && isFullscreen(x)
  {
    if ids == [] then []
    else
      var last := ids[|ids| - 1];
      assert ids == ids[..|ids| - 1] + [last];
      Kept(ids[..|ids| - 1], isFullscreen) + (if isFullscreen(last) then [last] else [])
  }

  lemma {:induction false} KeptNoDuplicates(ids: seq<string>, isFullscreen: string -> bool)
    requires NoDuplicates(ids)
    ensures NoDuplicates(Kept(ids, isFullscreen))
  {
    if ids != [] {
      var front := ids[..|ids| - 1];
      assert NoDuplicates(front);
      KeptNoDuplicates(front, isFullscreen);
      assert ids[|ids| - 1] !in front;
    }
  }

  /** One iteration of the in-place pruning loop: removing a window that is no longer
      fullscreen (or keeping one that is) extends the pruned prefix by one id. */
  lemma PruneStep(ids: seq<string>, i: int, isFullscreen: string -> bool)
    requires NoDuplicates(ids) && 0 <= i < |ids|
    ensures var current := Kept(ids[..i], isFullscreen) + ids[i..];
      (if isFullscreen(ids[i]) then current else Remove(current, ids[i]))
        == Kept(ids[..i + 1], isFullscreen) + ids[i + 1..]
  {
    var w := ids[i];
    assert ids[..i + 1][..i] == ids[..i];
    assert ids[i..] == [w] + ids[i + 1..];
    if !isFullscreen(w) {
      assert w !in ids[..i];
      RemoveFirstOccurrence(Kept(ids[..i], isFullscreen), w, ids[i + 1..]);
      assert Kept(ids[..i], isFullscreen) + [w] + ids[i + 1..] == Kept(ids[..i], isFullscreen) + ids[i..];
    }
  }

  /** The list after one `checkForFullscreen`: prune, then append the active window. */
  function Tracked(ids: seq<string>, active: string, isFullscreen: string -> bool): (t: seq<string>)
    ensures forall x :: x in t ==> isFullscreen(x)
  {
    var kept := Kept(ids, isFullscreen);
    if isFullscreen(active) && active !in kept then kept + [active] else kept
  }

  /** What one poll does to a duplicate-free list: it stays duplicate-free, every id in it
      was just checked fullscreen, old ids keep their order, and the active window is
      appended exactly when it is fullscreen and not already tracked. */
  lemma TrackedSpec(ids: seq<string>, active: string, isFullscreen: string -> bool)
    requires NoDuplicates(ids)
    ensures var t := Tracked(ids, active, isFullscreen);
      && NoDuplicates(t)
      && (forall x :: x in t <==> (x in ids || x == active) && isFullscreen(x))
      && t[..|Kept(ids, isFullscreen)|] == Kept(ids, isFullscreen)
      && (|t| == |Kept(ids, isFullscreen)| + 1 <==> isFullscreen(active) && active !in ids)
  {
    KeptNoDuplicates(ids, isFullscreen);
  }
}
