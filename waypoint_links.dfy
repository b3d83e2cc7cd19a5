/** Navigation waypoint links across a dock: the waypoints `Dock` selects
    and links in both directions, and the links `Undock` removes. Each
    waypoint's `linkedTo` is a list of waypoint indices into
    `WayPoint.WayPointList`. */
module WaypointLinks {
  import opened Lists
  import opened Geometry
  import opened DockingModel

  /** Waypoint `w` is a path waypoint of submarine `sub`. */
  predicate OnSubPath(wps: seq<Waypoint>, w: nat, sub: int) {
    w < |wps| && wps[w].sub == sub && wps[w].isPath
  }

  /** Waypoint `w` is a path waypoint of submarine `sub` inside the port
      rectangle `r`: the waypoints `Dock` links across. */
  predicate InDockRect(wps: seq<Waypoint>, w: nat, sub: int, r: Rect) {
    OnSubPath(wps, w, sub) && RectContains(r, wps[w].position)
  }

  /** The waypoints from index `from` on that `Dock` selects on one side,
      in `WayPointList` order. */
  function Candidates(wps: seq<Waypoint>, from: nat, sub: int, r: Rect): (c: seq<nat>)
    ensures forall k :: 0 <= k < |c| ==> from <= c[k] < |wps|
    ensures forall w: nat :: w in c <==> from <= w && InDockRect(wps, w, sub, r)
    ensures forall i, j :: 0 <= i < j < |c| ==> c[i] < c[j]
    ensures NoDup(c)
    decreases |wps| - from
  {
    if from >= |wps| then []
    else
      var c := Candidates(wps, from + 1, sub, r);
      if InDockRect(wps, from, sub, r) then
        NoDupCons(from, c);
        [from] + c
      else c
  }

  /** The waypoint links after `Dock` crossed them: every selected waypoint
      of the first side gains all selected waypoints of the second side, in
      order, and vice versa; nothing is de-duplicated. */
  function DockLinks(links: seq<seq<nat>>, a: seq<nat>, b: seq<nat>): (r: seq<seq<nat>>)
    ensures |r| == |links|
  {
    seq(|links|, w requires 0 <= w < |links| =>
      links[w] + (if w in a then b else []) + (if w in b then a else []))
  }

  /** After crossing, every selected pair is linked in both directions, the
      old links are all kept in front, and unselected waypoints keep their
      links. */
  lemma DockLinksLinkBothWays(links: seq<seq<nat>>, a: seq<nat>, b: seq<nat>)
    ensures var r := DockLinks(links, a, b);
      && (forall x, y :: x in a && y in b && x < |links| && y < |links| ==> y in r[x] && x in r[y])
      && (forall w :: 0 <= w < |links| ==> r[w][..|links[w]|] == links[w])
      && (forall w :: 0 <= w < |links| && w !in a && w !in b ==> r[w] == links[w])
  {
  }

  /** One pass of `Dock`'s inner loop for the selected waypoint `i`, from
      index `j` on: each selected waypoint `j` of the other side is added to
      `i`'s links and `i` to `j`'s. */
  function CrossOne(wps: seq<Waypoint>, links: seq<seq<nat>>, i: nat, j: nat, sub: int, rect: Rect): (r: seq<seq<nat>>)
    requires |links| == |wps| && i < |wps|
    ensures |r| == |links|
    decreases |wps| - j
  {
    if j >= |wps| then links
    else if InDockRect(wps, j, sub, rect) then
      var l1 := links[i := links[i] + [j]];
      CrossOne(wps, l1[j := l1[j] + [i]], i, j + 1, sub, rect)
    else CrossOne(wps, links, i, j + 1, sub, rect)
  }

  /** `Dock`'s outer loop from index `i` on. */
  function CrossAll(wps: seq<Waypoint>, links: seq<seq<nat>>, i: nat, subA: int, rectA: Rect, subB: int, rectB: Rect): (r: seq<seq<nat>>)
    requires |links| == |wps|
    ensures |r| == |links|
    decreases |wps| - i
  {
    if i >= |wps| then links
    else if InDockRect(wps, i, subA, rectA) then
      CrossAll(wps, CrossOne(wps, links, i, 0, subB, rectB), i + 1, subA, rectA, subB, rectB)
    else CrossAll(wps, links, i + 1, subA, rectA, subB, rectB)
  }

  /** What the inner loop adds to the list of the selected waypoint `i`:
      the selected waypoints of the other side from `j` on, in order. */
  lemma {:induction false} CrossOneOwn(wps: seq<Waypoint>, links: seq<seq<nat>>, i: nat, j: nat, sub: int, rect: Rect)
    requires |links| == |wps| && i < |wps|
    requires !InDockRect(wps, i, sub, rect)
    ensures CrossOne(wps, links, i, j, sub, rect)[i] == links[i] + Candidates(wps, j, sub, rect)
    decreases |wps| - j
  {
    if j < |wps| {
      if InDockRect(wps, j, sub, rect) {
        var l1 := links[i := links[i] + [j]];
        var l2 := l1[j := l1[j] + [i]];
        assert l2[i] == links[i] + [j];
        CrossOneOwn(wps, l2, i, j + 1, sub, rect);
        AppendAssoc(links[i], [j], Candidates(wps, j + 1, sub, rect));
      } else {
        CrossOneOwn(wps, links, i, j + 1, sub, rect);
      }
    }
  }

  /** What the inner loop adds to the list of any other waypoint `x`: `i`,
      when `x` is selected among the waypoints from `j` on. */
  lemma {:induction false} CrossOneOther(wps: seq<Waypoint>, links: seq<seq<nat>>, i: nat, j: nat, sub: int, rect: Rect, x: nat)
    requires |links| == |wps| && i < |wps| && x < |wps| && x != i
    ensures CrossOne(wps, links, i, j, sub, rect)[x] ==
      links[x] + (if j <= x && InDockRect(wps, x, sub, rect) then [i] else [])
    decreases |wps| - j
  {
    if j < |wps| {
      if InDockRect(wps, j, sub, rect) {
        var l1 := links[i := links[i] + [j]];
        var l2 := l1[j := l1[j] + [i]];
        CrossOneOther(wps, l2, i, j + 1, sub, rect, x);
        if x == j {
          assert l2[x] == links[x] + [i];
        } else {
          assert l2[x] == links[x];
        }
      } else {
        CrossOneOther(wps, links, i, j + 1, sub, rect, x);
      }
    }
  }

  /** What the outer loop from `i` on adds to the list of a selected
      waypoint of the target side: the selected waypoints of the initiator
      side from `i` on, in order. */
  lemma {:induction false} CrossAllOnB(wps: seq<Waypoint>, links: seq<seq<nat>>, i: nat, subA: int, rectA: Rect, subB: int, rectB: Rect, x: nat)
    requires |links| == |wps| && subA != subB && InDockRect(wps, x, subB, rectB)
    ensures CrossAll(wps, links, i, subA, rectA, subB, rectB)[x] == links[x] + Candidates(wps, i, subA, rectA)
    decreases |wps| - i
  {
    if i < |wps| {
      if InDockRect(wps, i, subA, rectA) {
        var l1 := CrossOne(wps, links, i, 0, subB, rectB);
        CrossOneOther(wps, links, i, 0, subB, rectB, x);
        CrossAllOnB(wps, l1, i + 1, subA, rectA, subB, rectB, x);
        AppendAssoc(links[x], [i], Candidates(wps, i + 1, subA, rectA));
      } else {
        CrossAllOnB(wps, links, i + 1, subA, rectA, subB, rectB, x);
      }
    }
  }

  /** What the outer loop from `i` on adds to the list of any other
      waypoint: all selected waypoints of the target side when it is a
      selected waypoint of the initiator side from `i` on. */
  lemma {:induction false} CrossAllOffB(wps: seq<Waypoint>, links: seq<seq<nat>>, i: nat, subA: int, rectA: Rect, subB: int, rectB: Rect, x: nat)
    requires |links| == |wps| && x < |wps| && !InDockRect(wps, x, subB, rectB)
    ensures CrossAll(wps, links, i, subA, rectA, subB, rectB)[x] ==
      links[x] + (if i <= x && InDockRect(wps, x, subA, rectA) then Candidates(wps, 0, subB, rectB) else [])
    decreases |wps| - i
  {
    if i < |wps| {
      if InDockRect(wps, i, subA, rectA) {
        var l1 := CrossOne(wps, links, i, 0, subB, rectB);
        if x == i {
          CrossOneOwn(wps, links, i, 0, subB, rectB);
        } else {
          CrossOneOther(wps, links, i, 0, subB, rectB, x);
        }
        CrossAllOffB(wps, l1, i + 1, subA, rectA, subB, rectB, x);
      } else {
        CrossAllOffB(wps, links, i + 1, subA, rectA, subB, rectB, x);
      }
    }
  }

  /** The two nested loops of `Dock` cross exactly the selected waypoints. */
  lemma CrossAllIsDockLinks(wps: seq<Waypoint>, links: seq<seq<nat>>, subA: int, rectA: Rect, subB: int, rectB: Rect)
    requires |links| == |wps| && subA != subB
    ensures CrossAll(wps, links, 0, subA, rectA, subB, rectB) ==
      DockLinks(links, Candidates(wps, 0, subA, rectA), Candidates(wps, 0, subB, rectB))
  {
    var r := CrossAll(wps, links, 0, subA, rectA, subB, rectB);
    var d := DockLinks(links, Candidates(wps, 0, subA, rectA), Candidates(wps, 0, subB, rectB));
    forall x | 0 <= x < |r| ensures r[x] == d[x] {
      if InDockRect(wps, x, subB, rectB) {
        CrossAllOnB(wps, links, 0, subA, rectA, subB, rectB, x);
      } else {
        CrossAllOffB(wps, links, 0, subA, rectA, subB, rectB, x);
      }
    }
  }


  /** Every link names an existing waypoint other than the one holding it. */
  predicate WaypointLinksOk(links: seq<seq<nat>>) {
    forall w, k :: 0 <= w < |links| && 0 <= k < |links[w]| ==> links[w][k] < |links| && links[w][k] != w
  }

  /** Each list of `b` is drawn from the corresponding list of `a`: links
      were only removed. */
  predicate LinksShrunk(a: seq<seq<nat>>, b: seq<seq<nat>>) {
    |a| == |b| && forall x, y :: 0 <= x < |b| && y in b[x] ==> y in a[x]
  }

  lemma LinksShrunkTransitive(a: seq<seq<nat>>, b: seq<seq<nat>>, c: seq<seq<nat>>)
    requires LinksShrunk(a, b) && LinksShrunk(b, c)
    ensures LinksShrunk(a, c)
  {
  }

  /** Waypoint `y` exists and belongs to submarine `sub`. */
  predicate OnSub(wps: seq<Waypoint>, y: nat, sub: int) {
    y < |wps| && wps[y].sub == sub
  }

  /** The links of a list that do not lead to a waypoint of `sub`, in
      order. */
  function OffSub(wps: seq<Waypoint>, s: seq<nat>, sub: int): (r: seq<nat>)
    ensures forall y :: y in r <==> y in s && !OnSub(wps, y, sub)
  {
    if |s| == 0 then []
    else
      var last := s[|s| - 1];
      assert s == s[..|s| - 1] + [last];
      OffSub(wps, s[..|s| - 1], sub) + (if OnSub(wps, last, sub) then [] else [last])
  }

  // ---------------------------------------------------------------------
  // Undock

  /** The test `Undock` applies to the link from path waypoint `w` to
      waypoint `w2` while undocking from a port of submarine `targetSub`.
      As written (`intended` false) it compares `w`'s own submarine with
      `targetSub`; the comment above the loop and the links `Dock` creates
      call for comparing `w2`'s submarine (`intended` true). */
  predicate RemovesLink(wps: seq<Waypoint>, w: nat, w2: nat, targetSub: int, intended: bool)
    requires w < |wps| && w2 < |wps|
  {
    if intended then wps[w2].sub == targetSub else wps[w].sub == targetSub
  }

  /** What each test looks at. The test as written does not look at the
      linked waypoint at all: it removes every link of `w` or none. The
      intended one does not look at the holder: it removes a link exactly
      when it leads to the other submarine. */
  lemma RemovesLinkTests(wps: seq<Waypoint>, w: nat, w2: nat, w3: nat, targetSub: int)
    requires w < |wps| && w2 < |wps| && w3 < |wps|
    ensures RemovesLink(wps, w, w2, targetSub, false) == RemovesLink(wps, w, w3, targetSub, false)
    ensures RemovesLink(wps, w, w2, targetSub, true) <==> wps[w2].sub == targetSub
    ensures wps[w].sub != targetSub ==> !RemovesLink(wps, w, w2, targetSub, false)
  {
  }

  /** `wp.linkedTo.RemoveAt(i)` followed by `wp2.linkedTo.Remove(wp)`, where
      `wp2` is the waypoint that was at index `i`. */
  function Unlink(links: seq<seq<nat>>, w: nat, i: nat): (r: seq<seq<nat>>)
    requires WaypointLinksOk(links) && w < |links| && i < |links[w]|
    ensures |r| == |links| && WaypointLinksOk(r) && |r[w]| == |links[w]| - 1
  {
    var w2 := links[w][i];
    var l := links[w := RemoveAt(links[w], i)];
    RemoveAtSubset(links[w], i);
    RemoveFirstSubset(links[w2], w);
    UnlinkKeepsLinksOk(links, w, w2, RemoveAt(links[w], i), RemoveFirst(links[w2], w));
    l[w2 := RemoveFirst(l[w2], w)]
  }

  /** Unlinking takes the link out of `w`'s list, keeping the others in
      order, takes the first link back to `w` out of the other waypoint's
      list, and changes nothing else; links are only removed. */
  lemma UnlinkFacts(links: seq<seq<nat>>, w: nat, i: nat)
    requires WaypointLinksOk(links) && w < |links| && i < |links[w]|
    ensures var r := Unlink(links, w, i);
      && LinksShrunk(links, r)
      && r[w] == links[w][..i] + links[w][i + 1..]
      && (forall x :: 0 <= x < |r| && x != w && x != links[w][i] ==> r[x] == links[x])
  {
    var w2 := links[w][i];
    RemoveAtSubset(links[w], i);
    RemoveFirstSubset(links[w2], w);
    UnlinkKeepsLinksOk(links, w, w2, RemoveAt(links[w], i), RemoveFirst(links[w2], w));
  }

  lemma RemoveAtSubset(s: seq<nat>, i: nat)
    requires i < |s|
    ensures forall y :: y in RemoveAt(s, i) ==> y in s
  {
    forall y | y in RemoveAt(s, i) ensures y in s {
      var k :| 0 <= k < |RemoveAt(s, i)| && RemoveAt(s, i)[k] == y;
      if k < i { assert s[k] == y; } else { assert s[k + 1] == y; }
    }
  }

  lemma RemoveFirstSubset(s: seq<nat>, v: nat)
    ensures forall y :: y in RemoveFirst(s, v) ==> y in s
  {
    forall y | y in RemoveFirst(s, v) ensures y in s {
      assert multiset(RemoveFirst(s, v))[y] > 0;
    }
  }

  lemma UnlinkKeepsLinksOk(links: seq<seq<nat>>, w: nat, w2: nat, l1: seq<nat>, l2: seq<nat>)
    requires WaypointLinksOk(links) && w < |links| && w2 < |links|
    requires forall y :: y in l1 ==> y in links[w]
    requires forall y :: y in l2 ==> y in links[w2]
    ensures WaypointLinksOk(links[w := l1][w2 := l2])
    ensures LinksShrunk(links, links[w := l1][w2 := l2])
  {
    var r := links[w := l1][w2 := l2];
    forall x, k | 0 <= x < |r| && 0 <= k < |r[x]| ensures r[x][k] < |r| && r[x][k] != x {
      assert r[x][k] in r[x];
      assert r[x][k] in links[x];
    }
  }

  /** One iteration of the inner loop of `Undock`, at index `k` of the links
      of path waypoint `w`. */
  function Step(wps: seq<Waypoint>, links: seq<seq<nat>>, w: nat, k: nat, targetSub: int, intended: bool)
    : (r: seq<seq<nat>>)
    requires |links| == |wps| && WaypointLinksOk(links) && w < |links| && k < |links[w]|
    ensures |r| == |links| && WaypointLinksOk(r) && k <= |r[w]|
  {
    if RemovesLink(wps, w, links[w][k], targetSub, intended) then Unlink(links, w, k) else links
  }

  /** An iteration only removes links. */
  lemma StepShrinks(wps: seq<Waypoint>, links: seq<seq<nat>>, w: nat, k: nat, targetSub: int, intended: bool)
    requires |links| == |wps| && WaypointLinksOk(links) && w < |links| && k < |links[w]|
    ensures LinksShrunk(links, Step(wps, links, w, k, targetSub, intended))
  {
    if RemovesLink(wps, w, links[w][k], targetSub, intended) {
      UnlinkFacts(links, w, k);
    }
  }

  /** With the intended test an iteration keeps the links of `w` before
      index `k` and drops the one at `k` exactly when it leads to a waypoint
      of `targetSub`. */
  lemma StepOwnList(wps: seq<Waypoint>, links: seq<seq<nat>>, w: nat, k: nat, targetSub: int)
    requires |links| == |wps| && WaypointLinksOk(links) && w < |links| && k < |links[w]|
    ensures var r := Step(wps, links, w, k, targetSub, true);
      var y := links[w][k];
      && r[w][..k] == links[w][..k]
      && r[w][k..] == (if OnSub(wps, y, targetSub) then [] else [y]) + links[w][k + 1..]
  {
    var s := links[w];
    if OnSub(wps, s[k], targetSub) {
      UnlinkFacts(links, w, k);
      CutAt(s, k);
    } else {
      SplitAt(s, k);
    }
  }

  lemma CutAt(s: seq<nat>, k: nat)
    requires k < |s|
    ensures (s[..k] + s[k + 1..])[..k] == s[..k]
    ensures (s[..k] + s[k + 1..])[k..] == s[k + 1..]
  {
  }

  lemma SplitAt(s: seq<nat>, k: nat)
    requires k < |s|
    ensures s[k..] == [s[k]] + s[k + 1..]
  {
  }

  /** With the intended test an iteration changes no list but `w`'s and
      one of a waypoint of `targetSub`. */
  lemma StepKeepsOthers(wps: seq<Waypoint>, links: seq<seq<nat>>, w: nat, k: nat, targetSub: int)
    requires |links| == |wps| && WaypointLinksOk(links) && w < |links| && k < |links[w]|
    ensures var r := Step(wps, links, w, k, targetSub, true);
      forall x :: 0 <= x < |r| && x != w && !OnSub(wps, x, targetSub) ==> r[x] == links[x]
  {
    if OnSub(wps, links[w][k], targetSub) {
      UnlinkFacts(links, w, k);
    }
  }

  /** The inner loop of `Undock` over the links of path waypoint `w`, from
      index `i - 1` down to 0. */
  function PruneOne(wps: seq<Waypoint>, links: seq<seq<nat>>, w: nat, i: nat, targetSub: int, intended: bool)
    : (r: seq<seq<nat>>)
    requires |links| == |wps| && WaypointLinksOk(links) && w < |links| && i <= |links[w]|
    ensures |r| == |links| && WaypointLinksOk(r)
    decreases i
  {
    if i == 0 then links
    else PruneOne(wps, Step(wps, links, w, i - 1, targetSub, intended), w, i - 1, targetSub, intended)
  }

  /** The inner loop only removes links. */
  lemma {:induction false} PruneOneShrinks(wps: seq<Waypoint>, links: seq<seq<nat>>, w: nat, i: nat, targetSub: int, intended: bool)
    requires |links| == |wps| && WaypointLinksOk(links) && w < |links| && i <= |links[w]|
    ensures LinksShrunk(links, PruneOne(wps, links, w, i, targetSub, intended))
    decreases i
  {
    if i > 0 {
      var next := Step(wps, links, w, i - 1, targetSub, intended);
      StepShrinks(wps, links, w, i - 1, targetSub, intended);
      PruneOneShrinks(wps, next, w, i - 1, targetSub, intended);
      LinksShrunkTransitive(links, next, PruneOne(wps, next, w, i - 1, targetSub, intended));
    }
  }

  /** With the intended test the inner loop drops exactly the links of `w`
      that lead to waypoints of `targetSub` and keeps its other links in
      order. */
  lemma {:induction false} PruneOneIntended(wps: seq<Waypoint>, links: seq<seq<nat>>, w: nat, i: nat, targetSub: int)
    requires |links| == |wps| && WaypointLinksOk(links) && w < |links| && i <= |links[w]|
    ensures PruneOne(wps, links, w, i, targetSub, true)[w] == OffSub(wps, links[w][..i], targetSub) + links[w][i..]
    decreases i
  {
    if i == 0 {
      assert links[w][..0] == [] && links[w][0..] == links[w];
    } else {
      var y := links[w][i - 1];
      var next := Step(wps, links, w, i - 1, targetSub, true);
      StepOwnList(wps, links, w, i - 1, targetSub);
      PruneOneIntended(wps, next, w, i - 1, targetSub);
      var a := OffSub(wps, links[w][..i - 1], targetSub);
      var b := links[w][i..];
      var c := if OnSub(wps, y, targetSub) then [] else [y];
      PrefixStep(links[w], i);
      OffSubSnoc(wps, links[w][..i - 1], y, targetSub);
      AppendAssoc(a, c, b);
    }
  }

  /** With the intended test the inner loop changes no list but `w`'s and
      those of `targetSub`'s waypoints. */
  lemma {:induction false} PruneOneKeepsOthers(wps: seq<Waypoint>, links: seq<seq<nat>>, w: nat, i: nat, targetSub: int)
    requires |links| == |wps| && WaypointLinksOk(links) && w < |links| && i <= |links[w]|
    ensures var r := PruneOne(wps, links, w, i, targetSub, true);
      forall x :: 0 <= x < |r| && x != w && !OnSub(wps, x, targetSub) ==> r[x] == links[x]
    decreases i
  {
    if i > 0 {
      var next := Step(wps, links, w, i - 1, targetSub, true);
      StepKeepsOthers(wps, links, w, i - 1, targetSub);
      PruneOneKeepsOthers(wps, next, w, i - 1, targetSub);
      var r := PruneOne(wps, next, w, i - 1, targetSub, true);
      forall x | 0 <= x < |r| && x != w && !OnSub(wps, x, targetSub) ensures r[x] == links[x] {
        assert r[x] == next[x];
      }
    }
  }

  lemma PrefixStep(s: seq<nat>, i: nat)
    requires 0 < i <= |s|
    ensures s[..i] == s[..i - 1] + [s[i - 1]]
  {
  }

  lemma AppendAssoc(a: seq<nat>, b: seq<nat>, c: seq<nat>)
    ensures a + (b + c) == (a + b) + c
  {
  }

  lemma OffSubSnoc(wps: seq<Waypoint>, s: seq<nat>, y: nat, sub: int)
    ensures OffSub(wps, s + [y], sub) == OffSub(wps, s, sub) + (if OnSub(wps, y, sub) then [] else [y])
  {
    assert (s + [y])[..|s|] == s;
  }

  /** As written, the inner loop changes nothing unless `w` itself is on
      `targetSub`. */
  lemma {:induction false} PruneOneAsWritten(wps: seq<Waypoint>, links: seq<seq<nat>>, w: nat, i: nat, targetSub: int)
    requires |links| == |wps| && WaypointLinksOk(links) && w < |links| && i <= |links[w]|
    requires wps[w].sub != targetSub
    ensures PruneOne(wps, links, w, i, targetSub, false) == links
    decreases i
  {
    if i > 0 {
      PruneOneAsWritten(wps, links, w, i - 1, targetSub);
    }
  }

  /** The outer loop of `Undock` over `WayPointList` from waypoint `w` on,
      for a port of submarine `ownSub` docked to one of `targetSub`. */
  function PruneAll(wps: seq<Waypoint>, links: seq<seq<nat>>, ownSub: int, targetSub: int, intended: bool, w: nat)
    : (r: seq<seq<nat>>)
    requires |links| == |wps| && WaypointLinksOk(links) && w <= |links|
    ensures |r| == |links| && WaypointLinksOk(r)
    decreases |links| - w
  {
    if w == |links| then links
    else
      var next := if OnSubPath(wps, w, ownSub) then PruneOne(wps, links, w, |links[w]|, targetSub, intended) else links;
      PruneAll(wps, next, ownSub, targetSub, intended, w + 1)
  }

  /** The outer loop only removes links. */
  lemma {:induction false} PruneAllShrinks(wps: seq<Waypoint>, links: seq<seq<nat>>, ownSub: int, targetSub: int, intended: bool, w: nat)
    requires |links| == |wps| && WaypointLinksOk(links) && w <= |links|
    ensures LinksShrunk(links, PruneAll(wps, links, ownSub, targetSub, intended, w))
    decreases |links| - w
  {
    if w < |links| {
      var next := if OnSubPath(wps, w, ownSub) then PruneOne(wps, links, w, |links[w]|, targetSub, intended) else links;
      if OnSubPath(wps, w, ownSub) {
        PruneOneShrinks(wps, links, w, |links[w]|, targetSub, intended);
      }
      PruneAllShrinks(wps, next, ownSub, targetSub, intended, w + 1);
      LinksShrunkTransitive(links, next, PruneAll(wps, next, ownSub, targetSub, intended, w + 1));
    }
  }

  /** With the intended test, when the submarines differ, every path
      waypoint of `ownSub` from `w` on ends up with exactly its links that do
      not lead to `targetSub`, in order. */
  lemma {:induction false} PruneAllIntended(wps: seq<Waypoint>, links: seq<seq<nat>>, ownSub: int, targetSub: int, w: nat)
    requires |links| == |wps| && WaypointLinksOk(links) && w <= |links| && ownSub != targetSub
    ensures var r := PruneAll(wps, links, ownSub, targetSub, true, w);
      forall x :: w <= x < |r| && OnSubPath(wps, x, ownSub) ==> r[x] == OffSub(wps, links[x], targetSub)
    decreases |links| - w
  {
    forall x | w <= x < |links| && OnSubPath(wps, x, ownSub)
      ensures PruneAll(wps, links, ownSub, targetSub, true, w)[x] == OffSub(wps, links[x], targetSub)
    {
      PruneAllIntendedAt(wps, links, ownSub, targetSub, w, x);
    }
  }

  /** `PruneAllIntended` for one waypoint `x`. */
  lemma {:induction false} PruneAllIntendedAt(wps: seq<Waypoint>, links: seq<seq<nat>>, ownSub: int, targetSub: int, w: nat, x: nat)
    requires |links| == |wps| && WaypointLinksOk(links) && w <= x < |links| && ownSub != targetSub
    requires OnSubPath(wps, x, ownSub)
    ensures PruneAll(wps, links, ownSub, targetSub, true, w)[x] == OffSub(wps, links[x], targetSub)
    decreases |links| - w
  {
    if x == w {
      PruneAllIntendedHere(wps, links, ownSub, targetSub, w);
    } else {
      var next := if OnSubPath(wps, w, ownSub) then PruneOne(wps, links, w, |links[w]|, targetSub, true) else links;
      if OnSubPath(wps, w, ownSub) {
        PruneOneKeepsOthers(wps, links, w, |links[w]|, targetSub);
      }
      assert next[x] == links[x];
      PruneAllIntendedAt(wps, next, ownSub, targetSub, w + 1, x);
    }
  }

  /** `PruneAllIntended` for the waypoint the outer loop is at. */
  lemma PruneAllIntendedHere(wps: seq<Waypoint>, links: seq<seq<nat>>, ownSub: int, targetSub: int, w: nat)
    requires |links| == |wps| && WaypointLinksOk(links) && w < |links| && ownSub != targetSub
    requires OnSubPath(wps, w, ownSub)
    ensures PruneAll(wps, links, ownSub, targetSub, true, w)[w] == OffSub(wps, links[w], targetSub)
  {
    var next := PruneOne(wps, links, w, |links[w]|, targetSub, true);
    PruneOneIntended(wps, links, w, |links[w]|, targetSub);
    WholeSlices(links[w]);
    PruneAllKeepsOthers(wps, next, ownSub, targetSub, w + 1);
  }

  lemma WholeSlices(s: seq<nat>)
    ensures s[..|s|] == s && s[|s|..] == []
  {
  }

  /** With the intended test, when the submarines differ, the outer loop
      from `w` on changes no list of a waypoint before `w` or off `ownSub`'s
      path, except those of `targetSub`'s waypoints. */
  lemma {:induction false} PruneAllKeepsOthers(wps: seq<Waypoint>, links: seq<seq<nat>>, ownSub: int, targetSub: int, w: nat)
    requires |links| == |wps| && WaypointLinksOk(links) && w <= |links| && ownSub != targetSub
    ensures var r := PruneAll(wps, links, ownSub, targetSub, true, w);
      forall x :: 0 <= x < |r| && (x < w || !OnSubPath(wps, x, ownSub)) && !OnSub(wps, x, targetSub) ==> r[x] == links[x]
    decreases |links| - w
  {
    if w < |links| {
      if OnSubPath(wps, w, ownSub) {
        var next := PruneOne(wps, links, w, |links[w]|, targetSub, true);
        PruneOneKeepsOthers(wps, links, w, |links[w]|, targetSub);
        PruneAllKeepsOthers(wps, next, ownSub, targetSub, w + 1);
        var r := PruneAll(wps, next, ownSub, targetSub, true, w + 1);
        forall x | 0 <= x < |r| && (x < w || !OnSubPath(wps, x, ownSub)) && !OnSub(wps, x, targetSub)
          ensures r[x] == links[x]
        {
          assert r[x] == next[x];
        }
      } else {
        PruneAllKeepsOthers(wps, links, ownSub, targetSub, w + 1);
      }
    }
  }

  /** As written, the outer loop changes nothing when the two submarines
      differ. */
  lemma {:induction false} PruneAllAsWritten(wps: seq<Waypoint>, links: seq<seq<nat>>, ownSub: int, targetSub: int, w: nat)
    requires |links| == |wps| && WaypointLinksOk(links) && w <= |links| && ownSub != targetSub
    ensures PruneAll(wps, links, ownSub, targetSub, false, w) == links
    decreases |links| - w
  {
    if w < |links| {
      if OnSubPath(wps, w, ownSub) {
        PruneOneAsWritten(wps, links, w, |links[w]|, targetSub);
      }
      PruneAllAsWritten(wps, links, ownSub, targetSub, w + 1);
    }
  }

  /** The waypoint links after `Undock`'s loop, with the intended test. */
  function Pruned(wps: seq<Waypoint>, links: seq<seq<nat>>, ownSub: int, targetSub: int): (r: seq<seq<nat>>)
    requires |links| == |wps| && WaypointLinksOk(links)
    ensures |r| == |links| && WaypointLinksOk(r)
  {
    PruneAll(wps, links, ownSub, targetSub, true, 0)
  }

  /** The waypoint links after `Undock`'s loop as written. */
  function PrunedAsWritten(wps: seq<Waypoint>, links: seq<seq<nat>>, ownSub: int, targetSub: int): (r: seq<seq<nat>>)
    requires |links| == |wps| && WaypointLinksOk(links)
    ensures |r| == |links| && WaypointLinksOk(r)
  {
    PruneAll(wps, links, ownSub, targetSub, false, 0)
  }

  /** Undocking two submarines runs the loop once from each side. With the
      intended test no path waypoint of either submarine is left with a link
      to a waypoint of the other, links are only removed, and waypoints of
      neither submarine keep their links. */
  lemma UndockSeparatesSubs(wps: seq<Waypoint>, links: seq<seq<nat>>, subA: int, subB: int)
    requires |links| == |wps| && WaypointLinksOk(links) && subA != subB
    ensures var r := Pruned(wps, Pruned(wps, links, subA, subB), subB, subA);
      && (forall x: nat, y: nat :: OnSubPath(wps, x, subA) && OnSub(wps, y, subB) ==> y !in r[x])
      && (forall x: nat, y: nat :: OnSubPath(wps, x, subB) && OnSub(wps, y, subA) ==> y !in r[x])
      && LinksShrunk(links, r)
      && (forall x :: 0 <= x < |r| && !OnSub(wps, x, subA) && !OnSub(wps, x, subB) ==> r[x] == links[x])
  {
    var r1 := Pruned(wps, links, subA, subB);
    var r := Pruned(wps, r1, subB, subA);
    PruneAllIntended(wps, links, subA, subB, 0);
    PruneAllIntended(wps, r1, subB, subA, 0);
    PruneAllKeepsOthers(wps, links, subA, subB, 0);
    PruneAllKeepsOthers(wps, r1, subB, subA, 0);
    PruneAllShrinks(wps, links, subA, subB, true, 0);
    PruneAllShrinks(wps, r1, subB, subA, true, 0);
    LinksShrunkTransitive(links, r1, r);
  }

  /** The links `Dock` adds between selected waypoints of two different
      submarines keep the links well formed. */
  lemma DockLinksOk(wps: seq<Waypoint>, links: seq<seq<nat>>, a: seq<nat>, subA: int, b: seq<nat>, subB: int)
    requires |links| == |wps| && WaypointLinksOk(links) && subA != subB
    requires forall x :: x in a ==> OnSub(wps, x, subA)
    requires forall y :: y in b ==> OnSub(wps, y, subB)
    ensures WaypointLinksOk(DockLinks(links, a, b))
  {
    var r := DockLinks(links, a, b);
    forall w, k | 0 <= w < |r| && 0 <= k < |r[w]| ensures r[w][k] < |r| && r[w][k] != w {
      var extra := (if w in a then b else []) + (if w in b then a else []);
      assert r[w] == links[w] + extra;
      if k >= |links[w]| {
        assert r[w][k] in extra;
      }
    }
  }

  /** As written, undocking from both sides leaves every link `Dock`
      created between the two submarines in place. */
  lemma AsWrittenUndockKeepsDockLinks(wps: seq<Waypoint>, links: seq<seq<nat>>, a: seq<nat>, subA: int, b: seq<nat>, subB: int)
    requires |links| == |wps| && WaypointLinksOk(links) && subA != subB
    requires forall x :: x in a ==> OnSub(wps, x, subA)
    requires forall y :: y in b ==> OnSub(wps, y, subB)
    ensures WaypointLinksOk(DockLinks(links, a, b))
    ensures var docked := DockLinks(links, a, b);
      var r := PrunedAsWritten(wps, PrunedAsWritten(wps, docked, subA, subB), subB, subA);
      forall x: nat, y: nat :: x in a && y in b ==> x < |r| && y < |r| && y in r[x] && x in r[y]
  {
    DockLinksOk(wps, links, a, subA, b, subB);
    var docked := DockLinks(links, a, b);
    PruneAllAsWritten(wps, docked, subA, subB, 0);
    PruneAllAsWritten(wps, docked, subB, subA, 0);
    DockLinksLinkBothWays(links, a, b);
  }

  /** `Undock`'s waypoint loop, with the test on the linked waypoint's
      submarine as written (`intended` false) or as intended. */
  method PruneWaypointLinks(wps: seq<Waypoint>, wpLinks: seq<seq<nat>>, ownSub: nat, targetSub: nat, intended: bool)
    returns (r: seq<seq<nat>>)
    requires |wpLinks| == |wps| && WaypointLinksOk(wpLinks)
    ensures |r| == |wpLinks| && WaypointLinksOk(r)
    ensures r == PruneAll(wps, wpLinks, ownSub, targetSub, intended, 0)
  {
    var links: seq<seq<nat>> := wpLinks;
    var w := 0;
    while w < |wps|
      invariant 0 <= w <= |wps| && |links| == |wps| && WaypointLinksOk(links)
      invariant PruneAll(wps, links, ownSub, targetSub, intended, w) == PruneAll(wps, wpLinks, ownSub, targetSub, intended, 0)
    {
      if wps[w].sub == ownSub && wps[w].isPath {
        links := PruneLinksOf(wps, links, w, targetSub, intended);
      }
      w := w + 1;
    }
    r := links;
  }

  /** The inner loop of `PruneWaypointLinks`, over the links of waypoint `w`
      from the last to the first. */
  method PruneLinksOf(wps: seq<Waypoint>, links: seq<seq<nat>>, w: nat, targetSub: nat, intended: bool)
    returns (r: seq<seq<nat>>)
    requires |links| == |wps| && WaypointLinksOk(links) && w < |links|
    ensures |r| == |links| && WaypointLinksOk(r)
    ensures r == PruneOne(wps, links, w, |links[w]|, targetSub, intended)
  {
    r := links;
    var i := |r[w]| - 1;
    while i >= 0
      invariant |r| == |wps| && -1 <= i < |r[w]| && WaypointLinksOk(r)
      invariant PruneOne(wps, r, w, i + 1, targetSub, intended) == PruneOne(wps, links, w, |links[w]|, targetSub, intended)
    {
      ghost var next := Step(wps, r, w, i, targetSub, intended);
      assert PruneOne(wps, r, w, i + 1, targetSub, intended) == PruneOne(wps, next, w, i, targetSub, intended);
      var w2 := r[w][i];
      if (if intended then wps[w2].sub else wps[w].sub) == targetSub {
        r := Unlink(r, w, i);
      }
      assert r == next;
      i := i - 1;
    }
  }

  /** `Dock`'s two nested waypoint loops: waypoints of the initiator's
      submarine (`subA`) in its rectangle are crossed with those of the
      target's submarine in the target's rectangle. */
  method CrossWaypointLinks(wps: seq<Waypoint>, wpLinks: seq<seq<nat>>, subA: nat, rectA: Rect, subB: nat, rectB: Rect)
    returns (r: seq<seq<nat>>)
    requires |wpLinks| == |wps| && subA != subB
    ensures r == DockLinks(wpLinks, Candidates(wps, 0, subA, rectA), Candidates(wps, 0, subB, rectB))
  {
    var links: seq<seq<nat>> := wpLinks;
    var i := 0;
    while i < |wps|
      invariant 0 <= i <= |wps| && |links| == |wps|
      invariant CrossAll(wps, links, i, subA, rectA, subB, rectB) == CrossAll(wps, wpLinks, 0, subA, rectA, subB, rectB)
    {
      if wps[i].sub == subA && wps[i].isPath && RectContains(rectA, wps[i].position) {
        links := CrossLinksOf(wps, links, i, subB, rectB);
      }
      i := i + 1;
    }
    r := links;
    CrossAllIsDockLinks(wps, wpLinks, subA, rectA, subB, rectB);
  }

  /** The inner loop of `CrossWaypointLinks` for the selected waypoint `i`. */
  method CrossLinksOf(wps: seq<Waypoint>, links: seq<seq<nat>>, i: nat, subB: nat, rectB: Rect)
    returns (r: seq<seq<nat>>)
    requires |links| == |wps| && i < |wps|
    ensures r == CrossOne(wps, links, i, 0, subB, rectB)
  {
    r := links;
    var j := 0;
    while j < |wps|
      invariant 0 <= j <= |wps| && |r| == |wps|
      invariant CrossOne(wps, r, i, j, subB, rectB) == CrossOne(wps, links, i, 0, subB, rectB)
    {
      if wps[j].sub == subB && wps[j].isPath && RectContains(rectB, wps[j].position) {
        r := r[i := r[i] + [j]];
        r := r[j := r[j] + [i]];
      }
      j := j + 1;
    }
  }
}
