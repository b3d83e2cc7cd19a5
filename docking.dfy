/** `DockingPort.Dock` and what leads to it: the symmetric link-up of two
    ports, the proximity-driven `AttemptDock`, the `Docked` setter and the
    routing of incoming signals to it. */
module Docking {
  import opened Wrappers
  import opened Lists
  import opened DockingModel
  import opened WaypointLinks
  import opened WorldState
  import opened Undocking

  /** Adding a port item that exists keeps an item link list well formed. */
  lemma AddPortItemOk(l: seq<Entity>, n: nat, q: nat)
    requires LinkedOk(l, n) && q < n
    ensures LinkedOk(AddIfAbsent(l, PortItem(q)), n)
  {
    var r := AddIfAbsent(l, PortItem(q));
    if PortItem(q) !in l {
      forall i, j | 0 <= i < j < |r| && r[i].PortItem? ensures r[i] != r[j] {
        if j == |l| {
          assert r[i] == l[i];
        } else {
          assert r[i] == l[i] && r[j] == l[j];
        }
      }
    }
  }

  /** The waypoints `Dock` selects on the side of port `p`: path waypoints
      of its submarine inside its item's `Rect`, in `WayPointList` order.
      Both the rectangle and the waypoint's position are relative to that
      submarine. */
  function Selected(c: Config, p: nat): (r: seq<nat>)
    requires p < |c.ports|
    ensures forall w: nat :: w in r <==> InDockRect(c.waypoints, w, c.ports[p].sub, c.ports[p].localRect)
  {
    Candidates(c.waypoints, 0, c.ports[p].sub, c.ports[p].localRect)
  }

  /** The body of `Dock(t)` on port `p` once the guards have passed: each
      item lists the other (if not already), each submarine lists the other
      (if not already), the targets point at each other, both ports are
      docked (the target through its `Docked` setter, which only sets the
      flag because its target is now set), the docking directions are
      opposite, the selected waypoints are crossed, and the initiator alone
      gets the soft joint. */
  function LinkedUp(c: Config, a: Snapshot, p: nat, t: nat): (r: Snapshot)
    requires Consistent(c, a) && p < |c.ports| && t < |c.ports|
    requires c.ports[p].sub != c.ports[t].sub
    ensures Consistent(c, r)
  {
    var sp := c.ports[p].sub;
    var st := c.ports[t].sub;
    var d := DockingDir(c.ports, p, t);
    var l := a.linked[p := AddIfAbsent(a.linked[p], PortItem(t))];
    var dt := a.dockedTo[st := a.dockedTo[st] + {sp}];
    var s := a.state[p := a.state[p].(target := Some(t), docked := true, dockingDir := d, joint := DistanceJoint)];
    AddPortItemOk(a.linked[p], |c.ports|, t);
    SetLinkedOk(a.linked, p, AddIfAbsent(a.linked[p], PortItem(t)), |c.ports|);
    AddPortItemOk(l[t], |c.ports|, p);
    SetLinkedOk(l, t, AddIfAbsent(l[t], PortItem(p)), |c.ports|);
    DockLinksOk(c.waypoints, a.wpLinks, Selected(c, p), sp, Selected(c, t), st);
    Snapshot(
      s[t := s[t].(target := Some(p), docked := true, dockingDir := -d)],
      l[t := AddIfAbsent(l[t], PortItem(p))],
      dt[sp := dt[sp] + {st}],
      DockLinks(a.wpLinks, Selected(c, p), Selected(c, t)),
      a.hulls, a.gaps, a.nextHandle)
  }

  /** Ports `p` and `t` are docked to each other: the targets point at each
      other, both are docked with opposite directions, each submarine lists
      the other, each item lists the other exactly once, and every selected
      waypoint of one side is linked with every selected waypoint of the
      other, in both directions. */
  predicate DockedPair(c: Config, r: Snapshot, p: nat, t: nat)
    requires Consistent(c, r) && p < |c.ports| && t < |c.ports|
  {
    var sp := c.ports[p].sub;
    var st := c.ports[t].sub;
    && r.state[p].target == Some(t) && r.state[t].target == Some(p)
    && r.state[p].docked && r.state[t].docked
    && r.state[t].dockingDir == -r.state[p].dockingDir
    && st in r.dockedTo[sp] && sp in r.dockedTo[st]
    && multiset(r.linked[p])[PortItem(t)] == 1
    && multiset(r.linked[t])[PortItem(p)] == 1
    && (forall x, y :: x in Selected(c, p) && y in Selected(c, t) ==> y in r.wpLinks[x] && x in r.wpLinks[y])
  }

  /** The link-up docks the two ports to each other; only the initiator
      gets a joint, its direction is the sign of the offset to the target,
      and nothing else changes: other ports and items, other submarines, the
      waypoints not selected, the hulls and the gaps. */
  lemma LinkUpDocksPair(c: Config, a: Snapshot, p: nat, t: nat)
    requires Consistent(c, a) && p < |c.ports| && t < |c.ports|
    requires c.ports[p].sub != c.ports[t].sub
    ensures var r := LinkedUp(c, a, p, t);
      && DockedPair(c, r, p, t)
      && r.state[p].joint == DistanceJoint && r.state[t].joint == a.state[t].joint
      && r.state[p].dockingDir == DockingDir(c.ports, p, t)
      && (forall q :: 0 <= q < |c.ports| && q != p && q != t ==> r.state[q] == a.state[q] && r.linked[q] == a.linked[q])
      && (forall u :: 0 <= u < |c.subOffsets| && u != c.ports[p].sub && u != c.ports[t].sub ==> r.dockedTo[u] == a.dockedTo[u])
      && (forall w :: 0 <= w < |c.waypoints| && w !in Selected(c, p) && w !in Selected(c, t) ==> r.wpLinks[w] == a.wpLinks[w])
      && r.hulls == a.hulls && r.gaps == a.gaps && r.nextHandle == a.nextHandle
  {
    var r := LinkedUp(c, a, p, t);
    PortItemOnce(r.linked[p], |c.ports|, t);
    PortItemOnce(r.linked[t], |c.ports|, p);
    DockLinksLinkBothWays(a.wpLinks, Selected(c, p), Selected(c, t));
  }

  /** The link-up changes only the target, the docked flag, the direction
      and (on the initiator) the joint of the two ports; their hulls, gap and
      identifiers are kept. */
  lemma LinkUpKeepsParts(c: Config, a: Snapshot, p: nat, t: nat)
    requires Consistent(c, a) && p < |c.ports| && t < |c.ports|
    requires c.ports[p].sub != c.ports[t].sub
    ensures var r := LinkedUp(c, a, p, t);
      && r.state[p] == a.state[p].(target := Some(t), docked := true, dockingDir := r.state[p].dockingDir, joint := DistanceJoint)
      && r.state[t] == a.state[t].(target := Some(p), docked := true, dockingDir := r.state[t].dockingDir)
  {
  }

  /** The link-up as the updates `Dock` makes one after the other: the
      items, the submarines, the two ports, the waypoints, then the joint. */
  lemma LinkedUpInSteps(c: Config, a: Snapshot, p: nat, t: nat)
    requires Consistent(c, a) && p < |c.ports| && t < |c.ports|
    requires c.ports[p].sub != c.ports[t].sub
    ensures var d := DockingDir(c.ports, p, t);
      var sp, st := c.ports[p].sub, c.ports[t].sub;
      var s1 := a.state[p := a.state[p].(target := Some(t), docked := true, dockingDir := d)]
                       [t := a.state[t].(target := Some(p), docked := true, dockingDir := -d)];
      var dt := a.dockedTo[st := a.dockedTo[st] + {sp}];
      LinkedUp(c, a, p, t) == Snapshot(
        s1[p := s1[p].(joint := DistanceJoint)],
        a.linked[p := AddIfAbsent(a.linked[p], PortItem(t))][t := AddIfAbsent(a.linked[t], PortItem(p))],
        dt[sp := dt[sp] + {st}],
        DockLinks(a.wpLinks, Candidates(c.waypoints, 0, sp, c.ports[p].localRect), Candidates(c.waypoints, 0, st, c.ports[t].localRect)),
        a.hulls, a.gaps, a.nextHandle)
  {
    var d := DockingDir(c.ports, p, t);
    var s1 := a.state[p := a.state[p].(target := Some(t), docked := true, dockingDir := d)]
                     [t := a.state[t].(target := Some(p), docked := true, dockingDir := -d)];
    assert s1[p := s1[p].(joint := DistanceJoint)] == LinkedUp(c, a, p, t).state;
  }

  /** The tables after `Dock(t)` on port `p`. The call does nothing when
      `p`'s submarine already lists `t`'s; otherwise a port that has a
      target is undocked first, and a target on the same submarine is
      refused. */
  function AfterDock(c: Config, a: Snapshot, p: nat, t: nat): (r: Snapshot)
    requires Consistent(c, a) && p < |c.ports| && t < |c.ports|
    ensures Consistent(c, r)
    ensures c.ports[t].sub in a.dockedTo[c.ports[p].sub] ==> r == a
    ensures a.state[p].target.None? && c.ports[t].sub == c.ports[p].sub ==> r == a
  {
    var sp := c.ports[p].sub;
    var st := c.ports[t].sub;
    if st in a.dockedTo[sp] then a
    else
      var m := if a.state[p].target.Some? then AfterUndock(c, a, p) else a;
      if st == sp then m else LinkedUp(c, m, p, t)
  }

  /** Unless it is refused, docking makes the two ports a docked pair. */
  lemma DockDocksPair(c: Config, a: Snapshot, p: nat, t: nat)
    requires Consistent(c, a) && p < |c.ports| && t < |c.ports|
    requires c.ports[t].sub !in a.dockedTo[c.ports[p].sub] && c.ports[t].sub != c.ports[p].sub
    ensures DockedPair(c, AfterDock(c, a, p, t), p, t)
  {
    var m := if a.state[p].target.Some? then AfterUndock(c, a, p) else a;
    LinkUpDocksPair(c, m, p, t);
  }

  /** A port that is not docked is not undocked first: docking it is the
      link-up, or nothing when refused. */
  lemma DockUndockedPort(c: Config, a: Snapshot, p: nat, t: nat)
    requires Consistent(c, a) && p < |c.ports| && t < |c.ports|
    requires !a.state[p].docked
    ensures var sp := c.ports[p].sub;
      var st := c.ports[t].sub;
      AfterDock(c, a, p, t) == if st in a.dockedTo[sp] || st == sp then a else LinkedUp(c, a, p, t)
    ensures a.state[p].target == Some(t) ==> AfterDock(c, a, p, t).state[p].target == Some(t)
  {
    if c.ports[t].sub !in a.dockedTo[c.ports[p].sub] && c.ports[t].sub != c.ports[p].sub {
      LinkUpDocksPair(c, a, p, t);
    }
  }

  /** Docking twice is docking once: the second call finds the two
      submarines listing each other, or the port torn down or left as it
      was by the refused first call. */
  lemma DockIdempotent(c: Config, a: Snapshot, p: nat, t: nat)
    requires Consistent(c, a) && p < |c.ports| && t < |c.ports|
    ensures AfterDock(c, AfterDock(c, a, p, t), p, t) == AfterDock(c, a, p, t)
  {
    var sp := c.ports[p].sub;
    var st := c.ports[t].sub;
    if st !in a.dockedTo[sp] {
      if st != sp {
        DockDocksPair(c, a, p, t);
      } else if a.state[p].target.Some? {
        UndockIdempotent(c, a, p);
      }
    }
  }

  /** The tables after `AttemptDock` on port `p`: docking to the first
      adjacent port, if there is one. */
  function AfterAttempt(c: Config, a: Snapshot, p: nat): (r: Snapshot)
    requires Consistent(c, a) && p < |c.ports|
    ensures Consistent(c, r)
  {
    match FindAdjacentPort(c.ports, p, 0)
    case None => a
    case Some(q) => AfterDock(c, a, p, q)
  }

  /** `AttemptDock` changes nothing when no port is adjacent, and docks the
      port to the first adjacent one unless their submarines are docked
      already. */
  lemma AttemptDocksAdjacent(c: Config, a: Snapshot, p: nat)
    requires Consistent(c, a) && p < |c.ports|
    ensures FindAdjacentPort(c.ports, p, 0).None? ==> AfterAttempt(c, a, p) == a
    ensures var q := FindAdjacentPort(c.ports, p, 0);
      q.Some? && c.ports[q.value].sub !in a.dockedTo[c.ports[p].sub] ==>
      DockedPair(c, AfterAttempt(c, a, p), p, q.value)
  {
    var q := FindAdjacentPort(c.ports, p, 0);
    if q.Some? && c.ports[q.value].sub !in a.dockedTo[c.ports[p].sub] {
      DockDocksPair(c, a, p, q.value);
    }
  }

  /** The tables after `Docked = value` on port `p`. Docking a port that is
      not docked first searches for a target when it has none, and gives up
      when there still is none; undocking a docked port undocks it; any other
      assignment changes nothing. */
  function AfterSetDocked(c: Config, a: Snapshot, p: nat, value: bool): (r: Snapshot)
    requires Consistent(c, a) && p < |c.ports|
    ensures Consistent(c, r)
    ensures value == a.state[p].docked ==> r == a
  {
    var s := a.state[p];
    if !s.docked && value then
      var m := if s.target.None? then AfterAttempt(c, a, p) else a;
      if m.state[p].target.None? then m
      else
        SetStateOk(c, m, p, m.state[p].(docked := true));
        m.(state := m.state[p := m.state[p].(docked := true)])
    else if s.docked && !value then AfterUndock(c, a, p)
    else a
  }

  /** Setting `Docked` on a port with neither a target nor an adjacent
      port changes nothing and leaves it undocked. */
  lemma SetDockedFindsNothing(c: Config, a: Snapshot, p: nat)
    requires Consistent(c, a) && p < |c.ports|
    requires !a.state[p].docked && a.state[p].target.None? && FindAdjacentPort(c.ports, p, 0).None?
    ensures AfterSetDocked(c, a, p, true) == a
    ensures !AfterSetDocked(c, a, p, true).state[p].docked
  {
  }

  /** Setting `Docked` on a port with no target but an adjacent port on a
      submarine not yet docked to its own docks the two. */
  lemma SetDockedFindsPort(c: Config, a: Snapshot, p: nat)
    requires Consistent(c, a) && p < |c.ports|
    requires !a.state[p].docked && a.state[p].target.None?
    requires var q := FindAdjacentPort(c.ports, p, 0);
      q.Some? && c.ports[q.value].sub !in a.dockedTo[c.ports[p].sub]
    ensures var q := FindAdjacentPort(c.ports, p, 0).value;
      && AfterSetDocked(c, a, p, true) == LinkedUp(c, a, p, q)
      && DockedPair(c, AfterSetDocked(c, a, p, true), p, q)
  {
    var q := FindAdjacentPort(c.ports, p, 0).value;
    var m := LinkedUp(c, a, p, q);
    DockUndockedPort(c, a, p, q);
    assert AfterAttempt(c, a, p) == m;
    LinkUpDocksPair(c, a, p, q);
    assert m.state[p := m.state[p].(docked := true)] == m.state;
    assert AfterSetDocked(c, a, p, true) == m;
  }

  /** Setting `Docked` on a port that has a target but is not docked only
      sets the flag: nothing is linked. */
  lemma SetDockedWithTarget(c: Config, a: Snapshot, p: nat)
    requires Consistent(c, a) && p < |c.ports|
    requires !a.state[p].docked && a.state[p].target.Some?
    ensures var r := AfterSetDocked(c, a, p, true);
      r.state[p].docked && r.linked == a.linked && r.dockedTo == a.dockedTo && r.wpLinks == a.wpLinks
  {
  }

  /** Clearing `Docked` on a docked port undocks it when it has a target,
      and changes nothing when it has none, so the port stays docked. */
  lemma ClearDocked(c: Config, a: Snapshot, p: nat)
    requires Consistent(c, a) && p < |c.ports| && a.state[p].docked
    ensures a.state[p].target.Some? ==> !AfterSetDocked(c, a, p, false).state[p].docked
    ensures a.state[p].target.None? ==> AfterSetDocked(c, a, p, false) == a
  {
    if a.state[p].target.Some? {
      UndockTearsDownPort(c, a, p);
    }
  }

  /** The tables after `ReceiveSignal` on port `p`: clients ignore every
      signal; `toggle` inverts `Docked`, `set_active` and `set_state` set it
      to whether the signal differs from "0"; other connections are
      ignored. */
  function AfterSignal(c: Config, a: Snapshot, p: nat, isClient: bool, signal: string, connection: string): (r: Snapshot)
    requires Consistent(c, a) && p < |c.ports|
    ensures Consistent(c, r)
    ensures isClient ==> r == a
  {
    if isClient then a
    else if connection == "toggle" then AfterSetDocked(c, a, p, !a.state[p].docked)
    else if connection == "set_active" || connection == "set_state" then AfterSetDocked(c, a, p, signal != "0")
    else a
  }

  /** `toggle` undocks a docked port that has a target, and docks an
      undocked port that has one; `set_state` with "0" never docks. */
  lemma SignalToggles(c: Config, a: Snapshot, p: nat, signal: string)
    requires Consistent(c, a) && p < |c.ports| && a.state[p].target.Some?
    ensures a.state[p].docked ==> !AfterSignal(c, a, p, false, signal, "toggle").state[p].docked
    ensures !a.state[p].docked ==> AfterSignal(c, a, p, false, signal, "toggle").state[p].docked
    ensures !a.state[p].docked ==> AfterSignal(c, a, p, false, "0", "set_state") == a
  {
    if a.state[p].docked {
      ClearDocked(c, a, p);
    }
  }
}
