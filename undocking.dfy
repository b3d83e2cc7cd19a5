/** `DockingPort.Undock`: the submarines forget each other, the waypoint
    links between them are pruned, the item's links are cleared, the port is
    torn down, and its target is undocked in turn. */
module Undocking {
  import opened Wrappers
  import opened DockingModel
  import opened WaypointLinks
  import opened WorldState

  /** The waypoint links after `Undock`'s loop has run from the side of
      submarine `own` docked to submarine `target`. */
  function Unlinked(c: Config, links: seq<seq<nat>>, own: nat, target: nat): (r: seq<seq<nat>>)
    requires |links| == |c.waypoints| && WaypointLinksOk(links)
    ensures |r| == |links| && WaypointLinksOk(r)
  {
    PruneAll(c.waypoints, links, own, target, c.intendedUnlink, 0)
  }

  /** `Undock(p)` for a docked port with a target, up to undocking the
      target. The source clears `docked` before undocking the target and the
      rest of the port after; the target's `Undock` leaves a port that is not
      docked alone, so tearing the whole port down first ends in the same
      state. */
  function TornDown(c: Config, a: Snapshot, p: nat): (r: Snapshot)
    requires Consistent(c, a) && p < |c.ports|
    requires a.state[p].target.Some? && a.state[p].docked
    ensures Consistent(c, r)
  {
    var s := a.state[p];
    var sp := c.ports[p].sub;
    var st := c.ports[s.target.value].sub;
    var d := a.dockedTo[st := a.dockedTo[st] - {sp}];
    SetLinkedOk(a.linked, p, [], |c.ports|);
    Snapshot(
      a.state[p := Cleared(s)],
      a.linked[p := []],
      d[sp := d[sp] - {st}],
      Unlinked(c, a.wpLinks, sp, st),
      if s.hulls.Some? then a.hulls - {s.hulls.value.0, s.hulls.value.1} else a.hulls,
      if s.gap.Some? then a.gaps - {s.gap.value} else a.gaps,
      a.nextHandle)
  }

  /** The tables after `Undock(p)`. A port that is not docked, or has no
      target, is left alone. The recursion ends because `docked` is cleared
      before the re-entrant call, so every level has one docked port fewer. */
  function AfterUndock(c: Config, a: Snapshot, p: nat): (r: Snapshot)
    requires Consistent(c, a) && p < |c.ports|
    ensures Consistent(c, r)
    ensures a.state[p].target.None? || !a.state[p].docked ==> r == a
    decreases CountDocked(a.state)
  {
    var s := a.state[p];
    if s.target.None? || !s.docked then a
    else
      CountDockedUpdate(a.state, p, Cleared(s));
      AfterUndock(c, TornDown(c, a, p), s.target.value)
  }

  /** Tearing a docked port down only shrinks the tables, undocks one port,
      and leaves the two submarines unaware of each other. */
  lemma TornDownShrunk(c: Config, a: Snapshot, p: nat)
    requires Consistent(c, a) && p < |c.ports|
    requires a.state[p].target.Some? && a.state[p].docked
    ensures var b := TornDown(c, a, p);
      var sp := c.ports[p].sub;
      var st := c.ports[a.state[p].target.value].sub;
      && Shrunk(a, b)
      && st !in b.dockedTo[sp] && sp !in b.dockedTo[st]
      && CountDocked(b.state) < CountDocked(a.state)
  {
    var sp := c.ports[p].sub;
    var st := c.ports[a.state[p].target.value].sub;
    PruneAllShrinks(c.waypoints, a.wpLinks, sp, st, c.intendedUnlink, 0);
    CountDockedUpdate(a.state, p, Cleared(a.state[p]));
  }

  /** `Undock` never creates anything: whatever the cascade, the tables only
      shrink. */
  lemma {:induction false} UndockShrinks(c: Config, a: Snapshot, p: nat)
    requires Consistent(c, a) && p < |c.ports|
    ensures Shrunk(a, AfterUndock(c, a, p))
    decreases CountDocked(a.state)
  {
    var s := a.state[p];
    if s.target.Some? && s.docked {
      var b := TornDown(c, a, p);
      TornDownShrunk(c, a, p);
      UndockShrinks(c, b, s.target.value);
      ShrunkTransitive(a, b, AfterUndock(c, b, s.target.value));
    } else {
      assert AfterUndock(c, a, p) == a;
      assert LinksShrunk(a.wpLinks, a.wpLinks);
    }
  }

  /** What `Undock(p)` promises for a docked port with target `t` about
      `p` itself: `p` is torn down and its item's links are gone, the two
      submarines no longer list each other, there is one docked port fewer
      at least, and the hulls and the gap `p` made are removed. */
  lemma UndockTearsDownPort(c: Config, a: Snapshot, p: nat)
    requires Consistent(c, a) && p < |c.ports|
    requires a.state[p].target.Some? && a.state[p].docked
    ensures var r := AfterUndock(c, a, p);
      var s := a.state[p];
      var sp := c.ports[p].sub;
      var st := c.ports[s.target.value].sub;
      && r.state[p] == Cleared(s)
      && r.linked[p] == []
      && st !in r.dockedTo[sp] && sp !in r.dockedTo[st]
      && CountDocked(r.state) < CountDocked(a.state)
      && (s.hulls.Some? ==> s.hulls.value.0 !in r.hulls && s.hulls.value.1 !in r.hulls)
      && (s.gap.Some? ==> s.gap.value !in r.gaps)
  {
    var s := a.state[p];
    var b := TornDown(c, a, p);
    assert AfterUndock(c, a, p) == AfterUndock(c, b, s.target.value);
    TornDownShrunk(c, a, p);
    UndockShrinks(c, b, s.target.value);
    ShrunkCount(b.state, AfterUndock(c, b, s.target.value).state);
  }

  /** What `Undock(p)` promises for a docked port with target `t` about
      `t`: `t` is torn down too when it was docked to some port, and the
      waypoint links lose the links between the two submarines, from `p`'s
      side and, when `t` was docked back to `p`, from `t`'s side too. */
  lemma UndockTearsDownTarget(c: Config, a: Snapshot, p: nat)
    requires Consistent(c, a) && p < |c.ports|
    requires a.state[p].target.Some? && a.state[p].docked
    ensures var r := AfterUndock(c, a, p);
      var t := a.state[p].target.value;
      var sp := c.ports[p].sub;
      var st := c.ports[t].sub;
      && (a.state[t].docked && a.state[t].target.Some? ==> r.state[t] == Cleared(a.state[t]) && r.linked[t] == [])
      && (t != p && a.state[t].docked && a.state[t].target == Some(p) ==>
            r.wpLinks == Unlinked(c, Unlinked(c, a.wpLinks, sp, st), st, sp))
      && (t == p || !a.state[t].docked || a.state[t].target.None? ==>
            r.wpLinks == Unlinked(c, a.wpLinks, sp, st))
  {
    var t := a.state[p].target.value;
    var b := TornDown(c, a, p);
    assert AfterUndock(c, a, p) == AfterUndock(c, b, t);
    if t != p && a.state[t].docked && a.state[t].target.Some? {
      assert b.state[t] == a.state[t];
      var u := a.state[t].target.value;
      var b2 := TornDown(c, b, t);
      assert AfterUndock(c, b, t) == AfterUndock(c, b2, u);
      UndockShrinks(c, b2, u);
      if u == p {
        assert AfterUndock(c, b2, u) == b2;
      }
    }
  }

  /** Undocking twice is undocking once: the second call finds the port
      torn down, or left alone because it was not docked. */
  lemma UndockIdempotent(c: Config, a: Snapshot, p: nat)
    requires Consistent(c, a) && p < |c.ports|
    ensures AfterUndock(c, AfterUndock(c, a, p), p) == AfterUndock(c, a, p)
  {
    if a.state[p].target.Some? && a.state[p].docked {
      UndockTearsDownPort(c, a, p);
    }
  }

  /** With the intended test, undocking two ports docked to each other on
      different submarines leaves no path waypoint of either submarine
      linked to a waypoint of the other. */
  lemma UndockSeparatesWaypoints(c: Config, a: Snapshot, p: nat)
    requires Consistent(c, a) && p < |c.ports| && c.intendedUnlink
    requires a.state[p].target.Some? && a.state[p].docked
    requires var t := a.state[p].target.value;
      a.state[t].docked && a.state[t].target == Some(p) && c.ports[t].sub != c.ports[p].sub
    ensures var r := AfterUndock(c, a, p);
      var sp := c.ports[p].sub;
      var st := c.ports[a.state[p].target.value].sub;
      && (forall x: nat, y: nat :: OnSubPath(c.waypoints, x, sp) && OnSub(c.waypoints, y, st) ==> y !in r.wpLinks[x])
      && (forall x: nat, y: nat :: OnSubPath(c.waypoints, x, st) && OnSub(c.waypoints, y, sp) ==> y !in r.wpLinks[x])
  {
    UndockTearsDownTarget(c, a, p);
    UndockSeparatesSubs(c.waypoints, a.wpLinks, c.ports[p].sub, c.ports[a.state[p].target.value].sub);
  }

  /** As written, undocking two ports docked to each other on different
      submarines leaves every waypoint link in place. */
  lemma UndockAsWrittenKeepsWaypointLinks(c: Config, a: Snapshot, p: nat)
    requires Consistent(c, a) && p < |c.ports| && !c.intendedUnlink
    requires a.state[p].target.Some? && a.state[p].docked
    requires var t := a.state[p].target.value;
      && c.ports[t].sub != c.ports[p].sub
      && (!a.state[t].docked || a.state[t].target.None? || a.state[t].target == Some(p))
    ensures AfterUndock(c, a, p).wpLinks == a.wpLinks
  {
    var t := a.state[p].target.value;
    var sp := c.ports[p].sub;
    var st := c.ports[t].sub;
    UndockTearsDownTarget(c, a, p);
    PruneAllAsWritten(c.waypoints, a.wpLinks, sp, st, 0);
    PruneAllAsWritten(c.waypoints, a.wpLinks, st, sp, 0);
  }
}
