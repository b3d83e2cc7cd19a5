/** `DockingPort.Update`: one frame of a port. A port without a target
    reports that it is not docked and whether another port is in reach; a
    port with a target docks if it has not, reports "0" while the soft joint
    pulls the submarines together, and once they meet welds them and, when
    neither port's item has hulls yet, creates the hulls between them. */
module Ticks {
  import opened Wrappers
  import opened DockingModel
  import opened WorldState
  import opened Docking
  import opened HullCreation
  import opened ItemSignals

  /** The tables after one frame and the signals the port's item sent, in
      order. */
  datatype Tick = Tick(after: Snapshot, sent: seq<Signal>)

  /** One frame of port `p`. The floating-point parts are parameters:
      `settled` says the undocked port's `dockingState` has decayed below
      0.01, `converged` that the soft joint's two anchors are closer than
      0.05. `ids` are the identifiers the registry would hand to new hulls. */
  function AfterUpdate(c: Config, a: Snapshot, p: nat, converged: bool, settled: bool, ids: FreshIds): (r: Tick)
    requires Consistent(c, a) && p < |c.ports|
    ensures Consistent(c, r.after)
  {
    var s := a.state[p];
    if s.target.None? then
      SetStateOk(c, a, p, s.(docked := false));
      Tick(if settled then a.(state := a.state[p := s.(docked := false)]) else a,
           [Signal("0", "state_out"),
            Signal(if FindAdjacentPort(c.ports, p, 0).Some? then "1" else "0", "proximity_sensor")])
    else
      var t := s.target.value;
      var m := if !s.docked then AfterDock(c, a, p, t) else a;
      assert m.state[p].target == Some(t) by {
        if !s.docked { DockUndockedPort(c, a, p, t); }
      }
      if m.state[p].joint == DistanceJoint then
        WeldedOk(c, m, p, ids);
        Tick(if converged then Welded(c, m, p, ids) else m, [Signal("0", "state_out")])
      else Tick(m, [Signal("1", "state_out")])
  }

  /** What `Welded` reads: port `p` and its target are in the registry
      and on known submarines. */
  predicate WeldReady(c: Config, m: Snapshot, p: nat) {
    && p < |c.ports| && |m.state| == |c.ports| && |m.linked| == |c.ports|
    && m.state[p].target.Some? && m.state[p].target.value < |c.ports|
    && c.ports[p].sub < |c.subOffsets| && c.ports[m.state[p].target.value].sub < |c.subOffsets|
  }

  /** The tables once the soft joint of port `p` has pulled the submarines
      together: the port holds a weld joint, and the hulls are created unless
      either port's item already has some. */
  function Welded(c: Config, m: Snapshot, p: nat, ids: FreshIds): (r: Snapshot)
    requires WeldReady(c, m, p)
    ensures |r.state| == |m.state| && r.state[p].joint == WeldJoint
    ensures r.state[p].target == m.state[p].target && r.state[p].docked == m.state[p].docked
    ensures r.dockedTo == m.dockedTo && r.wpLinks == m.wpLinks
  {
    var t := m.state[p].target.value;
    WeldedWith(m, p, t, Parts(c, m.state[p].(joint := WeldJoint), p, t, ids, m.nextHandle))
  }

  /** `Welded` with the parts the port would create given. */
  function WeldedWith(m: Snapshot, p: nat, t: nat, h: NewParts): (r: Snapshot)
    requires p < |m.state| && p < |m.linked| && t < |m.linked|
    ensures |r.state| == |m.state| && r.state[p].joint == WeldJoint
    ensures r.state[p].target == m.state[p].target && r.state[p].docked == m.state[p].docked
    ensures forall q :: 0 <= q < |m.state| && q != p ==> r.state[q] == m.state[q]
    ensures r.dockedTo == m.dockedTo && r.wpLinks == m.wpLinks
    ensures HasHull(m.linked[p]) || HasHull(m.linked[t]) ==> r.hulls == m.hulls && r.gaps == m.gaps && r.linked == m.linked
  {
    var w := m.(state := m.state[p := m.state[p].(joint := WeldJoint)]);
    if !HasHull(w.linked[p]) && !HasHull(w.linked[t]) then Attached(w, p, h) else w
  }

  /** Welding keeps the tables consistent. */
  lemma WeldedOk(c: Config, m: Snapshot, p: nat, ids: FreshIds)
    requires Consistent(c, m) && p < |c.ports| && m.state[p].target.Some?
    ensures WeldReady(c, m, p) && Consistent(c, Welded(c, m, p, ids))
  {
    var t := m.state[p].target.value;
    var w := m.(state := m.state[p := m.state[p].(joint := WeldJoint)]);
    SetStateOk(c, m, p, m.state[p].(joint := WeldJoint));
    AttachedOk(c, w, p, Parts(c, m.state[p].(joint := WeldJoint), p, t, ids, m.nextHandle));
  }

  /** Without a target the port reports "0" on `state_out`, and "1" on
      `proximity_sensor` exactly when some port is in reach; its `docked`
      flag is cleared once the docking state has settled, and nothing else
      changes. */
  lemma UpdateWithoutTarget(c: Config, a: Snapshot, p: nat, converged: bool, settled: bool, ids: FreshIds)
    requires Consistent(c, a) && p < |c.ports| && a.state[p].target.None?
    ensures var r := AfterUpdate(c, a, p, converged, settled, ids);
      && |r.sent| == 2
      && r.sent[0] == Signal("0", "state_out")
      && r.sent[1].connection == "proximity_sensor"
      && (r.sent[1].value == "1" <==> exists q :: 0 <= q < |c.ports| && Adjacent(c.ports, p, q))
      && (r.sent[1].value == "0" <==> forall q :: 0 <= q < |c.ports| ==> !Adjacent(c.ports, p, q))
      && r.after.state[p].docked == (a.state[p].docked && !settled)
      && r.after.state[p].target.None?
      && (forall q :: 0 <= q < |c.ports| && q != p ==> r.after.state[q] == a.state[q])
      && r.after.linked == a.linked && r.after.dockedTo == a.dockedTo && r.after.wpLinks == a.wpLinks
      && r.after.hulls == a.hulls && r.after.gaps == a.gaps
  {
    var f := FindAdjacentPort(c.ports, p, 0);
    if f.Some? {
      assert Adjacent(c.ports, p, f.value);
    }
  }

  /** A port with a target that is not docked links up with it first; until
      the joint has pulled the submarines together it reports "0" and the
      tables are those after the link-up. */
  lemma UpdateDocksFirst(c: Config, a: Snapshot, p: nat, settled: bool, ids: FreshIds)
    requires Consistent(c, a) && p < |c.ports|
    requires a.state[p].target.Some? && !a.state[p].docked
    requires var t := a.state[p].target.value;
      c.ports[t].sub !in a.dockedTo[c.ports[p].sub] && c.ports[t].sub != c.ports[p].sub
    ensures var t := a.state[p].target.value;
      var r := AfterUpdate(c, a, p, false, settled, ids);
      && r.after == LinkedUp(c, a, p, t)
      && DockedPair(c, r.after, p, t)
      && r.after.state[p].joint == DistanceJoint
      && r.sent == [Signal("0", "state_out")]
  {
    var t := a.state[p].target.value;
    DockUndockedPort(c, a, p, t);
    LinkUpDocksPair(c, a, p, t);
  }

  /** Once the soft joint's anchors meet, the port holds a weld joint and
      stays docked to its target, and reports "0" in that frame. */
  lemma UpdateWelds(c: Config, a: Snapshot, p: nat, settled: bool, ids: FreshIds)
    requires Consistent(c, a) && p < |c.ports| && a.state[p].target.Some?
    requires a.state[p].docked && a.state[p].joint == DistanceJoint
    ensures var r := AfterUpdate(c, a, p, true, settled, ids);
      && r.after == Welded(c, a, p, ids)
      && r.sent == [Signal("0", "state_out")]
      && r.after.state[p].joint == WeldJoint
      && r.after.state[p].docked && r.after.state[p].target == a.state[p].target
      && r.after.dockedTo == a.dockedTo && r.after.wpLinks == a.wpLinks
  {
    var t := a.state[p].target.value;
    var w := a.(state := a.state[p := a.state[p].(joint := WeldJoint)]);
    WeldedOk(c, a, p, ids);
    if !HasHull(a.linked[p]) && !HasHull(a.linked[t]) {
      AttachedKeepsRest(w, p, Parts(c, w.state[p], p, t, ids, w.nextHandle));
    }
  }

  /** Welding with given parts when neither item has hulls attaches them. */
  lemma WeldedWithCreatesHulls(a: Snapshot, p: nat, t: nat, h: NewParts)
    requires p < |a.state| && p < |a.linked| && t < |a.linked| && HandlesOk(a.hulls, a.gaps, a.nextHandle)
    requires !HasHull(a.linked[p]) && !HasHull(a.linked[t])
    ensures var r := WeldedWith(a, p, t, h);
      && a.nextHandle !in a.hulls && a.nextHandle + 1 !in a.hulls && a.nextHandle + 2 !in a.gaps
      && a.nextHandle in r.hulls && a.nextHandle + 1 in r.hulls && a.nextHandle + 2 in r.gaps
      && HasHull(r.linked[p])
      && r.state[p].hulls == Some((a.nextHandle, a.nextHandle + 1))
      && r.state[p].gap == Some(a.nextHandle + 2)
  {
    var w := a.(state := a.state[p := a.state[p].(joint := WeldJoint)]);
    AttachedRecordsParts(w, p, h);
  }

  /** Welding creates the hulls and the gap under the next three handles,
      which were free, when neither port's item had hulls; the port records
      the handles and its item lists the hulls. */
  lemma WeldCreatesHulls(c: Config, a: Snapshot, p: nat, ids: FreshIds)
    requires WeldReady(c, a, p) && HandlesOk(a.hulls, a.gaps, a.nextHandle)
    requires !HasHull(a.linked[p]) && !HasHull(a.linked[a.state[p].target.value])
    ensures var r := Welded(c, a, p, ids);
      && a.nextHandle !in a.hulls && a.nextHandle + 1 !in a.hulls && a.nextHandle + 2 !in a.gaps
      && a.nextHandle in r.hulls && a.nextHandle + 1 in r.hulls && a.nextHandle + 2 in r.gaps
      && HasHull(r.linked[p])
      && r.state[p].hulls == Some((a.nextHandle, a.nextHandle + 1))
      && r.state[p].gap == Some(a.nextHandle + 2)
  {
    var t := a.state[p].target.value;
    WeldedWithCreatesHulls(a, p, t, Parts(c, a.state[p].(joint := WeldJoint), p, t, ids, a.nextHandle));
  }

  /** Welding adds no hull or gap when either port's item already has
      hulls. */
  lemma WeldKeepsHulls(c: Config, a: Snapshot, p: nat, ids: FreshIds)
    requires WeldReady(c, a, p)
    requires HasHull(a.linked[p]) || HasHull(a.linked[a.state[p].target.value])
    ensures var r := Welded(c, a, p, ids);
      r.linked == a.linked && r.hulls == a.hulls && r.gaps == a.gaps
  {
  }

  /** A docked port whose joint is not the soft one reports "1" and changes
      nothing. */
  lemma UpdateReportsDocked(c: Config, a: Snapshot, p: nat, converged: bool, settled: bool, ids: FreshIds)
    requires Consistent(c, a) && p < |c.ports| && a.state[p].target.Some?
    requires a.state[p].docked && a.state[p].joint != DistanceJoint
    ensures AfterUpdate(c, a, p, converged, settled, ids) == Tick(a, [Signal("1", "state_out")])
  {
  }

  /** Only the initiating port gets a joint: right after `p` links up with
      `t`, the next frame of `p` reports "0" while `t`, which had no joint,
      already reports "1". */
  lemma TargetReportsDockedAtOnce(c: Config, a: Snapshot, p: nat, t: nat, converged: bool, settled: bool, ids: FreshIds)
    requires Consistent(c, a) && p < |c.ports| && t < |c.ports|
    requires c.ports[p].sub != c.ports[t].sub && a.state[t].joint == NoJoint
    ensures var b := LinkedUp(c, a, p, t);
      && AfterUpdate(c, b, t, converged, settled, ids).sent == [Signal("1", "state_out")]
      && AfterUpdate(c, b, p, false, settled, ids).sent == [Signal("0", "state_out")]
  {
    LinkUpDocksPair(c, a, p, t);
  }
}
