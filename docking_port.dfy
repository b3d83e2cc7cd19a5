/** The docking ports of a world as one object: the port registry
    (`DockingPort.list`), the fields of every port, and the lists the ports
    share and change (each port item's `linkedTo`, each submarine's
    `DockedTo`, each waypoint's `linkedTo`, and the hulls and gaps the
    ports create). Ports are named by their index in the registry. Every
    operation is proved to leave the tables exactly as the corresponding
    function over snapshots says. */
module DockingPorts {
  import opened Wrappers
  import opened Numerics
  import opened Geometry
  import opened Lists
  import opened DockMessages
  import opened ItemSignals
  import opened DockingModel
  import opened WaypointLinks
  import opened WorldState
  import opened Undocking
  import opened Docking
  import opened HullCreation
  import opened Ticks
  import opened MapLoading
  import opened NetworkSync

  class World {
    /** Per submarine: the offset `WorldPosition - HiddenSubPosition`. */
    const subOffsets: seq<Point>
    /** `WayPoint.WayPointList`. */
    const waypoints: seq<Waypoint>
    /** Whether `Undock` tests the linked waypoint's submarine, as
        intended, rather than that of the waypoint holding the link. */
    const intendedUnlink: bool

    /** The port registry, in `list` order. */
    var ports: seq<PortConfig>
    /** The fields of each port. */
    var state: seq<PortState>
    /** Per port: its item's `linkedTo`. */
    var linked: seq<seq<Entity>>
    /** Per submarine: `DockedTo`. */
    var dockedTo: seq<set<nat>>
    /** Per waypoint: its `linkedTo`. */
    var wpLinks: seq<seq<nat>>
    /** The hulls and gaps the ports have created, by handle. */
    var hulls: map<nat, Hull>
    var gaps: map<nat, Gap>
    /** The next unused hull or gap handle. */
    var nextHandle: nat

    function Cfg(): Config
      reads this
    {
      Config(ports, subOffsets, waypoints, intendedUnlink)
    }

    function Snap(): Snapshot
      reads this
    {
      Snapshot(state, linked, dockedTo, wpLinks, hulls, gaps, nextHandle)
    }

    ghost predicate Valid()
      reads this
    {
      Consistent(Cfg(), Snap())
    }

    /** A world with the given submarines and waypoints (and the waypoint
        links loaded with the map), and no ports yet. */
    constructor (subOffsets: seq<Point>, waypoints: seq<Waypoint>, wpLinks: seq<seq<nat>>, intendedUnlink: bool)
      requires |wpLinks| == |waypoints| && WaypointLinksOk(wpLinks)
      ensures Valid()
      ensures this.subOffsets == subOffsets && this.waypoints == waypoints && this.intendedUnlink == intendedUnlink
      ensures ports == [] && Snap() == Snapshot([], [], seq(|subOffsets|, _ => {}), wpLinks, map[], map[], 0)
    {
      this.subOffsets := subOffsets;
      this.waypoints := waypoints;
      this.intendedUnlink := intendedUnlink;
      ports := [];
      state := [];
      linked := [];
      dockedTo := seq(|subOffsets|, _ => {});
      this.wpLinks := wpLinks;
      hulls := map[];
      gaps := map[];
      nextHandle := 0;
    }

    /** The `DockingPort` constructor: a new port, with its item's
        `linkedTo` as loaded with the map, joins the end of the registry
        (`list.Add(this)`). */
    method AddPort(pc: PortConfig, itemLinks: seq<Entity>) returns (p: nat)
      requires Valid()
      requires pc.sub < |subOffsets| && LinkedOk(itemLinks, |ports| + 1)
      modifies this
      ensures Valid()
      ensures p == old(|ports|) && ports == old(ports) + [pc]
      ensures Snap() == old(Snap()).(state := old(state) + [NewPort], linked := old(linked) + [itemLinks])
    {
      p := |ports|;
      forall q | 0 <= q < |linked| ensures LinkedOk(linked[q], |ports| + 1) {
        assert LinkedOk(linked[q], |ports|);
      }
      ports := ports + [pc];
      state := state + [NewPort];
      linked := linked + [itemLinks];
      forall q | 0 <= q < |linked| ensures LinkedOk(linked[q], |ports|) {
        if q < p {
          assert linked[q] == old(linked)[q];
        }
      }
    }

    /** Item loading, once every port of the map exists: port `p`'s item
        gets its saved `linkedTo`, which may name ports registered after
        it and the hulls and gaps saved with the map. */
    method LoadLinks(p: nat, l: seq<Entity>)
      requires Valid() && p < |ports| && LinkedOk(l, |ports|)
      modifies this
      ensures Valid()
      ensures ports == old(ports)
      ensures Snap() == old(Snap()).(linked := old(linked)[p := l])
    {
      SetLinkedOk(linked, p, l, |ports|);
      linked := linked[p := l];
    }

    /** A hull saved with the map (one a docked port had created) is loaded
        under a fresh handle, so that a port's saved links can name it. */
    method AddSavedHull(h: Hull) returns (k: nat)
      requires Valid()
      modifies this
      ensures Valid()
      ensures ports == old(ports)
      ensures k == old(nextHandle) && k !in old(hulls) && k !in old(gaps)
      ensures Snap() == old(Snap()).(hulls := old(hulls)[k := h], nextHandle := k + 1)
    {
      k := nextHandle;
      hulls := hulls[k := h];
      nextHandle := k + 1;
    }

    /** A gap saved with the map, loaded under a fresh handle. */
    method AddSavedGap(g: Gap) returns (k: nat)
      requires Valid()
      modifies this
      ensures Valid()
      ensures ports == old(ports)
      ensures k == old(nextHandle) && k !in old(hulls) && k !in old(gaps)
      ensures Snap() == old(Snap()).(gaps := old(gaps)[k := g], nextHandle := k + 1)
    {
      k := nextHandle;
      gaps := gaps[k := g];
      nextHandle := k + 1;
    }

    // -------------------------------------------------------------------
    // Undock

    /** `Undock`: the submarines forget each other, the waypoint links
        between them are pruned, the item's links are cleared, the port is
        torn down, and its target is undocked in turn. */
    method Undock(p: nat)
      requires Valid() && p < |ports|
      modifies this
      ensures ports == old(ports)
      ensures Snap() == AfterUndock(Cfg(), old(Snap()), p)
      ensures Valid()
      decreases CountDocked(state)
    {
      var s := state[p];
      if s.target.None? || !s.docked {
        return;
      }
      var t := s.target.value;
      TornDownShrunk(Cfg(), Snap(), p);
      TearDown(p);
      Undock(t);
    }

    /** `Undock(p)` for a docked port with a target, up to undocking the
        target. The source clears `docked` before undocking the target and
        the rest of the port after; the target's `Undock` leaves a port that
        is not docked alone, so tearing the whole port down first ends in
        the same state. */
    method TearDown(p: nat)
      requires Valid() && p < |ports|
      requires state[p].target.Some? && state[p].docked
      modifies this
      ensures ports == old(ports)
      ensures Snap() == TornDown(Cfg(), old(Snap()), p)
      ensures Valid()
    {
      ghost var c, a := Cfg(), Snap();
      ghost var r := TornDown(c, a, p);
      var s := state[p];
      var sp := ports[p].sub;
      var st := ports[s.target.value].sub;
      ForgetEachOther(st, sp);
      wpLinks := PruneWaypointLinks(waypoints, wpLinks, sp, st, intendedUnlink);
      linked := linked[p := []];
      RemoveParts(s);
      state := state[p := Cleared(s)];
      assert dockedTo == r.dockedTo && wpLinks == r.wpLinks;
      assert state == r.state && linked == r.linked;
      assert hulls == r.hulls && gaps == r.gaps;
    }

    /** Submarine `u` no longer lists `v`, then `v` no longer lists `u`. */
    method ForgetEachOther(u: nat, v: nat)
      requires u < |dockedTo| && v < |dockedTo|
      modifies this`dockedTo
      ensures var d := old(dockedTo)[u := old(dockedTo)[u] - {v}];
        dockedTo == d[v := d[v] - {u}]
    {
      dockedTo := dockedTo[u := dockedTo[u] - {v}];
      dockedTo := dockedTo[v := dockedTo[v] - {u}];
    }

    /** The hulls and the gap a port with fields `s` created are removed. */
    method RemoveParts(s: PortState)
      modifies this`hulls, this`gaps
      ensures hulls == if s.hulls.Some? then old(hulls) - {s.hulls.value.0, s.hulls.value.1} else old(hulls)
      ensures gaps == if s.gap.Some? then old(gaps) - {s.gap.value} else old(gaps)
    {
      if s.hulls.Some? {
        hulls := hulls - {s.hulls.value.0, s.hulls.value.1};
      }
      if s.gap.Some? {
        gaps := gaps - {s.gap.value};
      }
    }

    // -------------------------------------------------------------------
    // Dock

    /** `FindAdjacentPort`: the first port in the registry, other than `p`
        and on another submarine, within `p`'s tolerance on both axes. */
    method FindAdjacent(p: nat) returns (r: Option<nat>)
      requires p < |ports|
      ensures r == FindAdjacentPort(ports, p, 0)
    {
      var q := 0;
      while q < |ports|
        invariant 0 <= q <= |ports|
        invariant FindAdjacentPort(ports, p, q) == FindAdjacentPort(ports, p, 0)
      {
        if q == p || ports[q].sub == ports[p].sub {
        } else if Abs(ports[q].position.x - ports[p].position.x) > ports[p].tolerance.x {
        } else if Abs(ports[q].position.y - ports[p].position.y) > ports[p].tolerance.y {
        } else {
          return Some(q);
        }
        q := q + 1;
      }
      return None;
    }

    /** `AttemptDock`: docks to the adjacent port, if there is one. */
    method AttemptDock(p: nat)
      requires Valid() && p < |ports|
      modifies this
      ensures ports == old(ports)
      ensures Snap() == AfterAttempt(Cfg(), old(Snap()), p)
      ensures Valid()
    {
      var q := FindAdjacent(p);
      if q.Some? {
        Dock(p, q.value);
      }
    }

    /** `Dock(t)` on port `p`. */
    method Dock(p: nat, t: nat)
      requires Valid() && p < |ports| && t < |ports|
      modifies this
      ensures ports == old(ports)
      ensures Snap() == AfterDock(Cfg(), old(Snap()), p, t)
      ensures Valid()
    {
      var sp := ports[p].sub;
      var st := ports[t].sub;
      if st in dockedTo[sp] {
        return;
      }
      if state[p].target.Some? {
        Undock(p);
      }
      if st == sp {
        return;
      }
      LinkUp(p, t);
    }

    /** The body of `Dock(t)` once its guards have passed, step by step. */
    method LinkUp(p: nat, t: nat)
      requires Valid() && p < |ports| && t < |ports|
      requires ports[p].sub != ports[t].sub
      modifies this
      ensures ports == old(ports)
      ensures Snap() == LinkedUp(Cfg(), old(Snap()), p, t)
      ensures Valid()
    {
      ghost var c, a := Cfg(), Snap();
      LinkedUpInSteps(c, a, p, t);
      LinkFields(p, t);
      assert Snap() == LinkedUp(c, a, p, t);
    }

    /** The steps of the link-up: the items list each other, the
        submarines know each other, the ports are paired, the waypoints in
        the two rectangles are crossed, and `p` gets the soft joint. */
    method LinkFields(p: nat, t: nat)
      requires p < |ports| && t < |ports| && |state| == |ports| && |linked| == |ports|
      requires ports[p].sub != ports[t].sub
      requires ports[p].sub < |dockedTo| && ports[t].sub < |dockedTo| && |wpLinks| == |waypoints|
      modifies this`state, this`linked, this`dockedTo, this`wpLinks
      ensures var d := DockingDir(ports, p, t);
        var s1 := old(state)[p := old(state[p]).(target := Some(t), docked := true, dockingDir := d)]
                            [t := old(state[t]).(target := Some(p), docked := true, dockingDir := -d)];
        state == s1[p := s1[p].(joint := DistanceJoint)]
      ensures linked == old(linked)[p := AddIfAbsent(old(linked[p]), PortItem(t))][t := AddIfAbsent(old(linked[t]), PortItem(p))]
      ensures var sp, st := ports[p].sub, ports[t].sub;
        var dt := old(dockedTo)[st := old(dockedTo)[st] + {sp}];
        dockedTo == dt[sp := dt[sp] + {st}]
      ensures wpLinks == DockLinks(old(wpLinks), Candidates(waypoints, 0, ports[p].sub, ports[p].localRect),
                                   Candidates(waypoints, 0, ports[t].sub, ports[t].localRect))
    {
      var sp := ports[p].sub;
      var st := ports[t].sub;
      ListEachOther(p, t);
      KnowEachOther(st, sp);
      PairPorts(p, t, DockingDir(ports, p, t));
      wpLinks := CrossWaypointLinks(waypoints, wpLinks, sp, ports[p].localRect, st, ports[t].localRect);
      state := state[p := state[p].(joint := DistanceJoint)];
    }

    /** Each of the two ports' items lists the other, unless it already
        does. */
    method ListEachOther(p: nat, t: nat)
      requires p < |linked| && t < |linked| && p != t
      modifies this`linked
      ensures linked == old(linked)[p := AddIfAbsent(old(linked[p]), PortItem(t))][t := AddIfAbsent(old(linked[t]), PortItem(p))]
    {
      if PortItem(t) !in linked[p] {
        linked := linked[p := linked[p] + [PortItem(t)]];
      }
      if PortItem(p) !in linked[t] {
        linked := linked[t := linked[t] + [PortItem(p)]];
      }
    }

    /** Submarine `u` lists `v`, then `v` lists `u`, unless they already
        do. */
    method KnowEachOther(u: nat, v: nat)
      requires u < |dockedTo| && v < |dockedTo|
      modifies this`dockedTo
      ensures var d := old(dockedTo)[u := old(dockedTo)[u] + {v}];
        dockedTo == d[v := d[v] + {u}]
    {
      if v !in dockedTo[u] {
        dockedTo := dockedTo[u := dockedTo[u] + {v}];
      } else {
        assert dockedTo[u] + {v} == dockedTo[u];
      }
      if u !in dockedTo[v] {
        dockedTo := dockedTo[v := dockedTo[v] + {u}];
      } else {
        assert dockedTo[v] + {u} == dockedTo[v];
      }
    }

    /** The targets point at each other, both ports are docked and their
        directions are `d` and `-d`. The target's `Docked` setter only sets
        the flag, because its target is already set. */
    method PairPorts(p: nat, t: nat, d: int)
      requires p < |state| && t < |state| && p != t
      modifies this`state
      ensures state == old(state)[p := old(state[p]).(target := Some(t), docked := true, dockingDir := d)]
                                 [t := old(state[t]).(target := Some(p), docked := true, dockingDir := -d)]
    {
      state := state[p := state[p].(target := Some(t))];
      state := state[t := state[t].(target := Some(p))];
      state := state[p := state[p].(docked := true)];
      if !state[t].docked {
        state := state[t := state[t].(docked := true)];
      }
      state := state[p := state[p].(dockingDir := d)];
      state := state[t := state[t].(dockingDir := -d)];
    }

    /** The `Docked` setter. */
    method SetDocked(p: nat, value: bool)
      requires Valid() && p < |ports|
      modifies this
      ensures ports == old(ports)
      ensures Snap() == AfterSetDocked(Cfg(), old(Snap()), p, value)
      ensures Valid()
    {
      if !state[p].docked && value {
        if state[p].target.None? {
          AttemptDock(p);
        }
        if state[p].target.None? {
          return;
        }
        SetStateOk(Cfg(), Snap(), p, state[p].(docked := true));
        state := state[p := state[p].(docked := true)];
      } else if state[p].docked && !value {
        Undock(p);
      }
    }

    /** `ReceiveSignal`: clients ignore signals; `toggle` inverts `Docked`,
        `set_active` and `set_state` set it to whether the signal is not
        "0". */
    method ReceiveSignal(p: nat, isClient: bool, signal: string, connection: string)
      requires Valid() && p < |ports|
      modifies this
      ensures ports == old(ports)
      ensures Snap() == AfterSignal(Cfg(), old(Snap()), p, isClient, signal, connection)
      ensures Valid()
    {
      if isClient {
        return;
      }
      if connection == "toggle" {
        SetDocked(p, !state[p].docked);
      } else if connection == "set_active" || connection == "set_state" {
        SetDocked(p, signal != "0");
      }
    }

    // -------------------------------------------------------------------
    // Hulls

    /** `CreateHull`: the two hulls and the gap between the docked
        submarines get the next three handles; the item lists them, and the
        port records them and their identifiers. */
    method CreateHull(p: nat, ids: FreshIds)
      requires Valid() && p < |ports| && state[p].target.Some?
      modifies this
      ensures ports == old(ports)
      ensures Snap() == AfterCreateHull(Cfg(), old(Snap()), p, ids)
      ensures Valid()
    {
      var s := state[p];
      var h := Parts(Cfg(), s, p, s.target.value, ids, nextHandle);
      Attach(p, h);
    }

    /** The parts `h` get the next three handles; the port records them and
        their identifiers, and its item lists both hulls and then the gap. */
    method Attach(p: nat, h: NewParts)
      requires Valid() && p < |ports|
      modifies this
      ensures ports == old(ports)
      ensures Snap() == Attached(old(Snap()), p, h)
      ensures Valid()
    {
      ghost var a := Snap();
      AttachedOk(Cfg(), a, p, h);
      var n := nextHandle;
      var s := state[p];
      var l := linked[p];
      s := s.(hulls := Some((n, n + 1)), gap := Some(n + 2));
      l := l + [HullEntity(n)];
      l := l + [HullEntity(n + 1)];
      s := s.(hullId0 := Some(h.hull0.id), hullId1 := Some(h.hull1.id));
      s := s.(gapId := Some(h.gap.id));
      l := l + [GapEntity(n + 2)];
      assert l == a.linked[p] + [HullEntity(n), HullEntity(n + 1), GapEntity(n + 2)];
      hulls := hulls[n := h.hull0][n + 1 := h.hull1];
      gaps := gaps[n + 2 := h.gap];
      nextHandle := n + 3;
      state := state[p := s];
      linked := linked[p := l];
      assert Snap() == Attached(a, p, h);
    }

    /** `Update`: one frame of port `p`, returning the signals its item
        sends. */
    method Update(p: nat, converged: bool, settled: bool, ids: FreshIds) returns (sent: seq<Signal>)
      requires Valid() && p < |ports|
      modifies this
      ensures ports == old(ports)
      ensures Tick(Snap(), sent) == AfterUpdate(Cfg(), old(Snap()), p, converged, settled, ids)
      ensures Valid()
    {
      if state[p].target.None? {
        sent := ReportUntargeted(p, converged, settled, ids);
        return;
      }
      ghost var c, a := Cfg(), Snap();
      var t := state[p].target.value;
      if !state[p].docked {
        DockUndockedPort(c, a, p, t);
        Dock(p, t);
      }
      if state[p].joint == DistanceJoint {
        sent := [Signal("0", "state_out")];
        if converged {
          Weld(p, ids);
        }
      } else {
        sent := [Signal("1", "state_out")];
      }
    }

    /** The frame of a port without a target: its `docked` flag is cleared
        once the docking state has settled, and it reports that it is not
        docked and whether another port is in reach. */
    method ReportUntargeted(p: nat, converged: bool, settled: bool, ids: FreshIds) returns (sent: seq<Signal>)
      requires Valid() && p < |ports| && state[p].target.None?
      modifies this`state
      ensures Tick(Snap(), sent) == AfterUpdate(Cfg(), old(Snap()), p, converged, settled, ids)
      ensures Valid()
    {
      if settled {
        SetStateOk(Cfg(), Snap(), p, state[p].(docked := false));
        state := state[p := state[p].(docked := false)];
      }
      sent := [Signal("0", "state_out")];
      var found := FindAdjacent(p);
      sent := sent + [Signal(if found.Some? then "1" else "0", "proximity_sensor")];
    }

    /** The soft joint has pulled the submarines together: the port holds a
        weld joint, and the hulls are created unless either item already
        has some. */
    method Weld(p: nat, ids: FreshIds)
      requires Valid() && p < |ports| && state[p].target.Some?
      modifies this
      ensures ports == old(ports)
      ensures Snap() == Welded(Cfg(), old(Snap()), p, ids)
      ensures Valid()
    {
      ghost var c, m := Cfg(), Snap();
      WeldedOk(c, m, p, ids);
      var t := state[p].target.value;
      SetStateOk(c, m, p, state[p].(joint := WeldJoint));
      state := state[p := state[p].(joint := WeldJoint)];
      if !HasHull(linked[p]) && !HasHull(linked[t]) {
        CreateHull(p, ids);
      }
      assert Snap() == Welded(c, m, p, ids);
    }

    /** `OnMapLoaded`: the hulls and gaps in the item's links are removed,
        each docking-port item met becomes the target, and the links are
        cleared; an empty list is left alone. */
    method OnMapLoaded(p: nat)
      requires Valid() && p < |ports|
      modifies this
      ensures ports == old(ports)
      ensures Snap() == AfterMapLoaded(Cfg(), old(Snap()), p)
      ensures Valid()
    {
      var l := linked[p];
      if |l| == 0 {
        return;
      }
      ghost var c, a := Cfg(), Snap();
      LoadLinked(p, l);
      linked := linked[p := []];
      assert Snap() == AfterMapLoaded(c, a, p);
    }

    /** The loop of `OnMapLoaded` over the links `l`: each hull and each
        gap is removed, each docking-port item met becomes the target. */
    method LoadLinked(p: nat, l: seq<Entity>)
      requires p < |state|
      modifies this`state, this`hulls, this`gaps
      ensures hulls == old(hulls) - HullHandles(l)
      ensures gaps == old(gaps) - GapHandles(l)
      ensures state == old(state)[p := old(state[p]).(target := LoadedTarget(l, old(state[p].target)))]
    {
      ghost var s0, h0, g0 := state[p], hulls, gaps;
      var i := 0;
      while i < |l|
        invariant 0 <= i <= |l|
        invariant hulls == h0 - HullHandles(l[..i])
        invariant gaps == g0 - GapHandles(l[..i])
        invariant state == old(state)[p := s0.(target := LoadedTarget(l[..i], s0.target))]
      {
        LoadStep(l, i, s0.target);
        match l[i] {
          case HullEntity(h) =>
            RemoveOneMore(h0, HullHandles(l[..i]), h);
            hulls := hulls - {h};
          case GapEntity(g) =>
            RemoveOneMore(g0, GapHandles(l[..i]), g);
            gaps := gaps - {g};
          case PortItem(q) =>
            assert state[p := state[p].(target := Some(q))] == old(state)[p := s0.(target := Some(q))];
            state := state[p := state[p].(target := Some(q))];
          case OtherEntity =>
        }
        i := i + 1;
      }
      assert l[..i] == l;
    }

    // -------------------------------------------------------------------
    // Network

    /** `FillNetworkData`: the fields written to `buf`, or `None` when
        writing throws. */
    method FillNetworkData(p: nat, buf: seq<Field>) returns (r: Option<seq<Field>>)
      requires Valid() && p < |ports|
      ensures Written(Cfg(), Snap(), p).None? ==> r.None?
      ensures Written(Cfg(), Snap(), p).Some? ==> r == Some(buf + Encode(Written(Cfg(), Snap(), p).value))
    {
      var s := state[p];
      var out := buf + [BoolField(s.docked)];
      if !s.docked {
        return Some(out);
      }
      if s.target.None? {
        return None;
      }
      out := out + [UInt16Field(ports[s.target.value].itemId)];
      if s.hullId0.None? {
        return None;
      }
      out := out + [UInt16Field(s.hullId0.value)];
      if s.hullId1.None? {
        return None;
      }
      out := out + [UInt16Field(s.hullId1.value)];
      if s.gapId.None? {
        return None;
      }
      out := out + [UInt16Field(s.gapId.value)];
      assert out == buf + Encode(Written(Cfg(), Snap(), p).value);
      return Some(out);
    }

    /** `ReadNetworkData` on port `p`, given the message's fields and what
        `Entity.FindEntityByID` finds for each known identifier. */
    method ReadNetworkData(p: nat, msg: seq<Field>, find: map<U16, Lookup>) returns (outcome: ReadOutcome)
      requires Valid() && p < |ports| && LookupOk(Cfg(), find)
      modifies this
      ensures ports == old(ports)
      ensures ReadResult(Snap(), outcome) == AfterRead(Cfg(), old(Snap()), p, msg, find)
      ensures Valid()
    {
      var isDocked := ReadBoolean(msg, 0);
      if isDocked.None? {
        return BadRead;
      }
      if !isDocked.value {
        Undock(p);
        return Applied;
      }
      var targetId := ReadUInt16(msg, 1);
      if targetId.None? {
        return BadRead;
      }
      if targetId.value !in find {
        return NullTargetEntity;
      }
      match find[targetId.value]
      case NotAnItem =>
        return NotAnItemTarget;
      case ItemWithoutPort =>
        SetStateOk(Cfg(), Snap(), p, state[p].(target := None));
        state := state[p := state[p].(target := None)];
        return NoDockingPort;
      case ItemWithPort(q) =>
        outcome := ReadIdsAndDock(p, q, msg);
    }

    /** `ReadNetworkData` after finding the docking port `q`. */
    method ReadIdsAndDock(p: nat, q: nat, msg: seq<Field>) returns (outcome: ReadOutcome)
      requires Valid() && p < |ports| && q < |ports|
      modifies this
      ensures ports == old(ports)
      ensures ReadResult(Snap(), outcome) == ReadDocked(Cfg(), old(Snap()), p, q, msg)
      ensures Valid()
    {
      ghost var c, a := Cfg(), Snap();
      ghost var b := WithState(a, p, IdsStored(a.state[p].(target := Some(q)), msg));
      SetStateOk(c, a, p, b.state[p]);
      state := state[p := state[p].(target := Some(q))];
      var complete := StoreIds(p, msg);
      assert Snap() == b;
      if !complete {
        return BadRead;
      }
      if state[p].hulls.None? {
        return NullHulls;
      }
      RenamedOk(c, b, p);
      RenameParts(p);
      Dock(p, q);
      return Applied;
    }

    /** The three identifier reads of `ReadNetworkData`, each stored as soon
        as it succeeds; `complete` says all three did. */
    method StoreIds(p: nat, msg: seq<Field>) returns (complete: bool)
      requires p < |state|
      modifies this`state
      ensures complete == ReadIds(msg).Some?
      ensures state == old(state)[p := IdsStored(old(state[p]), msg)]
    {
      var h0 := ReadUInt16(msg, 2);
      if h0.None? {
        return false;
      }
      state := state[p := state[p].(hullId0 := h0)];
      var h1 := ReadUInt16(msg, 3);
      if h1.None? {
        return false;
      }
      state := state[p := state[p].(hullId1 := h1)];
      var g := ReadUInt16(msg, 4);
      if g.None? {
        return false;
      }
      state := state[p := state[p].(gapId := g)];
      return true;
    }

    /** The port's hulls and gap take the identifiers it recorded. */
    method RenameParts(p: nat)
      requires p < |state| && state[p].hulls.Some?
      requires state[p].hullId0.Some? && state[p].hullId1.Some? && state[p].gapId.Some?
      modifies this`hulls, this`gaps
      ensures Snap() == Renamed(old(Snap()), p)
    {
      var s := state[p];
      if s.hulls.value.0 in hulls {
        hulls := hulls[s.hulls.value.0 := hulls[s.hulls.value.0].(id := s.hullId0.value)];
      }
      if s.hulls.value.1 in hulls {
        hulls := hulls[s.hulls.value.1 := hulls[s.hulls.value.1].(id := s.hullId1.value)];
      }
      if s.gap.Some? && s.gap.value in gaps {
        gaps := gaps[s.gap.value := gaps[s.gap.value].(id := s.gapId.value)];
      }
    }
  }
}
