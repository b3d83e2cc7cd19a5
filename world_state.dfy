/** The abstract state of all docking ports of a world, as one value: what
    stays fixed (the port registry, the submarines, the waypoints), and the
    tables the ports change (their fields and the shared lists). Every port
    is an index into the registry (`DockingPort.list`); every hull and gap a
    handle into the world's hull and gap tables. */
module WorldState {
  import opened Wrappers
  import opened Geometry
  import opened DockingModel
  import opened WaypointLinks

  /** What docking never changes: the port registry, per submarine the
      offset `WorldPosition - HiddenSubPosition` from world coordinates to
      the submarine's own, `WayPoint.WayPointList`, and whether `Undock`
      tests the linked waypoint's submarine as intended rather than as
      written (see `WaypointLinks.RemovesLink`). */
  datatype Config = Config(
    ports: seq<PortConfig>,
    subOffsets: seq<Point>,
    waypoints: seq<Waypoint>,
    intendedUnlink: bool)

  /** The tables at one moment: the fields of each port, each port item's
      `linkedTo`, each submarine's `DockedTo` (both additions to it are
      guarded by `Contains`, so it never holds a submarine twice and is kept
      as a set), each waypoint's `linkedTo`, the hulls and gaps the ports
      created, and the next unused hull/gap handle. */
  datatype Snapshot = Snapshot(
    state: seq<PortState>,
    linked: seq<seq<Entity>>,
    dockedTo: seq<set<nat>>,
    wpLinks: seq<seq<nat>>,
    hulls: map<nat, Hull>,
    gaps: map<nat, Gap>,
    nextHandle: nat)

  /** Every port's submarine exists; one state and one item link list per
      port, one `DockedTo` per submarine, one link list per waypoint; and
      every target, port item, waypoint link and handle names something that
      exists. */
  predicate Consistent(c: Config, a: Snapshot) {
    && (forall q :: 0 <= q < |c.ports| ==> c.ports[q].sub < |c.subOffsets|)
    && |a.state| == |c.ports|
    && |a.linked| == |c.ports|
    && |a.dockedTo| == |c.subOffsets|
    && |a.wpLinks| == |c.waypoints|
    && WaypointLinksOk(a.wpLinks)
    && TargetsOk(a.state, |c.ports|)
    && AllLinkedOk(a.linked, |c.ports|)
    && HandlesOk(a.hulls, a.gaps, a.nextHandle)
  }

  predicate TargetsOk(state: seq<PortState>, n: nat) {
    forall q :: 0 <= q < |state| && state[q].target.Some? ==> state[q].target.value < n
  }

  predicate AllLinkedOk(linked: seq<seq<Entity>>, n: nat) {
    forall q :: 0 <= q < |linked| ==> LinkedOk(linked[q], n)
  }

  predicate HandlesOk(hulls: map<nat, Hull>, gaps: map<nat, Gap>, next: nat) {
    && (forall k :: k in hulls ==> k < next)
    && (forall k :: k in gaps ==> k < next)
  }

  // ---------------------------------------------------------------------
  // Undocking only shrinks the tables

  /** From `a` to `b` ports were only undocked: each port is as it was, or
      was docked and is now torn down. */
  predicate StatesShrunk(a: seq<PortState>, b: seq<PortState>) {
    && |b| == |a|
    && forall q :: 0 <= q < |a| ==> b[q] == a[q] || (a[q].docked && b[q] == Cleared(a[q]))
  }

  /** From `a` to `b` nothing was created: ports were only undocked, only
      the item links of ports that were docked were cleared, the submarines'
      `DockedTo` sets and the waypoint links only lost entries, and hulls and
      gaps were only removed. */
  predicate Shrunk(a: Snapshot, b: Snapshot) {
    && StatesShrunk(a.state, b.state)
    && |a.linked| == |a.state| && |b.linked| == |a.linked|
    && (forall q :: 0 <= q < |a.linked| ==> b.linked[q] == a.linked[q] || (a.state[q].docked && b.linked[q] == []))
    && |b.dockedTo| == |a.dockedTo|
    && (forall u :: 0 <= u < |a.dockedTo| ==> b.dockedTo[u] <= a.dockedTo[u])
    && LinksShrunk(a.wpLinks, b.wpLinks)
    && (forall k :: k in b.hulls ==> k in a.hulls && b.hulls[k] == a.hulls[k])
    && (forall k :: k in b.gaps ==> k in a.gaps && b.gaps[k] == a.gaps[k])
    && b.nextHandle == a.nextHandle
  }

  lemma ShrunkTransitive(a: Snapshot, b: Snapshot, c: Snapshot)
    requires Shrunk(a, b) && Shrunk(b, c)
    ensures Shrunk(a, c)
  {
    forall q | 0 <= q < |a.state| ensures c.state[q] == a.state[q] || (a.state[q].docked && c.state[q] == Cleared(a.state[q])) {
      if b.state[q] != a.state[q] {
        assert !b.state[q].docked;
      }
    }
    forall q | 0 <= q < |a.linked| ensures c.linked[q] == a.linked[q] || (a.state[q].docked && c.linked[q] == []) {
      if b.state[q] != a.state[q] {
        assert !b.state[q].docked;
      }
    }
    LinksShrunkTransitive(a.wpLinks, b.wpLinks, c.wpLinks);
  }

  /** Undocking never increases the number of docked ports. */
  lemma {:induction false} ShrunkCount(a: seq<PortState>, b: seq<PortState>)
    requires StatesShrunk(a, b)
    ensures CountDocked(b) <= CountDocked(a)
    decreases |a|
  {
    if |a| > 0 {
      var n := |a| - 1;
      assert StatesShrunk(a[..n], b[..n]) by {
        forall q | 0 <= q < n ensures b[..n][q] == a[..n][q] || (a[..n][q].docked && b[..n][q] == Cleared(a[..n][q])) {
          assert b[..n][q] == b[q] && a[..n][q] == a[q];
        }
      }
      ShrunkCount(a[..n], b[..n]);
    }
  }

  /** Replacing one item link list by a well-formed one keeps all of them
      well formed. */
  lemma SetLinkedOk(linked: seq<seq<Entity>>, p: nat, v: seq<Entity>, n: nat)
    requires AllLinkedOk(linked, n) && p < |linked| && LinkedOk(v, n)
    ensures AllLinkedOk(linked[p := v], n)
  {
    var l := linked[p := v];
    forall q | 0 <= q < |l| ensures LinkedOk(l[q], n) {
      if q != p {
        assert l[q] == linked[q];
      }
    }
  }

  /** Changing the fields of one port, and nothing else that `Consistent`
      constrains, keeps the tables consistent when the new target exists. */
  lemma SetStateOk(c: Config, a: Snapshot, p: nat, s: PortState)
    requires Consistent(c, a) && p < |c.ports|
    requires s.target.Some? ==> s.target.value < |c.ports|
    ensures Consistent(c, a.(state := a.state[p := s]))
  {
  }
}
