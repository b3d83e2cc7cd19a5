/** The values the docking ports work with, and the pure parts of
    `DockingPort`: the proximity search, the waypoint selection of `Dock`,
    and the queries over an item's `linkedTo` list. */
module DockingModel {
  import opened Wrappers
  import opened Numerics
  import opened Lists
  import opened Geometry

  /** The physics joint a port holds: none, the soft `DistanceJoint` of a
      fresh dock, or the rigid `WeldJoint` that replaces it. */
  datatype Joint = NoJoint | DistanceJoint | WeldJoint

  /** What the docking code reads of a port's item and never changes: the
      item's identifier, its submarine, its world position
      (`WorldPosition`), its world rectangle (`WorldRect`) and its rectangle
      relative to its submarine (`Rect`), and the port's configuration
      (`IsHorizontal`, `DistanceTolerance`, `DockedDistance`). */
  datatype PortConfig = PortConfig(
    itemId: U16,
    sub: nat,
    position: Point,
    rect: Rect,
    localRect: Rect,
    isHorizontal: bool,
    tolerance: Point,
    dockedDistance: int)

  /** The fields of one `DockingPort` that the docking code updates. Ports
      are named by their index in the port registry (`DockingPort.list`);
      hulls and gaps by a handle into the world's hull and gap tables. */
  datatype PortState = PortState(
    target: Option<nat>,
    docked: bool,
    dockingDir: int,
    joint: Joint,
    hulls: Option<(nat, nat)>,
    gap: Option<nat>,
    hullId0: Option<U16>,
    hullId1: Option<U16>,
    gapId: Option<U16>)

  /** A freshly constructed port. */
  const NewPort := PortState(None, false, 0, NoJoint, None, None, None, None, None)

  /** A port after `Undock` has torn it down; only `dockingDir` survives. */
  function Cleared(s: PortState): (r: PortState)
    ensures !r.docked && r.target == None && r.joint == NoJoint
    ensures r.hulls == None && r.gap == None
    ensures r.hullId0 == None && r.hullId1 == None && r.gapId == None
    ensures r.dockingDir == s.dockingDir
  {
    s.(target := None, docked := false, joint := NoJoint, hulls := None, gap := None,
       hullId0 := None, hullId1 := None, gapId := None)
  }

  /** An entry of an item's `linkedTo`: the item of a docking port, a hull
      or a gap (by handle), or anything else. */
  datatype Entity = PortItem(port: nat) | HullEntity(handle: nat) | GapEntity(handle: nat) | OtherEntity

  /** A navigation waypoint: its submarine (-1 for none), whether its spawn
      type is `Path`, and its position relative to that submarine
      (`WayPoint.Position`), the frame of a port item's `Rect`. */
  datatype Waypoint = Waypoint(sub: int, isPath: bool, position: Point)

  /** A hull created by `CreateHull`: its rectangle relative to its
      submarine, the submarine, and its entity identifier. */
  datatype Hull = Hull(rect: Rect, sub: nat, id: U16)

  /** A gap created by `CreateHull`: its rectangle relative to its
      submarine, its orientation, its submarine, its identifier and the
      handles of the two hulls it connects, in `linkedTo` order. */
  datatype Gap = Gap(rect: Rect, isHorizontal: bool, sub: nat, id: U16, linkedTo: seq<nat>)

  /** What `Entity.FindEntityByID` finds for an identifier that is known:
      an item that has a docking port, an item without one, or an entity
      that is not an item. */
  datatype Lookup = ItemWithPort(port: nat) | ItemWithoutPort | NotAnItem

  // ---------------------------------------------------------------------
  // Proximity search

  /** Port `q` is a docking candidate for port `p`: another port, on
      another submarine, within `p`'s tolerance on both axes (inclusive). */
  predicate Adjacent(ports: seq<PortConfig>, p: nat, q: nat)
    requires p < |ports| && q < |ports|
  {
    && q != p
    && ports[q].sub != ports[p].sub
    && Abs(ports[q].position.x - ports[p].position.x) <= ports[p].tolerance.x
    && Abs(ports[q].position.y - ports[p].position.y) <= ports[p].tolerance.y
  }

  /** Adjacency is symmetric between two ports with the same tolerance:
      each finds the other. */
  lemma AdjacentSymmetric(ports: seq<PortConfig>, p: nat, q: nat)
    requires p < |ports| && q < |ports| && ports[p].tolerance == ports[q].tolerance
    ensures Adjacent(ports, p, q) <==> Adjacent(ports, q, p)
  {
    var dx, dy := ports[q].position.x - ports[p].position.x, ports[q].position.y - ports[p].position.y;
    assert Abs(-dx) == Abs(dx) && Abs(-dy) == Abs(dy);
  }

  /** `FindAdjacentPort`, scanning the registry from index `from`: the
      first candidate in registry order, or none when there is none. */
  function FindAdjacentPort(ports: seq<PortConfig>, p: nat, from: nat): (r: Option<nat>)
    requires p < |ports| && from <= |ports|
    ensures r.Some? ==>
      && from <= r.value < |ports|
      && Adjacent(ports, p, r.value)
      && forall q :: from <= q < r.value ==> !Adjacent(ports, p, q)
    ensures r.None? <==> forall q :: from <= q < |ports| ==> !Adjacent(ports, p, q)
    decreases |ports| - from
  {
    if from == |ports| then None
    else if Adjacent(ports, p, from) then Some(from)
    else FindAdjacentPort(ports, p, from + 1)
  }

  /** The direction `Dock` records for the initiating port `p` docking to
      `t`: the sign of the x offset to the target (horizontal ports), or of
      the y offset from the target (vertical ports). */
  function DockingDir(ports: seq<PortConfig>, p: nat, t: nat): (d: int)
    requires p < |ports| && t < |ports|
    ensures d == -1 || d == 0 || d == 1
  {
    if ports[p].isHorizontal then Sign(ports[t].position.x - ports[p].position.x)
    else Sign(ports[p].position.y - ports[t].position.y)
  }

  // ---------------------------------------------------------------------
  // An item's linkedTo list

  /** Port items named in the list exist, and each is named at most once
      (`Dock` adds them only when absent). */
  predicate LinkedOk(l: seq<Entity>, n: nat) {
    && (forall k :: 0 <= k < |l| && l[k].PortItem? ==> l[k].port < n)
    && (forall i, j :: 0 <= i < j < |l| && l[i].PortItem? ==> l[i] != l[j])
  }

  /** The item of port `q` is in a well-formed list exactly once. */
  lemma {:induction false} PortItemOnce(l: seq<Entity>, n: nat, q: nat)
    requires LinkedOk(l, n) && PortItem(q) in l
    ensures multiset(l)[PortItem(q)] == 1
  {
    assert l == [l[0]] + l[1..];
    if l[0] == PortItem(q) {
      assert PortItem(q) !in l[1..] by {
        forall j | 0 <= j < |l[1..]| ensures l[1..][j] != PortItem(q) {
          assert l[1..][j] == l[j + 1];
        }
      }
    } else {
      assert LinkedOk(l[1..], n) by {
        forall i, j | 0 <= i < j < |l[1..]| && l[1..][i].PortItem? ensures l[1..][i] != l[1..][j] {
          assert l[1..][i] == l[i + 1] && l[1..][j] == l[j + 1];
        }
      }
      PortItemOnce(l[1..], n, q);
    }
  }

  /** `linkedTo.Any(e => e is Hull)`. */
  predicate HasHull(l: seq<Entity>) {
    exists k :: 0 <= k < |l| && l[k].HullEntity?
  }

  // ---------------------------------------------------------------------
  // Counting docked ports: the measure under which `Undock` terminates

  function CountDocked(s: seq<PortState>): nat {
    if |s| == 0 then 0
    else CountDocked(s[..|s| - 1]) + (if s[|s| - 1].docked then 1 else 0)
  }

  /** Replacing one port changes the count by that port's docked flags. */
  lemma {:induction false} CountDockedUpdate(s: seq<PortState>, i: nat, v: PortState)
    requires i < |s|
    ensures CountDocked(s[i := v]) ==
      CountDocked(s) - (if s[i].docked then 1 else 0) + (if v.docked then 1 else 0)
    decreases |s|
  {
    var n := |s| - 1;
    if i == n {
      assert s[i := v][..n] == s[..n];
    } else {
      assert s[i := v][..n] == s[..n][i := v];
      CountDockedUpdate(s[..n], i, v);
    }
  }
}
