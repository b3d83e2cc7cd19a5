/** `DockingPort.CreateHull`: the two hulls and the gap that join two docked
    submarines, their rectangles, identifiers and links. */
module HullCreation {
  import opened Wrappers
  import opened Numerics
  import opened Geometry
  import opened DockingModel
  import opened WorldState

  /** The identifiers the entity registry hands to the next two hulls and
      the next gap, in creation order. */
  datatype FreshIds = FreshIds(hull0: U16, hull1: U16, gap: U16)

  /** The hulls and the gap `CreateHull` makes, before they get handles. */
  datatype NewParts = NewParts(hull0: Hull, hull1: Hull, gap: Gap)

  /** A rectangle stored relative to submarine `sub`, in world coordinates
      (`WorldRect`). */
  function WorldRectOf(c: Config, r: Rect, sub: nat): Rect
    requires sub < |c.subOffsets|
  {
    r.MovedBy(c.subOffsets[sub])
  }

  /** The parts `CreateHull` makes on port `p` docked to `t`, given the
      port's fields `s`, the fresh identifiers and the handle `n` of the
      first hull. The hull rectangles come from the layout of the two port
      rectangles and are made relative to their submarines; in the vertical
      case identifiers received over the network replace the fresh ones. The
      gap lists the hull further left first (horizontal) or the hull higher
      up first (vertical), comparing world rectangles. */
  function Parts(c: Config, s: PortState, p: nat, t: nat, ids: FreshIds, n: nat): (r: NewParts)
    requires p < |c.ports| && t < |c.ports|
    requires c.ports[p].sub < |c.subOffsets| && c.ports[t].sub < |c.subOffsets|
    ensures r.hull0.sub < |c.subOffsets| && r.hull1.sub < |c.subOffsets|
  {
    var own := c.ports[p];
    var horizontal := own.isHorizontal;
    var l := HullLayoutOf(horizontal, own.rect, c.ports[t].rect, own.dockedDistance);
    var sub0 := if l.swapped then c.ports[t].sub else own.sub;
    var sub1 := if l.swapped then own.sub else c.ports[t].sub;
    var r0 := l.hull0.MovedBack(c.subOffsets[sub0]);
    var r1 := l.hull1.MovedBack(c.subOffsets[sub1]);
    var id0 := if !horizontal && s.hullId0.Some? then s.hullId0.value else ids.hull0;
    var id1 := if !horizontal && s.hullId1.Some? then s.hullId1.value else ids.hull1;
    var gid := if !horizontal && s.gapId.Some? then s.gapId.value else ids.gap;
    var w0 := WorldRectOf(c, r0, sub0);
    var w1 := WorldRectOf(c, r1, sub1);
    var order := if horizontal then (if w0.x < w1.x then [n, n + 1] else [n + 1, n])
                 else (if w0.y > w1.y then [n, n + 1] else [n + 1, n]);
    NewParts(Hull(r0, sub0, id0), Hull(r1, sub1, id1), Gap(GapRect(horizontal, r0), horizontal, sub0, gid, order))
  }

  /** Appending hulls and gaps keeps an item link list well formed. */
  lemma AppendPartsOk(l: seq<Entity>, n: nat, k: nat)
    requires LinkedOk(l, n)
    ensures LinkedOk(l + [HullEntity(k), HullEntity(k + 1), GapEntity(k + 2)], n)
  {
    var r := l + [HullEntity(k), HullEntity(k + 1), GapEntity(k + 2)];
    forall i, j | 0 <= i < j < |r| && r[i].PortItem? ensures r[i] != r[j] {
      assert i < |l|;
      if j < |l| {
        assert r[i] == l[i] && r[j] == l[j];
      }
    }
  }

  /** The tables with the parts `h` attached to port `p` under the next
      three handles: the port records them and their identifiers, and its
      item's links gain both hulls and then the gap. */
  function Attached(a: Snapshot, p: nat, h: NewParts): (r: Snapshot)
    requires p < |a.state| && p < |a.linked|
  {
    var n := a.nextHandle;
    a.(state := a.state[p := a.state[p].(hulls := Some((n, n + 1)), gap := Some(n + 2),
         hullId0 := Some(h.hull0.id), hullId1 := Some(h.hull1.id), gapId := Some(h.gap.id))],
       linked := a.linked[p := a.linked[p] + [HullEntity(n), HullEntity(n + 1), GapEntity(n + 2)]],
       hulls := a.hulls[n := h.hull0][n + 1 := h.hull1],
       gaps := a.gaps[n + 2 := h.gap],
       nextHandle := n + 3)
  }

  /** The tables after `CreateHull` on port `p`, which has a target. */
  function AfterCreateHull(c: Config, a: Snapshot, p: nat, ids: FreshIds): (r: Snapshot)
    requires Consistent(c, a) && p < |c.ports| && a.state[p].target.Some?
    ensures Consistent(c, r)
  {
    var h := Parts(c, a.state[p], p, a.state[p].target.value, ids, a.nextHandle);
    AttachedOk(c, a, p, h);
    Attached(a, p, h)
  }

  /** Attaching parts keeps the tables consistent. */
  lemma AttachedOk(c: Config, a: Snapshot, p: nat, h: NewParts)
    requires Consistent(c, a) && p < |c.ports|
    ensures Consistent(c, Attached(a, p, h))
  {
    var n := a.nextHandle;
    AppendPartsOk(a.linked[p], |c.ports|, n);
    SetLinkedOk(a.linked, p, a.linked[p] + [HullEntity(n), HullEntity(n + 1), GapEntity(n + 2)], |c.ports|);
    var r := Attached(a, p, h);
    assert TargetsOk(r.state, |c.ports|) by {
      forall q | 0 <= q < |r.state| && r.state[q].target.Some? ensures r.state[q].target.value < |c.ports| {
        assert r.state[q].target == a.state[q].target;
      }
    }
  }

  /** In world coordinates the hulls are the layout's rectangles and the gap
      is the layout's gap; the first hull and the gap belong to the
      submarine of the port rectangle the layout puts first, the second hull
      to the other's. */
  lemma PartsFollowLayout(c: Config, s: PortState, p: nat, t: nat, ids: FreshIds, n: nat)
    requires p < |c.ports| && t < |c.ports|
    requires c.ports[p].sub < |c.subOffsets| && c.ports[t].sub < |c.subOffsets|
    ensures var h := Parts(c, s, p, t, ids, n);
      var own := c.ports[p];
      var l := HullLayoutOf(own.isHorizontal, own.rect, c.ports[t].rect, own.dockedDistance);
      && WorldRectOf(c, h.hull0.rect, h.hull0.sub) == l.hull0
      && WorldRectOf(c, h.hull1.rect, h.hull1.sub) == l.hull1
      && WorldRectOf(c, h.gap.rect, h.gap.sub) == GapRect(own.isHorizontal, l.hull0)
      && h.hull0.sub == h.gap.sub == (if l.swapped then c.ports[t].sub else own.sub)
      && h.hull1.sub == (if l.swapped then own.sub else c.ports[t].sub)
      && h.gap.isHorizontal == own.isHorizontal
  {
  }

  /** The gap links the two new hulls, the one further left first when
      horizontal and the one higher up first when vertical, comparing world
      rectangles. */
  lemma GapLinksInOrder(c: Config, s: PortState, p: nat, t: nat, ids: FreshIds, n: nat)
    requires p < |c.ports| && t < |c.ports|
    requires c.ports[p].sub < |c.subOffsets| && c.ports[t].sub < |c.subOffsets|
    ensures var h := Parts(c, s, p, t, ids, n);
      var w0 := WorldRectOf(c, h.hull0.rect, h.hull0.sub);
      var w1 := WorldRectOf(c, h.hull1.rect, h.hull1.sub);
      && (h.gap.linkedTo == [n, n + 1] || h.gap.linkedTo == [n + 1, n])
      && (c.ports[p].isHorizontal ==>
            if h.gap.linkedTo[0] == n then w0.x <= w1.x else w1.x <= w0.x)
      && (!c.ports[p].isHorizontal ==>
            if h.gap.linkedTo[0] == n then w0.y >= w1.y else w1.y >= w0.y)
  {
  }

  /** Vertical ports give the new parts the identifiers they were sent,
      when they have them; horizontal ports always take fresh ones. */
  lemma PartsIds(c: Config, s: PortState, p: nat, t: nat, ids: FreshIds, n: nat)
    requires p < |c.ports| && t < |c.ports|
    requires c.ports[p].sub < |c.subOffsets| && c.ports[t].sub < |c.subOffsets|
    ensures var h := Parts(c, s, p, t, ids, n);
      && (c.ports[p].isHorizontal ==> h.hull0.id == ids.hull0 && h.hull1.id == ids.hull1 && h.gap.id == ids.gap)
      && (!c.ports[p].isHorizontal && s.hullId0.Some? ==> h.hull0.id == s.hullId0.value)
      && (!c.ports[p].isHorizontal && s.hullId1.Some? ==> h.hull1.id == s.hullId1.value)
      && (!c.ports[p].isHorizontal && s.gapId.Some? ==> h.gap.id == s.gapId.value)
      && (!c.ports[p].isHorizontal && s.hullId0.None? ==> h.hull0.id == ids.hull0)
  {
  }

  /** Attaching the parts stores them under three handles that were free,
      the port records exactly those handles and the parts' identifiers, and
      its item lists both hulls and then the gap. */
  lemma AttachedRecordsParts(a: Snapshot, p: nat, h: NewParts)
    requires p < |a.state| && p < |a.linked| && HandlesOk(a.hulls, a.gaps, a.nextHandle)
    ensures var r := Attached(a, p, h);
      var n := a.nextHandle;
      && n !in a.hulls && n + 1 !in a.hulls && n + 2 !in a.gaps
      && r.state[p].hulls == Some((n, n + 1)) && r.state[p].gap == Some(n + 2)
      && n in r.hulls && n + 1 in r.hulls && n + 2 in r.gaps
      && r.hulls[n] == h.hull0 && r.hulls[n + 1] == h.hull1 && r.gaps[n + 2] == h.gap
      && r.state[p].hullId0 == Some(r.hulls[n].id)
      && r.state[p].hullId1 == Some(r.hulls[n + 1].id)
      && r.state[p].gapId == Some(r.gaps[n + 2].id)
      && r.linked[p] == a.linked[p] + [HullEntity(n), HullEntity(n + 1), GapEntity(n + 2)]
      && HasHull(r.linked[p])
  {
    var r := Attached(a, p, h);
    assert r.linked[p][|a.linked[p]|] == HullEntity(a.nextHandle);
  }

  /** Attaching the parts to port `p` changes nothing else: the other ports
      and items, the hulls and gaps already there, the port's target, docked
      flag and joint, the submarines and the waypoints. */
  lemma AttachedKeepsRest(a: Snapshot, p: nat, h: NewParts)
    requires p < |a.state| && p < |a.linked| && HandlesOk(a.hulls, a.gaps, a.nextHandle)
    ensures var r := Attached(a, p, h);
      && |r.state| == |a.state| && |r.linked| == |a.linked|
      && (forall q :: 0 <= q < |a.state| && q != p ==> r.state[q] == a.state[q])
      && (forall q :: 0 <= q < |a.linked| && q != p ==> r.linked[q] == a.linked[q])
      && (forall k :: k in a.hulls ==> k in r.hulls && r.hulls[k] == a.hulls[k])
      && (forall k :: k in a.gaps ==> k in r.gaps && r.gaps[k] == a.gaps[k])
      && r.dockedTo == a.dockedTo && r.wpLinks == a.wpLinks
      && r.state[p].target == a.state[p].target && r.state[p].docked == a.state[p].docked
      && r.state[p].joint == a.state[p].joint
  {
  }
}
