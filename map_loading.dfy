/** `DockingPort.OnMapLoaded`: a port loaded from a saved submarine finds
    in its item's links the hulls and the gap it had created, which it
    removes, and the item of the port it was docked to, which becomes its
    target again; then the links are cleared. */
module MapLoading {
  import opened Wrappers
  import opened DockingModel
  import opened WorldState

  /** The handles of the hulls named in an item's link list. */
  function HullHandles(l: seq<Entity>): set<nat> {
    if |l| == 0 then {}
    else
      var n := |l| - 1;
      HullHandles(l[..n]) + (if l[n].HullEntity? then {l[n].handle} else {})
  }

  /** The handles of the gaps named in an item's link list. */
  function GapHandles(l: seq<Entity>): set<nat> {
    if |l| == 0 then {}
    else
      var n := |l| - 1;
      GapHandles(l[..n]) + (if l[n].GapEntity? then {l[n].handle} else {})
  }

  /** `HullHandles` holds exactly the handles of the hulls in the list. */
  lemma {:induction false} HullHandlesNamed(l: seq<Entity>)
    ensures forall h :: h in HullHandles(l) <==> HullEntity(h) in l
  {
    if |l| > 0 {
      var n := |l| - 1;
      assert l == l[..n] + [l[n]];
      HullHandlesNamed(l[..n]);
    }
  }

  /** `GapHandles` holds exactly the handles of the gaps in the list. */
  lemma {:induction false} GapHandlesNamed(l: seq<Entity>)
    ensures forall h :: h in GapHandles(l) <==> GapEntity(h) in l
  {
    if |l| > 0 {
      var n := |l| - 1;
      assert l == l[..n] + [l[n]];
      GapHandlesNamed(l[..n]);
    }
  }

  /** The target after walking the list with `current` as the target
      before: each docking-port item met replaces it. */
  function LoadedTarget(l: seq<Entity>, current: Option<nat>): (r: Option<nat>)
    ensures r == current || (r.Some? && PortItem(r.value) in l)
  {
    if |l| == 0 then current
    else
      var n := |l| - 1;
      if l[n].PortItem? then Some(l[n].port) else LoadedTarget(l[..n], current)
  }

  /** Without a docking-port item in the list the target is kept. */
  lemma {:induction false} LoadedTargetKept(l: seq<Entity>, current: Option<nat>)
    requires forall k :: 0 <= k < |l| ==> !l[k].PortItem?
    ensures LoadedTarget(l, current) == current
  {
    if |l| > 0 {
      var n := |l| - 1;
      assert forall k :: 0 <= k < n ==> l[..n][k] == l[k];
      LoadedTargetKept(l[..n], current);
    }
  }

  /** The last docking-port item in the list wins. */
  lemma {:induction false} LoadedTargetIsLast(l: seq<Entity>, current: Option<nat>, k: nat)
    requires k < |l| && l[k].PortItem? && forall j :: k < j < |l| ==> !l[j].PortItem?
    ensures LoadedTarget(l, current) == Some(l[k].port)
  {
    var n := |l| - 1;
    if k < n {
      assert forall j :: 0 <= j < n ==> l[..n][j] == l[j];
      LoadedTargetIsLast(l[..n], current, k);
    }
  }

  /** Walking one more entry of the list adds its handle, or replaces the
      target, according to what it is. */
  lemma LoadStep(l: seq<Entity>, i: nat, current: Option<nat>)
    requires i < |l|
    ensures HullHandles(l[..i + 1]) == if l[i].HullEntity? then HullHandles(l[..i]) + {l[i].handle} else HullHandles(l[..i])
    ensures GapHandles(l[..i + 1]) == if l[i].GapEntity? then GapHandles(l[..i]) + {l[i].handle} else GapHandles(l[..i])
    ensures LoadedTarget(l[..i + 1], current) == if l[i].PortItem? then Some(l[i].port) else LoadedTarget(l[..i], current)
  {
    assert l[..i + 1][..i] == l[..i];
  }

  /** Removing keys one at a time is removing them all. */
  lemma RemoveOneMore<K, V>(m: map<K, V>, s: set<K>, k: K)
    ensures m - s - {k} == m - (s + {k})
  {
  }

  /** A target found in a well-formed list is a port of the registry. */
  lemma {:induction false} LoadedTargetExists(l: seq<Entity>, current: Option<nat>, n: nat)
    requires LinkedOk(l, n) && (current.Some? ==> current.value < n)
    ensures LoadedTarget(l, current).Some? ==> LoadedTarget(l, current).value < n
  {
    if |l| > 0 && !l[|l| - 1].PortItem? {
      var m := |l| - 1;
      assert forall k :: 0 <= k < m ==> l[..m][k] == l[k];
      LoadedTargetExists(l[..m], current, n);
    }
  }

  /** The tables after `OnMapLoaded` on port `p`. An empty list leaves
      everything as it is. */
  function AfterMapLoaded(c: Config, a: Snapshot, p: nat): (r: Snapshot)
    requires Consistent(c, a) && p < |c.ports|
    ensures Consistent(c, r)
  {
    var l := a.linked[p];
    if |l| == 0 then a
    else
      var s := a.state[p];
      LoadedTargetExists(l, s.target, |c.ports|);
      SetLinkedOk(a.linked, p, [], |c.ports|);
      var b := a.(state := a.state[p := s.(target := LoadedTarget(l, s.target))]);
      b.(linked := a.linked[p := []], hulls := a.hulls - HullHandles(l), gaps := a.gaps - GapHandles(l))
  }

  /** After loading, the port's links are empty, every hull and gap they
      named is removed and every other one kept, the target is the last
      docking-port item in the links (or kept when there is none), and
      nothing else changes. */
  lemma MapLoadedRemovesParts(c: Config, a: Snapshot, p: nat)
    requires Consistent(c, a) && p < |c.ports|
    ensures var r := AfterMapLoaded(c, a, p);
      var l := a.linked[p];
      && r.linked[p] == []
      && (forall h :: HullEntity(h) in l ==> h !in r.hulls)
      && (forall h :: h in a.hulls && HullEntity(h) !in l ==> h in r.hulls && r.hulls[h] == a.hulls[h])
      && (forall h :: GapEntity(h) in l ==> h !in r.gaps)
      && (forall h :: h in a.gaps && GapEntity(h) !in l ==> h in r.gaps && r.gaps[h] == a.gaps[h])
      && (forall h :: h in r.hulls ==> h in a.hulls)
      && (forall h :: h in r.gaps ==> h in a.gaps)
      && r.state[p] == a.state[p].(target := r.state[p].target)
      && (forall q :: 0 <= q < |c.ports| && q != p ==> r.state[q] == a.state[q] && r.linked[q] == a.linked[q])
      && r.dockedTo == a.dockedTo && r.wpLinks == a.wpLinks
  {
    HullHandlesNamed(a.linked[p]);
    GapHandlesNamed(a.linked[p]);
  }

  /** The target the port ends up with after loading: the last
      docking-port item in the links, or the target it had when there is
      none. */
  lemma MapLoadedTarget(c: Config, a: Snapshot, p: nat)
    requires Consistent(c, a) && p < |c.ports|
    ensures var r := AfterMapLoaded(c, a, p);
      var l := a.linked[p];
      && ((forall k :: 0 <= k < |l| ==> !l[k].PortItem?) ==> r.state[p].target == a.state[p].target)
      && (forall k :: 0 <= k < |l| && l[k].PortItem? && (forall j :: k < j < |l| ==> !l[j].PortItem?) ==>
            r.state[p].target == Some(l[k].port))
  {
    var l := a.linked[p];
    if forall k :: 0 <= k < |l| ==> !l[k].PortItem? {
      LoadedTargetKept(l, a.state[p].target);
    }
    forall k | 0 <= k < |l| && l[k].PortItem? && (forall j :: k < j < |l| ==> !l[j].PortItem?)
      ensures AfterMapLoaded(c, a, p).state[p].target == Some(l[k].port)
    {
      LoadedTargetIsLast(l, a.state[p].target, k);
    }
  }

  /** Loading twice is loading once: the links are empty the second time. */
  lemma MapLoadedIdempotent(c: Config, a: Snapshot, p: nat)
    requires Consistent(c, a) && p < |c.ports|
    ensures AfterMapLoaded(c, AfterMapLoaded(c, a, p), p) == AfterMapLoaded(c, a, p)
  {
  }
}
