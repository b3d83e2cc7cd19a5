/** `DockingPort.FillNetworkData` and `ReadNetworkData`: the server sends
    whether the port is docked and, if so, the identifiers of the target's
    item, of the two hulls and of the gap; a client applies them to its copy
    of the port and docks it. */
module NetworkSync {
  import opened Wrappers
  import opened Numerics
  import opened DockingModel
  import opened WorldState
  import opened Undocking
  import opened Docking
  import opened DockMessages

  /** The message `FillNetworkData` writes for port `p`, or `None` when
      writing throws: a docked port without a target has no target item to
      name, and a missing hull or gap identifier cannot be cast to
      `ushort`. */
  function Written(c: Config, a: Snapshot, p: nat): (r: Option<DockMessage>)
    requires Consistent(c, a) && p < |c.ports|
    ensures r == Some(UndockedMessage) <==> !a.state[p].docked
    ensures r.Some? && r.value.DockedMessage? ==>
      && a.state[p].target.Some? && r.value.targetItemId == c.ports[a.state[p].target.value].itemId
      && a.state[p].hullId0 == Some(r.value.hullId0) && a.state[p].hullId1 == Some(r.value.hullId1)
      && a.state[p].gapId == Some(r.value.gapId)
  {
    var s := a.state[p];
    if !s.docked then Some(UndockedMessage)
    else if s.target.None? || s.hullId0.None? || s.hullId1.None? || s.gapId.None? then None
    else Some(DockedMessage(c.ports[s.target.value].itemId, s.hullId0.value, s.hullId1.value, s.gapId.value))
  }

  /** How `ReadNetworkData` ends: it applied the message; a read ran past
      the message or met a field of another type; the target identifier
      names no entity (the error message then dereferences null); it names
      something that is not an item; it names an item without a docking
      port; or the port has no hull array yet (dereferenced to rename the
      hulls). */
  datatype ReadOutcome = Applied | BadRead | NullTargetEntity | NotAnItemTarget | NoDockingPort | NullHulls

  datatype ReadResult = ReadResult(after: Snapshot, outcome: ReadOutcome)

  /** `Entity.FindEntityByID` on the receiving side, for the identifiers it
      knows: every docking port it finds is in the registry. */
  predicate LookupOk(c: Config, find: map<U16, Lookup>) {
    forall id :: id in find && find[id].ItemWithPort? ==> find[id].port < |c.ports|
  }

  /** Replace the fields of port `p`. */
  function WithState(a: Snapshot, p: nat, s: PortState): (r: Snapshot)
    requires p < |a.state|
  {
    a.(state := a.state[p := s])
  }

  /** The hull with handle `h` gets identifier `id`, if it exists. */
  function RenameHull(hulls: map<nat, Hull>, h: nat, id: U16): (r: map<nat, Hull>)
    ensures r.Keys == hulls.Keys
  {
    if h in hulls then hulls[h := hulls[h].(id := id)] else hulls
  }

  /** The hulls and the gap of port `p` take the identifiers recorded on
      it. */
  function Renamed(a: Snapshot, p: nat): (r: Snapshot)
    requires p < |a.state|
    requires a.state[p].hulls.Some? && a.state[p].hullId0.Some? && a.state[p].hullId1.Some? && a.state[p].gapId.Some?
    ensures r.hulls.Keys == a.hulls.Keys && r.gaps.Keys == a.gaps.Keys
  {
    var s := a.state[p];
    var hs := RenameHull(RenameHull(a.hulls, s.hulls.value.0, s.hullId0.value), s.hulls.value.1, s.hullId1.value);
    var g := s.gap;
    a.(hulls := hs,
       gaps := if g.Some? && g.value in a.gaps then a.gaps[g.value := a.gaps[g.value].(id := s.gapId.value)] else a.gaps)
  }

  /** Renaming the parts keeps the tables consistent. */
  lemma RenamedOk(c: Config, a: Snapshot, p: nat)
    requires Consistent(c, a) && p < |a.state|
    requires a.state[p].hulls.Some? && a.state[p].hullId0.Some? && a.state[p].hullId1.Some? && a.state[p].gapId.Some?
    ensures Consistent(c, Renamed(a, p))
  {
  }

  /** The fields of a port after `ReadNetworkData` has read the three
      identifiers into them: each read that succeeds is stored before the
      next is tried, so a failing read keeps those read before it. */
  function IdsStored(s: PortState, msg: seq<Field>): (r: PortState)
    ensures r == s.(hullId0 := r.hullId0, hullId1 := r.hullId1, gapId := r.gapId)
    ensures ReadIds(msg).Some? ==>
      r == s.(hullId0 := Some(ReadIds(msg).value.0), hullId1 := Some(ReadIds(msg).value.1), gapId := Some(ReadIds(msg).value.2))
    ensures ReadUInt16(msg, 2).None? ==> r == s
  {
    match ReadUInt16(msg, 2)
    case None => s
    case Some(h0) =>
      var s1 := s.(hullId0 := Some(h0));
      match ReadUInt16(msg, 3)
      case None => s1
      case Some(h1) =>
        var s2 := s1.(hullId1 := Some(h1));
        match ReadUInt16(msg, 4)
        case None => s2
        case Some(g) => s2.(gapId := Some(g))
  }

  /** What `ReadNetworkData` does on port `p` after finding the docking
      port `q`: it becomes the target, the three identifiers are read and
      stored, the hulls and the gap are renamed, and the port docks to
      `q`. */
  function ReadDocked(c: Config, a: Snapshot, p: nat, q: nat, msg: seq<Field>): (r: ReadResult)
    requires Consistent(c, a) && p < |c.ports| && q < |c.ports|
    ensures Consistent(c, r.after)
  {
    var s := IdsStored(a.state[p].(target := Some(q)), msg);
    SetStateOk(c, a, p, s);
    var b := WithState(a, p, s);
    if ReadIds(msg).None? then ReadResult(b, BadRead)
    else if s.hulls.None? then ReadResult(b, NullHulls)
    else ReadResult(AfterDock(c, Renamed(b, p), p, q), Applied)
  }

  /** `ReadNetworkData` on port `p`, given the message's fields and what the
      receiving side's registry finds for each known identifier. */
  function AfterRead(c: Config, a: Snapshot, p: nat, msg: seq<Field>, find: map<U16, Lookup>): (r: ReadResult)
    requires Consistent(c, a) && p < |c.ports| && LookupOk(c, find)
    ensures Consistent(c, r.after)
  {
    match ReadBoolean(msg, 0)
    case None => ReadResult(a, BadRead)
    case Some(false) => ReadResult(AfterUndock(c, a, p), Applied)
    case Some(true) =>
      match ReadUInt16(msg, 1)
      case None => ReadResult(a, BadRead)
      case Some(id) =>
        if id !in find then ReadResult(a, NullTargetEntity)
        else match find[id]
          case NotAnItem => ReadResult(a, NotAnItemTarget)
          case ItemWithoutPort =>
            SetStateOk(c, a, p, a.state[p].(target := None));
            ReadResult(WithState(a, p, a.state[p].(target := None)), NoDockingPort)
          case ItemWithPort(q) => ReadDocked(c, a, p, q, msg)
  }

  /** The message written is exactly what the reader decodes: the reads
      follow the writes field by field. */
  lemma WrittenDecodes(c: Config, a: Snapshot, p: nat, rest: seq<Field>)
    requires Consistent(c, a) && p < |c.ports| && Written(c, a, p).Some?
    ensures Decode(Encode(Written(c, a, p).value) + rest) == Written(c, a, p)
  {
    DecodeEncode(Written(c, a, p).value, rest);
  }

  /** A port is written as docked exactly when it is docked with a target
      and all three identifiers; the message names the target's item and
      carries the port's identifiers. */
  lemma WrittenSaysDocked(c: Config, a: Snapshot, p: nat)
    requires Consistent(c, a) && p < |c.ports|
    ensures var s := a.state[p];
      && (Written(c, a, p) == Some(UndockedMessage) <==> !s.docked)
      && (Written(c, a, p).None? <==>
            s.docked && (s.target.None? || s.hullId0.None? || s.hullId1.None? || s.gapId.None?))
      && (Written(c, a, p).Some? && Written(c, a, p).value.DockedMessage? ==>
            && s.docked && s.target.Some?
            && Written(c, a, p).value.targetItemId == c.ports[s.target.value].itemId
            && Some(Written(c, a, p).value.hullId0) == s.hullId0
            && Some(Written(c, a, p).value.hullId1) == s.hullId1
            && Some(Written(c, a, p).value.gapId) == s.gapId)
  {
  }

  /** Only a well-formed message is applied: whenever the reader applies
      a message, it decodes. */
  lemma AppliedDecodes(c: Config, a: Snapshot, p: nat, msg: seq<Field>, find: map<U16, Lookup>)
    requires Consistent(c, a) && p < |c.ports| && LookupOk(c, find)
    requires AfterRead(c, a, p, msg, find).outcome == Applied
    ensures Decode(msg).Some?
    ensures Decode(msg) == Some(UndockedMessage) ==> AfterRead(c, a, p, msg, find).after == AfterUndock(c, a, p)
  {
  }

  /** An undocked message undocks the reader. */
  lemma ReadUndocked(c: Config, a: Snapshot, p: nat, rest: seq<Field>, find: map<U16, Lookup>)
    requires Consistent(c, a) && p < |c.ports| && LookupOk(c, find)
    ensures AfterRead(c, a, p, Encode(UndockedMessage) + rest, find) == ReadResult(AfterUndock(c, a, p), Applied)
  {
  }

  /** A docked message naming an item the reader cannot find, or finds but
      which is not an item, leaves the reader as it was. */
  lemma ReadUnknownTarget(c: Config, a: Snapshot, p: nat, m: DockMessage, rest: seq<Field>, find: map<U16, Lookup>)
    requires Consistent(c, a) && p < |c.ports| && LookupOk(c, find) && m.DockedMessage?
    requires m.targetItemId !in find || find[m.targetItemId] == NotAnItem
    ensures var r := AfterRead(c, a, p, Encode(m) + rest, find);
      && r.after == a
      && r.outcome == (if m.targetItemId !in find then NullTargetEntity else NotAnItemTarget)
  {
    DecodeEncode(m, rest);
    assert (Encode(m) + rest)[1] == UInt16Field(m.targetItemId);
  }

  /** A docked message naming an item without a docking port clears the
      reader's target and nothing else. */
  lemma ReadItemWithoutPort(c: Config, a: Snapshot, p: nat, m: DockMessage, rest: seq<Field>, find: map<U16, Lookup>)
    requires Consistent(c, a) && p < |c.ports| && LookupOk(c, find) && m.DockedMessage?
    requires m.targetItemId in find && find[m.targetItemId] == ItemWithoutPort
    ensures var r := AfterRead(c, a, p, Encode(m) + rest, find);
      && r.outcome == NoDockingPort
      && r.after == a.(state := a.state[p := a.state[p].(target := None)])
  {
    assert (Encode(m) + rest)[0] == BoolField(true);
    assert (Encode(m) + rest)[1] == UInt16Field(m.targetItemId);
  }

  /** Port `p` after reading a docked message `m` that names port `q`, up
      to the renaming and the dock: `q` is the target and the message's
      identifiers are recorded. */
  function Received(a: Snapshot, p: nat, q: nat, m: DockMessage): (r: Snapshot)
    requires p < |a.state| && m.DockedMessage?
  {
    WithState(a, p, a.state[p].(target := Some(q), hullId0 := Some(m.hullId0), hullId1 := Some(m.hullId1), gapId := Some(m.gapId)))
  }

  /** Reading a whole docked message that names a docking port: the port
      records the target and the identifiers, then either fails on its
      missing hull array or renames its parts and docks. */
  lemma ReadDockedMessage(c: Config, a: Snapshot, p: nat, m: DockMessage, rest: seq<Field>, find: map<U16, Lookup>)
    requires Consistent(c, a) && p < |c.ports| && LookupOk(c, find) && m.DockedMessage?
    requires m.targetItemId in find && find[m.targetItemId].ItemWithPort?
    ensures var q := find[m.targetItemId].port;
      var r := AfterRead(c, a, p, Encode(m) + rest, find);
      var b := Received(a, p, q, m);
      && Consistent(c, b)
      && (a.state[p].hulls.None? ==> r == ReadResult(b, NullHulls))
      && (a.state[p].hulls.Some? ==> r == ReadResult(AfterDock(c, Renamed(b, p), p, q), Applied))
  {
    var q := find[m.targetItemId].port;
    var msg := Encode(m) + rest;
    assert msg[0] == BoolField(true) && msg[1] == UInt16Field(m.targetItemId);
    assert msg[2] == UInt16Field(m.hullId0) && msg[3] == UInt16Field(m.hullId1) && msg[4] == UInt16Field(m.gapId);
    SetStateOk(c, a, p, Received(a, p, q, m).state[p]);
  }

  /** A port that is not docked and already has its hulls, reading a docked
      message that names port `q`, applies it completely: `q` becomes its
      target, it keeps the message's identifiers, its hulls and gap carry
      them, and it docks to `q` unless its submarine already lists `q`'s or
      `q` is on its own submarine. */
  lemma ReadAppliesIds(c: Config, a: Snapshot, p: nat, m: DockMessage, rest: seq<Field>, find: map<U16, Lookup>)
    requires Consistent(c, a) && p < |c.ports| && LookupOk(c, find) && m.DockedMessage?
    requires m.targetItemId in find && find[m.targetItemId].ItemWithPort?
    requires !a.state[p].docked && a.state[p].hulls.Some?
    ensures var q := find[m.targetItemId].port;
      var r := AfterRead(c, a, p, Encode(m) + rest, find);
      var hs := a.state[p].hulls.value;
      && r.outcome == Applied
      && r.after.state[p].target == Some(q)
      && r.after.state[p].hullId0 == Some(m.hullId0)
      && r.after.state[p].hullId1 == Some(m.hullId1)
      && r.after.state[p].gapId == Some(m.gapId)
      && (hs.1 in a.hulls ==> hs.1 in r.after.hulls && r.after.hulls[hs.1].id == m.hullId1)
      && (hs.0 in a.hulls && hs.0 != hs.1 ==> hs.0 in r.after.hulls && r.after.hulls[hs.0].id == m.hullId0)
      && (a.state[p].gap.Some? && a.state[p].gap.value in a.gaps ==>
            a.state[p].gap.value in r.after.gaps && r.after.gaps[a.state[p].gap.value].id == m.gapId)
      && (c.ports[q].sub !in a.dockedTo[c.ports[p].sub] && c.ports[q].sub != c.ports[p].sub ==>
            DockedPair(c, r.after, p, q))
  {
    var q := find[m.targetItemId].port;
    ReadDockedMessage(c, a, p, m, rest, find);
    var b := Renamed(Received(a, p, q, m), p);
    assert Consistent(c, b);
    DockUndockedPort(c, b, p, q);
    if c.ports[q].sub !in b.dockedTo[c.ports[p].sub] && c.ports[q].sub != c.ports[p].sub {
      LinkUpKeepsParts(c, b, p, q);
      LinkUpDocksPair(c, b, p, q);
    }
  }

  /** A client port that has never created its hulls fails on reading a
      docked message: it records the target and the identifiers but does
      not dock. */
  lemma ReadWithoutHullsDoesNotDock(c: Config, a: Snapshot, p: nat, m: DockMessage, rest: seq<Field>, find: map<U16, Lookup>)
    requires Consistent(c, a) && p < |c.ports| && LookupOk(c, find) && m.DockedMessage?
    requires m.targetItemId in find && find[m.targetItemId].ItemWithPort?
    requires a.state[p].hulls.None?
    ensures var r := AfterRead(c, a, p, Encode(m) + rest, find);
      && r.outcome == NullHulls
      && r.after.state[p].docked == a.state[p].docked
      && r.after.state[p].target == Some(find[m.targetItemId].port)
      && r.after.linked == a.linked && r.after.dockedTo == a.dockedTo && r.after.wpLinks == a.wpLinks
  {
    ReadDockedMessage(c, a, p, m, rest, find);
  }

  /** What one machine writes for a docked port, another applies: when the
      reader finds the target's item as its port `q`, is not docked and has
      its hulls, it ends up targeting `q` with the writer's identifiers. */
  lemma WriteThenRead(cw: Config, aw: Snapshot, pw: nat, c: Config, a: Snapshot, p: nat, rest: seq<Field>, find: map<U16, Lookup>)
    requires Consistent(cw, aw) && pw < |cw.ports| && Written(cw, aw, pw).Some? && aw.state[pw].docked
    requires Consistent(c, a) && p < |c.ports| && LookupOk(c, find)
    requires var id := cw.ports[aw.state[pw].target.value].itemId;
      id in find && find[id].ItemWithPort?
    requires !a.state[p].docked && a.state[p].hulls.Some?
    ensures var m := Written(cw, aw, pw).value;
      var q := find[cw.ports[aw.state[pw].target.value].itemId].port;
      var r := AfterRead(c, a, p, Encode(m) + rest, find);
      && r.outcome == Applied
      && r.after.state[p].target == Some(q)
      && r.after.state[p].hullId0 == aw.state[pw].hullId0
      && r.after.state[p].hullId1 == aw.state[pw].hullId1
      && r.after.state[p].gapId == aw.state[pw].gapId
  {
    ReadAppliesIds(c, a, p, Written(cw, aw, pw).value, rest, find);
  }
}
