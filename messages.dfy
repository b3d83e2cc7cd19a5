/** The docking port's network message, as an ordered sequence of typed
    fields (the bit layout of the networking library is not modelled). */
module DockMessages {
  import opened Wrappers
  import opened Numerics

  /** One field written with `message.Write(bool)` or
      `message.Write(ushort)`. */
  datatype Field = BoolField(b: bool) | UInt16Field(v: U16)

  /** What the message says: the port is undocked, or docked to the item
      with the given identifier, with the given hull and gap identifiers. */
  datatype DockMessage =
    | UndockedMessage
    | DockedMessage(targetItemId: U16, hullId0: U16, hullId1: U16, gapId: U16)

  /** The fields in the order `FillNetworkData` writes them. */
  function Encode(m: DockMessage): (r: seq<Field>)
    ensures |r| == if m.DockedMessage? then 5 else 1
    ensures r[0] == BoolField(m.DockedMessage?)
  {
    match m
    case UndockedMessage => [BoolField(false)]
    case DockedMessage(t, h0, h1, g) =>
      [BoolField(true), UInt16Field(t), UInt16Field(h0), UInt16Field(h1), UInt16Field(g)]
  }

  /** `message.ReadBoolean()` at read position `pos`: fails past the end of
      the message or on a field of another type. */
  function ReadBoolean(msg: seq<Field>, pos: nat): (r: Option<bool>)
    ensures forall b :: r == Some(b) <==> pos < |msg| && msg[pos] == BoolField(b)
  {
    if pos < |msg| && msg[pos].BoolField? then Some(msg[pos].b) else None
  }

  /** `message.ReadUInt16()` at read position `pos`. */
  function ReadUInt16(msg: seq<Field>, pos: nat): (r: Option<U16>)
    ensures forall v :: r == Some(v) <==> pos < |msg| && msg[pos] == UInt16Field(v)
  {
    if pos < |msg| && msg[pos].UInt16Field? then Some(msg[pos].v) else None
  }

  /** The three identifiers `ReadNetworkData` reads after the target's. */
  function ReadIds(msg: seq<Field>): (r: Option<(U16, U16, U16)>)
    ensures forall h0, h1, g :: r == Some((h0, h1, g)) <==>
      5 <= |msg| && msg[2..5] == [UInt16Field(h0), UInt16Field(h1), UInt16Field(g)]
  {
    match (ReadUInt16(msg, 2), ReadUInt16(msg, 3), ReadUInt16(msg, 4))
    case (Some(h0), Some(h1), Some(g)) => Some((h0, h1, g))
    case _ => None
  }

  /** The message as `ReadNetworkData` reads it: the flag, then, if it is
      set, the target identifier and the three identifiers. */
  function Decode(msg: seq<Field>): (r: Option<DockMessage>)
    ensures r.Some? ==> |Encode(r.value)| <= |msg| && msg[..|Encode(r.value)|] == Encode(r.value)
  {
    match ReadBoolean(msg, 0)
    case None => None
    case Some(false) => Some(UndockedMessage)
    case Some(true) =>
      match (ReadUInt16(msg, 1), ReadIds(msg))
      case (Some(t), Some((h0, h1, g))) => Some(DockedMessage(t, h0, h1, g))
      case _ => None
  }

  /** The reader consumes the fields in the order the writer produces
      them: whatever follows the message in the buffer does not matter. */
  lemma DecodeEncode(m: DockMessage, rest: seq<Field>)
    ensures Decode(Encode(m) + rest) == Some(m)
  {
  }

  /** Two different messages never have the same fields. */
  lemma EncodeInjective(m1: DockMessage, m2: DockMessage)
    requires Encode(m1) == Encode(m2)
    ensures m1 == m2
  {
    DecodeEncode(m1, []);
    DecodeEncode(m2, []);
    assert Encode(m1) + [] == Encode(m1) && Encode(m2) + [] == Encode(m2);
  }
}
