/**
 * The packet envelope (internal/netcode/packs): the three packet types, the
 * table from one-byte tags to packet types, and the envelope a packet
 * travels in: its tag, a 16-bit sequence number from the sender's
 * round-trip tracker, and the packet encoded by packbuf.
 */
module Packs {
  import opened Wrappers
  import opened Wire
  import opened Packbuf
  import opened Ent
  import opened Rtt
  import PackbufWrite
  import PackbufRead

  /** One frame of client input: the frame number and the buttons held (embedded PlayerInput). */
  datatype ClientFrameInput = ClientFrameInput(frame: uint16, input: PlayerInput)

  /** What the server tells every client about one player each frame. */
  datatype PlayerState = PlayerState(netId: uint16, x: f32, y: f32, hspeed: f32, vspeed: f32, dirLeft: bool)

  datatype Packet =
    | AckPacket(sequenceIds: seq<uint16>)
    | ClientPlayerPacket(inputBuffer: seq<ClientFrameInput>)
    | ServerWorldStatePacket(myNetId: uint16, lastSimulatedInputFrame: uint16, players: seq<PlayerState>)

  datatype PacketType = AckType | ClientPlayerType | WorldStateType

  function TypeOf(p: Packet): PacketType
  {
    match p
    case AckPacket(_) => AckType
    case ClientPlayerPacket(_) => ClientPlayerType
    case ServerWorldStatePacket(_, _, _) => WorldStateType
  }

  /** The ID() of each packet type: its tag on the wire. */
  function Id(t: PacketType): byte
  {
    match t
    case AckType => 1
    case ClientPlayerType => 2
    case WorldStateType => 3
  }

  /** packetIDToType once the three init functions have run. */
  const StandardTable: map<byte, PacketType> := map[1 := AckType, 2 := ClientPlayerType, 3 := WorldStateType]

  /** The tags are distinct, 0 is not one of them, and the table maps each tag back to its type. */
  lemma StandardTableSpec()
    ensures 0 !in StandardTable
    ensures forall t :: Id(t) in StandardTable && StandardTable[Id(t)] == t
    ensures forall id :: id in StandardTable ==> Id(StandardTable[id]) == id
    ensures forall t, u :: Id(t) == Id(u) ==> t == u
  {
  }

  /** The table packetIDToType, filled by register during package initialisation. */
  class Registry {
    var table: map<byte, PacketType>

    /** The package's init functions: Ack, ClientPlayer, WorldState, in that order. */
    constructor ()
      ensures table == StandardTable
    {
      table := map[];
      new;
      var p := Register(AckType);
      p := Register(ClientPlayerType);
      p := Register(WorldStateType);
    }

    /** register: adds a type under its tag, and panics when the tag is already taken. */
    method Register(t: PacketType) returns (panicked: bool)
      modifies this
      ensures panicked <==> Id(t) in old(table)
      ensures table == if panicked then old(table) else old(table)[Id(t) := t]
    {
      if Id(t) in table {
        return true;
      }
      table := table[Id(t) := t];
      return false;
    }
  }

  // ---------------------------------------------------------------- schemas

  const FrameInputKind: Kind := Struct([Field("Frame", true, Uint16), Field("PlayerInput", true, InputKind)])

  const PlayerStateKind: Kind := Struct([
    Field("NetID", true, Uint16),
    Field("X", true, Float32),
    Field("Y", true, Float32),
    Field("Hspeed", true, Float32),
    Field("Vspeed", true, Float32),
    Field("DirLeft", true, Bool)])

  /** The record layout of each packet type. */
  function Schema(t: PacketType): (k: Kind)
    ensures k.Struct?
  {
    match t
    case AckType => Struct([Field("SequenceIDList", true, Slice(Uint16))])
    case ClientPlayerType => Struct([Field("InputBuffer", true, Slice(FrameInputKind))])
    case WorldStateType => Struct([
      Field("MyNetID", true, Uint16),
      Field("LastSimulatedInputFrame", true, Uint16),
      Field("Players", true, Slice(PlayerStateKind))])
  }

  function FrameInputValue(f: ClientFrameInput): (v: Value)
    ensures HasKind(v, FrameInputKind) && Encodable(FrameInputKind, v)
  {
    StructV([UintV(f.frame), InputValue(f.input)])
  }

  lemma FrameInputShape(v: Value)
    requires HasKind(v, FrameInputKind)
    ensures v.StructV? && |v.fields| == 2 && v.fields[0].UintV? && v.fields[0].u < 0x1_0000
    ensures HasKind(v.fields[1], InputKind)
  {
    assert Pow256(2) == 0x1_0000;
    assert forall i :: 0 <= i < 2 ==> HasKind(v.fields[i], FrameInputKind.fields[i].kind);
  }

  function FrameInputOf(v: Value): ClientFrameInput
    requires HasKind(v, FrameInputKind)
  {
    FrameInputShape(v);
    ClientFrameInput(v.fields[0].u, InputOf(v.fields[1]))
  }

  /** FrameInputValue and FrameInputOf are inverse bijections. */
  lemma FrameInputRoundTrip(f: ClientFrameInput, v: Value)
    requires HasKind(v, FrameInputKind)
    ensures FrameInputOf(FrameInputValue(f)) == f
    ensures FrameInputValue(FrameInputOf(v)) == v
  {
    FrameInputShape(v);
    InputValueRoundTrip(f.input, v.fields[1]);
    assert v.fields == [v.fields[0], v.fields[1]];
  }

  function PlayerStateValue(s: PlayerState): (v: Value)
    ensures HasKind(v, PlayerStateKind) && Encodable(PlayerStateKind, v)
  {
    var v := StructV([UintV(s.netId), FloatV(s.x), FloatV(s.y), FloatV(s.hspeed), FloatV(s.vspeed), BoolV(s.dirLeft)]);
    PlayerStateKinded(v);
    v
  }

  /** A value of PlayerState's shape, field by field, is a well-typed, encodable PlayerState value. */
  lemma PlayerStateKinded(v: Value)
    requires v.StructV? && |v.fields| == 6
    requires v.fields[0].UintV? && v.fields[0].u < 0x1_0000
    requires forall i :: 1 <= i < 5 ==> v.fields[i].FloatV? && v.fields[i].bits < 0x1_0000_0000
    requires v.fields[5].BoolV?
    ensures HasKind(v, PlayerStateKind) && Encodable(PlayerStateKind, v)
  {
    assert Pow256(2) == 0x1_0000 && Pow256(4) == 0x1_0000_0000;
    assert forall i :: 0 <= i < 6 ==> HasKind(v.fields[i], PlayerStateKind.fields[i].kind);
  }

  lemma PlayerStateShape(v: Value)
    requires HasKind(v, PlayerStateKind)
    ensures v.StructV? && |v.fields| == 6
    ensures v.fields[0].UintV? && v.fields[0].u < 0x1_0000
    ensures forall i :: 1 <= i < 5 ==> v.fields[i].FloatV? && v.fields[i].bits < 0x1_0000_0000
    ensures v.fields[5].BoolV?
  {
    assert Pow256(2) == 0x1_0000 && Pow256(4) == 0x1_0000_0000;
    assert forall i :: 0 <= i < 6 ==> HasKind(v.fields[i], PlayerStateKind.fields[i].kind);
  }

  function PlayerStateOf(v: Value): PlayerState
    requires HasKind(v, PlayerStateKind)
  {
    PlayerStateShape(v);
    var f := v.fields;
    PlayerState(f[0].u, f[1].bits, f[2].bits, f[3].bits, f[4].bits, f[5].b)
  }

  /** PlayerStateValue and PlayerStateOf are inverse bijections. */
  lemma PlayerStateRoundTrip(s: PlayerState, v: Value)
    requires HasKind(v, PlayerStateKind)
    ensures PlayerStateOf(PlayerStateValue(s)) == s
    ensures PlayerStateValue(PlayerStateOf(v)) == v
  {
    PlayerStateShape(v);
    assert v.fields == [v.fields[0], v.fields[1], v.fields[2], v.fields[3], v.fields[4], v.fields[5]];
  }

  /** The values of a list of 16-bit numbers. */
  function UintValues(ns: seq<uint16>): (es: seq<Value>)
    ensures |es| == |ns| && forall i :: 0 <= i < |ns| ==> es[i] == UintV(ns[i]) && HasKind(es[i], Uint16)
  {
    assert Pow256(2) == 0x1_0000;
    seq(|ns|, i requires 0 <= i < |ns| => UintV(ns[i]))
  }

  /** The 16-bit numbers a list of Uint16 values holds. */
  function UintsOf(es: seq<Value>): (ns: seq<uint16>)
    requires forall i :: 0 <= i < |es| ==> HasKind(es[i], Uint16)
    ensures |ns| == |es| && forall i :: 0 <= i < |es| ==> UintV(ns[i]) == es[i]
  {
    UintsShape(es);
    seq(|es|, i requires 0 <= i < |es| => es[i].u)
  }

  lemma UintsShape(es: seq<Value>)
    requires forall i :: 0 <= i < |es| ==> HasKind(es[i], Uint16)
    ensures forall i :: 0 <= i < |es| ==> es[i].UintV? && es[i].u < 0x1_0000
  {
    assert Pow256(2) == 0x1_0000;
    forall i | 0 <= i < |es|
      ensures es[i].UintV? && es[i].u < 0x1_0000
    {
      assert HasKind(es[i], Uint16);
    }
  }

  function FrameInputValues(fs: seq<ClientFrameInput>): (es: seq<Value>)
    ensures |es| == |fs| && forall i :: 0 <= i < |fs| ==> es[i] == FrameInputValue(fs[i])
  {
    seq(|fs|, i requires 0 <= i < |fs| => FrameInputValue(fs[i]))
  }

  function FrameInputsOf(es: seq<Value>): (fs: seq<ClientFrameInput>)
    requires forall i :: 0 <= i < |es| ==> HasKind(es[i], FrameInputKind)
    ensures |fs| == |es| && forall i :: 0 <= i < |es| ==> fs[i] == FrameInputOf(es[i])
  {
    seq(|es|, i requires 0 <= i < |es| => FrameInputOf(es[i]))
  }

  function PlayerStateValues(ps: seq<PlayerState>): (es: seq<Value>)
    ensures |es| == |ps| && forall i :: 0 <= i < |ps| ==> es[i] == PlayerStateValue(ps[i])
  {
    seq(|ps|, i requires 0 <= i < |ps| => PlayerStateValue(ps[i]))
  }

  function PlayerStatesOf(es: seq<Value>): (ps: seq<PlayerState>)
    requires forall i :: 0 <= i < |es| ==> HasKind(es[i], PlayerStateKind)
    ensures |ps| == |es| && forall i :: 0 <= i < |es| ==> ps[i] == PlayerStateOf(es[i])
  {
    seq(|es|, i requires 0 <= i < |es| => PlayerStateOf(es[i]))
  }

  /** A packet as a codec value of its type's schema. */
  function PacketValue(p: Packet): (v: Value)
    ensures HasKind(v, Schema(TypeOf(p)))
  {
    match p
    case AckPacket(ids) =>
      AckShaped(UintValues(ids));
      StructV([SliceV(UintValues(ids))])
    case ClientPlayerPacket(inputs) =>
      ClientPlayerShaped(FrameInputValues(inputs));
      StructV([SliceV(FrameInputValues(inputs))])
    case ServerWorldStatePacket(me, last, players) =>
      WorldStateShaped(me, last, PlayerStateValues(players));
      StructV([UintV(me), UintV(last), SliceV(PlayerStateValues(players))])
  }

  /** The packet a codec value of the schema of t stands for. */
  function PacketOf(t: PacketType, v: Value): (p: Packet)
    requires HasKind(v, Schema(t))
    ensures TypeOf(p) == t
  {
    match t
    case AckType =>
      AckShape(v);
      AckPacket(UintsOf(v.fields[0].elems))
    case ClientPlayerType =>
      ClientPlayerShape(v);
      ClientPlayerPacket(FrameInputsOf(v.fields[0].elems))
    case WorldStateType =>
      WorldStateShape(v);
      ServerWorldStatePacket(v.fields[0].u, v.fields[1].u, PlayerStatesOf(v.fields[2].elems))
  }

  lemma AckShaped(es: seq<Value>)
    requires forall i :: 0 <= i < |es| ==> HasKind(es[i], Uint16)
    ensures HasKind(StructV([SliceV(es)]), Schema(AckType))
  {
  }

  lemma AckShape(v: Value)
    requires HasKind(v, Schema(AckType))
    ensures v.StructV? && |v.fields| == 1 && v.fields[0].SliceV?
    ensures forall i :: 0 <= i < |v.fields[0].elems| ==> HasKind(v.fields[0].elems[i], Uint16)
  {
    assert HasKind(v.fields[0], Slice(Uint16));
  }

  lemma ClientPlayerShaped(es: seq<Value>)
    requires forall i :: 0 <= i < |es| ==> HasKind(es[i], FrameInputKind)
    ensures HasKind(StructV([SliceV(es)]), Schema(ClientPlayerType))
  {
  }

  lemma ClientPlayerShape(v: Value)
    requires HasKind(v, Schema(ClientPlayerType))
    ensures v.StructV? && |v.fields| == 1 && v.fields[0].SliceV?
    ensures forall i :: 0 <= i < |v.fields[0].elems| ==> HasKind(v.fields[0].elems[i], FrameInputKind)
  {
    assert HasKind(v.fields[0], Slice(FrameInputKind));
  }

  lemma WorldStateShaped(me: uint16, last: uint16, es: seq<Value>)
    requires forall i :: 0 <= i < |es| ==> HasKind(es[i], PlayerStateKind)
    ensures HasKind(StructV([UintV(me), UintV(last), SliceV(es)]), Schema(WorldStateType))
  {
    assert Pow256(2) == 0x1_0000;
    var fs := [UintV(me), UintV(last), SliceV(es)];
    assert forall i :: 0 <= i < 3 ==> HasKind(fs[i], Schema(WorldStateType).fields[i].kind);
  }

  lemma WorldStateShape(v: Value)
    requires HasKind(v, Schema(WorldStateType))
    ensures v.StructV? && |v.fields| == 3
    ensures v.fields[0].UintV? && v.fields[0].u < 0x1_0000
    ensures v.fields[1].UintV? && v.fields[1].u < 0x1_0000
    ensures v.fields[2].SliceV?
    ensures forall i :: 0 <= i < |v.fields[2].elems| ==> HasKind(v.fields[2].elems[i], PlayerStateKind)
  {
    assert Pow256(2) == 0x1_0000;
    var k := Schema(WorldStateType);
    assert forall i :: 0 <= i < 3 ==> HasKind(v.fields[i], k.fields[i].kind);
  }

  /** PacketValue and PacketOf are inverse bijections between packets and well-typed values. */
  lemma PacketValueRoundTrip(p: Packet, t: PacketType, v: Value)
    requires HasKind(v, Schema(t))
    ensures PacketOf(TypeOf(p), PacketValue(p)) == p
    ensures PacketValue(PacketOf(t, v)) == v
  {
    PacketOfValue(p);
    match t
    case AckType => AckValueOf(v);
    case ClientPlayerType => ClientPlayerValueOf(v);
    case WorldStateType => WorldStateValueOf(v);
  }

  lemma PacketOfValue(p: Packet)
    ensures PacketOf(TypeOf(p), PacketValue(p)) == p
  {
    match p
    case AckPacket(ids) =>
      assert UintsOf(UintValues(ids)) == ids;
    case ClientPlayerPacket(inputs) =>
      var es := FrameInputValues(inputs);
      forall i | 0 <= i < |inputs|
        ensures FrameInputsOf(es)[i] == inputs[i]
      {
        FrameInputRoundTrip(inputs[i], es[i]);
      }
      assert FrameInputsOf(es) == inputs;
    case ServerWorldStatePacket(_, _, players) =>
      var es := PlayerStateValues(players);
      forall i | 0 <= i < |players|
        ensures PlayerStatesOf(es)[i] == players[i]
      {
        PlayerStateRoundTrip(players[i], es[i]);
      }
      assert PlayerStatesOf(es) == players;
  }

  lemma AckValueOf(v: Value)
    requires HasKind(v, Schema(AckType))
    ensures PacketValue(PacketOf(AckType, v)) == v
  {
    AckShape(v);
    var es := v.fields[0].elems;
    assert UintValues(UintsOf(es)) == es;
    assert v == StructV([SliceV(es)]);
  }

  lemma ClientPlayerValueOf(v: Value)
    requires HasKind(v, Schema(ClientPlayerType))
    ensures PacketValue(PacketOf(ClientPlayerType, v)) == v
  {
    ClientPlayerShape(v);
    var es := v.fields[0].elems;
    var fs := FrameInputsOf(es);
    forall i | 0 <= i < |es|
      ensures FrameInputValues(fs)[i] == es[i]
    {
      FrameInputRoundTrip(fs[i], es[i]);
    }
    assert FrameInputValues(fs) == es;
    assert v == StructV([SliceV(es)]);
  }

  lemma WorldStateValueOf(v: Value)
    requires HasKind(v, Schema(WorldStateType))
    ensures PacketValue(PacketOf(WorldStateType, v)) == v
  {
    WorldStateShape(v);
    var es := v.fields[2].elems;
    var ps := PlayerStatesOf(es);
    forall i | 0 <= i < |es|
      ensures PlayerStateValues(ps)[i] == es[i]
    {
      PlayerStateRoundTrip(ps[i], es[i]);
    }
    assert PlayerStateValues(ps) == es;
    assert v == StructV([v.fields[0], v.fields[1], SliceV(es)]);
  }

  /** Each list of the packet has at most 2^31 - 1 entries, so its int32 count does not wrap. */
  predicate FitsOnWire(p: Packet)
  {
    match p
    case AckPacket(ids) => |ids| <= MaxSliceCount
    case ClientPlayerPacket(inputs) => |inputs| <= MaxSliceCount
    case ServerWorldStatePacket(_, _, players) => |players| <= MaxSliceCount
  }

  /** Every packet can be written; one that fits on the wire can also be read back. */
  lemma PacketEncodable(p: Packet)
    ensures Writable(Schema(TypeOf(p)), PacketValue(p))
    ensures EncodeValue(Schema(TypeOf(p)), PacketValue(p)).Ok?
    ensures FitsOnWire(p) ==> Encodable(Schema(TypeOf(p)), PacketValue(p))
  {
    match p {
      case AckPacket(ids) => AckEncodable(ids);
      case ClientPlayerPacket(inputs) => ClientPlayerEncodable(inputs);
      case ServerWorldStatePacket(me, last, players) => WorldStateEncodable(me, last, players);
    }
  }

  lemma AckEncodable(ids: seq<uint16>)
    ensures var p := AckPacket(ids);
            && Writable(Schema(AckType), PacketValue(p))
            && EncodeValue(Schema(AckType), PacketValue(p)).Ok?
            && (FitsOnWire(p) ==> Encodable(Schema(AckType), PacketValue(p)))
  {
    var v := PacketValue(AckPacket(ids));
    assert Writable(Schema(AckType), v);
    WritesIff(Schema(AckType), v);
  }

  lemma ClientPlayerEncodable(inputs: seq<ClientFrameInput>)
    ensures var p := ClientPlayerPacket(inputs);
            && Writable(Schema(ClientPlayerType), PacketValue(p))
            && EncodeValue(Schema(ClientPlayerType), PacketValue(p)).Ok?
            && (FitsOnWire(p) ==> Encodable(Schema(ClientPlayerType), PacketValue(p)))
  {
    var k := Schema(ClientPlayerType);
    var es := FrameInputValues(inputs);
    var v := StructV([SliceV(es)]);
    assert PacketValue(ClientPlayerPacket(inputs)) == v;
    SliceEncodable(FrameInputKind, es);
    assert Writable(k, v);
    WritesIff(k, v);
    if |inputs| <= MaxSliceCount {
      assert Encodable(k, v);
    }
  }

  lemma WorldStateEncodable(me: uint16, last: uint16, players: seq<PlayerState>)
    ensures var p := ServerWorldStatePacket(me, last, players);
            && Writable(Schema(WorldStateType), PacketValue(p))
            && EncodeValue(Schema(WorldStateType), PacketValue(p)).Ok?
            && (FitsOnWire(p) ==> Encodable(Schema(WorldStateType), PacketValue(p)))
  {
    var es := PlayerStateValues(players);
    assert PacketValue(ServerWorldStatePacket(me, last, players)) == StructV([UintV(me), UintV(last), SliceV(es)]);
    assert Pow256(2) == 0x1_0000;
    SliceEncodable(PlayerStateKind, es);
    HeaderSliceEncodable(["MyNetID", "LastSimulatedInputFrame", "Players"], PlayerStateKind, UintV(me), UintV(last), es);
  }

  /** A record of two uint16 fields and a list of encodable records, with any field names. */
  lemma HeaderSliceEncodable(names: seq<string>, e: Kind, a: Value, b: Value, es: seq<Value>)
    requires |names| == 3 && HasKind(a, Uint16) && HasKind(b, Uint16)
    requires HasKind(SliceV(es), Slice(e)) && Writable(Slice(e), SliceV(es))
    ensures var k := Struct([Field(names[0], true, Uint16), Field(names[1], true, Uint16), Field(names[2], true, Slice(e))]);
            var v := StructV([a, b, SliceV(es)]);
            && HasKind(v, k) && Writable(k, v) && EncodeValue(k, v).Ok?
            && (Encodable(Slice(e), SliceV(es)) ==> Encodable(k, v))
  {
    var k := Struct([Field(names[0], true, Uint16), Field(names[1], true, Uint16), Field(names[2], true, Slice(e))]);
    var v := StructV([a, b, SliceV(es)]);
    assert HasKind(v, k);
    assert Writable(k, v);
    WritesIff(k, v);
  }

  /** A list of encodable records is writable, and encodable while its count fits in an int32. */
  lemma SliceEncodable(e: Kind, es: seq<Value>)
    requires e.Struct?
    requires forall i :: 0 <= i < |es| ==> HasKind(es[i], e) && Encodable(e, es[i])
    ensures HasKind(SliceV(es), Slice(e)) && Writable(Slice(e), SliceV(es))
    ensures |es| <= MaxSliceCount ==> Encodable(Slice(e), SliceV(es))
  {
    forall i | 0 <= i < |es|
      ensures EncodableElem(e, es[i]) && WritableElem(e, es[i])
    {
      EncodableIsWritable(e, es[i]);
    }
  }

  // ---------------------------------------------------------------- envelope

  /** The packbuf encoding of a packet's record. */
  function Body(p: Packet): (b: seq<byte>)
  {
    PacketEncodable(p);
    Encode(Schema(TypeOf(p)), PacketValue(p)).value
  }

  /** Write: the tag, the sequence number as 2 little-endian bytes, then the record. */
  function EncodePacket(seqId: uint16, p: Packet): (b: seq<byte>)
    ensures |b| >= 3 && b[0] == Id(TypeOf(p)) && FromLE(b[1..3]) == seqId && b[3..] == Body(p)
  {
    var b := [Id(TypeOf(p))] + LE16(seqId) + Body(p);
    assert b[1..3] == LE16(seqId);
    b
  }

  datatype Received = Received(seqId: uint16, packet: Packet)

  datatype PacketError = Codec(error: CodecError) | InvalidPacketId(id: byte)

  /** The outcome of one Read and where it leaves the stream. */
  datatype Parsed = Parsed(result: Result<Received, PacketError>, pos: nat)

  /**
   * Read: the tag, the sequence number, then a fresh zero packet of the
   * tag's type filled by packbuf. The first error ends the read.
   */
  function ParsePacket(table: map<byte, PacketType>, data: seq<byte>, pos: nat): (r: Parsed)
    requires pos <= |data|
    ensures pos <= r.pos <= |data|
    ensures pos < |data| ==> pos < r.pos
    ensures r.result.Ok? ==> pos < |data| && data[pos] in table && TypeOf(r.result.value.packet) == table[data[pos]]
  {
    var id := ReadFixed(data, pos, 1);
    if id.result.Err? then Parsed(Err(Codec(id.result.error)), id.pos)
    else
      var tag := id.result.value[0];
      if tag !in table then Parsed(Err(InvalidPacketId(tag)), id.pos)
      else
        var s := ReadFixed(data, id.pos, 2);
        if s.result.Err? then Parsed(Err(Codec(s.result.error)), s.pos)
        else
          var t := table[tag];
          var body := Decode(Schema(t), Zero(Schema(t)), data, s.pos);
          if body.result.Err? then Parsed(Err(Codec(body.result.error)), body.pos)
          else Parsed(Ok(Received(FromLE(s.result.value), PacketOf(t, body.result.value))), body.pos)
  }

  /** An exhausted stream reads as EOF, and reading consumes nothing. */
  lemma ParseAtEnd(table: map<byte, PacketType>, data: seq<byte>)
    ensures ParsePacket(table, data, |data|) == Parsed(Err(Codec(EOF)), |data|)
  {
  }

  /** An unregistered tag is InvalidPacketID, after consuming only the tag byte. */
  lemma ParseUnknownTag(table: map<byte, PacketType>, data: seq<byte>, pos: nat)
    requires pos < |data| && data[pos] !in table
    ensures ParsePacket(table, data, pos) == Parsed(Err(InvalidPacketId(data[pos])), pos + 1)
  {
  }

  /** Read after Write: the packet and the sequence number come back, and the cursor is just past them. */
  lemma PacketRoundTrip(seqId: uint16, p: Packet, data: seq<byte>, pos: nat)
    requires FitsOnWire(p) && At(data, pos, EncodePacket(seqId, p))
    ensures ParsePacket(StandardTable, data, pos) == Parsed(Ok(Received(seqId, p)), pos + |EncodePacket(seqId, p)|)
  {
    var b := EncodePacket(seqId, p);
    var t := TypeOf(p);
    var k := Schema(t);
    var v := PacketValue(p);
    assert data[pos..pos + |b|] == b;
    assert data[pos] == b[0];
    assert Id(t) in StandardTable && StandardTable[Id(t)] == t by {
      StandardTableSpec();
    }
    assert data[pos + 1..pos + 3] == b[1..3] by {
      assert |b| >= 3;
      assert data[pos + 1] == b[1] && data[pos + 2] == b[2];
    }
    assert Decode(k, Zero(k), data, pos + 3) == Packbuf.Read(Ok(v), pos + |b|) by {
      assert At(data, pos + 3, b[3..]) by {
        assert data[pos + 3..pos + |b|] == b[3..];
      }
      PacketEncodable(p);
      RoundTrip(k, v, data, pos + 3);
    }
    assert PacketOf(t, v) == p by {
      PacketValueRoundTrip(p, t, v);
    }
    ParseWellFormed(StandardTable, data, pos, t, v, pos + |b|);
  }

  /** A packet whose tag is registered and whose record decodes is read with the sequence number between them. */
  lemma ParseWellFormed(table: map<byte, PacketType>, data: seq<byte>, pos: nat, t: PacketType, v: Value, end: nat)
    requires pos + 3 <= |data| && data[pos] in table && table[data[pos]] == t
    requires Decode(Schema(t), Zero(Schema(t)), data, pos + 3) == Packbuf.Read(Ok(v), end)
    ensures ParsePacket(table, data, pos) == Parsed(Ok(Received(FromLE(data[pos + 1..pos + 3]), PacketOf(t, v))), end)
  {
    assert data[pos..pos + 1] == [data[pos]];
  }

  /**
   * Two writes through one tracker, then two reads: both packets come back
   * in order, the second with the next sequence number, and the stream is
   * then exhausted.
   */
  lemma TwoPacketsRoundTrip(s: TrackerState, now: int, p: Packet, q: Packet)
    requires FitsOnWire(p) && FitsOnWire(q)
    ensures var b1 := EncodePacket(s.sequenceId, p);
            var b2 := EncodePacket(NextState(s, now).sequenceId, q);
            var data := b1 + b2;
            && ParsePacket(StandardTable, data, 0) == Parsed(Ok(Received(s.sequenceId, p)), |b1|)
            && ParsePacket(StandardTable, data, |b1|) == Parsed(Ok(Received((s.sequenceId + 1) % 0x1_0000, q)), |data|)
            && ParsePacket(StandardTable, data, |data|) == Parsed(Err(Codec(EOF)), |data|)
  {
    var next := NextState(s, now).sequenceId;
    assert next == (s.sequenceId + 1) % 0x1_0000;
    PacketsInOrder(s.sequenceId, p, next, q, EncodePacket(s.sequenceId, p) + EncodePacket(next, q));
  }

  /** Two envelopes back to back read as the two packets, then EOF. */
  lemma PacketsInOrder(seq1: uint16, p: Packet, seq2: uint16, q: Packet, data: seq<byte>)
    requires FitsOnWire(p) && FitsOnWire(q)
    requires data == EncodePacket(seq1, p) + EncodePacket(seq2, q)
    ensures ParsePacket(StandardTable, data, 0) == Parsed(Ok(Received(seq1, p)), |EncodePacket(seq1, p)|)
    ensures ParsePacket(StandardTable, data, |EncodePacket(seq1, p)|) == Parsed(Ok(Received(seq2, q)), |data|)
    ensures ParsePacket(StandardTable, data, |data|) == Parsed(Err(Codec(EOF)), |data|)
  {
    var b1 := EncodePacket(seq1, p);
    var b2 := EncodePacket(seq2, q);
    assert data[0..|data|] == data;
    AtSplit(data, 0, b1, b2);
    PacketAt(seq1, p, data, 0, |b1|);
    PacketAt(seq2, q, data, |b1|, |data|);
    ParseAtEnd(StandardTable, data);
  }

  /** PacketRoundTrip, with the end of the packet given. */
  lemma PacketAt(seqId: uint16, p: Packet, data: seq<byte>, pos: nat, end: nat)
    requires FitsOnWire(p) && At(data, pos, EncodePacket(seqId, p)) && end == pos + |EncodePacket(seqId, p)|
    ensures ParsePacket(StandardTable, data, pos) == Parsed(Ok(Received(seqId, p)), end)
  {
    PacketRoundTrip(seqId, p, data, pos);
  }

  // ---------------------------------------------------------------- methods

  /**
   * Write: stamps the packet with the tracker's next sequence number and
   * appends the envelope. It never fails: every packet type can be written.
   */
  method Write(w: PackbufWrite.Buffer, tracker: RoundTripTracking, p: Packet, now: int) returns (err: Option<CodecError>)
    requires tracker.Valid()
    modifies w, tracker, tracker.packetSequenceList
    ensures tracker.Valid() && tracker.State() == NextState(old(tracker.State()), now)
    ensures err.None? && w.data == old(w.data) + EncodePacket(old(tracker.packetSequenceId), p)
  {
    ghost var st := tracker.State();
    w.Write([Id(TypeOf(p))]);
    var seqId := tracker.Next(now);
    w.Write(LE16(seqId));
    assert tracker.State() == NextState(st, now);
    err := WriteBody(w, p);
    Append3(old(w.data), [Id(TypeOf(p))], LE16(seqId), Body(p));
  }

  lemma Append3(s: seq<byte>, a: seq<byte>, b: seq<byte>, c: seq<byte>)
    ensures s + a + b + c == s + (a + b + c)
  {
  }

  /** The packbuf half of Write: the packet's record, which always encodes. */
  method WriteBody(w: PackbufWrite.Buffer, p: Packet) returns (err: Option<CodecError>)
    modifies w
    ensures err.None? && w.data == old(w.data) + Body(p)
  {
    PacketEncodable(p);
    err := PackbufWrite.WriteRecord(w, Schema(TypeOf(p)), PacketValue(p));
  }

  /** Read: one packet from the stream, through the registry's table. */
  method Read(reg: Registry, r: PackbufRead.Reader) returns (res: Result<Received, PacketError>)
    requires r.Valid()
    modifies r
    ensures r.Valid() && Parsed(res, r.pos) == ParsePacket(reg.table, r.data, old(r.pos))
  {
    var id := r.ReadFull(1);
    if id.Err? {
      return Err(Codec(id.error));
    }
    var tag := id.value[0];
    if tag !in reg.table {
      return Err(InvalidPacketId(tag));
    }
    var s := r.ReadFull(2);
    if s.Err? {
      return Err(Codec(s.error));
    }
    var t := reg.table[tag];
    var body := PackbufRead.ReadRecord(r, Schema(t), Zero(Schema(t)));
    if body.Err? {
      return Err(Codec(body.error));
    }
    return Ok(Received(FromLE(s.value), PacketOf(t, body.value)));
  }
}
