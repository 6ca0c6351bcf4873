/**
 * The server's network tick (internal/netcode/server): one game connection
 * per transport slot. Each tick reclaims the slots whose transport
 * disconnected and gives a player to each newly connected one, reads every
 * packet each client sent, picks the input to simulate for each player, and
 * broadcasts the world to every client.
 */
module Server {
  import opened Wrappers
  import opened Wire
  import opened Seqs
  import opened Ent
  import opened Rtt
  import opened Packs
  import opened Netconst
  import W = World
  import T = WebrtcServer
  import Client
  import Packbuf
  import PackbufWrite
  import PackbufRead

  // ------------------------------------------------------------ slot identifiers

  /** The ID of slot i: uint16(i) + 1, with the 16-bit wrap-around. */
  function SlotId(i: nat): (id: uint16)
    ensures i < 0xffff ==> id == i + 1
    ensures id == 0 <==> i % 0x1_0000 == 0xffff
  {
    (i % 0x1_0000 + 1) % 0x1_0000
  }

  /** The first 65535 slots have the distinct nonzero IDs 1, 2, …; slot 65535 wraps to 0, the panic case. */
  lemma SlotIdSpec(i: nat, j: nat)
    ensures i < 0xffff ==> SlotId(i) == i + 1 && SlotId(i) != 0
    ensures i == 0xffff ==> SlotId(i) == 0
    ensures i < j < 0x1_0000 ==> SlotId(i) != SlotId(j)
  {
  }

  // ------------------------------------------------------------ ingesting packets

  /** What the read loop of one connection accumulates: its ack list, its tracker and its stored inputs. */
  datatype Inbox = Inbox(acks: seq<uint16>, tracker: TrackerState, inputs: seq<ClientFrameInput>)

  /** Whether a batch replaces the stored inputs: it is non-empty, and its last frame is after the stored last frame, if any. */
  predicate Accepts(stored: seq<ClientFrameInput>, batch: seq<ClientFrameInput>)
  {
    && batch != []
    && (stored != [] ==> IsWrappedUInt16GreaterThan(batch[|batch| - 1].frame, stored[|stored| - 1].frame))
  }

  /** One packet handled, and whether it closes the connection. */
  datatype Step = Step(inbox: Inbox, close: bool)

  /**
   * One decoded packet: every packet but an Ack is acknowledged; an Ack
   * acknowledges its sequence numbers to the tracker; an input batch over
   * MaxServerInputBuffer closes the connection, and otherwise replaces the
   * stored inputs when Accepts; a world state is only logged.
   */
  function Take(s: Inbox, r: Received, now: int): (o: Step)
    ensures o.inbox.acks == s.acks + (if r.packet.AckPacket? then [] else [r.seqId])
    ensures o.inbox.tracker == if r.packet.AckPacket? then AckAll(s.tracker, r.packet.sequenceIds, now) else s.tracker
    ensures o.close <==> r.packet.ClientPlayerPacket? && |r.packet.inputBuffer| > MaxServerInputBuffer
    ensures o.inbox.inputs == if r.packet.ClientPlayerPacket? && !o.close && Accepts(s.inputs, r.packet.inputBuffer)
                              then r.packet.inputBuffer else s.inputs
  {
    var acks := if r.packet.AckPacket? then s.acks else s.acks + [r.seqId];
    match r.packet
    case AckPacket(ids) => Step(Inbox(acks, AckAll(s.tracker, ids, now), s.inputs), false)
    case ClientPlayerPacket(batch) =>
      if |batch| > MaxServerInputBuffer then Step(s.(acks := acks), true)
      else if batch == [] then Step(s.(acks := acks), false)
      else if s.inputs != [] then
        if IsWrappedUInt16GreaterThan(batch[|batch| - 1].frame, s.inputs[|s.inputs| - 1].frame)
        then Step(s.(acks := acks, inputs := batch), false)
        else Step(s.(acks := acks), false)
      else Step(s.(acks := acks, inputs := batch), false)
    case ServerWorldStatePacket(_, _, _) => Step(s.(acks := acks), false)
  }

  /** How the reading of one connection stopped. */
  datatype FrameEnd =
    | EndOfFrame  // io.EOF: the frame is used up
    | Closed      // an oversized batch closed the connection
    | Crashed     // the decoder panicked: the whole server goes down

  datatype Ingested = Ingested(inbox: Inbox, end: FrameEnd)

  /**
   * What reading keeps: the ack list only grows; the tracker's counter and
   * ring stay; a stored input list within MaxServerInputBuffer stays within
   * it; and once inputs are stored they are never emptied.
   */
  predicate Keeps(s: Inbox, o: Inbox)
  {
    && s.acks <= o.acks
    && o.tracker.sequenceId == s.tracker.sequenceId && o.tracker.ring == s.tracker.ring
    && (|s.inputs| <= MaxServerInputBuffer ==> |o.inputs| <= MaxServerInputBuffer)
    && (s.inputs != [] ==> o.inputs != [])
  }

  /**
   * The inner read loop over one frame from pos, with the frames queued
   * after it in rest: EOF ends the frame and reading goes on with rest, a
   * decoder panic crashes the server, an oversized batch closes the
   * connection, and any other read error is logged and reading goes on.
   */
  function IngestFrom(table: map<byte, PacketType>, s: Inbox, data: seq<byte>, pos: nat, rest: seq<seq<byte>>, now: int): (r: Ingested)
    requires pos <= |data|
    ensures Keeps(s, r.inbox)
    decreases |rest| + 1, 0, |data| - pos
  {
    ParseAtEnd(table, data);
    var r := ParsePacket(table, data, pos);
    match r.result
    case Err(e) =>
      if e == Codec(Packbuf.EOF) then (if rest == [] then Ingested(s, EndOfFrame) else IngestFrames(table, s, rest, now))
      else if e == Codec(Packbuf.Panic) then Ingested(s, Crashed)
      else IngestFrom(table, s, data, r.pos, rest, now)
    case Ok(rcv) =>
      var st := Take(s, rcv, now);
      if st.close then Ingested(st.inbox, Closed) else IngestFrom(table, st.inbox, data, r.pos, rest, now)
  }

  /** The outer read loop: frame after frame, until the queue is empty or reading stops early. */
  function IngestFrames(table: map<byte, PacketType>, s: Inbox, frames: seq<seq<byte>>, now: int): (r: Ingested)
    ensures Keeps(s, r.inbox)
    decreases |frames|, 1, 0
  {
    if frames == [] then Ingested(s, EndOfFrame) else IngestFrom(table, s, frames[0], 0, frames[1..], now)
  }

  /** The inner read loop over one frame alone. */
  function IngestFrame(table: map<byte, PacketType>, s: Inbox, data: seq<byte>, pos: nat, now: int): (r: Ingested)
    requires pos <= |data|
    ensures Keeps(s, r.inbox)
  {
    IngestFrom(table, s, data, pos, [], now)
  }

  /** Reading on past the end of a frame is reading that frame alone, then the frames after it. */
  lemma {:induction false} IngestFromSplit(table: map<byte, PacketType>, s: Inbox, data: seq<byte>, pos: nat, rest: seq<seq<byte>>, now: int)
    requires pos <= |data|
    ensures var o := IngestFrame(table, s, data, pos, now);
            IngestFrom(table, s, data, pos, rest, now) == if o.end == EndOfFrame then IngestFrames(table, o.inbox, rest, now) else o
    decreases |data| - pos
  {
    ParseAtEnd(table, data);
    var r := ParsePacket(table, data, pos);
    match r.result
    case Err(e) =>
      if e != Codec(Packbuf.EOF) && e != Codec(Packbuf.Panic) {
        IngestFromSplit(table, s, data, r.pos, rest, now);
      }
    case Ok(rcv) =>
      var st := Take(s, rcv, now);
      if !st.close {
        IngestFromSplit(table, st.inbox, data, r.pos, rest, now);
      }
  }

  /** The outer loop reads the first frame; unless that stops reading, it goes on with the others. */
  lemma IngestFramesStep(table: map<byte, PacketType>, s: Inbox, frames: seq<seq<byte>>, now: int)
    requires frames != []
    ensures var o := IngestFrame(table, s, frames[0], 0, now);
            IngestFrames(table, s, frames, now) == if o.end != EndOfFrame then o else IngestFrames(table, o.inbox, frames[1..], now)
  {
    IngestFromSplit(table, s, frames[0], 0, frames[1..], now);
  }

  /**
   * Client to server: one send of the client, read by the server, is
   * acknowledged (the input packet only), its acks reach the tracker, and
   * its batch, which never exceeds the cap, is stored when Accepts.
   */
  lemma ClientSendIngested(seqId: uint16, acks: seq<uint16>, buf: seq<ClientFrameInput>, s: Inbox, now: int)
    requires |acks| <= Packbuf.MaxSliceCount
    ensures var batch := Client.Batch(buf);
            var inputSeq := if acks == [] then seqId else (seqId + 1) % 0x1_0000;
            var t := if acks == [] then s.tracker else AckAll(s.tracker, acks, now);
            IngestFrame(StandardTable, s, Client.Outgoing(seqId, acks, buf), 0, now)
              == Ingested(Inbox(s.acks + [inputSeq], t, if Accepts(s.inputs, batch) then batch else s.inputs), EndOfFrame)
  {
    Client.OutgoingParses(seqId, acks, buf);
    var data := Client.Outgoing(seqId, acks, buf);
    var batch := ClientPlayerPacket(Client.Batch(buf));
    ParseAtEnd(StandardTable, data);
    if acks == [] {
      var st := Take(s, Received(seqId, batch), now);
      assert IngestFrame(StandardTable, s, data, 0, now) == IngestFrame(StandardTable, st.inbox, data, |data|, now);
    } else {
      var n := |EncodePacket(seqId, AckPacket(acks))|;
      var st1 := Take(s, Received(seqId, AckPacket(acks)), now);
      var st2 := Take(st1.inbox, Received((seqId + 1) % 0x1_0000, batch), now);
      assert IngestFrame(StandardTable, s, data, 0, now) == IngestFrame(StandardTable, st1.inbox, data, n, now);
      assert IngestFrame(StandardTable, st1.inbox, data, n, now) == IngestFrame(StandardTable, st2.inbox, data, |data|, now);
    }
  }

  // ------------------------------------------------------------ choosing the input to simulate

  /** The result of the scan: the input found, and whether a frame 0 closed the connection. */
  datatype Selection = Selection(found: Option<ClientFrameInput>, close: bool)

  /**
   * The scan of the stored inputs: the first one after the last simulated
   * frame is kept; a frame 0 closes the connection and ends the scan.
   */
  function SelectInput(inputs: seq<ClientFrameInput>, last: uint16): (r: Selection)
    ensures r.close <==> exists k :: 0 <= k < |inputs| && inputs[k].frame == 0
    ensures r.found.Some? ==>
              exists k :: 0 <= k < |inputs| && inputs[k] == r.found.value
                          && inputs[k].frame != 0 && IsWrappedUInt16GreaterThan(inputs[k].frame, last)
                          && forall j :: 0 <= j < k ==> inputs[j].frame != 0 && !IsWrappedUInt16GreaterThan(inputs[j].frame, last)
    ensures r.found.None? ==>
              forall j :: 0 <= j < |inputs| && (forall i :: 0 <= i <= j ==> inputs[i].frame != 0) ==>
                !IsWrappedUInt16GreaterThan(inputs[j].frame, last)
    decreases |inputs|
  {
    if inputs == [] then Selection(None, false)
    else if inputs[0].frame == 0 then Selection(None, true)
    else
      var rest := SelectInput(inputs[1..], last);
      assert forall k :: 0 <= k < |inputs| - 1 ==> inputs[1..][k] == inputs[k + 1];
      if IsWrappedUInt16GreaterThan(inputs[0].frame, last) then Selection(Some(inputs[0]), rest.close)
      else
        rest
  }

  /** The chosen input is never frame 0, so the source's second frame-0 check after the scan never fires. */
  lemma SelectedFrameNonzero(inputs: seq<ClientFrameInput>, last: uint16)
    ensures SelectInput(inputs, last).found.Some? ==> SelectInput(inputs, last).found.value.frame != 0
  {
  }

  /** The frame bookkeeping after the scan: a found input moves next to last and becomes next. */
  function Advanced(found: Option<ClientFrameInput>, last: uint16, next: uint16): (r: (uint16, uint16))
    ensures found.None? ==> r == (last, next)
    ensures found.Some? ==> r.0 == next && r.1 == found.value.frame
  {
    if found.Some? then (next, found.value.frame) else (last, next)
  }

  // ------------------------------------------------------------ broadcasting

  /** The PlayerState sent for a player. */
  function StateOf(b: Body): (st: PlayerState)
    ensures st.netId == b.netId && Client.Carries(b, st)
  {
    PlayerState(b.netId, b.x, b.y, b.hspeed, b.vspeed, b.dirLeft)
  }

  /** stateUpdateList: one PlayerState per world player, in order. */
  function StatesOf(bs: seq<Body>): (r: seq<PlayerState>)
    ensures |r| == |bs| && forall i :: 0 <= i < |bs| ==> r[i] == StateOf(bs[i])
  {
    seq(|bs|, i requires 0 <= i < |bs| => StateOf(bs[i]))
  }

  /**
   * The bytes sent to one client: the ack packet when there are acks, then
   * the world state for the connection's player (when it has one), numbered
   * from seqId on.
   */
  function Broadcast(seqId: uint16, acks: seq<uint16>, me: Option<uint16>, last: uint16, states: seq<PlayerState>): (r: seq<byte>)
    ensures r == [] <==> acks == [] && me.None?
    ensures r != [] ==> |r| >= 3
    ensures acks != [] ==> r[0] == Id(TypeOf(AckPacket(acks))) && FromLE(r[1..3]) == seqId
    ensures acks == [] && me.Some? ==>
              r[0] == Id(TypeOf(ServerWorldStatePacket(me.value, last, states))) && FromLE(r[1..3]) == seqId
  {
    var next := if acks == [] then seqId else (seqId + 1) % 0x1_0000;
    var a := if acks == [] then [] else EncodePacket(seqId, AckPacket(acks));
    var b := if me.None? then [] else EncodePacket(next, ServerWorldStatePacket(me.value, last, states));
    assert a != [] ==> (a + b)[..3] == a[..3];
    assert a == [] ==> a + b == b;
    a + b
  }

  /**
   * Server to client: one broadcast, read by the client, reaches its
   * tracker (the acks), is acknowledged (the world state only), and its
   * world state is kept when the client's rule says it is newer.
   */
  lemma BroadcastReceived(seqId: uint16, acks: seq<uint16>, me: Option<uint16>, last: uint16, states: seq<PlayerState>,
                          c: Client.Inbox, now: int)
    requires |acks| <= Packbuf.MaxSliceCount && |states| <= Packbuf.MaxSliceCount
    ensures var next := if acks == [] then seqId else (seqId + 1) % 0x1_0000;
            var ws := ServerWorldStatePacket(if me.Some? then me.value else 0, last, states);
            Client.HandleFrame(StandardTable, c, Broadcast(seqId, acks, me, last, states), 0, now)
              == Some(Client.Inbox(c.acks + (if me.Some? then [next] else []),
                                   if acks == [] then c.tracker else AckAll(c.tracker, acks, now),
                                   if me.Some? && Client.Newer(c.best, ws) then Some(ws) else c.best))
  {
    var data := Broadcast(seqId, acks, me, last, states);
    var next := if acks == [] then seqId else (seqId + 1) % 0x1_0000;
    var a := if acks == [] then [] else EncodePacket(seqId, AckPacket(acks));
    var b := if me.None? then [] else EncodePacket(next, ServerWorldStatePacket(me.value, last, states));
    assert data == a + b && data[0..|data|] == data;
    Packbuf.AtSplit(data, 0, a, b);
    var r1 := if acks == [] then None else Some(Received(seqId, AckPacket(acks)));
    var r2 := if me.None? then None else Some(Received(next, ServerWorldStatePacket(me.value, last, states)));
    if acks != [] {
      PacketRoundTrip(seqId, AckPacket(acks), data, 0);
    }
    if me.Some? {
      PacketRoundTrip(next, r2.value.packet, data, |a|);
    }
    Client.ReadBack(StandardTable, c, data, |a|, r1, r2, now);
    var c1 := if r1.None? then c else Client.Handle(c, r1.value, now).value;
    var c2 := if r2.None? then c1 else Client.Handle(c1, r2.value, now).value;
    assert c2.acks == c.acks + (if me.Some? then [next] else []);
    assert c2.tracker == if acks == [] then c.tracker else AckAll(c.tracker, acks, now);
  }

  // ------------------------------------------------------------ imperative code

  /** The abstract state of a game connection. */
  datatype GameView = GameView(id: uint16, player: Player?, isUsed: bool, inbox: Inbox, last: uint16, next: uint16)

  /** gameConnection: the game-side state of one transport slot. */
  class GameConnection {
    var id: uint16
    var player: Player?
    var isUsed: bool
    /** AckPacket.SequenceIDList: sequence numbers received and not yet acknowledged. */
    var ackList: seq<uint16>
    const rtt: RoundTripTracking
    var inputBuffer: seq<ClientFrameInput>
    var lastInputFrameSimulated: uint16
    var nextInputFrameToBeSimulated: uint16

    /** A used slot has a player, a free one has none. */
    ghost predicate Valid()
      reads this
    {
      rtt.Valid() && (isUsed <==> player != null)
    }

    function View(): GameView
      reads this, rtt, rtt.packetSequenceList
    {
      GameView(id, player, isUsed, Inbox(ackList, rtt.State(), inputBuffer), lastInputFrameSimulated, nextInputFrameToBeSimulated)
    }

    /** &gameConnection{} with its ID set, as init builds each slot. */
    constructor (id: uint16)
      ensures Valid() && fresh(rtt) && fresh(rtt.packetSequenceList)
      ensures View() == Zeroed(id)
    {
      this.id := id;
      player := null;
      isUsed := false;
      ackList := [];
      rtt := new RoundTripTracking();
      inputBuffer := [];
      lastInputFrameSimulated := 0;
      nextInputFrameToBeSimulated := 0;
    }

    /** Resetting a slot: the zero value written over it, with its ID kept. */
    method Reset()
      requires Valid()
      modifies this, rtt, rtt.packetSequenceList
      ensures Valid() && View() == Zeroed(old(id))
    {
      player := null;
      isUsed := false;
      ackList := [];
      rtt.Reset();
      inputBuffer := [];
      lastInputFrameSimulated := 0;
      nextInputFrameToBeSimulated := 0;
    }
  }

  /** A slot's game state with only its ID. */
  function Zeroed(id: uint16): (g: GameView)
    ensures g.id == id && g.player == null && !g.isUsed && g.inbox.tracker == InitialState()
  {
    GameView(id, null, false, Inbox([], InitialState(), []), 0, 0)
  }

  // ------------------------------------------------------------ one slot through a tick

  /**
   * Everything a tick reads and changes for one slot: its game connection,
   * its transport connection, and the body of its player (None when it has
   * none).
   */
  datatype SlotView = SlotView(game: GameView, conn: T.Slot, body: Option<Body>)

  /** The body of a player, if there is one. */
  function PlayerBody(p: Player?): (b: Option<Body>)
    reads p
    ensures b.Some? <==> p != null
  {
    if p == null then None else Some(p.View())
  }

  /** A used slot has a player and a free one has none; the body is the player's. */
  predicate Consistent(s: SlotView)
  {
    (s.game.isUsed <==> s.game.player != null) && (s.game.player != null <==> s.body.Some?)
  }

  /**
   * The first pass's reclaim-or-admit step on one slot, with p the player
   * created for a newly connected slot: a disconnected used slot is reset
   * to its zero value and freed, and loses its player; a connected free
   * slot gets p, placed at the spawn point with the slot's ID as NetID, and
   * becomes used, except that a slot with ID 0 panics after taking p.
   * The flag says whether it panicked.
   */
  function AdmitView(s: SlotView, p: Player?): (r: (SlotView, bool))
    ensures r.0.game.id == s.game.id && r.0.conn.isConnected == s.conn.isConnected && r.0.conn.sent == s.conn.sent
    ensures r.1 <==> s.conn.isConnected && !s.game.isUsed && s.game.id == 0
    ensures !r.1 ==> (r.0.game.isUsed <==> s.conn.isConnected)
    ensures !r.1 && Consistent(s) && p != null ==> Consistent(r.0)
    ensures r.0.game.isUsed && !s.game.isUsed ==> r.0.game.player == p && r.0.body == Some(W.NewBody.(netId := s.game.id))
    ensures !s.conn.isConnected && s.game.isUsed ==> r.0.game == Zeroed(s.game.id) && !r.0.conn.isUsed && r.0.body.None?
    ensures s.conn.isConnected ==> r.0.game.inbox == s.game.inbox && r.0.conn == s.conn
  {
    var g, c := s.game, s.conn;
    if !c.isConnected then
      if g.isUsed then (SlotView(Zeroed(g.id), c.(isUsed := false), None), false) else (s, false)
    else if g.isUsed then (s, false)
    else if g.id == 0 then (SlotView(g.(player := p), c, Some(W.NewBody.(netId := g.id))), true)
    else (SlotView(g.(player := p, isUsed := true), c, Some(W.NewBody.(netId := g.id))), false)
  }

  /** How the first pass changes the world's player list for one slot. */
  datatype RosterEdit = Keep | Remove(player: Player) | Add(player: Player)

  /** A reclaimed slot's player leaves the world; a newly connected slot's new player p joins it. */
  function EditOf(s: SlotView, p: Player?): (e: RosterEdit)
    ensures e.Remove? ==> s.game.player == e.player && !s.conn.isConnected
    ensures e.Add? ==> e.player == p && s.conn.isConnected && !s.game.isUsed
  {
    if !s.conn.isConnected && s.game.isUsed && s.game.player != null then Remove(s.game.player)
    else if s.conn.isConnected && !s.game.isUsed && p != null then Add(p)
    else Keep
  }

  /** One slot's change to the player list. */
  function Apply(players: seq<Player>, e: RosterEdit): (r: seq<Player>)
    ensures e.Keep? ==> r == players
    ensures e.Add? ==> r == players + [e.player]
    ensures e.Remove? ==> r == RemoveFirst(players, e.player)
  {
    match e
    case Keep => players
    case Remove(p) => RemoveFirst(players, p)
    case Add(p) => players + [p]
  }

  /** The player list after the edits of the slots, applied in slot order. */
  function Roster(players: seq<Player>, es: seq<RosterEdit>): seq<Player>
    decreases |es|
  {
    if es == [] then players else Apply(Roster(players, es[..|es| - 1]), es[|es| - 1])
  }

  /** The edits of all slots, from their views before the first pass and their players after it. */
  function Edits(before: seq<SlotView>, after: seq<SlotView>): (es: seq<RosterEdit>)
    requires |before| == |after|
    ensures |es| == |before| && forall i :: 0 <= i < |before| ==> es[i] == EditOf(before[i], after[i].game.player)
  {
    seq(|before|, i requires 0 <= i < |before| => EditOf(before[i], after[i].game.player))
  }

  /**
   * Reading a connected slot: its queue is drained through IngestFrames; an
   * oversized batch closes the connection, and otherwise the queue ends up
   * empty. A disconnected slot is not read. The second half says how
   * reading stopped.
   */
  function DrainView(table: map<byte, PacketType>, s: SlotView, now: int): (r: (SlotView, FrameEnd))
    ensures r.0.game == s.game.(inbox := r.0.game.inbox) && r.0.body == s.body
    ensures Keeps(s.game.inbox, r.0.game.inbox)
    ensures r.0.conn.isUsed == s.conn.isUsed && r.0.conn.sent == s.conn.sent && (r.0.conn.isConnected ==> s.conn.isConnected)
    ensures !s.conn.isConnected ==> r == (s, EndOfFrame)
    ensures s.conn.isConnected && s.conn.packets.Some? ==>
              r.0.game.inbox == IngestFrames(table, s.game.inbox, s.conn.packets.value, now).inbox
  {
    if !s.conn.isConnected || s.conn.packets.None? then (s, EndOfFrame)
    else
      var o := IngestFrames(table, s.game.inbox, s.conn.packets.value, now);
      (SlotView(s.game.(inbox := o.inbox), if o.end == Closed then T.Disconnected(s.conn) else s.conn.(packets := Some([])), s.body),
       o.end)
  }

  /** Whether the first pass panics on a slot: admitting into ID 0, or a decoder panic while reading. */
  predicate Crashes(table: map<byte, PacketType>, s: SlotView, now: int)
  {
    || (s.conn.isConnected && !s.game.isUsed && s.game.id == 0)
    || (s.conn.isConnected && s.conn.packets.Some? && IngestFrames(table, s.game.inbox, s.conn.packets.value, now).end == Crashed)
  }

  /** Adding slot i's edit to the edits of the slots before it applies that edit to the player list. */
  lemma RosterStep(players: seq<Player>, start: seq<SlotView>, before: seq<SlotView>, after: seq<SlotView>, i: nat)
    requires i < |start| && |before| == i && |after| == i + 1 && after[..i] == before
    ensures Roster(players, Edits(start[..i + 1], after))
         == Apply(Roster(players, Edits(start[..i], before)), EditOf(start[i], after[i].game.player))
  {
    var es := Edits(start[..i + 1], after);
    assert es[..i] == Edits(start[..i], before);
  }

  /**
   * The first pass has served the slots before i of start, giving cur: none
   * of them panicked and each is ServeView of its start with the player it
   * now holds; the slots from i on are as they started.
   */
  ghost predicate ServedUpTo(table: map<byte, PacketType>, start: seq<SlotView>, cur: seq<SlotView>, i: nat, now: int)
  {
    && |cur| == |start| && i <= |start|
    && (forall j :: 0 <= j < i ==> !Crashes(table, start[j], now) && cur[j] == ServeView(table, start[j], cur[j].game.player, now).0)
    && cur[i..] == start[i..]
  }

  /** Serving slot i without a panic extends ServedUpTo by one slot. */
  lemma ServedStep(table: map<byte, PacketType>, start: seq<SlotView>, cur: seq<SlotView>, s: SlotView, i: nat, now: int)
    requires ServedUpTo(table, start, cur, i, now) && i < |start|
    requires !Crashes(table, start[i], now) && s == ServeView(table, start[i], s.game.player, now).0
    ensures ServedUpTo(table, start, cur[i := s], i + 1, now)
  {
    var next := cur[i := s];
    assert next[i + 1..] == cur[i + 1..];
    assert cur[i + 1..] == cur[i..][1..];
  }

  /** The second pass on every slot. */
  function SelectAll(slots: seq<SlotView>): (r: seq<SlotView>)
    ensures |r| == |slots| && forall i :: 0 <= i < |slots| ==> r[i] == SelectView(slots[i])
  {
    seq(|slots|, i requires 0 <= i < |slots| => SelectView(slots[i]))
  }

  /** The third pass on every slot, slot i's send failing when i is in fails. */
  function BroadcastAll(slots: seq<SlotView>, states: seq<PlayerState>, now: int, fails: set<nat>): (r: seq<SlotView>)
    ensures |r| == |slots| && forall i :: 0 <= i < |slots| ==> r[i] == BroadcastView(slots[i], states, now, i in fails)
  {
    seq(|slots|, i requires 0 <= i < |slots| => BroadcastView(slots[i], states, now, i in fails))
  }

  /** The second pass has reached slot i: the slots before i are selected, the rest still as in start. */
  ghost predicate SelectedUpTo(start: seq<SlotView>, cur: seq<SlotView>, i: nat)
  {
    && |cur| == |start| && i <= |start|
    && (forall j :: 0 <= j < i ==> cur[j] == SelectView(start[j]))
    && cur[i..] == start[i..]
  }

  /** Selecting slot i extends SelectedUpTo by one slot. */
  lemma SelectedStep(start: seq<SlotView>, cur: seq<SlotView>, i: nat)
    requires SelectedUpTo(start, cur, i) && i < |start|
    ensures cur[i] == start[i]
    ensures SelectedUpTo(start, cur[i := SelectView(start[i])], i + 1)
  {
    assert cur[i..][0] == start[i..][0];
    var next := cur[i := SelectView(start[i])];
    assert next[i + 1..] == cur[i + 1..];
    assert cur[i + 1..] == cur[i..][1..];
  }

  /** A finished second pass is SelectAll. */
  lemma SelectedAll(start: seq<SlotView>, cur: seq<SlotView>)
    requires SelectedUpTo(start, cur, |start|)
    ensures cur == SelectAll(start)
  {
  }

  /** The third pass has reached slot i: the slots before i got the broadcast, the rest still as in start. */
  ghost predicate BroadcastUpTo(start: seq<SlotView>, cur: seq<SlotView>, i: nat, states: seq<PlayerState>, now: int, fails: set<nat>)
  {
    && |cur| == |start| && i <= |start|
    && (forall j :: 0 <= j < i ==> cur[j] == BroadcastView(start[j], states, now, j in fails))
    && cur[i..] == start[i..]
  }

  /** Broadcasting to slot i extends BroadcastUpTo by one slot. */
  lemma BroadcastStep(start: seq<SlotView>, cur: seq<SlotView>, i: nat, states: seq<PlayerState>, now: int, fails: set<nat>)
    requires BroadcastUpTo(start, cur, i, states, now, fails) && i < |start|
    ensures cur[i] == start[i]
    ensures BroadcastUpTo(start, cur[i := BroadcastView(start[i], states, now, i in fails)], i + 1, states, now, fails)
  {
    assert cur[i..][0] == start[i..][0];
    var next := cur[i := BroadcastView(start[i], states, now, i in fails)];
    assert next[i + 1..] == cur[i + 1..];
    assert cur[i + 1..] == cur[i..][1..];
  }

  /** A finished third pass is BroadcastAll. */
  lemma BroadcastedAll(start: seq<SlotView>, cur: seq<SlotView>, states: seq<PlayerState>, now: int, fails: set<nat>)
    requires BroadcastUpTo(start, cur, |start|, states, now, fails)
    ensures cur == BroadcastAll(start, states, now, fails)
  {
  }

  /**
   * A tick from start that ended at final: every slot is SlotTick of its
   * start with the player it now holds.
   */
  ghost predicate Ticked(table: map<byte, PacketType>, start: seq<SlotView>, final: seq<SlotView>,
                         states: seq<PlayerState>, now: int, fails: set<nat>)
  {
    |final| == |start| &&
    forall i :: 0 <= i < |start| ==> final[i] == SlotTick(table, start[i], final[i].game.player, states, now, i in fails).0
  }

  /**
   * The three passes compose into SlotTick slot by slot, and the later
   * passes keep every slot's player, so the roster edits read off the end
   * of the tick are those of the first pass.
   */
  lemma {:induction false} PassesCompose(table: map<byte, PacketType>, start: seq<SlotView>, served: seq<SlotView>,
                                         states: seq<PlayerState>, now: int, fails: set<nat>)
    requires ServedUpTo(table, start, served, |start|, now)
    ensures Ticked(table, start, BroadcastAll(SelectAll(served), states, now, fails), states, now, fails)
    ensures Edits(start, BroadcastAll(SelectAll(served), states, now, fails)) == Edits(start, served)
  {
    var final := BroadcastAll(SelectAll(served), states, now, fails);
    forall i | 0 <= i < |start|
      ensures final[i] == SlotTick(table, start[i], final[i].game.player, states, now, i in fails).0
      ensures final[i].game.player == served[i].game.player
    {
      assert final[i] == BroadcastView(SelectView(served[i]), states, now, i in fails);
    }
  }

  /** Whether the first pass panics on some slot. */
  predicate SomeCrash(table: map<byte, PacketType>, slots: seq<SlotView>, now: int)
  {
    exists i :: 0 <= i < |slots| && Crashes(table, slots[i], now)
  }

  /**
   * The first pass on one slot: reclaim or admit, then read. Unless it
   * panics, the slot is used exactly when its transport was connected, and
   * the transport can only have closed.
   */
  function ServeView(table: map<byte, PacketType>, s: SlotView, p: Player?, now: int): (r: (SlotView, bool))
    ensures r.1 <==> Crashes(table, s, now)
    ensures !r.1 ==> (r.0.game.isUsed <==> s.conn.isConnected)
    ensures !r.1 && Consistent(s) && p != null ==> Consistent(r.0)
    ensures r.0.game.id == s.game.id && r.0.conn.sent == s.conn.sent && (r.0.conn.isConnected ==> s.conn.isConnected)
  {
    var a := AdmitView(s, p);
    if a.1 then a
    else
      var d := DrainView(table, a.0, now);
      (d.0, d.1 == Crashed)
  }

  /**
   * The second pass on one slot: for a connected used slot with a player,
   * the stored inputs are scanned; a found input becomes the player's input
   * and shifts the frame bookkeeping, otherwise the player's input is zeroed;
   * a frame 0 closes the connection.
   */
  function SelectView(s: SlotView): (r: SlotView)
    ensures r.game == s.game.(last := r.game.last, next := r.game.next)
    ensures r.conn.isUsed == s.conn.isUsed && r.conn.sent == s.conn.sent && (r.conn.isConnected ==> s.conn.isConnected)
    ensures r.body.Some? <==> s.body.Some?
    ensures r.body.Some? ==> r.body.value == s.body.value.(inputs := r.body.value.inputs)
    ensures r.game.next != s.game.next ==> r.game.last == s.game.next && r.game.next != 0 && IsWrappedUInt16GreaterThan(r.game.next, s.game.last)
    ensures !s.conn.isConnected || !s.game.isUsed || s.body.None? ==> r == s
  {
    if !s.conn.isConnected || !s.game.isUsed || s.body.None? then s
    else
      var sel := SelectInput(s.game.inbox.inputs, s.game.last);
      SelectedFrameNonzero(s.game.inbox.inputs, s.game.last);
      var adv := Advanced(sel.found, s.game.last, s.game.next);
      SlotView(s.game.(last := adv.0, next := adv.1),
               if sel.close then T.Disconnected(s.conn) else s.conn,
               Some(s.body.value.(inputs := if sel.found.Some? then sel.found.value.input else NoInput)))
  }

  /**
   * The third pass on one slot: a connected used slot is sent Broadcast of
   * its acks and the world's states, numbered from its tracker; the acks are
   * cleared and the tracker advances once per packet written; a failed send
   * closes the connection instead of recording the message.
   */
  function BroadcastView(s: SlotView, states: seq<PlayerState>, now: int, channelFails: bool): (r: SlotView)
    ensures r.body == s.body && r.game.(inbox := s.game.inbox) == s.game && r.game.inbox.inputs == s.game.inbox.inputs
    ensures r.conn.isUsed == s.conn.isUsed && (r.conn.isConnected ==> s.conn.isConnected)
    ensures s.conn.isConnected && s.game.isUsed ==>
              && r.game.inbox.acks == []
              && (r.conn.isConnected <==> !channelFails)
              && (r.conn.isConnected ==> |r.conn.sent| == |s.conn.sent| + 1)
    ensures !s.conn.isConnected || !s.game.isUsed ==> r == s
  {
    if !s.conn.isConnected || !s.game.isUsed then s
    else
      var g := s.game;
      var me := if s.body.Some? then Some(s.body.value.netId) else None;
      var s0 := g.inbox.tracker;
      var msg := Broadcast(s0.sequenceId, g.inbox.acks, me, g.last, states);
      SlotView(g.(inbox := Inbox([], Stamped(Stamped(s0, g.inbox.acks != [], now), me.Some?, now), g.inbox.inputs)),
               if channelFails then T.Disconnected(s.conn) else s.conn.(sent := s.conn.sent + [msg]), s.body)
  }

  /**
   * One slot through the three passes, p being its new player if it is
   * admitted and states the world as broadcast. Unless the tick panics
   * there, the slot is used exactly when its transport was connected at
   * the start, and a connection still open at the end was sent exactly one
   * message.
   */
  function SlotTick(table: map<byte, PacketType>, s: SlotView, p: Player?, states: seq<PlayerState>, now: int, channelFails: bool)
    : (r: (SlotView, bool))
    ensures r.1 <==> Crashes(table, s, now)
    ensures !r.1 ==> (r.0.game.isUsed <==> s.conn.isConnected)
    ensures !r.1 && Consistent(s) && p != null ==> Consistent(r.0)
    ensures !r.1 && r.0.conn.isConnected ==> s.conn.isConnected && |r.0.conn.sent| == |s.conn.sent| + 1
  {
    var a := ServeView(table, s, p, now);
    if a.1 then a else (BroadcastView(SelectView(a.0), states, now, channelFails), false)
  }

  /**
   * The first pass, for one slot: a disconnected used slot loses its
   * player, is reset and is freed; a connected unused slot gets a new
   * player with the slot's ID as NetID (an ID of 0 panics).
   */
  method Admit(world: W.World, g: GameConnection, c: T.Connection) returns (panicked: bool)
    requires world.Valid() && g.Valid() && c.Valid()
    modifies world, g, g.rtt, g.rtt.packetSequenceList, c
    ensures world.Valid() && c.Valid() && world.myPlayer == old(world.myPlayer) && world.playerInput == old(world.playerInput)
    ensures !panicked ==> g.Valid()
    ensures var before := SlotView(old(g.View()), old(c.View()), old(PlayerBody(g.player)));
            && (SlotView(g.View(), c.View(), PlayerBody(g.player)), panicked) == AdmitView(before, g.player)
            && world.players == Apply(old(world.players), EditOf(before, g.player))
    ensures g.player != null && g.player != old(g.player) ==> fresh(g.player)
  {
    panicked := false;
    var connected := c.IsConnected();
    if !connected {
      if g.isUsed {
        world.RemovePlayer(g.player);
        g.Reset();
        var freeFailed := c.Free();
      }
      return;
    }
    if !g.isUsed {
      var p := world.CreatePlayer();
      p.netId := g.id;
      g.player := p;
      if g.id == 0 {
        return true;
      }
      g.isUsed := true;
    }
  }

  /** The inner read loop of one connection, over one frame. */
  method IngestOne(reg: Registry, g: GameConnection, data: seq<byte>, now: int) returns (end: FrameEnd)
    requires g.Valid()
    modifies g, g.rtt
    ensures g.Valid()
    ensures var o := IngestFrame(reg.table, old(g.View()).inbox, data, 0, now);
            g.View() == old(g.View()).(inbox := o.inbox) && end == o.end
  {
    var r := new PackbufRead.Reader(data);
    while true
      invariant r.Valid() && r.data == data && g.Valid()
      invariant g.View() == old(g.View()).(inbox := g.View().inbox)
      invariant IngestFrame(reg.table, old(g.View()).inbox, data, 0, now) == IngestFrame(reg.table, g.View().inbox, data, r.pos, now)
      decreases |r.data| - r.pos
    {
      ParseAtEnd(reg.table, data);
      var res := Packs.Read(reg, r);
      if res.Err? {
        if res.error == Codec(Packbuf.EOF) {
          return EndOfFrame;
        }
        if res.error == Codec(Packbuf.Panic) {
          return Crashed;
        }
        continue;
      }
      var close := Take1(g, res.value, now);
      if close {
        return Closed;
      }
    }
  }

  /** One decoded packet for a connection: acknowledge it and act on its type; an oversized batch reports close. */
  method Take1(g: GameConnection, rcv: Received, now: int) returns (close: bool)
    requires g.Valid()
    modifies g, g.rtt
    ensures g.Valid()
    ensures var st := Take(old(g.View()).inbox, rcv, now);
            g.View() == old(g.View()).(inbox := st.inbox) && close == st.close
  {
    if !rcv.packet.AckPacket? {
      g.ackList := g.ackList + [rcv.seqId];
    }
    close := false;
    match rcv.packet {
      case AckPacket(ids) =>
        AckEach(g.rtt, ids, now);
      case ClientPlayerPacket(batch) =>
        if |batch| > MaxServerInputBuffer {
          return true;
        }
        if |batch| == 0 {
        } else if |g.inputBuffer| > 0 {
          if IsWrappedUInt16GreaterThan(batch[|batch| - 1].frame, g.inputBuffer[|g.inputBuffer| - 1].frame) {
            g.inputBuffer := batch;
          }
        } else {
          g.inputBuffer := batch;
        }
      case ServerWorldStatePacket(_, _, _) =>
    }
  }

  /** An ack packet: every listed sequence number is acknowledged on the tracker, in order. */
  method AckEach(t: RoundTripTracking, ids: seq<uint16>, now: int)
    requires t.Valid()
    modifies t
    ensures t.Valid() && t.State() == AckAll(old(t.State()), ids, now)
  {
    var i := 0;
    while i < |ids|
      invariant i <= |ids| && t.Valid()
      invariant AckAll(old(t.State()), ids, now) == AckAll(t.State(), ids[i..], now)
    {
      t.Ack(ids[i], now);
      assert ids[i..][0] == ids[i] && ids[i..][1..] == ids[i + 1..];
      i := i + 1;
    }
  }

  /**
   * The read loop of one connected slot (MainReadLoop): every queued frame
   * in order; an oversized batch closes the connection and stops reading,
   * and a decoder panic crashes the server.
   */
  method Ingest(reg: Registry, g: GameConnection, c: T.Connection, now: int) returns (crashed: bool)
    requires g.Valid() && c.Valid() && c.isConnected
    modifies g, g.rtt, c
    ensures g.Valid() && c.Valid()
    ensures var o := IngestFrames(reg.table, old(g.View()).inbox, old(c.packets).value, now);
            && g.View() == old(g.View()).(inbox := o.inbox)
            && (crashed <==> o.end == Crashed)
            && (o.end == Closed ==> c.View() == T.Disconnected(old(c.View())))
            && (o.end == EndOfFrame ==> c.View() == old(c.View()).(packets := Some([])))
  {
    while true
      invariant g.Valid() && c.Valid() && c.isConnected
      invariant g.View() == old(g.View()).(inbox := g.View().inbox)
      invariant c.View() == old(c.View()).(packets := c.packets)
      invariant IngestFrames(reg.table, old(g.View()).inbox, old(c.packets).value, now)
             == IngestFrames(reg.table, g.View().inbox, c.packets.value, now)
      decreases |c.packets.value|
    {
      if c.packets.value != [] {
        IngestFramesStep(reg.table, g.View().inbox, c.packets.value, now);
      }
      var data, ok := c.Read();
      if !ok {
        return false;
      }
      var end := IngestOne(reg, g, data, now);
      if end == Crashed {
        return true;
      }
      if end == Closed {
        c.CloseButDontFree();
        return false;
      }
    }
  }

  /**
   * The second pass, for one slot: the stored inputs are scanned for the
   * first frame after the last simulated one (a frame 0 closes the
   * connection); a found input becomes the player's input and shifts the
   * bookkeeping, otherwise the player's input is zeroed.
   */
  method Select(g: GameConnection, c: T.Connection)
    requires g.Valid() && c.Valid()
    modifies g, g.player, c
    ensures c.Valid() && g.Valid()
    ensures SlotView(g.View(), c.View(), PlayerBody(g.player)) == SelectView(SlotView(old(g.View()), old(c.View()), old(PlayerBody(g.player))))
  {
    var connected := c.IsConnected();
    if !connected {
      return;
    }
    if !g.isUsed || g.player == null {
      return;
    }
    var found := Scan(g.inputBuffer, g.lastInputFrameSimulated, c);
    if found.Some? {
      if found.value.frame == 0 {
        assert false;
      }
      g.player.inputs := found.value.input;
      g.lastInputFrameSimulated := g.nextInputFrameToBeSimulated;
      g.nextInputFrameToBeSimulated := found.value.frame;
    } else {
      g.player.inputs := NoInput;
    }
  }

  /**
   * The scan over the stored inputs: the first input after last, counting
   * the later ones; a frame 0 closes the connection and ends the scan.
   */
  method Scan(buf: seq<ClientFrameInput>, last: uint16, c: T.Connection) returns (found: Option<ClientFrameInput>)
    requires c.Valid()
    modifies c
    ensures c.Valid() && found == SelectInput(buf, last).found
    ensures found.Some? ==> found.value.frame != 0
    ensures c.View() == if SelectInput(buf, last).close then T.Disconnected(old(c.View())) else old(c.View())
  {
    var chosen := ClientFrameInput(0, NoInput);
    var foundCount := 0;
    var i := 0;
    while i < |buf|
      invariant i <= |buf| && c.Valid()
      invariant foundCount > 0 ==> chosen.frame != 0
      invariant SelectInput(buf, last)
             == if foundCount > 0 then Selection(Some(chosen), SelectInput(buf[i..], last).close) else SelectInput(buf[i..], last)
      invariant c.View() == old(c.View())
    {
      assert buf[i..][0] == buf[i] && buf[i..][1..] == buf[i + 1..];
      if buf[i].frame == 0 {
        c.CloseButDontFree();
        break;
      }
      if IsWrappedUInt16GreaterThan(buf[i].frame, last) {
        if foundCount == 0 {
          chosen := buf[i];
        }
        foundCount := foundCount + 1;
      }
      i := i + 1;
    }
    found := if foundCount > 0 then Some(chosen) else None;
  }

  /** stateUpdateList: the loop over the world's players. */
  method StateList(world: W.World) returns (states: seq<PlayerState>)
    ensures states == StatesOf(W.Views(world.players))
  {
    states := [];
    var i := 0;
    while i < |world.players|
      invariant i <= |world.players|
      invariant states == StatesOf(W.Views(world.players[..i]))
    {
      var e := world.players[i];
      states := states + [PlayerState(e.netId, e.x, e.y, e.hspeed, e.vspeed, e.dirLeft)];
      i := i + 1;
      assert W.Views(world.players[..i]) == W.Views(world.players[..i - 1]) + [e.View()];
    }
    assert world.players[..i] == world.players;
  }

  /**
   * The message for one slot: the ack packet when the list is non-empty
   * (the list is then cleared), then the world state for the slot's player.
   */
  method Payload(world: W.World, g: GameConnection, now: int) returns (msg: seq<byte>)
    requires g.Valid()
    modifies g, g.rtt, g.rtt.packetSequenceList
    ensures g.Valid()
    ensures var s0 := old(g.rtt.State());
            && msg == Broadcast(s0.sequenceId, old(g.ackList), if g.player == null then None else Some(g.player.netId),
                                g.lastInputFrameSimulated, StatesOf(W.Views(world.players)))
            && g.View() == old(g.View()).(inbox := Inbox([], g.rtt.State(), old(g.inputBuffer)))
            && g.rtt.State() == Stamped(Stamped(s0, old(g.ackList) != [], now), g.player != null, now)
  {
    var w := new PackbufWrite.Buffer();
    ghost var s0, acks := g.rtt.State(), g.ackList;
    WriteAcks(w, g, now);
    ghost var head, s1 := w.data, g.rtt.State();
    WriteState(w, world, g, now);
    msg := w.data;
    ghost var me := if g.player == null then None else Some(g.player.netId);
    ghost var tail := if me.None? then [] else
      EncodePacket(s1.sequenceId, ServerWorldStatePacket(me.value, g.lastInputFrameSimulated, StatesOf(W.Views(world.players))));
    assert msg == head + tail;
    assert head == if acks == [] then [] else EncodePacket(s0.sequenceId, AckPacket(acks));
    assert s1.sequenceId == if acks == [] then s0.sequenceId else (s0.sequenceId + 1) % 0x1_0000;
  }

  /** The world-state half of the message, written when the slot has a player. */
  method WriteState(w: PackbufWrite.Buffer, world: W.World, g: GameConnection, now: int)
    requires g.rtt.Valid()
    modifies w, g.rtt, g.rtt.packetSequenceList
    ensures g.rtt.Valid() && g.rtt.State() == Stamped(old(g.rtt.State()), g.player != null, now)
    ensures w.data == old(w.data) + if g.player == null then [] else
              EncodePacket(old(g.rtt.State()).sequenceId,
                           ServerWorldStatePacket(g.player.netId, g.lastInputFrameSimulated, StatesOf(W.Views(world.players))))
  {
    if g.player != null {
      var states := StateList(world);
      var err := Packs.Write(w, g.rtt, ServerWorldStatePacket(g.player.netId, g.lastInputFrameSimulated, states), now);
    }
  }

  /** The tracker after a packet was written when sent holds, unchanged otherwise. */
  function Stamped(s: TrackerState, sent: bool, now: int): (r: TrackerState)
    ensures (sent ==> r.sequenceId == (s.sequenceId + 1) % 0x1_0000) && (!sent ==> r == s)
  {
    if sent then NextState(s, now) else s
  }

  /** The ack half of the message: written and cleared when there are acks. */
  method WriteAcks(w: PackbufWrite.Buffer, g: GameConnection, now: int)
    requires g.Valid()
    modifies w, g, g.rtt, g.rtt.packetSequenceList
    ensures g.Valid()
    ensures var s0 := old(g.rtt.State());
            && w.data == old(w.data) + (if old(g.ackList) == [] then [] else EncodePacket(s0.sequenceId, AckPacket(old(g.ackList))))
            && g.View() == old(g.View()).(inbox := Inbox([], g.rtt.State(), old(g.inputBuffer)))
            && g.rtt.State() == Stamped(s0, old(g.ackList) != [], now)
  {
    if |g.ackList| > 0 {
      var err := Packs.Write(w, g.rtt, AckPacket(g.ackList), now);
      g.ackList := [];
    }
  }

  /**
   * The third pass, for one slot: a connected used slot is sent its
   * message; a failed send closes only this connection.
   */
  method BroadcastTo(world: W.World, g: GameConnection, c: T.Connection, now: int, channelFails: bool)
    requires g.Valid() && c.Valid()
    modifies g, g.rtt, g.rtt.packetSequenceList, c
    ensures g.Valid() && c.Valid()
    ensures SlotView(g.View(), c.View(), PlayerBody(g.player))
         == BroadcastView(SlotView(old(g.View()), old(c.View()), old(PlayerBody(g.player))), StatesOf(W.Views(world.players)), now, channelFails)
  {
    var connected := c.IsConnected();
    if !connected || !g.isUsed {
      return;
    }
    Deliver(world, g, c, now, channelFails);
  }

  /** The send half of BroadcastTo, for a connected used slot. */
  method Deliver(world: W.World, g: GameConnection, c: T.Connection, now: int, channelFails: bool)
    requires g.Valid() && c.Valid() && c.isConnected && g.isUsed
    modifies g, g.rtt, g.rtt.packetSequenceList, c
    ensures g.Valid() && c.Valid()
    ensures SlotView(g.View(), c.View(), PlayerBody(g.player))
         == BroadcastView(SlotView(old(g.View()), old(c.View()), old(PlayerBody(g.player))), StatesOf(W.Views(world.players)), now, channelFails)
  {
    ghost var s := SlotView(g.View(), c.View(), PlayerBody(g.player));
    var msg := Payload(world, g, now);
    ghost var view := g.View();
    assert PlayerBody(g.player) == s.body;
    SendOrClose(c, msg, channelFails);
    assert g.View() == view && PlayerBody(g.player) == s.body;
  }

  /** Sending the message on a connected slot: a failed send closes the connection. */
  method SendOrClose(c: T.Connection, msg: seq<byte>, channelFails: bool)
    requires c.Valid() && c.isConnected
    modifies c
    ensures c.Valid()
    ensures c.View() == if channelFails then T.Disconnected(old(c.View())) else old(c.View()).(sent := old(c.View()).sent + [msg])
  {
    var err := c.Send(msg, channelFails);
    if err.Some? {
      c.CloseButDontFree();
    }
  }

  /** Controller: the server's game connections, one per transport slot. */
  class Controller {
    const transport: T.Server
    var gameConnections: seq<GameConnection>
    var hasStarted: bool

    /**
     * Once started there is one game connection per slot, slot i with ID
     * SlotId(i); the connections, their trackers and the players of used
     * slots are pairwise distinct.
     */
    ghost predicate Valid()
      reads this, transport, set c | c in transport.connections, set g | g in gameConnections
      reads set g | g in gameConnections :: g.player
    {
      && transport.Valid()
      && (hasStarted ==> |gameConnections| == |transport.connections|)
      && (!hasStarted ==> gameConnections == [])
      && Distinct(gameConnections)
      && (forall i :: 0 <= i < |gameConnections| ==> SlotOk(i))
      && (forall i, j :: 0 <= i < j < |gameConnections| ==>
            gameConnections[i].rtt != gameConnections[j].rtt
            && gameConnections[i].rtt.packetSequenceList != gameConnections[j].rtt.packetSequenceList)
      && (forall i, j :: 0 <= i < j < |gameConnections| && gameConnections[i].player != null ==>
            gameConnections[i].player != gameConnections[j].player)
    }

    /** Slot i has ID SlotId(i), is used exactly when it has a player, and that player carries the slot's ID. */
    ghost predicate SlotOk(i: nat)
      requires i < |gameConnections|
      reads this, gameConnections[i], gameConnections[i].player
    {
      var g := gameConnections[i];
      g.Valid() && g.id == SlotId(i) && (g.player != null ==> g.player.netId == g.id)
    }

    /** Slot i as a value: its game connection, its transport connection and its player's body. */
    function SlotAt(i: nat): (s: SlotView)
      requires i < |gameConnections| && i < |transport.connections|
      reads this, transport, transport.connections[i], gameConnections[i], gameConnections[i].rtt
      reads gameConnections[i].rtt.packetSequenceList, gameConnections[i].player
      ensures s.game.player == gameConnections[i].player && s.conn.isConnected == transport.connections[i].isConnected
    {
      SlotView(gameConnections[i].View(), transport.connections[i].View(), PlayerBody(gameConnections[i].player))
    }

    /** The first n slots as values. */
    ghost function Slots(n: nat): (r: seq<SlotView>)
      requires n <= |gameConnections| && n <= |transport.connections|
      reads this, transport, Trackers(), set c | c in transport.connections, set g | g in gameConnections
      reads set g | g in gameConnections :: g.player
      ensures |r| == n && forall i :: 0 <= i < n ==> r[i] == SlotAt(i)
    {
      if n == 0 then [] else Slots(n - 1) + [SlotAt(n - 1)]
    }

    /** The slots of a server that has not started yet, as its first tick builds them. */
    ghost function FreshSlots(n: nat): (r: seq<SlotView>)
      requires n <= |transport.connections|
      reads transport, set c | c in transport.connections
      ensures |r| == n && forall i :: 0 <= i < n ==> r[i] == SlotView(Zeroed(SlotId(i)), transport.connections[i].View(), None)
    {
      if n == 0 then [] else FreshSlots(n - 1) + [SlotView(Zeroed(SlotId(n - 1)), transport.connections[n - 1].View(), None)]
    }

    /** The slots a tick starts from: the current ones, or fresh ones on the first tick. */
    ghost function StartSlots(): (r: seq<SlotView>)
      requires Valid()
      reads this, transport, Trackers(), set c | c in transport.connections, set g | g in gameConnections
      reads set g | g in gameConnections :: g.player
      ensures |r| == |transport.connections|
    {
      if hasStarted then Slots(|gameConnections|) else FreshSlots(|transport.connections|)
    }

    /** Every slot other than i is unchanged. */
    twostate predicate OthersKept(i: nat)
      reads this, transport, Trackers(), set c | c in transport.connections, set g | g in gameConnections
      reads set g | g in gameConnections :: g.player
    {
      gameConnections == old(gameConnections) &&
      forall j :: 0 <= j < |gameConnections| && j < |transport.connections| && j != i ==> SlotAt(j) == old(SlotAt(j))
    }

    /** The players of the used slots. */
    ghost function Players(): set<Player>
      reads this, set g | g in gameConnections
    {
      set g | g in gameConnections && g.player != null :: g.player
    }

    /** The round-trip trackers of the game connections and their buffers. */
    ghost function Trackers(): set<object>
      reads this
    {
      (set g | g in gameConnections :: g.rtt as object) + (set g | g in gameConnections :: g.rtt.packetSequenceList as object)
    }

    /**
     * What a tick that started from the slots start and the player list
     * players leaves: it crashed exactly when some slot panics in the first
     * pass; otherwise the server is still Valid (so every used slot holds a
     * player whose NetID is its ID), every slot is SlotTick of its start
     * with the world as broadcast, and the player list lost the reclaimed
     * slots' players and gained the admitted slots' new players in slot
     * order.
     */
    ghost predicate Outcome(world: W.World, table: map<byte, PacketType>, now: int, fails: set<nat>,
                            start: seq<SlotView>, players: seq<Player>, crashed: bool)
      reads this, world, transport, Trackers(), set c | c in transport.connections, set g | g in gameConnections
      reads set g | g in gameConnections :: g.player, set p | p in world.players
    {
      && |start| == |gameConnections| == |transport.connections|
      && (crashed <==> SomeCrash(table, start, now))
      && (!crashed ==>
            && Valid() && world.Valid()
            && Ticked(table, start, Slots(|start|), StatesOf(W.Views(world.players)), now, fails)
            && world.players == Roster(players, Edits(start, Slots(|start|))))
    }

    /** New's game half: not started, no game connections yet. */
    constructor (transport: T.Server)
      requires transport.Valid()
      ensures Valid() && this.transport == transport && !hasStarted && gameConnections == []
    {
      this.transport := transport;
      gameConnections := [];
      hasStarted := false;
    }

    /** init: one zero game connection per slot, slot i with ID uint16(i) + 1. */
    method Init()
      requires Valid() && !hasStarted
      modifies this
      ensures Valid() && hasStarted && |gameConnections| == |transport.connections|
      ensures forall i :: 0 <= i < |gameConnections| ==> fresh(gameConnections[i]) && gameConnections[i].View() == Zeroed(SlotId(i))
      ensures forall o :: o in Trackers() ==> fresh(o)
      ensures Players() == {}
    {
      var gs: seq<GameConnection> := [];
      var i := 0;
      while i < |transport.connections|
        invariant i <= |transport.connections| && |gs| == i && Distinct(gs)
        invariant forall j :: 0 <= j < i ==> fresh(gs[j]) && fresh(gs[j].rtt) && fresh(gs[j].rtt.packetSequenceList)
        invariant forall j :: 0 <= j < i ==> gs[j].Valid() && gs[j].View() == Zeroed(SlotId(j))
        invariant forall j, k :: 0 <= j < k < i ==> gs[j].rtt != gs[k].rtt && gs[j].rtt.packetSequenceList != gs[k].rtt.packetSequenceList
      {
        var g := new GameConnection(SlotId(i));
        gs := gs + [g];
        i := i + 1;
      }
      gameConnections := gs;
      hasStarted := true;
    }

    /**
     * The first pass: slot by slot, ServeView (reclaim or admit, then drain
     * the connection's queue), stopping at the first panic, which happens
     * exactly when some slot Crashes; the player list takes each slot's
     * edit in slot order, and every player is an old one or a new one.
     */
    method Admission(world: W.World, reg: Registry, now: int) returns (crashed: bool)
      requires Valid() && hasStarted && world.Valid()
      modifies world, transport.connections, gameConnections, Trackers()
      ensures gameConnections == old(gameConnections) && reg.table == old(reg.table)
      ensures crashed <==> SomeCrash(reg.table, old(Slots(|gameConnections|)), now)
      ensures !crashed ==> Valid() && world.Valid()
      ensures !crashed ==> ServedUpTo(reg.table, old(Slots(|gameConnections|)), Slots(|gameConnections|), |gameConnections|, now)
      ensures !crashed ==> world.players == Roster(old(world.players), Edits(old(Slots(|gameConnections|)), Slots(|gameConnections|)))
      ensures forall p :: p in Players() ==> p in old(Players()) || fresh(p)
    {
      var gs, cs := gameConnections, transport.connections;
      ghost var n, w0 := |gs|, world.players;
      ghost var v0 := Slots(n);
      crashed := false;
      var i := 0;
      while i < |gs|
        invariant i <= n && Valid() && world.Valid() && gameConnections == gs && reg.table == old(reg.table)
        invariant ServedUpTo(reg.table, v0, Slots(n), i, now)
        invariant world.players == Roster(w0, Edits(v0[..i], Slots(n)[..i]))
        invariant forall p :: p in Players() ==> p in old(Players()) || fresh(p)
      {
        assert gs[i] in gs && cs[i] in cs;
        crashed := ServeNext(world, reg, i, now, v0, w0);
        if crashed {
          assert SomeCrash(reg.table, v0, now);
          return;
        }
        i := i + 1;
      }
      assert v0[..i] == v0 && Slots(n)[..i] == Slots(n);
    }

    /**
     * One round of the first pass, on slot i after the slots before it were
     * served from v0 and the player list w0 took their edits: it panics
     * exactly when slot i Crashes, and otherwise serves one slot more.
     */
    method ServeNext(world: W.World, reg: Registry, i: nat, now: int, ghost v0: seq<SlotView>, ghost w0: seq<Player>)
      returns (crashed: bool)
      requires Valid() && hasStarted && world.Valid() && i < |gameConnections|
      requires ServedUpTo(reg.table, v0, Slots(|gameConnections|), i, now)
      requires world.players == Roster(w0, Edits(v0[..i], Slots(|gameConnections|)[..i]))
      modifies world, gameConnections[i], gameConnections[i].rtt, gameConnections[i].rtt.packetSequenceList, transport.connections[i]
      ensures gameConnections == old(gameConnections) && reg.table == old(reg.table)
      ensures crashed <==> Crashes(reg.table, v0[i], now)
      ensures !crashed ==> Valid() && world.Valid()
      ensures !crashed ==> ServedUpTo(reg.table, v0, Slots(|gameConnections|), i + 1, now)
      ensures !crashed ==> world.players == Roster(w0, Edits(v0[..i + 1], Slots(|gameConnections|)[..i + 1]))
      ensures forall p :: p in Players() ==> p in old(Players()) || fresh(p)
    {
      ghost var n := |gameConnections|;
      ghost var cur := Slots(n);
      assert cur[i..][0] == v0[i..][0];
      crashed := ServeSlot(world, reg, i, now);
      Kept(i);
      PlayersGrew(i);
      if !crashed {
        ServedStep(reg.table, v0, cur, SlotAt(i), i, now);
        assert Slots(n)[..i] == cur[..i];
        RosterStep(w0, v0, cur[..i], Slots(n)[..i + 1], i);
      }
    }

    /** A step on slot i that keeps the other slots changes the slots only at i. */
    twostate lemma Kept(i: nat)
      requires old(Valid()) && old(hasStarted) && i < old(|gameConnections|) && OthersKept(i)
      ensures Slots(|gameConnections|) == old(Slots(|gameConnections|))[i := SlotAt(i)]
      ensures forall j :: 0 <= j < |gameConnections| && j != i ==> gameConnections[j].player == old(gameConnections[j].player)
    {
      forall j | 0 <= j < |gameConnections| && j != i
        ensures gameConnections[j].player == old(gameConnections[j].player)
      {
        assert SlotAt(j) == old(SlotAt(j));
      }
    }

    /** The first pass for slot i: ServeView, whose panic is exactly Crashes. */
    method ServeSlot(world: W.World, reg: Registry, i: nat, now: int) returns (crashed: bool)
      requires Valid() && hasStarted && world.Valid() && i < |gameConnections|
      modifies world, gameConnections[i], gameConnections[i].rtt, gameConnections[i].rtt.packetSequenceList, transport.connections[i]
      ensures reg.table == old(reg.table)
      ensures crashed <==> Crashes(reg.table, old(SlotAt(i)), now)
      ensures !crashed ==> Valid() && world.Valid() && SlotAt(i) == ServeView(reg.table, old(SlotAt(i)), gameConnections[i].player, now).0
      ensures world.players == Apply(old(world.players), EditOf(old(SlotAt(i)), gameConnections[i].player))
      ensures gameConnections[i].player == null || gameConnections[i].player == old(gameConnections[i].player) || fresh(gameConnections[i].player)
      ensures OthersKept(i)
    {
      crashed := AdmitSlot(world, i);
      ghost var served := ServeView(reg.table, old(SlotAt(i)), gameConnections[i].player, now);
      if crashed {
        return;
      }
      label admitted:
      crashed := DrainSlot(reg, i, now);
      assert OthersKept@admitted(i);
    }

    /** Reclaim or admit slot i: AdmitView, and the matching edit of the player list. */
    method AdmitSlot(world: W.World, i: nat) returns (crashed: bool)
      requires Valid() && hasStarted && world.Valid() && i < |gameConnections|
      modifies world, gameConnections[i], gameConnections[i].rtt, gameConnections[i].rtt.packetSequenceList, transport.connections[i]
      ensures world.Valid()
      ensures (SlotAt(i), crashed) == AdmitView(old(SlotAt(i)), gameConnections[i].player)
      ensures !crashed ==> Valid()
      ensures world.players == Apply(old(world.players), EditOf(old(SlotAt(i)), gameConnections[i].player))
      ensures gameConnections[i].player == null || gameConnections[i].player == old(gameConnections[i].player) || fresh(gameConnections[i].player)
      ensures OthersKept(i)
    {
      assert SlotOk(i);
      crashed := Admit(world, gameConnections[i], transport.connections[i]);
    }

    /** Drain slot i's queue: DrainView, crashing exactly when the decoder panics. */
    method DrainSlot(reg: Registry, i: nat, now: int) returns (crashed: bool)
      requires Valid() && hasStarted && i < |gameConnections|
      modifies gameConnections[i], gameConnections[i].rtt, transport.connections[i]
      ensures gameConnections[i].player == old(gameConnections[i].player)
      ensures crashed <==> DrainView(reg.table, old(SlotAt(i)), now).1 == Crashed
      ensures !crashed ==> Valid() && SlotAt(i) == DrainView(reg.table, old(SlotAt(i)), now).0
      ensures OthersKept(i)
    {
      crashed := false;
      assert SlotOk(i);
      if transport.connections[i].isConnected {
        crashed := Ingest(reg, gameConnections[i], transport.connections[i], now);
      }
    }

    /** The second and third passes: BroadcastAll after SelectAll, with the world's states after selection. */
    method Passes(world: W.World, now: int, fails: set<nat>)
      requires Valid() && hasStarted && world.Valid()
      modifies transport.connections, gameConnections, Trackers(), Players()
      ensures Valid() && world.Valid() && gameConnections == old(gameConnections) && Players() == old(Players())
      ensures world.players == old(world.players)
      ensures Slots(|gameConnections|) == BroadcastAll(SelectAll(old(Slots(|gameConnections|))), StatesOf(W.Views(world.players)), now, fails)
    {
      Selection();
      Broadcasting(world, now, fails);
    }

    /** The second pass: SelectView on every slot. */
    method Selection()
      requires Valid() && hasStarted
      modifies transport.connections, gameConnections, Players()
      ensures Valid() && gameConnections == old(gameConnections) && Players() == old(Players())
      ensures Slots(|gameConnections|) == SelectAll(old(Slots(|gameConnections|)))
    {
      var gs, cs := gameConnections, transport.connections;
      ghost var v0 := Slots(|gs|);
      var i := 0;
      while i < |gs|
        invariant i <= |gs| && Valid() && gameConnections == gs
        invariant forall j :: 0 <= j < |gs| ==> gs[j].player == old(gs[j].player)
        invariant SelectedUpTo(v0, Slots(|gs|), i)
      {
        assert gs[i] in gs && cs[i] in cs;
        SelectNext(i, v0);
        i := i + 1;
      }
      SelectedAll(v0, Slots(|gs|));
    }

    /** One round of the second pass: slot i joins the selected slots of v0. */
    method SelectNext(i: nat, ghost v0: seq<SlotView>)
      requires Valid() && hasStarted && i < |gameConnections| && SelectedUpTo(v0, Slots(|gameConnections|), i)
      modifies gameConnections[i], gameConnections[i].player, transport.connections[i]
      ensures Valid() && gameConnections == old(gameConnections) && SelectedUpTo(v0, Slots(|gameConnections|), i + 1)
      ensures forall j :: 0 <= j < |gameConnections| ==> gameConnections[j].player == old(gameConnections[j].player)
    {
      SelectedStep(v0, Slots(|gameConnections|), i);
      SelectSlot(i);
      Kept(i);
    }

    /** The second pass for slot i. */
    method SelectSlot(i: nat)
      requires Valid() && hasStarted && i < |gameConnections|
      modifies gameConnections[i], gameConnections[i].player, transport.connections[i]
      ensures Valid()
      ensures gameConnections[i].player == old(gameConnections[i].player)
      ensures SlotAt(i) == SelectView(old(SlotAt(i)))
      ensures OthersKept(i)
    {
      assert SlotOk(i);
      Select(gameConnections[i], transport.connections[i]);
    }

    /** The third pass: BroadcastView on every slot, slot i's send failing when i is in fails. */
    method Broadcasting(world: W.World, now: int, fails: set<nat>)
      requires Valid() && hasStarted
      modifies transport.connections, gameConnections, Trackers()
      ensures Valid() && gameConnections == old(gameConnections) && Players() == old(Players())
      ensures forall j :: 0 <= j < |gameConnections| ==> gameConnections[j].player == old(gameConnections[j].player)
      ensures world.players == old(world.players) && StatesOf(W.Views(world.players)) == old(StatesOf(W.Views(world.players)))
      ensures Slots(|gameConnections|) == BroadcastAll(old(Slots(|gameConnections|)), StatesOf(W.Views(world.players)), now, fails)
    {
      var gs, cs := gameConnections, transport.connections;
      ghost var v0, states := Slots(|gs|), StatesOf(W.Views(world.players));
      var i := 0;
      while i < |gs|
        invariant i <= |gs| && Valid() && gameConnections == gs
        invariant world.players == old(world.players) && StatesOf(W.Views(world.players)) == states
        invariant forall j :: 0 <= j < |gs| ==> gs[j].player == old(gs[j].player)
        invariant BroadcastUpTo(v0, Slots(|gs|), i, states, now, fails)
      {
        assert gs[i] in gs && cs[i] in cs;
        BroadcastNext(world, i, now, fails, v0, states);
        i := i + 1;
      }
      BroadcastedAll(v0, Slots(|gs|), states, now, fails);
      PlayersKept();
    }

    /** One round of the third pass: slot i joins the slots of v0 that got the broadcast. */
    method BroadcastNext(world: W.World, i: nat, now: int, fails: set<nat>, ghost v0: seq<SlotView>, ghost states: seq<PlayerState>)
      requires Valid() && hasStarted && i < |gameConnections| && StatesOf(W.Views(world.players)) == states
      requires BroadcastUpTo(v0, Slots(|gameConnections|), i, states, now, fails)
      modifies gameConnections[i], gameConnections[i].rtt, gameConnections[i].rtt.packetSequenceList, transport.connections[i]
      ensures Valid() && gameConnections == old(gameConnections) && BroadcastUpTo(v0, Slots(|gameConnections|), i + 1, states, now, fails)
      ensures world.players == old(world.players) && StatesOf(W.Views(world.players)) == states
      ensures forall j :: 0 <= j < |gameConnections| ==> gameConnections[j].player == old(gameConnections[j].player)
    {
      BroadcastStep(v0, Slots(|gameConnections|), i, states, now, fails);
      BroadcastSlot(world, i, now, i in fails);
      Kept(i);
    }

    /** The third pass for slot i. */
    method BroadcastSlot(world: W.World, i: nat, now: int, channelFails: bool)
      requires Valid() && hasStarted && i < |gameConnections|
      modifies gameConnections[i], gameConnections[i].rtt, gameConnections[i].rtt.packetSequenceList, transport.connections[i]
      ensures Valid()
      ensures gameConnections[i].player == old(gameConnections[i].player)
      ensures world.players == old(world.players) && StatesOf(W.Views(world.players)) == old(StatesOf(W.Views(world.players)))
      ensures SlotAt(i) == BroadcastView(old(SlotAt(i)), StatesOf(W.Views(world.players)), now, channelFails)
      ensures OthersKept(i)
    {
      assert SlotOk(i);
      BroadcastTo(world, gameConnections[i], transport.connections[i], now, channelFails);
    }

    /**
     * One server tick: the first call builds the game connections; then
     * the three passes, with the outcome Outcome states from the slots the
     * tick started from.
     */
    method BeforeUpdate(world: W.World, reg: Registry, now: int, fails: set<nat>) returns (crashed: bool)
      requires Valid() && world.Valid()
      modifies this, world, transport.connections, gameConnections, Trackers(), Players()
      ensures hasStarted && Outcome(world, old(reg.table), now, fails, old(StartSlots()), old(world.players), crashed)
    {
      ghost var start, players, table := StartSlots(), world.players, reg.table;
      if !hasStarted {
        Init();
        assert Slots(|gameConnections|) == start;
      }
      assert start == Slots(|gameConnections|) && players == world.players && table == reg.table;
      crashed := Tick(world, reg, now, fails);
    }

    /** When no slot's player changed, Players() is unchanged. */
    twostate lemma PlayersKept()
      requires gameConnections == old(gameConnections)
      requires forall j :: 0 <= j < |gameConnections| ==> gameConnections[j].player == old(gameConnections[j].player)
      ensures Players() == old(Players())
    {
      forall p | p in Players()
        ensures p in old(Players())
      {
        var k :| 0 <= k < |gameConnections| && gameConnections[k].player == p;
        assert old(gameConnections[k] in gameConnections && gameConnections[k].player != null);
      }
      forall p | p in old(Players())
        ensures p in Players()
      {
        var k :| 0 <= k < |gameConnections| && old(gameConnections[k].player) == p;
        assert gameConnections[k] in gameConnections && gameConnections[k].player != null;
      }
    }

    /** When only slot i's player may have changed, to an old player or a fresh one, every player is old or fresh. */
    twostate lemma PlayersGrew(i: nat)
      requires gameConnections == old(gameConnections) && i < |gameConnections|
      requires forall j :: 0 <= j < |gameConnections| && j != i ==> gameConnections[j].player == old(gameConnections[j].player)
      requires gameConnections[i].player == null || gameConnections[i].player == old(gameConnections[i].player) || fresh(gameConnections[i].player)
      ensures forall p :: p in Players() ==> p in old(Players()) || fresh(p)
    {
      forall p | p in Players()
        ensures p in old(Players()) || fresh(p)
      {
        var k :| 0 <= k < |gameConnections| && gameConnections[k].player == p;
        if p == old(gameConnections[k].player) {
          assert old(gameConnections[k] in gameConnections && gameConnections[k].player != null);
        }
      }
    }

    /** The three passes of a started server: Outcome from the slots and players at the start of the tick. */
    method Tick(world: W.World, reg: Registry, now: int, fails: set<nat>) returns (crashed: bool)
      requires Valid() && hasStarted && world.Valid()
      modifies world, transport.connections, gameConnections, Trackers(), Players()
      ensures Outcome(world, old(reg.table), now, fails, old(Slots(|gameConnections|)), old(world.players), crashed)
      ensures forall p :: p in Players() ==> p in old(Players()) || fresh(p)
    {
      ghost var n, table := |gameConnections|, reg.table;
      ghost var v0 := Slots(n);
      crashed := Admission(world, reg, now);
      if crashed {
        return;
      }
      ghost var v1 := Slots(n);
      Passes(world, now, fails);
      PassesCompose(table, v0, v1, StatesOf(W.Views(world.players)), now, fails);
    }
  }
}
