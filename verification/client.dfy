/**
 * The client's network tick (internal/netcode/client): once connected, it
 * numbers the frame, records the local input, reads the packets the server
 * sent, snaps the world to the newest world state and replays the inputs
 * the server has not simulated yet, then sends its acknowledgements and
 * its latest inputs. The transport is abstract: the frames received this
 * tick come in as a list of byte strings, and the bytes to send go out as
 * the result.
 */
module Client {
  import opened Wrappers
  import opened Wire
  import opened Seqs
  import opened Ent
  import opened Rtt
  import opened Packs
  import opened Netconst
  import W = World
  import Packbuf
  import PackbufWrite
  import PackbufRead

  /** maxClientInputBuffer, the local constant of BeforeUpdate: frames of input kept for replay. */
  const InputHistoryLimit := 60

  // ------------------------------------------------------------ frame counter

  /** The frame counter after one tick: incremented with 16-bit wrap-around, stepping over 0. */
  function NextFrame(c: uint16): (r: uint16)
    ensures r != 0
    ensures c < 0xffff ==> r == c + 1
    ensures c == 0xffff ==> r == 1
  {
    var n := (c + 1) % 0x1_0000;
    if n == 0 then n + 1 else n
  }

  // ------------------------------------------------------------ input history

  /** The history after recording f: f goes last, and the oldest entry is dropped when the history is full. */
  function PushInput(buf: seq<ClientFrameInput>, f: ClientFrameInput): (r: seq<ClientFrameInput>)
    ensures |r| == if |buf| < InputHistoryLimit then |buf| + 1 else |buf|
    ensures |r| > 0 && r[|r| - 1] == f
    ensures r[..|r| - 1] == buf[|buf| - (|r| - 1)..]
  {
    if |buf| >= InputHistoryLimit then buf[1..] + [f] else buf + [f]
  }

  // ------------------------------------------------------------ receiving

  /** What the read loop accumulates: the ack list, the tracker, and the world state kept so far. */
  datatype Inbox = Inbox(acks: seq<uint16>, tracker: TrackerState, best: Option<Packet>)

  /** Whether a received packet replaces the kept world state: a world state with a nonzero MyNetID that is newer. */
  predicate Newer(best: Option<Packet>, p: Packet)
  {
    && p.ServerWorldStatePacket? && p.myNetId != 0
    && (best.Some? && best.value.ServerWorldStatePacket? ==>
          IsWrappedUInt16GreaterThan(p.lastSimulatedInputFrame, best.value.lastSimulatedInputFrame))
  }

  /**
   * One decoded packet: every packet but an Ack is acknowledged; an Ack
   * acknowledges each of its sequence numbers to the tracker; a world state
   * is kept when it is newer; a client packet is unhandled and panics (None).
   */
  function Handle(s: Inbox, r: Received, now: int): (o: Option<Inbox>)
    ensures o.None? <==> r.packet.ClientPlayerPacket?
    ensures o.Some? ==> o.value.acks == s.acks + (if r.packet.AckPacket? then [] else [r.seqId])
    ensures o.Some? ==> o.value.tracker == if r.packet.AckPacket? then AckAll(s.tracker, r.packet.sequenceIds, now) else s.tracker
    ensures o.Some? ==> o.value.best == if Newer(s.best, r.packet) then Some(r.packet) else s.best
  {
    var acks := if r.packet.AckPacket? then s.acks else s.acks + [r.seqId];
    match r.packet
    case AckPacket(ids) => Some(Inbox(acks, AckAll(s.tracker, ids, now), s.best))
    case ServerWorldStatePacket(me, last, _) =>
      if me == 0 then Some(s.(acks := acks))
      else if s.best.None? || !s.best.value.ServerWorldStatePacket? then Some(s.(acks := acks, best := Some(r.packet)))
      else if IsWrappedUInt16GreaterThan(last, s.best.value.lastSimulatedInputFrame) then Some(s.(acks := acks, best := Some(r.packet)))
      else Some(s.(acks := acks))
    case ClientPlayerPacket(_) => None
  }

  /** A kept world state is one with a nonzero MyNetID. */
  predicate GoodBest(best: Option<Packet>)
  {
    best.Some? ==> best.value.ServerWorldStatePacket? && best.value.myNetId != 0
  }

  /**
   * The read loop over one received frame from pos: until EOF; any other
   * read error panics (None). Reading only grows the ack list, keeps the
   * tracker's counter and ring, and keeps a world state only when its
   * MyNetID is nonzero.
   */
  function HandleFrame(table: map<byte, PacketType>, s: Inbox, data: seq<byte>, pos: nat, now: int): (o: Option<Inbox>)
    requires pos <= |data|
    ensures o.Some? ==> s.acks <= o.value.acks && o.value.tracker.sequenceId == s.tracker.sequenceId
                        && o.value.tracker.ring == s.tracker.ring && (GoodBest(s.best) ==> GoodBest(o.value.best))
    decreases |data| - pos
  {
    var r := ParsePacket(table, data, pos);
    match r.result
    case Err(e) => if e == Codec(Packbuf.EOF) then Some(s) else None
    case Ok(rcv) =>
      match Handle(s, rcv, now)
      case None => None
      case Some(s') => HandleFrame(table, s', data, r.pos, now)
  }

  /** The read loop over every frame received this tick, in order, with the same guarantees. */
  function HandleFrames(table: map<byte, PacketType>, s: Inbox, frames: seq<seq<byte>>, now: int): (o: Option<Inbox>)
    ensures o.Some? ==> s.acks <= o.value.acks && o.value.tracker.sequenceId == s.tracker.sequenceId
                        && o.value.tracker.ring == s.tracker.ring && (GoodBest(s.best) ==> GoodBest(o.value.best))
    decreases |frames|
  {
    if frames == [] then Some(s)
    else
      match HandleFrame(table, s, frames[0], 0, now)
      case None => None
      case Some(s') => HandleFrames(table, s', frames[1..], now)
  }

  /**
   * The client's read loop over a frame holding at most two packets, the
   * first (if any) ending at mid and the second (if any) at the end.
   */
  lemma ReadBack(table: map<byte, PacketType>, c: Inbox, data: seq<byte>, mid: nat,
                 r1: Option<Received>, r2: Option<Received>, now: int)
    requires mid <= |data|
    requires r1.None? ==> mid == 0
    requires r1.Some? ==> ParsePacket(table, data, 0) == Parsed(Ok(r1.value), mid) && !r1.value.packet.ClientPlayerPacket?
    requires r2.None? ==> mid == |data|
    requires r2.Some? ==> ParsePacket(table, data, mid) == Parsed(Ok(r2.value), |data|) && !r2.value.packet.ClientPlayerPacket?
    ensures var c1 := if r1.None? then c else Handle(c, r1.value, now).value;
            HandleFrame(table, c, data, 0, now) == Some(if r2.None? then c1 else Handle(c1, r2.value, now).value)
  {
    var c1 := if r1.None? then c else Handle(c, r1.value, now).value;
    var c2 := if r2.None? then c1 else Handle(c1, r2.value, now).value;
    if r1.Some? {
      HandleFrameStep(table, c, r1.value, data, 0, mid, now);
    }
    if r2.Some? {
      HandleFrameStep(table, c1, r2.value, data, mid, |data|, now);
    }
    ParseAtEnd(table, data);
    assert HandleFrame(table, c2, data, |data|, now) == Some(c2);
  }

  /** One turn of the client's read loop, for a packet that parses and is handled. */
  lemma HandleFrameStep(table: map<byte, PacketType>, c: Inbox, r: Received, data: seq<byte>, pos: nat, end: nat, now: int)
    requires pos <= end <= |data| && ParsePacket(table, data, pos) == Parsed(Ok(r), end)
    requires Handle(c, r, now).Some?
    ensures HandleFrame(table, c, data, pos, now) == HandleFrame(table, Handle(c, r, now).value, data, end, now)
  {
  }

  // ------------------------------------------------------------ snapping to the world state

  /** The fields a PlayerState carries, written over a body. */
  function Overwrite(b: Body, st: PlayerState): (r: Body)
    ensures r.netId == b.netId && r.inputs == b.inputs && r.width == b.width && r.height == b.height
    ensures Carries(r, st)
  {
    b.(x := st.x, y := st.y, hspeed := st.hspeed, vspeed := st.vspeed, dirLeft := st.dirLeft)
  }

  /** b holds the position, speeds and facing of st. */
  predicate Carries(b: Body, st: PlayerState)
  {
    b.x == st.x && b.y == st.y && b.hspeed == st.hspeed && b.vspeed == st.vspeed && b.dirLeft == st.dirLeft
  }

  /** A player spawned for st: a new player with st's NetID and fields. */
  function Spawned(st: PlayerState): (r: Body)
    ensures r.netId == st.netId && Carries(r, st) && r.width == Float96 && r.height == Float96 && r.inputs == NoInput
  {
    Overwrite(W.NewBody.(netId := st.netId), st)
  }

  predicate HasNetId(bs: seq<Body>, id: uint16)
  {
    exists i :: 0 <= i < |bs| && bs[i].netId == id
  }

  /**
   * One PlayerState: every body with its NetID takes its fields; when none
   * has it, a new player is appended for it.
   */
  function ApplyState(bs: seq<Body>, st: PlayerState): (r: seq<Body>)
    ensures |r| == if HasNetId(bs, st.netId) then |bs| else |bs| + 1
    ensures forall i :: 0 <= i < |bs| ==> r[i] == if bs[i].netId == st.netId then Overwrite(bs[i], st) else bs[i]
    ensures !HasNetId(bs, st.netId) ==> r[|bs|] == Spawned(st)
  {
    var updated := seq(|bs|, i requires 0 <= i < |bs| => if bs[i].netId == st.netId then Overwrite(bs[i], st) else bs[i]);
    if HasNetId(bs, st.netId) then updated else updated + [Spawned(st)]
  }

  /**
   * The PlayerStates of a world state, applied in order: the bodies already
   * there stay, in their places and with their NetIDs and inputs; each body
   * added is spawned for a NetID of the world state.
   */
  function ApplyStates(bs: seq<Body>, sts: seq<PlayerState>): (r: seq<Body>)
    ensures |bs| <= |r| <= |bs| + |sts|
    ensures forall i :: 0 <= i < |bs| ==> r[i].netId == bs[i].netId && r[i].inputs == bs[i].inputs
    ensures forall i :: |bs| <= i < |r| ==> exists k :: 0 <= k < |sts| && r[i].netId == sts[k].netId
    decreases |sts|
  {
    if sts == [] then bs else ApplyStates(ApplyState(bs, sts[0]), sts[1..])
  }

  /** After one PlayerState, some body has its NetID and every body with that NetID carries its fields. */
  lemma ApplyStateEstablishes(bs: seq<Body>, st: PlayerState)
    ensures var r := ApplyState(bs, st);
            HasNetId(r, st.netId) && forall i :: 0 <= i < |r| && r[i].netId == st.netId ==> Carries(r[i], st)
  {
    var r := ApplyState(bs, st);
    if !HasNetId(bs, st.netId) {
      assert r[|bs|].netId == st.netId;
    } else {
      var i :| 0 <= i < |bs| && bs[i].netId == st.netId;
      assert r[i].netId == st.netId;
    }
  }

  /** Applying the same PlayerState twice is applying it once. */
  lemma ApplyStateIdempotent(bs: seq<Body>, st: PlayerState)
    ensures ApplyState(ApplyState(bs, st), st) == ApplyState(bs, st)
  {
    ApplyStateEstablishes(bs, st);
  }

  /** A PlayerState never disturbs a body with another NetID, and never removes a NetID. */
  lemma ApplyStateFrames(bs: seq<Body>, st: PlayerState, id: uint16)
    requires id != st.netId
    ensures var r := ApplyState(bs, st);
            (HasNetId(r, id) <==> HasNetId(bs, id))
            && (forall i :: 0 <= i < |bs| && bs[i].netId == id ==> r[i] == bs[i])
            && (forall i :: |bs| <= i < |r| ==> r[i].netId != id)
  {
    var r := ApplyState(bs, st);
    if HasNetId(r, id) {
      var i :| 0 <= i < |r| && r[i].netId == id;
      assert i < |bs| && bs[i].netId == id;
    }
    if HasNetId(bs, id) {
      var i :| 0 <= i < |bs| && bs[i].netId == id;
      assert r[i].netId == id;
    }
  }

  /**
   * The snapshot is applied in full: when the NetIDs of a world state are
   * distinct, afterwards every one of its players is present and every body
   * with that NetID carries that player's fields.
   */
  lemma {:induction false} ApplyStatesEstablishes(bs: seq<Body>, sts: seq<PlayerState>)
    requires forall a, b :: 0 <= a < b < |sts| ==> sts[a].netId != sts[b].netId
    ensures var r := ApplyStates(bs, sts);
            forall k :: 0 <= k < |sts| ==>
              HasNetId(r, sts[k].netId) && forall i :: 0 <= i < |r| && r[i].netId == sts[k].netId ==> Carries(r[i], sts[k])
    decreases |sts|
  {
    if sts != [] {
      var bs' := ApplyState(bs, sts[0]);
      ApplyStatesEstablishes(bs', sts[1..]);
      ApplyStateEstablishes(bs, sts[0]);
      ApplyStatesPreserves(bs', sts[1..], sts[0]);
      var r := ApplyStates(bs, sts);
      forall k | 0 <= k < |sts|
        ensures HasNetId(r, sts[k].netId) && forall i :: 0 <= i < |r| && r[i].netId == sts[k].netId ==> Carries(r[i], sts[k])
      {
        if k > 0 {
          assert sts[k] == sts[1..][k - 1];
        }
      }
    }
  }

  /** Later PlayerStates with other NetIDs leave the bodies of st's NetID as they are. */
  lemma {:induction false} ApplyStatesPreserves(bs: seq<Body>, sts: seq<PlayerState>, st: PlayerState)
    requires forall k :: 0 <= k < |sts| ==> sts[k].netId != st.netId
    requires HasNetId(bs, st.netId) && forall i :: 0 <= i < |bs| && bs[i].netId == st.netId ==> Carries(bs[i], st)
    ensures var r := ApplyStates(bs, sts);
            HasNetId(r, st.netId) && forall i :: 0 <= i < |r| && r[i].netId == st.netId ==> Carries(r[i], st)
    decreases |sts|
  {
    if sts != [] {
      var bs' := ApplyState(bs, sts[0]);
      ApplyStateFrames(bs, sts[0], st.netId);
      ApplyStatesPreserves(bs', sts[1..], st);
    }
  }

  // ------------------------------------------------------------ replay

  /** The unprocessed inputs: the history from its first frame after the last simulated one. */
  function ReplayFrom(buf: seq<ClientFrameInput>, last: uint16): (r: seq<ClientFrameInput>)
    ensures |r| <= |buf| && r == buf[|buf| - |r|..]
    ensures r == [] <==> forall j :: 0 <= j < |buf| ==> !IsWrappedUInt16GreaterThan(buf[j].frame, last)
    ensures r != [] ==> IsWrappedUInt16GreaterThan(r[0].frame, last)
    ensures forall j :: 0 <= j < |buf| - |r| ==> !IsWrappedUInt16GreaterThan(buf[j].frame, last)
  {
    match FirstWhere(buf, (f: ClientFrameInput) => IsWrappedUInt16GreaterThan(f.frame, last))
    case None => []
    case Some(i) => buf[i..]
  }

  /** The player stepped once per input frame, each with that frame's input held. */
  function Replay(b: Body, frames: seq<ClientFrameInput>, physics: Body -> Motion): Body
    decreases |frames|
  {
    if frames == [] then b else Replay(Advance(b.(inputs := frames[0].input), physics), frames[1..], physics)
  }

  /** Replaying keeps who the player is and its size; only the motion changes. */
  lemma {:induction false} ReplayKeepsIdentity(b: Body, frames: seq<ClientFrameInput>, physics: Body -> Motion)
    ensures var r := Replay(b, frames, physics);
            r.netId == b.netId && r.width == b.width && r.height == b.height
    ensures frames != [] ==> Replay(b, frames, physics).inputs == frames[|frames| - 1].input
    decreases |frames|
  {
    if frames != [] {
      ReplayKeepsIdentity(Advance(b.(inputs := frames[0].input), physics), frames[1..], physics);
    }
  }

  /** Replaying two runs of frames is replaying them joined. */
  lemma {:induction false} ReplayConcat(b: Body, xs: seq<ClientFrameInput>, ys: seq<ClientFrameInput>, physics: Body -> Motion)
    ensures Replay(b, xs + ys, physics) == Replay(Replay(b, xs, physics), ys, physics)
    decreases |xs|
  {
    if xs == [] {
      assert xs + ys == ys;
    } else {
      assert (xs + ys)[0] == xs[0] && (xs + ys)[1..] == xs[1..] + ys;
      ReplayConcat(Advance(b.(inputs := xs[0].input), physics), xs[1..], ys, physics);
    }
  }

  /** The local player after the replay: stepped through the unprocessed inputs, with its live input put back. */
  function Replayed(b: Body, frames: seq<ClientFrameInput>, physics: Body -> Motion): (r: Body)
    ensures r.inputs == b.inputs && r.netId == b.netId
    ensures frames == [] ==> r == b
  {
    ReplayKeepsIdentity(b, frames, physics);
    if frames == [] then b else Replay(b, frames, physics).(inputs := b.inputs)
  }

  // ------------------------------------------------------------ sending

  /** The inputs sent to the server: the last MaxServerInputBuffer frames of the history. */
  function Batch(buf: seq<ClientFrameInput>): (r: seq<ClientFrameInput>)
    ensures |r| == if |buf| > MaxServerInputBuffer then MaxServerInputBuffer else |buf|
    ensures r == buf[|buf| - |r|..]
  {
    if |buf| > MaxServerInputBuffer then buf[|buf| - MaxServerInputBuffer..] else buf
  }

  /** The bytes of one send: the ack packet when there are acks, then the input packet, numbered from seqId on. */
  function Outgoing(seqId: uint16, acks: seq<uint16>, buf: seq<ClientFrameInput>): (r: seq<byte>)
    ensures |r| >= 3 && FromLE(r[1..3]) == seqId
    ensures r[0] == Id(TypeOf(if acks == [] then ClientPlayerPacket(Batch(buf)) else AckPacket(acks)))
  {
    if acks == [] then EncodePacket(seqId, ClientPlayerPacket(Batch(buf)))
    else
      var a := EncodePacket(seqId, AckPacket(acks));
      var b := EncodePacket((seqId + 1) % 0x1_0000, ClientPlayerPacket(Batch(buf)));
      assert (a + b)[1..3] == a[1..3];
      a + b
  }

  /**
   * What the server reads from one send of the client: the ack packet with
   * the first sequence number when there are acks, then the input batch
   * with the next one, then EOF.
   */
  lemma OutgoingParses(seqId: uint16, acks: seq<uint16>, buf: seq<ClientFrameInput>)
    requires |acks| <= Packbuf.MaxSliceCount
    ensures var data := Outgoing(seqId, acks, buf);
            var batch := ClientPlayerPacket(Batch(buf));
            if acks == [] then
              && ParsePacket(StandardTable, data, 0) == Parsed(Ok(Received(seqId, batch)), |data|)
              && ParsePacket(StandardTable, data, |data|) == Parsed(Err(Codec(Packbuf.EOF)), |data|)
            else
              var n := |EncodePacket(seqId, AckPacket(acks))|;
              && ParsePacket(StandardTable, data, 0) == Parsed(Ok(Received(seqId, AckPacket(acks))), n)
              && ParsePacket(StandardTable, data, n) == Parsed(Ok(Received((seqId + 1) % 0x1_0000, batch)), |data|)
              && ParsePacket(StandardTable, data, |data|) == Parsed(Err(Codec(Packbuf.EOF)), |data|)
  {
    var data := Outgoing(seqId, acks, buf);
    var batch := ClientPlayerPacket(Batch(buf));
    ParseAtEnd(StandardTable, data);
    if acks == [] {
      assert data[0..|data|] == data;
      PacketRoundTrip(seqId, batch, data, 0);
    } else {
      var b1 := EncodePacket(seqId, AckPacket(acks));
      var b2 := EncodePacket((seqId + 1) % 0x1_0000, batch);
      assert data[0..|b1|] == b1;
      assert data[|b1|..|b1| + |b2|] == b2;
      PacketRoundTrip(seqId, AckPacket(acks), data, 0);
      PacketRoundTrip((seqId + 1) % 0x1_0000, batch, data, |b1|);
    }
  }

  // ------------------------------------------------------------ imperative code

  /** The five fields of a PlayerState copied onto an entity. */
  method SetState(e: Player, st: PlayerState)
    modifies e
    ensures e.View() == Overwrite(old(e.View()), st)
  {
    e.x, e.y, e.hspeed, e.vspeed, e.dirLeft := st.x, st.y, st.hspeed, st.vspeed, st.dirLeft;
  }

  /** One PlayerState: copied onto every entity with its NetID, or onto a new player when there is none. */
  method ApplyOne(world: W.World, st: PlayerState)
    requires world.Valid()
    modifies world, set p | p in world.players
    ensures world.Valid() && world.myPlayer == old(world.myPlayer) && world.playerInput == old(world.playerInput)
    ensures W.Views(world.players) == ApplyState(old(W.Views(world.players)), st)
    ensures old(world.players) <= world.players
    ensures forall i :: |old(world.players)| <= i < |world.players| ==> fresh(world.players[i])
  {
    ghost var before := W.Views(world.players);
    ghost var after := ApplyState(before, st);
    var found := false;
    var j := 0;
    while j < |world.players|
      invariant j <= |world.players| && world.players == old(world.players) && world.Valid()
      invariant world.myPlayer == old(world.myPlayer) && world.playerInput == old(world.playerInput)
      invariant forall i :: 0 <= i < j ==> world.players[i].View() == after[i]
      invariant forall i :: j <= i < |world.players| ==> world.players[i].View() == before[i]
      invariant found <==> exists i :: 0 <= i < j && before[i].netId == st.netId
    {
      var e := world.players[j];
      if e.netId == st.netId {
        SetState(e, st);
        found := true;
      }
      j := j + 1;
    }
    if !found {
      var e := world.CreatePlayer();
      e.netId := st.netId;
      SetState(e, st);
    }
    assert W.Views(world.players) == after;
  }

  /** The player-list half of snapping to a world state: every PlayerState applied in order. */
  method ApplyWorldState(world: W.World, states: seq<PlayerState>)
    requires world.Valid()
    modifies world, set p | p in world.players
    ensures world.Valid() && world.myPlayer == old(world.myPlayer) && world.playerInput == old(world.playerInput)
    ensures W.Views(world.players) == ApplyStates(old(W.Views(world.players)), states)
    ensures old(world.players) <= world.players
    ensures forall i :: |old(world.players)| <= i < |world.players| ==> fresh(world.players[i])
  {
    var k := 0;
    while k < |states|
      invariant k <= |states| && world.Valid()
      invariant world.myPlayer == old(world.myPlayer) && world.playerInput == old(world.playerInput)
      invariant old(world.players) <= world.players
      invariant forall i :: |old(world.players)| <= i < |world.players| ==> fresh(world.players[i])
      invariant ApplyStates(old(W.Views(world.players)), states) == ApplyStates(W.Views(world.players), states[k..])
    {
      assert states[k..][0] == states[k] && states[k..][1..] == states[k + 1..];
      ApplyOne(world, states[k]);
      k := k + 1;
    }
  }

  /**
   * The replay: finds the first history entry after the last simulated
   * frame, steps the player through the inputs from there, then puts its
   * live input back.
   */
  method ReplayUnprocessed(player: Player, buf: seq<ClientFrameInput>, last: uint16, physics: Body -> Motion)
    modifies player
    ensures player.View() == Replayed(old(player.View()), ReplayFrom(buf, last), physics)
  {
    var unprocessed: seq<ClientFrameInput> := [];
    var count := 0;
    var i := 0;
    while i < |buf|
      invariant i <= |buf|
      invariant count == 0 <==> forall j :: 0 <= j < i ==> !IsWrappedUInt16GreaterThan(buf[j].frame, last)
      invariant count == 0 ==> unprocessed == []
      invariant count > 0 ==> unprocessed == ReplayFrom(buf, last)
    {
      if IsWrappedUInt16GreaterThan(buf[i].frame, last) {
        if count == 0 {
          assert FirstWhere(buf, (f: ClientFrameInput) => IsWrappedUInt16GreaterThan(f.frame, last)) == Some(i);
          unprocessed := buf[i..];
        }
        count := count + 1;
      }
      i := i + 1;
    }
    if count > 0 {
      ghost var b := player.View();
      var prevInput := player.inputs;
      var k := 0;
      while k < |unprocessed|
        invariant k <= |unprocessed|
        invariant Replay(b, unprocessed, physics) == Replay(player.View(), unprocessed[k..], physics)
      {
        player.inputs := unprocessed[k].input;
        player.Update(physics);
        assert unprocessed[k..][0] == unprocessed[k] && unprocessed[k..][1..] == unprocessed[k + 1..];
        k := k + 1;
      }
      player.inputs := prevInput;
    }
  }

  /** The full history taking a new entry: everything moved down one slot, then the last slot overwritten. */
  method ShiftIn(buf: seq<ClientFrameInput>, f: ClientFrameInput) returns (b: seq<ClientFrameInput>)
    requires |buf| > 0
    ensures b == buf[1..] + [f]
  {
    b := buf;
    var i := 1;
    while i < |b|
      invariant 1 <= i <= |b| == |buf|
      invariant forall j :: 0 <= j < i - 1 ==> b[j] == buf[j + 1]
      invariant forall j :: i - 1 <= j < |b| ==> b[j] == buf[j]
    {
      b := b[i - 1 := b[i]];
      i := i + 1;
    }
    b := b[|b| - 1 := f];
  }

  /** The views of the first |views| players of ps once me's NetID is set to id. */
  function Renamed(views: seq<Body>, ps: seq<Player>, me: Player?, id: uint16): (r: seq<Body>)
    requires |views| <= |ps|
    ensures |r| == |views|
    ensures forall i :: 0 <= i < |views| && ps[i] != me ==> r[i] == views[i]
    ensures forall i :: 0 <= i < |views| && ps[i] == me ==> r[i] == views[i].(netId := id)
  {
    seq(|views|, i requires 0 <= i < |views| => if ps[i] == me then views[i].(netId := id) else views[i])
  }

  /**
   * The part of the client's world a snap touches: the player list, the
   * players' bodies, the local player and its body (when there is one).
   */
  datatype Scene = Scene(players: seq<Player>, views: seq<Body>, me: Player?, mine: Option<Body>)

  /** The scene of a world. */
  function SceneOf(world: W.World): (r: Scene)
    reads world, world.myPlayer, set p | p in world.players
    ensures r.players == world.players && r.me == world.myPlayer && |r.views| == |r.players|
    ensures forall i :: 0 <= i < |r.players| ==> r.views[i] == r.players[i].View()
    ensures r.mine.Some? <==> r.me != null
    ensures r.me != null ==> r.mine.value == r.me.View()
  {
    Scene(world.players, W.Views(world.players), world.myPlayer,
          if world.myPlayer == null then None else Some(world.myPlayer.View()))
  }

  /** The scene once p, a new player, is appended and becomes the local player. */
  function Joined(sc: Scene, p: Player): (r: Scene)
    ensures r.players == sc.players + [p] && r.views == sc.views + [W.NewBody] && r.me == p && r.mine == Some(W.NewBody)
  {
    Scene(sc.players + [p], sc.views + [W.NewBody], p, Some(W.NewBody))
  }

  /**
   * The players once a snap is done: each other player carries its body in
   * mid (the bodies after the world state was applied), and the local
   * player its mid body with the unprocessed inputs replayed.
   */
  predicate Snapped(after: Scene, mid: seq<Body>, replay: seq<ClientFrameInput>, physics: Body -> Motion)
  {
    && |after.players| == |after.views| == |mid|
    && (forall i :: 0 <= i < |mid| && after.players[i] != after.me ==> after.views[i] == mid[i])
    && (forall i :: 0 <= i < |mid| && after.players[i] == after.me ==> after.views[i] == Replayed(mid[i], replay, physics))
  }

  /**
   * The scene after snapping to best, from the scene before: with no world
   * state the bodies are unchanged; with one, the players are Snapped to the
   * states applied over the renamed bodies, and a local player outside the
   * list replayed its inputs too.
   */
  predicate SnappedFrom(after: Scene, before: Scene, best: Option<Packet>, buf: seq<ClientFrameInput>, physics: Body -> Motion)
  {
    match best
    case None => after.views == before.views
    case Some(packet) =>
      && packet.ServerWorldStatePacket?
      && |before.views| <= |before.players|
      && Snapped(after, ApplyStates(Renamed(before.views, before.players, before.me, packet.myNetId), packet.players),
                 ReplayFrom(buf, packet.lastSimulatedInputFrame), physics)
      && (after.me !in after.players && before.mine.Some? ==>
            after.mine == Some(Replayed(before.mine.value.(netId := packet.myNetId),
                                        ReplayFrom(buf, packet.lastSimulatedInputFrame), physics)))
  }

  /**
   * Snapping to the newest world state: the local player takes MyNetID,
   * every PlayerState is applied, and the local player replays the inputs
   * after LastSimulatedInputFrame. Every other player ends as the snapshot
   * left it.
   */
  method Snap(world: W.World, packet: Packet, buf: seq<ClientFrameInput>, physics: Body -> Motion)
    requires world.Valid() && packet.ServerWorldStatePacket?
    modifies world, world.myPlayer, set p | p in world.players
    ensures world.Valid() && world.myPlayer == old(world.myPlayer) && world.playerInput == old(world.playerInput)
    ensures old(world.players) <= world.players
    ensures forall i :: |old(world.players)| <= i < |world.players| ==> fresh(world.players[i])
    ensures SnappedFrom(SceneOf(world), old(SceneOf(world)), Some(packet), buf, physics)
  {
    ghost var renamed := Renamed(W.Views(world.players), world.players, world.myPlayer, packet.myNetId);
    ghost var ps0 := world.players;
    var me := world.myPlayer;
    if me != null {
      me.netId := packet.myNetId;
    }
    assert W.Views(world.players) == renamed;
    ApplyWorldState(world, packet.players);
    ghost var mid := W.Views(world.players);
    assert me !in ps0 ==> me !in world.players;
    assert Renamed(old(W.Views(world.players)), world.players, me, packet.myNetId) == renamed;
    if me != null {
      ReplayUnprocessed(me, buf, packet.lastSimulatedInputFrame, physics);
    }
  }

  /** The snap of a connected tick: to the kept world state, when there is one. */
  method SnapTo(world: W.World, best: Option<Packet>, buf: seq<ClientFrameInput>, physics: Body -> Motion)
    requires world.Valid() && (best.Some? ==> best.value.ServerWorldStatePacket?)
    modifies world, world.myPlayer, set p | p in world.players
    ensures world.Valid() && world.myPlayer == old(world.myPlayer) && old(world.players) <= world.players
    ensures best.None? ==> world.players == old(world.players)
    ensures SnappedFrom(SceneOf(world), old(SceneOf(world)), best, buf, physics)
  {
    if best.Some? {
      Snap(world, best.value, buf, physics);
    }
  }

  /** What one tick of BeforeUpdate did. */
  datatype Outcome = NotConnected | Sent(bytes: seq<byte>) | Panicked

  /** The client's netcode state (Controller). */
  class Controller {
    const rtt: RoundTripTracking
    /** ackPacket.SequenceIDList: sequence numbers received and not yet acknowledged. */
    var ackList: seq<uint16>
    var frameCounter: uint16
    /** frameInputBuffer: the recent inputs, oldest first. */
    var frameInputBuffer: seq<ClientFrameInput>
    var hasStarted: bool
    var hasConnected: bool

    /** The history is bounded and never holds frame 0. */
    ghost predicate Valid()
      reads this, rtt
    {
      && rtt.Valid()
      && |frameInputBuffer| <= InputHistoryLimit
      && forall i :: 0 <= i < |frameInputBuffer| ==> frameInputBuffer[i].frame != 0
    }

    /** &Controller{}: every field zero. */
    constructor ()
      ensures Valid() && fresh(rtt) && fresh(rtt.packetSequenceList) && rtt.State() == InitialState()
      ensures ackList == [] && frameCounter == 0 && frameInputBuffer == [] && !hasStarted && !hasConnected
    {
      rtt := new RoundTripTracking();
      ackList := [];
      frameCounter := 0;
      frameInputBuffer := [];
      hasStarted := false;
      hasConnected := false;
    }

    /** Records one frame of input: shifts the history down a slot when it is full, else appends. */
    method RecordInput(f: ClientFrameInput)
      modifies this
      ensures frameInputBuffer == PushInput(old(frameInputBuffer), f)
      ensures ackList == old(ackList) && frameCounter == old(frameCounter)
      ensures hasStarted == old(hasStarted) && hasConnected == old(hasConnected)
    {
      if |frameInputBuffer| >= InputHistoryLimit {
        frameInputBuffer := ShiftIn(frameInputBuffer, f);
      } else {
        frameInputBuffer := frameInputBuffer + [f];
      }
    }

    /** The loop over an Ack packet's list: each sequence number acknowledged to the tracker, in order. */
    method AckEach(ids: seq<uint16>, now: int)
      requires rtt.Valid()
      modifies rtt
      ensures rtt.Valid() && rtt.State() == AckAll(old(rtt.State()), ids, now)
    {
      var i := 0;
      while i < |ids|
        invariant i <= |ids| && rtt.Valid()
        invariant AckAll(old(rtt.State()), ids, now) == AckAll(rtt.State(), ids[i..], now)
      {
        rtt.Ack(ids[i], now);
        assert ids[i..][0] == ids[i] && ids[i..][1..] == ids[i + 1..];
        i := i + 1;
      }
    }

    /** The handling of one decoded packet other than a client packet: acknowledge it, act on its type. */
    method Take(rcv: Received, best: Option<Packet>, now: int) returns (best': Option<Packet>)
      requires Valid() && !rcv.packet.ClientPlayerPacket?
      modifies this, rtt
      ensures Valid()
      ensures frameCounter == old(frameCounter) && frameInputBuffer == old(frameInputBuffer)
      ensures hasStarted == old(hasStarted) && hasConnected == old(hasConnected)
      ensures Handle(Inbox(old(ackList), old(rtt.State()), best), rcv, now) == Some(Inbox(ackList, rtt.State(), best'))
    {
      best' := best;
      if !rcv.packet.AckPacket? {
        ackList := ackList + [rcv.seqId];
      }
      match rcv.packet {
        case AckPacket(ids) =>
          AckEach(ids, now);
        case ServerWorldStatePacket(me, last, _) =>
          if me != 0 {
            if best.Some? && best.value.ServerWorldStatePacket? {
              if IsWrappedUInt16GreaterThan(last, best.value.lastSimulatedInputFrame) {
                best' := Some(rcv.packet);
              }
            } else {
              best' := Some(rcv.packet);
            }
          }
      }
    }

    /** The inner read loop: every packet of one received frame, until EOF; any other read error, or a client packet, panics. */
    method ReceiveFrame(reg: Registry, data: seq<byte>, best: Option<Packet>, now: int) returns (best': Option<Packet>, panicked: bool)
      requires Valid()
      modifies this, rtt
      ensures Valid()
      ensures frameCounter == old(frameCounter) && frameInputBuffer == old(frameInputBuffer)
      ensures hasStarted == old(hasStarted) && hasConnected == old(hasConnected)
      ensures var o := HandleFrame(reg.table, Inbox(old(ackList), old(rtt.State()), best), data, 0, now);
              (panicked <==> o.None?) && (!panicked ==> Inbox(ackList, rtt.State(), best') == o.value)
    {
      best', panicked := best, false;
      var r := new PackbufRead.Reader(data);
      while true
        invariant r.Valid() && r.data == data && Valid()
        invariant frameCounter == old(frameCounter) && frameInputBuffer == old(frameInputBuffer)
        invariant hasStarted == old(hasStarted) && hasConnected == old(hasConnected)
        invariant HandleFrame(reg.table, Inbox(old(ackList), old(rtt.State()), best), data, 0, now)
               == HandleFrame(reg.table, Inbox(ackList, rtt.State(), best'), data, r.pos, now)
        decreases |r.data| - r.pos
      {
        var res := Packs.Read(reg, r);
        if res.Err? {
          if res.error == Codec(Packbuf.EOF) {
            return best', false;
          }
          return best', true;
        }
        if res.value.packet.ClientPlayerPacket? {
          return best', true;
        }
        best' := Take(res.value, best', now);
      }
    }

    /** The outer read loop: every frame received this tick, in order. */
    method Receive(reg: Registry, frames: seq<seq<byte>>, now: int) returns (best: Option<Packet>, panicked: bool)
      requires Valid()
      modifies this, rtt
      ensures Valid()
      ensures frameCounter == old(frameCounter) && frameInputBuffer == old(frameInputBuffer)
      ensures hasStarted == old(hasStarted) && hasConnected == old(hasConnected)
      ensures var o := HandleFrames(reg.table, Inbox(old(ackList), old(rtt.State()), None), frames, now);
              (panicked <==> o.None?) && (!panicked ==> Inbox(ackList, rtt.State(), best) == o.value)
    {
      best, panicked := None, false;
      var i := 0;
      while i < |frames|
        invariant i <= |frames| && Valid()
        invariant frameCounter == old(frameCounter) && frameInputBuffer == old(frameInputBuffer)
        invariant hasStarted == old(hasStarted) && hasConnected == old(hasConnected)
        invariant HandleFrames(reg.table, Inbox(old(ackList), old(rtt.State()), None), frames, now)
               == HandleFrames(reg.table, Inbox(ackList, rtt.State(), best), frames[i..], now)
      {
        assert frames[i..][0] == frames[i] && frames[i..][1..] == frames[i + 1..];
        best, panicked := ReceiveFrame(reg, frames[i], best, now);
        if panicked {
          return;
        }
        i := i + 1;
      }
    }

    /**
     * The send: the ack packet when the list is non-empty (the list is then
     * cleared), then the last inputs; both stamped by the tracker.
     */
    method Flush(now: int) returns (bytes: seq<byte>)
      requires Valid()
      modifies this, rtt, rtt.packetSequenceList
      ensures Valid() && ackList == []
      ensures bytes == Outgoing(old(rtt.State()).sequenceId, old(ackList), frameInputBuffer)
      ensures rtt.State() == if old(ackList) == [] then NextState(old(rtt.State()), now)
                             else NextState(NextState(old(rtt.State()), now), now)
      ensures frameCounter == old(frameCounter) && frameInputBuffer == old(frameInputBuffer)
      ensures hasStarted == old(hasStarted) && hasConnected == old(hasConnected)
    {
      var w := new PackbufWrite.Buffer();
      ghost var s0, acks := rtt.State(), ackList;
      FlushAcks(w, now);
      ghost var head, s1 := w.data, rtt.State();
      var batch := ClientPlayerPacket(Batch(frameInputBuffer));
      var err := Packs.Write(w, rtt, batch, now);
      bytes := w.data;
      assert bytes == head + EncodePacket(s1.sequenceId, batch);
      if acks == [] {
        assert head == [] && s1 == s0;
      } else {
        assert head == EncodePacket(s0.sequenceId, AckPacket(acks));
        assert s1.sequenceId == (s0.sequenceId + 1) % 0x1_0000;
      }
    }

    /** The ack half of Flush: the ack packet, when there are acks, and the list cleared. */
    method FlushAcks(w: PackbufWrite.Buffer, now: int)
      requires Valid()
      modifies this, w, rtt, rtt.packetSequenceList
      ensures Valid() && ackList == []
      ensures w.data == old(w.data) + if old(ackList) == [] then [] else EncodePacket(old(rtt.State()).sequenceId, AckPacket(old(ackList)))
      ensures rtt.State() == if old(ackList) == [] then old(rtt.State()) else NextState(old(rtt.State()), now)
      ensures frameCounter == old(frameCounter) && frameInputBuffer == old(frameInputBuffer)
      ensures hasStarted == old(hasStarted) && hasConnected == old(hasConnected)
    {
      if |ackList| > 0 {
        var err := Packs.Write(w, rtt, AckPacket(ackList), now);
      } else {
        assert w.data == w.data + [];
      }
      ackList := [];
    }

    /**
     * A connected tick: the frame is numbered and the local input recorded,
     * the received frames are read, the newest world state (if any) is
     * snapped to, and the acks and inputs are sent.
     */
    method Tick(world: W.World, reg: Registry, frames: seq<seq<byte>>, now: int, physics: Body -> Motion)
      returns (outcome: Outcome)
      requires Valid() && world.Valid()
      modifies this, rtt, rtt.packetSequenceList, world, world.myPlayer, set p | p in world.players
      ensures Valid() && world.Valid() && world.myPlayer == old(world.myPlayer) && old(world.players) <= world.players
      ensures hasStarted == old(hasStarted) && hasConnected == old(hasConnected)
      ensures !outcome.NotConnected?
      ensures frameCounter == NextFrame(old(frameCounter))
      ensures frameInputBuffer == if old(world.myPlayer) == null then old(frameInputBuffer)
                                  else PushInput(old(frameInputBuffer), ClientFrameInput(frameCounter, old(world.myPlayer.inputs)))
      ensures var o := HandleFrames(reg.table, Inbox(old(ackList), old(rtt.State()), None), frames, now);
              && (outcome.Panicked? <==> o.None?)
              && (outcome.Sent? ==>
                    && ackList == []
                    && outcome.bytes == Outgoing(old(rtt.State()).sequenceId, o.value.acks, frameInputBuffer)
                    && rtt.State() == (if o.value.acks == [] then NextState(o.value.tracker, now)
                                       else NextState(NextState(o.value.tracker, now), now))
                    && (o.value.best.None? ==> world.players == old(world.players))
                    && SnappedFrom(SceneOf(world), old(SceneOf(world)), o.value.best, frameInputBuffer, physics))
    {
      Stamp(world);
      ghost var s0 := Inbox(ackList, rtt.State(), None);
      assert s0 == Inbox(old(ackList), old(rtt.State()), None);
      var best, panicked := Receive(reg, frames, now);
      if panicked {
        return Panicked;
      }
      ghost var o := HandleFrames(reg.table, s0, frames, now);
      assert o == Some(Inbox(ackList, rtt.State(), best));
      assert SceneOf(world) == old(SceneOf(world));
      var bytes := SnapAndFlush(world, best, now, physics);
      return Sent(bytes);
    }

    /** The start of a connected tick: the next frame number, and the local input recorded under it. */
    method Stamp(world: W.World)
      requires Valid()
      modifies this
      ensures Valid()
      ensures frameCounter == NextFrame(old(frameCounter))
      ensures frameInputBuffer == if world.myPlayer == null then old(frameInputBuffer)
                                  else PushInput(old(frameInputBuffer), ClientFrameInput(frameCounter, world.myPlayer.inputs))
      ensures ackList == old(ackList) && hasStarted == old(hasStarted) && hasConnected == old(hasConnected)
    {
      frameCounter := NextFrame(frameCounter);
      if world.myPlayer != null {
        RecordInput(ClientFrameInput(frameCounter, world.myPlayer.inputs));
      }
    }

    /** The rest of a connected tick: snap to the newest world state (if any), then send. */
    method SnapAndFlush(world: W.World, best: Option<Packet>, now: int, physics: Body -> Motion) returns (bytes: seq<byte>)
      requires Valid() && world.Valid() && (best.Some? ==> best.value.ServerWorldStatePacket?)
      modifies this, rtt, rtt.packetSequenceList, world, world.myPlayer, set p | p in world.players
      ensures Valid() && world.Valid() && world.myPlayer == old(world.myPlayer) && old(world.players) <= world.players
      ensures ackList == [] && bytes == Outgoing(old(rtt.State()).sequenceId, old(ackList), frameInputBuffer)
      ensures frameCounter == old(frameCounter) && frameInputBuffer == old(frameInputBuffer)
      ensures hasStarted == old(hasStarted) && hasConnected == old(hasConnected)
      ensures rtt.State() == if old(ackList) == [] then NextState(old(rtt.State()), now)
                             else NextState(NextState(old(rtt.State()), now), now)
      ensures best.None? ==> world.players == old(world.players)
      ensures SnappedFrom(SceneOf(world), old(SceneOf(world)), best, frameInputBuffer, physics)
    {
      ghost var st := rtt.State();
      SnapTo(world, best, frameInputBuffer, physics);
      assert rtt.packetSequenceList[..] == st.ring;
      assert rtt.State() == st;
      bytes := Send(world, now);
    }

    /** Flush, seen from the world: the send touches none of the players. */
    method Send(world: W.World, now: int) returns (bytes: seq<byte>)
      requires Valid()
      modifies this, rtt, rtt.packetSequenceList
      ensures Valid() && ackList == []
      ensures bytes == Outgoing(old(rtt.State()).sequenceId, old(ackList), frameInputBuffer)
      ensures rtt.State() == if old(ackList) == [] then NextState(old(rtt.State()), now)
                             else NextState(NextState(old(rtt.State()), now), now)
      ensures frameCounter == old(frameCounter) && frameInputBuffer == old(frameInputBuffer)
      ensures hasStarted == old(hasStarted) && hasConnected == old(hasConnected)
      ensures world.players == old(world.players) && world.myPlayer == old(world.myPlayer)
      ensures SceneOf(world) == old(SceneOf(world))
    {
      ghost var scene := SceneOf(world);
      bytes := Flush(now);
      assert SceneOf(world) == scene;
    }

    /**
     * BeforeUpdate: one network tick of the client. A transport error
     * panics; nothing else happens until the transport is connected; the
     * first connected tick creates the local player; then Tick.
     */
    method BeforeUpdate(world: W.World, reg: Registry, transportError: bool, connected: bool,
                        frames: seq<seq<byte>>, now: int, physics: Body -> Motion) returns (outcome: Outcome)
      requires Valid() && world.Valid()
      modifies this, rtt, rtt.packetSequenceList, world, world.myPlayer, set p | p in world.players
      ensures Valid() && world.Valid() && hasStarted
      ensures transportError ==> outcome.Panicked?
      ensures outcome.NotConnected? <==> !transportError && !connected
      ensures outcome.NotConnected? || transportError ==>
                && ackList == old(ackList) && frameCounter == old(frameCounter) && frameInputBuffer == old(frameInputBuffer)
                && hasConnected == old(hasConnected) && world.players == old(world.players)
                && world.myPlayer == old(world.myPlayer)
      ensures outcome.NotConnected? || transportError ==>
                rtt.State() == old(rtt.State()) && W.Views(world.players) == old(W.Views(world.players))
      ensures !transportError && connected ==> hasConnected && frameCounter == NextFrame(old(frameCounter))
      ensures !transportError && connected && !old(hasConnected) ==>
                && world.myPlayer != null && fresh(world.myPlayer) && old(world.players) + [world.myPlayer] <= world.players
                && frameInputBuffer == PushInput(old(frameInputBuffer), ClientFrameInput(frameCounter, NoInput))
      ensures !transportError && connected && old(hasConnected) ==>
                && world.myPlayer == old(world.myPlayer) && old(world.players) <= world.players
                && frameInputBuffer == if old(world.myPlayer) == null then old(frameInputBuffer)
                                       else PushInput(old(frameInputBuffer), ClientFrameInput(frameCounter, old(world.myPlayer.inputs)))
      ensures !transportError && connected ==>
                var o := HandleFrames(reg.table, Inbox(old(ackList), old(rtt.State()), None), frames, now);
                && (outcome.Panicked? <==> o.None?)
                && (outcome.Sent? ==>
                      && ackList == []
                      && outcome.bytes == Outgoing(old(rtt.State()).sequenceId, o.value.acks, frameInputBuffer)
                      && rtt.State() == (if o.value.acks == [] then NextState(o.value.tracker, now)
                                         else NextState(NextState(o.value.tracker, now), now))
                      && SnappedFrom(SceneOf(world), if old(hasConnected) then old(SceneOf(world)) else Joined(old(SceneOf(world)), world.myPlayer),
                                     o.value.best, frameInputBuffer, physics))
    {
      if !hasStarted {
        hasStarted := true;
      }
      if transportError {
        return Panicked;
      }
      if !connected {
        return NotConnected;
      }
      ghost var scene, inbox := SceneOf(world), Inbox(ackList, rtt.State(), None);
      assert scene == old(SceneOf(world)) && inbox == Inbox(old(ackList), old(rtt.State()), None);
      outcome := ConnectedTick(world, reg, frames, now, physics);
    }

    /** A tick once the transport is connected: the first one creates the local player; then Tick. */
    method ConnectedTick(world: W.World, reg: Registry, frames: seq<seq<byte>>, now: int, physics: Body -> Motion)
      returns (outcome: Outcome)
      requires Valid() && world.Valid()
      modifies this, rtt, rtt.packetSequenceList, world, world.myPlayer, set p | p in world.players
      ensures Valid() && world.Valid() && hasStarted == old(hasStarted) && !outcome.NotConnected?
      ensures hasConnected && frameCounter == NextFrame(old(frameCounter))
      ensures !old(hasConnected) ==>
                && world.myPlayer != null && fresh(world.myPlayer) && old(world.players) + [world.myPlayer] <= world.players
                && frameInputBuffer == PushInput(old(frameInputBuffer), ClientFrameInput(frameCounter, NoInput))
      ensures old(hasConnected) ==>
                && world.myPlayer == old(world.myPlayer) && old(world.players) <= world.players
                && frameInputBuffer == if old(world.myPlayer) == null then old(frameInputBuffer)
                                       else PushInput(old(frameInputBuffer), ClientFrameInput(frameCounter, old(world.myPlayer.inputs)))
      ensures var o := HandleFrames(reg.table, Inbox(old(ackList), old(rtt.State()), None), frames, now);
              && (outcome.Panicked? <==> o.None?)
              && (outcome.Sent? ==>
                    && ackList == []
                    && outcome.bytes == Outgoing(old(rtt.State()).sequenceId, o.value.acks, frameInputBuffer)
                    && rtt.State() == (if o.value.acks == [] then NextState(o.value.tracker, now)
                                       else NextState(NextState(o.value.tracker, now), now))
                    && SnappedFrom(SceneOf(world), if old(hasConnected) then old(SceneOf(world)) else Joined(old(SceneOf(world)), world.myPlayer),
                                   o.value.best, frameInputBuffer, physics))
    {
      if !hasConnected {
        Join(world);
        hasConnected := true;
      }
      ghost var ps, scene, inbox := world.players, SceneOf(world), Inbox(ackList, rtt.State(), None);
      assert scene == if old(hasConnected) then old(SceneOf(world)) else Joined(old(SceneOf(world)), world.myPlayer);
      assert inbox == Inbox(old(ackList), old(rtt.State()), None);
      outcome := Tick(world, reg, frames, now, physics);
      if !old(hasConnected) {
        assert world.players[|ps| - 1] == ps[|ps| - 1] == world.myPlayer;
      }
    }

    /**
     * The first connected tick's setup: a new player is created and becomes
     * the local player; renaming it is renaming the last entry of the list.
     */
    method Join(world: W.World)
      requires world.Valid()
      modifies world
      ensures world.Valid() && world.myPlayer != null && fresh(world.myPlayer)
      ensures world.players == old(world.players) + [world.myPlayer] && world.playerInput == old(world.playerInput)
      ensures W.Views(world.players) == old(W.Views(world.players)) + [W.NewBody]
      ensures SceneOf(world) == Joined(old(SceneOf(world)), world.myPlayer)
    {
      var p := world.CreatePlayer();
      world.myPlayer := p;
      assert W.Views(world.players) == old(W.Views(world.players)) + [W.NewBody];
    }
  }
}
