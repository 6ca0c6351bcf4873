/**
 * The server's connection slot pool (internal/netdriver/webrtcdriver/
 * webrtcserver): a fixed list of slots, each either free or used, and a
 * used one either connected (it has an open data channel and a packet
 * queue) or closed but not yet freed. The WebRTC peer connection and data
 * channel are opaque handles; the mutex is left out, as every operation
 * here runs to completion before the next.
 */
module WebrtcServer {
  import opened Wrappers
  import opened Wire
  import opened Seqs

  const DefaultHttpPort := 50000
  const DefaultMaxConnections := 256

  /** The options New reads. */
  datatype Options = Options(maxConnections: int, httpPort: int, publicIP: string)

  /** The two ways New panics. */
  datatype NewError =
    | EmptyPublicIP      // "cannot provide empty IP address"
    | NegativeSlotCount  // make with a negative length

  /** New's defaulting: a zero port and a zero connection count take the package defaults. */
  function Defaulted(o: Options): (r: Options)
    ensures r.publicIP == o.publicIP
    ensures o.httpPort != 0 ==> r.httpPort == o.httpPort
    ensures o.maxConnections != 0 ==> r.maxConnections == o.maxConnections
    ensures r.httpPort != 0 && r.maxConnections != 0
  {
    o.(httpPort := if o.httpPort == 0 then DefaultHttpPort else o.httpPort,
       maxConnections := if o.maxConnections == 0 then DefaultMaxConnections else o.maxConnections)
  }

  // ------------------------------------------------------------ data channels

  /** What the server sees of an incoming data channel: its handle and its reliability options. */
  datatype DataChannel = DataChannel(handle: nat, ordered: bool, maxRetransmits: Option<int>, maxPacketLifeTime: Option<int>)

  /** Why isValidDataChannel refuses a channel. */
  datatype ChannelError =
    | OrderedChannel        // "ordered: true"
    | RetransmitsUnset      // maxRetransmits is nil
    | RetransmitsNonzero    // maxRetransmits is not 0
    | PacketLifeTimeSet     // maxPacketLifeTime is not nil

  /**
   * isValidDataChannel: the checks of an unreliable, unordered channel, in
   * order. A channel is accepted exactly when it is unordered with
   * maxRetransmits 0 and no packet lifetime, and the first failing check is
   * the one reported.
   */
  function CheckDataChannel(dc: DataChannel): (r: Option<ChannelError>)
    ensures r.None? <==> !dc.ordered && dc.maxRetransmits == Some(0) && dc.maxPacketLifeTime.None?
    ensures dc.ordered ==> r == Some(OrderedChannel)
    ensures !dc.ordered && dc.maxRetransmits.None? ==> r == Some(RetransmitsUnset)
    ensures !dc.ordered && dc.maxRetransmits.Some? && dc.maxRetransmits.value != 0 ==> r == Some(RetransmitsNonzero)
    ensures !dc.ordered && dc.maxRetransmits == Some(0) && dc.maxPacketLifeTime.Some? ==> r == Some(PacketLifeTimeSet)
  {
    if dc.ordered then Some(OrderedChannel)
    else if dc.maxRetransmits.None? then Some(RetransmitsUnset)
    else if dc.maxRetransmits.value != 0 then Some(RetransmitsNonzero)
    else if dc.maxPacketLifeTime.Some? then Some(PacketLifeTimeSet)
    else None
  }

  // ------------------------------------------------------------ one slot

  /**
   * The abstract state of a slot: the peer connection and data channel
   * handles, the queue of received messages (None for a nil channel),
   * the two flags, and the messages the data channel has sent.
   */
  datatype Slot = Slot(peer: Option<nat>, channel: Option<DataChannel>, packets: Option<seq<seq<byte>>>,
                       isConnected: bool, isUsed: bool, sent: seq<seq<byte>>)

  /** The zero slot: free, unconnected, nothing queued or sent. */
  const FreeSlot := Slot(None, None, None, false, false, [])

  /** A connected slot has its data channel and its queue; a disconnected one has neither. */
  predicate Coherent(s: Slot)
  {
    (s.isConnected <==> s.channel.Some?) && (s.isConnected <==> s.packets.Some?)
  }

  /** needsMutexLock_disconnectButKeepMarkedAsUsed: handles and queue dropped, not connected, isUsed kept. */
  function Disconnected(s: Slot): (r: Slot)
    ensures Coherent(r) && !r.isConnected && r.isUsed == s.isUsed && r.sent == s.sent
  {
    s.(peer := None, channel := None, packets := None, isConnected := false)
  }

  /** Closing twice is closing once. */
  lemma DisconnectedIdempotent(s: Slot)
    ensures Disconnected(Disconnected(s)) == Disconnected(s)
  {
  }

  /** What sending reports. */
  datatype SendError = ErrClosedPipe | ChannelFailed

  /** Connection: one slot, guarded in the source by its mutex. */
  class Connection {
    var peer: Option<nat>
    var channel: Option<DataChannel>
    var packets: Option<seq<seq<byte>>>
    var isConnected: bool
    var isUsed: bool
    var sent: seq<seq<byte>>

    function View(): Slot
      reads this
    {
      Slot(peer, channel, packets, isConnected, isUsed, sent)
    }

    ghost predicate Valid()
      reads this
    {
      Coherent(View())
    }

    /** &Connection{}: a free slot. */
    constructor ()
      ensures Valid() && View() == FreeSlot
    {
      peer, channel, packets := None, None, None;
      isConnected, isUsed := false, false;
      sent := [];
    }

    method IsConnected() returns (b: bool)
      ensures b == View().isConnected
    {
      b := isConnected;
    }

    /** Read: the oldest queued message, or (nil, false) when nothing is queued or the queue is nil. */
    method Read() returns (data: seq<byte>, ok: bool)
      requires Valid()
      modifies this
      ensures Valid()
      ensures ok <==> old(packets).Some? && old(packets).value != []
      ensures ok ==> data == old(packets).value[0] && View() == old(View()).(packets := Some(old(packets).value[1..]))
      ensures !ok ==> data == [] && View() == old(View())
    {
      if packets.Some? && packets.value != [] {
        data, ok := packets.value[0], true;
        packets := Some(packets.value[1..]);
      } else {
        data, ok := [], false;
      }
    }

    /**
     * Send: ErrClosedPipe without a data channel; otherwise the data
     * channel's own send, whose failure comes in as channelFails.
     */
    method Send(data: seq<byte>, channelFails: bool) returns (err: Option<SendError>)
      requires Valid()
      modifies this
      ensures Valid()
      ensures old(channel).None? ==> err == Some(ErrClosedPipe) && View() == old(View())
      ensures old(channel).Some? && channelFails ==> err == Some(ChannelFailed) && View() == old(View())
      ensures old(channel).Some? && !channelFails ==> err.None? && View() == old(View()).(sent := old(sent) + [data])
    {
      if channel.None? {
        return Some(ErrClosedPipe);
      }
      if channelFails {
        return Some(ChannelFailed);
      }
      sent := sent + [data];
      err := None;
    }

    /** CloseButDontFree: the connection is closed, but the slot stays used until Free. */
    method CloseButDontFree()
      modifies this
      ensures Valid() && View() == Disconnected(old(View()))
    {
      peer, channel, packets := None, None, None;
      isConnected := false;
    }

    /** Free: releases a closed slot; freeing a connected slot panics and changes nothing. */
    method Free() returns (panicked: bool)
      requires Valid()
      modifies this
      ensures Valid()
      ensures panicked <==> old(isConnected)
      ensures View() == if panicked then old(View()) else old(View()).(isUsed := false)
    {
      if isConnected {
        return true;
      }
      isUsed := false;
      panicked := false;
    }

    /**
     * The release after a refused data channel, or after the connection
     * response could not be encoded: disconnected and free again.
     */
    method Release()
      modifies this
      ensures Valid() && View() == Disconnected(old(View())).(isUsed := false)
    {
      CloseButDontFree();
      isUsed := false;
    }

    /**
     * onDataChannel: a refused channel releases the slot; a second channel
     * is ignored; the first valid one connects the slot with an empty queue.
     */
    method OnDataChannel(dc: DataChannel)
      requires Valid()
      modifies this
      ensures Valid()
      ensures CheckDataChannel(dc).Some? ==> View() == Disconnected(old(View())).(isUsed := false)
      ensures CheckDataChannel(dc).None? && old(channel).Some? ==> View() == old(View())
      ensures CheckDataChannel(dc).None? && old(channel).None? ==>
                View() == old(View()).(packets := Some([]), isConnected := true, channel := Some(dc))
    {
      if CheckDataChannel(dc).Some? {
        Release();
        return;
      }
      if channel.Some? {
        return;
      }
      packets := Some([]);
      isConnected := true;
      channel := Some(dc);
    }

    /** onDataChannelClose: the connection is closed, the slot stays used. */
    method OnDataChannelClose()
      modifies this
      ensures Valid() && View() == Disconnected(old(View()))
    {
      CloseButDontFree();
    }

    /**
     * onDataChannelMessage: the message joins the queue. On a nil queue the
     * source's send blocks for ever, so the message is never delivered.
     */
    method OnMessage(msg: seq<byte>)
      requires Valid()
      modifies this
      ensures Valid()
      ensures View() == if old(packets).None? then old(View()) else old(View()).(packets := Some(old(packets).value + [msg]))
    {
      if packets.Some? {
        packets := Some(packets.value + [msg]);
      }
    }
  }

  // ------------------------------------------------------------ the pool

  /** The slots' states, in order. */
  function Slots(cs: seq<Connection>): (r: seq<Slot>)
    reads set c | c in cs
    ensures |r| == |cs| && forall i :: 0 <= i < |cs| ==> r[i] == cs[i].View()
  {
    seq(|cs|, i requires 0 <= i < |cs| reads set c | c in cs => cs[i].View())
  }

  /** The first free slot, if any. */
  function FirstFree(slots: seq<Slot>): (r: Option<nat>)
    ensures r.Some? ==> r.value < |slots| && !slots[r.value].isUsed && forall j :: 0 <= j < r.value ==> slots[j].isUsed
    ensures r.None? <==> forall j :: 0 <= j < |slots| ==> slots[j].isUsed
  {
    FirstWhere(slots, (s: Slot) => !s.isUsed)
  }

  /** A free slot after only used ones is the first free slot. */
  lemma FirstFreeAt(slots: seq<Slot>, i: nat)
    requires i < |slots| && !slots[i].isUsed && forall j :: 0 <= j < i ==> slots[j].isUsed
    ensures FirstFree(slots) == Some(i)
  {
    var r := FirstFree(slots);
    assert r.Some? by {
      assert !slots[i].isUsed;
    }
  }

  /** Server: the options and the fixed list of slots. */
  class Server {
    const options: Options
    const connections: seq<Connection>

    ghost predicate Valid()
      reads this, set c | c in connections
    {
      Distinct(connections) && forall i :: 0 <= i < |connections| ==> connections[i].Valid()
    }

    /** The allocation half of New: n fresh free slots. */
    constructor (options: Options, n: nat)
      ensures Valid() && this.options == options && |connections| == n
      ensures forall i :: 0 <= i < n ==> fresh(connections[i]) && connections[i].View() == FreeSlot
    {
      var cs: seq<Connection> := [];
      var i := 0;
      while i < n
        invariant i <= n && |cs| == i && Distinct(cs)
        invariant forall j :: 0 <= j < i ==> fresh(cs[j]) && cs[j].Valid() && cs[j].View() == FreeSlot
      {
        var c := new Connection();
        cs := cs + [c];
        i := i + 1;
      }
      this.options := options;
      connections := cs;
    }

    /**
     * The slot scan of handleSDP: the first free slot is marked used and
     * bound to the peer connection; when every slot is used the request
     * fails ("server is full") and nothing changes.
     */
    method Acquire(peer: nat) returns (slot: Option<nat>)
      requires Valid()
      modifies set c | c in connections
      ensures Valid()
      ensures slot == FirstFree(old(Slots(connections)))
      ensures slot.Some? ==> connections[slot.value].View() == old(connections[slot.value].View()).(isUsed := true, peer := Some(peer))
      ensures forall j :: 0 <= j < |connections| && slot != Some(j) ==> connections[j].View() == old(connections[j].View())
    {
      ghost var before := Slots(connections);
      var i := 0;
      while i < |connections|
        invariant i <= |connections|
        invariant forall j :: 0 <= j < i ==> before[j].isUsed
      {
        if !connections[i].isUsed {
          Bind(i, peer);
          FirstFreeAt(before, i);
          return Some(i);
        }
        i := i + 1;
      }
      slot := None;
    }

    /** Marks free slot i used and bound to the peer connection. */
    method Bind(i: nat, peer: nat)
      requires Valid() && i < |connections| && !connections[i].isUsed
      modifies connections[i]
      ensures Valid()
      ensures connections[i].View() == old(connections[i].View()).(isUsed := true, peer := Some(peer))
      ensures forall j :: 0 <= j < |connections| && j != i ==> connections[j].View() == old(connections[j].View())
    {
      var c := connections[i];
      c.isUsed := true;
      c.peer := Some(peer);
    }
  }

  /** New: defaults applied, then the IP checked, then one free slot per allowed connection. */
  method New(o: Options) returns (r: Result<Server, NewError>)
    ensures var d := Defaulted(o);
            && (r.Err? <==> d.publicIP == [] || d.maxConnections < 0)
            && (d.publicIP == [] ==> r == Err(EmptyPublicIP))
            && (r.Ok? ==> fresh(r.value) && r.value.Valid() && r.value.options == d
                          && |r.value.connections| == d.maxConnections
                          && forall i :: 0 <= i < d.maxConnections ==> r.value.connections[i].View() == FreeSlot)
  {
    var d := Defaulted(o);
    if d.publicIP == [] {
      return Err(EmptyPublicIP);
    }
    if d.maxConnections < 0 {
      return Err(NegativeSlotCount);
    }
    var s := new Server(d, d.maxConnections);
    return Ok(s);
  }
}
