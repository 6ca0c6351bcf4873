/**
 * Sequence numbering, acknowledgement bookkeeping and the smoothed round-trip
 * estimate of one direction of one connection (internal/netcode/rtt/rtt.go).
 *
 * The wall clock is not read: every operation that needs the current time
 * takes `now`, a monotonic instant in nanoseconds.
 */
module Rtt {
  import opened Wrappers
  import opened Wire
  import opened Seqs

  /** How long a sent packet is remembered for a round-trip sample, in milliseconds. */
  const MaximumRoundTripTimeLimit := 1000
  const MaxFramerate := 60
  /** The number of ring slots: one second of packets at the maximum frame rate. */
  const RoundTripTimeLimitInFrames := (MaximumRoundTripTimeLimit / 1000) * MaxFramerate

  /** The bounds of Go's time.Duration (int64 nanoseconds). */
  const MaxDuration := 0x7fff_ffff_ffff_ffff
  const MinDuration := -0x8000_0000_0000_0000

  /** Half of the 16-bit sequence space: the tie-break of the wraparound comparison. */
  const HalfRange := 32768

  /**
   * Whether s1 comes after s2 in the circular 16-bit sequence space: s1 is
   * ahead of s2 by at most half the space. The differences below are exact,
   * because each is taken only when it is positive.
   */
  predicate IsWrappedUInt16GreaterThan(s1: uint16, s2: uint16)
    ensures IsWrappedUInt16GreaterThan(s1, s2) <==>
      var d := (s1 - s2) % 0x1_0000;
      0 < d < HalfRange || (d == HalfRange && s1 > s2)
  {
    ForwardDistance(s1, s2);
    (s1 > s2 && s1 - s2 <= HalfRange) || (s1 < s2 && s2 - s1 > HalfRange)
  }

  /**
   * No value is after itself and, of two distinct values, exactly one is
   * after the other, also when they lie exactly half the space apart.
   */
  lemma IsAfterAsymmetric(s1: uint16, s2: uint16)
    ensures !IsWrappedUInt16GreaterThan(s1, s1)
    ensures s1 != s2 ==> (IsWrappedUInt16GreaterThan(s1, s2) <==> !IsWrappedUInt16GreaterThan(s2, s1))
  {
  }

  /** The forward distance from s2 to s1 on the 16-bit circle. */
  lemma ForwardDistance(s1: uint16, s2: uint16)
    ensures (s1 - s2) % 0x1_0000 == if s1 >= s2 then s1 - s2 else s1 - s2 + 0x1_0000
  {
    if s1 > s2 {
      DivModUnique(s1 - s2, 0x1_0000, 0, s1 - s2);
    } else if s1 < s2 {
      DivModUnique(s1 - s2, 0x1_0000, -1, s1 - s2 + 0x1_0000);
    } else {
      DivModUnique(0, 0x1_0000, 0, 0);
    }
  }

  /** The golden cases of the comparator's table-driven test. */
  lemma GoldenCases()
    ensures IsWrappedUInt16GreaterThan(1, 0)
    ensures IsWrappedUInt16GreaterThan(101, 100)
    ensures IsWrappedUInt16GreaterThan(65001, 65000)
    ensures IsWrappedUInt16GreaterThan(1, 65000)
    ensures IsWrappedUInt16GreaterThan(300, 65000)
  {
  }

  /** A ring slot's send time; `Unset` is Go's zero time.Time, held by never-used slots. */
  datatype SendTime = Unset | SentAt(ns: int)

  /** One ring slot: a sent sequence number and when it was sent. */
  datatype PacketSequence = PacketSequence(sequenceId: uint16, time: SendTime)

  /** The abstract value of a tracker: counter, ring and smoothed latency (nanoseconds). */
  datatype TrackerState = TrackerState(sequenceId: uint16, ring: seq<PacketSequence>, latency: int)

  /** The zero value of the Go struct: counter 0, every slot unused, latency 0. */
  function InitialState(): (s: TrackerState)
    ensures s.sequenceId == 0 && s.latency == 0 && |s.ring| == RoundTripTimeLimitInFrames == 60
    ensures forall j :: 0 <= j < |s.ring| ==> s.ring[j] == PacketSequence(0, Unset)
  {
    TrackerState(0, seq(RoundTripTimeLimitInFrames, _ => PacketSequence(0, Unset)), 0)
  }

  function Clamp(d: int): (r: int)
    ensures MinDuration <= r <= MaxDuration
    ensures MinDuration <= d <= MaxDuration ==> r == d
  {
    if d > MaxDuration then MaxDuration else if d < MinDuration then MinDuration else d
  }

  /**
   * now.Sub(t): the elapsed duration, saturated to the range of time.Duration.
   * The zero time lies two thousand years back, so from it the difference
   * always saturates.
   */
  function Sub(now: int, t: SendTime): (d: int)
    ensures MinDuration <= d <= MaxDuration
    ensures t.Unset? ==> d == MaxDuration
  {
    match t
    case Unset => MaxDuration
    case SentAt(ns) => Clamp(now - ns)
  }

  /** Integer division truncating toward zero, as Go's `/` on integers. */
  function TruncDiv(a: int, b: int): (q: int)
    requires b > 0
    ensures a >= 0 ==> 0 <= q <= a
    ensures a <= 0 ==> a <= q <= 0
  {
    if a >= 0 then DivBounds(a, b); a / b else DivBounds(-a, b); -((-a) / b)
  }

  lemma DivBounds(a: int, b: int)
    requires a >= 0 && b > 0
    ensures 0 <= a / b <= a
  {
    var q := a / b;
    assert b * q + a % b == a;
    if q < 0 {
      MulAwayFromZero(b, q);
    } else {
      assert b * q == q + (b - 1) * q;
    }
  }

  /** Duration.Milliseconds(). */
  function Milliseconds(d: int): (r: int)
    ensures d >= 0 ==> 1_000_000 * r <= d < 1_000_000 * (r + 1)
    ensures d <= 0 ==> 1_000_000 * (r - 1) < d <= 1_000_000 * r
  {
    TruncDiv(d, 1_000_000)
  }

  /** A slot may be reused once its packet was sent more than the retention limit ago. */
  predicate Expired(slot: PacketSequence, now: int)
    ensures Expired(slot, now) <==> Sub(now, slot.time) >= (MaximumRoundTripTimeLimit + 1) * 1_000_000
    ensures slot.time.Unset? ==> Expired(slot, now)
  {
    Milliseconds(Sub(now, slot.time)) > MaximumRoundTripTimeLimit
  }

  /** The slot Next writes into: the first expired one. */
  function FirstExpired(ring: seq<PacketSequence>, now: int): (r: Option<nat>)
    ensures r.Some? ==> r.value < |ring| && Expired(ring[r.value], now)
    ensures r.Some? ==> forall j :: 0 <= j < r.value ==> !Expired(ring[j], now)
    ensures r.None? <==> forall j :: 0 <= j < |ring| ==> !Expired(ring[j], now)
  {
    FirstWhere(ring, (slot: PacketSequence) => Expired(slot, now))
  }

  /**
   * The ring after recording `seqId` sent at `now`: the first expired slot is
   * overwritten and nothing else changes; when no slot has expired the send is
   * not recorded at all.
   */
  function Record(ring: seq<PacketSequence>, seqId: uint16, now: int): (r: seq<PacketSequence>)
    ensures |r| == |ring|
    ensures (forall j :: 0 <= j < |ring| ==> !Expired(ring[j], now)) ==> r == ring
    ensures forall j :: 0 <= j < |ring| && r[j] != ring[j] ==>
      Expired(ring[j], now) && r[j] == PacketSequence(seqId, SentAt(now)) &&
      forall k :: 0 <= k < j ==> r[k] == ring[k]
    ensures (exists j :: 0 <= j < |ring| && Expired(ring[j], now)) ==>
      exists j :: 0 <= j < |ring| && Expired(ring[j], now) && r == ring[j := PacketSequence(seqId, SentAt(now))] &&
        forall k :: 0 <= k < j ==> !Expired(ring[k], now)
  {
    match FirstExpired(ring, now)
    case None => ring
    case Some(i) => ring[i := PacketSequence(seqId, SentAt(now))]
  }

  /**
   * Next: the counter is returned and advanced modulo 2^16 (so 65535 is
   * followed by 0, which is not skipped) and the send is recorded; the
   * latency is untouched.
   */
  function NextState(s: TrackerState, now: int): (r: TrackerState)
    ensures r.sequenceId == (s.sequenceId + 1) % 0x1_0000
    ensures s.sequenceId == 0xffff ==> r.sequenceId == 0
    ensures s.sequenceId < 0xffff ==> r.sequenceId == s.sequenceId + 1
    ensures r.latency == s.latency
    ensures |r.ring| == |s.ring|
  {
    TrackerState((s.sequenceId + 1) % 0x1_0000, Record(s.ring, s.sequenceId, now), s.latency)
  }

  /** The slot Ack consults: the first one holding the acknowledged sequence number. */
  function FindSequence(ring: seq<PacketSequence>, seqId: uint16): (r: Option<nat>)
    ensures r.Some? ==> r.value < |ring| && ring[r.value].sequenceId == seqId
    ensures r.Some? ==> forall j :: 0 <= j < r.value ==> ring[j].sequenceId != seqId
    ensures r.None? <==> forall j :: 0 <= j < |ring| ==> ring[j].sequenceId != seqId
  {
    FirstWhere(ring, (slot: PacketSequence) => slot.sequenceId == seqId)
  }

  /** The converse of FindSequence's contract: the first slot holding seqId is the one it finds. */
  lemma FindSequenceIsFirst(ring: seq<PacketSequence>, seqId: uint16)
    ensures forall j :: 0 <= j < |ring| && ring[j].sequenceId == seqId && (forall k :: 0 <= k < j ==> ring[k].sequenceId != seqId) ==>
              FindSequence(ring, seqId) == Some(j)
  {
    var r := FindSequence(ring, seqId);
    forall j | 0 <= j < |ring| && ring[j].sequenceId == seqId && (forall k :: 0 <= k < j ==> ring[k].sequenceId != seqId)
      ensures r == Some(j)
    {
      assert r.Some?;
    }
  }

  /**
   * One step of the exponentially weighted moving average with weight 1/10,
   * in integer nanoseconds: the estimate moves a tenth of the way toward the
   * sample, never past it, and the weighted sum (9 * latency + sample) / 10
   * is truncated toward zero, as the conversion of the float64 sum back to a
   * Duration does.
   */
  function Smooth(latency: int, sample: int): (r: int)
    ensures latency <= sample ==> latency <= r <= sample
    ensures sample <= latency ==> sample <= r <= latency
    ensures 9 * latency + sample >= 0 ==> 10 * r <= 9 * latency + sample < 10 * (r + 1)
    ensures 9 * latency + sample < 0 ==> 10 * (r - 1) < 9 * latency + sample <= 10 * r
  {
    TruncDiv(9 * latency + sample, 10)
  }

  /**
   * Ack: when some slot holds `seqId`, the time since its send becomes the
   * latency if the latency is still 0, and is folded in by Smooth otherwise;
   * an unknown (expired, overwritten or spurious) sequence changes nothing.
   * The counter and the ring are never changed.
   */
  function AckState(s: TrackerState, seqId: uint16, now: int): (r: TrackerState)
    ensures r.sequenceId == s.sequenceId && r.ring == s.ring
    ensures (forall j :: 0 <= j < |s.ring| ==> s.ring[j].sequenceId != seqId) ==> r == s
    ensures forall j :: 0 <= j < |s.ring| && s.ring[j].sequenceId == seqId &&
                        (forall k :: 0 <= k < j ==> s.ring[k].sequenceId != seqId) ==>
                          r.latency == (if s.latency == 0 then Sub(now, s.ring[j].time) else Smooth(s.latency, Sub(now, s.ring[j].time)))
  {
    FindSequenceIsFirst(s.ring, seqId);
    match FindSequence(s.ring, seqId)
    case None => s
    case Some(i) =>
      var sample := Sub(now, s.ring[i].time);
      s.(latency := if s.latency == 0 then sample else Smooth(s.latency, sample))
  }

  /** Acknowledging a list of sequence numbers one after the other. */
  function AckAll(s: TrackerState, seqIds: seq<uint16>, now: int): (r: TrackerState)
    ensures r.sequenceId == s.sequenceId && r.ring == s.ring
    decreases |seqIds|
  {
    if seqIds == [] then s else AckAll(AckState(s, seqIds[0], now), seqIds[1..], now)
  }

  /**
   * Next and Ack are partners: a send that found a free slot, acknowledged
   * later, yields a sample equal to the time elapsed since the send, provided
   * no earlier slot still carries the same sequence number.
   */
  lemma {:induction false} AckAfterNext(s: TrackerState, now: int, later: int)
    requires FirstExpired(s.ring, now).Some?
    requires forall j :: 0 <= j < FirstExpired(s.ring, now).value ==> s.ring[j].sequenceId != s.sequenceId
    ensures AckState(NextState(s, now), s.sequenceId, later).latency ==
      var sample := Clamp(later - now);
      if s.latency == 0 then sample else Smooth(s.latency, sample)
  {
    var i := FirstExpired(s.ring, now).value;
    var r := NextState(s, now);
    assert r.ring == s.ring[i := PacketSequence(s.sequenceId, SentAt(now))];
    assert r.ring[i].sequenceId == s.sequenceId;
    assert forall k :: 0 <= k < i ==> r.ring[k].sequenceId != s.sequenceId;
  }

  /**
   * The tracker of one connection. The ring is a fixed array of
   * RoundTripTimeLimitInFrames slots that Next overwrites in place.
   */
  class RoundTripTracking {
    var packetSequenceId: uint16
    const packetSequenceList: array<PacketSequence>
    var latency: int

    ghost predicate Valid()
    {
      packetSequenceList.Length == RoundTripTimeLimitInFrames
    }

    /** The abstract value of the tracker. */
    function State(): TrackerState
      reads this, packetSequenceList
    {
      TrackerState(packetSequenceId, packetSequenceList[..], latency)
    }

    /** The zero-valued tracker Go starts every connection with. */
    constructor ()
      ensures Valid() && fresh(packetSequenceList)
      ensures State() == InitialState()
    {
      packetSequenceId := 0;
      packetSequenceList := new PacketSequence[RoundTripTimeLimitInFrames](_ => PacketSequence(0, Unset));
      latency := 0;
    }

    /** The tracker overwritten with its zero value, as a struct assignment of the zero value does. */
    method Reset()
      requires Valid()
      modifies this, packetSequenceList
      ensures Valid() && State() == InitialState()
    {
      packetSequenceId := 0;
      latency := 0;
      var i := 0;
      while i < packetSequenceList.Length
        invariant 0 <= i <= packetSequenceList.Length
        invariant packetSequenceId == 0 && latency == 0
        invariant forall j :: 0 <= j < i ==> packetSequenceList[j] == PacketSequence(0, Unset)
      {
        packetSequenceList[i] := PacketSequence(0, Unset);
        i := i + 1;
      }
      assert packetSequenceList[..] == InitialState().ring;
    }

    /** The smoothed latency: 0 until the first acknowledgement matched a slot. */
    method Latency() returns (d: int)
      ensures d == State().latency
    {
      d := latency;
    }

    /** Allocates the next outgoing sequence number and records when it was sent. */
    method Next(now: int) returns (seqId: uint16)
      requires Valid()
      modifies this, packetSequenceList
      ensures Valid()
      ensures seqId == old(packetSequenceId)
      ensures State() == NextState(old(State()), now)
    {
      seqId := packetSequenceId;
      packetSequenceId := (packetSequenceId + 1) % 0x1_0000;
      var i := 0;
      while i < packetSequenceList.Length
        invariant 0 <= i <= packetSequenceList.Length
        invariant forall j :: 0 <= j < i ==> !Expired(packetSequenceList[j], now)
        invariant packetSequenceList[..] == old(packetSequenceList[..])
      {
        if Expired(packetSequenceList[i], now) {
          packetSequenceList[i] := PacketSequence(seqId, SentAt(now));
          assert FirstExpired(old(packetSequenceList[..]), now) == Some(i);
          return;
        }
        i := i + 1;
      }
    }

    /** Consumes an acknowledgement of `seqId` received at `now`. */
    method Ack(seqId: uint16, now: int)
      requires Valid()
      modifies this
      ensures Valid()
      ensures State() == AckState(old(State()), seqId, now)
    {
      var found: Option<nat> := None;
      var i := 0;
      while i < packetSequenceList.Length
        invariant 0 <= i <= packetSequenceList.Length
        invariant forall j :: 0 <= j < i ==> packetSequenceList[j].sequenceId != seqId
      {
        if packetSequenceList[i].sequenceId == seqId {
          found := Some(i);
          break;
        }
        i := i + 1;
      }
      if found == None {
        // The sequence expired or was never sent: ignore it.
        return;
      }
      var sample := Sub(now, packetSequenceList[found.value].time);
      if latency == 0 {
        latency := sample;
      } else {
        latency := Smooth(latency, sample);
      }
    }
  }
}
