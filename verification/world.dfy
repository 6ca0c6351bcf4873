/**
 * The game world (internal/world): the list of players, the local input and
 * the local player, and the snapshot of the player list that the server
 * broadcasts and the client replays from.
 */
module World {
  import opened Wrappers
  import opened Wire
  import opened Seqs
  import opened Packbuf
  import opened Ent
  import PackbufWrite
  import PackbufRead

  /** worldSnapshot: one exported field, Players, a slice of pointers to players. */
  const SnapshotKind: Kind := Struct([Field("Players", true, Slice(Ptr(PlayerKind)))])

  /** The body CreatePlayer gives a new player: at (180, 180), 96 by 96, every other field zero. */
  const NewBody := Body(0, NoInput, Float180, Float180, Float96, Float96, Float0, Float0, false)

  /** A snapshot value whose list holds players and no nil pointer. */
  predicate IsSnapshot(v: Value)
  {
    && v.StructV? && |v.fields| == 1 && v.fields[0].SliceV?
    && forall i :: 0 <= i < |v.fields[0].elems| ==> HasKind(v.fields[0].elems[i], PlayerKind)
  }

  /** A well-typed snapshot value is one record holding one list of player pointers. */
  lemma SnapshotKindShape(v: Value)
    ensures HasKind(v, SnapshotKind) <==> v.StructV? && |v.fields| == 1 && HasKind(v.fields[0], Slice(Ptr(PlayerKind)))
    ensures IsSnapshot(v) ==> HasKind(v, SnapshotKind)
  {
    var fs := SnapshotKind.fields;
    assert |fs| == 1 && fs[0].kind == Slice(Ptr(PlayerKind));
    if IsSnapshot(v) {
      var es := v.fields[0].elems;
      assert forall i :: 0 <= i < |es| ==> HasKind(es[i], Ptr(PlayerKind));
    }
  }

  /** The snapshot record of a list of players, as a codec value. */
  function SnapshotValue(bodies: seq<Body>): (v: Value)
    ensures IsSnapshot(v) && HasKind(v, SnapshotKind)
    ensures |v.fields[0].elems| == |bodies|
  {
    var v := StructV([SliceV(seq(|bodies|, i requires 0 <= i < |bodies| => BodyValue(bodies[i])))]);
    SnapshotKindShape(v);
    v
  }

  /** The bodies a snapshot value lists, in order. */
  function BodiesOf(v: Value): (r: seq<Body>)
    requires IsSnapshot(v)
    ensures |r| == |v.fields[0].elems|
  {
    seq(|v.fields[0].elems|, i requires 0 <= i < |v.fields[0].elems| => BodyOf(v.fields[0].elems[i]))
  }

  /** SnapshotValue and BodiesOf are inverse bijections between player lists and nil-free snapshot values. */
  lemma SnapshotBodiesRoundTrip(bodies: seq<Body>, v: Value)
    requires IsSnapshot(v)
    ensures BodiesOf(SnapshotValue(bodies)) == bodies
    ensures SnapshotValue(BodiesOf(v)) == v
  {
    var es := v.fields[0].elems;
    var rs := SnapshotValue(BodiesOf(v)).fields[0].elems;
    forall i | 0 <= i < |es|
      ensures rs[i] == es[i]
    {
      BodyValueRoundTrip(BodyOf(es[i]), es[i]);
    }
    assert rs == es;
    assert v == StructV([SliceV(es)]);
    var bs := BodiesOf(SnapshotValue(bodies));
    forall i | 0 <= i < |bodies|
      ensures bs[i] == bodies[i]
    {
      BodyValueRoundTrip(bodies[i], BodyValue(bodies[i]));
    }
  }

  /** Every snapshot can be written, however many players it lists. */
  lemma SnapshotWritable(bodies: seq<Body>)
    ensures Writable(SnapshotKind, SnapshotValue(bodies))
    ensures EncodeValue(SnapshotKind, SnapshotValue(bodies)).Ok?
  {
    var v := SnapshotValue(bodies);
    var es := v.fields[0].elems;
    forall i | 0 <= i < |es|
      ensures WritableElem(Ptr(PlayerKind), es[i])
    {
      EncodableIsWritable(PlayerKind, es[i]);
    }
    assert WritableElems(Ptr(PlayerKind), es);
    assert Writable(Slice(Ptr(PlayerKind)), v.fields[0]);
    WritesIff(SnapshotKind, v);
  }

  /** Different player lists have different snapshots. */
  lemma SnapshotValueInjective(a: seq<Body>, b: seq<Body>)
    requires SnapshotValue(a) == SnapshotValue(b)
    ensures a == b
  {
    var ea := SnapshotValue(a).fields[0].elems;
    assert |a| == |b|;
    forall i | 0 <= i < |a|
      ensures a[i] == b[i]
    {
      BodyValueRoundTrip(a[i], ea[i]);
      BodyValueRoundTrip(b[i], ea[i]);
    }
  }

  /**
   * Reading a snapshot into a world that already holds a list: an empty
   * list on the wire keeps the players the world had; any other list
   * replaces them. The bytes never depend on what the target held.
   */
  lemma SnapshotTarget(t: Value, data: seq<byte>)
    requires HasKind(t, SnapshotKind)
    ensures var z := Decode(SnapshotKind, Zero(SnapshotKind), data, 0);
            Decode(SnapshotKind, t, data, 0) == if z.result == Ok(Zero(SnapshotKind)) then Read(Ok(t), z.pos) else z
  {
    SliceTargetIndependence(Ptr(PlayerKind), t.fields[0], data, 0);
    SnapshotUnfold(t, data);
    SnapshotUnfold(Zero(SnapshotKind), data);
    assert Zero(SnapshotKind) == StructV([SliceV([])]);
    assert t == StructV([t.fields[0]]);
  }

  /** Reading a snapshot is reading its one field, the player list. */
  lemma SnapshotUnfold(t: Value, data: seq<byte>)
    requires HasKind(t, SnapshotKind)
    ensures var h := DecodeValue(Slice(Ptr(PlayerKind)), t.fields[0], data, 0);
            Decode(SnapshotKind, t, data, 0)
              == if h.result.Err? then Read(Err(h.result.error), h.pos) else Read(Ok(StructV([h.result.value])), h.pos)
  {
    var fs := SnapshotKind.fields;
    var h := DecodeValue(Slice(Ptr(PlayerKind)), t.fields[0], data, 0);
    assert DecodeStruct(fs, t.fields, 1, data, h.pos) == Read(Ok([]), h.pos);
    assert fs[0].exported && fs[0].kind == Slice(Ptr(PlayerKind));
    var r := DecodeStruct(fs, t.fields, 0, data, 0);
    if h.result.Ok? {
      assert [h.result.value] + [] == [h.result.value];
    }
    assert r == if h.result.Err? then Read(Err(h.result.error), h.pos) else Read(Ok([h.result.value]), h.pos);
    assert Decode(SnapshotKind, t, data, 0)
        == if r.result.Err? then Read(Err(r.result.error), r.pos) else Read(Ok(StructV(r.result.value)), r.pos);
  }

  /**
   * Sync after Snapshot: reading the bytes of a snapshot of bodies into a
   * world whose players are current restores bodies, except that an empty
   * list leaves current in place.
   */
  lemma SyncAfterSnapshot(bodies: seq<Body>, current: seq<Body>)
    requires |bodies| <= MaxSliceCount
    ensures Encode(SnapshotKind, SnapshotValue(bodies)).Ok?
    ensures var b := Encode(SnapshotKind, SnapshotValue(bodies)).value;
            Decode(SnapshotKind, SnapshotValue(current), b, 0)
              == Read(Ok(SnapshotValue(if bodies == [] then current else bodies)), |b|)
  {
    var v := SnapshotValue(bodies);
    var t := SnapshotValue(current);
    var es := v.fields[0].elems;
    forall i | 0 <= i < |es|
      ensures EncodableElem(Ptr(PlayerKind), es[i])
    {
    }
    assert Encodable(Slice(Ptr(PlayerKind)), v.fields[0]);
    assert Encodable(SnapshotKind, v);
    SnapshotWritable(bodies);
    var b := Encode(SnapshotKind, v).value;
    assert At(b, 0, b);
    RoundTripValue(SnapshotKind, v, t, b, 0, b);
    assert Merge(SnapshotKind, v, t) == StructV([Merge(Slice(Ptr(PlayerKind)), v.fields[0], t.fields[0])]);
  }

  /** The bodies of a list of players, in list order. */
  function Views(ps: seq<Player>): (r: seq<Body>)
    reads set p | p in ps
    ensures |r| == |ps|
    ensures forall i :: 0 <= i < |ps| ==> r[i] == ps[i].View()
  {
    seq(|ps|, i requires 0 <= i < |ps| reads set p | p in ps => ps[i].View())
  }

  /** Allocates one fresh player per body, holding that body (what the reader does per list element). */
  method FreshPlayers(bodies: seq<Body>) returns (ps: seq<Player>)
    ensures Distinct(ps) && Views(ps) == bodies
    ensures forall i :: 0 <= i < |ps| ==> fresh(ps[i])
  {
    ps := [];
    var i := 0;
    while i < |bodies|
      invariant i <= |bodies| && |ps| == i
      invariant forall j :: 0 <= j < i ==> fresh(ps[j]) && ps[j].View() == bodies[j]
      invariant Distinct(ps)
    {
      var p := new Player();
      p.Assign(bodies[i]);
      ps := ps + [p];
      i := i + 1;
    }
  }

  class World {
    /** worldSnapshot.Players: pointers to the players, in draw order. */
    var players: seq<Player>
    var playerInput: PlayerInput
    var myPlayer: Player?

    /** The list never holds the same player twice. */
    ghost predicate Valid()
      reads this
    {
      Distinct(players)
    }

    constructor ()
      ensures Valid() && players == [] && playerInput == NoInput && myPlayer == null
    {
      players := [];
      playerInput := NoInput;
      myPlayer := null;
    }

    /** CreatePlayer: appends a new player at (180, 180), 96 by 96, and returns it. */
    method CreatePlayer() returns (p: Player)
      requires Valid()
      modifies this
      ensures Valid() && fresh(p) && p.View() == NewBody
      ensures players == old(players) + [p]
      ensures playerInput == old(playerInput) && myPlayer == old(myPlayer)
    {
      p := new Player();
      p.x, p.y := Float180, Float180;
      p.Init();
      players := players + [p];
    }

    /** RemovePlayer: drops the first occurrence of p, keeping the order of the rest. */
    method RemovePlayer(p: Player)
      requires Valid()
      modifies this
      ensures Valid() && players == RemoveFirst(old(players), p) && p !in players
      ensures playerInput == old(playerInput) && myPlayer == old(myPlayer)
    {
      RemoveFirstDistinct(players, p);
      var i := 0;
      while i < |players|
        invariant i <= |players| && players == old(players)
        invariant forall j :: 0 <= j < i ==> players[j] != p
      {
        if players[i] == p {
          assert FirstWhere(players, (y: Player) => y == p) == Some(i);
          players := players[..i] + players[i + 1..];
          return;
        }
        i := i + 1;
      }
    }

    /** Update: every player takes one physics step, each exactly once. */
    method Update(physics: Body -> Motion)
      requires Valid()
      modifies set p | p in players
      ensures forall i :: 0 <= i < |players| ==> players[i].View() == Advance(old(players[i].View()), physics)
    {
      var i := 0;
      while i < |players|
        invariant i <= |players|
        invariant forall j :: 0 <= j < i ==> players[j].View() == Advance(old(players[j].View()), physics)
        invariant forall j :: i <= j < |players| ==> players[j].View() == old(players[j].View())
      {
        players[i].Update(physics);
        i := i + 1;
      }
    }

    /** worldSnapshot.Snapshot: the encoding of the player list; writing it never fails. */
    method Snapshot() returns (b: seq<byte>)
      ensures Encode(SnapshotKind, SnapshotValue(Views(players))).Ok?
      ensures b == Encode(SnapshotKind, SnapshotValue(Views(players))).value
    {
      var v := SnapshotValue(Views(players));
      SnapshotWritable(Views(players));
      var w := new PackbufWrite.Buffer();
      var err := PackbufWrite.WriteRecord(w, SnapshotKind, v);
      b := w.data;
    }

    /**
     * SyncWorldToSnapshot: reads a snapshot into the player list. A read
     * error is a panic. A snapshot listing no players keeps the list;
     * otherwise the list is replaced by fresh players holding the bodies
     * read.
     */
    method Sync(data: seq<byte>) returns (panicked: bool)
      requires Valid()
      modifies this
      ensures Valid() && playerInput == old(playerInput) && myPlayer == old(myPlayer)
      ensures var d := Decode(SnapshotKind, SnapshotValue(old(Views(players))), data, 0).result;
              (panicked <==> d.Err?) && (!panicked ==> SnapshotValue(Views(players)) == d.value)
      ensures players == old(players) || forall i :: 0 <= i < |players| ==> fresh(players[i])
    {
      ghost var before := Views(players);
      var r := new PackbufRead.Reader(data);
      var res := PackbufRead.ReadRecord(r, SnapshotKind, Zero(SnapshotKind));
      SnapshotTarget(SnapshotValue(before), data);
      if res.Err? {
        return true;
      }
      panicked := false;
      var elems := res.value.fields[0].elems;
      if |elems| == 0 {
        assert res.value == StructV([SliceV([])]) == Zero(SnapshotKind);
        return;
      }
      DecodedSnapshotHasPlayers(data);
      var bodies := BodiesOf(res.value);
      players := FreshPlayers(bodies);
      SnapshotBodiesRoundTrip(bodies, res.value);
    }
  }

  /** Every element the reader produces for the snapshot list is a player, never nil. */
  lemma DecodedSnapshotHasPlayers(data: seq<byte>)
    ensures var d := Decode(SnapshotKind, Zero(SnapshotKind), data, 0).result;
            d.Ok? ==> IsSnapshot(d.value)
  {
    var z := Zero(SnapshotKind);
    assert z == StructV([SliceV([])]);
    SnapshotUnfold(z, data);
    assert ElemTarget(Ptr(PlayerKind)) == PlayerKind;
  }
}
