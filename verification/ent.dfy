/**
 * The player entity (internal/ent): its fields, the values its constructor
 * and Init give them, and its wire schema. The physics of Player.Update
 * is float arithmetic and is taken as a parameter: a deterministic step that
 * computes the new position, speeds and facing from the player's state.
 */
module Ent {
  import opened Wire
  import opened Packbuf

  /** A float32 field, as its IEEE-754 bit pattern. */
  type f32 = x: nat | x < 0x1_0000_0000

  const Float0: f32 := 0
  const Float96: f32 := 0x42C0_0000   // 96.0
  const Float180: f32 := 0x4334_0000  // 180.0

  datatype PlayerInput = PlayerInput(isHoldingLeft: bool, isHoldingRight: bool, isHoldingJump: bool)

  const NoInput := PlayerInput(false, false, false)

  /** Everything a player holds, as a value. */
  datatype Body = Body(
    netId: uint16, inputs: PlayerInput,
    x: f32, y: f32, width: f32, height: f32,
    hspeed: f32, vspeed: f32, dirLeft: bool)

  /** What Player.Update computes: the only fields it assigns. */
  datatype Motion = Motion(x: f32, y: f32, hspeed: f32, vspeed: f32, dirLeft: bool)

  /** The body after one physics step: motion fields from the step, every other field kept. */
  function Advance(b: Body, physics: Body -> Motion): (r: Body)
    ensures r.netId == b.netId && r.inputs == b.inputs && r.width == b.width && r.height == b.height
    ensures var m := physics(b); r.x == m.x && r.y == m.y && r.hspeed == m.hspeed && r.vspeed == m.vspeed && r.dirLeft == m.dirLeft
  {
    var m := physics(b);
    b.(x := m.x, y := m.y, hspeed := m.hspeed, vspeed := m.vspeed, dirLeft := m.dirLeft)
  }

  class Player {
    var netId: uint16
    var inputs: PlayerInput
    var x: f32
    var y: f32
    var width: f32
    var height: f32
    var hspeed: f32
    var vspeed: f32
    var dirLeft: bool

    function View(): Body
      reads this
    {
      Body(netId, inputs, x, y, width, height, hspeed, vspeed, dirLeft)
    }

    /** &ent.Player{}: every field zero. */
    constructor ()
      ensures View() == Body(0, NoInput, 0, 0, 0, 0, 0, 0, false)
    {
      netId := 0;
      inputs := NoInput;
      x, y, width, height, hspeed, vspeed := 0, 0, 0, 0, 0, 0;
      dirLeft := false;
    }

    /** Init: the player is 96 by 96. */
    method Init()
      modifies this
      ensures View() == old(View()).(width := Float96, height := Float96)
    {
      width := Float96;
      height := Float96;
    }

    /** Update: one step of physics. */
    method Update(physics: Body -> Motion)
      modifies this
      ensures View() == Advance(old(View()), physics)
    {
      var m := physics(View());
      x, y, hspeed, vspeed, dirLeft := m.x, m.y, m.hspeed, m.vspeed, m.dirLeft;
    }

    /** Sets every field from a body (what the reader does to a fresh player). */
    method Assign(b: Body)
      modifies this
      ensures View() == b
    {
      netId, inputs := b.netId, b.inputs;
      x, y, width, height := b.x, b.y, b.width, b.height;
      hspeed, vspeed, dirLeft := b.hspeed, b.vspeed, b.dirLeft;
    }
  }

  // ---------------------------------------------------------------- schema

  const InputKind: Kind := Struct([
    Field("IsHoldingLeft", true, Bool),
    Field("IsHoldingRight", true, Bool),
    Field("IsHoldingJump", true, Bool)])

  const PlayerKind: Kind := Struct([
    Field("NetID", true, Uint16),
    Field("Inputs", true, InputKind),
    Field("X", true, Float32),
    Field("Y", true, Float32),
    Field("Width", true, Float32),
    Field("Height", true, Float32),
    Field("Hspeed", true, Float32),
    Field("Vspeed", true, Float32),
    Field("DirLeft", true, Bool)])

  function InputValue(i: PlayerInput): (v: Value)
    ensures HasKind(v, InputKind) && Encodable(InputKind, v)
  {
    StructV([BoolV(i.isHoldingLeft), BoolV(i.isHoldingRight), BoolV(i.isHoldingJump)])
  }

  function InputOf(v: Value): PlayerInput
    requires HasKind(v, InputKind)
  {
    PlayerInput(v.fields[0].b, v.fields[1].b, v.fields[2].b)
  }

  /** InputValue and InputOf are inverse bijections between inputs and well-typed values. */
  lemma InputValueRoundTrip(i: PlayerInput, v: Value)
    requires HasKind(v, InputKind)
    ensures InputOf(InputValue(i)) == i
    ensures InputValue(InputOf(v)) == v
  {
    assert v.fields == [v.fields[0], v.fields[1], v.fields[2]];
  }

  function BodyValue(b: Body): (v: Value)
    ensures HasKind(v, PlayerKind) && Encodable(PlayerKind, v)
  {
    var v := StructV([UintV(b.netId), InputValue(b.inputs),
                      FloatV(b.x), FloatV(b.y), FloatV(b.width), FloatV(b.height),
                      FloatV(b.hspeed), FloatV(b.vspeed), BoolV(b.dirLeft)]);
    PlayerValueKinded(v);
    v
  }

  /** A value of Player's shape, field by field, is a well-typed, encodable Player value. */
  lemma PlayerValueKinded(v: Value)
    requires v.StructV? && |v.fields| == 9
    requires v.fields[0].UintV? && v.fields[0].u < 0x1_0000
    requires HasKind(v.fields[1], InputKind) && Encodable(InputKind, v.fields[1])
    requires forall i :: 2 <= i < 8 ==> v.fields[i].FloatV? && v.fields[i].bits < 0x1_0000_0000
    requires v.fields[8].BoolV?
    ensures HasKind(v, PlayerKind) && Encodable(PlayerKind, v)
  {
    var fs := PlayerKind.fields;
    assert Pow256(2) == 0x1_0000 && Pow256(4) == 0x1_0000_0000;
    assert forall i :: 0 <= i < 9 ==> HasKind(v.fields[i], fs[i].kind);
  }

  /** What a well-typed Player value looks like, field by field. */
  lemma PlayerShape(v: Value)
    requires HasKind(v, PlayerKind)
    ensures v.StructV? && |v.fields| == 9
    ensures v.fields[0].UintV? && v.fields[0].u < 0x1_0000
    ensures HasKind(v.fields[1], InputKind)
    ensures forall i :: 2 <= i < 8 ==> v.fields[i].FloatV? && v.fields[i].bits < 0x1_0000_0000
    ensures v.fields[8].BoolV?
  {
    var fs := PlayerKind.fields;
    assert Pow256(2) == 0x1_0000 && Pow256(4) == 0x1_0000_0000;
    assert forall i :: 0 <= i < 9 ==> HasKind(v.fields[i], fs[i].kind);
  }

  function BodyOf(v: Value): Body
    requires HasKind(v, PlayerKind)
  {
    PlayerShape(v);
    var f := v.fields;
    Body(f[0].u, InputOf(f[1]), f[2].bits, f[3].bits, f[4].bits, f[5].bits, f[6].bits, f[7].bits, f[8].b)
  }

  /** Every field of Player has a kind both codec halves support, so a body survives the wire. */
  lemma BodyValueRoundTrip(b: Body, v: Value)
    requires HasKind(v, PlayerKind)
    ensures BodyOf(BodyValue(b)) == b
    ensures BodyValue(BodyOf(v)) == v
  {
    BodyOfValue(b);
    ValueOfBody(v);
  }

  /** Reading back the value of a body gives the body. */
  lemma BodyOfValue(b: Body)
    ensures BodyOf(BodyValue(b)) == b
  {
    var v := BodyValue(b);
    PlayerShape(v);
    InputValueRoundTrip(b.inputs, v.fields[1]);
  }

  /** A well-typed Player value is the value of the body read from it. */
  lemma ValueOfBody(v: Value)
    requires HasKind(v, PlayerKind)
    ensures BodyValue(BodyOf(v)) == v
  {
    PlayerShape(v);
    InputValueRoundTrip(InputOf(v.fields[1]), v.fields[1]);
    var w := BodyValue(BodyOf(v));
    assert w.fields[1] == v.fields[1];
    assert forall i :: 0 <= i < 9 ==> w.fields[i] == v.fields[i];
  }
}
