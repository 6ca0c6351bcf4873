/**
 * packbuf.Read / readStruct as imperative code: a cursor over the received
 * bytes advances as each field is read. Each method is proved to return,
 * and to leave the cursor where, the Packbuf decoding functions say.
 */
module PackbufRead {
  import opened Wrappers
  import opened Wire
  import opened Packbuf

  /** An io.Reader over a received frame (bytes.Reader): the bytes and a cursor. */
  class Reader {
    const data: seq<byte>
    var pos: nat

    ghost predicate Valid()
      reads this
    {
      pos <= |data|
    }

    constructor (data: seq<byte>)
      ensures Valid() && this.data == data && pos == 0
    {
      this.data := data;
      pos := 0;
    }

    /** binary.Read of a fixed-width value: io.ReadFull semantics. */
    method ReadFull(width: nat) returns (r: Result<seq<byte>, CodecError>)
      requires Valid() && width > 0
      modifies this
      ensures Valid() && Read(r, pos) == ReadFixed(data, old(pos), width)
    {
      if pos + width <= |data| {
        r := Ok(data[pos..pos + width]);
        pos := pos + width;
      } else if pos == |data| {
        r := Err(EOF);
      } else {
        r := Err(UnexpectedEOF);
        pos := |data|;
      }
    }

    /** bytes.Reader.Read into a zeroed buffer of n bytes: may return fewer bytes than asked. */
    method ReadAvailable(n: nat) returns (r: Result<seq<byte>, CodecError>)
      requires Valid() && n > 0
      modifies this
      ensures Valid() && Read(r, pos) == ReadShort(data, old(pos), n)
    {
      if pos == |data| {
        return Err(EOF);
      }
      var buf := seq(n, _ => 0);
      var k := if |data| - pos < n then |data| - pos else n;
      buf := data[pos..pos + k] + buf[k..];
      if pos + n <= |data| {
        assert buf == data[pos..pos + n];
      } else {
        assert data[pos..pos + k] == data[pos..];
        assert buf == data[pos..] + seq(pos + n - |data|, _ => 0);
      }
      pos := pos + k;
      r := Ok(buf);
    }
  }

  /** A read of the first values, followed by the outcome of reading the rest. */
  function Then(prefix: seq<Value>, rd: Read<seq<Value>>): Read<seq<Value>>
  {
    match rd.result
    case Ok(vs) => Read(Ok(prefix + vs), rd.pos)
    case Err(_) => rd
  }

  lemma ThenThen(a: seq<Value>, b: seq<Value>, rd: Read<seq<Value>>)
    ensures Then(a, Then(b, rd)) == Then(a + b, rd)
  {
    if rd.result.Ok? {
      assert a + (b + rd.result.value) == (a + b) + rd.result.value;
    }
  }

  lemma ThenNothing(rd: Read<seq<Value>>)
    ensures Then([], rd) == rd
  {
    if rd.result.Ok? {
      assert [] + rd.result.value == rd.result.value;
    }
  }

  /** packbuf.Read: reads a record of struct kind k into the target t. */
  method ReadRecord(r: Reader, k: Kind, t: Value) returns (res: Result<Value, CodecError>)
    requires r.Valid() && k.Struct? && HasKind(t, k)
    modifies r
    ensures r.Valid() && Read(res, r.pos) == Decode(k, t, r.data, old(r.pos))
  {
    res := ReadValue(r, k, t);
  }

  /** readStruct: the settable fields in declaration order; the others keep their value. */
  method ReadStruct(r: Reader, fs: seq<Field>, ts: seq<Value>) returns (res: Result<seq<Value>, CodecError>)
    requires r.Valid() && |ts| == |fs|
    requires forall j :: 0 <= j < |fs| ==> HasKind(ts[j], fs[j].kind)
    modifies r
    ensures r.Valid() && Read(res, r.pos) == DecodeStruct(fs, ts, 0, r.data, old(r.pos))
    decreases Struct(fs), 0
  {
    var i := 0;
    var vals: seq<Value> := [];
    ThenNothing(DecodeStruct(fs, ts, 0, r.data, r.pos));
    while i < |fs|
      invariant i <= |fs| && r.Valid()
      invariant DecodeStruct(fs, ts, 0, r.data, old(r.pos)) == Then(vals, DecodeStruct(fs, ts, i, r.data, r.pos))
    {
      var v := ts[i];
      if fs[i].exported {
        var h := ReadValue(r, fs[i].kind, ts[i]);
        if h.Err? {
          return Err(h.error);
        }
        v := h.value;
      }
      ThenThen(vals, [v], DecodeStruct(fs, ts, i + 1, r.data, r.pos));
      vals := vals + [v];
      i := i + 1;
    }
    assert vals + [] == vals;
    return Ok(vals);
  }

  /** One settable field: a slice, a nested struct, or a scalar. */
  method ReadValue(r: Reader, k: Kind, t: Value) returns (res: Result<Value, CodecError>)
    requires r.Valid() && HasKind(t, k)
    modifies r
    ensures r.Valid() && Read(res, r.pos) == DecodeValue(k, t, r.data, old(r.pos))
    decreases k, 1
  {
    match k
    case Slice(e) =>
      var c := r.ReadFull(4);
      if c.Err? {
        return Err(c.error);
      }
      var n := Signed(FromLE(c.value), 4);
      if n == 0 {
        return Ok(t);  // the field stays nil
      }
      if n < 0 {
        return Err(Panic);  // reflect.MakeSlice: negative len
      }
      res := ReadSliceBody(r, e, n);
    case Struct(fs) =>
      var s := ReadStruct(r, fs, t.fields);
      res := if s.Err? then Err(s.error) else Ok(StructV(s.value));
    case Bool =>
      var b := r.ReadFull(1);
      res := if b.Err? then Err(b.error) else Ok(BoolV(b.value[0] != 0));
    case Uint8 =>
      res := ReadUnsigned(r, 1);
    case Uint16 =>
      res := ReadUnsigned(r, 2);
    case Uint64 =>
      res := ReadUnsigned(r, 8);
    case Int =>
      res := ReadSigned(r, 8);
    case Int64 =>
      res := ReadSigned(r, 8);
    case Int32 =>
      res := ReadSigned(r, 4);
    case Float32 =>
      res := ReadFloat(r, 4);
    case Float64 =>
      res := ReadFloat(r, 8);
    case Str =>
      var c := r.ReadFull(2);
      if c.Err? {
        return Err(c.error);
      }
      var size := FromLE(c.value);
      if size == 0 {
        return Ok(t);  // nothing to set
      }
      var b := r.ReadAvailable(size);
      res := if b.Err? then Err(b.error) else Ok(StrV(b.value));
    case Int16 =>
      res := Err(UnsupportedType);
    case Ptr(_) =>
      res := Err(UnsupportedType);
    case Unsupported =>
      res := Err(UnsupportedType);
  }

  method ReadUnsigned(r: Reader, width: nat) returns (res: Result<Value, CodecError>)
    requires r.Valid() && width > 0
    modifies r
    ensures r.Valid() && Read(res, r.pos) == DecodeUnsigned(r.data, old(r.pos), width)
  {
    var b := r.ReadFull(width);
    res := if b.Err? then Err(b.error) else Ok(UintV(FromLE(b.value)));
  }

  method ReadSigned(r: Reader, width: nat) returns (res: Result<Value, CodecError>)
    requires r.Valid() && width > 0
    modifies r
    ensures r.Valid() && Read(res, r.pos) == DecodeSigned(r.data, old(r.pos), width)
  {
    var b := r.ReadFull(width);
    res := if b.Err? then Err(b.error) else Ok(IntV(Signed(FromLE(b.value), width)));
  }

  method ReadFloat(r: Reader, width: nat) returns (res: Result<Value, CodecError>)
    requires r.Valid() && width > 0
    modifies r
    ensures r.Valid() && Read(res, r.pos) == DecodeFloat(r.data, old(r.pos), width)
  {
    var b := r.ReadFull(width);
    res := if b.Err? then Err(b.error) else Ok(FloatV(FromLE(b.value)));
  }

  /** The n > 0 elements of a slice, after its count has been read. */
  method ReadSliceBody(r: Reader, e: Kind, n: nat) returns (res: Result<Value, CodecError>)
    requires r.Valid() && n > 0
    modifies r
    ensures r.Valid() && Read(res, r.pos) == DecodeSliceBody(e, n, r.data, old(r.pos))
    decreases e, 3
  {
    match e
    case Uint8 =>
      var b := r.ReadAvailable(n);
      res := if b.Err? then Err(b.error) else Ok(SliceV(AsUint8s(b.value)));
    case Uint16 =>
      var vals: seq<Value> := [];
      var i := 0;
      ThenNothing(DecodeUint16s(n, r.data, r.pos));
      while i < n
        invariant i <= n && r.Valid()
        invariant DecodeUint16s(n, r.data, old(r.pos)) == Then(vals, DecodeUint16s(n - i, r.data, r.pos))
      {
        var b := r.ReadFull(2);
        if b.Err? {
          return Err(b.error);
        }
        ThenThen(vals, [UintV(FromLE(b.value))], DecodeUint16s(n - i - 1, r.data, r.pos));
        vals := vals + [UintV(FromLE(b.value))];
        i := i + 1;
      }
      assert vals + [] == vals;
      res := Ok(SliceV(vals));
    case Struct(_) =>
      var s := ReadElems(r, e, n);
      res := if s.Err? then Err(s.error) else Ok(SliceV(s.value));
    case Ptr(t) =>
      if !t.Struct? {
        return Err(PtrToNonStruct);
      }
      var s := ReadElems(r, e, n);
      res := if s.Err? then Err(s.error) else Ok(SliceV(s.value));
    case _ =>
      res := Err(UnsupportedSliceElem);
  }

  /** n struct elements, or pointers to newly allocated structs, each read from its zero value. */
  method ReadElems(r: Reader, e: Kind, n: nat) returns (res: Result<seq<Value>, CodecError>)
    requires r.Valid()
    requires e.Struct? || (e.Ptr? && e.target.Struct?)
    modifies r
    ensures r.Valid() && Read(res, r.pos) == DecodeElems(e, n, r.data, old(r.pos))
    decreases e, 2
  {
    var t := ElemTarget(e);
    var vals: seq<Value> := [];
    var i := 0;
    ThenNothing(DecodeElems(e, n, r.data, r.pos));
    while i < n
      invariant i <= n && r.Valid()
      invariant DecodeElems(e, n, r.data, old(r.pos)) == Then(vals, DecodeElems(e, n - i, r.data, r.pos))
    {
      var s := ReadStruct(r, t.fields, Zero(t).fields);
      if s.Err? {
        return Err(s.error);
      }
      ThenThen(vals, [StructV(s.value)], DecodeElems(e, n - i - 1, r.data, r.pos));
      vals := vals + [StructV(s.value)];
      i := i + 1;
    }
    assert vals + [] == vals;
    return Ok(vals);
  }
}
