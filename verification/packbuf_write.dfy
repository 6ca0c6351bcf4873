/**
 * packbuf.Write / writeStruct as imperative code: the fields of a record
 * are appended to a byte stream one write at a time. Each method is proved
 * to append exactly the bytes the Packbuf encoding functions describe.
 */
module PackbufWrite {
  import opened Wrappers
  import opened Wire
  import opened Packbuf

  /** An io.Writer backed by a growing buffer (bytes.Buffer): writes always succeed. */
  class Buffer {
    var data: seq<byte>

    constructor ()
      ensures data == []
    {
      data := [];
    }

    method Write(b: seq<byte>)
      modifies this
      ensures data == old(data) + b
    {
      data := data + b;
    }
  }

  /**
   * What a writer did, measured against the encoding r: on success it
   * appended exactly r's bytes; on failure it reported r's error, having
   * appended at most a partial encoding.
   */
  predicate Wrote(r: Result<seq<byte>, CodecError>, before: seq<byte>, after: seq<byte>, err: Option<CodecError>)
  {
    match r
    case Ok(b) => err.None? && after == before + b
    case Err(e) => err == Some(e) && before <= after
  }

  lemma PrependPrepend(a: seq<byte>, b: seq<byte>, r: Result<seq<byte>, CodecError>)
    ensures Prepend(a, Prepend(b, r)) == Prepend(a + b, r)
  {
    if r.Ok? {
      assert a + (b + r.value) == (a + b) + r.value;
    }
  }

  lemma PrependNothing(r: Result<seq<byte>, CodecError>)
    ensures Prepend([], r) == r
  {
    if r.Ok? {
      assert [] + r.value == r.value;
    }
  }

  /** packbuf.Write: writes the record v of struct kind k. */
  method WriteRecord(w: Buffer, k: Kind, v: Value) returns (err: Option<CodecError>)
    requires k.Struct? && HasKind(v, k)
    modifies w
    ensures Wrote(Encode(k, v), old(w.data), w.data, err)
  {
    err := WriteStruct(w, k.fields, v.fields);
  }

  /** writeStruct: the fields in declaration order; an unexported field is an error. */
  method WriteStruct(w: Buffer, fs: seq<Field>, vs: seq<Value>) returns (err: Option<CodecError>)
    requires |vs| == |fs| && forall j :: 0 <= j < |fs| ==> HasKind(vs[j], fs[j].kind)
    modifies w
    ensures Wrote(EncodeStruct(fs, vs, 0), old(w.data), w.data, err)
    decreases Struct(fs), 0
  {
    var i := 0;
    ghost var acc: seq<byte> := [];
    PrependNothing(EncodeStruct(fs, vs, 0));
    while i < |fs|
      invariant i <= |fs|
      invariant w.data == old(w.data) + acc
      invariant EncodeStruct(fs, vs, 0) == Prepend(acc, EncodeStruct(fs, vs, i))
    {
      if !fs[i].exported {
        return Some(UnexportedField);
      }
      ghost var before := w.data;
      err := WriteValue(w, fs[i].kind, vs[i]);
      if err.Some? {
        return;
      }
      ghost var b := EncodeValue(fs[i].kind, vs[i]).value;
      PrependPrepend(acc, b, EncodeStruct(fs, vs, i + 1));
      acc := acc + b;
      i := i + 1;
    }
    return None;
  }

  /** One settable field: a slice, a nested struct, or a scalar. */
  method WriteValue(w: Buffer, k: Kind, v: Value) returns (err: Option<CodecError>)
    requires HasKind(v, k)
    modifies w
    ensures Wrote(EncodeValue(k, v), old(w.data), w.data, err)
    decreases k, 1
  {
    match k
    case Slice(e) =>
      var count := LE(Unsigned(|v.elems|, 4), 4);  // int32(len), two's complement
      w.Write(count);
      err := WriteSliceBody(w, e, v.elems);
      PrependPrepend(old(w.data), count, EncodeSliceBody(e, v.elems));
    case Struct(fs) =>
      err := WriteStruct(w, fs, v.fields);
    case Bool =>
      w.Write([if v.b then 1 else 0]);
      err := None;
    case Uint8 =>
      err := Some(Panic);  // PutUint64 into a one-byte buffer
    case Int =>
      w.Write(LE(Unsigned(v.i, 8), 8));
      err := None;
    case Int16 =>
      w.Write(LE(Unsigned(v.i, 2), 2));
      err := None;
    case Float32 =>
      w.Write(LE(v.bits, 4));
      err := None;
    case Int32 =>
      w.Write(LE(Unsigned(v.i, 4), 4));
      err := None;
    case Int64 =>
      w.Write(LE(Unsigned(v.i, 8), 8));
      err := None;
    case Uint16 =>
      w.Write(LE(v.u, 2));
      err := None;
    case Uint64 =>
      w.Write(LE(v.u, 8));
      err := None;
    case Float64 =>
      w.Write(LE(v.bits, 8));
      err := None;
    case Str =>
      if |v.bytes| > MaxStringSize {
        return Some(StringTooLarge);
      }
      w.Write(LE(|v.bytes|, 2));
      w.Write(v.bytes);
      err := None;
    case Ptr(_) =>
      err := Some(UnsupportedType);
    case Unsupported =>
      err := Some(UnsupportedType);
  }

  /** The elements of a slice, after its count has been written. */
  method WriteSliceBody(w: Buffer, e: Kind, es: seq<Value>) returns (err: Option<CodecError>)
    requires forall j :: 0 <= j < |es| ==> HasKind(es[j], e)
    modifies w
    ensures Wrote(EncodeSliceBody(e, es), old(w.data), w.data, err)
    decreases e, 3
  {
    match e
    case Struct(_) =>
      err := WriteElems(w, e, es);
    case Ptr(t) =>
      if !t.Struct? {
        return Some(PtrToNonStruct);
      }
      err := WriteElems(w, e, es);
    case Uint8 =>
      w.Write(Uint8Bytes(es));
      err := None;
    case Uint16 =>
      var i := 0;
      while i < |es|
        invariant i <= |es|
        invariant w.data + Uint16Bytes(es[i..]) == old(w.data) + Uint16Bytes(es)
      {
        assert HasKind(es[i], Uint16);
        assert es[i..][1..] == es[i + 1..];
        w.Write(LE16(es[i].u));
        i := i + 1;
      }
      assert es[i..] == [];
      err := None;
    case _ =>
      err := Some(UnsupportedSliceElem);
  }

  /** Struct elements, or pointers to structs; a nil pointer panics. */
  method WriteElems(w: Buffer, e: Kind, es: seq<Value>) returns (err: Option<CodecError>)
    requires e.Struct? || (e.Ptr? && e.target.Struct?)
    requires forall j :: 0 <= j < |es| ==> HasKind(es[j], e)
    modifies w
    ensures Wrote(EncodeElems(e, es, 0), old(w.data), w.data, err)
    decreases e, 2
  {
    var t := ElemTarget(e);
    var i := 0;
    ghost var acc: seq<byte> := [];
    PrependNothing(EncodeElems(e, es, 0));
    while i < |es|
      invariant i <= |es|
      invariant w.data == old(w.data) + acc
      invariant EncodeElems(e, es, 0) == Prepend(acc, EncodeElems(e, es, i))
    {
      assert HasKind(es[i], e);
      if es[i].NilV? {
        return Some(Panic);  // writeStruct of a nil pointer
      }
      err := WriteStruct(w, t.fields, es[i].fields);
      if err.Some? {
        return;
      }
      ghost var b := EncodeValue(t, es[i]).value;
      PrependPrepend(acc, b, EncodeElems(e, es, i + 1));
      acc := acc + b;
      i := i + 1;
    }
    return None;
  }
}
