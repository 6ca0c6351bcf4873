/**
 * The schema-driven binary codec (internal/netcode/packbuf): the meaning of
 * the writer and the reader as functions over an explicit schema, and the
 * round-trip properties that tie the two together.
 *
 * Go finds a record's shape by reflection; here the shape is a `Kind`, and a
 * record is a `Value` of that kind. Floats travel as opaque bit patterns.
 */
module Packbuf {
  import opened Wrappers
  import opened Wire

  /** The longest string the wire format can carry (its length is a u16). */
  const MaxStringSize := 65535

  /** The largest slice length whose int32 count does not wrap. */
  const MaxSliceCount := 0x7fff_ffff

  /** The shape of a field, as reflection reports it. */
  datatype Kind =
    | Bool | Uint8 | Uint16 | Uint64 | Int | Int16 | Int32 | Int64 | Float32 | Float64 | Str
    | Struct(fields: seq<Field>)
    | Slice(elem: Kind)
    | Ptr(target: Kind)
    | Unsupported  // every other reflect kind (maps, channels, interfaces, ...)

  /** A struct field: an unexported field cannot be set by reflection. */
  datatype Field = Field(name: string, exported: bool, kind: Kind)

  /** A field's content; `NilV` is a nil pointer, `OpaqueV` a value of an unsupported kind. */
  datatype Value =
    | BoolV(b: bool)
    | UintV(u: nat)
    | IntV(i: int)
    | FloatV(bits: nat)
    | StrV(bytes: seq<byte>)
    | StructV(fields: seq<Value>)
    | SliceV(elems: seq<Value>)
    | NilV
    | OpaqueV

  datatype CodecError =
    | UnexportedField       // "cannot serialize unexported field"
    | UnsupportedType       // a scalar kind with no wire form
    | UnsupportedSliceElem  // a slice whose element kind has no wire form
    | PtrToNonStruct        // "unable to handle []*Type where Type is not a struct"
    | StringTooLarge        // a string longer than MaxStringSize
    | Panic                 // a Go run-time panic (see the cases below)
    | EOF                   // io.EOF: the stream ended before a value began
    | UnexpectedEOF         // io.ErrUnexpectedEOF: the stream ended inside a value

  /** Whether v is a well-typed Go value of kind k (the Go type system guarantees this). */
  predicate HasKind(v: Value, k: Kind)
    decreases k
  {
    match k
    case Bool => v.BoolV?
    case Uint8 => v.UintV? && v.u < Pow256(1)
    case Uint16 => v.UintV? && v.u < Pow256(2)
    case Uint64 => v.UintV? && v.u < Pow256(8)
    case Int => v.IntV? && InSignedRange(v.i, 8)
    case Int64 => v.IntV? && InSignedRange(v.i, 8)
    case Int16 => v.IntV? && InSignedRange(v.i, 2)
    case Int32 => v.IntV? && InSignedRange(v.i, 4)
    case Float32 => v.FloatV? && v.bits < Pow256(4)
    case Float64 => v.FloatV? && v.bits < Pow256(8)
    case Str => v.StrV?
    case Struct(fs) =>
      v.StructV? && |v.fields| == |fs| && forall i :: 0 <= i < |fs| ==> HasKind(v.fields[i], fs[i].kind)
    case Slice(e) => v.SliceV? && forall i :: 0 <= i < |v.elems| ==> HasKind(v.elems[i], e)
    case Ptr(t) => v.NilV? || HasKind(v, t)
    case Unsupported => v.OpaqueV?
  }

  /** The zero value of a kind: what reflect.New and reflect.MakeSlice fill memory with. */
  function Zero(k: Kind): (v: Value)
    ensures HasKind(v, k)
    decreases k
  {
    match k
    case Bool => BoolV(false)
    case Uint8 => UintV(0)
    case Uint16 => UintV(0)
    case Uint64 => UintV(0)
    case Int => IntV(0)
    case Int64 => IntV(0)
    case Int16 => IntV(0)
    case Int32 => IntV(0)
    case Float32 => FloatV(0)
    case Float64 => FloatV(0)
    case Str => StrV([])
    case Struct(fs) => StructV(seq(|fs|, i requires 0 <= i < |fs| => Zero(fs[i].kind)))
    case Slice(_) => SliceV([])
    case Ptr(_) => NilV
    case Unsupported => OpaqueV
  }

  /** Bytes already written, followed by the outcome of the rest of a write. */
  function Prepend(prefix: seq<byte>, r: Result<seq<byte>, CodecError>): Result<seq<byte>, CodecError>
  {
    match r
    case Ok(b) => Ok(prefix + b)
    case Err(e) => Err(e)
  }

  /** The bytes of a []uint8, written verbatim. */
  function Uint8Bytes(es: seq<Value>): (r: seq<byte>)
    requires forall i :: 0 <= i < |es| ==> HasKind(es[i], Uint8)
    ensures |r| == |es|
  {
    if |es| == 0 then [] else assert HasKind(es[0], Uint8); [es[0].u] + Uint8Bytes(es[1..])
  }

  /** The elements of a []uint16, each as two little-endian bytes. */
  function Uint16Bytes(es: seq<Value>): (r: seq<byte>)
    requires forall i :: 0 <= i < |es| ==> HasKind(es[i], Uint16)
    ensures |r| == 2 * |es|
  {
    if |es| == 0 then [] else assert HasKind(es[0], Uint16); LE16(es[0].u) + Uint16Bytes(es[1..])
  }

  /**
   * writeStruct from field i on: each field must be exported, and the
   * encodings of the fields follow one another in declaration order.
   */
  function EncodeStruct(fs: seq<Field>, vs: seq<Value>, i: nat): Result<seq<byte>, CodecError>
    requires |vs| == |fs| && i <= |fs|
    requires forall j :: 0 <= j < |fs| ==> HasKind(vs[j], fs[j].kind)
    decreases Struct(fs), 0, |fs| - i
  {
    if i == |fs| then Ok([])
    else if !fs[i].exported then Err(UnexportedField)
    else match EncodeValue(fs[i].kind, vs[i])
      case Err(e) => Err(e)
      case Ok(b) => Prepend(b, EncodeStruct(fs, vs, i + 1))
  }

  /** The encoding of one (exported) field of kind k. */
  function EncodeValue(k: Kind, v: Value): Result<seq<byte>, CodecError>
    requires HasKind(v, k)
    decreases k, 1, 0
  {
    match k
    case Slice(e) => Prepend(LE(Unsigned(|v.elems|, 4), 4), EncodeSliceBody(e, v.elems))
    case Struct(fs) => EncodeStruct(fs, v.fields, 0)
    case Bool => Ok([if v.b then 1 else 0])
    case Uint8 => Err(Panic)  // PutUint64 into a one-byte buffer
    case Int => Ok(LE(Unsigned(v.i, 8), 8))
    case Int16 => Ok(LE(Unsigned(v.i, 2), 2))
    case Float32 => Ok(LE(v.bits, 4))
    case Int32 => Ok(LE(Unsigned(v.i, 4), 4))
    case Int64 => Ok(LE(Unsigned(v.i, 8), 8))
    case Uint16 => Ok(LE(v.u, 2))
    case Uint64 => Ok(LE(v.u, 8))
    case Float64 => Ok(LE(v.bits, 8))
    case Str =>
      if |v.bytes| > MaxStringSize then Err(StringTooLarge)
      else Ok(LE(|v.bytes|, 2) + v.bytes)
    case Ptr(_) => Err(UnsupportedType)
    case Unsupported => Err(UnsupportedType)
  }

  /** The elements of a slice, after its count. */
  function EncodeSliceBody(e: Kind, es: seq<Value>): Result<seq<byte>, CodecError>
    requires forall i :: 0 <= i < |es| ==> HasKind(es[i], e)
    decreases e, 3, 0
  {
    match e
    case Struct(_) => EncodeElems(e, es, 0)
    case Ptr(t) => if t.Struct? then EncodeElems(e, es, 0) else Err(PtrToNonStruct)
    case Uint8 => Ok(Uint8Bytes(es))
    case Uint16 => Ok(Uint16Bytes(es))
    case _ => Err(UnsupportedSliceElem)
  }

  /** The kind an element is encoded as: the struct itself, or the struct a pointer points to. */
  function ElemTarget(e: Kind): (t: Kind)
    ensures t == e || e == Ptr(t)
  {
    if e.Ptr? then e.target else e
  }

  /** Struct or pointer-to-struct elements from index i on; a nil element panics. */
  function EncodeElems(e: Kind, es: seq<Value>, i: nat): Result<seq<byte>, CodecError>
    requires e.Struct? || (e.Ptr? && e.target.Struct?)
    requires i <= |es| && forall j :: 0 <= j < |es| ==> HasKind(es[j], e)
    decreases e, 2, |es| - i
  {
    if i == |es| then Ok([])
    else
      assert HasKind(es[i], e);
      var r := if e.Ptr? && es[i].NilV? then Err(Panic) else EncodeValue(ElemTarget(e), es[i]);
      match r
      case Err(err) => Err(err)
      case Ok(b) => Prepend(b, EncodeElems(e, es, i + 1))
  }

  /** packbuf.Write: the encoding of a whole record. */
  function Encode(k: Kind, v: Value): (r: Result<seq<byte>, CodecError>)
    requires k.Struct? && HasKind(v, k)
    ensures r.Ok? <==> Writable(k, v)
    ensures Encodable(k, v) ==> r.Ok?
  {
    WritesIff(k, v);
    if Encodable(k, v) then EncodableIsWritable(k, v); EncodeValue(k, v) else EncodeValue(k, v)
  }

  // ---------------------------------------------------------------- reading

  /** The outcome of a read together with the stream position it leaves behind. */
  datatype Read<T> = Read(result: Result<T, CodecError>, pos: nat)

  /**
   * binary.Read of a fixed-width value (io.ReadFull): EOF when nothing is
   * left, ErrUnexpectedEOF (after consuming the rest) when only part is.
   */
  function ReadFixed(data: seq<byte>, pos: nat, width: nat): (r: Read<seq<byte>>)
    requires pos <= |data| && width > 0
    ensures pos <= r.pos <= |data|
    ensures r.result.Ok? ==> |r.result.value| == width && r.pos == pos + width
    ensures r.result.Err? ==> r.result.error in {EOF, UnexpectedEOF}
  {
    if pos + width <= |data| then Read(Ok(data[pos..pos + width]), pos + width)
    else if pos == |data| then Read(Err(EOF), pos)
    else Read(Err(UnexpectedEOF), |data|)
  }

  /**
   * bytes.Reader.Read into a buffer of n > 0 bytes: EOF when nothing is
   * left; otherwise what is there, up to n bytes, with the rest of the
   * buffer left as zero bytes (a short read is not an error).
   */
  function ReadShort(data: seq<byte>, pos: nat, n: nat): (r: Read<seq<byte>>)
    requires pos <= |data| && n > 0
    ensures pos <= r.pos <= |data|
    ensures r.result.Ok? ==> |r.result.value| == n
    ensures r.result.Err? ==> r.result.error == EOF
  {
    if pos == |data| then Read(Err(EOF), pos)
    else if pos + n <= |data| then Read(Ok(data[pos..pos + n]), pos + n)
    else Read(Ok(data[pos..] + seq(pos + n - |data|, _ => 0)), |data|)
  }

  function AsUint8s(bs: seq<byte>): (r: seq<Value>)
    ensures |r| == |bs| && forall i :: 0 <= i < |r| ==> r[i] == UintV(bs[i])
  {
    seq(|bs|, i requires 0 <= i < |bs| => UintV(bs[i]))
  }

  /** n uint16 elements, each read by binary.Read. */
  function DecodeUint16s(n: nat, data: seq<byte>, pos: nat): (r: Read<seq<Value>>)
    requires pos <= |data|
    ensures pos <= r.pos <= |data|
    ensures r.result.Ok? ==>
              |r.result.value| == n && forall i :: 0 <= i < n ==> HasKind(r.result.value[i], Uint16)
  {
    if n == 0 then Read(Ok([]), pos)
    else
      var h := ReadFixed(data, pos, 2);
      match h.result
      case Err(e) => Read(Err(e), h.pos)
      case Ok(b) =>
        var rest := DecodeUint16s(n - 1, data, h.pos);
        match rest.result
        case Err(e) => Read(Err(e), rest.pos)
        case Ok(vs) => Read(Ok([UintV(FromLE(b))] + vs), rest.pos)
  }

  /**
   * readStruct from field i on, reading into the target's field values ts:
   * an unexported field is skipped and keeps its value.
   */
  function DecodeStruct(fs: seq<Field>, ts: seq<Value>, i: nat, data: seq<byte>, pos: nat): (r: Read<seq<Value>>)
    requires |ts| == |fs| && i <= |fs| && pos <= |data|
    requires forall j :: 0 <= j < |fs| ==> HasKind(ts[j], fs[j].kind)
    ensures pos <= r.pos <= |data|
    ensures r.result.Ok? ==>
              |r.result.value| == |fs| - i && forall j :: i <= j < |fs| ==> HasKind(r.result.value[j - i], fs[j].kind)
    decreases Struct(fs), 0, |fs| - i
  {
    if i == |fs| then Read(Ok([]), pos)
    else
      var h := if fs[i].exported then DecodeValue(fs[i].kind, ts[i], data, pos) else Read(Ok(ts[i]), pos);
      match h.result
      case Err(e) => Read(Err(e), h.pos)
      case Ok(v) =>
        var rest := DecodeStruct(fs, ts, i + 1, data, h.pos);
        match rest.result
        case Err(e) => Read(Err(e), rest.pos)
        case Ok(vs) => Read(Ok([v] + vs), rest.pos)
  }

  /** Reads one settable field of kind k whose current value is t. */
  function DecodeValue(k: Kind, t: Value, data: seq<byte>, pos: nat): (r: Read<Value>)
    requires HasKind(t, k) && pos <= |data|
    ensures pos <= r.pos <= |data|
    ensures r.result.Ok? ==> HasKind(r.result.value, k)
    decreases k, 1, 0
  {
    match k
    case Slice(e) =>
      var c := ReadFixed(data, pos, 4);
      if c.result.Err? then Read(Err(c.result.error), c.pos)
      else
        var n := Signed(FromLE(c.result.value), 4);
        if n == 0 then Read(Ok(t), c.pos)        // the field keeps its value (nil)
        else if n < 0 then Read(Err(Panic), c.pos) // reflect.MakeSlice of a negative length
        else DecodeSliceBody(e, n, data, c.pos)
    case Struct(fs) =>
      var r := DecodeStruct(fs, t.fields, 0, data, pos);
      if r.result.Err? then Read(Err(r.result.error), r.pos) else Read(Ok(StructV(r.result.value)), r.pos)
    case Bool =>
      var r := ReadFixed(data, pos, 1);
      if r.result.Err? then Read(Err(r.result.error), r.pos) else Read(Ok(BoolV(r.result.value[0] != 0)), r.pos)
    case Uint8 => DecodeUnsigned(data, pos, 1)
    case Uint16 => DecodeUnsigned(data, pos, 2)
    case Uint64 => DecodeUnsigned(data, pos, 8)
    case Int => DecodeSigned(data, pos, 8)
    case Int64 => DecodeSigned(data, pos, 8)
    case Int32 => DecodeSigned(data, pos, 4)
    case Float32 => DecodeFloat(data, pos, 4)
    case Float64 => DecodeFloat(data, pos, 8)
    case Str =>
      var c := ReadFixed(data, pos, 2);
      if c.result.Err? then Read(Err(c.result.error), c.pos)
      else
        var size := FromLE(c.result.value);
        if size == 0 then Read(Ok(t), c.pos)     // nothing to set: the field keeps its value
        else
          var b := ReadShort(data, c.pos, size);
          if b.result.Err? then Read(Err(b.result.error), b.pos) else Read(Ok(StrV(b.result.value)), b.pos)
    case Int16 => Read(Err(UnsupportedType), pos)
    case Ptr(_) => Read(Err(UnsupportedType), pos)
    case Unsupported => Read(Err(UnsupportedType), pos)
  }

  function DecodeUnsigned(data: seq<byte>, pos: nat, width: nat): (r: Read<Value>)
    requires pos <= |data| && width > 0
    ensures pos <= r.pos <= |data|
    ensures r.result.Ok? ==> r.result.value.UintV? && r.result.value.u < Pow256(width)
  {
    var r := ReadFixed(data, pos, width);
    if r.result.Err? then Read(Err(r.result.error), r.pos) else Read(Ok(UintV(FromLE(r.result.value))), r.pos)
  }

  function DecodeSigned(data: seq<byte>, pos: nat, width: nat): (r: Read<Value>)
    requires pos <= |data| && width > 0
    ensures pos <= r.pos <= |data|
    ensures r.result.Ok? ==> r.result.value.IntV? && InSignedRange(r.result.value.i, width)
  {
    var r := ReadFixed(data, pos, width);
    if r.result.Err? then Read(Err(r.result.error), r.pos) else Read(Ok(IntV(Signed(FromLE(r.result.value), width))), r.pos)
  }

  function DecodeFloat(data: seq<byte>, pos: nat, width: nat): (r: Read<Value>)
    requires pos <= |data| && width > 0
    ensures pos <= r.pos <= |data|
    ensures r.result.Ok? ==> r.result.value.FloatV? && r.result.value.bits < Pow256(width)
  {
    var r := ReadFixed(data, pos, width);
    if r.result.Err? then Read(Err(r.result.error), r.pos) else Read(Ok(FloatV(FromLE(r.result.value))), r.pos)
  }

  /** The n > 0 elements of a slice, read into a freshly made slice of zero values. */
  function DecodeSliceBody(e: Kind, n: nat, data: seq<byte>, pos: nat): (r: Read<Value>)
    requires n > 0 && pos <= |data|
    ensures pos <= r.pos <= |data|
    ensures r.result.Ok? ==> HasKind(r.result.value, Slice(e)) && |r.result.value.elems| == n
    ensures r.result.Ok? ==> forall i :: 0 <= i < n ==> HasKind(r.result.value.elems[i], ElemTarget(e))
    decreases e, 3, 0
  {
    match e
    case Uint8 =>
      var b := ReadShort(data, pos, n);
      if b.result.Err? then Read(Err(b.result.error), b.pos) else Read(Ok(SliceV(AsUint8s(b.result.value))), b.pos)
    case Uint16 =>
      var r := DecodeUint16s(n, data, pos);
      if r.result.Err? then Read(Err(r.result.error), r.pos) else Read(Ok(SliceV(r.result.value)), r.pos)
    case Struct(_) =>
      var r := DecodeElems(e, n, data, pos);
      if r.result.Err? then Read(Err(r.result.error), r.pos) else Read(Ok(SliceV(r.result.value)), r.pos)
    case Ptr(t) =>
      if !t.Struct? then Read(Err(PtrToNonStruct), pos)
      else
        var r := DecodeElems(e, n, data, pos);
        if r.result.Err? then Read(Err(r.result.error), r.pos) else Read(Ok(SliceV(r.result.value)), r.pos)
    case _ => Read(Err(UnsupportedSliceElem), pos)
  }

  /**
   * n struct (or pointer-to-struct) elements; each is read into a zero
   * value (for a pointer, into a newly allocated zero struct).
   */
  function DecodeElems(e: Kind, n: nat, data: seq<byte>, pos: nat): (r: Read<seq<Value>>)
    requires e.Struct? || (e.Ptr? && e.target.Struct?)
    requires pos <= |data|
    ensures pos <= r.pos <= |data|
    ensures r.result.Ok? ==> |r.result.value| == n && forall i :: 0 <= i < n ==> HasKind(r.result.value[i], e)
    ensures r.result.Ok? ==> forall i :: 0 <= i < n ==> HasKind(r.result.value[i], ElemTarget(e))
    decreases e, 2, n
  {
    if n == 0 then Read(Ok([]), pos)
    else
      var h := DecodeValue(ElemTarget(e), Zero(ElemTarget(e)), data, pos);
      match h.result
      case Err(err) => Read(Err(err), h.pos)
      case Ok(v) =>
        var rest := DecodeElems(e, n - 1, data, h.pos);
        match rest.result
        case Err(err) => Read(Err(err), rest.pos)
        case Ok(vs) => Read(Ok([v] + vs), rest.pos)
  }

  /** packbuf.Read: reads a record into the target t. */
  function Decode(k: Kind, t: Value, data: seq<byte>, pos: nat): (r: Read<Value>)
    requires k.Struct? && HasKind(t, k) && pos <= |data|
    ensures pos <= r.pos <= |data|
    ensures r.result.Ok? ==> HasKind(r.result.value, k)
  {
    DecodeValue(k, t, data, pos)
  }

  // ------------------------------------------------------------ round trip

  /** What reading into t leaves behind when v was written: v, except where
      the reader keeps the target's value (unexported fields, empty slices
      and empty strings). */
  function Merge(k: Kind, v: Value, t: Value): (r: Value)
    requires HasKind(v, k) && HasKind(t, k)
    ensures HasKind(r, k)
    decreases k, 1
  {
    match k
    case Struct(fs) => StructV(MergeFields(fs, v.fields, t.fields))
    case Slice(_) => if |v.elems| == 0 then t else v
    case Str => if |v.bytes| == 0 then t else v
    case _ => v
  }

  function MergeFields(fs: seq<Field>, vs: seq<Value>, ts: seq<Value>): (r: seq<Value>)
    requires |vs| == |fs| && |ts| == |fs|
    requires forall j :: 0 <= j < |fs| ==> HasKind(vs[j], fs[j].kind) && HasKind(ts[j], fs[j].kind)
    ensures |r| == |fs| && forall j :: 0 <= j < |fs| ==> HasKind(r[j], fs[j].kind)
    decreases Struct(fs), 0
  {
    seq(|fs|, j requires 0 <= j < |fs| => if fs[j].exported then Merge(fs[j].kind, vs[j], ts[j]) else ts[j])
  }

  /** The values the writer can write and the reader can read back. */
  predicate Encodable(k: Kind, v: Value)
    requires HasKind(v, k)
    decreases k, 1
  {
    match k
    case Uint8 => false   // the writer panics
    case Int16 => false   // the reader has no case for int16
    case Ptr(_) => false
    case Unsupported => false
    case Str => |v.bytes| <= MaxStringSize
    case Struct(fs) => forall i :: 0 <= i < |fs| ==> fs[i].exported && Encodable(fs[i].kind, v.fields[i])
    case Slice(e) => |v.elems| <= MaxSliceCount && EncodableElems(e, v.elems)
    case _ => true
  }

  predicate EncodableElems(e: Kind, es: seq<Value>)
    requires forall i :: 0 <= i < |es| ==> HasKind(es[i], e)
    decreases e, 3
  {
    || e.Uint8?
    || e.Uint16?
    || ((e.Struct? || (e.Ptr? && e.target.Struct?)) && forall i :: 0 <= i < |es| ==> EncodableElem(e, es[i]))
  }

  /** A struct element, or a non-nil pointer element, whose struct is encodable. */
  predicate EncodableElem(e: Kind, v: Value)
    requires HasKind(v, e)
    decreases e, 2
  {
    match e
    case Ptr(t) => !v.NilV? && Encodable(t, v)
    case _ => Encodable(e, v)
  }

  /** Whether the bytes b occur in data at position pos. */
  predicate At(data: seq<byte>, pos: nat, b: seq<byte>)
  {
    pos + |b| <= |data| && data[pos..pos + |b|] == b
  }

  lemma AtSplit(data: seq<byte>, pos: nat, b1: seq<byte>, b2: seq<byte>)
    requires At(data, pos, b1 + b2)
    ensures At(data, pos, b1) && At(data, pos + |b1|, b2)
  {
    assert data[pos..pos + |b1|] == (b1 + b2)[..|b1|];
    assert data[pos + |b1|..pos + |b1| + |b2|] == (b1 + b2)[|b1|..];
  }

  /** Reading into a zero value gives back exactly what was written. */
  lemma {:induction false} MergeZero(k: Kind, v: Value)
    requires HasKind(v, k) && Encodable(k, v)
    ensures Merge(k, v, Zero(k)) == v
    decreases k
  {
    if k.Struct? {
      var fs := k.fields;
      var z := Zero(k);
      forall j | 0 <= j < |fs|
        ensures MergeFields(fs, v.fields, z.fields)[j] == v.fields[j]
      {
        MergeZero(fs[j].kind, v.fields[j]);
      }
      assert MergeFields(fs, v.fields, z.fields) == v.fields;
    }
  }

  /** The values the writer accepts (whether or not the reader can restore them). */
  predicate Writable(k: Kind, v: Value)
    requires HasKind(v, k)
    decreases k, 1
  {
    match k
    case Uint8 => false
    case Ptr(_) => false
    case Unsupported => false
    case Str => |v.bytes| <= MaxStringSize
    case Struct(fs) => forall i :: 0 <= i < |fs| ==> fs[i].exported && Writable(fs[i].kind, v.fields[i])
    case Slice(e) => WritableElems(e, v.elems)
    case _ => true
  }

  predicate WritableElems(e: Kind, es: seq<Value>)
    requires forall i :: 0 <= i < |es| ==> HasKind(es[i], e)
    decreases e, 3
  {
    || e.Uint8?
    || e.Uint16?
    || ((e.Struct? || (e.Ptr? && e.target.Struct?)) && forall i :: 0 <= i < |es| ==> WritableElem(e, es[i]))
  }

  predicate WritableElem(e: Kind, v: Value)
    requires HasKind(v, e)
    decreases e, 2
  {
    match e
    case Ptr(t) => !v.NilV? && Writable(t, v)
    case _ => Writable(e, v)
  }

  /** The writer succeeds exactly on the writable values. */
  lemma {:induction false} WritesIff(k: Kind, v: Value)
    requires HasKind(v, k)
    ensures EncodeValue(k, v).Ok? <==> Writable(k, v)
    decreases k, 1, 0
  {
    match k
    case Struct(fs) => WritesIffStruct(fs, v.fields, 0);
    case Slice(e) =>
      if e.Struct? || (e.Ptr? && e.target.Struct?) {
        WritesIffElems(e, v.elems, 0);
      }
    case _ =>
  }

  lemma {:induction false} WritesIffStruct(fs: seq<Field>, vs: seq<Value>, i: nat)
    requires |vs| == |fs| && i <= |fs|
    requires forall j :: 0 <= j < |fs| ==> HasKind(vs[j], fs[j].kind)
    ensures EncodeStruct(fs, vs, i).Ok? <==> forall j :: i <= j < |fs| ==> fs[j].exported && Writable(fs[j].kind, vs[j])
    decreases Struct(fs), 0, |fs| - i
  {
    if i < |fs| {
      WritesIff(fs[i].kind, vs[i]);
      WritesIffStruct(fs, vs, i + 1);
    }
  }

  lemma {:induction false} WritesIffElems(e: Kind, es: seq<Value>, i: nat)
    requires e.Struct? || (e.Ptr? && e.target.Struct?)
    requires i <= |es| && forall j :: 0 <= j < |es| ==> HasKind(es[j], e)
    ensures EncodeElems(e, es, i).Ok? <==> forall j :: i <= j < |es| ==> WritableElem(e, es[j])
    decreases e, 2, |es| - i
  {
    if i < |es| {
      assert HasKind(es[i], e);
      if !(e.Ptr? && es[i].NilV?) {
        WritesIff(ElemTarget(e), es[i]);
      }
      WritesIffElems(e, es, i + 1);
    }
  }

  /** What the round trip needs is more than what the writer needs. */
  lemma {:induction false} EncodableIsWritable(k: Kind, v: Value)
    requires HasKind(v, k) && Encodable(k, v)
    ensures Writable(k, v)
    decreases k, 1
  {
    match k
    case Struct(fs) =>
      forall i | 0 <= i < |fs|
        ensures Writable(fs[i].kind, v.fields[i])
      {
        EncodableIsWritable(fs[i].kind, v.fields[i]);
      }
    case Slice(e) =>
      if e.Struct? || (e.Ptr? && e.target.Struct?) {
        forall i | 0 <= i < |v.elems|
          ensures WritableElem(e, v.elems[i])
        {
          assert HasKind(v.elems[i], e);
          assert EncodableElem(e, v.elems[i]);
          EncodableIsWritable(ElemTarget(e), v.elems[i]);
        }
      }
    case _ =>
  }

  lemma SliceCountRoundTrip(n: nat)
    requires n <= MaxSliceCount
    ensures Unsigned(n, 4) == n
    ensures FromLE(LE(Unsigned(n, 4), 4)) == n
    ensures Signed(FromLE(LE(Unsigned(n, 4), 4)), 4) == n
  {
    assert Pow256(4) == 0x1_0000_0000;
    SignedUnsigned(n, 4);
    LERoundTrip(n, 4);
  }

  lemma {:induction false} Uint8BytesRoundTrip(es: seq<Value>)
    requires forall i :: 0 <= i < |es| ==> HasKind(es[i], Uint8)
    ensures AsUint8s(Uint8Bytes(es)) == es
  {
    if |es| > 0 {
      Uint8BytesRoundTrip(es[1..]);
      assert HasKind(es[0], Uint8);
      assert es == [es[0]] + es[1..];
    }
  }

  lemma {:induction false} RoundTripUint16s(es: seq<Value>, data: seq<byte>, pos: nat, b: seq<byte>)
    requires forall i :: 0 <= i < |es| ==> HasKind(es[i], Uint16)
    requires Uint16Bytes(es) == b && At(data, pos, b)
    ensures DecodeUint16s(|es|, data, pos) == Read(Ok(es), pos + |b|)
  {
    if |es| > 0 {
      assert HasKind(es[0], Uint16);
      var b1 := LE16(es[0].u);
      var b2 := Uint16Bytes(es[1..]);
      AtSplit(data, pos, b1, b2);
      RoundTripUint16s(es[1..], data, pos + 2, b2);
      assert es == [es[0]] + es[1..];
    }
  }

  /**
   * Round trip of one field: reading the bytes written for v into a field
   * holding t gives Merge(k, v, t) and consumes exactly those bytes.
   */
  lemma {:induction false} RoundTripValue(k: Kind, v: Value, t: Value, data: seq<byte>, pos: nat, b: seq<byte>)
    requires HasKind(v, k) && HasKind(t, k) && Encodable(k, v)
    requires EncodeValue(k, v) == Ok(b) && At(data, pos, b)
    ensures DecodeValue(k, t, data, pos) == Read(Ok(Merge(k, v, t)), pos + |b|)
    decreases k, 1, 0
  {
    match k
    case Struct(fs) =>
      RoundTripStruct(fs, v.fields, t.fields, 0, data, pos, b);
      assert MergeFields(fs, v.fields, t.fields)[0..] == MergeFields(fs, v.fields, t.fields);
    case Slice(e) =>
      RoundTripSlice(e, v, t, data, pos, b);
    case _ =>
      RoundTripScalar(k, v, t, data, pos, b);
  }

  lemma {:induction false} RoundTripSlice(e: Kind, v: Value, t: Value, data: seq<byte>, pos: nat, b: seq<byte>)
    requires HasKind(v, Slice(e)) && HasKind(t, Slice(e)) && Encodable(Slice(e), v)
    requires EncodeValue(Slice(e), v) == Ok(b) && At(data, pos, b)
    ensures DecodeValue(Slice(e), t, data, pos) == Read(Ok(Merge(Slice(e), v, t)), pos + |b|)
    decreases Slice(e), 0, 0
  {
    var n := |v.elems|;
    SliceCountRoundTrip(n);
    var header := LE(Unsigned(n, 4), 4);
    var rest := EncodeSliceBody(e, v.elems).value;
    assert b == header + rest;
    AtSplit(data, pos, header, rest);
    if n > 0 {
      RoundTripSliceBody(e, v.elems, data, pos + 4, rest);
    } else {
      assert EncodableElems(e, v.elems);
      if e.Struct? || e.Ptr? {
        assert EncodeElems(e, v.elems, 0) == Ok([]);
      }
    }
  }

  lemma RoundTripScalar(k: Kind, v: Value, t: Value, data: seq<byte>, pos: nat, b: seq<byte>)
    requires !k.Struct? && !k.Slice?
    requires HasKind(v, k) && HasKind(t, k) && Encodable(k, v)
    requires EncodeValue(k, v) == Ok(b) && At(data, pos, b)
    ensures DecodeValue(k, t, data, pos) == Read(Ok(Merge(k, v, t)), pos + |b|)
  {
    var r := Read(Ok(Merge(k, v, t)), pos + |b|);
    match k
    case Str =>
      var size := |v.bytes|;
      assert Pow256(2) == 0x1_0000;
      LERoundTrip(size, 2);
      AtSplit(data, pos, LE(size, 2), v.bytes);
      assert DecodeValue(k, t, data, pos) == r;
    case Bool =>
      assert DecodeValue(k, t, data, pos) == r;
    case Uint16 =>
      LERoundTrip(v.u, 2);
      assert DecodeValue(k, t, data, pos) == r;
    case Uint64 =>
      LERoundTrip(v.u, 8);
      assert DecodeValue(k, t, data, pos) == r;
    case Int =>
      LERoundTrip(Unsigned(v.i, 8), 8);
      SignedUnsigned(v.i, 8);
      assert DecodeValue(k, t, data, pos) == r;
    case Int64 =>
      LERoundTrip(Unsigned(v.i, 8), 8);
      SignedUnsigned(v.i, 8);
      assert DecodeValue(k, t, data, pos) == r;
    case Int32 =>
      LERoundTrip(Unsigned(v.i, 4), 4);
      SignedUnsigned(v.i, 4);
      assert DecodeValue(k, t, data, pos) == r;
    case Float32 =>
      LERoundTrip(v.bits, 4);
      assert DecodeValue(k, t, data, pos) == r;
    case Float64 =>
      LERoundTrip(v.bits, 8);
      assert DecodeValue(k, t, data, pos) == r;
    case Uint8 =>
    case Int16 =>
    case Ptr(_) =>
    case Unsupported =>
  }

  lemma {:induction false} RoundTripSliceBody(e: Kind, es: seq<Value>, data: seq<byte>, pos: nat, b: seq<byte>)
    requires |es| > 0 && forall i :: 0 <= i < |es| ==> HasKind(es[i], e)
    requires EncodableElems(e, es)
    requires EncodeSliceBody(e, es) == Ok(b) && At(data, pos, b)
    ensures DecodeSliceBody(e, |es|, data, pos) == Read(Ok(SliceV(es)), pos + |b|)
    decreases e, 3, 0
  {
    if e.Uint8? {
      Uint8BytesRoundTrip(es);
    } else if e.Uint16? {
      RoundTripUint16s(es, data, pos, b);
    } else {
      RoundTripElems(e, es, 0, data, pos, b);
      assert es[0..] == es;
    }
  }

  lemma {:induction false} RoundTripElems(e: Kind, es: seq<Value>, i: nat, data: seq<byte>, pos: nat, b: seq<byte>)
    requires e.Struct? || (e.Ptr? && e.target.Struct?)
    requires i <= |es| && forall j :: 0 <= j < |es| ==> HasKind(es[j], e)
    requires forall j :: i <= j < |es| ==> EncodableElem(e, es[j])
    requires EncodeElems(e, es, i) == Ok(b) && At(data, pos, b)
    ensures DecodeElems(e, |es| - i, data, pos) == Read(Ok(es[i..]), pos + |b|)
    decreases e, 2, |es| - i
  {
    if i < |es| {
      var b1, b2 := RoundTripHead(e, es, i, data, pos, b);
      RoundTripElems(e, es, i + 1, data, pos + |b1|, b2);
    } else {
      assert b == [] && es[i..] == [];
      assert DecodeElems(e, |es| - i, data, pos) == Read(Ok(es[i..]), pos + |b|);
    }
  }

  /**
   * The first element of what is left of a slice reads back; the rest is
   * then read back if the remaining bytes are.
   */
  lemma {:induction false} RoundTripHead(e: Kind, es: seq<Value>, i: nat, data: seq<byte>, pos: nat, b: seq<byte>)
      returns (b1: seq<byte>, b2: seq<byte>)
    requires e.Struct? || (e.Ptr? && e.target.Struct?)
    requires i < |es| && forall j :: 0 <= j < |es| ==> HasKind(es[j], e)
    requires forall j :: i <= j < |es| ==> EncodableElem(e, es[j])
    requires EncodeElems(e, es, i) == Ok(b) && At(data, pos, b)
    ensures EncodeElems(e, es, i + 1) == Ok(b2) && At(data, pos + |b1|, b2) && |b| == |b1| + |b2|
    ensures DecodeElems(e, |es| - (i + 1), data, pos + |b1|) == Read(Ok(es[i + 1..]), pos + |b1| + |b2|) ==>
              DecodeElems(e, |es| - i, data, pos) == Read(Ok(es[i..]), pos + |b|)
    decreases e, 1, 2
  {
    EncodeElemsCons(e, es, i, b);
    b1 := EncodeValue(ElemTarget(e), es[i]).value;
    b2 := EncodeElems(e, es, i + 1).value;
    var mid := pos + |b1|;
    AtSplit(data, pos, b1, b2);
    RoundTripElem(e, es[i], data, pos, b1);
    if DecodeElems(e, |es| - (i + 1), data, mid) == Read(Ok(es[i + 1..]), mid + |b2|) {
      DecodeElemsCons(e, |es| - i, |es| - (i + 1), data, pos, es[i], mid, es[i + 1..], mid + |b2|);
      SliceCons(es, i);
      assert DecodeElems(e, |es| - i, data, pos) == Read(Ok(es[i..]), pos + |b|);
    }
  }

  lemma SliceCons(es: seq<Value>, i: nat)
    requires i < |es|
    ensures es[i..] == [es[i]] + es[i + 1..]
  {
  }

  /** One element of a slice of records (or of pointers to records) reads back into its zero value. */
  lemma {:induction false} RoundTripElem(e: Kind, v: Value, data: seq<byte>, pos: nat, b: seq<byte>)
    requires (e.Struct? || (e.Ptr? && e.target.Struct?)) && HasKind(v, e) && EncodableElem(e, v)
    requires EncodeValue(ElemTarget(e), v) == Ok(b) && At(data, pos, b)
    ensures DecodeValue(ElemTarget(e), Zero(ElemTarget(e)), data, pos) == Read(Ok(v), pos + |b|)
    decreases e, 1, 1
  {
    var tk := ElemTarget(e);
    assert HasKind(v, tk) && Encodable(tk, v);
    RoundTripValue(tk, v, Zero(tk), data, pos, b);
    MergeZero(tk, v);
  }

  /** One element written, then the rest. */
  lemma EncodeElemsCons(e: Kind, es: seq<Value>, i: nat, b: seq<byte>)
    requires e.Struct? || (e.Ptr? && e.target.Struct?)
    requires i < |es| && forall j :: 0 <= j < |es| ==> HasKind(es[j], e)
    requires EncodeElems(e, es, i) == Ok(b)
    ensures EncodeValue(ElemTarget(e), es[i]).Ok? && EncodeElems(e, es, i + 1).Ok?
    ensures b == EncodeValue(ElemTarget(e), es[i]).value + EncodeElems(e, es, i + 1).value
  {
    assert HasKind(es[i], e);
  }

  /** One element read, then the rest. */
  lemma DecodeElemsCons(e: Kind, n: nat, k: nat, data: seq<byte>, pos: nat, v: Value, mid: nat, vs: seq<Value>, end: nat)
    requires e.Struct? || (e.Ptr? && e.target.Struct?)
    requires n == k + 1 && pos <= mid <= |data|
    requires DecodeValue(ElemTarget(e), Zero(ElemTarget(e)), data, pos) == Read(Ok(v), mid)
    requires DecodeElems(e, k, data, mid) == Read(Ok(vs), end)
    ensures DecodeElems(e, n, data, pos) == Read(Ok([v] + vs), end)
  {
  }

  lemma {:induction false} RoundTripStruct(fs: seq<Field>, vs: seq<Value>, ts: seq<Value>, i: nat, data: seq<byte>, pos: nat, b: seq<byte>)
    requires |vs| == |fs| && |ts| == |fs| && i <= |fs|
    requires forall j :: 0 <= j < |fs| ==> HasKind(vs[j], fs[j].kind) && HasKind(ts[j], fs[j].kind)
    requires forall j :: i <= j < |fs| ==> fs[j].exported && Encodable(fs[j].kind, vs[j])
    requires EncodeStruct(fs, vs, i) == Ok(b) && At(data, pos, b)
    ensures DecodeStruct(fs, ts, i, data, pos) == Read(Ok(MergeFields(fs, vs, ts)[i..]), pos + |b|)
    decreases Struct(fs), 0, |fs| - i
  {
    if i < |fs| {
      var b1, b2 := RoundTripField(fs, vs, ts, i, data, pos, b);
      RoundTripStruct(fs, vs, ts, i + 1, data, pos + |b1|, b2);
    } else {
      assert b == [] && MergeFields(fs, vs, ts)[i..] == [];
      assert DecodeStruct(fs, ts, i, data, pos) == Read(Ok(MergeFields(fs, vs, ts)[i..]), pos + |b|);
    }
  }

  /**
   * Field i of a record reads back merged into its target; the fields after
   * it are then read back if the remaining bytes are.
   */
  lemma {:induction false} RoundTripField(fs: seq<Field>, vs: seq<Value>, ts: seq<Value>, i: nat, data: seq<byte>, pos: nat, b: seq<byte>)
      returns (b1: seq<byte>, b2: seq<byte>)
    requires |vs| == |fs| && |ts| == |fs| && i < |fs|
    requires forall j :: 0 <= j < |fs| ==> HasKind(vs[j], fs[j].kind) && HasKind(ts[j], fs[j].kind)
    requires forall j :: i <= j < |fs| ==> fs[j].exported && Encodable(fs[j].kind, vs[j])
    requires EncodeStruct(fs, vs, i) == Ok(b) && At(data, pos, b)
    ensures EncodeStruct(fs, vs, i + 1) == Ok(b2) && At(data, pos + |b1|, b2) && |b| == |b1| + |b2|
    ensures DecodeStruct(fs, ts, i + 1, data, pos + |b1|) == Read(Ok(MergeFields(fs, vs, ts)[i + 1..]), pos + |b1| + |b2|) ==>
              DecodeStruct(fs, ts, i, data, pos) == Read(Ok(MergeFields(fs, vs, ts)[i..]), pos + |b|)
    decreases Struct(fs), 0, |fs| - i - 1
  {
    b1 := EncodeValue(fs[i].kind, vs[i]).value;
    b2 := EncodeStruct(fs, vs, i + 1).value;
    assert b == b1 + b2;
    var mid := pos + |b1|;
    AtSplit(data, pos, b1, b2);
    RoundTripValue(fs[i].kind, vs[i], ts[i], data, pos, b1);
    var m := MergeFields(fs, vs, ts);
    if DecodeStruct(fs, ts, i + 1, data, mid) == Read(Ok(m[i + 1..]), mid + |b2|) {
      DecodeStructCons(fs, ts, i, data, pos, m[i], mid, m[i + 1..], mid + |b2|);
      SliceCons(m, i);
      assert DecodeStruct(fs, ts, i, data, pos) == Read(Ok(m[i..]), pos + |b|);
    }
  }

  /** An exported field read, then the fields after it. */
  lemma DecodeStructCons(fs: seq<Field>, ts: seq<Value>, i: nat, data: seq<byte>, pos: nat, v: Value, mid: nat, rest: seq<Value>, end: nat)
    requires |ts| == |fs| && i < |fs| && pos <= mid <= |data| && fs[i].exported
    requires forall j :: 0 <= j < |fs| ==> HasKind(ts[j], fs[j].kind)
    requires DecodeValue(fs[i].kind, ts[i], data, pos) == Read(Ok(v), mid)
    requires DecodeStruct(fs, ts, i + 1, data, mid) == Read(Ok(rest), end)
    ensures DecodeStruct(fs, ts, i, data, pos) == Read(Ok([v] + rest), end)
  {
  }

  /**
   * packbuf.Write then packbuf.Read: a record read back into a zero value
   * equals the record written, and the reader stops right after it.
   */
  lemma RoundTrip(k: Kind, v: Value, data: seq<byte>, pos: nat)
    requires k.Struct? && HasKind(v, k) && Encodable(k, v)
    ensures Encode(k, v).Ok?
    ensures At(data, pos, Encode(k, v).value) ==>
              Decode(k, Zero(k), data, pos) == Read(Ok(v), pos + |Encode(k, v).value|)
  {
    EncodableIsWritable(k, v);
    WritesIff(k, v);
    var b := Encode(k, v).value;
    if At(data, pos, b) {
      RoundTripValue(k, v, Zero(k), data, pos, b);
      MergeZero(k, v);
    }
  }

  // ------------------------------------------------- properties of each half

  /** The writer refuses any record with an unexported field. */
  lemma {:induction false} WriterNeedsExportedFields(fs: seq<Field>, vs: seq<Value>, i: nat)
    requires |vs| == |fs| && i <= |fs|
    requires forall j :: 0 <= j < |fs| ==> HasKind(vs[j], fs[j].kind)
    ensures EncodeStruct(fs, vs, i).Ok? ==> forall j :: i <= j < |fs| ==> fs[j].exported
    decreases |fs| - i
  {
    if i < |fs| && fs[i].exported && EncodeValue(fs[i].kind, vs[i]).Ok? {
      WriterNeedsExportedFields(fs, vs, i + 1);
    }
  }

  /** The reader, in contrast, skips unexported fields: they keep the target's value. */
  lemma {:induction false} ReaderSkipsUnexportedFields(fs: seq<Field>, ts: seq<Value>, i: nat, data: seq<byte>, pos: nat)
    requires |ts| == |fs| && i <= |fs| && pos <= |data|
    requires forall j :: 0 <= j < |fs| ==> HasKind(ts[j], fs[j].kind)
    ensures var r := DecodeStruct(fs, ts, i, data, pos);
            r.result.Ok? ==> forall j :: i <= j < |fs| && !fs[j].exported ==> r.result.value[j - i] == ts[j]
    decreases |fs| - i
  {
    if i < |fs| {
      var h := if fs[i].exported then DecodeValue(fs[i].kind, ts[i], data, pos) else Read(Ok(ts[i]), pos);
      if h.result.Ok? {
        ReaderSkipsUnexportedFields(fs, ts, i + 1, data, h.pos);
      }
    }
  }

  /** The error each half reports for the kinds it does not handle. */
  lemma UnsupportedKinds(k: Kind, v: Value, t: Value, data: seq<byte>, pos: nat)
    requires HasKind(v, k) && HasKind(t, k) && pos <= |data|
    ensures (k.Ptr? || k.Unsupported?) ==> EncodeValue(k, v) == Err(UnsupportedType)
    ensures (k.Ptr? || k.Unsupported? || k.Int16?) ==> DecodeValue(k, t, data, pos) == Read(Err(UnsupportedType), pos)
    ensures k.Int16? ==> EncodeValue(k, v).Ok?       // int16 is written but cannot be read back
    ensures k.Uint8? ==> EncodeValue(k, v) == Err(Panic) // a byte field is read but cannot be written
    ensures k.Str? ==> (EncodeValue(k, v) == Err(StringTooLarge) <==> |v.bytes| > MaxStringSize)
  {
    if k.Ptr? || k.Unsupported? {
      assert EncodeValue(k, v) == Err(UnsupportedType);
    } else if k.Int16? {
      assert EncodeValue(k, v).Ok?;
    } else if k.Uint8? {
      assert EncodeValue(k, v) == Err(Panic);
    } else if k.Str? {
      assert EncodeValue(k, v) == Err(StringTooLarge) <==> |v.bytes| > MaxStringSize;
    }
  }

  /** The slice element kinds neither half handles, and pointers to non-structs. */
  lemma UnsupportedSliceElems(e: Kind, es: seq<Value>, n: nat, data: seq<byte>, pos: nat)
    requires forall i :: 0 <= i < |es| ==> HasKind(es[i], e)
    requires n > 0 && pos <= |data|
    ensures !(e.Uint8? || e.Uint16? || e.Struct? || e.Ptr?) ==>
              EncodeSliceBody(e, es) == Err(UnsupportedSliceElem) &&
              DecodeSliceBody(e, n, data, pos) == Read(Err(UnsupportedSliceElem), pos)
    ensures e.Ptr? && !e.target.Struct? ==>
              EncodeSliceBody(e, es) == Err(PtrToNonStruct) &&
              DecodeSliceBody(e, n, data, pos) == Read(Err(PtrToNonStruct), pos)
  {
  }

  /** Wire layout of the scalars: their width, and how a bool is read back. */
  lemma ScalarLayout(k: Kind, v: Value)
    requires HasKind(v, k)
    ensures k.Bool? ==> EncodeValue(k, v) == Ok([if v.b then 1 else 0])
    ensures (k.Int? || k.Int64? || k.Uint64? || k.Float64?) ==> EncodeValue(k, v).Ok? && |EncodeValue(k, v).value| == 8
    ensures (k.Int32? || k.Float32?) ==> EncodeValue(k, v).Ok? && |EncodeValue(k, v).value| == 4
    ensures (k.Int16? || k.Uint16?) ==> EncodeValue(k, v).Ok? && |EncodeValue(k, v).value| == 2
    ensures k.Str? && |v.bytes| <= MaxStringSize ==> EncodeValue(k, v) == Ok(LE(|v.bytes|, 2) + v.bytes)
  {
  }

  /** Any nonzero byte reads as true. */
  lemma BoolReadsNonzero(t: Value, data: seq<byte>, pos: nat)
    requires HasKind(t, Bool) && pos < |data|
    ensures DecodeValue(Bool, t, data, pos) == Read(Ok(BoolV(data[pos] != 0)), pos + 1)
  {
  }

  /** A count of zero leaves a slice field as it was (nil), consuming only the count. */
  lemma ZeroCountKeepsTarget(e: Kind, t: Value, data: seq<byte>, pos: nat)
    requires HasKind(t, Slice(e)) && At(data, pos, [0, 0, 0, 0])
    ensures DecodeValue(Slice(e), t, data, pos) == Read(Ok(t), pos + 4)
  {
    assert FromLE([0, 0, 0, 0]) == 0;
  }

  /** A length of zero leaves a string field as it was. */
  lemma ZeroLengthKeepsString(t: Value, data: seq<byte>, pos: nat)
    requires HasKind(t, Str) && At(data, pos, [0, 0])
    ensures DecodeValue(Str, t, data, pos) == Read(Ok(t), pos + 2)
  {
    assert FromLE([0, 0]) == 0;
  }

  /** The reader's string-size guard can never fire: a u16 length is at most MaxStringSize. */
  lemma StringSizeGuardIsDead(b: seq<byte>)
    requires |b| == 2
    ensures FromLE(b) <= MaxStringSize
  {
    assert Pow256(2) == 0x1_0000;
  }

  /** A negative count makes reflect.MakeSlice panic. */
  lemma NegativeCountPanics(e: Kind, t: Value, data: seq<byte>, pos: nat)
    requires HasKind(t, Slice(e)) && pos + 4 <= |data| && data[pos + 3] >= 0x80
    ensures DecodeValue(Slice(e), t, data, pos) == Read(Err(Panic), pos + 4)
  {
    var b := data[pos..pos + 4];
    assert FromLE(b) == b[0] + 256 * FromLE(b[1..]);
    assert FromLE(b[1..]) == b[1] + 256 * FromLE(b[2..]);
    assert FromLE(b[2..]) == b[2] + 256 * FromLE(b[3..]);
    assert FromLE(b[3..]) == b[3] + 256 * FromLE(b[4..]);
    assert Pow256(4) == 0x1_0000_0000;
  }

  /**
   * The value a slice field held before the read matters only when the
   * count is zero: otherwise the field is replaced by a freshly made slice.
   */
  lemma SliceTargetIndependence(e: Kind, t: Value, data: seq<byte>, pos: nat)
    requires HasKind(t, Slice(e)) && pos <= |data|
    ensures var z := DecodeValue(Slice(e), SliceV([]), data, pos);
            DecodeValue(Slice(e), t, data, pos) == if z.result == Ok(SliceV([])) then Read(Ok(t), z.pos) else z
  {
  }
}
