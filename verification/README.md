# toy-webrtc-mmo netcode, modelled in Dafny

This project models the netcode of toy-webrtc-mmo, a small Go multiplayer
platformer whose clients talk to an authoritative server over unreliable,
unordered WebRTC data channels. It models these parts:

- **Wire** and **Packbuf**: the little-endian binary codec. `packbuf.Write`
  and `packbuf.Read` walk a record's fields in declaration order. Go finds
  the fields by reflection; here they come from an explicit schema
  (`Kind`), and a record is a `Value` of that kind. The reader fills a
  target in place, so a zero slice count, a zero string length and an
  unexported field all leave the target's value as it was.
- **PackbufWrite** and **PackbufRead**: the imperative writer (a growing
  byte buffer) and reader (a cursor over a frame). Each method is proved
  to do exactly what the codec functions say.
- **Rtt**: the round-trip tracker. It holds a 16-bit sequence counter, a
  60-slot ring of (sequence, send time) entries overwritten in place, and
  a smoothed latency. It also holds the wrap-around comparison
  `IsWrappedUInt16GreaterThan`.
- **Packs**: the packet envelope. An envelope is a one-byte tag (Ack 1,
  ClientPlayer 2, WorldState 3), the sender's next sequence number as a
  little-endian u16, then the packet record. Packs also holds the tag
  registry.
- **Ent** and **World**: the player entity and the world's ordered player
  list. World also holds the snapshot of that list, which goes through the
  codec.
- **Client**: one client tick (`Controller.BeforeUpdate`). It numbers the
  frame and records the input history, reads packets and collects acks,
  keeps the newest world state, snaps to it and replays the unsimulated
  inputs, then sends the acks and the last ten inputs.
- **Server**: one server tick. It reclaims disconnected slots and admits
  new ones, ingests packets under the batch cap and the accept-if-newer
  rule, selects the next input to simulate and broadcasts the world to
  every client.
- **WebrtcServer**: the transport's connection slot pool, as a state
  machine over `isUsed` and `isConnected`. It covers `New`, `Read`, `Send`,
  `CloseButDontFree`, `Free`, first-free-slot acquisition, the data-channel
  handlers and the data-channel validator.

Time is a parameter. `now` is an integer instant in nanoseconds, and Go's
zero `time.Time` (held by a ring slot never used) is `Unset`. Physics is
also a parameter: a deterministic step `Body -> Motion`. A float field is
its IEEE-754 bit pattern. The transport's I/O is passed in or returned:
the frames a connection received come in as a list, and a send returns
its bytes or records them on the slot.

Where the code behaves in a way its comments or its tests do not state,
the model follows the code:
- the writer's `byte` case panics;
- `int16` can be written but not read;
- `[]uint8` and string reads may be short and are zero-padded;
- the reader's string-size guard never fires;
- a negative slice count panics in `reflect.MakeSlice`;
- the server's second frame-0 check after the input scan never fires;
- slot IDs wrap to 0 at slot 65535;
- the client panics on every read error but EOF, while the server logs the
  error and keeps reading.

## Model

Specification helpers that only serve to state other members' contracts (`Client.Replay`, `SceneOf`, `Snapped`, `SnappedFrom`, `Server.Accepts`, `Crashes`, `SomeCrash`, `Ticked`, `Roster` and the like) have no row of their own; the rows of the members whose contracts use them cite the source lines they describe.

| member | source | states |
|---|---|---|
| Wire.LE16 | internal/netcode/packs/packs.go:135 | the two little-endian bytes of a sequence number decode back to it |
| Wire.LERoundTrip | internal/netcode/packbuf/packbufwrite.go:124-131 | the fixed-width little-endian encoding of a value that fits its width decodes back to that value |
| Wire.FromLEOfLE | internal/netcode/packbuf/packbufwrite.go:124-131 | decoding an encoding gives the value modulo 256^width, which is Go's truncating conversion |
| Wire.SignedUnsigned | internal/netcode/packbuf/packbufread.go:132-146 | a signed integer in range, written as its unsigned bits and read back as two's complement, is unchanged |
| Wire.Unsigned | internal/netcode/packbuf/packbufwrite.go:101-116 | Go's conversion of a signed integer to the unsigned type of its width lands below 256^width |
| Wire.Signed | internal/netcode/packbuf/packbufread.go:132-146 | the two's-complement reading of a width-byte pattern lies in the signed range of that width |
| Rtt.IsWrappedUInt16GreaterThan | internal/netcode/rtt/rtt.go:96-99 | s1 is after s2 iff going forward from s2 reaches s1 in fewer than 32768 steps, or in exactly 32768 steps with s1 the numerically larger |
| Rtt.IsAfterAsymmetric | internal/netcode/rtt/rtt.go:96-99 | no value is after itself, and of two distinct values exactly one is after the other |
| Rtt.GoldenCases | internal/netcode/rtt/rtt_test.go:11-37 | the comparator holds for (1,0), (101,100), (65001,65000), (1,65000) and (300,65000) |
| Rtt.InitialState | internal/netcode/rtt/rtt.go:25-37 | the zero tracker has counter 0, latency 0 and exactly 60 ring slots, all unused |
| Rtt.Clamp | internal/netcode/rtt/rtt.go:58 | a duration saturates into the int64 range of time.Duration and is unchanged when already inside it |
| Rtt.Sub | internal/netcode/rtt/rtt.go:58 | elapsed time saturates to the time.Duration range, and from an unused slot's zero time it is the maximum |
| Rtt.TruncDiv | internal/netcode/rtt/rtt.go:58 | Go's integer division truncates toward zero and never overshoots the dividend |
| Rtt.Milliseconds | internal/netcode/rtt/rtt.go:58 | Duration.Milliseconds truncates toward zero: the whole milliseconds in a duration, for positive and negative durations |
| Rtt.Expired | internal/netcode/rtt/rtt.go:58 | a slot is free for reuse exactly when at least 1001 ms have elapsed since its send, so an unused slot always is |
| Rtt.FirstExpired | internal/netcode/rtt/rtt.go:56-63 | Next's scan finds the first expired slot, and none iff no slot has expired |
| Rtt.Record | internal/netcode/rtt/rtt.go:54-63 | Next overwrites only the first slot older than 1000 ms with (seqId, now); when no slot has expired the ring is unchanged |
| Rtt.NextState | internal/netcode/rtt/rtt.go:50-65 | the counter advances by 1 modulo 65536 (65535 is followed by 0, not skipped), the ring keeps its size, and the latency is untouched |
| Rtt.FindSequence | internal/netcode/rtt/rtt.go:68-79 | Ack's scan finds the first slot holding the sequence number, and none iff no slot holds it |
| Rtt.Smooth | internal/netcode/rtt/rtt.go:84 | the new latency is (9 * latency + sample) / 10 truncated toward zero, so it lies between the old latency and the sample |
| Rtt.AckState | internal/netcode/rtt/rtt.go:67-86 | an unknown sequence changes nothing; a known one makes the elapsed time the latency when the latency is 0, and smooths it in otherwise; the counter and ring never change |
| Rtt.AckAll | internal/netcode/rtt/rtt.go:67-86 | acknowledging a list of sequence numbers changes neither the counter nor the ring |
| Rtt.AckAfterNext | internal/netcode/rtt/rtt.go:50-86 | a send that found a free slot, acknowledged later, yields a sample equal to the time elapsed since the send |
| Rtt.RoundTripTracking.constructor | internal/netcode/rtt/rtt.go:33-37 | a new tracker is the zero-valued struct |
| Rtt.RoundTripTracking.Reset | internal/netcode/server/server.go:107-110 | overwriting the tracker with its zero value restores InitialState |
| Rtt.RoundTripTracking.Latency | internal/netcode/rtt/rtt.go:46-48 | returns the smoothed latency |
| Rtt.RoundTripTracking.Next | internal/netcode/rtt/rtt.go:50-65 | returns the old counter, and the in-place loop over the ring array leaves exactly NextState |
| Rtt.RoundTripTracking.Ack | internal/netcode/rtt/rtt.go:67-86 | the search loop and latency update leave exactly AckState |
| Seqs.FirstWhere | internal/netcode/rtt/rtt.go:56-63 | the index of the first element that qualifies, and None iff none does |
| Seqs.RemoveFirst | internal/world/world.go:53-63 | removal drops exactly the first occurrence, keeps the others in order, and changes nothing when the element is absent |
| Seqs.RemoveFirstDistinct | internal/world/world.go:53-63 | removing from a duplicate-free list keeps it duplicate-free and without the removed element |
| Packbuf.Zero | internal/netcode/packbuf/packbufread.go:54-55 | the zero value of a kind, as reflect.New and MakeSlice produce it, is well typed |
| Packbuf.Uint8Bytes | internal/netcode/packbuf/packbufwrite.go:60-63 | a []uint8 is written as one byte per element |
| Packbuf.Uint16Bytes | internal/netcode/packbuf/packbufwrite.go:64-69 | a []uint16 is written as two bytes per element |
| Packbuf.ElemTarget | internal/netcode/packbuf/packbufwrite.go:40-57 | a slice element is encoded as its struct, or as the struct its pointer points to |
| Packbuf.Encode | internal/netcode/packbuf/packbufwrite.go:13-19 | packbuf.Write succeeds on a record exactly when it is writable, and always on an encodable one |
| Packbuf.ReadFixed | internal/netcode/packbuf/packbufread.go:114-158 | binary.Read of a fixed width: EOF when nothing is left, ErrUnexpectedEOF when only part is, else exactly width bytes |
| Packbuf.ReadShort | internal/netcode/packbuf/packbufread.go:57-62 | a bytes.Reader read returns n bytes (zero-padded when short) or EOF, and only EOF as an error |
| Packbuf.AsUint8s | internal/netcode/packbuf/packbufread.go:57-62 | the bytes read for a []uint8 become its elements one for one |
| Packbuf.DecodeUint16s | internal/netcode/packbuf/packbufread.go:63-70 | a []uint16 is read element by element, each a little-endian u16 |
| Packbuf.DecodeStruct | internal/netcode/packbuf/packbufread.go:26-181 | readStruct reads the settable fields in order; the result has the target's shape and an unexported field keeps its value |
| Packbuf.DecodeValue | internal/netcode/packbuf/packbufread.go:34-178 | a field read succeeds only with a value of the field's kind, and the cursor only advances |
| Packbuf.DecodeUnsigned | internal/netcode/packbuf/packbufread.go:120-131 | an unsigned field reads a value below 256^width |
| Packbuf.DecodeSigned | internal/netcode/packbuf/packbufread.go:132-146 | a signed field reads a value in the two's-complement range of its width |
| Packbuf.DecodeFloat | internal/netcode/packbuf/packbufread.go:147-158 | a float field reads a bit pattern of its width |
| Packbuf.DecodeSliceBody | internal/netcode/packbuf/packbufread.go:47-94 | n > 0 elements are read into a fresh slice of length n whose elements are well typed |
| Packbuf.DecodeElems | internal/netcode/packbuf/packbufread.go:71-89 | struct and pointer-to-struct elements are each read from a zero value, n of them |
| Packbuf.Decode | internal/netcode/packbuf/packbufread.go:18-24 | packbuf.Read only advances the cursor, within the frame, and a success is a record of the schema read |
| Packbuf.Merge | internal/netcode/packbuf/packbufread.go:29-46 | what reading into a target leaves is well typed |
| Packbuf.MergeZero | internal/netcode/packbuf/packbufread.go:54-55 | reading an encodable record into a zero value gives exactly the record |
| Packbuf.WritesIff | internal/netcode/packbuf/packbufwrite.go:21-149 | the writer succeeds on a field exactly when the field is writable |
| Packbuf.WritesIffStruct | internal/netcode/packbuf/packbufwrite.go:21-27 | writeStruct succeeds iff every remaining field is exported and writable |
| Packbuf.WritesIffElems | internal/netcode/packbuf/packbufwrite.go:40-57 | the element loop succeeds iff every element is writable (no nil pointer) |
| Packbuf.EncodableIsWritable | internal/netcode/packs/packs_test.go:18-39 | everything the round trip supports, the writer accepts |
| Packbuf.SliceCountRoundTrip | internal/netcode/packbuf/packbufwrite.go:29-33 | a slice count up to 2^31-1 survives the int32 conversion, the little-endian bytes and the read back |
| Packbuf.Uint8BytesRoundTrip | internal/netcode/packbuf/packbufread.go:57-62 | a []uint8 read back from its bytes is unchanged |
| Packbuf.RoundTripUint16s | internal/netcode/packbuf/packbufread.go:63-70 | a []uint16 read back from its bytes is unchanged, and the cursor ends right after them |
| Packbuf.RoundTripValue | internal/netcode/packbuf/packbufread.go:34-178 | reading the bytes written for a field into any target gives Merge(v, target) and consumes exactly those bytes |
| Packbuf.RoundTripSlice | internal/netcode/packbuf/packbufread.go:34-94 | the same for a slice field: count, then elements |
| Packbuf.RoundTripScalar | internal/netcode/packbuf/packbufread.go:104-175 | the same for every scalar kind both halves support |
| Packbuf.RoundTripSliceBody | internal/netcode/packbuf/packbufread.go:47-94 | the elements after a nonzero count read back to the slice written |
| Packbuf.RoundTripElems | internal/netcode/packbuf/packbufread.go:71-89 | struct or pointer elements read back, in order, to the elements written |
| Packbuf.RoundTripHead | internal/netcode/packbuf/packbufread.go:71-89 | one element reads back, and the rest then reads back if its bytes do |
| Packbuf.RoundTripElem | internal/netcode/packbuf/packbufread.go:71-89 | one struct element, or the struct behind a non-nil pointer, reads back into a zero value |
| Packbuf.EncodeElemsCons | internal/netcode/packbuf/packbufwrite.go:40-57 | the elements' encoding is the first element's followed by the rest's |
| Packbuf.DecodeElemsCons | internal/netcode/packbuf/packbufread.go:71-89 | the elements are read one after the other |
| Packbuf.RoundTripStruct | internal/netcode/packbuf/packbufread.go:26-181 | the fields of a record read back, merged into the target, in declaration order |
| Packbuf.RoundTripField | internal/netcode/packbuf/packbufread.go:26-181 | one field reads back, and the following fields then read back if their bytes do |
| Packbuf.DecodeStructCons | internal/netcode/packbuf/packbufread.go:26-181 | the fields are read one after the other |
| Packbuf.RoundTrip | internal/netcode/packs/packs_test.go:18-39 | packbuf.Read after packbuf.Write of an encodable record gives the record back, and the reader stops right after it |
| Packbuf.WriterNeedsExportedFields | internal/netcode/packbuf/packbufwrite.go:25-27 | the writer refuses any record with an unexported field |
| Packbuf.ReaderSkipsUnexportedFields | internal/netcode/packbuf/packbufread.go:29-32 | the reader skips unexported fields, which keep the target's value |
| Packbuf.UnsupportedKinds | internal/netcode/packbuf/packbufwrite.go:93-146 | pointer and unsupported scalars are errors on both sides; int16 is written but has no read case; a byte field panics on write; a string over 65535 bytes is an error exactly when too long |
| Packbuf.UnsupportedSliceElems | internal/netcode/packbuf/packbufwrite.go:47-74 | a slice of an unsupported kind, or of pointers to a non-struct, is an error on both sides (on the read side, for a nonzero count, since the reader skips a zero count before it looks at the element kind) |
| Packbuf.ScalarLayout | internal/netcode/packbuf/packbufwrite.go:84-143 | bool is one byte 1 or 0; int, int64, uint64 and float64 are 8 bytes; int32 and float32 are 4; int16 and uint16 are 2; a string is a u16 length then its bytes |
| Packbuf.BoolReadsNonzero | internal/netcode/packbuf/packbufread.go:104-113 | any nonzero byte reads as true |
| Packbuf.ZeroCountKeepsTarget | internal/netcode/packbuf/packbufread.go:35-46 | a zero count leaves the slice field as it was and consumes only the count |
| Packbuf.ZeroLengthKeepsString | internal/netcode/packbuf/packbufread.go:159-170 | a zero length leaves the string field as it was |
| Packbuf.StringSizeGuardIsDead | internal/netcode/packbuf/packbufread.go:12-16 | a u16 length is at most maxStringSize, so the reader's guard never fires |
| Packbuf.NegativeCountPanics | internal/netcode/packbuf/packbufread.go:34-55 | a negative int32 count makes MakeSlice panic |
| Packbuf.SliceTargetIndependence | internal/netcode/packbuf/packbufread.go:41-55 | a slice field's old value matters only when the count is zero |
| PackbufWrite.Buffer.constructor | internal/netcode/packbuf/packbufwrite.go:13-19 | a new buffer is empty |
| PackbufWrite.Buffer.Write | internal/netcode/packbuf/packbufwrite.go:13-19 | a write appends its bytes |
| PackbufWrite.WriteRecord | internal/netcode/packbuf/packbufwrite.go:13-19 | packbuf.Write appends exactly Encode's bytes, or reports Encode's error |
| PackbufWrite.WriteStruct | internal/netcode/packbuf/packbufwrite.go:21-149 | the field loop appends exactly the struct's encoding, or reports its error |
| PackbufWrite.WriteValue | internal/netcode/packbuf/packbufwrite.go:29-146 | one field's write appends exactly its encoding, or reports its error |
| PackbufWrite.WriteSliceBody | internal/netcode/packbuf/packbufwrite.go:34-74 | a slice's elements are appended by their element case |
| PackbufWrite.WriteElems | internal/netcode/packbuf/packbufwrite.go:40-57 | the element loop appends each element's encoding in index order, and a nil pointer panics |
| PackbufRead.Reader.constructor | internal/netcode/packbuf/packbufread.go:18-24 | a reader starts at the beginning of its frame |
| PackbufRead.Reader.ReadFull | internal/netcode/packbuf/packbufread.go:114-158 | a fixed-width read behaves as ReadFixed |
| PackbufRead.Reader.ReadAvailable | internal/netcode/packbuf/packbufread.go:57-62 | a buffer read behaves as ReadShort |
| PackbufRead.ReadRecord | internal/netcode/packbuf/packbufread.go:18-24 | packbuf.Read returns and leaves the cursor where Decode says |
| PackbufRead.ReadStruct | internal/netcode/packbuf/packbufread.go:26-181 | the field loop returns and leaves the cursor where DecodeStruct says |
| PackbufRead.ReadValue | internal/netcode/packbuf/packbufread.go:34-178 | one field's read matches DecodeValue |
| PackbufRead.ReadUnsigned | internal/netcode/packbuf/packbufread.go:120-131 | matches DecodeUnsigned |
| PackbufRead.ReadSigned | internal/netcode/packbuf/packbufread.go:132-146 | matches DecodeSigned |
| PackbufRead.ReadFloat | internal/netcode/packbuf/packbufread.go:147-158 | matches DecodeFloat |
| PackbufRead.ReadSliceBody | internal/netcode/packbuf/packbufread.go:47-94 | the element loop matches DecodeSliceBody |
| PackbufRead.ReadElems | internal/netcode/packbuf/packbufread.go:71-89 | the struct-element loop matches DecodeElems |
| Ent.Advance | internal/ent/player.go:53-123 | Update assigns only position, speeds and facing, from the physics step |
| Ent.Player.constructor | internal/ent/player.go:31-40 | &ent.Player{} has every field zero |
| Ent.Player.Init | internal/ent/player.go:48-51 | Init sets Width and Height to 96 and nothing else |
| Ent.Player.Update | internal/ent/player.go:53-123 | the player's new state is Advance of the old |
| Ent.Player.Assign | internal/netcode/packbuf/packbufread.go:71-89 | a player filled by the reader holds exactly the body read |
| Ent.InputValue | internal/ent/player.go:42-46 | PlayerInput's three bools form an encodable record |
| Ent.InputValueRoundTrip | internal/ent/player.go:42-46 | inputs and their codec values are in one-to-one correspondence |
| Ent.BodyValue | internal/ent/player.go:31-40 | every Player is an encodable record |
| Ent.PlayerValueKinded | internal/ent/player.go:31-40 | a record of Player's field kinds is a well-typed, encodable Player |
| Ent.PlayerShape | internal/ent/player.go:31-40 | a well-typed Player record has a u16, an input record, six float32s and a bool |
| Ent.BodyValueRoundTrip | internal/world/world.go:27-40 | players and their codec values are in one-to-one correspondence |
| Ent.BodyOfValue | internal/world/world.go:27-40 | reading back a player's value gives the player |
| Ent.ValueOfBody | internal/world/world.go:27-40 | a well-typed Player value is the value of the player read from it |
| Packs.StandardTableSpec | internal/netcode/packs/packs.go:15-20 | the tags are 1, 2 and 3, distinct, 0 is unregistered, and the table maps each tag back to its type |
| Packs.Registry.constructor | internal/netcode/packs/packs.go:85-87 | the table starts empty, and the three init functions (lines 32, 50 and 81) leave exactly the standard table |
| Packs.Registry.Register | internal/netcode/packs/packs.go:101-107 | register panics iff the tag is taken, and otherwise adds exactly that entry |
| Packs.Schema | internal/netcode/packs/packs.go:22-83 | every packet type is a record |
| Packs.FrameInputValue | internal/netcode/packs/packs.go:45-48 | a ClientFrameInput is an encodable record |
| Packs.FrameInputShape | internal/netcode/packs/packs.go:45-48 | a well-typed ClientFrameInput record is a u16 and an input record |
| Packs.FrameInputRoundTrip | internal/netcode/packs/packs.go:45-48 | frame inputs and their values are in one-to-one correspondence |
| Packs.PlayerStateValue | internal/netcode/packs/packs.go:70-75 | a PlayerState is an encodable record |
| Packs.PlayerStateKinded | internal/netcode/packs/packs.go:70-75 | a record of PlayerState's field kinds is well typed and encodable |
| Packs.PlayerStateShape | internal/netcode/packs/packs.go:70-75 | a well-typed PlayerState record is a u16, four float32s and a bool |
| Packs.PlayerStateRoundTrip | internal/netcode/packs/packs.go:70-75 | player states and their values are in one-to-one correspondence |
| Packs.UintValues | internal/netcode/packs/packs.go:24-26 | a list of sequence numbers as u16 values, one for one |
| Packs.UintsOf | internal/netcode/packs/packs.go:24-26 | the sequence numbers a list of u16 values holds, one for one |
| Packs.UintsShape | internal/netcode/packs/packs.go:24-26 | a well-typed u16 value is below 65536 |
| Packs.FrameInputValues | internal/netcode/packs/packs.go:37-39 | an input batch as values, one for one |
| Packs.FrameInputsOf | internal/netcode/packs/packs.go:37-39 | the batch a list of values holds, one for one |
| Packs.PlayerStateValues | internal/netcode/packs/packs.go:55-62 | a world state's players as values, one for one |
| Packs.PlayerStatesOf | internal/netcode/packs/packs.go:55-62 | the players a list of values holds, one for one |
| Packs.PacketValue | internal/netcode/packs/packs.go:22-83 | a packet is a well-typed value of its type's schema |
| Packs.PacketOf | internal/netcode/packs/packs.go:124 | the packet a value of type t stands for has type t |
| Packs.AckShaped | internal/netcode/packs/packs.go:24-26 | a record holding a list of u16 values is an Ack value |
| Packs.AckShape | internal/netcode/packs/packs.go:24-26 | an Ack value holds one list of u16 values |
| Packs.ClientPlayerShaped | internal/netcode/packs/packs.go:37-39 | a record holding a list of frame inputs is a ClientPlayer value |
| Packs.ClientPlayerShape | internal/netcode/packs/packs.go:37-39 | a ClientPlayer value holds one list of frame inputs |
| Packs.WorldStateShaped | internal/netcode/packs/packs.go:55-62 | two u16s and a list of player states make a WorldState value |
| Packs.WorldStateShape | internal/netcode/packs/packs.go:55-62 | a WorldState value holds two u16s and a list of player states |
| Packs.PacketValueRoundTrip | internal/netcode/packs/packs_test.go:34 | packets and their values are in one-to-one correspondence |
| Packs.PacketOfValue | internal/netcode/packs/packs_test.go:34 | reading a packet's value back gives the packet |
| Packs.AckValueOf | internal/netcode/packs/packs.go:24-26 | a well-typed Ack value is the value of the packet it stands for |
| Packs.ClientPlayerValueOf | internal/netcode/packs/packs.go:37-39 | the same for ClientPlayer |
| Packs.WorldStateValueOf | internal/netcode/packs/packs.go:55-62 | the same for WorldState |
| Packs.PacketEncodable | internal/netcode/packs/packs.go:138-140 | every packet can be written, and one whose lists fit an int32 count can be read back |
| Packs.AckEncodable | internal/netcode/packs/packs.go:24-26 | the same for an Ack packet |
| Packs.ClientPlayerEncodable | internal/netcode/packs/packs.go:37-39 | the same for a ClientPlayer packet |
| Packs.WorldStateEncodable | internal/netcode/packs/packs.go:55-62 | the same for a WorldState packet |
| Packs.HeaderSliceEncodable | internal/netcode/packs/packs.go:55-62 | two u16 fields and a writable list form a writable record, encodable when the list is |
| Packs.SliceEncodable | internal/netcode/packs/packs.go:55-62 | a list of encodable records is writable, and encodable while its count fits an int32 |
| Packs.EncodePacket | internal/netcode/packs/packs.go:131-142 | Write emits the tag byte, the sequence number as a little-endian u16, then the packet record |
| Packs.ParsePacket | internal/netcode/packs/packs.go:109-129 | Read advances the cursor, and a success has a registered tag and a packet of the tag's type |
| Packs.ParseAtEnd | internal/netcode/packs/packs.go:110-113 | Read on an exhausted stream returns EOF and consumes nothing |
| Packs.ParseUnknownTag | internal/netcode/packs/packs.go:114-119 | an unregistered tag is InvalidPacketID after consuming only the tag byte |
| Packs.PacketRoundTrip | internal/netcode/packs/packs_test.go:18-39 | Read after Write returns the packet and its sequence number, with the cursor just past them |
| Packs.ParseWellFormed | internal/netcode/packs/packs.go:109-129 | a registered tag followed by a decodable record reads as that packet with the sequence number between them |
| Packs.TwoPacketsRoundTrip | internal/netcode/packs/packs_test.go:43-81 | two writes through one tracker, then two reads: both packets come back in order with consecutive sequence numbers, then EOF |
| Packs.PacketsInOrder | internal/netcode/packs/packs_test.go:43-81 | two envelopes back to back read as the two packets, then EOF |
| Packs.PacketAt | internal/netcode/packs/packs_test.go:18-39 | the round trip with the end position named |
| Packs.Write | internal/netcode/packs/packs.go:131-142 | Write appends exactly the envelope stamped with the tracker's old counter, advances the tracker by Next, and never fails |
| Packs.WriteBody | internal/netcode/packs/packs.go:138-140 | the packet record always writes |
| Packs.Read | internal/netcode/packs/packs.go:109-129 | Read returns and leaves the cursor where ParsePacket says |
| World.SnapshotKindShape | internal/world/world.go:15-19 | a snapshot is one record holding one list of player pointers |
| World.SnapshotValue | internal/world/world.go:15-19 | a player list is a nil-free snapshot with one element per player |
| World.BodiesOf | internal/world/world.go:15-19 | the players a snapshot lists, one for one |
| World.SnapshotBodiesRoundTrip | internal/world/world.go:27-40 | player lists and nil-free snapshots are in one-to-one correspondence |
| World.SnapshotWritable | internal/world/world.go:34-40 | every snapshot can be written, so Snapshot never panics |
| World.SnapshotValueInjective | internal/world/world.go:34-40 | different player lists have different snapshots |
| World.SnapshotTarget | internal/world/world.go:27-32 | reading a snapshot into a world keeps its players when the list on the wire is empty and replaces them otherwise |
| World.SnapshotUnfold | internal/world/world.go:27-32 | reading a snapshot is reading its one field |
| World.SyncAfterSnapshot | internal/world/world.go:27-40 | SyncWorldToSnapshot after Snapshot restores every player in order, except that an empty list leaves the target's list |
| World.Views | internal/world/world.go:21-25 | the players' states, in list order |
| World.FreshPlayers | internal/netcode/packbuf/packbufread.go:78-89 | the reader allocates one new, distinct player per element |
| World.World.constructor | internal/world/world.go:21-25 | an empty world |
| World.World.CreatePlayer | internal/world/world.go:42-51 | appends exactly one new player at (180, 180), 96 by 96, and returns it |
| World.World.RemovePlayer | internal/world/world.go:53-63 | drops the first occurrence of the player and keeps the others in order; an absent player changes nothing |
| World.World.Update | internal/world/world.go:65-70 | every player takes exactly one physics step |
| World.World.Snapshot | internal/world/world.go:34-40 | the codec encoding of the player list, which never fails |
| World.World.Sync | internal/world/world.go:27-32 | a read error panics; an empty list keeps the players; any other list is replaced by new players holding the bodies read |
| World.DecodedSnapshotHasPlayers | internal/netcode/packbuf/packbufread.go:78-89 | every element read into a snapshot list is a player, never nil |
| Client.NextFrame | internal/netcode/client/client.go:77-81 | the frame counter increments with 16-bit wrap-around and never takes the value 0 |
| Client.PushInput | internal/netcode/client/client.go:85-105 | the new frame goes last, the history never exceeds 60 entries, and the oldest entry is dropped when it is full |
| Client.Handle | internal/netcode/client/client.go:124-147 | every packet but an Ack is acknowledged; Ack entries go to the tracker; a newer world state with nonzero MyNetID is kept; a client packet panics |
| Client.HandleFrame | internal/netcode/client/client.go:116-149 | reading a frame only grows the ack list, keeps the tracker's counter and ring, and keeps a world state only if its MyNetID is nonzero |
| Client.HandleFrames | internal/netcode/client/client.go:107-150 | the same over every frame received in a tick |
| Client.ReadBack | internal/netcode/client/client.go:116-149 | the client's read loop over a frame of at most two packets handles them in order |
| Client.HandleFrameStep | internal/netcode/client/client.go:116-149 | one turn of the client's read loop |
| Client.Overwrite | internal/netcode/client/client.go:164-168 | X, Y, Hspeed, Vspeed and DirLeft are copied; NetID, inputs and size are kept |
| Client.Spawned | internal/netcode/client/client.go:171-178 | a spawned player has the state's NetID and fields, and a new player's size and zero input |
| Client.ApplyState | internal/netcode/client/client.go:158-180 | every entity with the NetID takes the state's fields; when none has it, exactly one player is appended |
| Client.ApplyStates | internal/netcode/client/client.go:158-180 | the entities already there stay in place with their NetIDs and inputs, and at most one player per state is appended, each with a NetID of the world state |
| Client.ApplyStateEstablishes | internal/netcode/client/client.go:158-180 | afterwards some entity has the NetID, and all entities with it carry the state |
| Client.ApplyStateIdempotent | internal/netcode/client/client.go:158-180 | applying a state twice is applying it once |
| Client.ApplyStateFrames | internal/netcode/client/client.go:158-180 | entities of other NetIDs are untouched and no NetID disappears |
| Client.ApplyStatesEstablishes | internal/netcode/client/client.go:158-180 | with distinct NetIDs, every player of the world state is present and carries its state after the snap |
| Client.ApplyStatesPreserves | internal/netcode/client/client.go:158-180 | later states of other NetIDs leave an earlier state's entities as they are |
| Client.ReplayFrom | internal/netcode/client/client.go:184-196 | the replayed inputs are the history suffix from its first frame after LastSimulatedInputFrame, and empty when there is none |
| Client.ReplayKeepsIdentity | internal/netcode/client/client.go:199-203 | replay keeps the player's NetID and size, and leaves the last replayed input held |
| Client.ReplayConcat | internal/netcode/client/client.go:200-203 | replaying two runs is replaying them joined |
| Client.Replayed | internal/netcode/client/client.go:197-206 | after the replay the player holds its live input again, and nothing happens when no input is unprocessed |
| Client.Batch | internal/netcode/client/client.go:219-223 | the batch is the last min(len, 10) history entries |
| Client.Outgoing | internal/netcode/client/client.go:211-229 | a send starts with the ack packet's tag when there are acks, else the input packet's, stamped with the tracker's sequence number |
| Client.OutgoingParses | internal/netcode/client/client.go:211-229 | the server reads a client send as the ack packet (when any) with the first sequence number, then the batch with the next, then EOF |
| Client.SetState | internal/netcode/client/client.go:164-168 | the entity becomes Overwrite of its old state |
| Client.ApplyOne | internal/netcode/client/client.go:159-179 | the entity loop leaves exactly ApplyState of the world's players, appending only new players |
| Client.ApplyWorldState | internal/netcode/client/client.go:158-180 | the state loop leaves exactly ApplyStates of the world's players |
| Client.ReplayUnprocessed | internal/netcode/client/client.go:183-207 | the scan and replay loops leave the player as Replayed from ReplayFrom |
| Client.ShiftIn | internal/netcode/client/client.go:95-101 | moving every entry down one slot and overwriting the last gives buf[1..] + [f] |
| Client.Renamed | internal/netcode/client/client.go:155-157 | the local player's body takes MyNetID and every other body is kept |
| Client.Snap | internal/netcode/client/client.go:154-207 | SnappedFrom the scene before: the local player takes MyNetID, every state is applied over the renamed bodies, the local player replays the inputs after LastSimulatedInputFrame, and every other player ends as the states left it |
| Client.SnapTo | internal/netcode/client/client.go:152-207 | with a kept world state the scene is SnappedFrom the old one; with none, the player list and every body stay as they were |
| Client.Controller.constructor | internal/netcode/client/client.go:31-44 | a new controller is the zero-valued struct |
| Client.Controller.RecordInput | internal/netcode/client/client.go:91-104 | the history becomes PushInput of the old one and nothing else changes |
| Client.Controller.AckEach | internal/netcode/client/client.go:129-132 | the loop leaves the tracker at AckAll of the list |
| Client.Controller.Take | internal/netcode/client/client.go:124-145 | handling one packet matches Handle |
| Client.Controller.ReceiveFrame | internal/netcode/client/client.go:116-149 | the inner read loop matches HandleFrame, and panics exactly where HandleFrame fails |
| Client.Controller.Receive | internal/netcode/client/client.go:107-150 | the outer read loop matches HandleFrames |
| Client.Controller.Flush | internal/netcode/client/client.go:211-229 | the send is Outgoing of the acks and history, the ack list is cleared, and the tracker advances once per packet written |
| Client.Controller.FlushAcks | internal/netcode/client/client.go:213-218 | the ack packet is written only when the list is non-empty, and the list is then cleared |
| Client.Controller.Tick | internal/netcode/client/client.go:77-244 | a connected tick advances the frame counter and records the input; it panics exactly when HandleFrames fails; otherwise it sends Outgoing of the acks read, leaves the tracker one or two NextStates after the read (one per packet sent), and leaves the scene SnappedFrom the one it started with to the kept world state |
| Client.Controller.Stamp | internal/netcode/client/client.go:77-105 | the frame counter becomes NextFrame and the input is recorded under it |
| Client.Controller.SnapAndFlush | internal/netcode/client/client.go:152-244 | the scene is SnappedFrom the old one to best (every body kept when there is none), the bytes are Outgoing, and the tracker advances once per packet written |
| Client.Controller.Send | internal/netcode/client/client.go:209-244 | Flush's bytes and tracker state, with the player list and every body untouched |
| Client.Controller.BeforeUpdate | internal/netcode/client/client.go:59-247 | a transport error panics and a tick before connecting changes nothing but hasStarted (tracker and bodies included); a connected tick is ConnectedTick |
| Client.Controller.ConnectedTick | internal/netcode/client/client.go:71-244 | the first connected tick creates the local player as the last entry; the tick then has Tick's outcome, bytes and tracker state, and the scene is SnappedFrom the one after that creation |
| Client.Controller.Join | internal/netcode/client/client.go:71-75 | a fresh player at (180, 180), 96 by 96, is appended and becomes MyPlayer; nothing else in the scene changes |
| Server.SlotId | internal/netcode/server/server.go:64-70 | slot i gets ID i+1 for the first 65535 slots, and the ID is 0 exactly at slot 65535 modulo 65536 |
| Server.SlotIdSpec | internal/netcode/server/server.go:64-70 | the first 65536 slots have pairwise distinct IDs |
| Server.Take | internal/netcode/server/server.go:143-175 | every packet but an Ack is acknowledged; Ack entries go to the tracker; a batch over 10 closes; a non-empty batch replaces the stored inputs only if its last frame is after theirs, or nothing is stored |
| Server.IngestFrom | internal/netcode/server/server.go:134-176 | the inner read loop, going on with the queued frames at EOF: reading only grows the acks, keeps the tracker's counter and ring, keeps inputs within the cap and never empties them |
| Server.IngestFrames | internal/netcode/server/server.go:126-177 | the same over every frame of a tick |
| Server.IngestFrame | internal/netcode/server/server.go:134-176 | the same over one frame |
| Server.IngestFromSplit | internal/netcode/server/server.go:134-176 | reading on past the end of a frame is reading that frame alone, then the frames after it |
| Server.IngestFramesStep | internal/netcode/server/server.go:126-177 | the outer loop reads the first frame and goes on with the rest only when that frame ended at EOF |
| Server.ClientSendIngested | internal/netcode/server/server.go:134-171 | one client send, read by the server, is acknowledged (input packet only), its acks reach the tracker, and its batch is stored when accepted |
| Server.SelectInput | internal/netcode/server/server.go:223-244 | the first stored frame after LastInputFrameSimulated is selected; a frame 0 closes the connection and ends the scan |
| Server.SelectedFrameNonzero | internal/netcode/server/server.go:265-270 | the selected frame is never 0 |
| Server.Advanced | internal/netcode/server/server.go:265-274 | a selected frame shifts Last := Next and Next := the frame; otherwise both stay |
| Server.StateOf | internal/netcode/server/server.go:303-310 | the PlayerState carries the player's NetID and fields |
| Server.StatesOf | internal/netcode/server/server.go:301-311 | one state per world player, in order |
| Server.Broadcast | internal/netcode/server/server.go:291-321 | nothing is sent when there are neither acks nor a player; otherwise the message starts with the ack packet when there are acks, else the world state, stamped with the tracker's sequence number |
| Server.BroadcastReceived | internal/netcode/server/server.go:291-321 | a broadcast, read by the client, reaches its tracker (acks), is acknowledged (world state) and its world state is kept when newer |
| Server.GameConnection.constructor | internal/netcode/server/server.go:64-69 | a new game connection is zeroed with its ID |
| Server.GameConnection.Reset | internal/netcode/server/server.go:106-110 | the slot is reset to zero values, keeping its ID |
| Server.Zeroed | internal/netcode/server/server.go:47-61 | a zeroed game connection has its ID, no player, is unused and has a fresh tracker |
| Server.AdmitView | internal/netcode/server/server.go:100-123 | a disconnected used slot is reset to its zero value and freed; a connected free slot gets the new player at the spawn point with the slot's ID as NetID and becomes used; slot ID 0 panics; afterwards a slot is used exactly when connected |
| Server.EditOf | internal/netcode/server/server.go:115-123 | a reclaimed slot's player leaves the world and a newly connected slot's new player joins it |
| Server.Apply | internal/netcode/server/server.go:115-123 | the edit keeps, appends or removes the first occurrence of the player |
| Server.Edits | internal/netcode/server/server.go:100-123 | the edit of each slot, in slot order |
| Server.DrainView | internal/netcode/server/server.go:125-177 | a connected slot's queue is read through IngestFrames: the game connection changes only in its inbox, which keeps what IngestFrames keeps; an oversized batch closes the transport and otherwise the queue is emptied |
| Server.RosterStep | internal/netcode/server/server.go:115-123 | adding slot i's edit to the earlier slots' edits applies that edit to the player list |
| Server.ServedStep | internal/netcode/server/server.go:100-178 | serving one more slot without a panic extends the served prefix by one |
| Server.SelectAll | internal/netcode/server/server.go:181-278 | the second pass is SelectView on every slot |
| Server.BroadcastAll | internal/netcode/server/server.go:282-339 | the third pass is BroadcastView on every slot, with each slot's own send outcome |
| Server.SelectedStep | internal/netcode/server/server.go:181-278 | selecting one more slot extends the selected prefix by one |
| Server.SelectedAll | internal/netcode/server/server.go:181-278 | a fully selected list is SelectAll of the start |
| Server.BroadcastStep | internal/netcode/server/server.go:282-339 | broadcasting to one more slot extends the broadcast prefix by one |
| Server.BroadcastedAll | internal/netcode/server/server.go:282-339 | a fully broadcast list is BroadcastAll of the start |
| Server.PassesCompose | internal/netcode/server/server.go:100-339 | the three passes compose into SlotTick slot by slot, and the later passes keep every player, so the tick's roster edits are the first pass's |
| Server.ServeView | internal/netcode/server/server.go:100-177 | the first pass on one slot panics exactly when the slot Crashes; otherwise the slot is used exactly when its transport was connected, stays consistent, and its transport can only have closed |
| Server.SelectView | internal/netcode/server/server.go:181-278 | for a connected used slot with a player, the first stored frame after the last simulated one becomes the player's input and shifts Last and Next (the new Next is nonzero and after the old Last); otherwise the input is zeroed; a frame 0 closes the transport; any other slot is unchanged |
| Server.BroadcastView | internal/netcode/server/server.go:282-338 | a connected used slot is sent one Broadcast message and its acks are cleared, or on a failed send is closed; the player and inputs are kept; any other slot is unchanged |
| Server.SlotTick | internal/netcode/server/server.go:100-339 | one slot through the three passes: unless it panics, the slot is used exactly when it was connected at the start, and a connection still open at the end was sent exactly one message |
| Server.Admit | internal/netcode/server/server.go:100-123 | the slot becomes AdmitView of its old state with the player it now holds, and the world's player list takes that slot's edit; a new player is fresh |
| Server.IngestOne | internal/netcode/server/server.go:134-176 | the inner read loop matches IngestFrame |
| Server.Take1 | internal/netcode/server/server.go:143-175 | handling one packet matches Take, and an oversized batch closes the connection |
| Server.AckEach | internal/netcode/server/server.go:148-151 | the loop leaves the tracker at AckAll of the list |
| Server.Ingest | internal/netcode/server/server.go:125-177 | the outer read loop leaves the inbox at IngestFrames, crashes exactly on a decoder panic, closes the transport on an oversized batch and otherwise empties the queue |
| Server.Select | internal/netcode/server/server.go:181-278 | the slot becomes SelectView of its old state |
| Server.Scan | internal/netcode/server/server.go:223-244 | the scan loop returns SelectInput's choice and closes the connection when it meets frame 0 |
| Server.StateList | internal/netcode/server/server.go:301-311 | the loop builds StatesOf the world's players |
| Server.Payload | internal/netcode/server/server.go:291-321 | the message is the ack packet (if any) then the world state, numbered from the tracker; acks are cleared |
| Server.WriteState | internal/netcode/server/server.go:300-321 | the world state is written when the slot has a player, with its NetID and LastInputFrameSimulated |
| Server.Stamped | internal/netcode/rtt/rtt.go:50-52 | a written packet advances the sequence counter by one |
| Server.WriteAcks | internal/netcode/server/server.go:292-299 | the ack packet is written only for a non-empty list, which is then cleared |
| Server.BroadcastTo | internal/netcode/server/server.go:282-338 | the slot becomes BroadcastView of its old state with the world's states |
| Server.Deliver | internal/netcode/server/server.go:291-338 | for a connected used slot, the slot becomes BroadcastView of its old state: the message is sent or the connection is closed |
| Server.SendOrClose | internal/netcode/server/server.go:334-337 | a send on a connected slot records the message, or on failure closes the connection |
| Server.Controller.constructor | internal/netcode/server/server.go:26-33 | a new controller has not started |
| Server.Controller.Init | internal/netcode/server/server.go:63-76 | one zeroed game connection per transport slot, slot i with ID i+1 |
| Server.Controller.Admission | internal/netcode/server/server.go:100-178 | the first pass panics exactly when some slot Crashes; otherwise every slot is ServeView of where it started, the player list took every slot's edit in slot order, and every player is old or fresh |
| Server.Controller.ServeNext | internal/netcode/server/server.go:100-178 | one round of the first pass: it panics exactly when this slot Crashes, and otherwise the served prefix and the player list's edits grow by this slot |
| Server.Controller.Kept | internal/netcode/server/server.go:100-339 | a step on one slot that keeps the others changes the slot list only at that slot |
| Server.Controller.ServeSlot | internal/netcode/server/server.go:100-177 | the slot becomes ServeView of its old state, panicking exactly when it Crashes; the player list takes its edit; other slots are untouched |
| Server.Controller.AdmitSlot | internal/netcode/server/server.go:100-123 | the slot becomes AdmitView of its old state and the player list takes its edit; other slots are untouched |
| Server.Controller.DrainSlot | internal/netcode/server/server.go:125-177 | the slot becomes DrainView of its old state, crashing exactly on a decoder panic; its player and other slots are untouched |
| Server.Controller.Selection | internal/netcode/server/server.go:181-278 | the second pass leaves the slots at SelectAll of where they were, with the same players |
| Server.Controller.SelectNext | internal/netcode/server/server.go:181-278 | one round of the second pass extends the selected prefix by this slot and keeps every player |
| Server.Controller.SelectSlot | internal/netcode/server/server.go:181-278 | the slot becomes SelectView of its old state; its player and other slots are untouched |
| Server.Controller.Broadcasting | internal/netcode/server/server.go:282-339 | the third pass leaves the slots at BroadcastAll of where they were, with the world's states; players and the world are unchanged |
| Server.Controller.BroadcastNext | internal/netcode/server/server.go:282-339 | one round of the third pass extends the broadcast prefix by this slot and keeps every player and the world |
| Server.Controller.BroadcastSlot | internal/netcode/server/server.go:282-338 | the slot becomes BroadcastView of its old state; its player, the world and other slots are untouched |
| Server.Controller.Passes | internal/netcode/server/server.go:181-339 | the second and third passes leave the slots at BroadcastAll of SelectAll of where they were, with the world's states, and change no player and not the world |
| Server.Controller.BeforeUpdate | internal/netcode/server/server.go:82-340 | one server tick from the slots as they started (zeroed on the first call): it panics exactly when some slot Crashes; otherwise every slot is SlotTick of its start and the player list lost the reclaimed players and gained the admitted ones in slot order |
| Server.Controller.PlayersGrew | internal/netcode/server/server.go:115-123 | when only one slot's player changed, to an old or a fresh one, every player is old or fresh |
| Server.Controller.PlayersKept | internal/netcode/server/server.go:181-339 | when no slot's player changed, the set of players is unchanged |
| Server.Controller.Tick | internal/netcode/server/server.go:100-340 | the three passes from the slots as they were: the same outcome as BeforeUpdate |
| WebrtcServer.Defaulted | internal/netdriver/webrtcdriver/webrtcserver/webrtcserver.go:148-154 | a zero port becomes 50000 and a zero connection count 256; nonzero values are kept |
| WebrtcServer.New | internal/netdriver/webrtcdriver/webrtcserver/webrtcserver.go:148-167 | New panics on an empty PublicIP and on a negative MaxConnections, and otherwise allocates exactly MaxConnections free slots |
| WebrtcServer.CheckDataChannel | internal/netdriver/webrtcdriver/webrtcserver/webrtcserver.go:404-419 | a channel is valid iff unordered, maxRetransmits present and 0, and maxPacketLifeTime absent; the errors are checked in that order |
| WebrtcServer.Disconnected | internal/netdriver/webrtcdriver/webrtcserver/webrtcserver.go:121-136 | disconnecting clears the handles and queue and isConnected, and keeps isUsed |
| WebrtcServer.DisconnectedIdempotent | internal/netdriver/webrtcdriver/webrtcserver/webrtcserver.go:121-136 | disconnecting twice is disconnecting once |
| WebrtcServer.Connection.constructor | internal/netdriver/webrtcdriver/webrtcserver/webrtcserver.go:163-166 | a new slot is free |
| WebrtcServer.Connection.IsConnected | internal/netdriver/webrtcdriver/webrtcserver/webrtcserver.go:62-66 | returns isConnected |
| WebrtcServer.Connection.Read | internal/netdriver/webrtcdriver/webrtcserver/webrtcserver.go:68-78 | takes the oldest queued frame; with none queued returns (nil, false) and changes nothing |
| WebrtcServer.Connection.Send | internal/netdriver/webrtcdriver/webrtcserver/webrtcserver.go:80-93 | with no data channel returns ErrClosedPipe; otherwise records the message or reports the channel's failure |
| WebrtcServer.Connection.CloseButDontFree | internal/netdriver/webrtcdriver/webrtcserver/webrtcserver.go:111-136 | the slot becomes Disconnected, still used |
| WebrtcServer.Connection.Free | internal/netdriver/webrtcdriver/webrtcserver/webrtcserver.go:138-146 | panics iff still connected; otherwise clears only isUsed |
| WebrtcServer.Connection.Release | internal/netdriver/webrtcdriver/webrtcserver/webrtcserver.go:348-351 | disconnects the slot and releases it |
| WebrtcServer.Connection.OnDataChannel | internal/netdriver/webrtcdriver/webrtcserver/webrtcserver.go:360-402 | an invalid channel disconnects and releases the slot; a second valid channel changes nothing; the first connects it with an empty queue |
| WebrtcServer.Connection.OnDataChannelClose | internal/netdriver/webrtcdriver/webrtcserver/webrtcserver.go:421-425 | the slot becomes Disconnected |
| WebrtcServer.Connection.OnMessage | internal/netdriver/webrtcdriver/webrtcserver/webrtcserver.go:427-429 | a message joins the end of an open queue |
| WebrtcServer.Slots | internal/netdriver/webrtcdriver/webrtcserver/webrtcserver.go:58-60 | the state of every slot, in order |
| WebrtcServer.FirstFree | internal/netdriver/webrtcdriver/webrtcserver/webrtcserver.go:318-332 | the first slot with isUsed false, or none iff every slot is used |
| WebrtcServer.FirstFreeAt | internal/netdriver/webrtcdriver/webrtcserver/webrtcserver.go:318-332 | an unused slot preceded only by used ones is the one found |
| WebrtcServer.Server.constructor | internal/netdriver/webrtcdriver/webrtcserver/webrtcserver.go:159-167 | n fresh free slots |
| WebrtcServer.Server.Acquire | internal/netdriver/webrtcdriver/webrtcserver/webrtcserver.go:318-340 | the scan binds FirstFree's slot to the peer, or finds none ("server is full"); no other slot changes |
| WebrtcServer.Server.Bind | internal/netdriver/webrtcdriver/webrtcserver/webrtcserver.go:326-327 | marks one slot used with the peer; no other slot changes |

## Left out

- Rtt.Smooth: the source computes latency + 0.10 * (sample - latency) in
  float64 and converts it back to a Duration, truncating toward zero. The
  model truncates the exact value (9 * latency + sample) / 10 instead. The
  rounding of the float64 operations is not modelled.
- Rtt.RoundTripTracking.Next and Rtt.RoundTripTracking.Ack: `time.Now` and
  `time.Since` read the wall clock; here the instant is the parameter `now`.
  One `now` serves every Next and Ack of a tick (Client.Controller.Tick,
  Flush, AckEach and the server's passes), while the source reads the clock
  afresh at each call.
- Ent.Player.Update: the physics (gravity, speeds, ground) is float32
  arithmetic; it is a deterministic step given as a parameter.
- Float fields travel as opaque bit patterns. No float arithmetic is modelled. The reader stores a float32 through a float64 conversion, which may quiet a signalling NaN, so such a pattern need not come back bit for bit; the model round-trips every pattern exactly.
- Go pointer identity is Dafny object identity. Aliasing between the world's
  players and the snapshot target is not modelled beyond that.
- WebRTC, HTTP, SDP negotiation and STUN (`handleSDP` apart from its slot
  scan, `Start`, the STUN server and the WebRTC client) are network I/O over
  foreign libraries. The peer connection and data channel are opaque handles.
- Mutexes, atomics, goroutines and channels: the slot pool runs one operation
  to completion before the next. The packet channel is a sequence.
- Client.Controller.BeforeUpdate: `client.Start()` and the transport's
  `GetLastError`, `IsConnected`, `Read` and `Send` are parameters and results.
  A failed `Send` (which panics) is not modelled.
- Logging, the packet-size warning over 1000 bytes and the debug printing are
  left out. They change no state.
- `netconst.MaxClientInputBuffer` (30) is declared but never used; the client
  keeps 60 inputs under a local constant.
- The commented-out world-snapshot history in the server tick is not code.
- `HasStartedOrConnected` and `IsListening` only report the transport's state.
- Partial writes: the writer's `io.Writer` is a byte buffer, whose writes
  always succeed.
- The reflection-based `DeepEqual` helper of the packet tests is replaced by
  Dafny equality.
- Rendering, input polling, the app loop and asset loading are not part of
  this model.
