/**
 * The handshake packet of the network protocol (src/_handshake.rs): the
 * reader and writer that the `def_enum!` and `packets!` macros generate for
 * `HandshakeState` and `Handshake`. The codecs of the primitive field types
 * (VarInt, String, u16) are not part of this model: they are parameters, and
 * the round-trip property is stated about any codecs that round-trip.
 */
module Handshake {
  import opened Wrappers
  import opened Integers

  type Byte = U8

  /** What went wrong first. */
  datatype Cause =
    | CodecFailure(detail: string)
    | NoDiscriminantMatched(enumName: string, value: int)

  /** An error with its chain of context messages, outermost first. */
  datatype Error = Error(cause: Cause, context: seq<string>)

  /** Wraps an error in one more context message, as `anyhow::Context::context` does. */
  function WithContext(e: Error, message: string): (r: Error)
    ensures r.cause == e.cause && r.context == [message] + e.context
  {
    Error(e.cause, [message] + e.context)
  }

  /** A value read from a buffer and the cursor position just after it. */
  datatype Decoded<T> = Decoded(value: T, pos: nat)

  /**
   * A field codec: `read` reads one value at a cursor position of the whole
   * buffer; `write` gives the bytes the value appends to a buffer.
   */
  datatype Codec<!T> = Codec(
    read: (seq<Byte>, nat) -> Result<Decoded<T>, Error>,
    write: T -> Result<seq<Byte>, Error>)

  /**
   * A codec round-trips when whatever it writes for a value reads back as that
   * value at the position where the bytes start, leaving the cursor just after
   * them, whatever precedes or follows them in the buffer.
   */
  ghost predicate RoundTrips<T(!new)>(c: Codec<T>)
  {
    forall v: T, before: seq<Byte>, after: seq<Byte> ::
      c.write(v).Success? ==>
        c.read(before + c.write(v).value + after, |before|)
          == Success(Decoded(v, |before| + |c.write(v).value|))
  }

  /** The codecs of the primitive types a handshake is built from. */
  datatype FieldCodecs = FieldCodecs(varInt: Codec<int>, str: Codec<string>, u16: Codec<U16>)

  ghost predicate Sound(c: FieldCodecs)
  {
    RoundTrips(c.varInt) && RoundTrips(c.str) && RoundTrips(c.u16)
  }

  /** `HandshakeState`, carried on the wire as a VarInt discriminant. */
  datatype HandshakeState = Status | Login

  const HANDSHAKE_STATE_NAME: string := "HandshakeState"
  const DISCRIMINANT_CONTEXT: string := "failed to read discriminant for enum type HandshakeState"

  /** The discriminants: 1 for Status, 2 for Login. */
  function Discriminant(s: HandshakeState): (d: int)
    ensures d == 1 <==> s == Status
    ensures d == 2 <==> s == Login
  {
    match s
    case Status => 1
    case Login => 2
  }

  /**
   * Reads a `HandshakeState`: the discriminant, then the variant it names.
   * A failed discriminant read is wrapped in a context message; a value that
   * names no variant is an error of its own.
   */
  function DecodeState(c: Codec<int>, data: seq<Byte>, pos: nat): (r: Result<Decoded<HandshakeState>, Error>)
    ensures c.read(data, pos).Failure? ==>
      r == Failure(WithContext(c.read(data, pos).error, DISCRIMINANT_CONTEXT))
    ensures c.read(data, pos).Success? ==>
      var d := c.read(data, pos).value;
      (r.Success? <==> d.value == 1 || d.value == 2) &&
      (r.Success? ==> Discriminant(r.value.value) == d.value && r.value.pos == d.pos)
  {
    match c.read(data, pos)
    case Failure(e) => Failure(WithContext(e, DISCRIMINANT_CONTEXT))
    case Success(d) =>
      if d.value == 1 then Success(Decoded(Status, d.pos))
      else if d.value == 2 then Success(Decoded(Login, d.pos))
      else Failure(Error(NoDiscriminantMatched(HANDSHAKE_STATE_NAME, d.value), []))
  }

  /** Writing a `HandshakeState` writes its discriminant; a failure propagates as it is. */
  function EncodeState(c: Codec<int>, s: HandshakeState): Result<seq<Byte>, Error>
  {
    c.write(Discriminant(s))
  }

  /** Any discriminant other than 1 and 2 is rejected with the value that was read. */
  lemma UnknownDiscriminantRejected(c: Codec<int>, data: seq<Byte>, pos: nat)
    requires c.read(data, pos).Success?
    requires c.read(data, pos).value.value !in {1, 2}
    ensures DecodeState(c, data, pos)
      == Failure(Error(NoDiscriminantMatched(HANDSHAKE_STATE_NAME, c.read(data, pos).value.value), []))
  {
  }

  /** What is written for a state reads back as that state, just after its bytes. */
  lemma StateRoundTrip(c: Codec<int>, s: HandshakeState, before: seq<Byte>, after: seq<Byte>)
    requires RoundTrips(c)
    requires EncodeState(c, s).Success?
    ensures var bytes := EncodeState(c, s).value;
      DecodeState(c, before + bytes + after, |before|) == Success(Decoded(s, |before| + |bytes|))
  {
    var bytes := EncodeState(c, s).value;
    assert c.read(before + bytes + after, |before|) == Success(Decoded(Discriminant(s), |before| + |bytes|));
  }

  /** The handshake packet, fields in declaration order. */
  datatype Handshake = Handshake(protocolVersion: int, serverAddress: string, serverPort: U16, nextState: HandshakeState)

  const PROTOCOL_VERSION_FIELD: string := "protocol_version"
  const SERVER_ADDRESS_FIELD: string := "server_address"
  const SERVER_PORT_FIELD: string := "server_port"
  const NEXT_STATE_FIELD: string := "next_state"

  const FIELD_CONTEXT_HEAD: string := "failed to read field `"
  const FIELD_CONTEXT_TAIL: string := "` of packet `Handshake`"

  /** The context message naming a field of the handshake packet: the field's name sits between a fixed head and tail. */
  function FieldContext(field: string): (m: string)
    ensures |m| == |FIELD_CONTEXT_HEAD| + |field| + |FIELD_CONTEXT_TAIL|
    ensures m[..|FIELD_CONTEXT_HEAD|] == FIELD_CONTEXT_HEAD
    ensures m[|FIELD_CONTEXT_HEAD|..|FIELD_CONTEXT_HEAD| + |field|] == field
    ensures m[|FIELD_CONTEXT_HEAD| + |field|..] == FIELD_CONTEXT_TAIL
  {
    var m := FIELD_CONTEXT_HEAD + field + FIELD_CONTEXT_TAIL;
    assert m[|FIELD_CONTEXT_HEAD| + |field|..] == FIELD_CONTEXT_TAIL;
    assert m[|FIELD_CONTEXT_HEAD|..|FIELD_CONTEXT_HEAD| + |field|] == field;
    m
  }

  /** A field's context message names that field alone: different fields give different messages. */
  lemma FieldContextIdentifiesField(a: string, b: string)
    ensures FieldContext(a) == FieldContext(b) ==> a == b
  {
    if FieldContext(a) == FieldContext(b) {
      var m := FieldContext(a);
      assert a == m[|FIELD_CONTEXT_HEAD|..|FIELD_CONTEXT_HEAD| + |a|];
    }
  }

  /** The result of reading one field, with a failure wrapped in that field's context. */
  function InField<T>(r: Result<Decoded<T>, Error>, field: string): (f: Result<Decoded<T>, Error>)
    ensures r.Success? ==> f == r
    ensures r.Failure? ==> f == Failure(WithContext(r.error, FieldContext(field)))
  {
    match r
    case Success(_) => r
    case Failure(e) => Failure(WithContext(e, FieldContext(field)))
  }

  /** Whether an error comes from reading a handshake field. */
  predicate FromHandshakeField(e: Error)
  {
    |e.context| > 0 &&
    e.context[0] in {FieldContext(PROTOCOL_VERSION_FIELD), FieldContext(SERVER_ADDRESS_FIELD),
                     FieldContext(SERVER_PORT_FIELD), FieldContext(NEXT_STATE_FIELD)}
  }

  /**
   * Reads a handshake: its four fields, in declaration order, each starting
   * where the previous one ended. The first failure aborts the read.
   */
  function DecodeHandshake(c: FieldCodecs, data: seq<Byte>, pos: nat): (r: Result<Decoded<Handshake>, Error>)
    ensures r.Failure? ==> FromHandshakeField(r.error)
    ensures c.varInt.read(data, pos).Failure? ==>
      r == Failure(WithContext(c.varInt.read(data, pos).error, FieldContext(PROTOCOL_VERSION_FIELD)))
    ensures var f1 := c.varInt.read(data, pos);
      f1.Success? && c.str.read(data, f1.value.pos).Failure? ==>
        r == Failure(WithContext(c.str.read(data, f1.value.pos).error, FieldContext(SERVER_ADDRESS_FIELD)))
    ensures var f1 := c.varInt.read(data, pos);
      f1.Success? && c.str.read(data, f1.value.pos).Success? ==>
        var f2 := c.str.read(data, f1.value.pos);
        c.u16.read(data, f2.value.pos).Failure? ==>
          r == Failure(WithContext(c.u16.read(data, f2.value.pos).error, FieldContext(SERVER_PORT_FIELD)))
    ensures var f1 := c.varInt.read(data, pos);
      f1.Success? && c.str.read(data, f1.value.pos).Success? ==>
        var f2 := c.str.read(data, f1.value.pos);
        c.u16.read(data, f2.value.pos).Success? ==>
          var f3 := c.u16.read(data, f2.value.pos);
          DecodeState(c.varInt, data, f3.value.pos).Failure? ==>
            r == Failure(WithContext(DecodeState(c.varInt, data, f3.value.pos).error, FieldContext(NEXT_STATE_FIELD)))
  {
    var protocolVersion :- InField(c.varInt.read(data, pos), PROTOCOL_VERSION_FIELD);
    var serverAddress :- InField(c.str.read(data, protocolVersion.pos), SERVER_ADDRESS_FIELD);
    var serverPort :- InField(c.u16.read(data, serverAddress.pos), SERVER_PORT_FIELD);
    var nextState :- InField(DecodeState(c.varInt, data, serverPort.pos), NEXT_STATE_FIELD);
    Success(Decoded(
      Handshake(protocolVersion.value, serverAddress.value, serverPort.value, nextState.value),
      nextState.pos))
  }

  /**
   * What a write leaves behind: the bytes appended to the buffer, and the
   * error that stopped it, if any. Bytes appended before a failure stay.
   */
  datatype Written = Written(bytes: seq<Byte>, error: Option<Error>)

  /** Appends one more field's bytes, unless an earlier field has already failed. */
  function Then(w: Written, field: Result<seq<Byte>, Error>): (r: Written)
    ensures w.error.Some? ==> r == w
    ensures w.error.None? && field.Success? ==> r == Written(w.bytes + field.value, None)
    ensures w.error.None? && field.Failure? ==> r == Written(w.bytes, Some(field.error))
  {
    if w.error.Some? then w
    else match field
      case Success(b) => Written(w.bytes + b, None)
      case Failure(e) => Written(w.bytes, Some(e))
  }

  /** Writes a handshake: its four fields, in declaration order, until one fails. */
  function EncodeHandshake(c: FieldCodecs, h: Handshake): Written
  {
    var w := Written([], None);
    var w := Then(w, c.varInt.write(h.protocolVersion));
    var w := Then(w, c.str.write(h.serverAddress));
    var w := Then(w, c.u16.write(h.serverPort));
    Then(w, EncodeState(c.varInt, h.nextState))
  }

  /**
   * A handshake is written in full exactly when every field is, and then its
   * bytes are the fields' bytes in declaration order.
   */
  lemma EncodeInOrder(c: FieldCodecs, h: Handshake)
    ensures EncodeHandshake(c, h).error.None? <==>
      && c.varInt.write(h.protocolVersion).Success?
      && c.str.write(h.serverAddress).Success?
      && c.u16.write(h.serverPort).Success?
      && EncodeState(c.varInt, h.nextState).Success?
    ensures EncodeHandshake(c, h).error.None? ==>
      EncodeHandshake(c, h).bytes == c.varInt.write(h.protocolVersion).value + c.str.write(h.serverAddress).value
        + c.u16.write(h.serverPort).value + EncodeState(c.varInt, h.nextState).value
  {
  }

  /** A write that fails on the first field appends nothing; a later failure keeps the earlier fields. */
  lemma FailedWriteKeepsEarlierFields(c: FieldCodecs, h: Handshake)
    requires c.varInt.write(h.protocolVersion).Success?
    requires c.str.write(h.serverAddress).Failure?
    ensures EncodeHandshake(c, h)
      == Written(c.varInt.write(h.protocolVersion).value, Some(c.str.write(h.serverAddress).error))
  {
  }

  /**
   * With codecs that round-trip, a handshake that was written in full reads
   * back as the same handshake, ending just after its bytes.
   */
  lemma HandshakeRoundTrip(c: FieldCodecs, h: Handshake, before: seq<Byte>, after: seq<Byte>)
    requires Sound(c)
    requires EncodeHandshake(c, h).error.None?
    ensures var bytes := EncodeHandshake(c, h).bytes;
      DecodeHandshake(c, before + bytes + after, |before|) == Success(Decoded(h, |before| + |bytes|))
  {
    EncodeInOrder(c, h);
    var b1 := c.varInt.write(h.protocolVersion).value;
    var b2 := c.str.write(h.serverAddress).value;
    var b3 := c.u16.write(h.serverPort).value;
    var b4 := EncodeState(c.varInt, h.nextState).value;
    Regroup(before, b1, b2, b3, b4, after);
    ReadBack(c.varInt, h.protocolVersion, before, b2 + b3 + b4 + after);
    ReadBack(c.str, h.serverAddress, before + b1, b3 + b4 + after);
    ReadBack(c.u16, h.serverPort, before + b1 + b2, b4 + after);
    StateRoundTrip(c.varInt, h.nextState, before + b1 + b2 + b3, after);
    var data := before + EncodeHandshake(c, h).bytes + after;
    var o1 := |before| + |b1|;
    var o2 := o1 + |b2|;
    var o3 := o2 + |b3|;
    DecodeInOrder(c, data, |before|,
      Decoded(h.protocolVersion, o1), Decoded(h.serverAddress, o2),
      Decoded(h.serverPort, o3), Decoded(h.nextState, o3 + |b4|));
  }

  /**
   * When every field reads successfully, each starting where the previous one
   * ended, the handshake is made of those fields and ends where the last one does.
   */
  lemma DecodeInOrder(c: FieldCodecs, data: seq<Byte>, pos: nat,
                      protocolVersion: Decoded<int>, serverAddress: Decoded<string>,
                      serverPort: Decoded<U16>, nextState: Decoded<HandshakeState>)
    requires c.varInt.read(data, pos) == Success(protocolVersion)
    requires c.str.read(data, protocolVersion.pos) == Success(serverAddress)
    requires c.u16.read(data, serverAddress.pos) == Success(serverPort)
    requires DecodeState(c.varInt, data, serverPort.pos) == Success(nextState)
    ensures DecodeHandshake(c, data, pos) == Success(Decoded(
      Handshake(protocolVersion.value, serverAddress.value, serverPort.value, nextState.value),
      nextState.pos))
  {
  }

  /** A round-tripping codec reads back what it wrote, wherever the bytes sit. */
  lemma ReadBack<T(!new)>(c: Codec<T>, v: T, before: seq<Byte>, after: seq<Byte>)
    requires RoundTrips(c) && c.write(v).Success?
    ensures c.read(before + c.write(v).value + after, |before|)
      == Success(Decoded(v, |before| + |c.write(v).value|))
  {
  }

  /** The buffer around a written handshake, seen from the start of each field. */
  lemma Regroup(p: seq<Byte>, b1: seq<Byte>, b2: seq<Byte>, b3: seq<Byte>, b4: seq<Byte>, q: seq<Byte>)
    ensures p + (b1 + b2 + b3 + b4) + q == p + b1 + (b2 + b3 + b4 + q)
    ensures p + (b1 + b2 + b3 + b4) + q == p + b1 + b2 + (b3 + b4 + q)
    ensures p + (b1 + b2 + b3 + b4) + q == p + b1 + b2 + b3 + (b4 + q)
    ensures p + (b1 + b2 + b3 + b4) + q == p + b1 + b2 + b3 + b4 + q
  {
  }

  /** The reading side of `std::io::Cursor`: a buffer and a position in it. */
  class Cursor {
    const data: seq<Byte>
    var pos: nat

    constructor (data: seq<Byte>)
      ensures this.data == data && pos == 0
    {
      this.data := data;
      pos := 0;
    }
  }

  /** Reads one value with a codec, advancing the cursor past it on success. */
  method ReadWith<T>(cursor: Cursor, c: Codec<T>) returns (r: Result<T, Error>)
    modifies cursor
    ensures var spec := c.read(cursor.data, old(cursor.pos));
      && (r.Success? <==> spec.Success?)
      && (spec.Success? ==> r.value == spec.value.value && cursor.pos == spec.value.pos)
      && (spec.Failure? ==> r.error == spec.error && cursor.pos == old(cursor.pos))
  {
    match c.read(cursor.data, cursor.pos)
    case Success(d) =>
      cursor.pos := d.pos;
      r := Success(d.value);
    case Failure(e) =>
      r := Failure(e);
  }

  /** `HandshakeState::read`, as `DecodeState` describes it. */
  method ReadHandshakeState(cursor: Cursor, c: Codec<int>) returns (r: Result<HandshakeState, Error>)
    modifies cursor
    ensures var spec := DecodeState(c, cursor.data, old(cursor.pos));
      && (r.Success? <==> spec.Success?)
      && (spec.Success? ==> r.value == spec.value.value && cursor.pos == spec.value.pos)
      && (spec.Failure? ==> r.error == spec.error)
  {
    var discriminant := ReadWith(cursor, c);
    if discriminant.Failure? {
      return Failure(WithContext(discriminant.error, DISCRIMINANT_CONTEXT));
    }
    if discriminant.value == 1 {
      r := Success(Status);
    } else if discriminant.value == 2 {
      r := Success(Login);
    } else {
      r := Failure(Error(NoDiscriminantMatched(HANDSHAKE_STATE_NAME, discriminant.value), []));
    }
  }

  /** `Handshake::read`, as `DecodeHandshake` describes it. */
  method ReadHandshake(cursor: Cursor, c: FieldCodecs) returns (r: Result<Handshake, Error>)
    modifies cursor
    ensures var spec := DecodeHandshake(c, cursor.data, old(cursor.pos));
      && (r.Success? <==> spec.Success?)
      && (spec.Success? ==> r.value == spec.value.value && cursor.pos == spec.value.pos)
      && (spec.Failure? ==> r.error == spec.error)
  {
    var protocolVersion := ReadWith(cursor, c.varInt);
    if protocolVersion.Failure? {
      return Failure(WithContext(protocolVersion.error, FieldContext(PROTOCOL_VERSION_FIELD)));
    }
    var serverAddress := ReadWith(cursor, c.str);
    if serverAddress.Failure? {
      return Failure(WithContext(serverAddress.error, FieldContext(SERVER_ADDRESS_FIELD)));
    }
    var serverPort := ReadWith(cursor, c.u16);
    if serverPort.Failure? {
      return Failure(WithContext(serverPort.error, FieldContext(SERVER_PORT_FIELD)));
    }
    var nextState := ReadHandshakeState(cursor, c.varInt);
    if nextState.Failure? {
      return Failure(WithContext(nextState.error, FieldContext(NEXT_STATE_FIELD)));
    }
    r := Success(Handshake(protocolVersion.value, serverAddress.value, serverPort.value, nextState.value));
  }

  /** The writing side: the `Vec<u8>` a packet is appended to. */
  class ByteBuffer {
    var bytes: seq<Byte>

    constructor ()
      ensures bytes == []
    {
      bytes := [];
    }
  }

  /** Appends one value with a codec; a failed write appends nothing. */
  method WriteWith<T>(buffer: ByteBuffer, c: Codec<T>, v: T) returns (r: Result<(), Error>)
    modifies buffer
    ensures c.write(v).Success? ==> r.Success? && buffer.bytes == old(buffer.bytes) + c.write(v).value
    ensures c.write(v).Failure? ==> r == Failure(c.write(v).error) && buffer.bytes == old(buffer.bytes)
  {
    match c.write(v)
    case Success(b) =>
      buffer.bytes := buffer.bytes + b;
      r := Success(());
    case Failure(e) =>
      r := Failure(e);
  }

  /** `HandshakeState::write`: appends the discriminant. */
  method WriteHandshakeState(buffer: ByteBuffer, c: Codec<int>, s: HandshakeState) returns (r: Result<(), Error>)
    modifies buffer
    ensures EncodeState(c, s).Success? ==> r.Success? && buffer.bytes == old(buffer.bytes) + EncodeState(c, s).value
    ensures EncodeState(c, s).Failure? ==> r == Failure(EncodeState(c, s).error) && buffer.bytes == old(buffer.bytes)
  {
    var discriminant := match s case Status => 1 case Login => 2;
    r := WriteWith(buffer, c, discriminant);
  }

  /** `Handshake::write`, as `EncodeHandshake` describes it: fields appended in order until one fails. */
  method WriteHandshake(buffer: ByteBuffer, c: FieldCodecs, h: Handshake) returns (r: Result<(), Error>)
    modifies buffer
    ensures buffer.bytes == old(buffer.bytes) + EncodeHandshake(c, h).bytes
    ensures r.Success? <==> EncodeHandshake(c, h).error.None?
    ensures r.Failure? ==> Some(r.error) == EncodeHandshake(c, h).error
  {
    ghost var w1 := Then(Written([], None), c.varInt.write(h.protocolVersion));
    ghost var w2 := Then(w1, c.str.write(h.serverAddress));
    ghost var w3 := Then(w2, c.u16.write(h.serverPort));
    assert EncodeHandshake(c, h) == Then(w3, EncodeState(c.varInt, h.nextState));
    r := WriteWith(buffer, c.varInt, h.protocolVersion);
    if r.Failure? {
      assert w3 == w2 == w1;
      return;
    }
    r := WriteWith(buffer, c.str, h.serverAddress);
    if r.Failure? {
      assert w3 == w2;
      return;
    }
    r := WriteWith(buffer, c.u16, h.serverPort);
    if r.Failure? {
      return;
    }
    r := WriteHandshakeState(buffer, c.varInt, h.nextState);
  }
}
