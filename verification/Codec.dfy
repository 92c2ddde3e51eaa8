/** The framing of RPC messages: a 32-bit little-endian length followed by a serialized message. */
module Codec {
  import opened Common

  type Byte = n: nat | n < 256

  const PREFIX_SIZE: nat := 4

  datatype CodecError = Serialization | Deserialization | MessageTooBig(size: nat)

  /** A serialization format: both directions may fail. */
  datatype Format<!M> = Format(serialize: M -> Option<seq<Byte>>, deserialize: seq<Byte> -> Option<M>)

  /** Deserializing inverts serializing. */
  ghost predicate Inverse<M(!new)>(f: Format<M>) {
    forall m :: f.serialize(m).Some? ==> f.deserialize(f.serialize(m).value) == Some(m)
  }

  function PutU32(n: nat): (bytes: seq<Byte>)
    requires n <= U32_MAX
    ensures |bytes| == PREFIX_SIZE
  {
    [n % 0x100, n / 0x100 % 0x100, n / 0x1_0000 % 0x100, n / 0x100_0000]
  }

  function GetU32(bytes: seq<Byte>): (n: nat)
    requires |bytes| >= PREFIX_SIZE
    ensures n <= U32_MAX
  {
    bytes[0] as int + 0x100 * bytes[1] as int + 0x1_0000 * bytes[2] as int + 0x100_0000 * bytes[3] as int
  }

  lemma PrefixRoundTrip(n: nat, rest: seq<Byte>)
    requires n <= U32_MAX
    ensures GetU32(PutU32(n) + rest) == n
  {
    assert n == n % 0x100 + 0x100 * (n / 0x100);
    assert n / 0x100 == n / 0x100 % 0x100 + 0x100 * (n / 0x1_0000);
    assert n / 0x1_0000 == n / 0x1_0000 % 0x100 + 0x100 * (n / 0x100_0000);
  }

  /** Messages that fit in a frame. */
  predicate Encodable<M>(f: Format<M>, m: M) {
    f.serialize(m).Some? && |f.serialize(m).value| <= U32_MAX
  }

  function Frame<M>(f: Format<M>, m: M): seq<Byte>
    requires Encodable(f, m)
  {
    PutU32(|f.serialize(m).value|) + f.serialize(m).value
  }

  /** Whether a buffer starts with a complete frame. */
  predicate HasFrame(buffer: seq<Byte>) {
    |buffer| >= PREFIX_SIZE && |buffer| >= PREFIX_SIZE + GetU32(buffer)
  }

  class Connection<M(!new)> {
    const format: Format<M>
    var buffer: seq<Byte>

    constructor (format: Format<M>)
      ensures this.format == format && buffer == []
    {
      this.format, buffer := format, [];
    }

    /** Appends a frame to the buffer, or leaves it as it is. */
    method Encode(message: M) returns (result: Result<(), CodecError>)
      modifies this
      ensures result.Ok? <==> Encodable(format, message)
      ensures buffer == old(buffer) + if Encodable(format, message) then Frame(format, message) else []
      ensures result == Err(Serialization) <==> format.serialize(message).None?
      ensures result.Err? && result.error.MessageTooBig? ==> result.error.size == |format.serialize(message).value|
    {
      var frame := PutU32(0);
      var payload := format.serialize(message);
      if payload.None? {
        return Err(Serialization);
      }
      frame := frame + payload.value;
      var payloadSize := |frame| - PREFIX_SIZE;
      if payloadSize > U32_MAX {
        return Err(MessageTooBig(payloadSize));
      }
      frame := PutU32(payloadSize) + frame[PREFIX_SIZE..];
      buffer := buffer + frame;
      return Ok(());
    }

    /** Takes a complete frame off the buffer; consumes nothing when there is none. */
    method Decode() returns (result: Result<Option<M>, CodecError>)
      modifies this
      ensures !HasFrame(old(buffer)) ==> result == Ok(None) && buffer == old(buffer)
      ensures HasFrame(old(buffer)) ==>
        var size := PREFIX_SIZE + GetU32(old(buffer));
        var message := format.deserialize(old(buffer)[PREFIX_SIZE..size]);
        && buffer == old(buffer)[size..]
        && result == if message.Some? then Ok(message) else Err(Deserialization)
    {
      if |buffer| < PREFIX_SIZE {
        return Ok(None);
      }
      var payloadSize := GetU32(buffer);
      var frameSize := PREFIX_SIZE + payloadSize;
      if |buffer| < frameSize {
        return Ok(None);
      }
      buffer := buffer[PREFIX_SIZE..];
      var payload := buffer[..payloadSize];
      buffer := buffer[payloadSize..];
      assert payload == old(buffer)[PREFIX_SIZE..frameSize] && buffer == old(buffer)[frameSize..];
      var message := format.deserialize(payload);
      if message.None? {
        return Err(Deserialization);
      }
      return Ok(message);
    }

    /** Encodes messages one after the other, up to the first that does not fit; the frames before it stay. */
    method Send(messages: seq<M>) returns (result: Result<(), CodecError>, ghost sent: nat)
      modifies this
      ensures sent <= |messages| && AllEncodable(format, messages[..sent])
      ensures buffer == old(buffer) + Stream(format, messages[..sent])
      ensures result.Ok? ==> sent == |messages|
      ensures result.Err? ==> sent < |messages| && !Encodable(format, messages[sent])
    {
      for i := 0 to |messages|
        invariant AllEncodable(format, messages[..i])
        invariant buffer == old(buffer) + Stream(format, messages[..i])
      {
        result := Encode(messages[i]);
        if result.Err? {
          sent := i;
          return;
        }
        StreamStep(format, messages, i, old(buffer));
      }
      return Ok(()), |messages|;
    }

    /** Decodes frames until none is complete, or one cannot be deserialized. */
    method Drain() returns (result: Result<seq<M>, CodecError>)
      modifies this
      ensures (result, buffer) == DrainAll(format, old(buffer))
    {
      var received: seq<M> := [];
      PrependNone(DrainAll(format, buffer));
      while true
        invariant DrainAll(format, old(buffer)) == Prepend(received, DrainAll(format, buffer))
        decreases |buffer|
      {
        var next := Decode();
        if next.Err? {
          return Err(next.error);
        }
        if next.value.None? {
          assert received + [] == received;
          return Ok(received);
        }
        PrependAll(received, [next.value.value], DrainAll(format, buffer));
        received := received + [next.value.value];
      }
    }

    /** Decodes what arrives chunk by chunk. */
    method Receive(chunks: seq<seq<Byte>>) returns (result: Result<seq<M>, CodecError>)
      modifies this
      ensures (result, buffer) == ReceiveAll(format, old(buffer), chunks)
    {
      var received: seq<M> := [];
      PrependNone(ReceiveAll(format, buffer, chunks));
      assert chunks[0..] == chunks;
      for i := 0 to |chunks|
        invariant ReceiveAll(format, old(buffer), chunks) == Prepend(received, ReceiveAll(format, buffer, chunks[i..]))
      {
        assert chunks[i..][1..] == chunks[i + 1..];
        buffer := buffer + chunks[i];
        var more := Drain();
        if more.Err? {
          return more;
        }
        PrependAll(received, more.value, ReceiveAll(format, buffer, chunks[i + 1..]));
        received := received + more.value;
      }
      assert received + [] == received;
      return Ok(received);
    }
  }

  /** The messages decoded so far or an error, and the bytes that are left. */
  type Decoded<M> = (Result<seq<M>, CodecError>, seq<Byte>)

  function Prepend<M>(messages: seq<M>, d: Decoded<M>): Decoded<M> {
    (match d.0 case Ok(more) => Ok(messages + more) case Err(error) => Err(error), d.1)
  }

  function DrainAll<M>(f: Format<M>, buffer: seq<Byte>): Decoded<M>
    decreases |buffer|
  {
    if !HasFrame(buffer) then (Ok([]), buffer)
    else
      var size := PREFIX_SIZE + GetU32(buffer);
      match f.deserialize(buffer[PREFIX_SIZE..size])
      case None => (Err(Deserialization), buffer[size..])
      case Some(message) => Prepend([message], DrainAll(f, buffer[size..]))
  }

  function ReceiveAll<M>(f: Format<M>, buffer: seq<Byte>, chunks: seq<seq<Byte>>): Decoded<M>
    decreases |chunks|
  {
    if chunks == [] then (Ok([]), buffer)
    else
      var drained := DrainAll(f, buffer + chunks[0]);
      if drained.0.Err? then drained else Prepend(drained.0.value, ReceiveAll(f, drained.1, chunks[1..]))
  }

  lemma PrependNone<M>(d: Decoded<M>)
    ensures Prepend([], d) == d
  {
    if d.0.Ok? {
      assert [] + d.0.value == d.0.value;
    }
  }

  lemma PrependAll<M>(a: seq<M>, b: seq<M>, d: Decoded<M>)
    ensures Prepend(a, Prepend(b, d)) == Prepend(a + b, d)
  {
    if d.0.Ok? {
      assert a + (b + d.0.value) == (a + b) + d.0.value;
    }
  }

  /** Draining the beginning of a stream gives its first messages and keeps the beginning of the others. */
  lemma {:induction false} DrainStream<M(!new)>(f: Format<M>, messages: seq<M>, buffer: seq<Byte>, rest: seq<Byte>)
    requires Inverse(f) && AllEncodable(f, messages) && buffer + rest == Stream(f, messages)
    ensures var (result, left) := DrainAll(f, buffer);
      && result.Ok? && |result.value| <= |messages| && result.value == messages[..|result.value|]
      && left + rest == Stream(f, messages[|result.value|..]) && !HasFrame(left)
    decreases |messages|
  {
    StreamStart(f, messages, buffer, rest);
    if HasFrame(buffer) {
      var size := PREFIX_SIZE + GetU32(buffer);
      DrainStream(f, messages[1..], buffer[size..], rest);
      var more := DrainAll(f, buffer[size..]).0.value;
      assert messages[..|more| + 1] == [messages[0]] + messages[1..][..|more|];
      assert messages[|more| + 1..] == messages[1..][|more|..];
    }
  }

  /** However an encoded stream is cut into chunks, its messages are decoded in order, each exactly once. */
  lemma {:induction false} ReceiveStream<M(!new)>(f: Format<M>, messages: seq<M>, buffer: seq<Byte>,
                                                  chunks: seq<seq<Byte>>)
    requires Inverse(f) && AllEncodable(f, messages) && !HasFrame(buffer)
    requires buffer + Flatten(chunks) == Stream(f, messages)
    ensures ReceiveAll(f, buffer, chunks) == (Ok(messages), [])
    decreases |chunks|
  {
    if chunks == [] {
      StreamStart(f, messages, buffer, []);
    } else {
      var rest := Flatten(chunks[1..]);
      assert (buffer + chunks[0]) + rest == buffer + Flatten(chunks);
      DrainStream(f, messages, buffer + chunks[0], rest);
      var (result, left) := DrainAll(f, buffer + chunks[0]);
      ReceiveStream(f, messages[|result.value|..], left, chunks[1..]);
      assert messages == messages[..|result.value|] + messages[|result.value|..];
    }
  }

  ghost predicate AllEncodable<M>(f: Format<M>, messages: seq<M>) {
    forall i :: 0 <= i < |messages| ==> Encodable(f, messages[i])
  }

  /** The bytes sent for a list of messages. */
  ghost function Stream<M>(f: Format<M>, messages: seq<M>): seq<Byte>
    requires AllEncodable(f, messages)
  {
    if messages == [] then [] else Frame(f, messages[0]) + Stream(f, messages[1..])
  }

  ghost function Flatten(chunks: seq<seq<Byte>>): seq<Byte> {
    if chunks == [] then [] else chunks[0] + Flatten(chunks[1..])
  }

  lemma {:induction false} StreamAppend<M>(f: Format<M>, messages: seq<M>, m: M)
    requires AllEncodable(f, messages) && Encodable(f, m)
    ensures AllEncodable(f, messages + [m]) && Stream(f, messages + [m]) == Stream(f, messages) + Frame(f, m)
  {
    if messages == [] {
      assert Stream(f, [m]) == Frame(f, m) + Stream(f, [m][1..]);
    } else {
      StreamAppend(f, messages[1..], m);
      assert (messages + [m])[1..] == messages[1..] + [m];
    }
  }

  lemma StreamStep<M>(f: Format<M>, messages: seq<M>, i: nat, buffer: seq<Byte>)
    requires i < |messages| && AllEncodable(f, messages[..i]) && Encodable(f, messages[i])
    ensures AllEncodable(f, messages[..i + 1])
    ensures buffer + Stream(f, messages[..i + 1]) == buffer + Stream(f, messages[..i]) + Frame(f, messages[i])
  {
    StreamAppend(f, messages[..i], messages[i]);
    assert messages[..i + 1] == messages[..i] + [messages[i]];
  }

  /** What the beginning of a stream holds: the first message, once all of its frame arrived. */
  lemma StreamStart<M(!new)>(f: Format<M>, messages: seq<M>, buffer: seq<Byte>, rest: seq<Byte>)
    requires Inverse(f) && AllEncodable(f, messages) && buffer + rest == Stream(f, messages)
    ensures rest == [] ==> (HasFrame(buffer) <==> messages != [])
    ensures HasFrame(buffer) ==> messages != []
    ensures HasFrame(buffer) ==>
      var size := PREFIX_SIZE + GetU32(buffer);
      && f.deserialize(buffer[PREFIX_SIZE..size]) == Some(messages[0])
      && buffer[size..] + rest == Stream(f, messages[1..])
  {
    if messages != [] {
      FrameStart(f.serialize(messages[0]).value, Stream(f, messages[1..]), buffer, rest);
    }
  }

  /** A buffer that holds the beginning of a frame and of what follows it. */
  lemma FrameStart(payload: seq<Byte>, tail: seq<Byte>, buffer: seq<Byte>, rest: seq<Byte>)
    requires |payload| <= U32_MAX && buffer + rest == PutU32(|payload|) + payload + tail
    ensures rest == [] ==> HasFrame(buffer)
    ensures HasFrame(buffer) ==> GetU32(buffer) == |payload|
    ensures HasFrame(buffer) ==>
      buffer[PREFIX_SIZE..PREFIX_SIZE + |payload|] == payload && buffer[PREFIX_SIZE + |payload|..] + rest == tail
  {
    var stream := PutU32(|payload|) + payload + tail;
    if |buffer| >= PREFIX_SIZE {
      PrefixOf(payload, tail, buffer, rest);
      var size := PREFIX_SIZE + |payload|;
      if |buffer| >= size {
        assert buffer == (buffer + rest)[..|buffer|] == stream[..|buffer|];
        assert buffer[PREFIX_SIZE..size] == stream[PREFIX_SIZE..size] == payload;
        assert buffer[size..] + rest == stream[size..] == tail;
      }
    }
  }

  lemma PrefixOf(payload: seq<Byte>, tail: seq<Byte>, buffer: seq<Byte>, rest: seq<Byte>)
    requires |payload| <= U32_MAX && buffer + rest == PutU32(|payload|) + payload + tail && |buffer| >= PREFIX_SIZE
    ensures GetU32(buffer) == |payload|
  {
    var stream := PutU32(|payload|) + payload + tail;
    assert forall i :: 0 <= i < PREFIX_SIZE ==> buffer[i] == (buffer + rest)[i] == stream[i] == PutU32(|payload|)[i];
    PrefixRoundTrip(|payload|, []);
    assert forall i :: 0 <= i < PREFIX_SIZE ==> (PutU32(|payload|) + [])[i] == PutU32(|payload|)[i];
  }
}
