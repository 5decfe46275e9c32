/** example/pb/pb.go: length-prefixed frames.  A frame is a big-endian payload size, a
    big-endian type id and the marshalled message; the size counts the id.
    The type registry and protobuf are the parameters of a Codec. */
module Frames {
  import opened Bytes
  import opened Optional

  const HEADER_SIZE: int := 4
  const ID_SIZE: int := 4

  datatype Codec<!M> = Codec(
    typeId: M -> Option<int>,               // nameToTypeID of the message's type
    marshal: M -> Option<seq<byte>>,        // proto.Marshal
    registered: int -> bool,                // idToMeta
    unmarshal: (int, seq<byte>) -> Option<M>) // proto.Unmarshal into a new message of that type

  datatype EncodeError = UnregisteredType | MarshalFailed | TooBig

  datatype Outcome<+M> =
    | NeedHeader                             // (nil, 0, nil)
    | NeedBytes(total: int)                  // (nil, total, nil)
    | Message(msg: M, size: int)             // (msg, size, nil)
    | Rejected(error: DecodeError)           // (nil, _, err)
    | Panics                                 // slice bounds out of range in GetBytes
  datatype DecodeError = TooLarge | EmptyPayload | Unregistered | BadBody

  // ------------------------------------------------------------------- encode

  /** The bytes Encode appends for data under a type id; uint32(...) wraps. */
  function Frame(id: int, data: seq<byte>): seq<byte> {
    PutUint32((|data| + ID_SIZE) % U32_LIMIT) + PutUint32(id % U32_LIMIT) + data
  }

  /** What Encode reports and appends.  An unregistered type is reported, yet its frame is still
      written, with type id 0; the other errors write nothing. */
  function Encoded<M>(codec: Codec<M>, o: M, maxMsgSize: int): (Option<EncodeError>, seq<byte>) {
    match codec.marshal(o)
    case None => (Some(MarshalFailed), [])
    case Some(data) =>
      if |data| > maxMsgSize then (Some(TooBig), [])
      else match codec.typeId(o)
           case None => (Some(UnregisteredType), Frame(0, data))
           case Some(id) => (None, Frame(id, data))
  }

  /** Encode reports nothing exactly when the type is registered and the data marshalled and within the limit,
      and then appends one frame, eight bytes longer than the data; each error has its one cause, a data
      error going before a missing registration. */
  lemma EncodesExactly<M>(codec: Codec<M>, o: M, maxMsgSize: int)
    ensures var (e, bytes) := Encoded(codec, o, maxMsgSize);
            && (e == Some(MarshalFailed) <==> codec.marshal(o).None?)
            && (e == Some(TooBig) <==> codec.marshal(o).Some? && |codec.marshal(o).value| > maxMsgSize)
            && (codec.marshal(o).Some? && |codec.marshal(o).value| <= maxMsgSize ==>
                  && (e == Some(UnregisteredType) <==> codec.typeId(o).None?) && (e.None? <==> codec.typeId(o).Some?)
                  && |bytes| == HEADER_SIZE + ID_SIZE + |codec.marshal(o).value|)
            && (e == Some(MarshalFailed) || e == Some(TooBig) ==> bytes == [])
  {
  }

  method Encode<M>(codec: Codec<M>, o: M, b: Buffer, maxMsgSize: int) returns (e: Option<EncodeError>)
    modifies b
    ensures var (error, bytes) := Encoded(codec, o, maxMsgSize);
            e == error && b.bs == old(b.bs) + bytes
  {
    e := None;
    var typeId := 0;
    match codec.typeId(o) {
      case Some(id) => typeId := id;
      case None => e := Some(UnregisteredType);
    }
    match codec.marshal(o) {
      case None =>
        e := Some(MarshalFailed);
      case Some(data) =>
        var dataLen := |data|;
        if dataLen > maxMsgSize {
          return Some(TooBig);
        }
        var totalLen := HEADER_SIZE + ID_SIZE + dataLen;
        b.AppendUint32((totalLen - HEADER_SIZE) % U32_LIMIT);
        b.AppendUint32(typeId % U32_LIMIT);
        b.AppendBytes(data);
    }
  }

  // ------------------------------------------------------------------- decode

  /** What Decode answers for the bytes available. */
  function Decoded<M>(codec: Codec<M>, bs: seq<byte>, maxMsgSize: int): (o: Outcome<M>)
    ensures o.Message? ==> ID_SIZE + HEADER_SIZE <= o.size <= |bs|
    ensures o.NeedBytes? ==> o.total > |bs|
  {
    if |bs| < HEADER_SIZE then NeedHeader
    else
      var payload := Uint32(bs[..4]);
      if payload > maxMsgSize then Rejected(TooLarge)
      else if payload == 0 then Rejected(EmptyPayload)
      else if payload + HEADER_SIZE > |bs| then NeedBytes(payload + HEADER_SIZE)
      else if !codec.registered(if |bs| >= 8 then Uint32(bs[4..8]) else 0) then Rejected(Unregistered)
      else if payload < ID_SIZE then Panics
      else
        match codec.unmarshal(Uint32(bs[4..8]), bs[8..payload + HEADER_SIZE])
        case Some(msg) => Message(msg, payload + HEADER_SIZE)
        case None => Rejected(BadBody)
  }

  method Decode<M>(codec: Codec<M>, buff: array<byte>, start: int, end: int, maxMsgSize: int)
    returns (o: Outcome<M>)
    requires 0 <= start <= end <= buff.Length
    ensures o == Decoded(codec, buff[start..end], maxMsgSize)
  {
    var dataLen := end - start;
    if dataLen < HEADER_SIZE {
      return NeedHeader;
    }
    var reader := new Reader(buff[start..end]);
    var payload := reader.GetUint32();
    if payload > maxMsgSize {
      return Rejected(TooLarge);
    } else if payload == 0 {
      return Rejected(EmptyPayload);
    }
    var totalPacketSize := payload + HEADER_SIZE;
    if totalPacketSize > dataLen {
      return NeedBytes(totalPacketSize);
    }
    var typeId := reader.GetUint32();
    if !codec.registered(typeId) {
      return Rejected(Unregistered);
    }
    var pbDataLen := totalPacketSize - HEADER_SIZE - ID_SIZE;
    var pbData := reader.GetBytes(pbDataLen);
    if pbData.None? {
      return Panics;
    }
    match codec.unmarshal(typeId, pbData.value) {
      case Some(msg) => o := Message(msg, totalPacketSize);
      case None => o := Rejected(BadBody);
    }
  }

  /** The type id Decode reads, which is 0 when fewer than four bytes follow the header and may lie
      behind the end of a short frame. */
  function IdRead(bs: seq<byte>): int
    requires |bs| >= HEADER_SIZE
  {
    if |bs| >= 8 then Uint32(bs[4..8]) else 0
  }

  /** When Decode asks for more, and for how much: for the whole frame, if and only if its announced size is
      within the limit, not zero, and not all there.  A size above the limit is refused at once, however few
      bytes have come, and so is an empty frame. */
  lemma AsksExactly<M>(codec: Codec<M>, bs: seq<byte>, maxMsgSize: int)
    ensures var o := Decoded(codec, bs, maxMsgSize);
            && (o.NeedHeader? <==> |bs| < HEADER_SIZE)
            && (|bs| >= HEADER_SIZE ==>
                  var payload := Uint32(bs[..4]);
                  && (o.NeedBytes? <==> 1 <= payload <= maxMsgSize && |bs| < payload + HEADER_SIZE)
                  && (o.NeedBytes? ==> o.total == payload + HEADER_SIZE)
                  && (o == Rejected(TooLarge) <==> payload > maxMsgSize)
                  && (o == Rejected(EmptyPayload) <==> payload == 0 <= maxMsgSize))
  {
  }

  /** What Decode does with a complete frame within the limit: it cuts off exactly that frame, and gives back
      what its body unmarshals to under the id in front of it. */
  lemma CutsExactly<M>(codec: Codec<M>, bs: seq<byte>, maxMsgSize: int)
    requires |bs| >= HEADER_SIZE && 1 <= Uint32(bs[..4]) <= maxMsgSize && |bs| >= Uint32(bs[..4]) + HEADER_SIZE
    ensures var o := Decoded(codec, bs, maxMsgSize); var payload := Uint32(bs[..4]);
            && (o == Rejected(Unregistered) <==> !codec.registered(IdRead(bs)))
            && (codec.registered(IdRead(bs)) && payload >= ID_SIZE ==>
                  var body := codec.unmarshal(Uint32(bs[4..8]), bs[8..payload + HEADER_SIZE]);
                  o == if body.Some? then Message(body.value, payload + HEADER_SIZE) else Rejected(BadBody))
  {
  }

  /** Decoding a frame in front of anything gives back the message if and only if data and id
      together fit the limit (Encode bounds the data, Decode the data plus the id) and the
      32-bit size field. */
  lemma RoundTrip<M>(codec: Codec<M>, m: M, id: int, data: seq<byte>, rest: seq<byte>, maxMsgSize: int)
    requires codec.typeId(m) == Some(id) && 0 <= id < U32_LIMIT && codec.registered(id)
    requires codec.marshal(m) == Some(data) && codec.unmarshal(id, data) == Some(m)
    ensures var o := Decoded(codec, Frame(id, data) + rest, maxMsgSize);
            && (o == Message(m, |Frame(id, data)|) <==> |data| + ID_SIZE <= maxMsgSize && |data| + ID_SIZE < U32_LIMIT)
            && (maxMsgSize < |data| + ID_SIZE < U32_LIMIT ==> o == Rejected(TooLarge))
  {
    var bs := Frame(id, data) + rest;
    assert id % U32_LIMIT == id;
    assert bs[..4] == PutUint32((|data| + ID_SIZE) % U32_LIMIT);
    assert bs[4..8] == PutUint32(id);
    assert bs[8..8 + |data|] == data;
  }

  /** The limit mismatch is real: under a limit of 4 a one-byte body encodes without error, and the
      frame is then refused. */
  lemma LimitMismatch<M>(codec: Codec<M>, m: M, id: int)
    requires codec.typeId(m) == Some(id) && 0 <= id < U32_LIMIT && codec.registered(id)
    requires codec.marshal(m) == Some([7]) && codec.unmarshal(id, [7]) == Some(m)
    ensures Encoded(codec, m, 4) == (None, Frame(id, [7]))
    ensures Decoded(codec, Encoded(codec, m, 4).1, 4) == Rejected(TooLarge)
  {
    RoundTrip(codec, m, id, [7], [], 4);
    assert Frame(id, [7]) + [] == Frame(id, [7]);
  }

  /** Decoding what Encode appended, in front of anything, gives back the message if and only if it is
      accepted and data and id together fit: the codec being an inverse pair on the message. */
  lemma EncodedDecodes<M>(codec: Codec<M>, m: M, id: int, data: seq<byte>, rest: seq<byte>, maxMsgSize: int)
    requires codec.typeId(m) == Some(id) && 0 <= id < U32_LIMIT && codec.registered(id)
    requires codec.marshal(m) == Some(data) && codec.unmarshal(id, data) == Some(m) && |data| <= maxMsgSize
    ensures var (e, bytes) := Encoded(codec, m, maxMsgSize);
            && e == None
            && (Decoded(codec, bytes + rest, maxMsgSize) == Message(m, |bytes|) <==>
                  |data| + ID_SIZE <= maxMsgSize && |data| + ID_SIZE < U32_LIMIT)
  {
    RoundTrip(codec, m, id, data, rest, maxMsgSize);
  }

  /** An error comes with bytes written if and only if the type is unregistered and the data within the
      limit. */
  lemma ReportedYetWritten<M>(codec: Codec<M>, o: M, maxMsgSize: int)
    ensures var (e, bytes) := Encoded(codec, o, maxMsgSize);
            e != None && bytes != [] <==>
            codec.typeId(o).None? && codec.marshal(o).Some? && |codec.marshal(o).value| <= maxMsgSize
  {
    assert forall id, data :: |Frame(id, data)| == HEADER_SIZE + ID_SIZE + |data|;
  }

  /** Decode panics if and only if a complete frame announces 1 to 3 bytes within the limit, too few
      for a type id, and the id read anyway is registered. */
  lemma PanicsExactly<M>(codec: Codec<M>, bs: seq<byte>, maxMsgSize: int)
    ensures Decoded(codec, bs, maxMsgSize).Panics? <==>
            && |bs| >= HEADER_SIZE
            && var payload := Uint32(bs[..4]);
               1 <= payload <= 3 && payload <= maxMsgSize && HEADER_SIZE + payload <= |bs| &&
               codec.registered(IdRead(bs))
  {
  }

  /** Such inputs: a header announcing two bytes in front of the four bytes of a registered id, and,
      where id 0 is registered, five bytes in all. */
  lemma ShortFramePanics<M>(codec: Codec<M>, maxMsgSize: int)
    requires codec.registered(5) && codec.registered(0) && maxMsgSize >= 2
    ensures Decoded(codec, [0, 0, 0, 2, 0, 0, 0, 5], maxMsgSize).Panics?
    ensures Decoded(codec, [0, 0, 0, 1, 9], maxMsgSize).Panics?
  {
    var a: seq<byte> := [0, 0, 0, 2, 0, 0, 0, 5];
    assert a[..4] == [0, 0, 0, 2] && a[4..8] == [0, 0, 0, 5];
    PanicsExactly(codec, a, maxMsgSize);
    var b: seq<byte> := [0, 0, 0, 1, 9];
    assert b[..4] == [0, 0, 0, 1];
    PanicsExactly(codec, b, maxMsgSize);
  }

  // ------------------------------------------------------- parsing a whole stream

  datatype Ending = Waiting | Stopped  // more bytes wanted; an error or a panic

  datatype Parsed<+M> = Parsed(msgs: seq<M>, rest: seq<byte>, ending: Ending)

  /** The reference: messages are cut off the front until the bytes run short or are rejected. */
  function Parse<M>(codec: Codec<M>, bs: seq<byte>, maxMsgSize: int): (p: Parsed<M>)
    decreases |bs|
  {
    match Decoded(codec, bs, maxMsgSize)
    case Message(msg, size) =>
      var p := Parse(codec, bs[size..], maxMsgSize);
      Behind([msg], p)
    case NeedHeader => Parsed([], bs, Waiting)
    case NeedBytes(_) => Parsed([], bs, Waiting)
    case Rejected(_) => Parsed([], bs, Stopped)
    case Panics => Parsed([], bs, Stopped)
  }

  function Behind<M>(msgs: seq<M>, p: Parsed<M>): Parsed<M> {
    p.(msgs := msgs + p.msgs)
  }

  /** More bytes never change a message already complete, nor revive rejected bytes. */
  lemma DecodedStable<M>(codec: Codec<M>, a: seq<byte>, b: seq<byte>, maxMsgSize: int)
    ensures var o, o' := Decoded(codec, a, maxMsgSize), Decoded(codec, a + b, maxMsgSize);
            && (o.Message? ==> o' == o)
            && (o.Rejected? || o.Panics? ==> o'.Rejected? || o'.Panics?)
  {
    if |a| >= 4 {
      assert (a + b)[..4] == a[..4];
      var payload := Uint32(a[..4]);
      if payload + HEADER_SIZE <= |a| && payload >= ID_SIZE {
        assert (a + b)[4..8] == a[4..8];
        assert (a + b)[8..payload + HEADER_SIZE] == a[8..payload + HEADER_SIZE];
      }
    }
  }

  /** Parsing may be resumed: bytes that arrive later are parsed behind what was left over. */
  lemma {:induction false} ParseResumes<M>(codec: Codec<M>, a: seq<byte>, b: seq<byte>, maxMsgSize: int)
    ensures var p, q := Parse(codec, a, maxMsgSize), Parse(codec, a + b, maxMsgSize);
            p.ending == Stopped ==> q.msgs == p.msgs && q.ending == Stopped
    ensures var p, q := Parse(codec, a, maxMsgSize), Parse(codec, a + b, maxMsgSize);
            p.ending == Waiting ==> q == Behind(p.msgs, Parse(codec, p.rest + b, maxMsgSize))
    decreases |a|
  {
    DecodedStable(codec, a, b, maxMsgSize);
    var o := Decoded(codec, a, maxMsgSize);
    if o.Message? {
      var tail := a[o.size..];
      assert (a + b)[o.size..] == tail + b;
      var p, q := Parse(codec, tail, maxMsgSize), Parse(codec, tail + b, maxMsgSize);
      assert Parse(codec, a, maxMsgSize) == Behind([o.msg], p);
      assert Parse(codec, a + b, maxMsgSize) == Behind([o.msg], q);
      ParseResumes(codec, tail, b, maxMsgSize);
      if p.ending == Waiting {
        BehindTwice([o.msg], p.msgs, Parse(codec, p.rest + b, maxMsgSize));
      }
    } else {
      BehindNothing(Parse(codec, a + b, maxMsgSize));
    }
  }

  lemma BehindTwice<M>(a: seq<M>, b: seq<M>, p: Parsed<M>)
    ensures Behind(a, Behind(b, p)) == Behind(a + b, p)
  {
    assert a + (b + p.msgs) == (a + b) + p.msgs;
  }

  lemma BehindNothing<M>(p: Parsed<M>)
    ensures Behind([], p) == p
  {
    assert [] + p.msgs == p.msgs;
  }

  /** A message whose frame the receiver accepts: registered, marshalled, inverted, within the limit. */
  ghost predicate Sendable<M>(codec: Codec<M>, m: M, maxMsgSize: int) {
    && codec.typeId(m).Some? && codec.marshal(m).Some?
    && var id, data := codec.typeId(m).value, codec.marshal(m).value;
       0 <= id < U32_LIMIT && codec.registered(id) && codec.unmarshal(id, data) == Some(m) &&
       |data| + ID_SIZE <= maxMsgSize && |data| + ID_SIZE < U32_LIMIT
  }

  ghost function FrameOf<M>(codec: Codec<M>, m: M): seq<byte>
    requires codec.typeId(m).Some? && codec.marshal(m).Some?
  {
    Frame(codec.typeId(m).value, codec.marshal(m).value)
  }

  ghost function Stream<M>(codec: Codec<M>, ms: seq<M>, maxMsgSize: int): seq<byte>
    requires forall i :: 0 <= i < |ms| ==> Sendable(codec, ms[i], maxMsgSize)
  {
    if ms == [] then []
    else
      assert Sendable(codec, ms[0], maxMsgSize);
      FrameOf(codec, ms[0]) + Stream(codec, ms[1..], maxMsgSize)
  }

  /** Parsing what was encoded gives back exactly the messages, in order, with nothing left over. */
  lemma {:induction false} ParseInvertsEncode<M>(codec: Codec<M>, ms: seq<M>, maxMsgSize: int)
    requires forall i :: 0 <= i < |ms| ==> Sendable(codec, ms[i], maxMsgSize)
    ensures Parse(codec, Stream(codec, ms, maxMsgSize), maxMsgSize) == Parsed(ms, [], Waiting)
  {
    if ms != [] {
      var m := ms[0];
      assert Sendable(codec, m, maxMsgSize);
      var f, rest := FrameOf(codec, m), Stream(codec, ms[1..], maxMsgSize);
      RoundTrip(codec, m, codec.typeId(m).value, codec.marshal(m).value, rest, maxMsgSize);
      assert (f + rest)[|f|..] == rest;
      ParseInvertsEncode(codec, ms[1..], maxMsgSize);
      assert [m] + ms[1..] == ms;
    }
  }
}
