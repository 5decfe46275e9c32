/** example/codec/pb.go:43-90, PBReceiver: frames are cut out of one sliding receive buffer
    that is compacted in place and replaced by a larger one when a frame does not fit. */
module Receiver {
  import opened Bytes
  import opened Frames
  import PowerOfTwo

  const INITIAL_CAPACITY: int := 4096

  datatype Unpacked<+M> = Nothing | Unpacked(msg: M) | Failed(error: DecodeError) | Crashed

  class PbReceiver<M> {
    const codec: Codec<M>
    const maxpacket: int
    var buffer: array<byte>
    var w: int
    var r: int

    ghost predicate Valid()
      reads this
    {
      && 0 <= r <= w <= buffer.Length
      && (r == w ==> r == 0)
      && buffer.Length >= INITIAL_CAPACITY
    }

    /** The bytes received and not yet turned into messages. */
    ghost function Unread(): seq<byte>
      requires Valid()
      reads this, buffer
    {
      buffer[r..w]
    }

    constructor (codec: Codec<M>, maxMsgSize: int)
      ensures Valid() && fresh(buffer) && Unread() == [] && this.codec == codec && maxpacket == maxMsgSize
    {
      this.codec := codec;
      maxpacket := maxMsgSize;
      buffer := new byte[INITIAL_CAPACITY];
      w := 0;
      r := 0;
    }

    /** A read of at most the offered room: the transport fills buffer[w:], then OnData advances w. */
    method Receive(data: seq<byte>)
      requires Valid() && |data| <= buffer.Length - w
      modifies this`w, buffer
      ensures Valid() && Unread() == old(Unread()) + data
    {
      forall i | 0 <= i < |data| {
        buffer[w + i] := data[i];
      }
      w := w + |data|;
    }

    /** Moves buffer[r:w] to the front of dst. */
    method Compact(dst: array<byte>)
      requires Valid() && dst.Length >= w - r
      requires dst != buffer ==> dst.Length >= INITIAL_CAPACITY
      modifies this, dst
      ensures Valid() && Unread() == old(Unread()) && buffer == dst && r == 0 && w == old(w - r)
    {
      forall i | 0 <= i < w - r {
        dst[i] := buffer[r + i];
      }
      buffer := dst;
      w := w - r;
      r := 0;
    }

    /** Room for a frame of the given size, in place if it fits, and else in a larger buffer. */
    method MakeRoom(total: int)
      requires Valid() && w - r < total
      modifies this, buffer
      ensures Valid() && Unread() == old(Unread()) && r == 0 && total <= buffer.Length
      ensures if total <= old(buffer.Length) then buffer == old(buffer)
              else fresh(buffer) && buffer.Length == PowerOfTwo.SizeofPow2(total)
    {
      if total > buffer.Length {
        PowerOfTwo.SizeofPow2Least(total);
        var larger := new byte[PowerOfTwo.SizeofPow2(total)];
        Compact(larger);
      } else {
        Compact(buffer);
      }
    }

    /** Takes the first complete message, if there is one.  When there is none the buffer has room
        for more, and for the whole pending frame once its header is known. */
    method Unpack() returns (u: Unpacked<M>)
      requires Valid()
      modifies this, buffer
      ensures Valid() && (buffer == old(buffer) || fresh(buffer))
      ensures match Decoded(codec, old(Unread()), maxpacket)
              case Message(msg, size) => u == Unpacked(msg) && Unread() == old(Unread())[size..]
              case NeedHeader => u == Nothing && Unread() == old(Unread()) && w < buffer.Length
              case NeedBytes(total) =>
                u == Nothing && Unread() == old(Unread()) && r == 0 && w < total <= buffer.Length
              case Rejected(error) => u == Failed(error) && Unread() == old(Unread())
              case Panics => u == Crashed && Unread() == old(Unread())
      ensures u == Nothing && |Unread()| >= HEADER_SIZE ==>
                r == 0 && Uint32(Unread()[..4]) + HEADER_SIZE <= buffer.Length
      ensures buffer != old(buffer) ==>
                && |Unread()| >= HEADER_SIZE && Uint32(Unread()[..4]) + HEADER_SIZE > old(buffer.Length)
                && buffer.Length == PowerOfTwo.SizeofPow2(Uint32(Unread()[..4]) + HEADER_SIZE)
    {
      if r == w {
        return Nothing;
      }
      var o := Decode(codec, buffer, r, w, maxpacket);
      match o {
        case Message(msg, size) =>
          r := r + size;
          if r == w {
            r := 0;
            w := 0;
          }
          u := Unpacked(msg);
        case NeedHeader =>
          AsksExactly(codec, Unread(), maxpacket);
          Compact(buffer);
          u := Nothing;
        case NeedBytes(total) =>
          AsksExactly(codec, Unread(), maxpacket);
          MakeRoom(total);
          u := Nothing;
        case Rejected(error) => u := Failed(error);
        case Panics => u := Crashed;
      }
    }

    /** Unpack seen through Parse: it takes the parse of the unread bytes one message further. */
    method Advance() returns (u: Unpacked<M>)
      requires Valid()
      modifies this, buffer
      ensures Valid() && (buffer == old(buffer) || fresh(buffer))
      ensures var p, p' := Parse(codec, old(Unread()), maxpacket), Parse(codec, Unread(), maxpacket);
              match u
              case Unpacked(msg) => p == Behind([msg], p') && |Unread()| < |old(Unread())|
              case Nothing => p == Parsed([], Unread(), Waiting) && w < buffer.Length
              case _ => p == Parsed([], Unread(), Stopped)
    {
      u := Unpack();
    }

    /** The delivery loop of onRecvComplete: unpack until nothing is left or something is wrong. */
    method Drain() returns (msgs: seq<M>, ending: Ending)
      requires Valid()
      modifies this, buffer
      ensures Valid() && (buffer == old(buffer) || fresh(buffer))
      ensures Parse(codec, old(Unread()), maxpacket) == Parsed(msgs, Unread(), ending)
      ensures ending == Waiting ==> w < buffer.Length
    {
      msgs := [];
      ghost var p := Parse(codec, Unread(), maxpacket);
      BehindNothing(p);
      while true
        invariant Valid() && (buffer == old(buffer) || fresh(buffer))
        invariant p == Behind(msgs, Parse(codec, Unread(), maxpacket))
        decreases |Unread()|
      {
        var u := Advance();
        match u {
          case Unpacked(msg) =>
            BehindTwice(msgs, [msg], Parse(codec, Unread(), maxpacket));
            msgs := msgs + [msg];
          case Nothing => return msgs, Waiting;
          case Failed(_) => return msgs, Stopped;
          case Crashed => return msgs, Stopped;
        }
      }
    }

    /** One completed read: the bytes arrive, then everything complete is delivered. */
    method OnRecvComplete(data: seq<byte>) returns (msgs: seq<M>, ending: Ending)
      requires Valid() && |data| <= buffer.Length - w
      modifies this, buffer
      ensures Valid() && (buffer == old(buffer) || fresh(buffer))
      ensures Parse(codec, old(Unread()) + data, maxpacket) == Parsed(msgs, Unread(), ending)
      ensures ending == Waiting ==> w < buffer.Length
    {
      Receive(data);
      msgs, ending := Drain();
    }

    /** One read of k bytes at position pos of a stream whose first pos bytes have been handled. */
    method Read(stream: seq<byte>, pos: nat, k: nat, got: seq<M>) returns (msgs: seq<M>, ending: Ending)
      requires Valid() && pos + k <= |stream| && k <= buffer.Length - w
      requires Parse(codec, stream[..pos], maxpacket) == Parsed(got, Unread(), Waiting)
      modifies this, buffer
      ensures Valid() && (buffer == old(buffer) || fresh(buffer))
      ensures Parse(codec, stream[..pos + k], maxpacket) == Parsed(msgs, Unread(), ending)
      ensures ending == Waiting ==> w < buffer.Length
    {
      ghost var before := Unread();
      var more;
      more, ending := OnRecvComplete(stream[pos..pos + k]);
      PumpStep(codec, stream, pos, k, maxpacket, Parsed(got, before, Waiting), Parsed(more, Unread(), ending));
      msgs := got + more;
    }

    /** A read whose length cut chooses; when it is the last one, what has been delivered is what the
        whole stream says. */
    method ReadSome(stream: seq<byte>, pos: nat, cut: (nat, nat) -> nat, got: seq<M>)
      returns (next: nat, msgs: seq<M>, ending: Ending)
      requires Valid() && pos < |stream| && w < buffer.Length
      requires Parse(codec, stream[..pos], maxpacket) == Parsed(got, Unread(), Waiting)
      modifies this, buffer
      ensures Valid() && (buffer == old(buffer) || fresh(buffer)) && pos < next <= |stream|
      ensures ending == Waiting ==>
                w < buffer.Length && Parse(codec, stream[..next], maxpacket) == Parsed(msgs, Unread(), Waiting)
      ensures var p := Parse(codec, stream, maxpacket); ending == Stopped ==> p.msgs == msgs && p.ending == Stopped
    {
      var k := Chosen(cut(pos, buffer.Length - w), buffer.Length - w, |stream| - pos);
      msgs, ending := Read(stream, pos, k, got);
      next := pos + k;
      if ending == Stopped {
        ParseStops(codec, stream, next, maxpacket, msgs);
      }
    }

    /** Feeds a byte stream in reads chosen by cut, each limited by the room offered, and delivers
        after every read.  Whatever the cutting, what is delivered is what the stream says. */
    method Pump(stream: seq<byte>, cut: (nat, nat) -> nat) returns (msgs: seq<M>, ending: Ending)
      requires Valid() && Unread() == []
      modifies this, buffer
      ensures Valid()
      ensures var p := Parse(codec, stream, maxpacket);
              msgs == p.msgs && ending == p.ending && (ending == Waiting ==> Unread() == p.rest)
    {
      msgs, ending := [], Waiting;
      var pos: nat := 0;
      ParseEnds(codec, stream, maxpacket);
      while pos < |stream| && ending == Waiting
        invariant pos <= |stream| && Valid() && (buffer == old(buffer) || fresh(buffer))
        invariant ending == Waiting ==>
                    w < buffer.Length && Parse(codec, stream[..pos], maxpacket) == Parsed(msgs, Unread(), Waiting)
        invariant var p := Parse(codec, stream, maxpacket);
                  ending == Stopped ==> p.msgs == msgs && p.ending == Stopped
        decreases |stream| - pos
      {
        pos, msgs, ending := ReadSome(stream, pos, cut, msgs);
      }
    }
  }

  /** A read returns at least one byte and no more than fit or are left. */
  function Chosen(k: int, room: int, left: int): (n: int)
    requires room >= 1 && left >= 1
    ensures 1 <= n <= room && n <= left
  {
    var m := if room < left then room else left;
    if k < 1 then 1 else if k > m then m else k
  }

  /** Reading k more bytes of the stream resumes the parse of what was read before. */
  lemma PumpStep<M>(codec: Codec<M>, stream: seq<byte>, pos: nat, k: nat, maxpacket: int,
                    p: Parsed<M>, q: Parsed<M>)
    requires pos + k <= |stream| && p.ending == Waiting
    requires Parse(codec, stream[..pos], maxpacket) == p
    requires Parse(codec, p.rest + stream[pos..pos + k], maxpacket) == q
    ensures Parse(codec, stream[..pos + k], maxpacket) == Parsed(p.msgs + q.msgs, q.rest, q.ending)
  {
    assert stream[..pos + k] == stream[..pos] + stream[pos..pos + k];
    ParseResumes(codec, stream[..pos], stream[pos..pos + k], maxpacket);
  }

  /** Nothing is delivered at the start, and all of the stream at its end. */
  lemma ParseEnds<M>(codec: Codec<M>, stream: seq<byte>, maxpacket: int)
    ensures Parse(codec, stream[..0], maxpacket) == Parsed([], [], Waiting)
    ensures Parse(codec, stream[..|stream|], maxpacket) == Parse(codec, stream, maxpacket)
  {
    assert stream[..0] == [] && stream[..|stream|] == stream;
  }

  /** A parse that stopped is not changed by the rest of the stream. */
  lemma ParseStops<M>(codec: Codec<M>, stream: seq<byte>, pos: nat, maxpacket: int, msgs: seq<M>)
    requires pos <= |stream|
    requires var p := Parse(codec, stream[..pos], maxpacket); p.msgs == msgs && p.ending == Stopped
    ensures var p := Parse(codec, stream, maxpacket); p.msgs == msgs && p.ending == Stopped
  {
    assert stream == stream[..pos] + stream[pos..];
    ParseResumes(codec, stream[..pos], stream[pos..], maxpacket);
  }

  /** Chunk independence, end to end: encoded messages come out exactly, in order, however the
      bytes are cut into reads. */
  method Deliver<M>(codec: Codec<M>, ms: seq<M>, maxMsgSize: int, stream: seq<byte>, cut: (nat, nat) -> nat)
    returns (msgs: seq<M>)
    requires forall i :: 0 <= i < |ms| ==> Sendable(codec, ms[i], maxMsgSize)
    requires stream == Stream(codec, ms, maxMsgSize)
    ensures msgs == ms
  {
    var receiver := new PbReceiver<M>(codec, maxMsgSize);
    var ending;
    msgs, ending := receiver.Pump(stream, cut);
    ParseInvertsEncode(codec, ms, maxMsgSize);
  }
}
