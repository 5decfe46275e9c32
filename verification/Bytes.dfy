/** buffer/buffer.go: the growing byte buffer, its big-endian appends, and the reader. */
module Bytes {
  import opened Optional

  type byte = x: int | 0 <= x < 256

  const U32_LIMIT: int := 0x1_0000_0000

  /** binary.BigEndian.PutUint32: the digits of u in base 256, highest first. */
  function PutUint32(u: int): (b: seq<byte>)
    requires 0 <= u < U32_LIMIT
    ensures |b| == 4 && Uint32(b) == u
  {
    var u1 := u / 256;
    var u2 := u1 / 256;
    var u3 := u2 / 256;
    [u3, u2 % 256, u1 % 256, u % 256]
  }

  /** binary.BigEndian.Uint32 */
  function Uint32(b: seq<byte>): (u: int)
    requires |b| == 4
    ensures 0 <= u < U32_LIMIT
  {
    (((b[0] as int) * 256 + b[1] as int) * 256 + b[2] as int) * 256 + b[3] as int
  }

  /** Four bytes and their value determine each other. */
  lemma Uint32Injective(b: seq<byte>)
    requires |b| == 4
    ensures PutUint32(Uint32(b)) == b
  {
    var u2 := (b[0] as int) * 256 + b[1] as int;
    var u1 := u2 * 256 + b[2] as int;
    assert u1 / 256 == u2 && u2 / 256 == b[0] && (u1 * 256 + b[3] as int) / 256 == u1;
  }

  /** What DropFirstNBytes leaves: a count outside 1..len changes nothing. */
  function Dropped(bs: seq<byte>, n: int): seq<byte> {
    if 0 < n <= |bs| then bs[n..] else bs
  }

  class Buffer {
    var bs: seq<byte>

    constructor ()
      ensures bs == []
    {
      bs := [];
    }

    method AppendBytes(bytes: seq<byte>)
      modifies this
      ensures bs == old(bs) + bytes
    {
      bs := bs + bytes;
    }

    method AppendUint32(u: int)
      requires 0 <= u < U32_LIMIT
      modifies this
      ensures bs == old(bs) + PutUint32(u)
    {
      AppendBytes(PutUint32(u));
    }

    method Reset()
      modifies this
      ensures bs == []
    {
      bs := bs[..0];
    }

    /** Keeps the first l bytes; a longer length changes nothing. */
    method SetLen(l: int)
      requires l >= 0
      modifies this
      ensures bs == if l <= |old(bs)| then old(bs)[..l] else old(bs)
    {
      if l < |bs| {
        bs := bs[..l];
      }
    }

    method DropFirstNBytes(n: int)
      modifies this
      ensures bs == Dropped(old(bs), n)
    {
      if n > 0 && n <= |bs| {
        if n == |bs| {
          bs := bs[..0];
        } else {
          var kept := bs[n..] + bs[|bs| - n..];  // copy(bs, bs[n:]) moves the tail to the front
          bs := kept[..|bs| - n];
        }
      }
    }
  }

  class Reader {
    const bs: seq<byte>
    var offset: int

    ghost predicate Valid()
      reads this
    {
      0 <= offset <= |bs|
    }

    constructor (bs: seq<byte>)
      ensures Valid() && this.bs == bs && offset == 0
    {
      this.bs := bs;
      offset := 0;
    }

    /** Zero, without moving, when fewer than four bytes are left. */
    method GetUint32() returns (u: int)
      requires Valid()
      modifies this
      ensures Valid() && 0 <= u < U32_LIMIT
      ensures old(offset) + 4 > |bs| ==> u == 0 && offset == old(offset)
      ensures old(offset) + 4 <= |bs| ==> u == Uint32(bs[old(offset)..old(offset) + 4]) && offset == old(offset) + 4
    {
      if offset + 4 > |bs| {
        u := 0;
      } else {
        u := Uint32(bs[offset..offset + 4]);
        offset := offset + 4;
      }
    }

    /** At most size bytes.  None is a slice-bounds panic, which a negative size causes. */
    method GetBytes(size: int) returns (b: Option<seq<byte>>)
      requires Valid()
      modifies this
      ensures Valid()
      ensures size < 0 ==> b == None && offset == old(offset)
      ensures size >= 0 ==>
                var n := if |bs| - old(offset) < size then |bs| - old(offset) else size;
                b == Some(bs[old(offset)..old(offset) + n]) && offset == old(offset) + n
    {
      var n := size;
      if |bs| - offset < n {
        n := |bs| - offset;
      }
      if offset + n < offset {
        return None;
      }
      b := Some(bs[offset..offset + n]);
      offset := offset + n;
    }
  }
}
