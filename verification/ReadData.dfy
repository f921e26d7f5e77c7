/** Reading a known number of bytes from a stream that delivers them in pieces, as both ends do. */
module ReadData {
  import opened Files

  /** The receiving end of a reliable byte stream: `pending` has been sent and not read yet. */
  class Stream {
    var pending: seq<Byte>

    constructor (pending: seq<Byte>)
      ensures this.pending == pending
    {
      this.pending := pending;
    }

    /** One read of at most `left` bytes into the buffer at `offset`; how many of them arrive is
        not known beforehand, but at least one does. */
    method Read(buf: array<Byte>, offset: nat, left: nat) returns (n: nat)
      requires 0 < left && offset + left <= buf.Length && pending != []
      modifies this, buf
      ensures 1 <= n <= left && n <= |old(pending)|
      ensures pending == old(pending)[n..]
      ensures buf[..] == old(buf[..offset]) + old(pending)[..n] + old(buf[offset + n..])
    {
      var most := if left < |pending| then left else |pending|;
      n :| 1 <= n <= most;
      forall i | 0 <= i < n { buf[offset + i] := pending[i]; }
      pending := pending[n..];
    }
  }

  /** Reads exactly `size` bytes, whatever the pieces: the buffer gets the next `size` bytes of the
      stream and the rest stays unread. The result is the size of the last piece; for `size` 0 the
      code reads nothing and returns a variable it never set, whose value is `unset` here. */
  method ReadData(s: Stream, buf: array<Byte>, size: nat, unset: int) returns (rbyte: int)
    requires size <= buf.Length && size <= |s.pending|
    modifies s, buf
    ensures buf[..size] == old(s.pending)[..size] && buf[size..] == old(buf[size..])
    ensures s.pending == old(s.pending)[size..]
    ensures if size == 0 then rbyte == unset else 1 <= rbyte <= size
  {
    rbyte := unset;
    var left := size;
    var offset := 0;
    while left > 0
      invariant offset + left == size
      invariant buf[..offset] == old(s.pending)[..offset] && buf[size..] == old(buf[size..])
      invariant s.pending == old(s.pending)[offset..]
      invariant if offset == 0 then rbyte == unset else 1 <= rbyte <= size
      decreases left
    {
      ghost var before := buf[..];
      var n := s.Read(buf, offset, left);
      assert buf[..offset + n] == before[..offset] + old(s.pending)[offset..][..n];
      assert buf[size..] == before[size..];
      rbyte := n;
      left := left - n;
      offset := offset + n;
    }
  }
}
