/** A stand-in for java.nio.ByteBuffer: a fixed array with a position and a
    limit, 0 <= position <= limit <= capacity.  `Buf` is the value a buffer
    holds at one instant; the class `ByteBuffer` is the mutable object, and
    each of its methods is specified by a `Buf` function (`flip` by Flipped,
    `compact` by Compacted, `put` by Appended, and so on). */
module Nio {
  import opened Lang

  type byte = bv8

  function Zeros(n: nat): (z: seq<byte>)
    ensures |z| == n && forall i :: 0 <= i < n ==> z[i] == 0
  {
    seq(n, _ => 0)
  }

  /** The state of a buffer: its backing bytes, position and limit. */
  datatype Buf = Buf(content: seq<byte>, position: nat, limit: nat)
  {
    predicate Wf() { position <= limit <= |content| }

    function Capacity(): nat { |content| }

    function Remaining(): nat
      requires Wf()
    {
      limit - position
    }

    /** The bytes a relative get would read next: [position, limit). */
    function Unread(): seq<byte>
      requires Wf()
    {
      content[position..limit]
    }

    /** The bytes a writer has put so far: [0, position). */
    function Written(): seq<byte>
      requires Wf()
    {
      content[..position]
    }
  }

  /** ByteBuffer.allocate(n): zero-filled, position 0, limit n. */
  function Allocated(n: nat): (r: Buf)
    ensures r.Wf() && r.Capacity() == n && r.Written() == [] && r.Remaining() == n
  {
    Buf(Zeros(n), 0, n)
  }

  /** flip(): what was written becomes what will be read. */
  function Flipped(b: Buf): (r: Buf)
    requires b.Wf()
    ensures r.Wf() && r.content == b.content
    ensures r.position == 0 && r.Unread() == b.Written()
  {
    Buf(b.content, 0, b.position)
  }

  /** clear(): position 0, limit capacity; the bytes stay. */
  function Cleared(b: Buf): (r: Buf)
    ensures r.Wf() && r.content == b.content && r.Written() == [] && r.Remaining() == r.Capacity()
  {
    Buf(b.content, 0, |b.content|)
  }

  /** rewind(): position 0, limit kept, so everything before the limit is unread again. */
  function Rewound(b: Buf): (r: Buf)
    requires b.Wf()
    ensures r.Wf() && r.content == b.content && r.limit == b.limit
    ensures r.Unread() == b.content[..b.limit]
  {
    Buf(b.content, 0, b.limit)
  }

  /** position(n): IllegalArgumentException (None) when n > limit. */
  function Positioned(b: Buf, n: nat): (r: Option<Buf>)
    requires b.Wf()
    ensures r.Some? <==> n <= b.limit
    ensures r.Some? ==> r.value.Wf() && r.value.content == b.content && r.value.limit == b.limit
                        && r.value.Written() == b.content[..n]
  {
    if n <= b.limit then Some(Buf(b.content, n, b.limit)) else None
  }

  /** compact(): the unread bytes move to offset 0, position becomes their
      count, limit becomes capacity; the bytes after them are left as they were. */
  function Compacted(b: Buf): (r: Buf)
    requires b.Wf()
    ensures r.Wf() && r.Capacity() == b.Capacity()
    ensures r.Written() == b.Unread() && r.limit == r.Capacity()
    ensures r.content[r.position..] == b.content[r.position..]
  {
    var n := b.limit - b.position;
    Buf(b.content[b.position..b.limit] + b.content[n..], n, |b.content|)
  }

  /** The content after writing `data` at position `at`. */
  function Overwrite(content: seq<byte>, at: nat, data: seq<byte>): (r: seq<byte>)
    requires at + |data| <= |content|
    ensures |r| == |content|
    ensures r[..at] == content[..at] && r[at..at + |data|] == data
    ensures r[at + |data|..] == content[at + |data|..]
  {
    content[..at] + data + content[at + |data|..]
  }

  /** put(bytes): appends after the position; BufferOverflowException when
      there is no room, which the callers in this model never allow. */
  function Appended(b: Buf, data: seq<byte>): (r: Buf)
    requires b.Wf() && |data| <= b.Remaining()
    ensures r.Wf() && r.Capacity() == b.Capacity() && r.limit == b.limit
    ensures r.Written() == b.Written() + data
    ensures r.content[r.position..] == b.content[r.position..]
  {
    Buf(Overwrite(b.content, b.position, data), b.position + |data|, b.limit)
  }

  /** The state of `src` after dst.put(src) has drained it. */
  function Drained(src: Buf): (r: Buf)
    requires src.Wf()
    ensures r.Wf() && r.content == src.content && r.limit == src.limit && r.Remaining() == 0
  {
    Buf(src.content, src.limit, src.limit)
  }

  /** A mutable byte buffer over a fixed backing array. */
  class ByteBuffer {
    const hb: array<byte>
    var position: nat
    var limit: nat

    ghost predicate Valid()
      reads this
    {
      position <= limit <= hb.Length
    }

    function State(): (b: Buf)
      reads this, hb
      ensures Valid() ==> b.Wf()
    {
      Buf(hb[..], position, limit)
    }

    function Capacity(): nat
    {
      hb.Length
    }

    function Remaining(): nat
      reads this
      requires Valid()
    {
      limit - position
    }

    predicate HasRemaining()
      reads this
    {
      position < limit
    }

    /** ByteBuffer.allocate(capacity). */
    constructor Allocate(capacity: nat)
      ensures Valid() && fresh(hb)
      ensures State() == Allocated(capacity)
    {
      hb := new byte[capacity](_ => 0);
      position, limit := 0, capacity;
    }

    /** ByteBuffer.wrap(data): reads `data` from its start. */
    constructor Wrap(data: seq<byte>)
      ensures Valid() && fresh(hb)
      ensures State() == Buf(data, 0, |data|)
    {
      hb := new byte[|data|](i requires 0 <= i < |data| => data[i]);
      position, limit := 0, |data|;
    }

    method Flip()
      requires Valid()
      modifies this
      ensures Valid() && State() == Flipped(old(State()))
    {
      limit := position;
      position := 0;
    }

    method Clear()
      requires Valid()
      modifies this
      ensures Valid() && State() == Cleared(old(State()))
    {
      position, limit := 0, hb.Length;
    }

    method Rewind()
      requires Valid()
      modifies this
      ensures Valid() && State() == Rewound(old(State()))
    {
      position := 0;
    }

    /** position(n); returns false where Java throws IllegalArgumentException,
        and then nothing changes. */
    method SetPosition(n: nat) returns (ok: bool)
      requires Valid()
      modifies this
      ensures Valid()
      ensures ok == Positioned(old(State()), n).Some?
      ensures State() == if ok then Positioned(old(State()), n).value else old(State())
    {
      ok := n <= limit;
      if ok {
        position := n;
      }
    }

    method Compact()
      requires Valid()
      modifies this, hb
      ensures Valid() && State() == Compacted(old(State()))
    {
      var unread := hb[position..limit];
      forall i | 0 <= i < |unread| {
        hb[i] := unread[i];
      }
      position, limit := |unread|, hb.Length;
    }

    method PutBytes(data: seq<byte>)
      requires Valid() && |data| <= Remaining()
      modifies this, hb
      ensures Valid() && State() == Appended(old(State()), data)
    {
      forall i | 0 <= i < |data| {
        hb[position + i] := data[i];
      }
      position := position + |data|;
    }

    /** put(src): copies src's unread bytes here and drains src. */
    method Put(src: ByteBuffer)
      requires Valid() && src.Valid() && src != this && src.hb != hb
      requires src.Remaining() <= Remaining()
      modifies this, hb, src
      ensures Valid() && src.Valid()
      ensures State() == Appended(old(State()), old(src.State()).Unread())
      ensures src.State() == Drained(old(src.State()))
    {
      var data := src.hb[src.position..src.limit];
      PutBytes(data);
      src.position := src.limit;
    }

    /** Stands for code that is not part of this model: it may leave the
        buffer in any valid state, with any position, limit and bytes. */
    method Unspecified()
      requires Valid()
      modifies this, hb
      ensures Valid()
    {
      var current := hb[..];
      var bytes: seq<byte> :| |bytes| == |current|;
      forall i | 0 <= i < hb.Length {
        hb[i] := bytes[i];
      }
      var p: nat, l: nat :| p <= l <= hb.Length;
      position, limit := p, l;
    }

    /** get(dst, 0, n): reads the next n bytes; BufferUnderflowException when
        fewer remain, which the callers in this model never allow. */
    method GetBytes(n: nat) returns (data: seq<byte>)
      requires Valid() && n <= Remaining()
      modifies this
      ensures Valid() && data == old(State()).Unread()[..n]
      ensures State() == old(State()).(position := old(position) + n)
    {
      data := hb[position..position + n];
      position := position + n;
    }
  }
}
