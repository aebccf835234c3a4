/** The four role-tagged buffers that drive one SSLEngine, and their
    grow-or-compact policy (src/prj/sslfacade/Buffers.java). */
module Buffers {
  import opened Nio
  import opened SslEngine

  /** IN_* hold data from the peer, OUT_* data for the peer. */
  datatype BufferType = IN_PLAIN | IN_CIPHER | OUT_PLAIN | OUT_CIPHER

  /** The size the session recommends for the role `manage` resizes:
      the application size for plaintext, the packet size for ciphertext. */
  function Recommended(session: Session, t: BufferType): nat
  {
    if t == IN_PLAIN || t == OUT_PLAIN then session.applicationBufferSize
    else session.packetBufferSize
  }

  /** grow(n, b): a new zero-filled buffer of capacity n that holds what had
      been written into b, ready for more writing. */
  function Grown(b: Buf, n: nat): (r: Buf)
    requires b.Wf() && b.position <= n
    ensures r.Wf() && r.Capacity() == n && r.limit == n
    ensures r.Written() == b.Written()
    ensures forall i :: r.position <= i < n ==> r.content[i] == 0
  {
    Appended(Allocated(n), Flipped(b).Unread())
  }

  /** growOrCompact: a bigger buffer when the recommended size exceeds the
      capacity, otherwise the same buffer compacted. */
  function GrownOrCompacted(b: Buf, recommended: nat): (r: Buf)
    requires b.Wf()
    ensures r.Wf() && r.limit == r.Capacity()
    ensures r.Capacity() >= b.Capacity()
    ensures recommended > b.Capacity() ==> r.Capacity() == recommended && r.Written() == b.Written()
    ensures recommended <= b.Capacity() ==> r.Capacity() == b.Capacity() && r.Written() == b.Unread()
  {
    if recommended > b.Capacity() then Grown(b, recommended) else Compacted(b)
  }

  class Buffers {
    var peerApp: ByteBuffer
    var myApp: ByteBuffer
    var peerNet: ByteBuffer
    var myNet: ByteBuffer
    const session: Session

    function Get(t: BufferType): (b: ByteBuffer)
      reads this
    {
      match t
      case IN_PLAIN => peerApp
      case IN_CIPHER => peerNet
      case OUT_PLAIN => myApp
      case OUT_CIPHER => myNet
    }

    /** The fields of the roles outside `moved` still hold the buffers given. */
    ghost predicate OnlyMoved(moved: set<BufferType>, pa: ByteBuffer, ma: ByteBuffer, pn: ByteBuffer, mn: ByteBuffer)
      reads this
    {
      && (IN_PLAIN !in moved ==> peerApp == pa)
      && (OUT_PLAIN !in moved ==> myApp == ma)
      && (IN_CIPHER !in moved ==> peerNet == pn)
      && (OUT_CIPHER !in moved ==> myNet == mn)
    }

    /** Every role holds the buffer it held before or a newly allocated one
        over a newly allocated array. */
    twostate predicate Renewed()
      reads this
    {
      && (peerApp == old(peerApp) || (fresh(peerApp) && fresh(peerApp.hb)))
      && (myApp == old(myApp) || (fresh(myApp) && fresh(myApp.hb)))
      && (peerNet == old(peerNet) || (fresh(peerNet) && fresh(peerNet.hb)))
      && (myNet == old(myNet) || (fresh(myNet) && fresh(myNet.hb)))
    }

    /** The objects this instance owns, including buffers it has since replaced. */
    ghost var Repr: set<object>

    /** Each buffer is well formed, and no two roles share a buffer or a backing array. */
    ghost predicate Valid()
      reads this, Repr
    {
      && this in Repr
      && peerApp in Repr && myApp in Repr && peerNet in Repr && myNet in Repr
      && peerApp.hb in Repr && myApp.hb in Repr && peerNet.hb in Repr && myNet.hb in Repr
      && peerApp.Valid() && myApp.Valid() && peerNet.Valid() && myNet.Valid()
      && peerApp != myApp && peerApp != peerNet && peerApp != myNet
      && myApp != peerNet && myApp != myNet && peerNet != myNet
      && peerApp.hb != myApp.hb && peerApp.hb != peerNet.hb && peerApp.hb != myNet.hb
      && myApp.hb != peerNet.hb && myApp.hb != myNet.hb && peerNet.hb != myNet.hb
    }

    constructor (session: Session)
      ensures Valid() && fresh(Repr - {this}) && this.session == session
      ensures peerApp.State() == Allocated(session.applicationBufferSize)
      ensures myApp.State() == Allocated(session.applicationBufferSize)
      ensures peerNet.State() == Allocated(session.packetBufferSize)
      ensures myNet.State() == Allocated(session.packetBufferSize)
    {
      this.session := session;
      peerApp := new ByteBuffer.Allocate(session.applicationBufferSize);
      myApp := new ByteBuffer.Allocate(session.applicationBufferSize);
      peerNet := new ByteBuffer.Allocate(session.packetBufferSize);
      myNet := new ByteBuffer.Allocate(session.packetBufferSize);
      new;
      Repr := {this, peerApp, peerApp.hb, myApp, myApp.hb, peerNet, peerNet.hb, myNet, myNet.hb};
    }

    /** Roles never alias: a buffer belongs to exactly one role. */
    lemma RolesDistinct(t: BufferType, u: BufferType)
      requires Valid() && t != u
      ensures Get(t) != Get(u) && Get(t).hb != Get(u).hb
      ensures Get(t) in Repr && Get(t).hb in Repr
    {
    }

    /** manage(t): the role's buffer is grown or compacted; OUT_PLAIN is left alone. */
    method Manage(t: BufferType)
      requires Valid()
      modifies this, Get(t), Get(t).hb
      ensures Valid() && fresh(Repr - old(Repr)) && Renewed()
      ensures OnlyMoved({t}, old(peerApp), old(myApp), old(peerNet), old(myNet))
      ensures t == OUT_PLAIN ==> Get(t) == old(Get(t)) && Get(t).State() == old(Get(t).State())
      ensures t != OUT_PLAIN ==>
        Get(t).State() == GrownOrCompacted(old(Get(t).State()), Recommended(session, t))
      ensures t != OUT_PLAIN && Recommended(session, t) > old(Get(t).Capacity()) ==> fresh(Get(t))
      ensures t != OUT_PLAIN && Recommended(session, t) <= old(Get(t).Capacity()) ==> Get(t) == old(Get(t))
    {
      if t == OUT_PLAIN {
        // No known reason for this case to occur.
        return;
      }
      var b := GrowOrCompact(t, Recommended(session, t));
      SetRole(t, b);
      ReprGrew(b);
      RenewedRole(t);
    }

    /** Repr grew by a buffer that it held before or that is new. */
    twostate lemma ReprGrew(new b: ByteBuffer)
      requires Repr == old(Repr) + {b, b.hb}
      requires (b in old(Repr) && b.hb in old(Repr)) || (fresh(b) && fresh(b.hb))
      ensures fresh(Repr - old(Repr))
    {
    }

    /** Only role t moved, to a buffer it held before or a new one. */
    twostate lemma RenewedRole(t: BufferType)
      requires OnlyMoved({t}, old(peerApp), old(myApp), old(peerNet), old(myNet))
      requires Get(t) == old(Get(t)) || (fresh(Get(t)) && fresh(Get(t).hb))
      ensures Renewed()
    {
    }

    /** Puts b in role t; b is the role's old buffer or a new one. */
    method SetRole(t: BufferType, b: ByteBuffer)
      requires Valid() && b.Valid()
      requires b == Get(t) || (b !in Repr && b.hb !in Repr)
      modifies this
      ensures Valid() && Repr == old(Repr) + {b, b.hb}
      ensures Get(t) == b && OnlyMoved({t}, old(peerApp), old(myApp), old(peerNet), old(myNet))
    {
      Repr := Repr + {b, b.hb};
      match t
      case IN_PLAIN => peerApp := b;
      case IN_CIPHER => peerNet := b;
      case OUT_PLAIN => myApp := b;
      case OUT_CIPHER => myNet := b;
    }

    method GrowOrCompact(t: BufferType, recommended: nat) returns (b: ByteBuffer)
      requires Valid()
      modifies Get(t), Get(t).hb
      ensures Valid() && b.Valid() && b.State() == GrownOrCompacted(old(Get(t).State()), recommended)
      ensures recommended > old(Get(t).Capacity()) ==> fresh(b) && fresh(b.hb)
      ensures recommended <= old(Get(t).Capacity()) ==> b == Get(t)
    {
      var original := Get(t);
      if recommended > original.Capacity() {
        b := GrowTo(recommended, original);
      } else {
        b := Compact(original);
      }
    }

    /** compact(b): compacts b in place and returns it. */
    method Compact(original: ByteBuffer) returns (b: ByteBuffer)
      requires original.Valid()
      modifies original, original.hb
      ensures b == original && b.Valid()
      ensures b.State() == Compacted(old(original.State()))
    {
      original.Compact();
      b := original;
    }

    /** grow(n, b): allocates n bytes, flips b and copies it in. */
    method GrowTo(recommended: nat, original: ByteBuffer) returns (b: ByteBuffer)
      requires original.Valid() && recommended > original.Capacity()
      modifies original
      ensures fresh(b) && fresh(b.hb) && b.Valid() && original.Valid()
      ensures b.State() == Grown(old(original.State()), recommended)
    {
      b := new ByteBuffer.Allocate(recommended);
      original.Flip();
      b.Put(original);
    }

    /** Replaces or disturbs one role's buffer in a way this model does not
        know: it stands for the bodies below, which Buffers.java does not have. */
    method Disturb(t: BufferType)
      requires Valid()
      modifies this, Get(t), Get(t).hb
      ensures Valid() && fresh(Repr - old(Repr)) && Renewed()
      ensures OnlyMoved({t}, old(peerApp), old(myApp), old(peerNet), old(myNet))
    {
      var replace: bool := *;
      if replace {
        var capacity: nat := *;
        var nb := new ByteBuffer.Allocate(capacity);
        nb.Unspecified();
        Repr := Repr + {nb, nb.hb};
        match t
        case IN_PLAIN => peerApp := nb;
        case IN_CIPHER => peerNet := nb;
        case OUT_PLAIN => myApp := nb;
        case OUT_CIPHER => myNet := nb;
      } else {
        Get(t).Unspecified();
      }
    }

    /** prepareForWrap(plainData): touches OUT_PLAIN and OUT_CIPHER only. */
    method PrepareForWrap(plainData: ByteBuffer?)
      requires Valid()
      modifies this, myApp, myApp.hb, myNet, myNet.hb
      ensures Valid() && fresh(Repr - old(Repr)) && Renewed()
      ensures peerApp == old(peerApp) && peerNet == old(peerNet)
    {
      Disturb(OUT_PLAIN);
      Disturb(OUT_CIPHER);
    }

    /** prepareForUnwrap(data): touches IN_CIPHER and IN_PLAIN only. */
    method PrepareForUnwrap(data: ByteBuffer?)
      requires Valid()
      modifies this, peerNet, peerNet.hb, peerApp, peerApp.hb
      ensures Valid() && fresh(Repr - old(Repr)) && Renewed()
      ensures myApp == old(myApp) && myNet == old(myNet)
    {
      Disturb(IN_CIPHER);
      Disturb(IN_PLAIN);
    }

    /** prepareRetrial(src, dest): touches the two roles named. */
    method PrepareRetrial(src: BufferType, dest: BufferType)
      requires Valid()
      modifies this, Get(src), Get(src).hb, Get(dest), Get(dest).hb
      ensures Valid() && fresh(Repr - old(Repr)) && Renewed()
      ensures OnlyMoved({src, dest}, old(peerApp), old(myApp), old(peerNet), old(myNet))
    {
      Disturb(src);
      Disturb(dest);
    }

    /** grow(t): touches that role only. */
    method Grow(t: BufferType)
      requires Valid()
      modifies this, Get(t), Get(t).hb
      ensures Valid() && fresh(Repr - old(Repr)) && Renewed()
      ensures OnlyMoved({t}, old(peerApp), old(myApp), old(peerNet), old(myNet))
    {
      Disturb(t);
    }

    /** copy(from, to): touches the two buffers named and nothing else. */
    method Copy(from: ByteBuffer, to: ByteBuffer)
      requires from.Valid() && to.Valid() && from != to && from.hb != to.hb
      modifies from, from.hb, to, to.hb
      ensures from.Valid() && to.Valid()
    {
      from.Unspecified();
      to.Unspecified();
    }
  }
}
