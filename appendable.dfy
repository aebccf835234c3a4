/** The accumulator for ciphertext an unwrap could not use yet
    (src/prj/sslfacade/AppendableBuffer.java).  It holds at most one buffer;
    `append` prepends what it holds to the next delivery and forgets it. */
module Appendable {
  import opened Lang
  import opened Nio

  /** calculateSize: the delivery's limit plus the capacity of what is held. */
  function CombinedSize(held: Option<Buf>, data: Buf): nat
  {
    data.limit + (if held.Some? then held.value.Capacity() else 0)
  }

  /** The bytes a held buffer contributes to the next append. */
  function HeldBytes(held: Option<Buf>): seq<byte>
    requires held.Some? ==> held.value.Wf()
  {
    if held.Some? then held.value.Unread() else []
  }

  /** append(data), as a value: a fresh buffer sized by CombinedSize into which
      the held bytes and then data's unread bytes are put.  It is not flipped. */
  function Combined(held: Option<Buf>, data: Buf): (r: Buf)
    requires held.Some? ==> held.value.Wf()
    requires data.Wf()
    ensures r.Wf() && r.Capacity() == CombinedSize(held, data) && r.limit == r.Capacity()
    ensures r.Written() == HeldBytes(held) + data.Unread()
    ensures r.position == |HeldBytes(held)| + data.Remaining()
  {
    var empty := Allocated(CombinedSize(held, data));
    var withHeld := if held.Some? then Appended(empty, held.value.Unread()) else empty;
    Appended(withHeld, data.Unread())
  }

  /** set(data), as a value: when data has bytes remaining, an exact copy of
      them, rewound; None when nothing remains, and then nothing is stored. */
  function Kept(data: Buf): (r: Option<Buf>)
    requires data.Wf()
    ensures r.Some? <==> data.Remaining() > 0
    ensures r.Some? ==> && r.value.Wf() && r.value.position == 0
                        && r.value.limit == r.value.Capacity() == data.Remaining()
                        && r.value.content == r.value.Unread() == data.Unread()
  {
    if data.Remaining() > 0 then
      var copy := Appended(Allocated(data.Remaining()), data.Unread());
      assert copy.content == copy.Written() + copy.content[copy.position..];
      Some(Rewound(copy))
    else
      None
  }

  /** What set stores comes back first, intact, from the next append:
      no byte is lost or reordered across a stored remainder. */
  lemma {:induction false} KeptThenCombined(stored: Buf, next: Buf)
    requires stored.Wf() && next.Wf() && stored.Remaining() > 0
    ensures Combined(Kept(stored), next).Written() == stored.Unread() + next.Unread()
    ensures Combined(Kept(stored), next).Capacity() == stored.Remaining() + next.limit
  {
  }

  class AppendableBuffer {
    /** The Java field `_`: the held buffer, or null. */
    var held: ByteBuffer?

    ghost function Repr(): set<object>
      reads this
    {
      if held == null then {this} else {this, held, held.hb}
    }

    ghost predicate Valid()
      reads this, held
    {
      held != null ==> held.Valid()
    }

    ghost function Held(): Option<Buf>
      reads this, Repr()
    {
      if held == null then None else Some(held.State())
    }

    constructor ()
      ensures Valid() && held == null
    {
      held := null;
    }

    predicate NotNull()
      reads this
    {
      held != null
    }

    function CalculateSize(data: ByteBuffer): (n: nat)
      reads this, Repr(), data, data.hb
      ensures n == CombinedSize(Held(), data.State())
    {
      data.limit + (if NotNull() then held.Capacity() else 0)
    }

    /** hasRemaining: true exactly when something is held that is not yet read. */
    predicate HasRemaining()
      reads this, held
    {
      if NotNull() then held.HasRemaining() else false
    }

    function Get(): ByteBuffer?
      reads this
    {
      held
    }

    method Clear()
      modifies this
      ensures held == null
    {
      held := null;
    }

    method Append(data: ByteBuffer) returns (nb: ByteBuffer)
      requires Valid() && data.Valid() && data !in Repr() && data.hb !in Repr()
      modifies this, Repr(), data
      ensures Valid() && held == null && !HasRemaining() && Get() == null
      ensures fresh(nb) && fresh(nb.hb) && nb.Valid()
      ensures nb.State() == Combined(old(Held()), old(data.State()))
      ensures data.Valid() && data.State() == Drained(old(data.State()))
    {
      nb := new ByteBuffer.Allocate(CalculateSize(data));
      if NotNull() {
        nb.Put(held);
        Clear();
      }
      nb.Put(data);
    }

    method Set(data: ByteBuffer)
      requires Valid() && data.Valid() && data !in Repr()
      modifies this, data
      ensures Valid() && data.Valid()
      ensures Kept(old(data.State())).Some? ==>
        fresh(held) && fresh(held.hb) && Held() == Kept(old(data.State()))
        && data.State() == Drained(old(data.State()))
      ensures Kept(old(data.State())).None? ==>
        held == old(held) && Held() == old(Held()) && data.State() == old(data.State())
    {
      if data.HasRemaining() {
        held := new ByteBuffer.Allocate(data.Remaining());
        held.Put(data);
        held.Rewind();
      }
    }
  }
}
