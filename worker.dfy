/** One wrap or unwrap against the engine, with the retry policy for
    BUFFER_OVERFLOW and BUFFER_UNDERFLOW (src/prj/sslfacade/Worker.java).
    A run of retries is specified by the engine results it saw: WrapRun and
    UnwrapRun say, round by round, whether the code retries and how it ends. */
module Work {
  import opened Lang
  import opened Nio
  import opened SslEngine
  import opened Buffers
  import opened Appendable

  /** What the SSLListener was handed: always a snapshot buffer of its own. */
  datatype Emission = WrappedData(buffer: ByteBuffer) | PlainData(buffer: ByteBuffer)

  const WrapUnderflowMessage := "BUFFER_UNDERFLOW while wrapping!"

  predicate Exchanges(calls: seq<EngineCall>)
  {
    forall i | 0 <= i < |calls| :: calls[i].Wrapped? || calls[i].Unwrapped?
  }

  function Results(calls: seq<EngineCall>): (rs: seq<EngineResult>)
    requires Exchanges(calls)
    ensures |rs| == |calls| && forall i | 0 <= i < |calls| :: rs[i] == calls[i].result
  {
    if calls == [] then [] else [calls[0].result] + Results(calls[1..])
  }

  /** The results of a log read from `a` on start with the call at `a`. */
  lemma ResultsFrom(log: seq<EngineCall>, a: nat, b: nat)
    requires a < b <= |log| && b == a + 1 && Exchanges(log[a..])
    ensures Exchanges(log[b..])
    ensures Results(log[a..]) == [log[a].result] + Results(log[b..])
  {
    assert log[a..][1..] == log[b..];
  }

  /** The head and tail of a result list built by one more round. */
  lemma ConsTail(r: EngineResult, rs: seq<EngineResult>)
    ensures ([r] + rs)[0] == r && ([r] + rs)[1..] == rs
  {
  }

  /** How many results produced bytes, i.e. how many snapshots a listener receives. */
  function Producing(rs: seq<EngineResult>): nat
  {
    if rs == [] then 0 else (if rs[0].bytesProduced > 0 then 1 else 0) + Producing(rs[1..])
  }

  /** compact(data, result) as a value: position(bytesConsumed) then compact();
      None where position(n) throws IllegalArgumentException.  Which bytes
      land where is stated by RepositionedBytes. */
  function Repositioned(b: Buf, consumed: nat): (r: Option<Buf>)
    requires b.Wf()
    ensures r.Some? <==> consumed <= b.limit
    ensures r.Some? ==> r.value.Wf() && r.value.Capacity() == b.Capacity() && r.value.limit == r.value.Capacity()
                        && r.value.position == b.limit - consumed
  {
    match Positioned(b, consumed)
    case None => None
    case Some(p) => Some(Compacted(p))
  }

  /** compact(data, result) moves the unconsumed bytes [consumed, limit) to
      offset 0 and leaves the buffer in write mode: what a reader would read
      next, [position, limit), is the original's bytes from limit - consumed on. */
  lemma RepositionedBytes(b: Buf, consumed: nat)
    requires b.Wf() && consumed <= b.limit
    ensures Repositioned(b, consumed).value.Written() == b.content[consumed..b.limit]
    ensures Repositioned(b, consumed).value.Unread() == b.content[b.limit - consumed..]
  {
    var c := Compacted(Positioned(b, consumed).value);
    assert c.content[c.position..] == b.content[c.position..];
  }

  /** One round of wrap: None when the code retries, else how wrap ends.
      `limit` is the limit of the caller's plainData, None when it is null. */
  function WrapRound(r: EngineResult, hasListener: bool, limit: Option<nat>): Option<Outcome>
  {
    if r.bytesProduced > 0 && !hasListener then Some(Thrown(NullPointerException))
    else
      match r.status
      case BUFFER_UNDERFLOW => Some(Thrown(RuntimeException(WrapUnderflowMessage)))
      case BUFFER_OVERFLOW =>
        if limit.None? then Some(Thrown(NullPointerException))
        else if r.bytesConsumed > limit.value then Some(Thrown(IllegalArgumentException))
        else None
      case OK => Some(Normal)
      case CLOSED => Some(Normal)
  }

  /** A whole wrap: every round but the last retries; the last decides the
      outcome, and a run cut short by the step bound ends OutOfFuel.  After a
      compaction the plainData's limit is its capacity. */
  predicate WrapRun(limit: Option<nat>, capacity: nat, rs: seq<EngineResult>, hasListener: bool, outcome: Outcome)
    decreases |rs|
  {
    if rs == [] then outcome == OutOfFuel
    else
      match WrapRound(rs[0], hasListener, limit)
      case None => WrapRun(Some(capacity), capacity, rs[1..], hasListener, outcome)
      case Some(o) => |rs| == 1 && outcome == o
  }

  /** The caller's plainData after a whole wrap: each round that retries
      compacts it by what that round consumed; the round that ends the wrap
      leaves it as it is. */
  function WrapInputAfter(b: Buf, rs: seq<EngineResult>, hasListener: bool): (r: Buf)
    requires b.Wf()
    ensures r.Wf() && r.Capacity() == b.Capacity()
    decreases |rs|
  {
    if rs == [] then b
    else
      match WrapRound(rs[0], hasListener, Some(b.limit))
      case None => WrapInputAfter(Repositioned(b, rs[0].bytesConsumed).value, rs[1..], hasListener)
      case Some(_) => b
  }

  /** One round of unwrap: None when the code retries, else how unwrap ends.
      `limit` is the limit of the combined input. */
  function UnwrapRound(r: EngineResult, hasListener: bool, limit: nat): Option<Outcome>
  {
    if r.bytesProduced > 0 && !hasListener then Some(Thrown(NullPointerException))
    else
      match r.status
      case BUFFER_UNDERFLOW =>
        if r.bytesConsumed > limit then Some(Thrown(IllegalArgumentException)) else Some(Normal)
      case BUFFER_OVERFLOW =>
        if r.bytesConsumed > limit then Some(Thrown(IllegalArgumentException)) else None
      case OK => Some(Normal)
      case CLOSED => Some(Normal)
  }

  /** What the recursive unwrap offers after an overflow: the input's LAST
      `consumed` bytes, written into zeros of the same capacity.  That this is
      the accumulator's append of the compacted input is RetriedIsAppendOfCompacted. */
  function Retried(c: Buf, consumed: nat): (r: Buf)
    requires c.Wf() && consumed <= c.limit && c.limit == c.Capacity()
    ensures r.Wf() && r.Capacity() == c.Capacity() && r.limit == r.Capacity()
  {
    Buf(c.content[c.limit - consumed..] + Zeros(c.limit - consumed), consumed, c.limit)
  }

  /** What the accumulator keeps after an underflow: the input's LAST
      `consumed` bytes, nothing when nothing was consumed.  That this is set()
      of the compacted input is RemainderIsSetOfCompacted. */
  function Remainder(c: Buf, consumed: nat): (r: Option<Buf>)
    requires c.Wf() && consumed <= c.limit && c.limit == c.Capacity()
    ensures r.Some? <==> consumed > 0
    ensures r.Some? ==> r.value.Wf() && r.value.position == 0 && r.value.limit == r.value.Capacity() == consumed
  {
    if consumed > 0 then Some(Buf(c.content[c.limit - consumed..], 0, consumed)) else None
  }

  /** The overflow retry appends compact(data, result) to an empty accumulator,
      so it offers the input's last `consumed` bytes, not its unconsumed suffix. */
  lemma {:induction false} RetriedIsAppendOfCompacted(c: Buf, consumed: nat)
    requires c.Wf() && consumed <= c.limit && c.limit == c.Capacity()
    ensures Retried(c, consumed) == Combined(None, Repositioned(c, consumed).value)
  {
    var x := Repositioned(c, consumed).value;
    RepositionedBytes(c, consumed);
    assert Combined(None, x) == Appended(Allocated(c.limit), x.Unread());
    AppendedToZeros(c.limit, x.Unread());
  }

  /** Bytes appended to a fresh buffer sit before the zeros it was filled with. */
  lemma AppendedToZeros(n: nat, u: seq<byte>)
    requires |u| <= n
    ensures Appended(Allocated(n), u) == Buf(u + Zeros(n - |u|), |u|, n)
  {
    var a := Appended(Allocated(n), u);
    assert a.content[|u|..] == Zeros(n - |u|);
    assert a.content == a.Written() + a.content[|u|..];
  }

  /** The underflow arm's set() of compact(data, result) keeps the input's
      last `consumed` bytes, not the unconsumed suffix [consumed, limit). */
  lemma {:induction false} RemainderIsSetOfCompacted(c: Buf, consumed: nat)
    requires c.Wf() && consumed <= c.limit && c.limit == c.Capacity()
    ensures Remainder(c, consumed) == Kept(Repositioned(c, consumed).value)
  {
    RepositionedBytes(c, consumed);
  }

  /** A whole unwrap from the combined input `c`: every round but the last
      retries on the re-appended input; the last decides the outcome and what
      the accumulator holds afterwards. */
  predicate UnwrapRun(c: Buf, rs: seq<EngineResult>, hasListener: bool, outcome: Outcome, pending: Option<Buf>)
    requires c.Wf() && c.limit == c.Capacity()
    decreases |rs|
  {
    if rs == [] then outcome == OutOfFuel && pending.None?
    else
      match UnwrapRound(rs[0], hasListener, c.limit)
      case None => UnwrapRun(Retried(c, rs[0].bytesConsumed), rs[1..], hasListener, outcome, pending)
      case Some(o) =>
        && |rs| == 1 && outcome == o
        && pending == if rs[0].status == BUFFER_UNDERFLOW && o == Normal then Remainder(c, rs[0].bytesConsumed) else None
  }

  /** wrap retries only on BUFFER_OVERFLOW: every round but the last of a
      run reported an overflow; a wrap that returns normally ended on OK or
      CLOSED; without a listener it returns normally only if no round produced
      bytes; and it runs out of steps only when its last round retried. */
  lemma {:induction false} WrapRunShape(limit: Option<nat>, capacity: nat, rs: seq<EngineResult>, hasListener: bool, outcome: Outcome)
    requires WrapRun(limit, capacity, rs, hasListener, outcome)
    ensures forall i | 0 <= i < |rs| - 1 :: rs[i].status == BUFFER_OVERFLOW
    ensures outcome == Normal ==> rs != [] && (rs[|rs| - 1].status == OK || rs[|rs| - 1].status == CLOSED)
    ensures outcome == Normal && !hasListener ==> forall i | 0 <= i < |rs| :: rs[i].bytesProduced == 0
    ensures outcome == OutOfFuel ==> rs == [] || rs[|rs| - 1].status == BUFFER_OVERFLOW
    decreases |rs|
  {
    if rs != [] && WrapRound(rs[0], hasListener, limit).None? {
      WrapRunShape(Some(capacity), capacity, rs[1..], hasListener, outcome);
      assert forall i | 1 <= i < |rs| :: rs[i] == rs[1..][i - 1];
    }
  }

  /** wrap(null) cannot survive an overflow: the retry compacts the null
      plainData and throws NullPointerException. */
  lemma NullWrapOverflowThrows(capacity: nat, rs: seq<EngineResult>, hasListener: bool, outcome: Outcome)
    requires WrapRun(None, capacity, rs, hasListener, outcome)
    requires rs != [] && rs[0].status == BUFFER_OVERFLOW && (hasListener || rs[0].bytesProduced == 0)
    ensures outcome == Thrown(NullPointerException) && |rs| == 1
  {
  }

  /** unwrap retries only on BUFFER_OVERFLOW: every round but the last of a
      run reported an overflow, and without a listener it returns normally
      only if no round produced bytes. */
  lemma {:induction false} UnwrapRetriesOnlyOnOverflow(c: Buf, rs: seq<EngineResult>, hasListener: bool, outcome: Outcome, pending: Option<Buf>)
    requires c.Wf() && c.limit == c.Capacity()
    requires UnwrapRun(c, rs, hasListener, outcome, pending)
    ensures forall i | 0 <= i < |rs| - 1 :: rs[i].status == BUFFER_OVERFLOW
    ensures outcome == Normal && !hasListener ==> forall i | 0 <= i < |rs| :: rs[i].bytesProduced == 0
    decreases |rs|
  {
    if rs != [] && UnwrapRound(rs[0], hasListener, c.limit).None? {
      UnwrapRetriesOnlyOnOverflow(Retried(c, rs[0].bytesConsumed), rs[1..], hasListener, outcome, pending);
      assert forall i | 1 <= i < |rs| :: rs[i] == rs[1..][i - 1];
    }
  }

  /** The accumulator keeps something only after a last round of
      BUFFER_UNDERFLOW that consumed bytes and returned normally; an unwrap
      that ends on OK or CLOSED leaves it empty. */
  lemma {:induction false} UnwrapPending(c: Buf, rs: seq<EngineResult>, hasListener: bool, outcome: Outcome, pending: Option<Buf>)
    requires c.Wf() && c.limit == c.Capacity()
    requires UnwrapRun(c, rs, hasListener, outcome, pending)
    ensures pending.Some? ==>
      && rs != [] && rs[|rs| - 1].status == BUFFER_UNDERFLOW
      && rs[|rs| - 1].bytesConsumed > 0 && outcome == Normal
    ensures rs != [] && (rs[|rs| - 1].status == OK || rs[|rs| - 1].status == CLOSED) ==> pending.None?
    decreases |rs|
  {
    if rs != [] && UnwrapRound(rs[0], hasListener, c.limit).None? {
      UnwrapPending(Retried(c, rs[0].bytesConsumed), rs[1..], hasListener, outcome, pending);
    }
  }

  /** An underflow that consumed nothing keeps nothing: the bytes that were
      held and delivered are dropped, though the engine asked for more. */
  lemma UnderflowWithoutConsumingDropsInput(c: Buf, r: EngineResult, hasListener: bool, outcome: Outcome, pending: Option<Buf>)
    requires c.Wf() && c.limit == c.Capacity() && c.Written() != []
    requires r.status == BUFFER_UNDERFLOW && r.bytesConsumed == 0
    requires UnwrapRun(c, [r], hasListener, outcome, pending)
    ensures pending.None?
  {
  }

  /** The input [1, 2, 3] of which the engine consumed one byte before
      reporting BUFFER_UNDERFLOW: the accumulator keeps [3], its last byte,
      where the unconsumed bytes are [2, 3]. */
  lemma {:induction false} UnderflowKeepsLastBytes()
    ensures Kept(Repositioned(Buf([1, 2, 3], 3, 3), 1).value) == Some(Buf([3], 0, 1))
    ensures Buf([1, 2, 3], 3, 3).content[1..3] == [2, 3]
  {
    var c := Buf([1, 2, 3], 3, 3);
    RemainderIsSetOfCompacted(c, 1);
    assert c.content[2..] == [3];
  }

  class Worker {
    const engine: SSLEngine
    const buffers: Buffers
    const pendingUnwrapData: AppendableBuffer
    /** Whether the host has set an SSLListener; the listener itself is host code. */
    var hasListener: bool
    /** Everything handed to the listener, in order. */
    var emitted: seq<Emission>

    /** The objects this worker owns: the engine, the buffers and the
        accumulator with everything they own. */
    ghost var Repr: set<object>

    ghost predicate Valid()
      reads this, Repr
    {
      && this in Repr && engine in Repr && buffers in Repr && pendingUnwrapData in Repr
      && buffers.Repr <= Repr && pendingUnwrapData.Repr() <= Repr
      && this !in buffers.Repr && this !in pendingUnwrapData.Repr()
      && engine !in buffers.Repr && engine !in pendingUnwrapData.Repr()
      && buffers.Repr !! pendingUnwrapData.Repr()
      && buffers.Valid() && pendingUnwrapData.Valid()
    }

    /** A buffer the caller hands in: well formed and not one of ours. */
    ghost predicate Foreign(b: ByteBuffer?)
      reads this, b
    {
      b != null ==> b.Valid() && b !in Repr && b.hb !in Repr
    }

    constructor (engine: SSLEngine, buffers: Buffers)
      requires buffers.Valid() && engine !in buffers.Repr
      ensures Valid() && this.engine == engine && this.buffers == buffers
      ensures fresh(Repr - {engine} - buffers.Repr)
      ensures fresh(pendingUnwrapData) && pendingUnwrapData.held == null
      ensures !hasListener && emitted == []
    {
      this.engine := engine;
      this.buffers := buffers;
      pendingUnwrapData := new AppendableBuffer();
      hasListener := false;
      emitted := [];
      new;
      Repr := {this, engine, buffers} + buffers.Repr + pendingUnwrapData.Repr();
    }

    /** setSSLListener(l): `listener` says whether l is non-null; a null l
        detaches the listener, and the next round that produces bytes then
        throws NullPointerException. */
    method SetSSLListener(listener: bool)
      requires Valid()
      modifies this
      ensures Valid() && Repr == old(Repr) && hasListener == listener && emitted == old(emitted)
      ensures pendingUnwrapData.Held() == old(pendingUnwrapData.Held())
    {
      hasListener := listener;
    }

    method BeginHandshake()
      requires Valid()
      modifies engine
      ensures Valid()
      ensures engine.log == old(engine.log) + [BeganHandshake]
    {
      engine.BeginHandshake();
    }

    method GetHandshakeStatus() returns (hs: HandshakeStatus)
      requires Valid()
      modifies engine
      ensures Valid()
      ensures hs == old(engine.handshakeStatus) && engine.delegatedTasks == old(engine.delegatedTasks)
      ensures engine.log == old(engine.log) + [StatusPolled(hs)]
    {
      hs := engine.GetHandshakeStatus();
    }

    method GetDelegatedTask() returns (t: Option<Task>)
      modifies engine
      ensures t == if old(engine.delegatedTasks) == [] then None else Some(old(engine.delegatedTasks)[0])
      ensures engine.delegatedTasks == if old(engine.delegatedTasks) == [] then [] else old(engine.delegatedTasks)[1..]
      ensures engine.log == old(engine.log) + [TaskPolled(t)]
    {
      t := engine.GetDelegatedTask();
    }

    method LoadUnwrapPayload(data: ByteBuffer?)
      requires Valid()
      modifies this, buffers, buffers.peerNet, buffers.peerNet.hb, buffers.peerApp, buffers.peerApp.hb
      ensures Valid() && fresh(Repr - old(Repr)) && buffers.Renewed()
      ensures buffers.myApp == old(buffers.myApp) && buffers.myNet == old(buffers.myNet)
    {
      buffers.PrepareForUnwrap(data);
      Repr := Repr + buffers.Repr;
    }

    /** handleBufferOverflow(src, dest): prepareRetrial on both roles, then grow(dest).
        Nothing in the core calls it; its contract is about the buffers alone. */
    method HandleBufferOverflow(src: BufferType, dest: BufferType)
      requires buffers.Valid()
      modifies buffers, buffers.Get(src), buffers.Get(src).hb, buffers.Get(dest), buffers.Get(dest).hb
      ensures buffers.Valid() && fresh(buffers.Repr - old(buffers.Repr)) && buffers.Renewed()
      ensures buffers.OnlyMoved({src, dest}, old(buffers.peerApp), old(buffers.myApp), old(buffers.peerNet), old(buffers.myNet))
    {
      buffers.PrepareRetrial(src, dest);
      buffers.Grow(dest);
    }

    /** doWrap: OUT_PLAIN is the source, OUT_CIPHER the destination. */
    method DoWrap() returns (r: EngineResult)
      requires Valid()
      modifies engine, buffers.myApp, buffers.myNet, buffers.myNet.hb
      ensures pendingUnwrapData.Held() == old(pendingUnwrapData.Held())
      ensures Valid()
      ensures engine.log == old(engine.log) + [Wrapped(buffers.Get(OUT_PLAIN), buffers.Get(OUT_CIPHER), old(buffers.Get(OUT_PLAIN).State()).Unread(), r)]
    {
      var plainText := buffers.Get(OUT_PLAIN);
      var cipherText := buffers.Get(OUT_CIPHER);
      r := engine.Wrap(plainText, cipherText);
    }

    /** doUnwrap: IN_CIPHER is the source, IN_PLAIN the destination. */
    method DoUnwrap() returns (r: EngineResult)
      requires Valid()
      modifies engine, buffers.peerNet, buffers.peerApp, buffers.peerApp.hb
      ensures Valid()
      ensures engine.log == old(engine.log) + [Unwrapped(buffers.Get(IN_CIPHER), buffers.Get(IN_PLAIN), old(buffers.Get(IN_CIPHER).State()).Unread(), r)]
    {
      var cipherText := buffers.Get(IN_CIPHER);
      var plainText := buffers.Get(IN_PLAIN);
      r := engine.Unwrap(cipherText, plainText);
    }

    /** makeExternalBuffer: a new buffer of the internal buffer's limit, filled by copy. */
    method MakeExternalBuffer(internal: ByteBuffer) returns (nb: ByteBuffer)
      requires Valid() && internal in {buffers.peerApp, buffers.myApp, buffers.peerNet, buffers.myNet}
      modifies internal, internal.hb
      ensures Valid() && fresh(nb) && fresh(nb.hb) && nb.Valid()
      ensures nb.Capacity() == old(internal.limit)
    {
      nb := new ByteBuffer.Allocate(internal.limit);
      buffers.Copy(internal, nb);
    }

    /** emitAnyWrappedData: a snapshot of OUT_CIPHER goes to the listener iff
        bytes were produced; never the internal buffer itself. */
    method EmitAnyWrappedData(r: EngineResult) returns (outcome: Outcome)
      requires Valid()
      modifies this, buffers.myNet, buffers.myNet.hb
      ensures pendingUnwrapData.Held() == old(pendingUnwrapData.Held())
      ensures Valid() && Repr == old(Repr) && hasListener == old(hasListener)
      ensures outcome == (if r.bytesProduced > 0 && !hasListener then Thrown(NullPointerException) else Normal)
      ensures r.bytesProduced > 0 && hasListener ==>
        && |emitted| == |old(emitted)| + 1 && emitted[..|old(emitted)|] == old(emitted)
        && emitted[|old(emitted)|].WrappedData? && fresh(emitted[|old(emitted)|].buffer)
        && emitted[|old(emitted)|].buffer.Capacity() == old(buffers.myNet.limit)
      ensures !(r.bytesProduced > 0 && hasListener) ==> emitted == old(emitted)
      ensures r.bytesProduced == 0 ==> unchanged(buffers.myNet)
    {
      outcome := Normal;
      if r.bytesProduced > 0 {
        var internalCipherBuffer := buffers.Get(OUT_CIPHER);
        var external := MakeExternalBuffer(internalCipherBuffer);
        if !hasListener {
          return Thrown(NullPointerException);
        }
        emitted := emitted + [WrappedData(external)];
      }
    }

    /** emitAnyPlainData: a snapshot of IN_PLAIN goes to the listener iff
        bytes were produced; never the internal buffer itself. */
    method EmitAnyPlainData(r: EngineResult) returns (outcome: Outcome)
      requires Valid()
      modifies this, buffers.peerApp, buffers.peerApp.hb
      ensures Valid() && Repr == old(Repr) && hasListener == old(hasListener)
      ensures outcome == (if r.bytesProduced > 0 && !hasListener then Thrown(NullPointerException) else Normal)
      ensures r.bytesProduced > 0 && hasListener ==>
        && |emitted| == |old(emitted)| + 1 && emitted[..|old(emitted)|] == old(emitted)
        && emitted[|old(emitted)|].PlainData? && fresh(emitted[|old(emitted)|].buffer)
        && emitted[|old(emitted)|].buffer.Capacity() == old(buffers.peerApp.limit)
      ensures !(r.bytesProduced > 0 && hasListener) ==> emitted == old(emitted)
      ensures r.bytesProduced == 0 ==> unchanged(buffers.peerApp)
    {
      outcome := Normal;
      if r.bytesProduced > 0 {
        var internalPlainBuffer := buffers.Get(IN_PLAIN);
        var external := MakeExternalBuffer(internalPlainBuffer);
        if !hasListener {
          return Thrown(NullPointerException);
        }
        emitted := emitted + [PlainData(external)];
      }
    }

    /** compact(data, result): position(bytesConsumed), then compact(). */
    method Compact(data: ByteBuffer, r: EngineResult) returns (ok: bool)
      requires Valid() && Foreign(data)
      modifies data, data.hb
      ensures Valid() && Foreign(data)
      ensures ok == Repositioned(old(data.State()), r.bytesConsumed).Some?
      ensures data.State() == if ok then Repositioned(old(data.State()), r.bytesConsumed).value else old(data.State())
    {
      ok := data.SetPosition(r.bytesConsumed);
      if ok {
        data.Compact();
      }
    }

    /** The first half of a wrap round: prepareForWrap, then doWrap. */
    method PrepareAndWrap(plainData: ByteBuffer?) returns (r: EngineResult)
      requires Valid()
      modifies Repr
      ensures pendingUnwrapData.Held() == old(pendingUnwrapData.Held())
      ensures Valid() && fresh(Repr - old(Repr))
      ensures hasListener == old(hasListener) && emitted == old(emitted)
      ensures |engine.log| == |old(engine.log)| + 1 && engine.log[|old(engine.log)|].Wrapped?
      ensures engine.log == old(engine.log) + [Wrapped(buffers.Get(OUT_PLAIN), buffers.Get(OUT_CIPHER), engine.log[|old(engine.log)|].offered, r)]
    {
      buffers.PrepareForWrap(plainData);
      Repr := Repr + buffers.Repr;
      r := DoWrap();
    }

    /** pendingUnwrapData.append(data): the combined input, a new buffer. */
    method AppendPending(encryptedData: ByteBuffer) returns (combined: ByteBuffer)
      requires Valid() && Foreign(encryptedData)
      modifies pendingUnwrapData.Repr(), encryptedData
      ensures Valid() && Repr == old(Repr)
      ensures hasListener == old(hasListener) && emitted == old(emitted)
      ensures fresh(combined) && fresh(combined.hb) && Foreign(combined)
      ensures combined.State() == Combined(old(pendingUnwrapData.Held()), old(encryptedData.State()))
      ensures pendingUnwrapData.held == null
      ensures Foreign(encryptedData) && encryptedData.State() == Drained(old(encryptedData.State()))
    {
      combined := pendingUnwrapData.Append(encryptedData);
    }

    /** prepareForUnwrap, then doUnwrap. */
    method PrepareAndUnwrap(combined: ByteBuffer) returns (r: EngineResult)
      requires Valid()
      modifies Repr
      ensures Valid() && fresh(Repr - old(Repr))
      ensures hasListener == old(hasListener) && emitted == old(emitted)
      ensures pendingUnwrapData.held == old(pendingUnwrapData.held)
      ensures |engine.log| == |old(engine.log)| + 1 && engine.log[|old(engine.log)|].Unwrapped?
      ensures engine.log == old(engine.log) + [Unwrapped(buffers.Get(IN_CIPHER), buffers.Get(IN_PLAIN), engine.log[|old(engine.log)|].offered, r)]
    {
      buffers.PrepareForUnwrap(combined);
      Repr := Repr + buffers.Repr;
      r := DoUnwrap();
    }

    /** grow(t) as the retry path calls it. */
    method GrowRole(t: BufferType)
      requires Valid()
      modifies Repr
      ensures pendingUnwrapData.Held() == old(pendingUnwrapData.Held())
      ensures Valid() && fresh(Repr - old(Repr))
      ensures hasListener == old(hasListener) && emitted == old(emitted) && engine.log == old(engine.log)
      ensures pendingUnwrapData.held == old(pendingUnwrapData.held)
    {
      buffers.Grow(t);
      Repr := Repr + buffers.Repr;
    }

    /** The arms of unwrap that do not retry.  BUFFER_UNDERFLOW: compact the
        combined input, then set() the accumulator from it.  OK: clear the
        accumulator.  CLOSED: nothing (append already emptied it). */
    method Settle(combined: ByteBuffer, r: EngineResult) returns (outcome: Outcome)
      requires Valid() && Foreign(combined) && pendingUnwrapData.held == null
      requires combined.limit == combined.Capacity() && r.status != BUFFER_OVERFLOW
      modifies Repr, combined, combined.hb
      ensures Valid() && fresh(Repr - old(Repr))
      ensures hasListener == old(hasListener) && emitted == old(emitted) && engine.log == old(engine.log)
      ensures outcome == if r.status == BUFFER_UNDERFLOW && r.bytesConsumed > old(combined.limit)
                         then Thrown(IllegalArgumentException) else Normal
      ensures pendingUnwrapData.Held() ==
        if r.status == BUFFER_UNDERFLOW && outcome == Normal then Remainder(old(combined.State()), r.bytesConsumed) else None
    {
      outcome := Normal;
      if r.status == BUFFER_UNDERFLOW {
        ghost var input := combined.State();
        var ok := Compact(combined, r);
        if !ok {
          return Thrown(IllegalArgumentException);
        }
        RemainderIsSetOfCompacted(input, r.bytesConsumed);
        pendingUnwrapData.Set(combined);
        Repr := Repr + pendingUnwrapData.Repr();
      } else if r.status == OK {
        pendingUnwrapData.Clear();
      }
    }

    /** wrap(plainData), with `fuel` bounding the overflow recursion. */
    method Wrap(plainData: ByteBuffer?, fuel: nat) returns (outcome: Outcome)
      requires Valid() && Foreign(plainData)
      modifies Repr, if plainData == null then {} else {plainData, plainData.hb}
      ensures pendingUnwrapData.Held() == old(pendingUnwrapData.Held())
      ensures old(engine.log) <= engine.log
      ensures var calls := engine.log[|old(engine.log)|..];
        && (forall i | 0 <= i < |calls| :: calls[i].Wrapped?)
        && (fuel == 0 <==> calls == [])
        && WrapRun(if plainData == null then None else Some(old(plainData.limit)),
                   if plainData == null then 0 else plainData.Capacity(),
                   Results(calls), hasListener, outcome)
        && |emitted| == |old(emitted)| + (if hasListener then Producing(Results(calls)) else 0)
      ensures plainData != null ==>
        && Foreign(plainData)
        && plainData.State() == WrapInputAfter(old(plainData.State()), Results(engine.log[|old(engine.log)|..]), hasListener)
      ensures Valid() && fresh(Repr - old(Repr)) && hasListener == old(hasListener)
      ensures old(emitted) <= emitted
      ensures forall i | |old(emitted)| <= i < |emitted| ::
        emitted[i].WrappedData? && emitted[i].buffer !in Repr
      decreases fuel, 3
    {
      if fuel == 0 {
        return OutOfFuel;
      }
      ghost var log0 := engine.log;
      var result := PrepareAndWrap(plainData);
      ghost var log1 := engine.log;
      outcome := AfterWrap(plainData, result, fuel);
      ResultsFrom(engine.log, |log0|, |log1|);
    }

    /** The rest of a wrap round once the engine has answered `result`:
        emit, then fail, retry or finish by the status. */
    method AfterWrap(plainData: ByteBuffer?, result: EngineResult, fuel: nat) returns (outcome: Outcome)
      requires Valid() && Foreign(plainData) && fuel > 0
      modifies Repr, if plainData == null then {} else {plainData, plainData.hb}
      ensures pendingUnwrapData.Held() == old(pendingUnwrapData.Held())
      ensures old(engine.log) <= engine.log
      ensures var calls := engine.log[|old(engine.log)|..];
        && (forall i | 0 <= i < |calls| :: calls[i].Wrapped?)
        && (fuel == 1 ==> calls == [])
        && WrapRun(if plainData == null then None else Some(old(plainData.limit)),
                   if plainData == null then 0 else plainData.Capacity(),
                   [result] + Results(calls), hasListener, outcome)
        && |emitted| == |old(emitted)| + (if hasListener then Producing([result] + Results(calls)) else 0)
      ensures plainData != null ==>
        && Foreign(plainData)
        && plainData.State() == WrapInputAfter(old(plainData.State()), [result] + Results(engine.log[|old(engine.log)|..]), hasListener)
      ensures Valid() && fresh(Repr - old(Repr)) && hasListener == old(hasListener)
      ensures old(emitted) <= emitted
      ensures forall i | |old(emitted)| <= i < |emitted| ::
        emitted[i].WrappedData? && emitted[i].buffer !in Repr
      decreases fuel, 2
    {
      outcome := EmitAnyWrappedData(result);
      if outcome == Normal {
        outcome := OnWrapStatus(plainData, result, fuel);
      }
      ConsTail(result, Results(engine.log[|old(engine.log)|..]));
    }

    /** The status switch of wrap, after the emission went through. */
    method OnWrapStatus(plainData: ByteBuffer?, result: EngineResult, fuel: nat) returns (outcome: Outcome)
      requires Valid() && Foreign(plainData) && fuel > 0
      requires result.bytesProduced > 0 ==> hasListener
      modifies Repr, if plainData == null then {} else {plainData, plainData.hb}
      ensures pendingUnwrapData.Held() == old(pendingUnwrapData.Held())
      ensures old(engine.log) <= engine.log
      ensures var calls := engine.log[|old(engine.log)|..];
        && (forall i | 0 <= i < |calls| :: calls[i].Wrapped?)
        && (fuel == 1 ==> calls == [])
        && WrapRun(if plainData == null then None else Some(old(plainData.limit)),
                   if plainData == null then 0 else plainData.Capacity(),
                   [result] + Results(calls), hasListener, outcome)
        && |emitted| == |old(emitted)| + (if hasListener then Producing(Results(calls)) else 0)
      ensures plainData != null ==>
        && Foreign(plainData)
        && plainData.State() == WrapInputAfter(old(plainData.State()), [result] + Results(engine.log[|old(engine.log)|..]), hasListener)
      ensures Valid() && fresh(Repr - old(Repr)) && hasListener == old(hasListener)
      ensures old(emitted) <= emitted
      ensures forall i | |old(emitted)| <= i < |emitted| ::
        emitted[i].WrappedData? && emitted[i].buffer !in Repr
      decreases fuel, 1
    {
      outcome := Normal;
      if result.status == BUFFER_UNDERFLOW {
        outcome := Thrown(RuntimeException(WrapUnderflowMessage));
      } else if result.status == BUFFER_OVERFLOW {
        outcome := RetryWrap(plainData, result, fuel);
      }
      ConsTail(result, Results(engine.log[|old(engine.log)|..]));
    }

    /** The BUFFER_OVERFLOW arm of wrap: grow(OUT_CIPHER), compact the
        caller's plainData (a NullPointerException when there is none, as in
        the handshake's wrap(null)), then wrap again. */
    method RetryWrap(plainData: ByteBuffer?, result: EngineResult, fuel: nat) returns (outcome: Outcome)
      requires Valid() && Foreign(plainData) && fuel > 0
      modifies Repr, if plainData == null then {} else {plainData, plainData.hb}
      ensures pendingUnwrapData.Held() == old(pendingUnwrapData.Held())
      ensures old(engine.log) <= engine.log
      ensures var calls := engine.log[|old(engine.log)|..];
        && (forall i | 0 <= i < |calls| :: calls[i].Wrapped?)
        && (plainData == null ==> outcome == Thrown(NullPointerException) && calls == [])
        && (plainData != null && result.bytesConsumed > old(plainData.limit) ==>
              outcome == Thrown(IllegalArgumentException) && calls == [])
        && (plainData != null && result.bytesConsumed <= old(plainData.limit) ==>
              && (fuel == 1 <==> calls == [])
              && WrapRun(Some(plainData.Capacity()), plainData.Capacity(), Results(calls), hasListener, outcome))
        && |emitted| == |old(emitted)| + (if hasListener then Producing(Results(calls)) else 0)
      ensures plainData != null ==> Foreign(plainData)
      ensures plainData != null && result.bytesConsumed > old(plainData.limit) ==> plainData.State() == old(plainData.State())
      ensures plainData != null && result.bytesConsumed <= old(plainData.limit) ==>
        plainData.State() == WrapInputAfter(Repositioned(old(plainData.State()), result.bytesConsumed).value, Results(engine.log[|old(engine.log)|..]), hasListener)
      ensures Valid() && fresh(Repr - old(Repr)) && hasListener == old(hasListener)
      ensures old(emitted) <= emitted
      ensures forall i | |old(emitted)| <= i < |emitted| ::
        emitted[i].WrappedData? && emitted[i].buffer !in Repr
      decreases fuel, 0
    {
      GrowRole(OUT_CIPHER);
      if plainData == null {
        return Thrown(NullPointerException);
      }
      var ok := Compact(plainData, result);
      if !ok {
        return Thrown(IllegalArgumentException);
      }
      outcome := Wrap(plainData, fuel - 1);
    }

    /** unwrap(encryptedData); `fuel` bounds the number of engine calls.
        A null encryptedData throws NullPointerException in the
        accumulator's calculateSize, before any engine call. */
    method Unwrap(encryptedData: ByteBuffer?, fuel: nat) returns (outcome: Outcome)
      requires Valid() && Foreign(encryptedData) && fuel > 0
      modifies Repr, if encryptedData == null then {} else {encryptedData}
      ensures Valid() && fresh(Repr - old(Repr)) && hasListener == old(hasListener)
      ensures old(engine.log) <= engine.log
      ensures encryptedData == null ==>
        && outcome == Thrown(NullPointerException)
        && engine.log == old(engine.log) && emitted == old(emitted)
        && pendingUnwrapData.Held() == old(pendingUnwrapData.Held())
      ensures encryptedData != null ==>
        Foreign(encryptedData) && encryptedData.State() == Drained(old(encryptedData.State()))
      ensures encryptedData != null ==> var calls := engine.log[|old(engine.log)|..];
        && (forall i | 0 <= i < |calls| :: calls[i].Unwrapped?)
        && UnwrapRun(Combined(old(pendingUnwrapData.Held()), old(encryptedData.State())),
                     Results(calls), hasListener, outcome, pendingUnwrapData.Held())
        && |emitted| == |old(emitted)| + (if hasListener then Producing(Results(calls)) else 0)
      ensures old(emitted) <= emitted
      ensures forall i | |old(emitted)| <= i < |emitted| ::
        emitted[i].PlainData? && emitted[i].buffer !in Repr
      decreases fuel, 4
    {
      if encryptedData == null {
        return Thrown(NullPointerException);
      }
      var combined := AppendPending(encryptedData);
      outcome := UnwrapCombined(combined, fuel);
    }

    /** An unwrap round on the combined input. */
    method UnwrapCombined(combined: ByteBuffer, fuel: nat) returns (outcome: Outcome)
      requires Valid() && Foreign(combined) && fuel > 0 && pendingUnwrapData.held == null
      requires combined.limit == combined.Capacity()
      modifies Repr, combined, combined.hb
      ensures Valid() && fresh(Repr - old(Repr)) && hasListener == old(hasListener)
      ensures old(engine.log) <= engine.log
      ensures var calls := engine.log[|old(engine.log)|..];
        && (forall i | 0 <= i < |calls| :: calls[i].Unwrapped?)
        && UnwrapRun(old(combined.State()), Results(calls), hasListener, outcome, pendingUnwrapData.Held())
        && |emitted| == |old(emitted)| + (if hasListener then Producing(Results(calls)) else 0)
      ensures old(emitted) <= emitted
      ensures forall i | |old(emitted)| <= i < |emitted| ::
        emitted[i].PlainData? && emitted[i].buffer !in Repr
      decreases fuel, 2
    {
      ghost var log0 := engine.log;
      var result;
      result, outcome := UnwrapAndEmit(combined);
      ghost var log1 := engine.log;
      assert pendingUnwrapData.held == null && combined.State() == old(combined.State());
      if outcome == Normal {
        outcome := OnUnwrapStatus(combined, result, fuel);
      }
      ResultsFrom(engine.log, |log0|, |log1|);
    }

    /** prepareForUnwrap, doUnwrap, then emitAnyPlainData. */
    method UnwrapAndEmit(combined: ByteBuffer) returns (r: EngineResult, outcome: Outcome)
      requires Valid() && Foreign(combined)
      modifies Repr
      ensures Valid() && fresh(Repr - old(Repr)) && hasListener == old(hasListener)
      ensures pendingUnwrapData.held == old(pendingUnwrapData.held)
      ensures |engine.log| == |old(engine.log)| + 1 && engine.log[..|old(engine.log)|] == old(engine.log)
      ensures engine.log[|old(engine.log)|].Unwrapped? && engine.log[|old(engine.log)|].result == r
      ensures outcome == if r.bytesProduced > 0 && !hasListener then Thrown(NullPointerException) else Normal
      ensures |emitted| == |old(emitted)| + (if hasListener && r.bytesProduced > 0 then 1 else 0)
      ensures old(emitted) <= emitted
      ensures forall i | |old(emitted)| <= i < |emitted| ::
        emitted[i].PlainData? && emitted[i].buffer !in Repr
    {
      r := PrepareAndUnwrap(combined);
      outcome := EmitAnyPlainData(r);
    }

    /** The status switch of unwrap, after the emission went through. */
    method OnUnwrapStatus(combined: ByteBuffer, result: EngineResult, fuel: nat) returns (outcome: Outcome)
      requires Valid() && Foreign(combined) && fuel > 0 && pendingUnwrapData.held == null
      requires combined.limit == combined.Capacity()
      requires result.bytesProduced > 0 ==> hasListener
      modifies Repr, combined, combined.hb
      ensures Valid() && fresh(Repr - old(Repr)) && hasListener == old(hasListener)
      ensures old(engine.log) <= engine.log
      ensures var calls := engine.log[|old(engine.log)|..];
        && (forall i | 0 <= i < |calls| :: calls[i].Unwrapped?)
        && UnwrapRun(old(combined.State()), [result] + Results(calls), hasListener, outcome, pendingUnwrapData.Held())
        && |emitted| == |old(emitted)| + (if hasListener then Producing(Results(calls)) else 0)
      ensures old(emitted) <= emitted
      ensures forall i | |old(emitted)| <= i < |emitted| ::
        emitted[i].PlainData? && emitted[i].buffer !in Repr
      decreases fuel, 1
    {
      if result.status == BUFFER_OVERFLOW {
        outcome := RetryUnwrap(combined, result, fuel);
      } else {
        outcome := Settle(combined, result);
      }
      ConsTail(result, Results(engine.log[|old(engine.log)|..]));
    }

    /** The BUFFER_OVERFLOW arm of unwrap: grow(IN_PLAIN), compact the
        combined input, then unwrap it again. */
    method RetryUnwrap(combined: ByteBuffer, result: EngineResult, fuel: nat) returns (outcome: Outcome)
      requires Valid() && Foreign(combined) && fuel > 0 && pendingUnwrapData.held == null
      requires combined.limit == combined.Capacity()
      modifies Repr, combined, combined.hb
      ensures Valid() && fresh(Repr - old(Repr)) && hasListener == old(hasListener)
      ensures old(engine.log) <= engine.log
      ensures var calls := engine.log[|old(engine.log)|..];
        && (forall i | 0 <= i < |calls| :: calls[i].Unwrapped?)
        && (result.bytesConsumed > old(combined.limit) ==>
              outcome == Thrown(IllegalArgumentException) && calls == [] && pendingUnwrapData.held == null)
        && (result.bytesConsumed <= old(combined.limit) ==>
              UnwrapRun(Retried(old(combined.State()), result.bytesConsumed),
                        Results(calls), hasListener, outcome, pendingUnwrapData.Held()))
        && |emitted| == |old(emitted)| + (if hasListener then Producing(Results(calls)) else 0)
      ensures old(emitted) <= emitted
      ensures forall i | |old(emitted)| <= i < |emitted| ::
        emitted[i].PlainData? && emitted[i].buffer !in Repr
      decreases fuel, 0
    {
      GrowRole(IN_PLAIN);
      ghost var input := combined.State();
      var ok := Compact(combined, result);
      if !ok {
        return Thrown(IllegalArgumentException);
      }
      if fuel == 1 {
        return OutOfFuel;
      }
      RetriedIsAppendOfCompacted(input, result.bytesConsumed);
      outcome := Unwrap(combined, fuel - 1);
    }
  }
}
