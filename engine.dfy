/** The javax.net.ssl.SSLEngine as the adapter sees it: an oracle.  Every
    call may answer anything the engine's own contract allows (a status, how
    many bytes it consumed from the source and produced into the destination,
    the next handshake status), and the model keeps a record of the calls so
    that the adapter's contracts can say what it asked of the engine and when.
    The cryptography and record format are not modelled. */
module SslEngine {
  import opened Lang
  import opened Nio

  datatype Status = OK | BUFFER_UNDERFLOW | BUFFER_OVERFLOW | CLOSED

  datatype HandshakeStatus = NOT_HANDSHAKING | FINISHED | NEED_TASK | NEED_WRAP | NEED_UNWRAP

  datatype EngineResult = EngineResult(
    status: Status,
    handshakeStatus: HandshakeStatus,
    bytesConsumed: nat,
    bytesProduced: nat)

  /** The sizes an SSLSession recommends for application and network buffers. */
  datatype Session = Session(applicationBufferSize: nat, packetBufferSize: nat)

  /** A delegated task (a Runnable whose body is not modelled). */
  datatype Task = Task(id: nat)

  /** One call made on the engine, in the order made. */
  datatype EngineCall =
    | BeganHandshake
    | Wrapped(src: ByteBuffer, dst: ByteBuffer, offered: seq<byte>, result: EngineResult)
    | Unwrapped(src: ByteBuffer, dst: ByteBuffer, offered: seq<byte>, result: EngineResult)
    | StatusPolled(status: HandshakeStatus)
    | TaskPolled(next: Option<Task>)
    | TaskRan(ran: Task)

  /** `after` is `before` with n bytes read: only the position moved. */
  predicate Consumed(before: Buf, after: Buf, n: nat)
  {
    after == before.(position := before.position + n)
  }

  /** `after` is `before` with n bytes (of any value) written at its position. */
  predicate Produced(before: Buf, after: Buf, n: nat)
    requires before.Wf()
  {
    && after.Wf()
    && |after.content| == |before.content|
    && after.limit == before.limit
    && after.position == before.position + n
    && after.content[..before.position] == before.content[..before.position]
    && after.content[after.position..] == before.content[after.position..]
  }

  /** Writing n bytes at the position is one way to produce n bytes. */
  lemma AppendedIsProduced(b: Buf, data: seq<byte>)
    requires b.Wf() && |data| <= b.Remaining()
    ensures Produced(b, Appended(b, data), |data|)
  {
    var r := Appended(b, data);
    assert r.content[..b.position] == r.Written()[..b.position];
  }

  class SSLEngine {
    const session: Session
    var handshakeStatus: HandshakeStatus
    /** The delegated tasks getDelegatedTask() will hand out, in order. */
    var delegatedTasks: seq<Task>
    var log: seq<EngineCall>

    constructor (session: Session, initialStatus: HandshakeStatus)
      ensures this.session == session && handshakeStatus == initialStatus
      ensures delegatedTasks == [] && log == []
    {
      this.session := session;
      handshakeStatus := initialStatus;
      delegatedTasks := [];
      log := [];
    }

    method BeginHandshake()
      modifies this
      ensures log == old(log) + [BeganHandshake]
    {
      var hs: HandshakeStatus := *;
      var tasks: seq<Task> := *;
      handshakeStatus, delegatedTasks := hs, tasks;
      log := log + [BeganHandshake];
    }

    /** Java's wrap and unwrap share this contract: consumed <= what src has
        remaining, produced <= what dst has room for. */
    method Exchange(src: ByteBuffer, dst: ByteBuffer) returns (r: EngineResult)
      requires src.Valid() && dst.Valid() && src != dst && src.hb != dst.hb
      modifies this, src, dst, dst.hb
      ensures src.Valid() && dst.Valid()
      ensures r.bytesConsumed <= old(src.Remaining()) && r.bytesProduced <= old(dst.Remaining())
      ensures Consumed(old(src.State()), src.State(), r.bytesConsumed)
      ensures Produced(old(dst.State()), dst.State(), r.bytesProduced)
      ensures log == old(log)
    {
      var status: Status, hs: HandshakeStatus, consumed: nat, produced: nat := *, *, *, *;
      if consumed > src.Remaining() {
        consumed := src.Remaining();
      }
      if produced > dst.Remaining() {
        produced := dst.Remaining();
      }
      r := EngineResult(status, hs, consumed, produced);
      var out: seq<byte> := *;
      if |out| != produced {
        out := Zeros(produced);
      }
      AppendedIsProduced(dst.State(), out);
      dst.PutBytes(out);
      src.position := src.position + consumed;
      var next: HandshakeStatus, tasks: seq<Task> := *, *;
      handshakeStatus, delegatedTasks := next, tasks;
    }

    method Wrap(src: ByteBuffer, dst: ByteBuffer) returns (r: EngineResult)
      requires src.Valid() && dst.Valid() && src != dst && src.hb != dst.hb
      modifies this, src, dst, dst.hb
      ensures src.Valid() && dst.Valid()
      ensures r.bytesConsumed <= old(src.Remaining()) && r.bytesProduced <= old(dst.Remaining())
      ensures Consumed(old(src.State()), src.State(), r.bytesConsumed)
      ensures Produced(old(dst.State()), dst.State(), r.bytesProduced)
      ensures log == old(log) + [Wrapped(src, dst, old(src.State()).Unread(), r)]
    {
      var offered := src.hb[src.position..src.limit];
      r := Exchange(src, dst);
      log := log + [Wrapped(src, dst, offered, r)];
    }

    method Unwrap(src: ByteBuffer, dst: ByteBuffer) returns (r: EngineResult)
      requires src.Valid() && dst.Valid() && src != dst && src.hb != dst.hb
      modifies this, src, dst, dst.hb
      ensures src.Valid() && dst.Valid()
      ensures r.bytesConsumed <= old(src.Remaining()) && r.bytesProduced <= old(dst.Remaining())
      ensures Consumed(old(src.State()), src.State(), r.bytesConsumed)
      ensures Produced(old(dst.State()), dst.State(), r.bytesProduced)
      ensures log == old(log) + [Unwrapped(src, dst, old(src.State()).Unread(), r)]
    {
      var offered := src.hb[src.position..src.limit];
      r := Exchange(src, dst);
      log := log + [Unwrapped(src, dst, offered, r)];
    }

    method GetHandshakeStatus() returns (hs: HandshakeStatus)
      modifies this
      ensures hs == handshakeStatus == old(handshakeStatus)
      ensures delegatedTasks == old(delegatedTasks)
      ensures log == old(log) + [StatusPolled(hs)]
    {
      hs := handshakeStatus;
      log := log + [StatusPolled(hs)];
    }

    /** getDelegatedTask(): the next pending task, or null (None) when there is none. */
    method GetDelegatedTask() returns (t: Option<Task>)
      modifies this
      ensures t == if old(delegatedTasks) == [] then None else Some(old(delegatedTasks)[0])
      ensures delegatedTasks == if old(delegatedTasks) == [] then [] else old(delegatedTasks)[1..]
      ensures handshakeStatus == old(handshakeStatus)
      ensures log == old(log) + [TaskPolled(t)]
    {
      if delegatedTasks == [] {
        t := None;
      } else {
        t := Some(delegatedTasks[0]);
        delegatedTasks := delegatedTasks[1..];
      }
      log := log + [TaskPolled(t)];
    }

    /** task.run(): the work itself is not modelled; afterwards the engine
        may report any handshake status. */
    method RunTask(t: Task)
      modifies this
      ensures delegatedTasks == old(delegatedTasks)
      ensures log == old(log) + [TaskRan(t)]
    {
      var hs: HandshakeStatus := *;
      handshakeStatus := hs;
      log := log + [TaskRan(t)];
    }
  }
}
