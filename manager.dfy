/** The earlier, self-contained adapter (src/old/SSLManager.java): one
    SSLEngine per user key, kept in maps together with the key's
    handshake-completed listener, the ciphertext it could not decrypt yet
    (a byte array, the "remainder") and its handshake-completed flag.
    Its loops are specified by the engine calls they make: a do-while that
    calls the engine until a condition fails is a Loop; one pass of the
    handshake loop is a Pass, and the whole handshake a run of Passes. */
module OldManager {
  import opened Lang
  import opened Nio
  import opened SslEngine
  import Facade

  /** A HandshakeCompletedListener the host registered for a key. */
  datatype Listener = Listener(id: nat)

  /** handshakeCompleted(null) delivered to `listener` on behalf of `key`. */
  datatype Notice<K> = Notice(key: K, listener: Listener)

  /** The bytes handed to the SSLTransport for `key`. */
  datatype Message<K> = Message(key: K, bytes: seq<byte>)

  /** A key's entries as the handshake sees them: the bytes waiting in its
      remainder, its completed flag, and its listener if it has one. */
  datatype KeyState = KeyState(pending: seq<byte>, completed: bool, listener: Option<Listener>)

  /** What a pass of the handshake loop (or a decrypt) did to a key: the
      key's new state, how it ended (None: the loop goes round again), and
      the listeners it notified. */
  datatype Step = Step(state: KeyState, ended: Option<Outcome>, fired: seq<Listener>)

  function Notices<K>(key: K, ls: seq<Listener>): seq<Notice<K>>
  {
    if ls == [] then [] else Notices(key, ls[..|ls| - 1]) + [Notice(key, ls[|ls| - 1])]
  }

  lemma {:induction false} NoticesAppend<K>(key: K, a: seq<Listener>, b: seq<Listener>)
    ensures Notices(key, a + b) == Notices(key, a) + Notices(key, b)
    decreases |b|
  {
    if b != [] {
      NoticesAppend(key, a, b[..|b| - 1]);
      assert (a + b)[..|a + b| - 1] == a + b[..|b| - 1];
    } else {
      assert a + b == a;
    }
  }

  /** finishHandshake(key) followed by a return: the flag is set; the
      listener, if any, is called and removed; without one, the call on null
      throws a NullPointerException after the flag was set. */
  function Finish(s: KeyState): Step
  {
    match s.listener
    case Some(l) => Step(s.(completed := true, listener := None), Some(Normal), [l])
    case None => Step(s.(completed := true), Some(Thrown(NullPointerException)), [])
  }

  /** `first`, then `next` from the state `first` left. */
  function Then(first: Step, next: Step): Step
  {
    Step(next.state, next.ended, first.fired + next.fired)
  }

  /** needsUnwrap: whether unwrap's loop calls the engine again after a
      result r, with `total` bytes consumed so far out of `toBe`. */
  predicate NeedsUnwrap(completed: bool, r: EngineResult, total: nat, toBe: nat)
  {
    if !completed then
      r.status == OK && r.handshakeStatus == NEED_UNWRAP && r.bytesProduced == 0
    else
      r.status == OK && (r.bytesProduced != 0 || total < toBe)
  }

  /** send's loop condition, with `total` of `length` plain bytes consumed. */
  predicate SendsMore(r: EngineResult, total: nat, length: nat)
  {
    r.status == OK && total < length && r.bytesProduced > 0
  }

  /** The two do-while loops over the engine: unwrap's and send's. */
  datatype Loop = UnwrapLoop(completed: bool, toBe: nat) | SendLoop(length: nat)

  predicate Again(loop: Loop, r: EngineResult, total: nat)
  {
    match loop
    case UnwrapLoop(completed, toBe) => NeedsUnwrap(completed, r, total, toBe)
    case SendLoop(length) => SendsMore(r, total, length)
  }

  /** The bytes one engine call consumed. */
  function Consumption(c: EngineCall): nat
  {
    if c.Wrapped? || c.Unwrapped? then c.result.bytesConsumed else 0
  }

  /** The bytes the engine consumed over these calls. */
  function Taken(calls: seq<EngineCall>): nat
  {
    if calls == [] then 0 else Taken(calls[..|calls| - 1]) + Consumption(calls[|calls| - 1])
  }

  /** The bytes the engine wrote over these calls. */
  function Output(calls: seq<EngineCall>): nat
  {
    if calls == [] then 0
    else Output(calls[..|calls| - 1]) + (if Exchange(calls[|calls| - 1]) then calls[|calls| - 1].result.bytesProduced else 0)
  }

  /** Writing n bytes and then m more writes n + m bytes. */
  lemma ProducedTwice(a: Buf, b: Buf, c: Buf, n: nat, m: nat)
    requires a.Wf() && b.Wf() && Produced(a, b, n) && Produced(b, c, m)
    ensures Produced(a, c, n + m)
  {
    assert c.content[..a.position] == c.content[..b.position][..a.position];
    assert b.content[..a.position] == b.content[..b.position][..a.position];
    assert b.content[c.position..] == b.content[b.position..][c.position - b.position..];
    assert a.content[c.position..] == a.content[b.position..][c.position - b.position..];
  }

  lemma TakenSnoc(calls: seq<EngineCall>, c: EngineCall)
    ensures Taken(calls + [c]) == Taken(calls) + Consumption(c)
  {
    assert (calls + [c])[..|calls|] == calls;
  }

  /** A wrap or an unwrap: a call that is offered bytes. */
  predicate Exchange(c: EngineCall)
  {
    c.Wrapped? || c.Unwrapped?
  }

  /** The calls are all of the loop's kind: unwraps or wraps. */
  predicate Kinds(loop: Loop, calls: seq<EngineCall>)
  {
    if calls == [] then true
    else
      && Kinds(loop, calls[..|calls| - 1])
      && (if loop.UnwrapLoop? then calls[|calls| - 1].Unwrapped? else calls[|calls| - 1].Wrapped?)
  }

  /** After each of these calls the loop's condition held. */
  predicate Continued(loop: Loop, calls: seq<EngineCall>)
  {
    if calls == [] then true
    else
      && Continued(loop, calls[..|calls| - 1])
      && Exchange(calls[|calls| - 1])
      && Again(loop, calls[|calls| - 1].result, Taken(calls))
  }

  /** How a do-while loop of at most `fuel` rounds ended after making these
      calls: Normal once its condition failed, OutOfFuel when it still held
      after `fuel` rounds; None when these are not the calls it makes. */
  function LoopEnd(loop: Loop, calls: seq<EngineCall>, fuel: nat): (o: Option<Outcome>)
    ensures o.Some? ==> o.value == Normal || o.value == OutOfFuel
  {
    if calls == [] then (if fuel == 0 then Some(OutOfFuel) else None)
    else if |calls| > fuel || !Kinds(loop, calls) || !Continued(loop, calls[..|calls| - 1]) then None
    else if !Again(loop, calls[|calls| - 1].result, Taken(calls)) then Some(Normal)
    else if |calls| == fuel then Some(OutOfFuel)
    else None
  }

  /** Each call was offered the data from where the calls before it stopped. */
  predicate Offers(data: seq<byte>, calls: seq<EngineCall>)
  {
    if calls == [] then true
    else
      var pre := calls[..|calls| - 1];
      && Offers(data, pre)
      && Exchange(calls[|calls| - 1])
      && Taken(pre) <= |data|
      && calls[|calls| - 1].offered == data[Taken(pre)..]
  }

  /** The bytes each call consumed, in call order. */
  function Chunks(calls: seq<EngineCall>): seq<byte>
  {
    if calls == [] then []
    else
      var c := calls[|calls| - 1];
      Chunks(calls[..|calls| - 1])
        + if (c.Wrapped? || c.Unwrapped?) && c.result.bytesConsumed <= |c.offered| then c.offered[..c.result.bytesConsumed] else []
  }

  /** Every transport message is the output of a wrap of these calls, for
      `key`, one message per wrap and in order, as long as that wrap produced. */
  predicate Carries<K(==)>(key: K, msgs: seq<Message<K>>, calls: seq<EngineCall>)
  {
    if calls == [] then msgs == []
    else
      var c := calls[|calls| - 1];
      if c.Wrapped? then
        && msgs != []
        && msgs[|msgs| - 1].key == key
        && |msgs[|msgs| - 1].bytes| == c.result.bytesProduced
        && Carries(key, msgs[..|msgs| - 1], calls[..|calls| - 1])
      else Carries(key, msgs, calls[..|calls| - 1])
  }

  /** processLongRunningTask's calls: each task handed out and run, then the
      poll that returned null. */
  predicate IsDrain(calls: seq<EngineCall>)
    decreases |calls|
  {
    if |calls| == 1 then calls[0] == TaskPolled(None)
    else
      && |calls| >= 3
      && calls[0].TaskPolled? && calls[0].next.Some?
      && calls[1] == TaskRan(calls[0].next.value)
      && IsDrain(calls[2..])
  }

  /** decrypt(key, incoming, ...) on a key in state s, given the unwraps it
      made: the remainder and the incoming bytes are joined and the
      remainder emptied; once unwrap's loop ends the unconsumed bytes become
      the remainder, and a FINISHED result finishes the handshake. */
  function Decrypted(s: KeyState, incoming: seq<byte>, calls: seq<EngineCall>, fuel: nat): (d: Option<Step>)
    ensures d.Some? && d.value.ended != Some(OutOfFuel) ==> calls != [] && calls[|calls| - 1].Unwrapped?
  {
    var data := s.pending + incoming;
    match LoopEnd(UnwrapLoop(s.completed, |data|), calls, fuel)
    case None => None
    case Some(o) =>
      if o == OutOfFuel then Some(Step(s.(pending := []), Some(OutOfFuel), []))
      else if Taken(calls) > |data| then None
      else
        var s1 := s.(pending := data[Taken(calls)..]);
        if calls[|calls| - 1].result.handshakeStatus == FINISHED then Some(Finish(s1))
        else Some(Step(s1, Some(Normal), []))
  }

  /** The NEED_WRAP arm of shakehands: one wrap of nothing, its output sent;
      a FINISHED result finishes the handshake and returns. */
  function OnWrapPoll(s: KeyState, rest: seq<EngineCall>): Option<Step>
  {
    if |rest| == 1 && rest[0].Wrapped? && rest[0].offered == [] then
      if rest[0].result.handshakeStatus == FINISHED then Some(Finish(s)) else Some(Step(s, None, []))
    else None
  }

  /** The NEED_UNWRAP arm of shakehands: with an empty remainder it returns;
      otherwise it decrypts the remainder, and then returns on NEED_UNWRAP,
      finishes the handshake (again) on FINISHED, and goes round otherwise. */
  function OnUnwrapPoll(s: KeyState, rest: seq<EngineCall>, fuel: nat): Option<Step>
  {
    if s.pending == [] then
      if rest == [] then Some(Step(s, Some(Normal), [])) else None
    else
      match Decrypted(s, [], rest, fuel)
      case None => None
      case Some(d) =>
        if d.ended != Some(Normal) then Some(d)
        else Some(Resumed(d, rest[|rest| - 1].result.handshakeStatus))
  }

  /** What shakehands does after a decrypt that returned normally with the
      last unwrap's status hs: return on NEED_UNWRAP, finish on FINISHED,
      go round otherwise. */
  function Resumed(d: Step, hs: HandshakeStatus): (r: Step)
    ensures r.state.pending == d.state.pending && d.fired <= r.fired
    ensures r.ended == (if hs == NEED_UNWRAP then d.ended else if hs == FINISHED then Finish(d.state).ended else None)
  {
    if hs == NEED_UNWRAP then d
    else if hs == FINISHED then Then(d, Finish(d.state))
    else d.(ended := None)
  }

  /** One pass of shakehands' while(true) loop on a key in state s, given the
      calls it made on the engine (a status poll, then the arm's calls). */
  function Pass(s: KeyState, round: seq<EngineCall>, fuel: nat): Option<Step>
  {
    if round == [] || !round[0].StatusPolled? then None else Arm(s, round[0].status, round[1..], fuel)
  }

  /** The arm of shakehands' switch for status hs, given the calls it made. */
  function Arm(s: KeyState, hs: HandshakeStatus, rest: seq<EngineCall>, fuel: nat): Option<Step>
  {
    match hs
    case FINISHED => if rest == [] then Some(Finish(s)) else None
    case NOT_HANDSHAKING => if rest == [] then Some(Step(s, Some(Normal), [])) else None
    case NEED_TASK => if IsDrain(rest) then Some(Step(s, None, [])) else None
    case NEED_WRAP => OnWrapPoll(s, rest)
    case NEED_UNWRAP => OnUnwrapPoll(s, rest, fuel)
  }

  /** Passes made in order, each from the state the one before left, every
      one but the last going round again. */
  function Passes(s: KeyState, rounds: seq<seq<EngineCall>>, fuel: nat): Option<Step>
  {
    if rounds == [] then Some(Step(s, None, []))
    else
      match Passes(s, rounds[..|rounds| - 1], fuel)
      case Some(p) =>
        if p.ended.Some? then None
        else
          (match Pass(p.state, rounds[|rounds| - 1], fuel)
           case Some(q) => Some(Then(p, q))
           case None => None)
      case None => None
  }

  function Flatten(rounds: seq<seq<EngineCall>>): seq<EngineCall>
  {
    if rounds == [] then [] else Flatten(rounds[..|rounds| - 1]) + rounds[|rounds| - 1]
  }

  lemma FlattenSnoc(rounds: seq<seq<EngineCall>>, round: seq<EngineCall>)
    ensures Flatten(rounds + [round]) == Flatten(rounds) + round
  {
    assert (rounds + [round])[..|rounds|] == rounds;
  }

  /** A log that grew by the passes, and then by one more. */
  lemma LogSnoc(log0: seq<EngineCall>, rounds: seq<seq<EngineCall>>, round: seq<EngineCall>)
    ensures log0 + Flatten(rounds) + round == log0 + Flatten(rounds + [round])
  {
    FlattenSnoc(rounds, round);
  }

  /** The calls of processLongRunningTask over the engine's pending tasks
      ts have the shape a NEED_TASK pass expects. */
  lemma {:induction false} DrainCallsAreDrain(ts: seq<Task>)
    ensures IsDrain(Facade.DrainCalls(ts))
  {
    if ts != [] {
      DrainCallsAreDrain(ts[1..]);
      assert Facade.DrainCalls(ts) == [TaskPolled(Some(ts[0])), TaskRan(ts[0])] + Facade.DrainCalls(ts[1..]);
      assert Facade.DrainCalls(ts)[2..] == Facade.DrainCalls(ts[1..]);
    }
  }

  lemma Snoc(calls: seq<EngineCall>, c: EngineCall)
    ensures (calls + [c])[..|calls|] == calls
  {
  }

  /** The i-th call was offered the data from where the calls before it
      stopped. */
  lemma {:induction false} OffersAt(data: seq<byte>, calls: seq<EngineCall>, i: nat)
    requires Offers(data, calls) && i < |calls|
    ensures Exchange(calls[i]) && Taken(calls[..i]) <= |data|
    ensures calls[i].offered == data[Taken(calls[..i])..]
  {
    var pre := calls[..|calls| - 1];
    if i < |pre| {
      OffersAt(data, pre, i);
      assert pre[..i] == calls[..i];
    }
  }

  /** Every call is an exchange that wrote into `dst`. */
  predicate Into(calls: seq<EngineCall>, dst: ByteBuffer)
  {
    if calls == [] then true
    else Into(calls[..|calls| - 1], dst) && Exchange(calls[|calls| - 1]) && calls[|calls| - 1].dst == dst
  }

  /** A do-while loop over the engine part way: the calls made so far were
      each offered the data from where the one before stopped, and the loop
      goes on (`more`) exactly when the last call left its condition true. */
  predicate Running(loop: Loop, data: seq<byte>, calls: seq<EngineCall>, more: bool)
  {
    && Taken(calls) <= |data| && Kinds(loop, calls) && Offers(data, calls)
    && (more ==> Continued(loop, calls))
    && (!more ==> calls != [] && Continued(loop, calls[..|calls| - 1])
                  && !Again(loop, calls[|calls| - 1].result, Taken(calls)))
  }

  lemma RunningStep(loop: Loop, data: seq<byte>, calls: seq<EngineCall>, c: EngineCall)
    requires Running(loop, data, calls, true)
    requires if loop.UnwrapLoop? then c.Unwrapped? else c.Wrapped?
    requires Taken(calls) + c.result.bytesConsumed <= |data| && c.offered == data[Taken(calls)..]
    ensures Taken(calls + [c]) == Taken(calls) + c.result.bytesConsumed
    ensures Running(loop, data, calls + [c], Again(loop, c.result, Taken(calls + [c])))
  {
    TakenSnoc(calls, c);
    Snoc(calls, c);
  }

  lemma RunningEnd(loop: Loop, data: seq<byte>, calls: seq<EngineCall>, more: bool, fuel: nat)
    requires Running(loop, data, calls, more) && |calls| <= fuel && (more ==> |calls| == fuel)
    ensures LoopEnd(loop, calls, fuel) == Some(if more then OutOfFuel else Normal)
  {
  }

  /** What the engine consumed, call after call, is the data read from its
      start with nothing skipped or read twice; the rest of the data is what
      is left over. */
  lemma SliceJoin(d: seq<byte>, t: nat, k: nat)
    requires t + k <= |d|
    ensures d[..t] + d[t..t + k] == d[..t + k]
    ensures d[..t + k] + d[t + k..] == d
  {
  }

  lemma {:induction false} ConsumedInOrder(data: seq<byte>, calls: seq<EngineCall>)
    requires Offers(data, calls) && Taken(calls) <= |data|
    ensures Chunks(calls) == data[..Taken(calls)]
    ensures Chunks(calls) + data[Taken(calls)..] == data
  {
    if calls != [] {
      var pre := calls[..|calls| - 1];
      var c := calls[|calls| - 1];
      ConsumedInOrder(data, pre);
      var k := c.result.bytesConsumed;
      var t := Taken(pre);
      assert Taken(calls) == t + k;
      assert c.offered == data[t..];
      assert k <= |c.offered|;
      assert Chunks(calls) == Chunks(pre) + c.offered[..k];
      assert c.offered[..k] == data[t..t + k];
      SliceJoin(data, t, k);
    }
  }

  /** Each call is offered what the call before it was offered, less the
      bytes that call consumed. */
  lemma OffersShrink(data: seq<byte>, calls: seq<EngineCall>, i: nat)
    requires Offers(data, calls) && i + 1 < |calls|
    ensures Exchange(calls[i]) && Exchange(calls[i + 1])
    ensures calls[i].result.bytesConsumed <= |calls[i].offered|
    ensures calls[i + 1].offered == calls[i].offered[calls[i].result.bytesConsumed..]
  {
    OffersAt(data, calls, i);
    OffersAt(data, calls, i + 1);
    assert calls[..i + 1][..i] == calls[..i];
    assert Taken(calls[..i + 1]) == Taken(calls[..i]) + calls[i].result.bytesConsumed;
  }

  /** Calls without a wrap send nothing. */
  lemma {:induction false} CarriesNothing<K>(key: K, calls: seq<EngineCall>)
    requires forall i | 0 <= i < |calls| :: !calls[i].Wrapped?
    ensures Carries(key, [], calls)
  {
    if calls != [] {
      CarriesNothing(key, calls[..|calls| - 1]);
    }
  }

  /** One more wrap and one more message, sent by the same key. */
  lemma CarriesSent<K>(key: K, sent0: seq<Message<K>>, sent: seq<Message<K>>, calls: seq<EngineCall>, m: Message<K>, c: EngineCall)
    requires sent0 <= sent && Carries(key, sent[|sent0|..], calls)
    requires c.Wrapped? && m.key == key && |m.bytes| == c.result.bytesProduced
    ensures sent0 <= sent + [m] && Carries(key, (sent + [m])[|sent0|..], calls + [c])
  {
    var msgs := (sent + [m])[|sent0|..];
    assert msgs[..|msgs| - 1] == sent[|sent0|..];
    assert (calls + [c])[..|calls|] == calls;
  }

  lemma {:induction false} CarriesAppend<K>(key: K, m1: seq<Message<K>>, c1: seq<EngineCall>, m2: seq<Message<K>>, c2: seq<EngineCall>)
    requires Carries(key, m1, c1) && Carries(key, m2, c2)
    ensures Carries(key, m1 + m2, c1 + c2)
    decreases |c2|
  {
    if c2 == [] {
      assert c1 + c2 == c1 && m1 + m2 == m1;
    } else {
      var c := c2[|c2| - 1];
      assert (c1 + c2)[..|c1 + c2| - 1] == c1 + c2[..|c2| - 1];
      if c.Wrapped? {
        CarriesAppend(key, m1, c1, m2[..|m2| - 1], c2[..|c2| - 1]);
        assert (m1 + m2)[..|m1 + m2| - 1] == m1 + m2[..|m2| - 1];
      } else {
        CarriesAppend(key, m1, c1, m2, c2[..|c2| - 1]);
      }
    }
  }

  /** A step from state s notifies at most the key's own listener, and then
      has removed it and set the flag; a step that goes round again notifies
      nobody and leaves the listener and the flag as they were; no step
      registers a listener or clears the flag. */
  predicate FiresAtMostOnce(s: KeyState, p: Step)
  {
    && |p.fired| <= 1
    && (p.fired != [] ==> s.listener.Some? && p.fired == [s.listener.value] && p.state.listener.None? && p.state.completed)
    && (p.ended.None? ==> p.fired == [] && p.state.listener == s.listener && p.state.completed == s.completed)
    && (p.state.listener.Some? ==> p.state.listener == s.listener)
    && (s.completed ==> p.state.completed)
  }

  lemma FinishFiresOnce(s: KeyState)
    ensures FiresAtMostOnce(s, Finish(s))
  {
  }

  lemma DecryptedFiresOnce(s: KeyState, incoming: seq<byte>, calls: seq<EngineCall>, fuel: nat)
    requires Decrypted(s, incoming, calls, fuel).Some?
    ensures FiresAtMostOnce(s, Decrypted(s, incoming, calls, fuel).value)
  {
    var data := s.pending + incoming;
    if LoopEnd(UnwrapLoop(s.completed, |data|), calls, fuel) != Some(OutOfFuel) {
      FinishFiresOnce(s.(pending := data[Taken(calls)..]));
    }
  }

  /** A pass notifies at most the key's own listener, even the NEED_UNWRAP
      pass that finishes the handshake twice. */
  lemma PassFiresOnce(s: KeyState, round: seq<EngineCall>, fuel: nat)
    requires Pass(s, round, fuel).Some?
    ensures FiresAtMostOnce(s, Pass(s, round, fuel).value)
  {
    var rest := round[1..];
    match round[0].status
    case FINISHED => FinishFiresOnce(s);
    case NOT_HANDSHAKING =>
    case NEED_TASK =>
    case NEED_WRAP => FinishFiresOnce(s);
    case NEED_UNWRAP =>
      if s.pending != [] {
        DecryptedFiresOnce(s, [], rest, fuel);
        var d := Decrypted(s, [], rest, fuel).value;
        FinishFiresOnce(d.state);
      }
  }

  /** Over a whole handshake the listener is notified at most once, and only
      the listener the key had when the handshake began. */
  lemma {:induction false} PassesFireOnce(s: KeyState, rounds: seq<seq<EngineCall>>, fuel: nat)
    requires Passes(s, rounds, fuel).Some?
    ensures FiresAtMostOnce(s, Passes(s, rounds, fuel).value)
  {
    if rounds != [] {
      PassesFireOnce(s, rounds[..|rounds| - 1], fuel);
      var p := Passes(s, rounds[..|rounds| - 1], fuel).value;
      PassFiresOnce(p.state, rounds[|rounds| - 1], fuel);
    }
  }

  /** r is s with some of its leading bytes dropped. */
  predicate Tail(r: seq<byte>, s: seq<byte>)
  {
    |r| <= |s| && r == s[|s| - |r|..]
  }

  lemma TailTrans(a: seq<byte>, b: seq<byte>, c: seq<byte>)
    requires Tail(a, b) && Tail(b, c)
    ensures Tail(a, c)
  {
    assert c[|c| - |b|..][|b| - |a|..] == c[|c| - |a|..];
  }

  /** A decrypt of the remainder alone leaves the bytes after those the
      engine consumed, or none when its loop ran out of rounds. */
  lemma DecryptedKeepsTail(s: KeyState, calls: seq<EngineCall>, fuel: nat)
    requires Decrypted(s, [], calls, fuel).Some?
    ensures Tail(Decrypted(s, [], calls, fuel).value.state.pending, s.pending)
  {
    assert s.pending + [] == s.pending;
  }

  /** A pass only ever drops leading bytes from the remainder. */
  lemma PassKeepsTail(s: KeyState, round: seq<EngineCall>, fuel: nat)
    requires Pass(s, round, fuel).Some?
    ensures Tail(Pass(s, round, fuel).value.state.pending, s.pending)
  {
    assert s.pending[|s.pending| - |s.pending|..] == s.pending;
    if round[0].status == NEED_UNWRAP && s.pending != [] {
      DecryptedKeepsTail(s, round[1..], fuel);
    }
  }

  /** Over a whole handshake the remainder left is a tail of the one the
      handshake began with: shakehands never adds bytes to it. */
  lemma {:induction false} PassesKeepTail(s: KeyState, rounds: seq<seq<EngineCall>>, fuel: nat)
    requires Passes(s, rounds, fuel).Some?
    ensures Tail(Passes(s, rounds, fuel).value.state.pending, s.pending)
  {
    if rounds == [] {
      assert s.pending[|s.pending| - |s.pending|..] == s.pending;
    } else {
      var pre := rounds[..|rounds| - 1];
      PassesKeepTail(s, pre, fuel);
      var p := Passes(s, pre, fuel).value;
      PassKeepsTail(p.state, rounds[|rounds| - 1], fuel);
      TailTrans(Passes(s, rounds, fuel).value.state.pending, p.state.pending, s.pending);
    }
  }

  /** finishHandshake runs twice when shakehands' NEED_UNWRAP arm decrypts
      to FINISHED: decrypt finishes the handshake (notifying and removing
      the listener), then shakehands finishes it again and finds no listener.
      Such a pass always ends in a NullPointerException, with a listener
      registered or not. */
  lemma DecryptedFinishedThrows(s: KeyState, rest: seq<EngineCall>, fuel: nat)
    requires s.pending != [] && rest != [] && rest[|rest| - 1].Unwrapped?
    requires rest[|rest| - 1].result.handshakeStatus == FINISHED
    requires Decrypted(s, [], rest, fuel).Some? && Decrypted(s, [], rest, fuel).value.ended != Some(OutOfFuel)
    ensures Taken(rest) <= |s.pending|
    ensures Pass(s, [StatusPolled(NEED_UNWRAP)] + rest, fuel) == Some(Step(
      KeyState(s.pending[Taken(rest)..], true, None),
      Some(Thrown(NullPointerException)),
      if s.listener.Some? then [s.listener.value] else []))
  {
    var round := [StatusPolled(NEED_UNWRAP)] + rest;
    assert round[0] == StatusPolled(NEED_UNWRAP) && round[1..] == rest;
    UnwrapPollFinishedThrows(s, rest, fuel);
    assert Pass(s, round, fuel) == Arm(s, NEED_UNWRAP, rest, fuel);
  }

  lemma UnwrapPollFinishedThrows(s: KeyState, rest: seq<EngineCall>, fuel: nat)
    requires s.pending != [] && rest != [] && rest[|rest| - 1].Unwrapped?
    requires rest[|rest| - 1].result.handshakeStatus == FINISHED
    requires Decrypted(s, [], rest, fuel).Some? && Decrypted(s, [], rest, fuel).value.ended != Some(OutOfFuel)
    ensures Taken(rest) <= |s.pending|
    ensures OnUnwrapPoll(s, rest, fuel) == Some(Step(
      KeyState(s.pending[Taken(rest)..], true, None),
      Some(Thrown(NullPointerException)),
      if s.listener.Some? then [s.listener.value] else []))
  {
    assert s.pending + [] == s.pending;
    var o := LoopEnd(UnwrapLoop(s.completed, |s.pending|), rest, fuel);
    assert o.Some? && o.value != OutOfFuel && Taken(rest) <= |s.pending|;
    var s1 := s.(pending := s.pending[Taken(rest)..]);
    var d := Decrypted(s, [], rest, fuel).value;
    assert d == Finish(s1);
    if s.listener.Some? {
      assert d.ended == Some(Normal) && d.state == KeyState(s1.pending, true, None);
      assert OnUnwrapPoll(s, rest, fuel) == Some(Then(d, Finish(d.state)));
      var f := Finish(d.state);
      assert f == Step(KeyState(s1.pending, true, None), Some(Thrown(NullPointerException)), []);
      assert d.fired == [s.listener.value] && d.fired + f.fired == [s.listener.value];
    } else {
      assert OnUnwrapPoll(s, rest, fuel) == Some(d);
    }
  }

  /** The passes that return normally: NOT_HANDSHAKING; FINISHED, or a wrap
      that finished, with a listener to notify; NEED_UNWRAP with an empty
      remainder, or whose decrypt asked for more data.  Nothing else does. */
  lemma PassReturnsNormally(s: KeyState, round: seq<EngineCall>, fuel: nat)
    requires Pass(s, round, fuel).Some? && Pass(s, round, fuel).value.ended == Some(Normal)
    ensures round[0] == StatusPolled(NOT_HANDSHAKING)
      || (round[0] == StatusPolled(FINISHED) && s.listener.Some?)
      || (round[0] == StatusPolled(NEED_WRAP) && s.listener.Some? && round[1].result.handshakeStatus == FINISHED)
      || (round[0] == StatusPolled(NEED_UNWRAP)
          && (s.pending == [] || round[|round| - 1].result.handshakeStatus == NEED_UNWRAP))
  {
  }

  /** decrypt when unwrap's loop ran out of rounds: the remainder it emptied
      stays empty. */
  lemma DecryptedOutOfFuel(s: KeyState, incoming: seq<byte>, calls: seq<EngineCall>, fuel: nat)
    requires LoopEnd(UnwrapLoop(s.completed, |s.pending + incoming|), calls, fuel) == Some(OutOfFuel)
    ensures Decrypted(s, incoming, calls, fuel) == Some(Step(s.(pending := []), Some(OutOfFuel), []))
  {
  }

  /** decrypt when unwrap's loop ended: the unconsumed bytes are kept and a
      FINISHED result finishes the handshake. */
  lemma DecryptedEnded(s: KeyState, incoming: seq<byte>, calls: seq<EngineCall>, fuel: nat)
    requires LoopEnd(UnwrapLoop(s.completed, |s.pending + incoming|), calls, fuel) == Some(Normal)
    requires Taken(calls) <= |s.pending + incoming|
    ensures calls != [] && calls[|calls| - 1].Unwrapped?
    ensures var s1 := s.(pending := (s.pending + incoming)[Taken(calls)..]);
      Decrypted(s, incoming, calls, fuel) ==
        Some(if calls[|calls| - 1].result.handshakeStatus == FINISHED then Finish(s1) else Step(s1, Some(Normal), []))
  {
  }

  /** A buffer filled to its capacity, flipped, reads all its bytes. */
  lemma FullFlipped(w: Buf)
    requires w.Wf() && w.position == |w.content|
    ensures Flipped(w) == Buf(w.Written(), 0, |w.content|)
  {
  }

  /** The manager's four maps and the handshakeCompleted calls it made. */
  datatype Tables<K(==)> = Tables(engines: map<K, SSLEngine>, listeners: map<K, Listener>,
                                  remaining: map<K, seq<byte>>, completed: map<K, bool>,
                                  notified: seq<Notice<K>>)
  {
    /** prepare and cleanState add and remove a key in the engine,
        remainder and flag maps together. */
    predicate Valid()
    {
      engines.Keys == remaining.Keys == completed.Keys
    }

    /** A key's entries as a KeyState. */
    function At(key: K): KeyState
      requires key in remaining && key in completed
    {
      KeyState(remaining[key], completed[key], if key in listeners then Some(listeners[key]) else None)
    }
  }

  /** prepare(key), with the engine the context made for it. */
  function Prepared<K(==)>(t: Tables<K>, key: K, engine: SSLEngine): (r: Tables<K>)
    ensures t.Valid() ==> r.Valid()
    ensures key in r.remaining && key in r.completed && r.At(key).pending == [] && !r.At(key).completed
  {
    t.(engines := t.engines[key := engine], remaining := t.remaining[key := []], completed := t.completed[key := false])
  }

  /** cleanState(key): the key leaves all four maps. */
  function Cleaned<K(==)>(t: Tables<K>, key: K): (r: Tables<K>)
    ensures t.Valid() ==> r.Valid()
    ensures key !in r.engines && key !in r.listeners && key !in r.remaining && key !in r.completed
  {
    t.(engines := t.engines - {key}, listeners := t.listeners - {key},
       remaining := t.remaining - {key}, completed := t.completed - {key})
  }

  /** beginSSLHandshake's first statement: the listener is registered. */
  function Listening<K(==)>(t: Tables<K>, key: K, l: Option<Listener>): Tables<K>
  {
    match l
    case Some(listener) => t.(listeners := t.listeners[key := listener])
    case None => t.(listeners := t.listeners - {key})
  }

  /** The key's remainder replaced. */
  function Kept<K(==)>(t: Tables<K>, key: K, rem: seq<byte>): Tables<K>
  {
    t.(remaining := t.remaining[key := rem])
  }

  /** finishHandshake(key): the flag is set, then the listener is notified
      and removed; a key without a listener is flagged and then throws. */
  function Finished<K(==)>(t: Tables<K>, key: K): Tables<K>
  {
    var c := t.completed[key := true];
    if key in t.listeners then
      t.(completed := c, listeners := t.listeners - {key}, notified := t.notified + [Notice(key, t.listeners[key])])
    else t.(completed := c)
  }

  function FinishOutcome<K(==)>(t: Tables<K>, key: K): Outcome
  {
    if key in t.listeners then Normal else Thrown(NullPointerException)
  }

  /** A step taken on `key`: the key's remainder, flag and listener are
      those of the step's state, and the listeners the step fired have been
      notified.  Other keys keep their entries. */
  function Applied<K(==)>(t: Tables<K>, key: K, p: Step): (r: Tables<K>)
    ensures t.Valid() && key in t.engines ==> r.Valid()
    ensures r.engines == t.engines && key in r.remaining && key in r.completed
    ensures r.At(key) == p.state
    ensures r.notified == t.notified + Notices(key, p.fired)
  {
    t.(remaining := t.remaining[key := p.state.pending], completed := t.completed[key := p.state.completed],
       listeners := if p.state.listener.Some? then t.listeners[key := p.state.listener.value] else t.listeners - {key},
       notified := t.notified + Notices(key, p.fired))
  }

  /** A step leaves every other key's entries as they were. */
  lemma AppliedElsewhere<K>(t: Tables<K>, key: K, p: Step, other: K)
    requires other != key && other in t.remaining && other in t.completed
    ensures var r := Applied(t, key, p);
      other in r.remaining && other in r.completed && r.At(other) == t.At(other)
      && r.remaining[other] == t.remaining[other]
  {
  }

  /** A step that changes nothing leaves the tables as they were. */
  lemma AppliedIdle<K>(t: Tables<K>, key: K, o: Option<Outcome>)
    requires key in t.remaining && key in t.completed
    ensures Applied(t, key, Step(t.At(key), o, [])) == t
  {
    var r := Applied(t, key, Step(t.At(key), o, []));
    assert r.remaining == t.remaining;
    assert r.completed == t.completed;
    assert r.listeners == t.listeners;
    assert r.notified == t.notified;
  }

  /** Two steps on the same key are the step made of both. */
  lemma AppliedThen<K>(t: Tables<K>, key: K, p: Step, q: Step)
    ensures Applied(Applied(t, key, p), key, q) == Applied(t, key, Then(p, q))
  {
    NoticesAppend(key, p.fired, q.fired);
    var m := Applied(t, key, p);
    var a := Applied(m, key, q);
    var b := Applied(t, key, Then(p, q));
    assert a.remaining == b.remaining by {
      Overwritten(t.remaining, key, p.state.pending, q.state.pending);
    }
    assert a.completed == b.completed by {
      Overwritten(t.completed, key, p.state.completed, q.state.completed);
    }
    assert a.listeners == b.listeners by {
      if q.state.listener.Some? {
        assert a.listeners == m.listeners[key := q.state.listener.value];
        assert b.listeners == t.listeners[key := q.state.listener.value];
      } else {
        assert a.listeners == m.listeners - {key};
        assert b.listeners == t.listeners - {key};
      }
    }
  }

  lemma Overwritten<K, V>(m: map<K, V>, k: K, a: V, b: V)
    ensures m[k := a][k := b] == m[k := b]
  {
  }

  /** Replacing the remainder is a step that keeps the flag and listener. */
  lemma KeptIsApplied<K>(t: Tables<K>, key: K, rem: seq<byte>, o: Option<Outcome>)
    requires key in t.remaining && key in t.completed
    ensures Kept(t, key, rem) == Applied(t, key, Step(t.At(key).(pending := rem), o, []))
  {
    var r := Applied(t, key, Step(t.At(key).(pending := rem), o, []));
    assert r.completed == t.completed;
    assert r.listeners == t.listeners;
  }

  /** finishHandshake is the step Finish describes, on the key's state. */
  lemma FinishedIsApplied<K>(t: Tables<K>, key: K)
    requires key in t.remaining && key in t.completed
    ensures Finished(t, key) == Applied(t, key, Finish(t.At(key)))
    ensures Finish(t.At(key)).ended == Some(FinishOutcome(t, key))
  {
    var r := Applied(t, key, Finish(t.At(key)));
    assert r.remaining == t.remaining;
    if key in t.listeners {
      assert Notices(key, [t.listeners[key]]) == [Notice(key, t.listeners[key])];
    } else {
      assert r.listeners == t.listeners;
    }
  }

  /** finishHandshake right after the remainder was replaced. */
  lemma FinishedAfterKept<K>(t: Tables<K>, key: K, rem: seq<byte>)
    requires key in t.remaining && key in t.completed
    ensures var f := Finish(t.At(key).(pending := rem));
      Finished(Kept(t, key, rem), key) == Applied(t, key, f) && f.ended == Some(FinishOutcome(t, key))
  {
    var k := Kept(t, key, rem);
    FinishedIsApplied(k, key);
    KeptIsApplied(t, key, rem, None);
    AppliedThen(t, key, Step(t.At(key).(pending := rem), None, []), Finish(k.At(key)));
  }

  /** Preparing a key and cleaning it away leaves no trace of it. */
  lemma CleanedPrepared<K>(t: Tables<K>, key: K, engine: SSLEngine)
    ensures Cleaned(Prepared(t, key, engine), key) == Cleaned(t, key)
  {
    var a := Cleaned(Prepared(t, key, engine), key);
    var b := Cleaned(t, key);
    assert a.engines == b.engines;
    assert a.remaining == b.remaining;
    assert a.completed == b.completed;
  }

  /** decrypt on `key` from tables t, given the unwraps it made: the step
      Decrypted gives, ending in `outcome`, leaves the tables `after`. */
  ghost predicate DecryptsTo<K>(t: Tables<K>, key: K, incoming: seq<byte>, calls: seq<EngineCall>, fuel: nat,
                                outcome: Outcome, after: Tables<K>)
  {
    && key in t.remaining && key in t.completed
    && var d := Decrypted(t.At(key), incoming, calls, fuel);
    && d.Some? && d.value.ended == Some(outcome) && after == Applied(t, key, d.value)
  }

  /** decrypt when unwrap's loop ran out of rounds: the emptied remainder stays empty. */
  lemma DecryptStarves<K>(t: Tables<K>, key: K, incoming: seq<byte>, calls: seq<EngineCall>, fuel: nat)
    requires key in t.remaining && key in t.completed
    requires LoopEnd(UnwrapLoop(t.completed[key], |t.remaining[key] + incoming|), calls, fuel) == Some(OutOfFuel)
    ensures DecryptsTo(t, key, incoming, calls, fuel, OutOfFuel, Kept(t, key, []))
  {
    var s := t.At(key);
    DecryptedOutOfFuel(s, incoming, calls, fuel);
    KeptIsApplied(t, key, [], Some(OutOfFuel));
  }

  /** decrypt when unwrap's loop ended, on the key's entries in t: the
      unconsumed bytes are the remainder, and a FINISHED result finishes
      the handshake. */
  lemma DecryptEnds<K>(t: Tables<K>, key: K, incoming: seq<byte>, calls: seq<EngineCall>, fuel: nat)
    requires key in t.remaining && key in t.completed
    requires LoopEnd(UnwrapLoop(t.completed[key], |t.remaining[key] + incoming|), calls, fuel) == Some(Normal)
    requires Taken(calls) <= |t.remaining[key] + incoming|
    ensures calls != [] && calls[|calls| - 1].Unwrapped?
    ensures var s1 := t.At(key).(pending := (t.remaining[key] + incoming)[Taken(calls)..]);
      Decrypted(t.At(key), incoming, calls, fuel) ==
        Some(if calls[|calls| - 1].result.handshakeStatus == FINISHED then Finish(s1) else Step(s1, Some(Normal), []))
  {
    DecryptedEnded(t.At(key), incoming, calls, fuel);
  }

  lemma DecryptedFinishing<K>(t: Tables<K>, key: K, incoming: seq<byte>, calls: seq<EngineCall>, fuel: nat, rem: seq<byte>)
    requires key in t.remaining && key in t.completed
    requires Decrypted(t.At(key), incoming, calls, fuel) == Some(Finish(t.At(key).(pending := rem)))
    ensures DecryptsTo(t, key, incoming, calls, fuel, FinishOutcome(t, key), Finished(Kept(t, key, rem), key))
  {
    FinishedAfterKept(t, key, rem);
  }

  lemma DecryptedKeeping<K>(t: Tables<K>, key: K, incoming: seq<byte>, calls: seq<EngineCall>, fuel: nat, rem: seq<byte>)
    requires key in t.remaining && key in t.completed
    requires Decrypted(t.At(key), incoming, calls, fuel) == Some(Step(t.At(key).(pending := rem), Some(Normal), []))
    ensures DecryptsTo(t, key, incoming, calls, fuel, Normal, Kept(t, key, rem))
  {
    KeptIsApplied(t, key, rem, Some(Normal));
  }

  /** How a handshake of these passes left the tables, from tables t: the
      passes are those shakehands makes from the key's state, and the
      tables are those of the step they make up. */
  ghost predicate Handshook<K>(t: Tables<K>, key: K, fuel: nat, rounds: seq<seq<EngineCall>>,
                               outcome: Outcome, after: Tables<K>)
  {
    && key in t.remaining && key in t.completed && |rounds| <= fuel
    && var p := Passes(t.At(key), rounds, fuel);
    && p.Some? && after == Applied(t, key, p.value)
    && (p.value.ended == Some(outcome) || (p.value.ended.None? && outcome == OutOfFuel && |rounds| == fuel))
  }

  /** A handshake notifies at most once, and only the listener the key had
      when it began, which it then removes, with the flag set. */
  lemma HandshakeNotifiesOnce<K>(t: Tables<K>, key: K, fuel: nat, rounds: seq<seq<EngineCall>>,
                                 outcome: Outcome, after: Tables<K>)
    requires Handshook(t, key, fuel, rounds, outcome, after)
    ensures t.notified <= after.notified && |after.notified| <= |t.notified| + 1
    ensures |after.notified| == |t.notified| + 1 ==>
      && key in t.listeners && after.notified[|t.notified|] == Notice(key, t.listeners[key])
      && key !in after.listeners && after.completed[key]
  {
    var p := Passes(t.At(key), rounds, fuel).value;
    PassesFireOnce(t.At(key), rounds, fuel);
    if p.fired != [] {
      assert Notices(key, p.fired) == [Notice(key, p.fired[0])];
    }
  }

  /** A handshake begun with a null listener notifies nobody: the put of
      null leaves the key without a listener, so finishHandshake throws
      instead of notifying. */
  lemma NullListenerNotNotified<K>(t: Tables<K>, key: K, fuel: nat, rounds: seq<seq<EngineCall>>,
                                   outcome: Outcome, after: Tables<K>)
    requires Handshook(Listening(t, key, None), key, fuel, rounds, outcome, after)
    ensures after.notified == t.notified
  {
    HandshakeNotifiesOnce(Listening(t, key, None), key, fuel, rounds, outcome, after);
  }

  /** One more pass from where the passes so far left the key. */
  lemma PassesSnoc(s: KeyState, rounds: seq<seq<EngineCall>>, round: seq<EngineCall>, fuel: nat, p: Step, q: Step)
    requires Passes(s, rounds, fuel) == Some(p) && p.ended.None? && Pass(p.state, round, fuel) == Some(q)
    ensures Passes(s, rounds + [round], fuel) == Some(Then(p, q))
  {
    assert (rounds + [round])[..|rounds|] == rounds;
  }

  /** One more pass of the handshake loop, from the tables the passes so
      far left. */
  lemma HandshakeStep<K>(t: Tables<K>, key: K, s: KeyState, rounds: seq<seq<EngineCall>>, round: seq<EngineCall>,
                         fuel: nat, p: Step, q: Step)
    requires key in t.remaining && key in t.completed
    requires Passes(s, rounds, fuel) == Some(p) && p.ended.None?
    requires Pass(Applied(t, key, p).At(key), round, fuel) == Some(q)
    ensures Passes(s, rounds + [round], fuel) == Some(Then(p, q))
    ensures Applied(Applied(t, key, p), key, q) == Applied(t, key, Then(p, q))
  {
    PassesSnoc(s, rounds, round, fuel, p, q);
    AppliedThen(t, key, p, q);
  }

  /** The messages sent over two stretches of calls, each carried by its own. */
  lemma CarriesJoin<K>(key: K, sent0: seq<Message<K>>, mid: seq<Message<K>>, sent: seq<Message<K>>,
                       c1: seq<EngineCall>, c2: seq<EngineCall>)
    requires sent0 <= mid <= sent
    requires Carries(key, mid[|sent0|..], c1) && Carries(key, sent[|mid|..], c2)
    ensures Carries(key, sent[|sent0|..], c1 + c2)
  {
    CarriesAppend(key, mid[|sent0|..], c1, sent[|mid|..], c2);
    assert mid[|sent0|..] + sent[|mid|..] == sent[|sent0|..];
  }

  /** A single wrap carries the single message sent for it. */
  lemma CarriesOne<K>(key: K, m: Message<K>, c: EngineCall)
    requires c.Wrapped? && m.key == key && |m.bytes| == c.result.bytesProduced
    ensures Carries(key, [m], [c])
  {
    assert [m][..0] == [] && [c][..0] == [];
  }

  /** Unwraps send nothing. */
  lemma {:induction false} UnwrapsCarryNothing<K>(key: K, loop: Loop, calls: seq<EngineCall>)
    requires loop.UnwrapLoop? && Kinds(loop, calls)
    ensures Carries(key, [], calls)
  {
    if calls != [] {
      UnwrapsCarryNothing(key, loop, calls[..|calls| - 1]);
    }
  }

  /** decrypt's calls send nothing. */
  lemma DecryptedCarriesNothing<K>(key: K, s: KeyState, incoming: seq<byte>, calls: seq<EngineCall>, fuel: nat)
    requires Decrypted(s, incoming, calls, fuel).Some?
    ensures Carries(key, [], calls)
  {
    if calls != [] {
      UnwrapsCarryNothing(key, UnwrapLoop(s.completed, |s.pending + incoming|), calls);
    }
  }

  /** The calls of processLongRunningTask send nothing. */
  lemma {:induction false} DrainCarriesNothing<K>(key: K, ts: seq<Task>)
    ensures Carries(key, [], Facade.DrainCalls(ts))
  {
    if ts == [] {
      assert Carries(key, [], []);
    } else {
      DrainCarriesNothing(key, ts[1..]);
      var two := [TaskPolled(Some(ts[0])), TaskRan(ts[0])];
      assert two[..1] == [TaskPolled(Some(ts[0]))] && two[..1][..0] == [];
      assert Carries(key, [], two[..1][..0]);
      assert Carries(key, [], two[..1]);
      assert Carries(key, [], two);
      assert Facade.DrainCalls(ts) == two + Facade.DrainCalls(ts[1..]);
      var none: seq<Message<K>> := [];
      CarriesAppend(key, none, two, none, Facade.DrainCalls(ts[1..]));
      assert none + none == none;
    }
  }

  const NoResult := EngineResult(OK, NOT_HANDSHAKING, 0, 0)

  /** The SSLTransport the manager hands ciphertext to; it records what it
      was asked to send, in order. */
  class Transport<K> {
    var sent: seq<Message<K>>

    constructor ()
      ensures sent == []
    {
      sent := [];
    }

    method Send(key: K, bytes: seq<byte>)
      modifies this
      ensures sent == old(sent) + [Message(key, bytes)]
    {
      sent := sent + [Message(key, bytes)];
    }
  }

  class SSLManager<K(==)> {
    const clientMode: bool
    /** setTransport is not modelled: the transport is given at construction. */
    const transport: Transport<K>
    var engines: map<K, SSLEngine>
    var listeners: map<K, Listener>
    var remaining: map<K, seq<byte>>
    var completed: map<K, bool>
    /** The handshakeCompleted calls made on the hosts' listeners, in order. */
    var notified: seq<Notice<K>>

    ghost function View(): Tables<K>
      reads this
    {
      Tables(engines, listeners, remaining, completed, notified)
    }

    ghost predicate Valid()
      reads this
    {
      View().Valid()
    }

    /** The SSLContext is not modelled: each key's engine is given to Prepare. */
    constructor (clientMode: bool, transport: Transport<K>)
      ensures this.clientMode == clientMode && this.transport == transport && Valid()
      ensures View() == Tables(map[], map[], map[], map[], [])
    {
      this.clientMode := clientMode;
      this.transport := transport;
      engines, listeners, remaining, completed := map[], map[], map[], map[];
      notified := [];
    }

    /** prepare(key), with the engine the context created for it. */
    method Prepare(key: K, engine: SSLEngine)
      requires Valid()
      modifies this
      ensures Valid() && View() == Prepared(old(View()), key, engine)
      ensures IsHandshakeCompleted(key) == Some(false)
    {
      engines := engines[key := engine];
      remaining := remaining[key := []];
      completed := completed[key := false];
    }

    /** isHandshakeCompleted(key); None where unboxing the missing flag throws. */
    function IsHandshakeCompleted(key: K): (r: Option<bool>)
      reads this
      ensures r.Some? <==> key in completed
      ensures r.Some? ==> r.value == completed[key]
    {
      if key in completed then Some(completed[key]) else None
    }

    predicate AnyUnprocessedDataFromPreviousReceives(key: K)
      reads this
      requires key in remaining
    {
      |remaining[key]| > 0
    }

    static predicate IsHandshakeStatusFinished(result: EngineResult)
    {
      result.handshakeStatus == FINISHED
    }

    /** finishHandshake(key). */
    method FinishHandshake(key: K) returns (outcome: Outcome)
      modifies this
      ensures View() == Finished(old(View()), key) && outcome == FinishOutcome(old(View()), key)
    {
      completed := completed[key := true];
      if key !in listeners {
        return Thrown(NullPointerException);
      }
      notified := notified + [Notice(key, listeners[key])];
      listeners := listeners - {key};
      outcome := Normal;
    }

    /** processLongRunningTask(engine): runs delegated tasks until there are none. */
    static method ProcessLongRunningTask(engine: SSLEngine)
      modifies engine
      ensures engine.log == old(engine.log) + Facade.DrainCalls(old(engine.delegatedTasks))
    {
      ghost var ts := engine.delegatedTasks;
      ghost var k := 0;
      var task := engine.GetDelegatedTask();
      while task.Some?
        invariant 0 <= k <= |ts|
        invariant task == if k < |ts| then Some(ts[k]) else None
        invariant engine.delegatedTasks == if k < |ts| then ts[k + 1..] else []
        invariant engine.log == old(engine.log) + Facade.Ran(ts[..k]) + [TaskPolled(task)]
        decreases |ts| - k
      {
        engine.RunTask(task.value);
        var next := engine.GetDelegatedTask();
        Facade.RanStep(old(engine.log), ts, k, next);
        k, task := k + 1, next;
      }
      assert ts[..k] == ts;
    }

    /** allocateDecryptionBufferForReceiving(key): a buffer of the session's
        application size; null when the key has no engine (the
        NullPointerException is caught). */
    method AllocateDecryptionBufferForReceiving(key: K) returns (b: ByteBuffer?)
      ensures key in engines ==>
        b != null && fresh(b) && fresh(b.hb) && b.Valid()
        && b.State() == Allocated(engines[key].session.applicationBufferSize)
      ensures key !in engines ==> b == null
    {
      if key !in engines {
        return null;
      }
      b := new ByteBuffer.Allocate(engines[key].session.applicationBufferSize);
    }

    /** allocateEncryptedByteBufferForSending(key): a buffer of the
        session's packet size; a NullPointerException without an engine. */
    method AllocateEncryptedByteBufferForSending(key: K) returns (outcome: Outcome, b: ByteBuffer?)
      ensures key in engines ==>
        outcome == Normal && b != null && fresh(b) && fresh(b.hb) && b.Valid()
        && b.State() == Allocated(engines[key].session.packetBufferSize)
      ensures key !in engines ==> outcome == Thrown(NullPointerException) && b == null
    {
      if key !in engines {
        return Thrown(NullPointerException), null;
      }
      outcome := Normal;
      b := new ByteBuffer.Allocate(engines[key].session.packetBufferSize);
    }

    /** encrypt(key, data, outgoing): one wrap of a buffer over `data`; a
        null `data` (None) throws a NullPointerException in wrap before the
        engine is looked up. */
    method Encrypt(key: K, data: Option<seq<byte>>, outgoing: ByteBuffer) returns (outcome: Outcome, result: EngineResult)
      requires outgoing.Valid()
      modifies (if key in engines then {engines[key]} else {}), outgoing, outgoing.hb
      ensures outgoing.Valid()
      ensures data.None? || key !in engines ==>
        outcome == Thrown(NullPointerException) && outgoing.State() == old(outgoing.State())
      ensures data.None? && key in engines ==> engines[key].log == old(engines[key].log)
      ensures data.Some? && key in engines ==>
        && outcome == Normal
        && result.bytesConsumed <= |data.value| && result.bytesProduced <= old(outgoing.Remaining())
        && Produced(old(outgoing.State()), outgoing.State(), result.bytesProduced)
        && |engines[key].log| == |old(engines[key].log)| + 1
        && engines[key].log[..|old(engines[key].log)|] == old(engines[key].log)
        && var c := engines[key].log[|old(engines[key].log)|];
           c.Wrapped? && c.dst == outgoing && c.offered == data.value && c.result == result
    {
      if data.None? || key !in engines {
        return Thrown(NullPointerException), NoResult;
      }
      var applicationData := new ByteBuffer.Wrap(data.value);
      var engine := engines[key];
      result := engine.Wrap(applicationData, outgoing);
      outcome := Normal;
    }

    /** copyToByteArray(outgoing, size): flips and reads the first size bytes. */
    static method CopyToByteArray(outgoing: ByteBuffer, size: nat) returns (bytes: seq<byte>)
      requires outgoing.Valid() && size <= outgoing.position
      modifies outgoing
      ensures outgoing.Valid() && bytes == old(outgoing.State()).content[..size]
      ensures outgoing.State() == Flipped(old(outgoing.State())).(position := size)
    {
      outgoing.Flip();
      bytes := outgoing.GetBytes(size);
    }

    /** getSSLMessageBytesFromBuffer: the next bytesProduced bytes. */
    static method GetSSLMessageBytesFromBuffer(encryptedData: ByteBuffer, result: EngineResult) returns (bytes: seq<byte>)
      requires encryptedData.Valid() && result.bytesProduced <= encryptedData.Remaining()
      modifies encryptedData
      ensures encryptedData.Valid() && bytes == old(encryptedData.State()).Unread()[..result.bytesProduced]
      ensures encryptedData.State() == old(encryptedData.State()).(position := old(encryptedData.position) + result.bytesProduced)
    {
      bytes := encryptedData.GetBytes(result.bytesProduced);
    }

    /** wrapAndSend(key): wraps nothing and sends what the engine produced. */
    method WrapAndSend(key: K) returns (result: EngineResult, ghost c: EngineCall, ghost m: Message<K>)
      requires key in engines
      modifies engines[key], transport
      ensures engines[key].log == old(engines[key].log) + [c]
      ensures c.Wrapped? && c.offered == [] && c.result == result
      ensures transport.sent == old(transport.sent) + [m]
      ensures m.key == key && |m.bytes| == result.bytesProduced
    {
      ghost var log0 := engines[key].log;
      var o, encryptedData := AllocateEncryptedByteBufferForSending(key);
      o, result := Encrypt(key, Some([]), encryptedData);
      c := engines[key].log[|log0|];
      assert engines[key].log == log0 + [c];
      encryptedData.Flip();
      var sslMessage := GetSSLMessageBytesFromBuffer(encryptedData, result);
      m := Message(key, sslMessage);
      transport.Send(key, sslMessage);
    }

    /** One round of send's loop: wraps `data` into the cleared buffer,
        sends the bytes the engine produced and clears the buffer again. */
    method SendChunk(key: K, data: seq<byte>, encryptedData: ByteBuffer) returns (result: EngineResult, bytes: seq<byte>, ghost c: EngineCall)
      requires key in engines
      requires encryptedData.Valid() && encryptedData.position == 0 && encryptedData.limit == encryptedData.Capacity()
      modifies engines[key], encryptedData, encryptedData.hb, transport
      ensures encryptedData.Valid() && encryptedData.position == 0 && encryptedData.limit == encryptedData.Capacity()
      ensures engines[key].log == old(engines[key].log) + [c]
      ensures c.Wrapped? && c.offered == data && c.result == result && result.bytesConsumed <= |data|
      ensures transport.sent == old(transport.sent) + [Message(key, bytes)] && |bytes| == result.bytesProduced
    {
      var o;
      ghost var log0 := engines[key].log;
      o, result := Encrypt(key, Some(data), encryptedData);
      c := engines[key].log[|log0|];
      assert engines[key].log == log0 + [c];
      bytes := CopyToByteArray(encryptedData, result.bytesProduced);
      transport.Send(key, bytes);
      encryptedData.Clear();
    }

    /** send's loop part way: the key's engine logged `calls` on plainBytes,
        and the transport received one message per call. */
    ghost predicate Sending(key: K, engine: SSLEngine, log0: seq<EngineCall>, sent0: seq<Message<K>>,
                            plainBytes: seq<byte>, encryptedData: ByteBuffer, calls: seq<EngineCall>, more: bool)
      reads this, engine, transport, encryptedData
    {
      && key in engines && engines[key] == engine
      && encryptedData.Valid() && encryptedData.position == 0 && encryptedData.limit == encryptedData.Capacity()
      && engine.log == log0 + calls
      && Running(SendLoop(|plainBytes|), plainBytes, calls, more)
      && sent0 <= transport.sent && Carries(key, transport.sent[|sent0|..], calls)
    }

    /** One round of send's loop, from `total` plain bytes consumed. */
    method SendRound(key: K, plainBytes: seq<byte>, total: nat, encryptedData: ByteBuffer,
                     ghost engine: SSLEngine, ghost log0: seq<EngineCall>, ghost sent0: seq<Message<K>>,
                     ghost calls: seq<EngineCall>)
      returns (result: EngineResult, ghost c: EngineCall)
      requires Sending(key, engine, log0, sent0, plainBytes, encryptedData, calls, true) && total == Taken(calls)
      modifies engine, encryptedData, encryptedData.hb, transport
      ensures c.Wrapped? && c.result == result && Taken(calls + [c]) == total + result.bytesConsumed
      ensures Sending(key, engine, log0, sent0, plainBytes, encryptedData, calls + [c],
                      Again(SendLoop(|plainBytes|), result, Taken(calls + [c])))
    {
      ghost var sentBefore := transport.sent;
      var sendableData;
      result, sendableData, c := SendChunk(key, plainBytes[total..], encryptedData);
      RunningStep(SendLoop(|plainBytes|), plainBytes, calls, c);
      CarriesSent(key, sent0, sentBefore, calls, Message(key, sendableData), c);
      assert engine.log == log0 + (calls + [c]);
    }

    /** send(key, plainBytes): wraps what is left of plainBytes and sends
        each output, while the engine says OK, consumes less than all of it
        and produces something; `fuel` bounds the rounds.  A key without an
        engine throws a NullPointerException when the buffer is allocated,
        and a null plainBytes (None) throws one before the first wrap. */
    method Send(key: K, plainBytes: Option<seq<byte>>, fuel: nat) returns (outcome: Outcome)
      modifies (if key in engines then {engines[key]} else {}), transport
      ensures key !in engines || plainBytes.None? ==>
        outcome == Thrown(NullPointerException) && transport.sent == old(transport.sent)
      ensures key in engines && plainBytes.None? ==> engines[key].log == old(engines[key].log)
      ensures key in engines && plainBytes.Some? ==>
        && old(engines[key].log) <= engines[key].log
        && var calls := engines[key].log[|old(engines[key].log)|..];
        && LoopEnd(SendLoop(|plainBytes.value|), calls, fuel) == Some(outcome)
        && Offers(plainBytes.value, calls) && Taken(calls) <= |plainBytes.value|
        && old(transport.sent) <= transport.sent && Carries(key, transport.sent[|old(transport.sent)|..], calls)
    {
      var o, encryptedData := AllocateEncryptedByteBufferForSending(key);
      if o != Normal {
        return o;
      }
      if plainBytes.None? {
        return Thrown(NullPointerException);
      }
      var data := plainBytes.value;
      ghost var engine := engines[key];
      ghost var log0 := engine.log;
      ghost var sent0 := transport.sent;
      ghost var calls: seq<EngineCall> := [];
      var totalBytesConsumed := 0;
      var more := true;
      var n: nat := fuel;
      while more && n > 0
        invariant Sending(key, engine, log0, sent0, data, encryptedData, calls, more)
        invariant |calls| + n == fuel && totalBytesConsumed == Taken(calls)
        decreases n
      {
        var result;
        ghost var c;
        result, c := SendRound(key, data, totalBytesConsumed, encryptedData, engine, log0, sent0, calls);
        calls := calls + [c];
        totalBytesConsumed := totalBytesConsumed + result.bytesConsumed;
        more := result.status == OK && totalBytesConsumed < |data| && result.bytesProduced > 0;
        n := n - 1;
      }
      RunningEnd(SendLoop(|data|), data, calls, more, fuel);
      assert engine.log[|log0|..] == calls;
      outcome := if more then OutOfFuel else Normal;
    }

    /** unwrap's loop part way: the engine's log grew by `calls`, which read
        `data` from the input buffer and wrote what they produced into the
        output buffer, which was u0 before the loop. */
    static ghost predicate Unwrapping(engine: SSLEngine, log0: seq<EngineCall>, totalIncomingData: ByteBuffer,
                                      unwrappedData: ByteBuffer, u0: Buf, loop: Loop, data: seq<byte>,
                                      calls: seq<EngineCall>, more: bool)
      reads engine, totalIncomingData, totalIncomingData.hb, unwrappedData, unwrappedData.hb
    {
      && unwrappedData.Valid() && totalIncomingData.Valid() && u0.Wf()
      && engine.log == log0 + calls
      && totalIncomingData.State() == Buf(data, Taken(calls), |data|)
      && Running(loop, data, calls, more) && Into(calls, unwrappedData)
      && Produced(u0, unwrappedData.State(), Output(calls))
    }

    /** One round of unwrap's loop: the engine unwraps what is left of the
        input into unwrappedData. */
    static method UnwrapRound(engine: SSLEngine, totalIncomingData: ByteBuffer, unwrappedData: ByteBuffer,
                              ghost log0: seq<EngineCall>, ghost u0: Buf, ghost loop: Loop, ghost data: seq<byte>,
                              ghost calls: seq<EngineCall>)
      returns (result: EngineResult, ghost c: EngineCall)
      requires loop.UnwrapLoop? && Unwrapping(engine, log0, totalIncomingData, unwrappedData, u0, loop, data, calls, true)
      requires unwrappedData != totalIncomingData && unwrappedData.hb != totalIncomingData.hb
      modifies engine, unwrappedData, unwrappedData.hb, totalIncomingData
      ensures c.Unwrapped? && c.result == result && Taken(calls + [c]) == Taken(calls) + result.bytesConsumed
      ensures Output(calls + [c]) == Output(calls) + result.bytesProduced
      ensures Produced(old(unwrappedData.State()), unwrappedData.State(), result.bytesProduced)
      ensures Unwrapping(engine, log0, totalIncomingData, unwrappedData, u0, loop, data, calls + [c],
                         Again(loop, result, Taken(calls + [c])))
    {
      ghost var before := totalIncomingData.State();
      ghost var out := unwrappedData.State();
      assert before.Unread() == data[Taken(calls)..];
      result := engine.Unwrap(totalIncomingData, unwrappedData);
      c := Unwrapped(totalIncomingData, unwrappedData, data[Taken(calls)..], result);
      RunningStep(loop, data, calls, c);
      Snoc(calls, c);
      ProducedTwice(u0, out, unwrappedData.State(), Output(calls), result.bytesProduced);
      assert engine.log == log0 + (calls + [c]);
    }

    /** unwrap(key, unwrappedData, totalIncomingData) on the key's engine,
        with `completed` its handshake flag: unwraps until needsUnwrap says
        no; totalBytesToBeConsumed is the capacity of the input's array.
        `fuel` bounds the rounds. */
    static method Unwrap(engine: SSLEngine, completed: bool, unwrappedData: ByteBuffer, totalIncomingData: ByteBuffer, fuel: nat)
      returns (outcome: Outcome, result: EngineResult)
      requires unwrappedData.Valid() && totalIncomingData.Valid()
      requires unwrappedData != totalIncomingData && unwrappedData.hb != totalIncomingData.hb
      requires totalIncomingData.position == 0 && totalIncomingData.limit == totalIncomingData.Capacity()
      modifies engine, unwrappedData, unwrappedData.hb, totalIncomingData
      ensures unwrappedData.Valid() && totalIncomingData.Valid()
      ensures old(engine.log) <= engine.log
      ensures var calls := engine.log[|old(engine.log)|..];
        && LoopEnd(UnwrapLoop(completed, totalIncomingData.Capacity()), calls, fuel) == Some(outcome)
        && Offers(old(totalIncomingData.State()).content, calls) && Taken(calls) <= totalIncomingData.Capacity()
        && Into(calls, unwrappedData)
        && Produced(old(unwrappedData.State()), unwrappedData.State(), Output(calls))
        && totalIncomingData.State() == old(totalIncomingData.State()).(position := Taken(calls))
        && (calls != [] ==> result == calls[|calls| - 1].result)
    {
      ghost var data := totalIncomingData.State().content;
      ghost var log0 := engine.log;
      ghost var calls: seq<EngineCall> := [];
      ghost var loop := UnwrapLoop(completed, totalIncomingData.Capacity());
      ghost var u0 := unwrappedData.State();
      var totalBytesConsumed := 0;
      var totalBytesToBeConsumed := totalIncomingData.Capacity();
      result := NoResult;
      var more := true;
      var n: nat := fuel;
      while more && n > 0
        invariant Unwrapping(engine, log0, totalIncomingData, unwrappedData, u0, loop, data, calls, more)
        invariant |calls| + n == fuel && totalBytesConsumed == Taken(calls)
        invariant calls != [] ==> result == calls[|calls| - 1].result
        decreases n
      {
        ghost var c;
        result, c := UnwrapRound(engine, totalIncomingData, unwrappedData, log0, u0, loop, data, calls);
        calls := calls + [c];
        totalBytesConsumed := totalBytesConsumed + result.bytesConsumed;
        more := NeedsUnwrap(completed, result, totalBytesConsumed, totalBytesToBeConsumed);
        n := n - 1;
      }
      RunningEnd(loop, data, calls, more, fuel);
      assert engine.log[|log0|..] == calls;
      outcome := if more then OutOfFuel else Normal;
    }

    /** getDataForDecryption(key, incoming): a buffer holding the key's
        remainder followed by the incoming bytes, flipped for reading; the
        remainder is emptied. */
    method GetDataForDecryption(key: K, incomingBytes: seq<byte>) returns (totalIncomingData: ByteBuffer)
      requires key in remaining
      modifies this
      ensures fresh(totalIncomingData) && fresh(totalIncomingData.hb) && totalIncomingData.Valid()
      ensures var data := old(remaining[key]) + incomingBytes;
        totalIncomingData.State() == Buf(data, 0, |data|)
      ensures View() == Kept(old(View()), key, [])
    {
      var remainingData := remaining[key];
      totalIncomingData := new ByteBuffer.Allocate(|remainingData| + |incomingBytes|);
      AddPendingData(key, remainingData, totalIncomingData);
      AddLatestData(incomingBytes, totalIncomingData);
      FullFlipped(totalIncomingData.State());
      totalIncomingData.Flip();
      if remainingData == [] {
        assert remaining == old(remaining)[key := []];
      }
    }

    /** addPendingData: a non-empty remainder is put into the buffer and
        the key's remainder emptied; an empty one changes nothing. */
    method AddPendingData(key: K, remainingData: seq<byte>, totalIncomingData: ByteBuffer)
      requires totalIncomingData.Valid() && |remainingData| <= totalIncomingData.Remaining()
      modifies this, totalIncomingData, totalIncomingData.hb
      ensures totalIncomingData.Valid()
      ensures totalIncomingData.State() == Appended(old(totalIncomingData.State()), remainingData)
      ensures View() == if remainingData == [] then old(View()) else Kept(old(View()), key, [])
    {
      if |remainingData| > 0 {
        totalIncomingData.PutBytes(remainingData);
        remaining := remaining[key := []];
      } else {
        assert Appended(totalIncomingData.State(), remainingData) == totalIncomingData.State();
      }
    }

    /** addLatestData: non-empty incoming bytes are put into the buffer. */
    static method AddLatestData(encryptedData: seq<byte>, totalIncomingData: ByteBuffer)
      requires totalIncomingData.Valid() && |encryptedData| <= totalIncomingData.Remaining()
      modifies totalIncomingData, totalIncomingData.hb
      ensures totalIncomingData.Valid()
      ensures totalIncomingData.State() == Appended(old(totalIncomingData.State()), encryptedData)
    {
      if |encryptedData| > 0 {
        totalIncomingData.PutBytes(encryptedData);
      } else {
        assert Appended(totalIncomingData.State(), encryptedData) == totalIncomingData.State();
      }
    }

    /** storeUnprocessedData(key, buffer): the bytes between the buffer's
        position and limit become the key's remainder. */
    method StoreUnprocessedData(key: K, totalIncomingData: ByteBuffer)
      requires totalIncomingData.Valid()
      modifies this
      ensures View() == Kept(old(View()), key, totalIncomingData.State().Unread())
    {
      var remainingData := totalIncomingData.hb[totalIncomingData.position..totalIncomingData.limit];
      remaining := remaining[key := remainingData];
    }

    /** decrypt(key, incoming, decryptedData): unwraps the remainder joined
        with the incoming bytes into decryptedData, keeps what the engine
        did not consume as the new remainder, and finishes the handshake on
        a FINISHED result.  A key without a remainder, and then a null
        `incoming` (None), throw a NullPointerException when their lengths
        are read, before any engine call. */
    method Decrypt(key: K, incomingBytes: Option<seq<byte>>, decryptedData: ByteBuffer, fuel: nat)
      returns (outcome: Outcome, result: EngineResult, ghost calls: seq<EngineCall>)
      requires Valid() && decryptedData.Valid()
      modifies this, (if key in engines then {engines[key]} else {}), decryptedData, decryptedData.hb
      ensures Valid() && decryptedData.Valid() && engines == old(engines)
      ensures key !in old(remaining) || incomingBytes.None? ==>
        && outcome == Thrown(NullPointerException) && View() == old(View())
        && decryptedData.State() == old(decryptedData.State())
        && (key in engines ==> engines[key].log == old(engines[key].log))
      ensures key in old(remaining) && incomingBytes.Some? ==>
        && key in old(engines) && engines[key].log == old(engines[key].log) + calls
        && var data := old(remaining[key]) + incomingBytes.value;
        && Offers(data, calls) && Into(calls, decryptedData) && Taken(calls) <= |data|
        && Produced(old(decryptedData.State()), decryptedData.State(), Output(calls))
        && remaining[key] == (if outcome == OutOfFuel then [] else data[Taken(calls)..])
        && DecryptsTo(old(View()), key, incomingBytes.value, calls, fuel, outcome, View())
        && (outcome != OutOfFuel ==> result == calls[|calls| - 1].result)
    {
      if key !in remaining || incomingBytes.None? {
        return Thrown(NullPointerException), NoResult, [];
      }
      outcome, result, calls := DecryptKnown(key, incomingBytes.value, decryptedData, fuel);
    }

    /** decrypt on a key that has a remainder. */
    method DecryptKnown(key: K, incomingBytes: seq<byte>, decryptedData: ByteBuffer, fuel: nat)
      returns (outcome: Outcome, result: EngineResult, ghost calls: seq<EngineCall>)
      requires Valid() && decryptedData.Valid() && key in remaining
      modifies this, engines[key], decryptedData, decryptedData.hb
      ensures Valid() && decryptedData.Valid() && engines == old(engines)
      ensures engines[key].log == old(engines[key].log) + calls
      ensures var data := old(remaining[key]) + incomingBytes;
        && Offers(data, calls) && Into(calls, decryptedData) && Taken(calls) <= |data|
        && Produced(old(decryptedData.State()), decryptedData.State(), Output(calls))
        && remaining[key] == (if outcome == OutOfFuel then [] else data[Taken(calls)..])
        && DecryptsTo(old(View()), key, incomingBytes, calls, fuel, outcome, View())
        && (outcome != OutOfFuel ==> result == calls[|calls| - 1].result)
    {
      ghost var t := View();
      outcome, result, calls := UnwrapIncoming(key, incomingBytes, decryptedData, fuel);
      if outcome == OutOfFuel {
        DecryptStarves(t, key, incomingBytes, calls, fuel);
        return;
      }
      outcome := FinishIfFinished(key, result, t, incomingBytes, calls, fuel);
    }

    /** The end of decrypt once unwrap's loop ended: finishHandshake on a
        FINISHED result. */
    method FinishIfFinished(key: K, result: EngineResult, ghost t: Tables<K>, ghost incoming: seq<byte>,
                            ghost calls: seq<EngineCall>, ghost fuel: nat)
      returns (outcome: Outcome)
      requires Valid() && key in t.remaining && key in t.completed
      requires LoopEnd(UnwrapLoop(t.completed[key], |t.remaining[key] + incoming|), calls, fuel) == Some(Normal)
      requires Taken(calls) <= |t.remaining[key] + incoming|
      requires View() == Kept(t, key, (t.remaining[key] + incoming)[Taken(calls)..])
      requires calls != [] ==> result == calls[|calls| - 1].result
      modifies this
      ensures Valid() && engines == old(engines) && remaining == old(remaining)
      ensures DecryptsTo(t, key, incoming, calls, fuel, outcome, View())
    {
      ghost var rem := (t.remaining[key] + incoming)[Taken(calls)..];
      DecryptEnds(t, key, incoming, calls, fuel);
      if IsHandshakeStatusFinished(result) {
        outcome := FinishHandshake(key);
        DecryptedFinishing(t, key, incoming, calls, fuel, rem);
      } else {
        outcome := Normal;
        DecryptedKeeping(t, key, incoming, calls, fuel, rem);
      }
    }

    /** decrypt up to its finishHandshake: the remainder joined with the
        incoming bytes is unwrapped into decryptedData, and once unwrap's
        loop has ended what the engine did not consume is stored as the
        remainder. */
    method UnwrapIncoming(key: K, incomingBytes: seq<byte>, decryptedData: ByteBuffer, fuel: nat)
      returns (outcome: Outcome, result: EngineResult, ghost calls: seq<EngineCall>)
      requires Valid() && key in remaining && decryptedData.Valid()
      modifies this, engines[key], decryptedData, decryptedData.hb
      ensures decryptedData.Valid() && engines == old(engines)
      ensures engines[key].log == old(engines[key].log) + calls
      ensures var data := old(remaining[key]) + incomingBytes;
        && Offers(data, calls) && Into(calls, decryptedData) && Taken(calls) <= |data|
        && Produced(old(decryptedData.State()), decryptedData.State(), Output(calls))
        && LoopEnd(UnwrapLoop(old(completed[key]), |data|), calls, fuel) == Some(outcome)
        && View() == Kept(old(View()), key, if outcome == OutOfFuel then [] else data[Taken(calls)..])
        && (outcome != OutOfFuel ==> result == calls[|calls| - 1].result)
    {
      ghost var log0 := engines[key].log;
      var encryptedData := GetDataForDecryption(key, incomingBytes);
      outcome, result := Unwrap(engines[key], completed[key], decryptedData, encryptedData, fuel);
      calls := engines[key].log[|log0|..];
      assert engines[key].log == log0 + calls;
      ghost var data := old(remaining[key]) + incomingBytes;
      if outcome == Normal {
        assert encryptedData.State().Unread() == data[Taken(calls)..];
        ghost var mid := View();
        StoreUnprocessedData(key, encryptedData);
        assert mid.remaining[key := data[Taken(calls)..]] == old(remaining)[key := data[Taken(calls)..]];
      }
    }

    /** The NEED_WRAP arm of shakehands: wrapAndSend, and finishHandshake
        when the wrap finished the handshake. */
    method WrapPass(key: K) returns (ended: Option<Outcome>, ghost rest: seq<EngineCall>, ghost p: Step)
      requires Valid() && key in engines
      modifies this, engines[key], transport
      ensures Valid() && engines == old(engines) && remaining == old(remaining)
      ensures engines[key].log == old(engines[key].log) + rest
      ensures OnWrapPoll(old(View()).At(key), rest) == Some(p) && p.ended == ended
      ensures View() == Applied(old(View()), key, p)
      ensures old(transport.sent) <= transport.sent && Carries(key, transport.sent[|old(transport.sent)|..], rest)
    {
      ghost var t := View();
      ghost var s := t.At(key);
      var result, c, m := WrapAndSend(key);
      rest := [c];
      CarriesOne(key, m, c);
      assert transport.sent[|old(transport.sent)|..] == [m];
      if IsHandshakeStatusFinished(result) {
        var o := FinishHandshake(key);
        ended, p := Some(o), Finish(s);
        FinishedIsApplied(t, key);
      } else {
        ended, p := None, Step(s, None, []);
        AppliedIdle(t, key, None);
      }
    }

    /** The NEED_UNWRAP arm of shakehands: with an empty remainder it
        returns; otherwise it decrypts the remainder, and returns on
        NEED_UNWRAP, calls finishHandshake on FINISHED and goes round
        otherwise. */
    method UnwrapPass(key: K, fuel: nat) returns (ended: Option<Outcome>, ghost rest: seq<EngineCall>, ghost p: Step)
      requires Valid() && key in engines
      modifies this, engines[key]
      ensures Valid() && engines == old(engines)
      ensures engines[key].log == old(engines[key].log) + rest
      ensures OnUnwrapPoll(old(View()).At(key), rest, fuel) == Some(p) && p.ended == ended
      ensures View() == Applied(old(View()), key, p)
      ensures Carries(key, [], rest)
    {
      ghost var t := View();
      ghost var s := t.At(key);
      if !AnyUnprocessedDataFromPreviousReceives(key) {
        ended, rest, p := Some(Normal), [], Step(s, Some(Normal), []);
        AppliedIdle(t, key, Some(Normal));
        return;
      }
      ended, rest, p := DecryptPending(key, fuel);
      DecryptedCarriesNothing(key, s, [], rest, fuel);
    }

    /** shakehands' NEED_UNWRAP arm on a key with a remainder: decrypt the
        remainder into a new buffer and act on the last result. */
    method DecryptPending(key: K, fuel: nat) returns (ended: Option<Outcome>, ghost rest: seq<EngineCall>, ghost p: Step)
      requires Valid() && key in engines && |remaining[key]| > 0
      modifies this, engines[key]
      ensures Valid() && engines == old(engines)
      ensures engines[key].log == old(engines[key].log) + rest
      ensures var s := old(View()).At(key);
        && Decrypted(s, [], rest, fuel).Some?
        && var d := Decrypted(s, [], rest, fuel).value;
        && p == (if d.ended != Some(Normal) then d else Resumed(d, rest[|rest| - 1].result.handshakeStatus))
      ensures p.ended == ended && View() == Applied(old(View()), key, p)
    {
      ghost var t := View();
      ghost var s := t.At(key);
      var decryptedData := AllocateDecryptionBufferForReceiving(key);
      var outcome, unwrapResult, calls := Decrypt(key, Some([]), decryptedData, fuel);
      rest := calls;
      ghost var d := Decrypted(s, [], calls, fuel).value;
      if outcome != Normal {
        ended, p := Some(outcome), d;
      } else {
        ended, p := Resume(key, unwrapResult, t, d);
      }
    }

    /** The rest of shakehands' NEED_UNWRAP arm once decrypt returned
        normally with the engine result r. */
    method Resume(key: K, r: EngineResult, ghost t: Tables<K>, ghost d: Step)
      returns (ended: Option<Outcome>, ghost p: Step)
      requires t.Valid() && key in t.engines && Valid() && View() == Applied(t, key, d)
      requires d.ended == Some(Normal)
      modifies this
      ensures Valid() && engines == old(engines)
      ensures p == Resumed(d, r.handshakeStatus) && p.ended == ended
      ensures View() == Applied(t, key, p)
    {
      if r.handshakeStatus == NEED_UNWRAP {
        ended, p := Some(Normal), d;
      } else if IsHandshakeStatusFinished(r) {
        ghost var mid := View();
        var o := FinishHandshake(key);
        ended, p := Some(o), Then(d, Finish(d.state));
        FinishedIsApplied(mid, key);
        AppliedThen(t, key, d, Finish(d.state));
      } else {
        ended, p := None, d.(ended := None);
      }
    }

    /** shakehands' switch on the status hs. */
    method OnStatus(key: K, hs: HandshakeStatus, fuel: nat)
      returns (ended: Option<Outcome>, ghost rest: seq<EngineCall>, ghost p: Step)
      requires Valid() && key in engines
      modifies this, engines[key], transport
      ensures Valid() && engines == old(engines)
      ensures engines[key].log == old(engines[key].log) + rest
      ensures Arm(old(View()).At(key), hs, rest, fuel) == Some(p) && p.ended == ended
      ensures View() == Applied(old(View()), key, p)
      ensures old(transport.sent) <= transport.sent && Carries(key, transport.sent[|old(transport.sent)|..], rest)
    {
      ghost var t := View();
      ghost var s := t.At(key);
      assert transport.sent[|old(transport.sent)|..] == [];
      match hs
      case FINISHED =>
        var o := FinishHandshake(key);
        ended, rest, p := Some(o), [], Finish(s);
        FinishedIsApplied(t, key);
      case NOT_HANDSHAKING =>
        ended, rest, p := Some(Normal), [], Step(s, Some(Normal), []);
        AppliedIdle(t, key, Some(Normal));
      case NEED_TASK =>
        ghost var ts := engines[key].delegatedTasks;
        ProcessLongRunningTask(engines[key]);
        ended, rest, p := None, Facade.DrainCalls(ts), Step(s, None, []);
        DrainCallsAreDrain(ts);
        DrainCarriesNothing(key, ts);
        AppliedIdle(t, key, None);
      case NEED_WRAP =>
        ended, rest, p := WrapPass(key);
      case NEED_UNWRAP =>
        ended, rest, p := UnwrapPass(key, fuel);
    }

    /** One pass of shakehands' while(true) loop. */
    method ShakeOnce(key: K, fuel: nat)
      returns (ended: Option<Outcome>, ghost round: seq<EngineCall>, ghost p: Step)
      requires Valid() && key in engines
      modifies this, engines[key], transport
      ensures Valid() && engines == old(engines)
      ensures engines[key].log == old(engines[key].log) + round
      ensures Pass(old(View()).At(key), round, fuel) == Some(p) && p.ended == ended
      ensures View() == Applied(old(View()), key, p)
      ensures old(transport.sent) <= transport.sent && Carries(key, transport.sent[|old(transport.sent)|..], round)
    {
      ghost var log0 := engines[key].log;
      ghost var sent0 := transport.sent;
      var handshakeStatus := engines[key].GetHandshakeStatus();
      ghost var rest;
      ended, rest, p := OnStatus(key, handshakeStatus, fuel);
      round := [StatusPolled(handshakeStatus)] + rest;
      assert round[0] == StatusPolled(handshakeStatus) && round[1..] == rest;
      assert engines[key].log == log0 + round;
      CarriesJoin(key, sent0, sent0, transport.sent, [StatusPolled(handshakeStatus)], rest);
    }

    /** shakehands part way: the engine made the passes `rounds` from the
        key's entries in t, which leave the tables the step p made, and
        the wraps among them sent the new messages. */
    ghost predicate Shaking(t: Tables<K>, key: K, engine: SSLEngine, log0: seq<EngineCall>, sent0: seq<Message<K>>,
                            fuel: nat, rounds: seq<seq<EngineCall>>, p: Step)
      reads this, engine, transport
    {
      && Valid() && key in engines && engines[key] == engine && key in t.remaining && key in t.completed
      && engine.log == log0 + Flatten(rounds)
      && Passes(t.At(key), rounds, fuel) == Some(p)
      && View() == Applied(t, key, p)
      && sent0 <= transport.sent && Carries(key, transport.sent[|sent0|..], Flatten(rounds))
    }

    /** One more pass of shakehands' loop. */
    method ShakeRound(key: K, fuel: nat, ghost t: Tables<K>, ghost engine: SSLEngine, ghost log0: seq<EngineCall>,
                      ghost sent0: seq<Message<K>>, ghost rounds: seq<seq<EngineCall>>, ghost p: Step)
      returns (ended: Option<Outcome>, ghost rounds': seq<seq<EngineCall>>, ghost p': Step)
      requires Shaking(t, key, engine, log0, sent0, fuel, rounds, p) && p.ended.None?
      modifies this, engine, transport
      ensures Shaking(t, key, engine, log0, sent0, fuel, rounds', p') && engines == old(engines)
      ensures p'.ended == ended && |rounds'| == |rounds| + 1
    {
      ghost var sentBefore := transport.sent;
      ghost var round, q;
      ended, round, q := ShakeOnce(key, fuel);
      HandshakeStep(t, key, t.At(key), rounds, round, fuel, p, q);
      LogSnoc(log0, rounds, round);
      FlattenSnoc(rounds, round);
      CarriesJoin(key, sent0, sentBefore, transport.sent, Flatten(rounds), round);
      rounds', p' := rounds + [round], Then(p, q);
    }

    /** shakehands(key): passes of the loop until one returns, at most
        `fuel` of them; a key without an engine throws a
        NullPointerException at the first status poll. */
    method ShakeHands(key: K, fuel: nat) returns (outcome: Outcome, ghost rounds: seq<seq<EngineCall>>)
      requires Valid()
      modifies this, (if key in engines then {engines[key]} else {}), transport
      ensures Valid() && engines == old(engines)
      ensures key !in engines ==>
        outcome == Thrown(NullPointerException) && View() == old(View()) && transport.sent == old(transport.sent)
      ensures key in engines ==>
        && engines[key].log == old(engines[key].log) + Flatten(rounds)
        && Handshook(old(View()), key, fuel, rounds, outcome, View())
        && Tail(remaining[key], old(remaining[key]))
        && old(transport.sent) <= transport.sent && Carries(key, transport.sent[|old(transport.sent)|..], Flatten(rounds))
    {
      if key !in engines {
        return Thrown(NullPointerException), [];
      }
      ghost var t := View();
      ghost var engine := engines[key];
      ghost var p := Step(t.At(key), None, []);
      rounds := [];
      AppliedIdle(t, key, None);
      assert transport.sent[|old(transport.sent)|..] == [];
      var ended: Option<Outcome> := None;
      var n: nat := fuel;
      while ended.None? && n > 0
        invariant Shaking(t, key, engine, old(engine.log), old(transport.sent), fuel, rounds, p)
        invariant engines == old(engines) && p.ended == ended && |rounds| + n == fuel
        decreases n
      {
        ended, rounds, p := ShakeRound(key, fuel, t, engine, old(engine.log), old(transport.sent), rounds, p);
        n := n - 1;
      }
      outcome := if ended.Some? then ended.value else OutOfFuel;
      PassesKeepTail(t.At(key), rounds, fuel);
    }

    /** beginSSLHandshake(key, listener): the listener is registered first
        (None, a null listener, leaves the key without one), then the engine
        begins the handshake and shakehands runs; a key without an engine
        throws a NullPointerException after the listener was registered. */
    method BeginSSLHandshake(key: K, l: Option<Listener>, fuel: nat) returns (outcome: Outcome, ghost rounds: seq<seq<EngineCall>>)
      requires Valid()
      modifies this, (if key in engines then {engines[key]} else {}), transport
      ensures Valid() && engines == old(engines)
      ensures key !in engines ==>
        outcome == Thrown(NullPointerException) && View() == Listening(old(View()), key, l)
        && transport.sent == old(transport.sent)
      ensures key in engines ==>
        && engines[key].log == old(engines[key].log) + [BeganHandshake] + Flatten(rounds)
        && Handshook(Listening(old(View()), key, l), key, fuel, rounds, outcome, View())
        && Tail(remaining[key], old(remaining[key]))
        && old(transport.sent) <= transport.sent && Carries(key, transport.sent[|old(transport.sent)|..], Flatten(rounds))
    {
      match l {
        case Some(listener) => listeners := listeners[key := listener];
        case None => listeners := listeners - {key};
      }
      if key !in engines {
        return Thrown(NullPointerException), [];
      }
      engines[key].BeginHandshake();
      outcome, rounds := ShakeHands(key, fuel);
    }

    /** cleanState(key): the key leaves all four maps. */
    method CleanState(key: K)
      requires Valid()
      modifies this
      ensures Valid() && View() == Cleaned(old(View()), key)
    {
      engines := engines - {key};
      listeners := listeners - {key};
      remaining := remaining - {key};
      completed := completed - {key};
    }
  }
}
