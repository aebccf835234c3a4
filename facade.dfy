/** The handshake driver and the public facade: Handshaker polls the engine's
    handshake status and reacts (src/prj/sslfacade/Handshaker.java), Tasks is
    the cursor a task handler drains (src/prj/sslfacade/Tasks.java), the two
    default task handlers drain it and call done() (DefaultTaskHandler.java,
    DefaultITaskHandler.java), and SSLFacade wires one Worker to one
    Handshaker and fires the host's completion listener once
    (src/prj/sslfacade/SSLFacade.java).  The handshake is specified by the
    engine calls it makes: Shaking reads them poll by poll. */
module Facade {
  import opened Lang
  import opened Nio
  import opened SslEngine
  import opened Buffers
  import opened Appendable
  import opened Work

  /** The host's HandshakeCompletedListener: host code, known by identity. */
  datatype HostListener = HostListener(id: nat)

  /** What SSLFacade's completion callback reads and writes: the handshaker
      (null once completed), the host listener, and the notifications the
      host listeners have received so far. */
  datatype Completion = Completion(handshaker: Handshaker?, hcl: Option<HostListener>, notified: seq<HostListener>)

  /** The completion callback as a value: drop the handshaker, notify the
      host listener if there is one, and clear it. */
  function AfterCompletion(c: Completion): (r: Completion)
    ensures r.handshaker == null && r.hcl.None?
    ensures c.hcl.Some? ==> r.notified == c.notified + [c.hcl.value]
    ensures c.hcl.None? ==> r.notified == c.notified
  {
    Completion(null, None, c.notified + (if c.hcl.Some? then [c.hcl.value] else []))
  }

  /** n completions in a row. */
  function Completions(c: Completion, n: nat): Completion
    decreases n
  {
    if n == 0 then c else Completions(AfterCompletion(c), n - 1)
  }

  /** However often the callback runs, the host listener hears of completion
      at most once, and afterwards no handshaker and no listener are left. */
  lemma {:induction false} NotifiedAtMostOnce(c: Completion, n: nat)
    ensures Completions(c, n).notified == c.notified + (if n > 0 && c.hcl.Some? then [c.hcl.value] else [])
    ensures n > 0 ==> Completions(c, n).handshaker == null && Completions(c, n).hcl.None?
    decreases n
  {
    if n > 0 {
      var d := AfterCompletion(c);
      NotifiedAtMostOnce(d, n - 1);
      assert d.hcl.None?;
    }
  }

  /** How one shakehands() unfolds, read from the engine calls it made: each
      poll of the handshake status is followed by what its case does.
      NOT_HANDSHAKING, NEED_UNWRAP and FINISHED end it (FINISHED throws
      NullPointerException when no completion listener is attached);
      NEED_WRAP wraps once with a null plainData and polls again unless the
      wrap failed; NEED_TASK drains the delegated tasks and polls again.  A
      run cut short by the step bound ends OutOfFuel. */
  ghost predicate Shaking(calls: seq<EngineCall>, hasListener: bool, callback: bool, outcome: Outcome)
    decreases |calls|
  {
    if calls == [] then outcome == OutOfFuel
    else if !calls[0].StatusPolled? then false
    else
      match calls[0].status
      case NOT_HANDSHAKING => |calls| == 1 && outcome == Normal
      case NEED_UNWRAP => |calls| == 1 && outcome == Normal
      case FINISHED => |calls| == 1 && outcome == (if callback then Normal else Thrown(NullPointerException))
      case NEED_TASK => Draining(calls[1..], hasListener, callback, outcome)
      case NEED_WRAP =>
        && |calls| > 1 && calls[1].Wrapped?
        && var o := WrapRound(calls[1].result, hasListener, None);
           if o == Some(Normal) then Shaking(calls[2..], hasListener, callback, outcome)
           else |calls| == 2 && o == Some(outcome)
  }

  /** The drain of the delegated tasks: each task handed out is run at once;
      the poll that finds none is followed by the next shakehands(). */
  ghost predicate Draining(calls: seq<EngineCall>, hasListener: bool, callback: bool, outcome: Outcome)
    decreases |calls|
  {
    if calls == [] then false
    else
      match calls[0]
      case TaskPolled(next) =>
        if next.None? then Shaking(calls[1..], hasListener, callback, outcome)
        else |calls| > 1 && calls[1] == TaskRan(next.value) && Draining(calls[2..], hasListener, callback, outcome)
      case _ => false
  }

  /** The calls the drain loop makes for the tasks it was handed and ran. */
  function Ran(ts: seq<Task>): (calls: seq<EngineCall>)
    ensures |calls| == 2 * |ts|
  {
    if ts == [] then [] else [TaskPolled(Some(ts[0])), TaskRan(ts[0])] + Ran(ts[1..])
  }

  /** One more task handed out and run adds its two calls at the end. */
  lemma {:induction false} RanSnoc(ts: seq<Task>, t: Task)
    ensures Ran(ts + [t]) == Ran(ts) + [TaskPolled(Some(t)), TaskRan(t)]
  {
    if ts != [] {
      assert (ts + [t])[1..] == ts[1..] + [t];
      RanSnoc(ts[1..], t);
    }
  }

  /** The whole drain of tasks ts: each handed out and run in order, then
      the poll that returns null. */
  function DrainCalls(ts: seq<Task>): seq<EngineCall>
  {
    Ran(ts) + [TaskPolled(None)]
  }

  /** The log of a drain after the k-th task was run and the next one
      asked for. */
  lemma RanStep(log0: seq<EngineCall>, ts: seq<Task>, k: nat, next: Option<Task>)
    requires k < |ts|
    ensures log0 + Ran(ts[..k]) + [TaskPolled(Some(ts[k]))] + [TaskRan(ts[k])] + [TaskPolled(next)]
         == log0 + Ran(ts[..k + 1]) + [TaskPolled(next)]
  {
    RanSnoc(ts[..k], ts[k]);
    assert ts[..k + 1] == ts[..k] + [ts[k]];
  }

  /** A drain of exactly the tasks ts, followed by calls `rest`, is a
      Draining run exactly when `rest` is a Shaking run. */
  lemma {:induction false} DrainThenShake(ts: seq<Task>, rest: seq<EngineCall>, hasListener: bool, callback: bool, outcome: Outcome)
    ensures Draining(DrainCalls(ts) + rest, hasListener, callback, outcome) <==> Shaking(rest, hasListener, callback, outcome)
  {
    var calls := DrainCalls(ts) + rest;
    if ts == [] {
      assert calls[1..] == rest;
    } else {
      assert calls[0] == TaskPolled(Some(ts[0])) && calls[1] == TaskRan(ts[0]);
      assert calls[2..] == DrainCalls(ts[1..]) + rest;
      DrainThenShake(ts[1..], rest, hasListener, callback, outcome);
    }
  }

  /** Whether the calls polled FINISHED, which signals completion. */
  predicate Fired(calls: seq<EngineCall>)
  {
    StatusPolled(FINISHED) in calls
  }

  /** A drain polls no handshake status. */
  lemma {:induction false} DrainFiresNothing(ts: seq<Task>)
    ensures !Fired(DrainCalls(ts))
  {
    if ts != [] {
      DrainFiresNothing(ts[1..]);
      assert DrainCalls(ts) == [TaskPolled(Some(ts[0])), TaskRan(ts[0])] + DrainCalls(ts[1..]);
    }
  }

  /** The status polls that end a handshake step. */
  predicate Final(call: EngineCall)
  {
    call == StatusPolled(NOT_HANDSHAKING) || call == StatusPolled(NEED_UNWRAP) || call == StatusPolled(FINISHED)
  }

  /** Only the last call of a handshake run can be a poll that ends it: so
      FINISHED is seen, and completion signalled, at most once per run, and
      NEED_UNWRAP suspends the run.  A run that returns normally ended on
      such a poll, and no step calls the engine's beginHandshake. */
  lemma {:induction false} ShakingEndsOnce(calls: seq<EngineCall>, hasListener: bool, callback: bool, outcome: Outcome)
    requires Shaking(calls, hasListener, callback, outcome)
    ensures forall i | 0 <= i < |calls| - 1 :: !Final(calls[i])
    ensures outcome == Normal ==> calls != [] && Final(calls[|calls| - 1])
    ensures BeganHandshake !in calls
    decreases |calls|, 1
  {
    if calls != [] {
      match calls[0].status
      case NEED_TASK =>
        DrainingEndsOnce(calls[1..], hasListener, callback, outcome);
        assert forall i | 1 <= i < |calls| :: calls[i] == calls[1..][i - 1];
      case NEED_WRAP =>
        if WrapRound(calls[1].result, hasListener, None) == Some(Normal) {
          ShakingEndsOnce(calls[2..], hasListener, callback, outcome);
          assert forall i | 2 <= i < |calls| :: calls[i] == calls[2..][i - 2];
        }
      case _ =>
    }
  }

  lemma {:induction false} DrainingEndsOnce(calls: seq<EngineCall>, hasListener: bool, callback: bool, outcome: Outcome)
    requires Draining(calls, hasListener, callback, outcome)
    ensures forall i | 0 <= i < |calls| - 1 :: !Final(calls[i])
    ensures outcome == Normal ==> calls != [] && Final(calls[|calls| - 1])
    ensures BeganHandshake !in calls
    decreases |calls|, 0
  {
    if calls[0].next.None? {
      ShakingEndsOnce(calls[1..], hasListener, callback, outcome);
      assert forall i | 1 <= i < |calls| :: calls[i] == calls[1..][i - 1];
    } else {
      DrainingEndsOnce(calls[2..], hasListener, callback, outcome);
      assert forall i | 2 <= i < |calls| :: calls[i] == calls[2..][i - 2];
    }
  }

  /** A wrap with a null plainData makes exactly one engine call when it
      has a step to make: an overflow cannot be retried. */
  lemma NullWrapIsOneRound(rs: seq<EngineResult>, hasListener: bool, outcome: Outcome)
    requires WrapRun(None, 0, rs, hasListener, outcome) && rs != []
    ensures |rs| == 1 && WrapRound(rs[0], hasListener, None) == Some(outcome)
  {
  }

  /** The calls from position a on: the one at a, then the rest. */
  lemma CallsFrom(log: seq<EngineCall>, a: nat)
    requires a < |log|
    ensures log[a..] == [log[a]] + log[a + 1..]
    ensures log[a..][0] == log[a] && log[a..][1..] == log[a + 1..]
  {
    assert log[a..][1..] == log[a + 1..];
  }

  /** The calls made after `a`, when `b` came in between. */
  lemma Split(a: seq<EngineCall>, b: seq<EngineCall>, c: seq<EngineCall>)
    requires a <= b <= c
    ensures c[|a|..] == b[|a|..] + c[|b|..]
  {
    assert c == a + b[|a|..] + c[|b|..];
  }

  /** The anonymous HandshakeCompletedListener SSLFacade attaches to its handshaker. */
  class CompletionCallback {
    const facade: SSLFacade

    constructor (facade: SSLFacade)
      ensures this.facade == facade
    {
      this.facade := facade;
    }

    /** onComplete(): drop the handshaker, then notify and clear the host
        listener; afterwards the facade reports the handshake completed. */
    method OnComplete()
      modifies facade
      ensures facade.State() == AfterCompletion(old(facade.State()))
      ensures facade.handshaker == null && facade.IsHandshakeCompleted()
    {
      facade.handshaker := null;
      if facade.hcl.Some? {
        facade.notified := facade.notified + [facade.hcl.value];
        facade.hcl := None;
      }
    }
  }

  class Handshaker {
    const worker: Worker
    const taskHandler: DefaultITaskHandler
    var finished: bool
    /** The completion listener (`_hscl`), or null. */
    var hscl: CompletionCallback?

    ghost predicate Valid()
      reads this, worker, worker.Repr
    {
      && worker.Valid() && this !in worker.Repr
      && (hscl != null ==> hscl.facade !in worker.Repr)
    }

    /** What the completion listener writes. */
    ghost function Listening(): set<object>
      reads this
    {
      if hscl == null then {} else {hscl.facade}
    }

    constructor (worker: Worker, taskHandler: DefaultITaskHandler)
      requires worker.Valid()
      ensures Valid() && this.worker == worker && this.taskHandler == taskHandler
      ensures !finished && hscl == null
    {
      this.worker := worker;
      this.taskHandler := taskHandler;
      finished := false;
      hscl := null;
    }

    /** begin(): the engine's beginHandshake, then one shakehands(). */
    method Begin(fuel: nat) returns (outcome: Outcome)
      requires Valid()
      modifies this, worker.Repr, Listening()
      ensures Valid() && hscl == old(hscl) && worker.hasListener == old(worker.hasListener)
      ensures worker.pendingUnwrapData.Held() == old(worker.pendingUnwrapData.Held())
      ensures |worker.engine.log| > |old(worker.engine.log)|
      ensures worker.engine.log[..|old(worker.engine.log)| + 1] == old(worker.engine.log) + [BeganHandshake]
      ensures var calls := worker.engine.log[|old(worker.engine.log)| + 1..];
        && Shaking(calls, worker.hasListener, hscl != null, outcome)
        && finished == (old(finished) || Fired(calls))
        && (hscl != null ==> hscl.facade.State() == if Fired(calls) then AfterCompletion(old(hscl.facade.State())) else old(hscl.facade.State()))
    {
      worker.BeginHandshake();
      outcome := ShakeHands(fuel);
    }

    /** carryOn(): shakehands() again, once the delegated tasks have run. */
    method CarryOn(fuel: nat) returns (outcome: Outcome)
      requires Valid()
      modifies this, worker.Repr, Listening()
      ensures Valid() && hscl == old(hscl) && worker.hasListener == old(worker.hasListener)
      ensures worker.pendingUnwrapData.Held() == old(worker.pendingUnwrapData.Held())
      ensures old(worker.engine.log) <= worker.engine.log
      ensures var calls := worker.engine.log[|old(worker.engine.log)|..];
        && Shaking(calls, worker.hasListener, hscl != null, outcome)
        && finished == (old(finished) || Fired(calls))
        && (hscl != null ==> hscl.facade.State() == if Fired(calls) then AfterCompletion(old(hscl.facade.State())) else old(hscl.facade.State()))
      decreases fuel, 5
    {
      outcome := ShakeHands(fuel);
    }

    method AddCompletedListener(l: CompletionCallback?)
      requires Valid() && (l != null ==> l.facade !in worker.Repr)
      modifies this
      ensures Valid() && hscl == l && finished == old(finished)
    {
      hscl := l;
    }

    /** removeCompletedListener(l) assigns l, exactly as addCompletedListener does. */
    method RemoveCompletedListener(l: CompletionCallback?)
      requires Valid() && (l != null ==> l.facade !in worker.Repr)
      modifies this
      ensures Valid() && hscl == l && finished == old(finished)
    {
      hscl := l;
    }

    predicate IsFinished()
      reads this
    {
      finished
    }

    /** shakehands(): poll the handshake status and act on it. */
    method ShakeHands(fuel: nat) returns (outcome: Outcome)
      requires Valid()
      modifies this, worker.Repr, Listening()
      ensures Valid() && hscl == old(hscl) && worker.hasListener == old(worker.hasListener)
      ensures worker.pendingUnwrapData.Held() == old(worker.pendingUnwrapData.Held())
      ensures old(worker.engine.log) <= worker.engine.log
      ensures var calls := worker.engine.log[|old(worker.engine.log)|..];
        && Shaking(calls, worker.hasListener, hscl != null, outcome)
        && finished == (old(finished) || Fired(calls))
        && (hscl != null ==> hscl.facade.State() == if Fired(calls) then AfterCompletion(old(hscl.facade.State())) else old(hscl.facade.State()))
      decreases fuel, 4
    {
      if fuel == 0 {
        return OutOfFuel;
      }
      var hs := worker.GetHandshakeStatus();
      outcome := OnStatus(hs, fuel);
    }

    /** The switch of shakehands() on the status just polled, the last call made. */
    method OnStatus(hs: HandshakeStatus, fuel: nat) returns (outcome: Outcome)
      requires Valid() && fuel > 0
      requires |worker.engine.log| > 0 && worker.engine.log[|worker.engine.log| - 1] == StatusPolled(hs)
      modifies this, worker.Repr, Listening()
      ensures Valid() && hscl == old(hscl) && worker.hasListener == old(worker.hasListener)
      ensures worker.pendingUnwrapData.Held() == old(worker.pendingUnwrapData.Held())
      ensures old(worker.engine.log) <= worker.engine.log
      ensures var calls := worker.engine.log[|old(worker.engine.log)| - 1..];
        && Shaking(calls, worker.hasListener, hscl != null, outcome)
        && finished == (old(finished) || Fired(calls))
        && (hscl != null ==> hscl.facade.State() == if Fired(calls) then AfterCompletion(old(hscl.facade.State())) else old(hscl.facade.State()))
      decreases fuel, 3
    {
      ghost var log0 := worker.engine.log;
      match hs {
        case NOT_HANDSHAKING =>
          outcome := Normal;
        case FINISHED =>
          outcome := HandshakeFinished();
        case NEED_TASK =>
          var tasks := new Tasks(worker, this);
          outcome := taskHandler.Process(tasks, fuel - 1);
        case NEED_WRAP =>
          outcome := WrapThenPoll(fuel);
          CallsFrom(worker.engine.log, |log0|);
        case NEED_UNWRAP =>
          outcome := Normal;
      }
      CallsFrom(worker.engine.log, |log0| - 1);
    }

    /** The NEED_WRAP case: wrap(null), then shakehands() again. */
    method WrapThenPoll(fuel: nat) returns (outcome: Outcome)
      requires Valid() && fuel > 0
      modifies this, worker.Repr, Listening()
      ensures Valid() && hscl == old(hscl) && worker.hasListener == old(worker.hasListener)
      ensures worker.pendingUnwrapData.Held() == old(worker.pendingUnwrapData.Held())
      ensures old(worker.engine.log) <= worker.engine.log
      ensures |worker.engine.log| > |old(worker.engine.log)| && worker.engine.log[|old(worker.engine.log)|].Wrapped?
      ensures var r := worker.engine.log[|old(worker.engine.log)|].result;
        var calls := worker.engine.log[|old(worker.engine.log)| + 1..];
        && (if WrapRound(r, worker.hasListener, None) == Some(Normal)
            then Shaking(calls, worker.hasListener, hscl != null, outcome)
            else calls == [] && WrapRound(r, worker.hasListener, None) == Some(outcome))
        && finished == (old(finished) || Fired(calls))
        && (hscl != null ==> hscl.facade.State() == if Fired(calls) then AfterCompletion(old(hscl.facade.State())) else old(hscl.facade.State()))
      decreases fuel, 2
    {
      outcome := worker.Wrap(null, fuel);
      NullWrapIsOneRound(Results(worker.engine.log[|old(worker.engine.log)|..]), worker.hasListener, outcome);
      if outcome == Normal {
        outcome := ShakeHands(fuel - 1);
      }
    }

    /** handshakeFinished(): set the flag, then call the listener, which
        throws NullPointerException when none is attached. */
    method HandshakeFinished() returns (outcome: Outcome)
      requires Valid()
      modifies this, Listening()
      ensures Valid() && finished && hscl == old(hscl)
      ensures worker.pendingUnwrapData.Held() == old(worker.pendingUnwrapData.Held())
      ensures outcome == if hscl == null then Thrown(NullPointerException) else Normal
      ensures hscl != null ==> hscl.facade.State() == AfterCompletion(old(hscl.facade.State()))
    {
      finished := true;
      if hscl == null {
        return Thrown(NullPointerException);
      }
      hscl.OnComplete();
      outcome := Normal;
    }
  }

  /** The cursor a task handler drains; done() resumes the handshake. */
  class Tasks {
    const worker: Worker
    const hs: Handshaker

    constructor (worker: Worker, hs: Handshaker)
      ensures this.worker == worker && this.hs == hs
    {
      this.worker := worker;
      this.hs := hs;
    }

    /** next(): the engine's next delegated task, None for null. */
    method Next() returns (t: Option<Task>)
      modifies worker.engine
      ensures t == if old(worker.engine.delegatedTasks) == [] then None else Some(old(worker.engine.delegatedTasks)[0])
      ensures worker.engine.delegatedTasks == if old(worker.engine.delegatedTasks) == [] then [] else old(worker.engine.delegatedTasks)[1..]
      ensures worker.engine.log == old(worker.engine.log) + [TaskPolled(t)]
    {
      t := worker.GetDelegatedTask();
    }

    /** done(): carryOn() on the handshaker. */
    method Done(fuel: nat) returns (outcome: Outcome)
      requires hs.Valid() && hs.worker == worker
      modifies hs, worker.Repr, hs.Listening()
      ensures hs.Valid() && hs.hscl == old(hs.hscl) && worker.hasListener == old(worker.hasListener)
      ensures worker.pendingUnwrapData.Held() == old(worker.pendingUnwrapData.Held())
      ensures old(worker.engine.log) <= worker.engine.log
      ensures var calls := worker.engine.log[|old(worker.engine.log)|..];
        && Shaking(calls, worker.hasListener, hs.hscl != null, outcome)
        && hs.finished == (old(hs.finished) || Fired(calls))
        && (hs.hscl != null ==> hs.hscl.facade.State() == if Fired(calls) then AfterCompletion(old(hs.hscl.facade.State())) else old(hs.hscl.facade.State()))
      decreases fuel, 6
    {
      outcome := hs.CarryOn(fuel);
    }
  }

  /** The loop of both handlers' process(): next() until it returns null,
      running each task. */
  method DrainTasks(tasks: Tasks)
    requires tasks.worker.Valid()
    modifies tasks.worker.engine
    ensures tasks.worker.Valid()
    ensures tasks.worker.pendingUnwrapData.Held() == old(tasks.worker.pendingUnwrapData.Held())
    ensures tasks.worker.engine.log == old(tasks.worker.engine.log) + DrainCalls(old(tasks.worker.engine.delegatedTasks))
  {
    var engine := tasks.worker.engine;
    ghost var ts := engine.delegatedTasks;
    ghost var k := 0;
    var task := tasks.Next();
    while task.Some?
      invariant 0 <= k <= |ts|
      invariant task == if k < |ts| then Some(ts[k]) else None
      invariant engine.delegatedTasks == if k < |ts| then ts[k + 1..] else []
      invariant engine.log == old(engine.log) + Ran(ts[..k]) + [TaskPolled(task)]
      decreases |ts| - k
    {
      engine.RunTask(task.value);
      var next := tasks.Next();
      RanStep(old(engine.log), ts, k, next);
      k, task := k + 1, next;
    }
    assert ts[..k] == ts;
  }

  /** The task handler the handshaker is given: run every delegated task in
      the order handed out, then done(). */
  class DefaultITaskHandler {
    constructor ()
    {
    }

    method Process(tasks: Tasks, fuel: nat) returns (outcome: Outcome)
      requires tasks.hs.Valid() && tasks.hs.worker == tasks.worker
      modifies tasks.hs, tasks.worker.Repr, tasks.hs.Listening()
      ensures tasks.hs.Valid() && tasks.hs.hscl == old(tasks.hs.hscl) && tasks.worker.hasListener == old(tasks.worker.hasListener)
      ensures tasks.worker.pendingUnwrapData.Held() == old(tasks.worker.pendingUnwrapData.Held())
      ensures old(tasks.worker.engine.log) <= tasks.worker.engine.log
      ensures var calls := tasks.worker.engine.log[|old(tasks.worker.engine.log)|..];
        var drained := DrainCalls(old(tasks.worker.engine.delegatedTasks));
        && |drained| <= |calls| && calls[..|drained|] == drained
        && Draining(calls, tasks.worker.hasListener, tasks.hs.hscl != null, outcome)
        && tasks.hs.finished == (old(tasks.hs.finished) || Fired(calls))
        && (tasks.hs.hscl != null ==> tasks.hs.hscl.facade.State() == if Fired(calls) then AfterCompletion(old(tasks.hs.hscl.facade.State())) else old(tasks.hs.hscl.facade.State()))
      decreases fuel, 7
    {
      ghost var log0 := tasks.worker.engine.log;
      ghost var ts := tasks.worker.engine.delegatedTasks;
      DrainTasks(tasks);
      ghost var log1 := tasks.worker.engine.log;
      outcome := tasks.Done(fuel);
      Split(log0, log1, tasks.worker.engine.log);
      DrainThenShake(ts, tasks.worker.engine.log[|log1|..], tasks.worker.hasListener, tasks.hs.hscl != null, outcome);
      DrainFiresNothing(ts);
    }
  }

  /** The same drain over the ITasks cursor, whose only implementation is Tasks. */
  class DefaultTaskHandler {
    constructor ()
    {
    }

    method Process(tasks: Tasks, fuel: nat) returns (outcome: Outcome)
      requires tasks.hs.Valid() && tasks.hs.worker == tasks.worker
      modifies tasks.hs, tasks.worker.Repr, tasks.hs.Listening()
      ensures tasks.hs.Valid() && tasks.hs.hscl == old(tasks.hs.hscl) && tasks.worker.hasListener == old(tasks.worker.hasListener)
      ensures tasks.worker.pendingUnwrapData.Held() == old(tasks.worker.pendingUnwrapData.Held())
      ensures old(tasks.worker.engine.log) <= tasks.worker.engine.log
      ensures var calls := tasks.worker.engine.log[|old(tasks.worker.engine.log)|..];
        var drained := DrainCalls(old(tasks.worker.engine.delegatedTasks));
        && |drained| <= |calls| && calls[..|drained|] == drained
        && Draining(calls, tasks.worker.hasListener, tasks.hs.hscl != null, outcome)
        && tasks.hs.finished == (old(tasks.hs.finished) || Fired(calls))
        && (tasks.hs.hscl != null ==> tasks.hs.hscl.facade.State() == if Fired(calls) then AfterCompletion(old(tasks.hs.hscl.facade.State())) else old(tasks.hs.hscl.facade.State()))
    {
      ghost var log0 := tasks.worker.engine.log;
      ghost var ts := tasks.worker.engine.delegatedTasks;
      DrainTasks(tasks);
      ghost var log1 := tasks.worker.engine.log;
      outcome := tasks.Done(fuel);
      Split(log0, log1, tasks.worker.engine.log);
      DrainThenShake(ts, tasks.worker.engine.log[|log1|..], tasks.worker.hasListener, tasks.hs.hscl != null, outcome);
      DrainFiresNothing(ts);
    }
  }

  /** The facade the host uses: one Worker shared with one Handshaker. */
  class SSLFacade {
    var handshaker: Handshaker?
    /** The host's completion listener (`_hcl`), or null. */
    var hcl: Option<HostListener>
    const worker: Worker
    /** Every onComplete() the host's listeners received, in order. */
    var notified: seq<HostListener>

    ghost function State(): Completion
      reads this
    {
      Completion(handshaker, hcl, notified)
    }

    ghost predicate Valid()
      reads this, handshaker, worker, worker.Repr
    {
      && worker.Valid() && this !in worker.Repr
      && (handshaker != null ==>
            && handshaker.worker == worker && handshaker.Valid()
            && (handshaker.hscl != null ==> handshaker.hscl.facade == this))
    }

    /** isHandshakeCompleted(): no handshaker left, or it has finished. */
    predicate IsHandshakeCompleted()
      reads this, handshaker
    {
      handshaker == null || handshaker.finished
    }

    /** The engine stands for makeSSLEngine(context, client, clientAuthRequired). */
    constructor (engine: SSLEngine, taskHandler: DefaultITaskHandler)
      ensures Valid() && fresh(worker) && worker.engine == engine && worker.buffers.session == engine.session
      ensures handshaker != null && fresh(handshaker) && handshaker.worker == worker && handshaker.taskHandler == taskHandler
      ensures !handshaker.finished && handshaker.hscl == null && hcl.None? && notified == []
      ensures !worker.hasListener && worker.emitted == [] && worker.pendingUnwrapData.held == null
      ensures !IsHandshakeCompleted()
    {
      var buffers := new Buffers(engine.session);
      var w := new Worker(engine, buffers);
      worker := w;
      handshaker := new Handshaker(w, taskHandler);
      hcl := None;
      notified := [];
    }

    method SetHandshakeCompletedListener(l: Option<HostListener>)
      requires Valid()
      modifies this
      ensures Valid() && hcl == l && handshaker == old(handshaker) && notified == old(notified)
    {
      hcl := l;
    }

    /** setSSLListener(l): passed on to the worker; null detaches. */
    method SetSSLListener(listener: bool)
      requires Valid()
      modifies worker
      ensures Valid() && worker.hasListener == listener && worker.emitted == old(worker.emitted)
      ensures worker.pendingUnwrapData.Held() == old(worker.pendingUnwrapData.Held())
    {
      worker.SetSSLListener(listener);
    }

    /** encrypt(plainData): worker.wrap(plainData), whether or not the
        handshake has completed. */
    method Encrypt(plainData: ByteBuffer?, fuel: nat) returns (outcome: Outcome)
      requires Valid() && worker.Foreign(plainData)
      modifies worker.Repr, if plainData == null then {} else {plainData, plainData.hb}
      ensures Valid() && handshaker == old(handshaker) && State() == old(State())
      ensures old(worker.engine.log) <= worker.engine.log
      ensures var calls := worker.engine.log[|old(worker.engine.log)|..];
        && (forall i | 0 <= i < |calls| :: calls[i].Wrapped?)
        && WrapRun(if plainData == null then None else Some(old(plainData.limit)),
                   if plainData == null then 0 else plainData.Capacity(),
                   Results(calls), worker.hasListener, outcome)
        && |worker.emitted| == |old(worker.emitted)| + (if worker.hasListener then Producing(Results(calls)) else 0)
      ensures plainData != null ==>
        && worker.Foreign(plainData)
        && plainData.State() == WrapInputAfter(old(plainData.State()), Results(worker.engine.log[|old(worker.engine.log)|..]), worker.hasListener)
      ensures worker.pendingUnwrapData.Held() == old(worker.pendingUnwrapData.Held())
    {
      outcome := worker.Wrap(plainData, fuel);
    }

    /** decrypt(encryptedData): worker.unwrap(encryptedData), whether or not
        the handshake has completed; a null encryptedData throws
        NullPointerException before the engine is called. */
    method Decrypt(encryptedData: ByteBuffer?, fuel: nat) returns (outcome: Outcome)
      requires Valid() && worker.Foreign(encryptedData) && fuel > 0
      modifies worker.Repr, if encryptedData == null then {} else {encryptedData}
      ensures Valid() && handshaker == old(handshaker) && State() == old(State())
      ensures old(worker.engine.log) <= worker.engine.log
      ensures encryptedData == null ==>
        && outcome == Thrown(NullPointerException)
        && worker.engine.log == old(worker.engine.log) && worker.emitted == old(worker.emitted)
        && worker.pendingUnwrapData.Held() == old(worker.pendingUnwrapData.Held())
      ensures encryptedData != null ==>
        worker.Foreign(encryptedData) && encryptedData.State() == Drained(old(encryptedData.State()))
      ensures encryptedData != null ==> var calls := worker.engine.log[|old(worker.engine.log)|..];
        && (forall i | 0 <= i < |calls| :: calls[i].Unwrapped?)
        && UnwrapRun(Combined(old(worker.pendingUnwrapData.Held()), old(encryptedData.State())),
                     Results(calls), worker.hasListener, outcome, worker.pendingUnwrapData.Held())
        && |worker.emitted| == |old(worker.emitted)| + (if worker.hasListener then Producing(Results(calls)) else 0)
    {
      outcome := worker.Unwrap(encryptedData, fuel);
    }

    /** attachCompletionListener(): a new callback on this facade becomes the
        handshaker's completion listener. */
    method AttachCompletionListener()
      requires Valid() && handshaker != null
      modifies handshaker
      ensures Valid() && handshaker == old(handshaker) && handshaker.finished == old(handshaker.finished)
      ensures handshaker.hscl != null && fresh(handshaker.hscl) && handshaker.hscl.facade == this
    {
      var callback := new CompletionCallback(this);
      handshaker.AddCompletedListener(callback);
    }

    /** beginHandshake(): attach the completion listener, then begin().
        Nothing the model runs throws InsufficentUnwrapData, so the catch
        never applies; without a handshaker (after completion) the first
        call throws NullPointerException. */
    method BeginHandshake(fuel: nat) returns (outcome: Outcome)
      requires Valid()
      modifies this, handshaker, worker.Repr
      ensures Valid() && worker.hasListener == old(worker.hasListener)
      ensures worker.pendingUnwrapData.Held() == old(worker.pendingUnwrapData.Held())
      ensures old(handshaker) == null ==>
        outcome == Thrown(NullPointerException) && worker.engine.log == old(worker.engine.log) && State() == old(State())
      ensures old(handshaker) != null ==>
        && |worker.engine.log| > |old(worker.engine.log)|
        && worker.engine.log[..|old(worker.engine.log)| + 1] == old(worker.engine.log) + [BeganHandshake]
        && var calls := worker.engine.log[|old(worker.engine.log)| + 1..];
           && Shaking(calls, worker.hasListener, true, outcome)
           && State() == (if Fired(calls) then AfterCompletion(old(State())) else old(State()))
           && IsHandshakeCompleted() == (old(handshaker.finished) || Fired(calls))
    {
      if handshaker == null {
        return Thrown(NullPointerException);
      }
      AttachCompletionListener();
      var h := handshaker;
      outcome := h.Begin(fuel);
    }
  }
}
