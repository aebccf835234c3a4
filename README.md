# sslfacade in Dafny

sslfacade wraps a JDK `SSLEngine` so that a host application can run TLS
over a transport of its own choosing. This project models the core of
that library and proves properties of the model.

- **Buffers.** The four role-tagged `ByteBuffer`s (`IN_PLAIN`, `IN_CIPHER`,
  `OUT_PLAIN`, `OUT_CIPHER`) and their grow-or-compact policy
  (module `Buffers`).
- **AppendableBuffer.** The accumulator for ciphertext that an unwrap could
  not use yet (module `Appendable`).
- **Worker.** One wrap or one unwrap against the engine, with the retry
  policy for `BUFFER_OVERFLOW` and `BUFFER_UNDERFLOW`. Each result that
  produced bytes is handed to the host's `SSLListener` as a snapshot buffer
  (module `Work`).
- **Handshaker.** The handshake driver: it polls the handshake status and
  wraps, suspends, drains the delegated tasks or finishes. Also the `Tasks`
  cursor, the two default task handlers, and `SSLFacade` itself, which fires
  the host's completion listener at most once (module `Facade`).
- **SSLManager.** The older self-contained adapter `old.SSLManager`
  (module `OldManager`).
  - It keeps one engine per user key, with that key's completion listener,
    its not-yet-decrypted ciphertext (the "remainder") and its
    handshake-completed flag.
  - Its operations are prepare, the handshake loop, decrypt and its
    do-while unwrap loop, send and its do-while wrap loop, and cleanState.

Two modules stand for the JDK and not for code of this repository:

- `Nio` models `java.nio.ByteBuffer` (position, limit, capacity, flip,
  compact, put and get) over a pure value `Buf`.
- `SslEngine` models `javax.net.ssl.SSLEngine` as an oracle whose answers
  are arbitrary but recorded. Every call appends an `EngineCall` to the
  engine's `log`: a wrap or an unwrap (with the bytes it was offered, the
  buffer it wrote to and its `SSLEngineResult`), a status poll, a task
  handed out or run, and `beginHandshake`.

The loops and recursions of the core are specified by the log they leave
behind:

- `WrapRun` and `UnwrapRun` say, round by round, whether `Worker` retries
  and how it ends.
- `Shaking` and `Draining` read `Handshaker.shakehands` poll by poll.
- `LoopEnd`, `Offers`, `Taken` and `Carries` describe `SSLManager`'s
  do-while loops: which calls were made, what each was offered, what was
  consumed and what the transport received.
- `Decrypted`, `Pass` and `Passes` give, as values, the step each decrypt
  and each pass of `shakehands` makes on a key's entries.
- `Applied` maps that step onto the manager's four maps.

Every loop that the engine keeps going takes a `fuel` bound; running out of
it is the outcome `OutOfFuel`. Java exceptions are the outcome
`Thrown(e)`.

Behaviour of the code that the proofs bring out:

- **Worker's underflow path keeps the wrong bytes.**
  - This reading assumes that `prepareForUnwrap(data)`, whose body is not
    in `Buffers.java`, leaves `data`'s position, limit and bytes as
    `append` left them (see "## Left out").
  - After `BUFFER_UNDERFLOW`, `compact(data, result)` calls
    `position(bytesConsumed)` and then `compact()`. This moves the bytes
    from `bytesConsumed` to the *limit* to the front. It then leaves the
    buffer in write mode, at position `limit - bytesConsumed`.
  - `set()` then stores what lies between that position and the limit.
    That is the input's last `bytesConsumed` bytes, not its unconsumed
    suffix (`Remainder`, `RemainderIsSetOfCompacted`).
  - For example, with input `[1, 2, 3]` of which one byte was consumed, the
    accumulator keeps `[3]`, not `[2, 3]`; `UnderflowKeepsLastBytes` works
    this instance of `RemainderIsSetOfCompacted` out.
  - An underflow that consumed nothing keeps nothing at all
    (`UnderflowWithoutConsumingDropsInput`).
  - Under the same assumption, the overflow retry's input holds the same
    last bytes (`RetriedIsAppendOfCompacted`).
  - The model keeps this behaviour as written.
- **wrap(null) cannot survive an overflow.** The handshake's wrap passes a
  null `plainData`, and the overflow arm's `compact` dereferences it
  (`NullWrapOverflowThrows`).
- **The old manager can finish a handshake twice.** When `shakehands`'
  NEED_UNWRAP arm decrypts the remainder to a FINISHED result, `decrypt`
  already calls `finishHandshake`, which notifies the key's listener and
  removes it. `shakehands` then calls `finishHandshake` again, finds no
  listener and throws `NullPointerException` (`DecryptedFinishedThrows`).
  The listener is still notified only once (`HandshakeNotifiesOnce`).
- **Handshaker.removeCompletedListener assigns its argument**, exactly as
  `addCompletedListener` does.

## Model

| member | source | states |
|---|---|---|
| Buffers.Grown | src/prj/sslfacade/Buffers.java:119-126 | grow(n, b) is a buffer of capacity and limit n that holds exactly the bytes written into b, followed by zeros |
| Buffers.GrownOrCompacted | src/prj/sslfacade/Buffers.java:98-111 | capacity never shrinks; when the recommended size exceeds the capacity, the buffer has that size and keeps the bytes written; otherwise it keeps its capacity and its unread bytes move to the front |
| Buffers.Buffers.constructor | src/prj/sslfacade/Buffers.java:39-54 | four fresh buffers, distinct and over distinct arrays: the application size for the plain roles and the packet size for the cipher roles |
| Buffers.Buffers.RolesDistinct | src/prj/sslfacade/Buffers.java:56-75 | get() of two different roles never returns the same buffer or the same backing array |
| Buffers.Buffers.Manage | src/prj/sslfacade/Buffers.java:77-96 | manage(t) replaces only role t's buffer, with its grow-or-compact against the session's recommended size (application size for IN_PLAIN, packet size for the cipher roles); a grown buffer is new and a compacted one is the same object; OUT_PLAIN is left untouched |
| Buffers.Buffers.SetRole | src/prj/sslfacade/Buffers.java:82-93 | the field of role t now holds the given buffer, and every other role's field is unchanged |
| Buffers.Buffers.GrowOrCompact | src/prj/sslfacade/Buffers.java:98-111 | the result is GrownOrCompacted of the role's buffer: a new buffer when the size exceeds the capacity, otherwise the role's own buffer |
| Buffers.Buffers.Compact | src/prj/sslfacade/Buffers.java:113-117 | the same buffer is returned, compacted in place |
| Buffers.Buffers.GrowTo | src/prj/sslfacade/Buffers.java:119-126 | a new buffer over a new array whose state is Grown of the original |
| Buffers.Buffers.Disturb | src/prj/sslfacade/Buffers.java:56-75 | touches role t only: it keeps its buffer or gets a new one, and the other roles keep theirs |
| Buffers.Buffers.PrepareForWrap | src/prj/sslfacade/Worker.java:66 | prepareForWrap touches OUT_PLAIN and OUT_CIPHER only; IN_PLAIN and IN_CIPHER keep their buffers |
| Buffers.Buffers.PrepareForUnwrap | src/prj/sslfacade/Worker.java:91 | prepareForUnwrap touches IN_CIPHER and IN_PLAIN only; OUT_PLAIN and OUT_CIPHER keep their buffers |
| Buffers.Buffers.PrepareRetrial | src/prj/sslfacade/Worker.java:45 | prepareRetrial(src, dest) touches those two roles only |
| Buffers.Buffers.Grow | src/prj/sslfacade/Worker.java:75 | grow(t) touches role t only |
| Buffers.Buffers.Copy | src/prj/sslfacade/Worker.java:159 | copy(from, to) writes the two buffers named and nothing else |
| Appendable.Combined | src/prj/sslfacade/AppendableBuffer.java:9-19 | append yields a buffer sized by calculateSize that holds the held bytes and then the data's unread bytes, positioned after them and not flipped |
| Appendable.Kept | src/prj/sslfacade/AppendableBuffer.java:21-29 | set stores something exactly when data has bytes remaining, and then an exact rewound copy of them |
| Appendable.KeptThenCombined | src/prj/sslfacade/AppendableBuffer.java:9-29 | what set stores comes back first, intact and in order, from the next append; its capacity is the stored bytes plus the new limit |
| Appendable.AppendableBuffer.constructor | src/prj/sslfacade/AppendableBuffer.java:5-7 | a new accumulator holds nothing |
| Appendable.AppendableBuffer.CalculateSize | src/prj/sslfacade/AppendableBuffer.java:38-46 | the data's limit, plus the held buffer's capacity when one is held |
| Appendable.AppendableBuffer.Clear | src/prj/sslfacade/AppendableBuffer.java:31-34 | nothing is held afterwards |
| Appendable.AppendableBuffer.Append | src/prj/sslfacade/AppendableBuffer.java:9-19 | returns a new buffer equal to Combined of what was held and the data; afterwards nothing is held and the data is drained |
| Appendable.AppendableBuffer.Set | src/prj/sslfacade/AppendableBuffer.java:21-29 | with bytes remaining, a new buffer equal to Kept(data) is held and the data is drained; otherwise nothing changes |
| Work.Results | src/prj/sslfacade/Worker.java:67 | the SSLEngineResults of the logged wraps or unwraps, one per call and in order |
| Work.Repositioned | src/prj/sslfacade/Worker.java:163-167 | compact(data, result) fails (IllegalArgumentException) exactly when bytesConsumed exceeds the limit; otherwise the buffer keeps its capacity and is left in write mode at limit - bytesConsumed |
| Work.RepositionedBytes | src/prj/sslfacade/Worker.java:163-167 | after compact(data, result), the bytes written are [consumed, limit) of the input, and what would be read next is the input from limit - consumed on |
| Work.Retried | src/prj/sslfacade/Worker.java:101-105 | the input of the recursive unwrap after an overflow keeps its capacity and is in write mode |
| Work.Remainder | src/prj/sslfacade/Worker.java:97-100 | after an underflow the accumulator holds something exactly when bytes were consumed, and then exactly that many bytes, rewound |
| Work.RetriedIsAppendOfCompacted | src/prj/sslfacade/Worker.java:101-105 | the overflow retry's input is append() of the compacted input into an empty accumulator |
| Work.RemainderIsSetOfCompacted | src/prj/sslfacade/Worker.java:97-100 | the underflow arm's set() of the compacted input stores the input's last bytesConsumed bytes |
| Work.WrapRunShape | src/prj/sslfacade/Worker.java:63-85 | wrap retries only on BUFFER_OVERFLOW; it returns normally only after OK or CLOSED; without a listener, only if nothing was produced; it runs out of steps only on a retry |
| Work.NullWrapOverflowThrows | src/prj/sslfacade/Worker.java:74-77 | wrap(null) whose first result overflows makes one call and throws NullPointerException |
| Work.UnwrapRetriesOnlyOnOverflow | src/prj/sslfacade/Worker.java:87-113 | unwrap recurses only on BUFFER_OVERFLOW, and without a listener it returns normally only if nothing was produced |
| Work.UnwrapPending | src/prj/sslfacade/Worker.java:95-112 | the accumulator keeps something only after a final BUFFER_UNDERFLOW that consumed bytes and returned normally; an unwrap ending on OK or CLOSED leaves it empty |
| Work.UnderflowWithoutConsumingDropsInput | src/prj/sslfacade/Worker.java:97-100 | an underflow that consumed nothing drops the whole input: nothing is kept |
| Work.UnderflowKeepsLastBytes | src/prj/sslfacade/Worker.java:97-100 | an illustration of RemainderIsSetOfCompacted: for input [1, 2, 3] with one byte consumed, the accumulator keeps [3] where the unconsumed bytes are [2, 3] |
| Work.Worker.constructor | src/prj/sslfacade/Worker.java:16-21 | the worker uses the given engine and buffers and a new empty accumulator; no listener is set and nothing has been emitted |
| Work.Worker.SetSSLListener | src/prj/sslfacade/Worker.java:115-118 | the listener is attached when the argument is non-null and detached when it is null; nothing is emitted and the accumulator is unchanged |
| Work.Worker.BeginHandshake | src/prj/sslfacade/Worker.java:23-26 | exactly one beginHandshake call on the engine |
| Work.Worker.GetHandshakeStatus | src/prj/sslfacade/Worker.java:120-123 | returns the engine's status, logs one poll and leaves the tasks alone |
| Work.Worker.GetDelegatedTask | src/prj/sslfacade/Worker.java:33-36 | returns the engine's next task (None when there is none) and removes it from the pending tasks |
| Work.Worker.LoadUnwrapPayload | src/prj/sslfacade/Worker.java:28-31 | prepareForUnwrap: the OUT roles keep their buffers |
| Work.Worker.HandleBufferOverflow | src/prj/sslfacade/Worker.java:43-47 | only the src and dest roles may move |
| Work.Worker.DoWrap | src/prj/sslfacade/Worker.java:49-54 | one wrap from OUT_PLAIN's unread bytes into OUT_CIPHER, logged with its result |
| Work.Worker.DoUnwrap | src/prj/sslfacade/Worker.java:56-61 | one unwrap from IN_CIPHER's unread bytes into IN_PLAIN, logged with its result |
| Work.Worker.MakeExternalBuffer | src/prj/sslfacade/Worker.java:156-161 | a new buffer whose capacity is the internal buffer's limit |
| Work.Worker.EmitAnyWrappedData | src/prj/sslfacade/Worker.java:127-134 | when bytes were produced, the listener receives exactly one new snapshot of OUT_CIPHER, never the internal buffer, and without a listener it throws NullPointerException; when nothing was produced, nothing is emitted and OUT_CIPHER is untouched |
| Work.Worker.EmitAnyPlainData | src/prj/sslfacade/Worker.java:136-144 | when bytes were produced, the listener receives exactly one new snapshot of IN_PLAIN, never the internal buffer, and without a listener it throws NullPointerException; when nothing was produced, nothing is emitted and IN_PLAIN is untouched |
| Work.Worker.Compact | src/prj/sslfacade/Worker.java:163-167 | the buffer becomes Repositioned(old, bytesConsumed); position() with too large an argument fails and leaves it unchanged |
| Work.Worker.PrepareAndWrap | src/prj/sslfacade/Worker.java:66-67 | prepareForWrap, then exactly one logged wrap between the current OUT roles; the accumulator is unchanged |
| Work.Worker.AppendPending | src/prj/sslfacade/Worker.java:90 | the combined input is a new buffer equal to Combined of the held bytes and the delivery; the accumulator is emptied and the delivery is drained (position at its limit) |
| Work.Worker.PrepareAndUnwrap | src/prj/sslfacade/Worker.java:91-92 | prepareForUnwrap, then exactly one logged unwrap between the current IN roles; the accumulator is not touched |
| Work.Worker.GrowRole | src/prj/sslfacade/Worker.java:75 | grow(t) makes no engine call, emits nothing and leaves the accumulator unchanged |
| Work.Worker.Settle | src/prj/sslfacade/Worker.java:95-112 | the arms that do not retry: BUFFER_UNDERFLOW stores Remainder of the input, or throws IllegalArgumentException when bytesConsumed exceeds the limit; OK and CLOSED leave the accumulator empty |
| Work.Worker.Wrap | src/prj/sslfacade/Worker.java:63-85 | the wraps made form a WrapRun from the caller's plainData and end in the outcome; one snapshot is emitted per producing result when a listener is set; every emission is a new WrappedData buffer; plainData ends as WrapInputAfter gives (compacted by each retried round's consumption); the accumulator is unchanged |
| Work.Worker.AfterWrap | src/prj/sslfacade/Worker.java:68-84 | emit, then the status switch: the run starting with this result is a WrapRun; plainData ends as WrapInputAfter gives; the accumulator is unchanged |
| Work.Worker.OnWrapStatus | src/prj/sslfacade/Worker.java:70-84 | BUFFER_UNDERFLOW throws the RuntimeException "BUFFER_UNDERFLOW while wrapping!", BUFFER_OVERFLOW retries, and OK and CLOSED return; plainData ends as WrapInputAfter gives; the accumulator is unchanged |
| Work.Worker.RetryWrap | src/prj/sslfacade/Worker.java:74-78 | a null plainData throws NullPointerException and a bad position throws IllegalArgumentException, both with no further call and plainData unchanged; otherwise plainData is repositioned by the bytes consumed and compacted, and the recursive wrap is a WrapRun whose limit is the capacity; the accumulator is unchanged |
| Work.Worker.Unwrap | src/prj/sslfacade/Worker.java:87-113 | a null delivery throws NullPointerException in the accumulator's calculateSize with no engine call, no emission and the accumulator unchanged; otherwise the delivery is drained, the unwraps made form an UnwrapRun from Combined of the held bytes and the delivery, the run decides the outcome and what the accumulator holds afterwards, and one PlainData snapshot is emitted per producing result |
| Work.Worker.UnwrapCombined | src/prj/sslfacade/Worker.java:91-112 | an UnwrapRun from the combined input |
| Work.Worker.UnwrapAndEmit | src/prj/sslfacade/Worker.java:91-93 | one logged unwrap, then at most one new PlainData snapshot, and NullPointerException when output has no listener |
| Work.Worker.OnUnwrapStatus | src/prj/sslfacade/Worker.java:95-112 | the run starting with this result is an UnwrapRun |
| Work.Worker.RetryUnwrap | src/prj/sslfacade/Worker.java:101-105 | a bad position throws IllegalArgumentException with no further call; otherwise the recursive unwrap runs on Retried of the input |
| Facade.AfterCompletion | src/prj/sslfacade/SSLFacade.java:71-79 | onComplete drops the handshaker, notifies the host listener once if there is one, and clears it |
| Facade.NotifiedAtMostOnce | src/prj/sslfacade/SSLFacade.java:66-81 | however often onComplete runs, the host listener hears of completion at most once |
| Facade.Ran | src/prj/sslfacade/DefaultITaskHandler.java:11-14 | each task handed out and run contributes two engine calls |
| Facade.DrainThenShake | src/prj/sslfacade/DefaultITaskHandler.java:8-16 | a drain of the pending tasks followed by the calls of done() is a valid NEED_TASK continuation exactly when those calls are a valid shakehands |
| Facade.DrainFiresNothing | src/prj/sslfacade/DefaultITaskHandler.java:11-14 | draining tasks never observes FINISHED, so it never signals completion |
| Facade.ShakingEndsOnce | src/prj/sslfacade/Handshaker.java:57-78 | within one shakehands only the last call can be a poll that ends it, so FINISHED is acted on at most once; a normal return ends on such a poll, and beginHandshake is never called again |
| Facade.DrainingEndsOnce | src/prj/sslfacade/Handshaker.java:66-69 | the same for the continuation through the task handler |
| Facade.NullWrapIsOneRound | src/prj/sslfacade/Handshaker.java:71-74 | the handshake's wrap(null) makes exactly one engine call |
| Facade.CompletionCallback.constructor | src/prj/sslfacade/SSLFacade.java:68 | the callback belongs to the facade that attached it |
| Facade.CompletionCallback.OnComplete | src/prj/sslfacade/SSLFacade.java:71-79 | the facade's state becomes AfterCompletion of the old state, and the facade reports the handshake completed |
| Facade.Handshaker.constructor | src/prj/sslfacade/Handshaker.java:22-27 | not finished, and no completion listener |
| Facade.Handshaker.Begin | src/prj/sslfacade/Handshaker.java:29-33 | one beginHandshake, then calls that form a Shaking run; finished is set exactly when FINISHED was polled, and only then does the listener's facade take AfterCompletion; the worker's accumulator is unchanged |
| Facade.Handshaker.CarryOn | src/prj/sslfacade/Handshaker.java:35-38 | the calls form a Shaking run, with the same flag and listener effects; the accumulator is unchanged |
| Facade.Handshaker.AddCompletedListener | src/prj/sslfacade/Handshaker.java:40-43 | the listener is set, and the finished flag is kept |
| Facade.Handshaker.RemoveCompletedListener | src/prj/sslfacade/Handshaker.java:45-48 | the listener is set to the argument, as add does, and the finished flag is kept |
| Facade.Handshaker.ShakeHands | src/prj/sslfacade/Handshaker.java:57-78 | the engine calls made form a Shaking run ending in the outcome; finished is set exactly when FINISHED was polled; the facade's completion happens exactly then; the accumulator is unchanged |
| Facade.Handshaker.OnStatus | src/prj/sslfacade/Handshaker.java:60-77 | the switch on the status just polled continues a Shaking run; the accumulator is unchanged |
| Facade.Handshaker.WrapThenPoll | src/prj/sslfacade/Handshaker.java:71-74 | exactly one wrap; shakehands again only when the wrap returned normally, otherwise its outcome with no further call; the accumulator is unchanged |
| Facade.Handshaker.HandshakeFinished | src/prj/sslfacade/Handshaker.java:80-84 | finished is set; without a listener NullPointerException, otherwise the facade takes AfterCompletion; the accumulator is unchanged |
| Facade.Tasks.constructor | src/prj/sslfacade/Tasks.java:10-14 | the cursor is over the given worker and handshaker |
| Facade.Tasks.Next | src/prj/sslfacade/Tasks.java:16-19 | the engine's next delegated task, or None; the task is removed and the poll logged |
| Facade.Tasks.Done | src/prj/sslfacade/Tasks.java:21-24 | carryOn: a Shaking run with its flag and listener effects; the accumulator is unchanged |
| Facade.DrainTasks | src/prj/sslfacade/DefaultITaskHandler.java:10-14 | every pending task is handed out and run in order, then one poll finds none |
| Facade.DefaultITaskHandler.Process | src/prj/sslfacade/DefaultITaskHandler.java:8-16 | the calls start with the drain of all pending tasks and form a Draining run; completion happens exactly when FINISHED was polled; the accumulator is unchanged |
| Facade.DefaultTaskHandler.Process | src/prj/sslfacade/DefaultTaskHandler.java:8-16 | the same drain-then-done contract over the ITasks cursor, with the accumulator unchanged |
| Facade.SSLFacade.constructor | src/prj/sslfacade/SSLFacade.java:15-23 | one new worker over the engine, shared with a new handshaker that is not finished and has no listener; the handshake is not completed |
| Facade.SSLFacade.SetHandshakeCompletedListener | src/prj/sslfacade/SSLFacade.java:38-41 | the host listener is replaced; nothing else changes |
| Facade.SSLFacade.SetSSLListener | src/prj/sslfacade/SSLFacade.java:43-46 | the worker's listener is attached when the argument is non-null and detached when it is null; nothing is emitted and the accumulator is unchanged |
| Facade.SSLFacade.Encrypt | src/prj/sslfacade/SSLFacade.java:53-56 | worker.wrap: a WrapRun of wraps only, with one emission per producing result, whatever the handshake state; plainData ends as WrapInputAfter gives; the accumulator is unchanged |
| Facade.SSLFacade.Decrypt | src/prj/sslfacade/SSLFacade.java:59-62 | worker.unwrap: decrypt(null) throws NullPointerException with no engine call and nothing changed; otherwise the delivery is drained and the unwraps form an UnwrapRun from the held bytes joined with the delivery |
| Facade.SSLFacade.AttachCompletionListener | src/prj/sslfacade/SSLFacade.java:66-81 | the handshaker's listener is a new callback on this facade |
| Facade.SSLFacade.BeginHandshake | src/prj/sslfacade/SSLFacade.java:25-36 | without a handshaker, NullPointerException and no engine call; otherwise beginHandshake and a Shaking run; the host is notified exactly when FINISHED was polled, and the handshake counts as completed then; the accumulator is unchanged |
| OldManager.LoopEnd | src/old/SSLManager.java:212-217 | a do-while loop over the engine ends Normal when its condition fails and OutOfFuel when it still holds after fuel rounds |
| OldManager.Decrypted | src/old/SSLManager.java:166-183 | a decrypt that ended normally made at least one unwrap, the last call it made |
| OldManager.Resumed | src/old/SSLManager.java:103-115 | after decrypt, NEED_UNWRAP returns, FINISHED finishes again and anything else goes round; the remainder is kept and earlier notifications are kept |
| OldManager.DrainCallsAreDrain | src/old/SSLManager.java:157-164 | processLongRunningTask's calls have the shape the NEED_TASK arm expects |
| OldManager.OffersAt | src/old/SSLManager.java:206-219 | the i-th call was offered the data from the total consumed before it |
| OldManager.RunningStep | src/old/SSLManager.java:212-217 | one more round keeps the loop's account: consumption adds up, and the loop goes on exactly when its condition holds |
| OldManager.RunningEnd | src/old/SSLManager.java:212-217 | a loop stopped by its condition ends Normal; one stopped by the bound ends OutOfFuel |
| OldManager.ConsumedInOrder | src/old/SSLManager.java:206-219 | the bytes the engine consumed, call after call, are the data's prefix with nothing skipped or read twice, and the rest is the remainder |
| OldManager.OffersShrink | src/old/SSLManager.java:285-293 | each call is offered what the previous call was offered minus what it consumed |
| OldManager.CarriesNothing | src/old/SSLManager.java:280-294 | calls without a wrap send no message |
| OldManager.FinishFiresOnce | src/old/SSLManager.java:150-155 | finishHandshake notifies at most the key's listener, removes it and sets the flag |
| OldManager.DecryptedFiresOnce | src/old/SSLManager.java:166-183 | decrypt notifies at most the key's own listener |
| OldManager.PassFiresOnce | src/old/SSLManager.java:79-117 | one pass of shakehands notifies at most the key's listener, even the pass that finishes twice |
| OldManager.PassesFireOnce | src/old/SSLManager.java:77-119 | a whole handshake notifies the listener at most once, and only the one the key had when it began |
| OldManager.DecryptedFinishedThrows | src/old/SSLManager.java:98-111 | a NEED_UNWRAP pass whose decrypt ends on FINISHED always throws NullPointerException, with the flag set and no listener left; the listener, if any, was notified once |
| OldManager.UnwrapPollFinishedThrows | src/old/SSLManager.java:99-111 | the same, for the NEED_UNWRAP arm alone |
| OldManager.PassReturnsNormally | src/old/SSLManager.java:79-117 | a pass returns normally only on NOT_HANDSHAKING, on FINISHED or a finishing wrap with a listener, or on NEED_UNWRAP with an empty remainder or a decrypt ending on NEED_UNWRAP |
| OldManager.DecryptedOutOfFuel | src/old/SSLManager.java:166-172 | a decrypt whose loop ran out of rounds leaves the remainder it emptied empty |
| OldManager.DecryptedEnded | src/old/SSLManager.java:171-177 | a decrypt whose loop ended keeps exactly the bytes of the remainder joined with the incoming bytes after those consumed, and finishes on FINISHED |
| OldManager.DecryptedKeepsTail | src/old/SSLManager.java:166-183 | decrypting the remainder alone leaves a tail of it: the bytes after those consumed, or none |
| OldManager.PassKeepsTail | src/old/SSLManager.java:79-117 | one pass of shakehands only drops leading bytes of the remainder |
| OldManager.PassesKeepTail | src/old/SSLManager.java:77-119 | over a whole handshake the remainder left is a tail of the one it began with |
| OldManager.Prepared | src/old/SSLManager.java:33-41 | prepare puts the key in the engine, remainder and flag maps, with an empty remainder and the flag false |
| OldManager.Cleaned | src/old/SSLManager.java:320-326 | cleanState removes the key from all four maps |
| OldManager.Applied | src/old/SSLManager.java:150-155 | a step on a key sets its remainder bytes, flag and listener to the step's state and records its notifications; the engines do not change |
| OldManager.AppliedElsewhere | src/old/SSLManager.java:150-155 | a step on one key leaves every other key's entries as they were |
| OldManager.AppliedIdle | src/old/SSLManager.java:85-89 | a step that changes nothing leaves the maps as they were |
| OldManager.AppliedThen | src/old/SSLManager.java:77-119 | two steps on a key, one after the other, are the step made of both |
| OldManager.KeptIsApplied | src/old/SSLManager.java:200-204 | replacing the remainder bytes is a step that keeps the flag and the listener |
| OldManager.FinishedIsApplied | src/old/SSLManager.java:150-155 | finishHandshake on the maps is the Finish step on the key's state; it throws exactly when there is no listener |
| OldManager.FinishedAfterKept | src/old/SSLManager.java:172-176 | storing the remainder and then finishing is the Finish step with that remainder |
| OldManager.CleanedPrepared | src/old/SSLManager.java:33-41 | cleanState after prepare leaves no trace of the key |
| OldManager.DecryptStarves | src/old/SSLManager.java:166-172 | the map-level decrypt whose loop ran out of rounds |
| OldManager.DecryptEnds | src/old/SSLManager.java:171-177 | the map-level decrypt whose loop ended: the step keeps the unconsumed suffix of the joined bytes |
| OldManager.DecryptedFinishing | src/old/SSLManager.java:172-176 | decrypt ending on FINISHED: the remainder is stored, then finishHandshake |
| OldManager.DecryptedKeeping | src/old/SSLManager.java:172-177 | decrypt ending otherwise: only the remainder changes |
| OldManager.HandshakeNotifiesOnce | src/old/SSLManager.java:66-120 | a handshake adds at most one notification; when it adds one, that is the key's original listener, which is then removed, and the flag is set |
| OldManager.NullListenerNotNotified | src/old/SSLManager.java:150-155 | a handshake begun with a null listener adds no notification: finishHandshake finds no listener and throws instead |
| OldManager.PassesSnoc | src/old/SSLManager.java:77-119 | one more pass extends the handshake's run |
| OldManager.HandshakeStep | src/old/SSLManager.java:77-119 | one more pass, on the maps the passes so far left |
| OldManager.UnwrapsCarryNothing | src/old/SSLManager.java:206-219 | unwrap's calls send nothing |
| OldManager.DecryptedCarriesNothing | src/old/SSLManager.java:166-183 | decrypt's calls send nothing |
| OldManager.DrainCarriesNothing | src/old/SSLManager.java:157-164 | processLongRunningTask's calls send nothing |
| OldManager.Transport.constructor | src/old/SSLManager.java:328-331 | the transport has received nothing |
| OldManager.Transport.Send | src/old/SSLManager.java:289 | the message for the key is appended to what the transport received |
| OldManager.SSLManager.constructor | src/old/SSLManager.java:23-31 | all four maps are empty and nothing has been notified |
| OldManager.SSLManager.Prepare | src/old/SSLManager.java:33-41 | the maps become Prepared, and isHandshakeCompleted is false for the key |
| OldManager.SSLManager.IsHandshakeCompleted | src/old/SSLManager.java:267-270 | the key's flag; None exactly when the key has none (unboxing null throws) |
| OldManager.SSLManager.FinishHandshake | src/old/SSLManager.java:150-155 | the maps become Finished: the flag is set, and the listener is notified and removed; without a listener, NullPointerException after the flag was set |
| OldManager.SSLManager.ProcessLongRunningTask | src/old/SSLManager.java:157-164 | every pending task is handed out and run in order, then one poll finds none |
| OldManager.SSLManager.AllocateDecryptionBufferForReceiving | src/old/SSLManager.java:233-248 | a new buffer of the session's application size; null when the key has no engine |
| OldManager.SSLManager.AllocateEncryptedByteBufferForSending | src/old/SSLManager.java:296-301 | a new buffer of the session's packet size; NullPointerException when the key has no engine |
| OldManager.SSLManager.Encrypt | src/old/SSLManager.java:272-277 | one logged wrap offered exactly the data; it consumes at most the data and produces at most the buffer's free space, which it fills; a null data array throws NullPointerException with no engine call and the buffer unchanged, as does a key without an engine |
| OldManager.SSLManager.CopyToByteArray | src/old/SSLManager.java:333-339 | the first size bytes written into the buffer; the buffer is left flipped with its position at size |
| OldManager.SSLManager.GetSSLMessageBytesFromBuffer | src/old/SSLManager.java:143-148 | the next bytesProduced bytes of the flipped buffer; its position advances by bytesProduced and nothing else changes |
| OldManager.SSLManager.WrapAndSend | src/old/SSLManager.java:132-141 | one wrap offered nothing, and exactly one message, as long as the wrap's output, sent for the key |
| OldManager.SSLManager.SendChunk | src/old/SSLManager.java:286-291 | one wrap offered the given bytes and one message of its output; the buffer is clear again |
| OldManager.SSLManager.SendRound | src/old/SSLManager.java:286-291 | one more round of send's loop keeps its account of calls, consumption and messages |
| OldManager.SSLManager.Send | src/old/SSLManager.java:280-294 | the wraps made form send's loop ending in the outcome; each was offered the bytes after those already consumed; one message per wrap, in order; NullPointerException and no message without an engine, and NullPointerException with no engine call and no message for a null plainBytes |
| OldManager.SSLManager.UnwrapRound | src/old/SSLManager.java:213-216 | one more round of unwrap's loop keeps its account of calls and consumption; the output buffer takes exactly the bytes the round produced at its position |
| OldManager.SSLManager.Unwrap | src/old/SSLManager.java:206-231 | the unwraps made form unwrap's loop under needsUnwrap, with totalBytesToBeConsumed the array's length; each is offered the data from where the last stopped; the input's position is the total consumed; the output buffer's position advanced by the total produced, with the bytes outside the written range kept; the last result is returned |
| OldManager.SSLManager.GetDataForDecryption | src/old/SSLManager.java:185-197 | a new buffer holding the remainder followed by the incoming bytes, flipped; the remainder is emptied |
| OldManager.SSLManager.AddPendingData | src/old/SSLManager.java:258-265 | a non-empty remainder is put into the buffer and emptied; an empty one changes nothing |
| OldManager.SSLManager.AddLatestData | src/old/SSLManager.java:250-256 | non-empty incoming bytes are put into the buffer |
| OldManager.SSLManager.StoreUnprocessedData | src/old/SSLManager.java:200-204 | the bytes between position and limit become the key's remainder |
| OldManager.SSLManager.Decrypt | src/old/SSLManager.java:166-183 | without a remainder, or with a null incomingBytes, NullPointerException with no engine call and no change to the maps or decryptedData; otherwise the unwraps read the remainder joined with the incoming bytes in order, decryptedData takes the total produced at its position, the new remainder is exactly the unconsumed suffix (empty when the loop ran out of rounds), and the maps take the Decrypted step |
| OldManager.SSLManager.DecryptKnown | src/old/SSLManager.java:168-177 | the same, for a key that has a remainder |
| OldManager.SSLManager.FinishIfFinished | src/old/SSLManager.java:173-177 | a FINISHED result finishes the handshake; any other leaves the stored remainder |
| OldManager.SSLManager.UnwrapIncoming | src/old/SSLManager.java:168-172 | the unwraps read the joined data in order and write the total produced into decryptedData; once the loop ended the unconsumed suffix is stored |
| OldManager.SSLManager.WrapPass | src/old/SSLManager.java:90-97 | the NEED_WRAP arm: one wrap of nothing, one message, the OnWrapPoll step on the maps, and the remainder unchanged |
| OldManager.SSLManager.UnwrapPass | src/old/SSLManager.java:98-117 | the NEED_UNWRAP arm: the OnUnwrapPoll step on the maps, whose remainder is that step's bytes, and no message sent |
| OldManager.SSLManager.DecryptPending | src/old/SSLManager.java:99-115 | decrypting the remainder, then Resumed on the last result when decrypt returned normally; the maps take that step, remainder bytes included |
| OldManager.SSLManager.Resume | src/old/SSLManager.java:103-115 | NEED_UNWRAP returns, FINISHED finishes the handshake, and anything else goes round |
| OldManager.SSLManager.OnStatus | src/old/SSLManager.java:80-118 | the switch: the Arm step for the polled status, on the maps (remainder bytes included) and in the messages sent |
| OldManager.SSLManager.ShakeOnce | src/old/SSLManager.java:79-118 | one pass: a status poll and its arm, the Pass step on the maps, remainder bytes included |
| OldManager.SSLManager.ShakeRound | src/old/SSLManager.java:77-119 | one more pass of the loop keeps the handshake's account |
| OldManager.SSLManager.ShakeHands | src/old/SSLManager.java:74-120 | without an engine NullPointerException and no change; otherwise the calls are passes that shakehands makes from the key's state, the maps (remainder bytes included) are those of their step, the remainder left is a tail of the one it began with, and the messages sent are one per wrap among them |
| OldManager.SSLManager.BeginSSLHandshake | src/old/SSLManager.java:66-72 | the listener is registered first, and a null listener leaves the key without one; then, without an engine, NullPointerException; otherwise beginHandshake followed by shakehands from the maps with that listener, leaving a tail of the remainder |
| OldManager.SSLManager.CleanState | src/old/SSLManager.java:320-326 | the maps become Cleaned |

## Left out

- Cryptography: the SSLEngine is an oracle. It returns arbitrary results, bounded only as the JDK documents (it consumes at most what it is offered and produces at most the room it has), and it records every call.
- SSLException and every other exception the engine can throw are not modelled. decrypt's catch-and-rethrow therefore has no effect in the model.
- getSSLContext, makeSSLEngine and the SSLContext itself are not modelled: keystore I/O and JDK factories. The engine for a key is given to Prepare, and the one for the facade is given to its constructor.
- closeEngine's closeOutbound and closeInbound calls are left out. Its effect on the manager's state is CleanState.
- setTransport is not modelled. The transport is given at construction, so the NullPointerException of sending with no transport set is not modelled. The transport is a sink that records what it was asked to send.
- Worker.sendCipherText and the HostTransport interface are not modelled. Nothing in the core calls them.
- The host's SSLListener and the listeners' bodies are host code. The model records what they were handed (`emitted`, `notified`).
- Logging, println and the test suite are left out.
- Java's 32-bit int arithmetic is not modelled, and sizes and counts are unbounded. The loop totals in send and unwrap cannot overflow at realistic sizes.
- Loops and recursions that depend on the engine's answers carry a `fuel` bound and end `OutOfFuel` when it runs out. The source has no such bound.
- The JDK ByteBuffer is modelled without its mark, read-only views, direct buffers and byte order.
- InsufficentUnwrapData is never thrown by the code modelled, so SSLFacade.beginHandshake's catch never applies.
- Buffers.Buffers.PrepareForWrap, PrepareForUnwrap, PrepareRetrial, Grow and Copy: Buffers.java has no methods by these names. Their contracts say only which role buffers they may touch, so the bytes a Worker round offers the engine are not determined by the model.
- Buffers.Buffers.PrepareForWrap and PrepareForUnwrap are assumed to leave their argument's position, limit and bytes unchanged: their frames exclude the argument buffer. The underflow and retry behaviour described above (Work.Remainder, Work.Retried) holds under that assumption; a prepareForUnwrap that flipped or moved its argument would change both.
- Buffers.Buffers.Disturb: stands for those missing bodies and says only which role it may replace.
- Work.Worker.HandleBufferOverflow: nothing in the core calls it, and its contract says only which roles may move.
- Work.Worker.MakeExternalBuffer: states the snapshot's capacity, but not its contents, because copy() is one of the missing Buffers methods.
- OldManager.SSLManager.Unwrap, UnwrapRound, UnwrapIncoming, DecryptKnown and Decrypt: the bytes written into the output buffer come from the engine oracle. Their contracts state how many bytes are written and where, and that the bytes outside that range are kept, but not the bytes' values.
- OldManager.Transport.Send: records a message's key and bytes. For the wraps, only the length of the bytes sent is tied to the engine's result, because the engine's output bytes are not modelled.
- Facade.Handshaker.ShakeHands: the NEED_TASK arm hands the tasks to the default task handlers only (DefaultITaskHandler and DefaultTaskHandler), which run every task and then call done() at once. A host ITaskHandler that runs tasks later, defers done() or never calls it is not modelled, so the Shaking run and "finished exactly when FINISHED was polled" in ShakeHands, Begin, CarryOn, Tasks.Done and SSLFacade.BeginHandshake hold for the default handlers only.
- Facade.Handshaker.OnStatus: the same restriction; its taskHandler.process is the default drain-then-done, not an arbitrary host strategy.
- Facade.DrainTasks and OldManager.SSLManager.ProcessLongRunningTask: the engine is assumed not to queue new delegated tasks while a task runs (SslEngine.SSLEngine.RunTask leaves the queue unchanged). The JDK does not promise this. The Java loops would keep draining such tasks; the model's drains end after the tasks queued when they started, and their logs are stated in terms of those tasks.
- Handshaker.isFinished, SSLFacade.isHandshakeCompleted, AppendableBuffer.get, notNull and hasRemaining, and SSLManager's anyUnprocessedDataFromPreviousReceives and isHandshakeStatusFinished are modelled as predicates and functions that read a field. The contracts of their callers use them.
