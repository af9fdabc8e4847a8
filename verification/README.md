# Verified model of the request client, the span stacks, the trace-context codec and the filter masks

The repository wraps a tracing library (`src/libMetrics`) and ships a demo client and server
(`trace`). Four parts of it have state and rules of their own. This project models them in
Dafny and proves what they keep on every run.

## What is modelled

**The cancellable request client** (`trace/client.cpp`). `ClientProtocol` is a state machine whose
actions are single accesses to shared state: taking or releasing a mutex, one read or write of a
session or of the session map, the start or the completion of an asynchronous operation. Any number
of I/O threads and user threads interleave. `StepStart` follows lines 115-121 of the file,
`StepCancel` lines 191-201, `StepEntry` and `StepHandler` the three handlers (lines 126-156, 157-173,
175-184), `StepComplete` lines 228-245. A handler starts the next operation while it still holds the
session's cancel guard, so two handlers of a session overlap. `ClientInvariant` and
`ClientPreservation` hold the invariant, `ClientTheorems`, `ClientProgress`, `ClientTermination` and
`ClientCalls` the results, `ClientWitness` the runs that show that their hypotheses are needed. `ClientObjects` has
the classes `Session` and `AsyncTcpClient` with the procedures' own text, and `ClientAlone` connects
the two: a procedure that nobody disturbs does what its small steps add up to.

**The span stacks** (`src/libMetrics/Tracing2.cpp`, `Tracing2.h`). `SpanThread` is one thread: the
library's own stack, the runtime's stack of attached contexts, and the spans with their tokens.
`SpanRuns` is a process of many threads with owning and aliasing handles, `SpanInterference` compares
a thread in company with the thread alone, and `SpanPrograms` takes block-structured programs with
destructors. `SpanObjects` has the classes `SpanImpl` (here `Impl`), `Stack` (in `ThreadLocals`) and
`Span`, whose methods update their fields in place and do to their thread what `SpanThread` says.

**The codec and its wire frame** (`src/libMetrics/Helper.cpp`, `Tracing2.cpp`, `trace/client.cpp`,
`trace/server.cpp`). `Hex` and `TraceContextCodec` write and read the 52 characters
`flags-spanid-traceid`; `WireFrame` and `TraceServer` put them into a request line, split it and slice
it. Field widths and the rule that all-zero ids are invalid are those of section 3.2.2 of W3C Trace
Context.

**The filter masks** (`Tracing2.cpp`, `Tracing.cpp`, `Metrics.cpp`). `FilterMask` folds a comma-separated
list into a 64-bit word, `TracingSetup` runs the one-time initialization on top of it. A word is the
set of the positions of its one-bits; `1 << 31` is sign-extended as the `int` shift makes it.

## Assumptions

- An operation that was started completes once, at any later time, with any code, as long as the event
  loop runs; cancelling a socket only makes such a completion possible. The user's callback takes none
  of the client's mutexes and calls none of its procedures.
- Attaching a context pushes it, releasing the top token pops it, an ended span stops recording, a
  started span records. What the runtime does with a token that is not on top is left open (`rest`).
  Only the library attaches contexts on the threads it traces.
- Ids that the tracer generates are not all zero. Lower-case base 16 is the usual one.
- The tracing library's reader of the two flag characters is a parameter (`flagsFromHex`), about which
  nothing is assumed.
- A span started under a valid parent context is in the parent's trace and has ids that the tracer draws; a tracer
  that is off draws invalid ids (`ClientProtocol.StartedUnder`). The drawn ids are a parameter of the connect's
  completion, and the start call's own span is a parameter of the call.
- Splitting is plain: `SplitString` and `boost::split` yield the pieces between separators.
- `assert` in the source is a precondition here, and `SpanRuns.StackDepthIsLiveSpans` shows that the one of
  `Pop` holds on every run.

## Where the code and its own words disagree

- `Tracing2.h:29-37`, `TraceFilters.h` and `MetricFilters.h` promise 64 filters. `1 <<` is an `int` shift, so
  the model and the theorems have at most 32; all shipped lists are shorter.
- `emulateLongComputationOp` takes a duration, but the line that is written always carries 11
  (`trace/client.cpp:152`). That is also what makes the server's constant offsets right.
- `ProcessRequest` calls its third to fifth field trace id, span id and flags (`trace/server.cpp:78-82`);
  the line has flags, span id and trace id there.
- `cancelRequest` looks safe to repeat. Two calls for one session can block the client for good
  (`ClientWitness.TwoCancelsDeadlock`).
- The session map is keyed by an id that the caller chooses. A repeated id hides a live session
  (`ClientWitness.RepeatedIdHidesSession`).

## Model

| member | source | states |
|---|---|---|
| ClientPreservation.Places | trace/client.cpp:84-245 | After every run, for any interleaving of any threads and any operation results, there is one place for the work of each session and the whole invariant holds: mutex ownership, pending operations, traces, marks and the map. |
| ClientPreservation.ActionKeepsInv | trace/client.cpp:84-245 | Each single action of a thread, enabled in any state that satisfies the invariant, keeps it. |
| ClientTheorems.TracesAreLives | trace/client.cpp:121-187 | The events of a session are always a prefix of insert, connect, write, read, erase, one callback, cut short only after a failed operation or, when a cancel call has found the session, after any. |
| ClientTheorems.OneOutstanding | trace/client.cpp:121-187 | At any time a session has exactly one of: one pending operation, one thread that carries its work, or its callback behind it; handler tails that overlap the next handler do not count. |
| ClientTheorems.CalledOnce | trace/client.cpp:216-245 | A callback is always the last event of its session and there is one exactly when the session's work is over, so no interleaving calls it twice. |
| ClientTheorems.CallbackContract | trace/client.cpp:236-244 | A callback carries its session's own id; it reports success if and only if no cancel call ever found the session, before or after, and connect, write and read succeeded, and then the text is the line the read stored; otherwise it reports the code of the failed operation, or aborted if none failed. |
| ClientTheorems.FoundNeverSucceeds | trace/client.cpp:191-201 | Once a cancel call has found a session in the map its callback does not report success, also when ids are reused. |
| ClientTheorems.CloseFinishesAll | trace/client.cpp:203-213 | In a state in which the event loop can stop for want of work, all sessions have been called back if and only if no start call is under way, and then the map is empty. |
| ClientTermination.LoopStopsWhenDone | trace/client.cpp:203-213 | Whatever action ends the event loop, after whatever run: the client was closed, nothing is pending, all sessions have been called back if and only if no start call is under way, and then the map is empty. |
| ClientTermination.CloseLeavesTheRest | trace/client.cpp:204-207 | A close changes nothing but the work object and takes no possible action from anybody, so pending operations still complete. |
| ClientTermination.WorkUntilClose | trace/client.cpp:73-81 | The work object is there, and a close possible, exactly until the first close. |
| ClientTermination.LoopCanStopIffIdle | trace/client.cpp:203-213 | The event loop can end if and only if the client was closed, nothing is pending and no handler is running. |
| ClientTermination.ClosedLoopGoesOn | trace/client.cpp:203-213 | While a closed client's loop is running and no session was found twice, something other than a new call can happen, or the loop can end. |
| ClientTermination.PendingCanEnd | trace/client.cpp:121-187 | A pending operation can complete with any result, on any idle thread of a running loop. |
| ClientObjects.AsyncTcpClient.Close | trace/client.cpp:203-213 | With nothing pending the work object goes, the loop ends and nothing else changes. |
| ClientTheorems.WrittenLineContinuesTrace | trace/client.cpp:139-157 | For every pending write, whatever duration was asked for: the connect has succeeded and given ids to its handler, the line is `EMULATE_LONG_CALC_OP -11-`, the context of the span that the handler starts under the caller's captured context with those ids, and the trailer, and the server's reply continues that span's trace, or refuses the line of a tracer that is off. |
| ClientCalls.SessionsAreStarts | trace/client.cpp:84-105 | The sessions are those of the start calls, in their order, each with the id and the span of its own call for ever, and with the call's own request until the connect succeeds. |
| ClientProtocol.ChildSharesTrace | trace/client.cpp:140-147 | A span started under a valid parent is in its trace, with the drawn span id; without a valid parent it is as drawn. |
| ClientCalls.OneTraceFromCallerToServer | trace/client.cpp:94-153 | On every interleaving the start call's span, the line that its session writes and the span that the server starts are in one trace: the server's parent is the connect handler's span, a child of the caller's. |
| ClientTheorems.FlagReadIsSafe | trace/client.cpp:236-241 | No cancel call is about to set a session's flag while a completion of that session is past its lock and not yet done, so the unguarded read races with no write. |
| ClientTheorems.FlagIsSettled | trace/client.cpp:191-201 | Once a session is erased no action of any thread changes its flag. |
| ClientTheorems.CancelledStartsNothing | trace/client.cpp:132-137 | Whatever the interleaving, an action that starts a write or a read does so for a session that is not marked as cancelled. |
| ClientTheorems.MappedMeansLive | trace/client.cpp:191-195 | Without any assumption on ids, an entry of the map is under its session's own id, was inserted and has not been erased. |
| ClientTheorems.MapAfterEvent | trace/client.cpp:228-232 | An insertion puts the session under its id, in place of whatever was there; an erase removes whatever is under the session's id, whose entry it was. |
| ClientTheorems.MapExactIffNoOverwrite | trace/client.cpp:115-117 | The map holds exactly the sessions inserted and not yet erased in every state of a run, if and only if no insertion of the run finds its id in the map. |
| ClientTheorems.DistinctIdsNeverOverwrite | trace/client.cpp:228-232 | Sessions with pairwise different ids satisfy that condition on every run. |
| ClientProgress.HolderSteps | trace/client.cpp:132-137 | The owner of a cancel guard can act, unless it is a cancelled handler that waits for the sessions guard. |
| ClientProgress.StuckMeansCycle | trace/client.cpp:191-201 | If no busy thread can act, a cancel call and a completion wait for each other's mutex. |
| ClientProgress.CycleMeansFoundTwice | trace/client.cpp:165-171 | Such a cycle needs a session that two cancel calls have found. |
| ClientProgress.NoDeadlock | trace/client.cpp:228-234 | On every run in which each session is found at most once, some busy thread can act, despite the opposite lock orders. |
| ClientCalls.FoundWithinCalls | trace/client.cpp:191-195 | A session is found no more often than `cancelRequest` was called with its id. |
| ClientCalls.LookupFindsEntry | trace/client.cpp:194-195 | The lookup of a cancel call finds exactly the session that the map has under the id at that point. |
| ClientTheorems.MarkedIffFound | trace/client.cpp:195-199 | A session has been found exactly if it is marked, or a cancel call with the sessions guard is about to mark it. |
| ClientCalls.NoDeadlockIfCancelledOnce | trace/client.cpp:191-201 | On every run in which no id is cancelled twice, some busy thread can act. |
| ClientProgress.CycleIsForever | trace/client.cpp:132-137 | Once two threads are in the cycle, every continuation of the run leaves them there and never calls the session back. |
| ClientWitness.TwoCancelsDeadlock | trace/client.cpp:191-201 | A run with two cancel calls of one session, after which no busy thread can act. |
| ClientWitness.NeverStuckIffOneCancel | trace/client.cpp:191-201 | Among all bounds on how often a session is found, and among all bounds on how often an id is cancelled, exactly zero and one exclude deadlock. |
| ClientWitness.RepeatedIdHidesSession | trace/client.cpp:115-117 | A run with a repeated id in which a live session is no longer in the map and a cancel call of its id marks the other session. |
| ClientTermination.ActionUsesWork | trace/client.cpp:121-245 | Every action uses up work, and only start and cancel calls bring new work in. |
| ClientTermination.RunsAreBounded | trace/client.cpp:121-201 | The length of every run is bounded by the numbers of its start and cancel calls, so with finitely many calls every run is finite. |
| ClientTermination.QuietMeansAllCalledBack | trace/client.cpp:216-245 | While the loop runs and no session was found twice, a run that can only go on by new calls has called every session back. |
| ClientAlone.StartRunsAlone | trace/client.cpp:104-121 | The four steps of an undisturbed start add up to a new session, its map entry and its pending connect. |
| ClientAlone.CancelRunsAlone | trace/client.cpp:191-201 | The steps of an undisturbed cancel call add up to the mark on the session found, and to nothing when none is found. |
| ClientAlone.CompletionRunsAlone | trace/client.cpp:216-245 | The first six steps of an undisturbed completion add up to the erase and the callback, with all mutexes released. |
| ClientAlone.HandlerRunsAlone | trace/client.cpp:121-187 | The first steps of an undisturbed handler, five, seven or nine of them, add up to the next operation, or to the completion of a failed, cancelled or finished session. |
| ClientAlone.StepManyExtends | trace/client.cpp:121-187 | Such steps continue any run of the state machine. |
| ClientObjects.Session.constructor | trace/client.cpp:39-47 | A new session has no error, no response and no mark. |
| ClientObjects.AsyncTcpClient.constructor | trace/client.cpp:73-81 | A new client is the initial state of the state machine. |
| ClientObjects.AsyncTcpClient.EmulateLongComputationOp | trace/client.cpp:84-121 | Writes the request with the duration asked for, stores the session under its id and starts the connect: the whole new state, and every earlier session unchanged. |
| ClientObjects.AsyncTcpClient.CancelRequest | trace/client.cpp:191-201 | Marks the session found under the id and changes nothing else. |
| ClientObjects.AsyncTcpClient.OnRequestComplete | trace/client.cpp:216-245 | Erases the entry under the session's id and reports the verdict: the session's error, or aborted for a cancelled success. |
| ClientObjects.AsyncTcpClient.ConnectHandler | trace/client.cpp:121-157 | Fails, completes as cancelled, or starts its span under the captured context, replaces the request by the line with eleven and that span's context, character by character, and starts the write: the whole new state. |
| ClientObjects.AsyncTcpClient.WriteHandler | trace/client.cpp:157-175 | Fails, completes as cancelled, or starts the read: the whole new state. |
| ClientObjects.AsyncTcpClient.ReadHandler | trace/client.cpp:175-185 | Stores the error or the line and completes: the whole new state. |
| SpanThread.CloseAgreesIffInnermost | src/libMetrics/Tracing2.cpp:160-172 | From agreeing stacks, ending a live span leaves them agreeing if and only if it is the innermost one, whatever the runtime does with a buried token. |
| SpanThread.CloseKeepsDepth | src/libMetrics/Tracing2.cpp:108-117 | Ending any live span keeps the stack as deep as there are live spans, so `Pop` finds it non-empty. |
| SpanThread.LiveSpansClose | src/libMetrics/Tracing2.cpp:160-172 | Ending a span takes exactly its number out of the live ones and keeps the order of the others. |
| SpanThread.OpenKeepsChained | src/libMetrics/Tracing2.cpp:194-209 | A new span keeps the chain of parents along the stack: its parent is the span below it or a remote one. |
| SpanThread.LocalChildrenShareTrace | src/libMetrics/Tracing2.cpp:232-238 | Spans on the stack with only local children in between share one trace id. |
| SpanRuns.StackDepthIsLiveSpans | src/libMetrics/Tracing2.cpp:108-117 | On every run, in any order of ends, each thread's stack is as deep as the thread has live spans, and no pop of an empty stack happens. |
| SpanRuns.AgreeIffInnermostFirst | src/libMetrics/Tracing2.cpp:160-172 | Both stacks of every thread hold the live spans in creation order, all recording, throughout a run, if and only if each end that takes effect is on the innermost live span of its thread. |
| SpanRuns.InnermostFirstChains | src/libMetrics/Tracing2.cpp:194-209 | In innermost-first runs each span on a stack is a child of the one below it, or of a remote span. |
| SpanRuns.ParentIsActiveSpan | src/libMetrics/Tracing2.cpp:194-219 | In innermost-first runs, a `GetActiveSpan` and a local creation after it on the same thread: the new span's parent is the span reported, in its trace, and the new span is a root if none was reported. |
| SpanRuns.ActiveSpanIsInnermost | src/libMetrics/Tracing2.h:189-191 | In innermost-first runs `GetActiveSpan` reports exactly the innermost live span, which records, and a no-op exactly when no span of the thread is live. |
| SpanRuns.GetActiveIsBackOfStack | src/libMetrics/Tracing2.cpp:212-219 | After any run `GetActiveSpan` gives an alias of the last span of the stack, or a no-op, and changes nothing else. |
| SpanRuns.LocalSpanIsOpened | src/libMetrics/Tracing2.cpp:232-238 | After any run, a local creation opens a live, recording span with the drawn ids on top of both stacks of its thread, owned by the new handle, if and only if the run's first initialization enabled the class; otherwise it gives a no-op and changes nothing else. |
| SpanRuns.RemoteChildIsOpened | src/libMetrics/Tracing2.cpp:240-257 | The same for a remote child, which also needs ids that decode, and which is in the remote span's trace with it as parent. |
| SpanRuns.AbortsIffForeignEnd | src/libMetrics/Tracing2.cpp:160-166 | An action aborts the process if and only if it ends a span through its owner on another thread than the span's. |
| SpanRuns.HandlesAfterEnd | src/libMetrics/Tracing2.h:153-158 | An end disarms an owner and leaves an alias as it is, a destructor leaves nothing, and no other handle changes. |
| SpanRuns.StackSharesTrace | src/libMetrics/Tracing2.h:176-187 | In innermost-first runs local children on a stack share the trace of the nearest root or remote child below them. |
| SpanRuns.NothingTracedUntilEnabled | src/libMetrics/Tracing2.cpp:232-257 | Until an initialization has enabled tracing, every handle is a no-op and every thread's stacks are empty. |
| SpanRuns.ConfigIsFirstOutcome | src/libMetrics/Tracing2.cpp:262-270 | The mask and the tracer after a run are those of its first initialization alone, wherever it stands among the threads' actions. |
| SpanRuns.ChildOfIdsContinuesTrace | src/libMetrics/Tracing2.h:125-131 | A span that any thread creates from the serialized ids of any span of any thread, ended or not, is in that span's trace and has it as its remote parent. |
| SpanInterference.ThreadsDoNotInterfere | src/libMetrics/Tracing2.cpp:92-118 | For every interleaving that does not abort, a thread ends with the spans and stacks of its own actions run alone. |
| SpanInterference.EndedWhereCreated | src/libMetrics/Tracing2.cpp:160-172 | A live span stops being live exactly by an end or destructor of the handle that owns it, on the thread that created it. |
| SpanPrograms.ProgramsRestoreStacks | src/libMetrics/Tracing2.h:99-121 | Every well-nested program of scopes, aliases and explicit ends leaves both stacks of its thread as they were, all its spans ended, and other threads and older handles untouched. |
| SpanPrograms.ExplicitEnd | src/libMetrics/Tracing2.h:153-158 | An explicit end inside a scope restores both stacks and disarms the handle, so that the destructor's end does nothing. |
| SpanObjects.Impl.End | src/libMetrics/Tracing2.cpp:160-172 | Ends the span, gives the token back and pops; without a token it does nothing, and on a foreign thread it aborts before any change. |
| SpanObjects.ThreadLocals.Push | src/libMetrics/Tracing2.cpp:108-112 | Puts a recording span on top of the stack and changes nothing else. |
| SpanObjects.ThreadLocals.Pop | src/libMetrics/Tracing2.cpp:114-117 | Takes the top off the stack and changes nothing else. |
| SpanObjects.ThreadLocals.CreateSpanImpl | src/libMetrics/Tracing2.cpp:194-209 | The new span is under the remote parent or the current context, on top of both stacks, and owned by the handle returned; its ids are the text form of its context. |
| SpanObjects.ThreadLocals.GetActiveSpan | src/libMetrics/Tracing2.cpp:212-219 | An alias of the span on top of the stack, or a no-op. |
| SpanObjects.Span.End | src/libMetrics/Tracing2.h:153-158 | Only an owner ends its span, once; an alias, a no-op or an end on a foreign thread leaves stacks and span as they were. |
| SpanObjects.Span.IdsAreTextOfContext | src/libMetrics/Tracing2.h:125-131 | Owners and aliases of a span give the text of its context, also after its end; without a span the ids are empty. |
| SpanObjects.CreateSpan | src/libMetrics/Tracing2.cpp:232-238 | A no-op that leaves both stacks alone unless tracing is on for the class. |
| SpanObjects.CreateChildSpanOfRemoteTrace | src/libMetrics/Tracing2.cpp:240-257 | The same, and a no-op also for every string that is not well-formed ids. |
| SpanThread.DecodeIds | src/libMetrics/Tracing2.cpp:310-350 | What ids decode to is a valid context, the same one that the reader returns. |
| Hex.FromToHex | src/libMetrics/Tracing2.cpp:338-342 | Reading the lower-case digits of bytes gives the bytes. |
| Hex.ToFromHex | src/libMetrics/Tracing2.cpp:332-342 | Writing the bytes read from valid digits gives the digits in lower case. |
| Hex.ZeroHex | src/libMetrics/Tracing2.cpp:344-347 | An id is all zero exactly when all its digits are `0`. |
| Hex.HexIsStandard | src/libMetrics/Tracing2.cpp:302-307 | Each byte is two characters of `0123456789abcdef`, the high half first. |
| TraceContextCodec.WriteLowerBase16 | src/libMetrics/Tracing2.cpp:302-307 | Overwrites exactly the field's characters of the buffer. |
| TraceContextCodec.GetIds | src/libMetrics/Tracing2.cpp:300-308 | The buffer of dashes becomes flags, span id and trace id joined by dashes. |
| TraceContextCodec.TextLayout | src/libMetrics/Tracing2.cpp:291-298 | The flags are at 0, the span id at 3 and the trace id at 20 of 52 characters, with dashes at 2 and 19. |
| TraceContextCodec.ExtractTraceInfoFromActiveSpan | src/libMetrics/Helper.cpp:39-58 | The text form of a valid active context, the empty string otherwise. |
| TraceContextCodec.DecodeEncoded | src/libMetrics/Tracing2.cpp:310-350 | Reading the text of a valid context gives its trace id and span id and marks it remote. |
| TraceContextCodec.DecodeEncodedWithFlags | src/libMetrics/Tracing2.cpp:342-349 | With a flag reader that inverts the flag writer, a remote context comes back whole. |
| TraceContextCodec.AcceptedIffWellFormed | src/libMetrics/Tracing2.cpp:312-350 | The reader accepts a string if and only if its 52 characters are digits with dashes at 2 and 19 and neither id is all zeros, whatever the flag reader does. |
| TraceContextCodec.EncodeDecoded | src/libMetrics/Tracing2.cpp:300-350 | Writing what an accepted string was read as gives the id fields in lower case, and the whole string if the flag reader allows. |
| TraceContextCodec.ReadersAgree | src/libMetrics/Helper.cpp:60-94 | The two readers accept the same strings and agree on every string. |
| TraceContextCodec.SerializeInjective | src/libMetrics/Tracing2.cpp:300-308 | Two contexts have the same text if and only if they have the same ids and flags. |
| Text.SplitJoin | src/libMetrics/Tracing2.cpp:461-463 | Splitting undoes joining on pieces without separators. |
| Text.JoinSplit | trace/server.cpp:71-76 | Joining undoes splitting, and no piece keeps a separator. |
| Text.DecimalWidth | trace/client.cpp:102-102 | A number is written with two digits exactly from 10 to 99. |
| Text.DecimalReadsBack | trace/client.cpp:102-102 | The decimal text of a number stands for that number by the values of its characters, and starts with a zero only for zero. |
| WireFrame.LineSplits | trace/server.cpp:71-83 | The server's split of a line recovers command, duration, flags, span id, trace id and terminator, in that order. |
| WireFrame.LineText | trace/client.cpp:149-153 | The line by its characters; the one that is sent starts with `EMULATE_LONG_CALC_OP -11-`. |
| WireFrame.EmptyLineSplits | trace/client.cpp:99-102 | A line without a context has four pieces. |
| TraceServer.Service.ProcessRequest | trace/server.cpp:55-111 | Drains the buffer and gives the answer and the span that the whole line determines. |
| TraceServer.Service.OnRequestReceived | trace/server.cpp:25-41 | After an error the service is finished and nothing changes; otherwise the answer becomes the response to be written. |
| TraceServer.SliceExactIffTwoDigits | trace/server.cpp:85-87 | For every duration, the slice at the constant offsets is the context if and only if the duration has two digits. |
| TraceServer.ServerContinuesTraceIffTwoDigits | trace/server.cpp:71-111 | For every valid sender and every duration the server answers, and its span is a child of the sender's span exactly when the duration has two digits; otherwise the trace is cut. |
| TraceServer.ServerRefusesLineWithoutContext | trace/server.cpp:74-76 | A line without a valid context is refused for its format. |
| TraceServer.ServerRefusesNonHexFields | trace/server.cpp:85-97 | A line of enough fields whose third or fourth one has a character that is no digit is answered with `invalid hex`, after the span was started. |
| TraceServer.SentLineContinuesTrace | trace/client.cpp:149-153 | The line with eleven has at least five fields, its slice is the sender's context, and the server's span has the sender's trace id and span id as parent. |
| FilterMask.FindClass | src/libMetrics/Tracing2.cpp:364-371 | The comparison finds a class of that name if the list has one. |
| FilterMask.ShippedNumbers | src/libMetrics/Tracing2.h:38-58 | The position of each shipped name is its enumerator's number. |
| FilterMask.WordsAreNumbers | src/libMetrics/Tracing2.cpp:352-368 | As a 64-bit number the word of class `i` is two to the `i`, that of class 31 is sign-extended, and the full mask is the largest number. |
| FilterMask.FoldUntilFull | src/libMetrics/Tracing2.cpp:461-468 | The loop with its early exit computes the fold of the whole list. |
| FilterMask.Filter.Init | src/libMetrics/Tracing.cpp:177-186 | Folds the configured list into the mask that is there. |
| FilterMask.Filter.Enabled | src/libMetrics/Tracing.h:45-47 | A class is enabled exactly if its bit is set, and class 31 if any bit of the upper half is. |
| FilterMask.FoldBits | src/libMetrics/Tracing2.cpp:354-372 | A bit is set after the fold if and only if it was set before or some token sets it. |
| FilterMask.FoldFull | src/libMetrics/Metrics.cpp:463-468 | A full mask stays full, so the early exit changes nothing. |
| FilterMask.FoldEnables | src/libMetrics/Tracing2.cpp:228-230 | For every list of at most 32 distinct names, a class is enabled after the fold if and only if it was before, or its name or "ALL" is among the tokens. |
| FilterMask.FoldNonzero | src/libMetrics/Tracing2.cpp:470-475 | The mask is zero if and only if it was and no token is "ALL" or a class name. |
| FilterMask.FoldDependsOnSetOnly | src/libMetrics/Metrics.cpp:460-469 | Order and repetition of the tokens do not matter. |
| FilterMask.FoldAgain | src/libMetrics/Tracing.cpp:53-56 | Folding the same list again keeps the mask. |
| FilterMask.TraceFilterStart | src/libMetrics/Tracing.h:39-51 | The filter that runs its initialization twice has the mask of running it once. |
| FilterMask.ShippedFiltersMeanTheirLists | src/libMetrics/MetricFilters.h:30-42 | For every filter string and both shipped lists, a class is enabled if and only if the string lists its name or "ALL". |
| TracingSetup.TracingState.InitializeImpl | src/libMetrics/Tracing2.cpp:449-508 | Succeeds exactly if the argument, or without one the configuration, names a class or "ALL" and the provider was set up; then sets mask and tracer together, otherwise changes nothing. |
| TracingSetup.TracingState.Initialize | src/libMetrics/Tracing2.cpp:262-270 | Has the effect and the result of its arguments on the first call and none later. |
| TracingSetup.OnlyFirstInitializeCounts | src/libMetrics/Tracing2.cpp:262-270 | Over any sequence of calls only the first has an effect, later ones return false, and mask and tracer are set exactly when the first returned true. |
| TracingSetup.EnabledAfterInitialize | src/libMetrics/Tracing2.cpp:228-230 | After the first call a class is enabled if and only if that call enabled tracing and its list selects the class. |
| TracingSetup.ArgumentDecides | src/libMetrics/Tracing2.cpp:451-475 | For a first call with a filter argument, its result and every class are decided by the tokens of the argument and the set-up, whatever is configured. |
| TracingSetup.ConfigurationDecides | src/libMetrics/Tracing2.cpp:451-475 | Without an argument the same is decided by the tokens of the configured list. |

## Left out

- Real sockets, the scheduling of the event loop, timing and sleeps; the shutdown of the socket in
  `onRequestComplete`, whose error is ignored.
- The interleaved client is modelled on values. The classes of `ClientObjects` cover one undisturbed call at a
  time, because a Dafny method cannot be interrupted in the middle.
- A request is kept as the duration and the span context it is written from; `Request.Line` is the string.
- Request ids are unbounded integers here; the 32-bit conversion between `unsigned int` and the map's `int` key is
  one-to-one.
- Start and cancel calls made from inside a callback. `close` waits until the loop has ended; in the state machine it
  is the release of the work object and, later, the end of the loop.
- TraceServer.ReplyTo: takes only lines long enough for the constant offsets; an empty or shorter line with enough
  fields reads outside the string in the source.
- FilterMask.ClassBits: at most 32 classes, because the shift of an `int` by 32 or more has no defined meaning.
- Class lists of the trace filters in `TraceFilters.h` and `Tracing2.h` are equal, so one constant stands for both.
- Exporter, processor, resource and provider set-up: one choice of outcome in `TracingSetup`.
- Span names, attributes, events, status values and kinds; the macros of `Api.h` and `Tracing.h`; logging.
- Metric instruments, latency scopes, `InstrumentWrapper`, `Observable`, `Singleton`, `Naming`.
- The server's acceptor, its thread pool and the self-deletion of `Service`.
- The getters `IsRecording`, `GetSpanId`, `GetTraceId` of `Span`, which read one field each.
