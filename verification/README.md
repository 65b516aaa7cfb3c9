# A verified model of reyao

A Dafny model of reyao, a coroutine network runtime, with proofs of what its parts are for. Five parts
are modelled, each in its own files.

**The event-loop runtime.** `Timers.dfy` is the ordered timer set as classes over the heap: `Timer`
objects change in place, the set is a sequence ordered by (deadline, address), and a ghost map says
what it means. `TimerRuns.dfy` reasons about whole runs of that set. `Polling.dfy` says what a poller's
registrations and the kernel's table mean, `PollingRuns.dfy` proves what every run of operations keeps,
and `Epoller.dfy` is the class that updates `types`, the two contexts of each fd and the counter in
place, proved against it. `Runtime.dfy` puts coroutines, workers, timers and pollers together as a step
relation for any number of workers: a worker pops a task, a poll pass ends, a coroutine sleeps, waits for
IO with or without a timeout, closes an fd, yields, finishes or throws; other threads enqueue work, move
their timers and let time pass. What a coroutine does next, what the kernel reports and who runs when are
left open. `Ownership.dfy` proves, over all runs, that every waiting coroutine has exactly one holder.
`Timeouts.dfy`, `TimeoutSteps.dfy` and `TimeoutPops.dfy` follow the timeout of each timed wait through its
stages; `TimeoutRuns.dfy` concludes, for any number of workers, that a coroutine back from a timed wait was
told about the timeout exactly when its timer is gone, over every run in which a poll pass collects the
timeouts of its own worker's calls only. `Deadlines.dfy` ties sleeps and timed waits to the time that was
asked for, `Wakeups.dfy` says whom a timeout or a closed fd wakes and what a woken wait reads, and
`WorkerQueues.dfy` that a worker's queue is first in, first out and runs every function given to it once.

A started `Scheduler` never has a single worker: `Scheduler(1)` runs one thread and the main worker
(reyao/scheduler.cc:20-51), and all its workers poll one shared set of timers. Nothing in the code
provides that condition, so every `Scheduler` has losing runs: `TimeoutRuns.EverySchedulerCanLose`.

**HTTP/1.1.** `HttpText.dfy` holds the text functions; `HttpParsing.dfy` is the parser as a machine on
(parser, unread input) with the fragmentation theorem; `HttpParser.dfy` is the parser object with its
nested loops, proved against the machine; `HttpRoundTrip.dfy` is `dump` and the theorem that parsing
undoes it, with the exact condition; `HttpThrows.dfy` says which streams make an exception leave the
parser, and `HttpVerdicts.dfy` which end in error, which are whole messages and which are unfinished, by a
reference that does not use the parser; `HttpChunked.dfy` is chunked decoding (section 4.1 of RFC 7230) and
its precedence over content-length (section 3.3.3 of RFC 7230).

**ByteArray and RPC frames.** `Wire.dfy` is byte order and two's complement, `TypedQueue.dfy` typed values
on a byte queue, `ByteArray.dfy` the growing and compacting buffer over an array, `RpcCodec.dfy` the
frames and the code that sends and receives them.

**AsyncLog.** `AsyncLog.dfy` is the double-buffered logger: every interleaving of appends, stop and the
steps of the logging thread, and a class whose methods are those steps.

**CoroutineSpinLock.** `SpinLock.dfy`, for any number of threads.

Exceptions and failed assertions are results: `threw` in the parser, `None` from a read that finds too
little, `ok == false` where a ByteArray assertion fails, `crashed` in the logger. Time, the kernel's
reports, the socket's reads and the protobuf library are parameters.

## Where the code departs from its intent

Each of these is kept as the code has it, with the exact condition or a counterexample.

- reyao/epoller.cc:255 computes `EPOLLET & left_events`, so after a delivery that leaves something
  waited for the kernel watches nothing on that fd: `PollingRuns.PartialDeliveryLosesInterest` has the
  condition, `PollingRuns.WriterIsForgotten` an input, and `PollingRuns.StrandedUntilAdded` the consequence:
  until something is added on that fd, no report brings it an event.
- reyao/epoller.cc:68 grows the table to fd * 1.5, which makes no room for fds 0 and 1:
  `Epollers.Epoller.AddEvent` answers `outOfRange` exactly then.
- reyao/worker.cc:132 narrows the time to the next deadline to `int`: `TimerRuns.PollEndsInTime` says
  when the poll is still bounded, `TimerRuns.WaitsAsMeant` when it lasts as long as meant;
  `TimerRuns.FarDeadlineBlocks` and `TimerRuns.FarDeadlineWakesEarly` are failing inputs.
- reyao/hook.cc:128 handles a timeout at the worker that runs the function: `TimeoutRuns.TimeoutExclusive`
  has a condition on the run under which that is right, and `TimeoutRuns.RaceLost` is a run of two workers in
  which a coroutine comes back from a timed wait with its timer gone and not told.
- A recurring timer whose interval is not positive is due again at once: `TimerRuns.OnlyLaterDeadlinesRemain`.
- dump prints some messages the parser does not read back: a header with an empty value, a
  transfer-encoding of chunked, a content-length that is no number or that has no body to it, and a body of
  2^31 bytes. `HttpRoundTrip.RoundTrip` is the exact condition.
- A header line that ends at its colon makes a string of negative length (reyao/http/http_parser.cc:123), and
  a length or status code that is no number makes `stoi` throw: `HttpThrows.ThrowsIff` says for every stream
  whether an exception leaves the parser, `HttpThrows.ShortestThrow` is a stream that does it.
- A chunk keeps its CRLF in the body (reyao/http/http_parser.cc:162), a response's reason its leading
  space (line 288). A chunk size passes through `int`: `HttpText.ChunkSizeSurvives` says which survive.
- After `reset` or `writePrepend` a write may fail the assertion at reyao/bytearray.cc:305: `Write` says
  exactly when. A string longer than its length prefix can say is not read back: `TypedQueues.ItemRoundTrip`.
- reyao/endian.h:29 compares with `BIG_ORDER`, which nothing defines, so `byteSwapOnLittleEndian` swaps on
  every host and a big-endian host sends the length of a frame reversed: `RpcCodec.FrameIff` has the
  condition, `RpcCodec.ReversedLengthRefused` an input.
- reyao/rpc/codec.cc:45-53 takes the length off before the frame is complete, and never accepts a frame
  of ten bytes: `RpcCodec.ReceiveFrame` is the exact condition for one frame. A frame of more than 4106 bytes
  is never received: `RpcCodec.LongFrameNeverReceived`.
- Two threads can make the spin lock unusable for ever: `SpinLocks.StallIff`, `SpinLocks.Progress`.

## Model

| member | source | states |
|---|---|---|
| Ownership.OneHolder | reyao/hook.cc:79-212 | over all runs, for any number of workers: a waiting coroutine is held exactly once, by one of a queue entry, an armed IO event, a sleep timer, a queued wake function or a wake function being run; one that runs or is finished is held by nothing, so no wakeup is lost, doubled or delivered to a reused coroutine |
| Ownership.AssertionsHold | reyao/coroutine.cc:54-99 | over all runs: what is popped can be resumed and does not run, what is reused is finished, what yields runs, and a running coroutine runs at one worker only |
| Ownership.NoEarlyWakeup | reyao/hook.cc:170-212 | over all runs: before its deadline a sleeper is held by its timer alone, and that timer has this deadline |
| Deadlines.SleepsUntil | reyao/hook.cc:170-212 | over all runs, from a call of sleep with ms at some time on, until the sleeper is resumed: it sleeps towards that time plus ms, and before that its timer alone holds it and is due then |
| Deadlines.NeverResumedEarly | reyao/hook.cc:170-212 | over all runs: a sleeper is resumed no earlier than ms after it called sleep |
| Deadlines.WaitStarts | reyao/hook.cc:113-130 | a call, or another attempt of one, waits for the fd and direction asked for, with a new one-shot timer due after the time asked for, or with none if none was |
| Deadlines.TimeoutNotEarly | reyao/hook.cc:106-155 | over all runs, from such a start until the call ends or tries again: it waits for what it asked for, and its timer is pending and due after the time asked for, or that moment has passed |
| Wakeups.NeverToldEarly | reyao/hook.cc:119-129 | under the condition of TimeoutExclusive: a timeout function runs only after the time its call asked for |
| Ownership.KeepStep | reyao/worker.cc:70-113 | every step of every worker, coroutine and outside thread keeps the ownership invariant |
| Ownership.KeepPollEnd | reyao/epoller.cc:216-273 | a poll pass keeps the ownership invariant |
| Ownership.PollWakes | reyao/epoller.cc:216-222 | a poll pass queues the wakeup of every due sleeper, and that is its one holder |
| Ownership.PollReleases | reyao/epoller.cc:224-273 | a poll pass queues every coroutine whose registration it takes away, and that is its one holder |
| Ownership.ReusesFinishedOnly | reyao/worker.cc:91-97 | the coroutine a worker keeps for functions is over whenever it is reused |
| TimeoutRuns.TimeoutExclusive | reyao/hook.cc:113-155 | any number of workers, over every run whose poll passes collect the timeouts of their own worker's calls only: back from a timed wait, either the timer is pending (cancel answers true) and ETIMEDOUT is not set, or it is gone and ETIMEDOUT is set; no worker has a function, and no other timer is left, to strike a later retry |
| TimeoutRuns.TimeoutRunsOnce | reyao/hook.cc:119-129 | under the same condition: a timeout function that runs finds its call alive, suspended in this very wait at this worker, and not told before |
| Wakeups.TimeoutWakes | reyao/hook.cc:125-128 | under the same condition: the function sets ETIMEDOUT, and queues its coroutine here, once, if and only if that is registered on an fd the kernel knows or queued already, one of the two registrations being there in any case; the fd keeps no waiter if the kernel knows it |
| Wakeups.ToldWhenBack | reyao/hook.cc:143-153 | under the same condition: from then on until it is resumed, however the run goes on, the coroutine stays told, and resumed it is back in this call and reads ETIMEDOUT |
| Wakeups.ReturnOutcome | reyao/hook.cc:145-153 | a told call returns, with its timer and timerInfo gone |
| Wakeups.RefusedOutcome | reyao/hook.cc:135-141 | a call whose registration is refused returns, with its timer and timerInfo gone |
| Wakeups.PoppedResumes | reyao/worker.cc:82-85 | the coroutine that is popped is the one that runs |
| Wakeups.FinishEnds | reyao/coroutine.cc:130-147 | a coroutine that returns is DONE, one that throws EXCEPT; its worker goes on and nothing holds it |
| Wakeups.WatchRegisters | reyao/epoller.cc:65-102 | a function given with an fd is what waits there, and the kernel watches for it besides all that was waited for |
| Wakeups.ProgramTimers | reyao/timer.cc:22-126 | starting, stopping and moving the program's own timers, as the runtime relation has them |
| Wakeups.CloseWakes | reyao/hook.cc:311-322 | close queues everything that waits on the fd at the closing worker, once, if its kernel knows the fd |
| Wakeups.CloseForgets | reyao/hook.cc:316-321 | afterwards no kernel table holds the fd, and what waits for it at other workers is left as it was |
| TimeoutRuns.SingleIsHome | reyao/epoller.cc:216-222 | with one worker the condition holds of every run |
| TimeoutRuns.RaceLost | reyao/hook.cc:128 | without the condition, with two or more workers, a run exists in which neither side of the exclusive choice holds |
| TimeoutRuns.ExclusiveIffSingleWorker | reyao/hook.cc:106-155 | exclusivity holds over all runs, at every worker, if and only if there is one worker |
| TimeoutRuns.EverySchedulerCanLose | reyao/scheduler.cc:20-51 | a started Scheduler has at least two workers, so each has a run that loses |
| TimeoutPops.TimelyStep | reyao/hook.cc:106-155 | every step, of any worker or outside thread, keeps each timed wait in one of its stages, provided a poll pass collects its own worker's timeouts only |
| TimerRuns.OneShotEndsOnce | reyao/timer.cc:22-35 | over all runs: a one-shot timer fires or is cancelled at most once, and exactly once as soon as it is not pending |
| TimerRuns.OnlyLaterDeadlinesRemain | reyao/timer.cc:158-185 | after collecting, all deadlines lie ahead if and only if every recurring timer that was due has a positive interval |
| TimerRuns.PollEndsInTime | reyao/epoller.cc:199-205 | the wait is bounded if and only if the low 32 bits of the distance to the earliest deadline are below 2^31 or all ones; then it ends no later than that deadline, and one of full length makes a timer due |
| TimerRuns.WaitsAsMeant | reyao/epoller.cc:199-205 | the wait lasts until the deadline or the limit, as meant, if and only if the distance is below the limit or its low 32 bits are at least the limit and below 2^31, or all ones |
| TimerRuns.FarDeadlineWakesEarly | reyao/worker.cc:124-132 | a deadline 2^32 + 5 ms ahead makes the wait 5 ms long |
| TimerRuns.FarDeadlineBlocks | reyao/worker.cc:124-132 | a deadline 2^31 ms ahead makes the wait unbounded |
| Timers.TimeManager.LowerBound | reyao/timer.cc:87-104 | the first position not ordered before (deadline, address) |
| Timers.TimeManager.AddTimer | reyao/timer.cc:114-126 | the new timer, at any address no pending timer has, is pending with its deadline; everything else is unchanged and in order |
| Timers.TimeManager.Cancel | reyao/timer.cc:22-35 | true exactly when the timer was pending, and then it alone is gone: the not-found branch is never taken |
| Timers.TimeManager.Refresh | reyao/timer.cc:37-50 | true exactly when pending; its deadline is restarted from now, the order kept |
| Timers.TimeManager.Reset | reyao/timer.cc:52-85 | all four outcomes: unchanged request, spent timer, restart from now and from the old start; the order kept; atFront exactly when the timer moved to a place before all others |
| Timers.TimeManager.GetExpire | reyao/timer.cc:142-156 | the time to the earliest deadline, 0 when passed, -1 without timers |
| Timers.TimeManager.ExpiredFunctions | reyao/timer.cc:158-185 | the functions of exactly the timers with deadline at or before now, by deadline, whichever way the probe splits timers that tie at now; recurring ones re-armed at now plus interval, one-shot ones spent |
| Timers.SplitDue | reyao/timer.cc:164-173 | the prefix the search and the tie loop find is exactly the set of due timers |
| PollingRuns.ExactlyOnce | reyao/epoller.cc:65-274 | over any run, per fd and direction: what was registered is, in order, what was handed out or removed, followed by what is still pending |
| PollingRuns.AlwaysConsistent | reyao/epoller.cc:65-274 | over any run: every fd the kernel watches is waited on for at least that mask; and every fd waited on is in the kernel's table as long as no fd is closed behind the poller's back |
| PollingRuns.SyncedCallsSucceed | reyao/epoller.cc:65-194 | each operation succeeds exactly when there is something to add or to take: its epoll_ctl is always legal |
| PollingRuns.PartialDeliveryLosesInterest | reyao/epoller.cc:253-262 | after a delivery the kernel's mask is empty, and equals what is waited for if and only if the report stood for everything waited for |
| PollingRuns.WriterIsForgotten | reyao/epoller.cc:255 | reading and writing on one fd, reading reported: the writer waits and the kernel watches for nothing |
| PollingRuns.StrandedUntilAdded | reyao/epoller.cc:236-262 | from a delivery on, over any run without a successful add on that fd, no report brings it an event, and a report without error or hang-up delivers nothing |
| PollingRuns.ClosedConsistent | reyao/hook.cc:311-322 | closing an fd keeps the table in step if and only if nobody waits on it here |
| PollingRuns.DeliverLegal | reyao/epoller.cc:253-271 | given that the kernel reported fds it watches: what a delivery triggers is waited for, and the later reports still name watched fds |
| PollingRuns.PassLegal | reyao/epoller.cc:224-273 | given that the kernel knew the reported fds when epoll_wait returned: it still knows each when the pass comes to its MOD or DEL, and what is triggered is waited for |
| PollingRuns.DeliveredOnce | reyao/epoller.cc:264-271 | a registered task is handed out once at most |
| PollingRuns.AddWatchesAll | reyao/epoller.cc:78-92 | after a successful add the kernel watches for everything waited for on the fd, also what a report had left behind |
| PollingRuns.KernelWatches | reyao/epoller.cc:65-262 | over any run: what the kernel watches for on an fd it knows is what is waited for, or nothing; nothing exactly while a report left something behind there since the last successful add or take |
| PollingRuns.PassReaches | reyao/epoller.cc:235-271 | over a whole pass: a waiter is handed out, once, exactly when a report of its fd names its direction or says error or hang-up; every other waiter stays |
| PollingRuns.ReadingFirst | reyao/epoller.cc:185-192 | where both directions are handed out at once, reading comes first |
| WorkerQueues.PollFires | reyao/epoller.cc:216-222 | a poll pass queues the function of every due timer |
| WorkerQueues.PollDelivers | reyao/epoller.cc:224-273 | a poll pass queues the coroutine or function that waits for what is reported |
| PollingRuns.WaitConserves | reyao/epoller.cc:224-273 | a whole pass over the reports, ERR/HUP and stale ones included, loses and invents no task |
| Epollers.Epoller.AddEvent | reyao/epoller.cc:65-102 | out of range exactly for fds 0 and 1 without a slot; otherwise the object's new state and answer are those of the specification; pendingEvents_ counts the set bits, each set bit has a worker and exactly one of coroutine and function, each clear bit has neither |
| Epollers.Epoller.DelEvent | reyao/epoller.cc:104-133 | takes the registration out without queueing it |
| Epollers.Epoller.HandleEvent | reyao/epoller.cc:135-161 | takes the registration and queues its task once |
| Epollers.Epoller.HandleAllEvent | reyao/epoller.cc:163-194 | takes both directions, read first |
| Epollers.Epoller.TriggleEvent | reyao/epoller.cc:31-42 | the held task is appended to the queue, its slot emptied |
| Epollers.Epoller.Dispatch | reyao/epoller.cc:235-271 | one report: what is queued, what stays armed and what the kernel then watches |
| Epollers.Epoller.AfterPoll | reyao/epoller.cc:216-273 | expired functions are queued by deadline before any reported event, then the reports in order |
| Epollers.WorkerQueue.AddTask | reyao/worker.h:107-115 | appends one task; swapping in an empty source appends nothing; asks for a notification exactly when the queue was empty or the worker idle |
| WorkerQueues.WaitsItsTurn | reyao/worker.cc:70-80 | whatever is done from any state on: a task stands behind m others once it stood behind those and exactly the tasks taken on the way |
| WorkerQueues.RunsOn | reyao/worker.cc:58-80 | a run from the start that goes on is the later actions from the state reached, so the line is kept over every run |
| WorkerQueues.LoopTurn | reyao/worker.cc:70-111 | a worker in its loop polls next exactly when it has no task or the first one is a coroutine that is over, is busy with any other, and no other worker's step takes it out of its loop |
| WorkerQueues.PoppedRuns | reyao/worker.cc:91-97 | a popped function is the one that runs, at this worker, on a new or a finished coroutine |
| WorkerQueues.GivenRunsOnce | reyao/worker.h:79-89 | over any run: a function given to a worker so many times ran there so many times, less those still queued |
| HttpParsing.DrainMore | reyao/http/http_parser.cc:28-73 | feeding a then b is feeding a + b, from any parser state |
| HttpParsing.Fragmentation | reyao/http/http_parser.cc:28-73 | over any reads the parser ends where feeding the whole stream ends |
| HttpParsing.FragmentationIndependence | reyao/http/http_parser.cc:213-257 | two splittings of one stream give the same verdict, message and leftover, for requests and responses |
| HttpParsing.StepConsumes | reyao/http/http_parser.cc:39-70 | every step consumes input, ends a chunk or stops: each pass ends |
| HttpParsing.AlwaysSound | reyao/http/http_parser.cc:139-171 | in every reachable state without an error, chunkSize_ is 0 if and only if the parser is between chunks, so the loop never spins |
| HttpParsers.HttpParser.Parse | reyao/http/http_parser.cc:28-73 | the object's answer and fields are those of feeding every read; true exactly when finished without error |
| HttpParsers.HttpParser.ParseBuffered | reyao/http/http_parser.cc:39-70 | one pass over the buffer is the machine run until it needs more |
| HttpParsers.HttpParser.ParseChunkedBody | reyao/http/http_parser.cc:139-171 | the chunk loop is the machine run until it needs more or stops |
| HttpParsers.HttpParser.ParseFixedBody | reyao/http/http_parser.cc:173-182 | takes the announced length once it is there, and not before |
| HttpParsers.HttpParser.ParseRequestLine | reyao/http/http_parser.cc:75-113 | glue: the fields follow HttpParsing.RequestLine, which the round trip and HttpThrows are about |
| HttpParsers.HttpParser.ParseStatusLine | reyao/http/http_parser.cc:259-292 | glue: the fields follow HttpParsing.StatusLine, which the round trip and HttpThrows are about |
| HttpParsers.HttpParser.ParseHeader | reyao/http/http_parser.cc:115-137 | glue: the fields follow HttpParsing.HeaderLine, which the round trip and HttpThrows are about |
| HttpParsers.HexToDecimal | reyao/util.cc:16-30 | the loop computes the value of the digits narrowed to int; -1 exactly for those values that narrow to it and for every line with a wrong digit |
| HttpParsers.StoppedStays | reyao/http/http_parser.cc:29-71 | a parser that stopped is not changed by what the stream still holds |
| HttpText.HexAccIsValue | reyao/util.cc:16-30 | the accumulator is the number the digits stand for, modulo 2^64 |
| HttpText.ChunkSizeSurvives | reyao/http/http_parser.cc:148-153 | a chunk size survives the trip through int if and only if it is below 2^31 or within 2^31 of 2^64 |
| HttpText.StoiOfDec | reyao/http/http_parser.cc:130 | a printed length is read back if and only if an int holds it |
| HttpText.StoiReads | reyao/http/http_parser.cc:282 | any text as blanks, sign, digits and the rest: the number read, and an exception exactly without a digit or out of the range of int |
| HttpRoundTrip.RoundTrip | reyao/http/http_request.cc:79-101 | for every printable message, header order, splitting into reads and trailing bytes: parsing what dump printed recovers method, version, path, query, fragment, status, body and headers with connection and content-length normalised, and leaves the rest unread, if and only if every header has a value, none says chunked, a content-length is a number and is 0 without a body, and the body is shorter than 2^31 |
| HttpRoundTrip.UnreadableLost | reyao/http/http_parser.cc:121-136 | a header without a value, saying chunked, or with a length that is no number, wherever it is printed, makes the parser stop or take another body |
| HttpRoundTrip.ChunksShrink | reyao/http/http_parser.cc:139-171 | a chunked body that ends is shorter than its bytes by a size line at least |
| HttpRoundTrip.HeadersRead | reyao/http/http_request.cc:87-92 | the printed headers are read one line each, in any order |
| HttpRoundTrip.TargetRead | reyao/http/http_parser.cc:184-206 | path, query and fragment are cut apart where dump joined them |
| HttpRoundTrip.Dump | reyao/http/http_response.cc:50-71 | the request and response printers, with their loop over the headers, produce the specified text |
| HttpRoundTrip.MethodRead | reyao/http/http_request.cc:6-29 | a printed method is read back |
| HttpRoundTrip.MethodPrinted | reyao/http/http_request.cc:6-29 | a method that was read is printed as it was read, if and only if it is one of the four texts |
| HttpRoundTrip.MethodTexts | reyao/http/http_request.h:15-26 | the three methods by name, and no method for any other text |
| HttpRoundTrip.StatusTexts | reyao/http/http_response.h:15-21 | the six reasons, word for word |
| HttpRoundTrip.ConnectionTexts | reyao/http/http_request.cc:86 | what either dump says about the connection, word for word |
| HttpRoundTrip.AnyTargetRead | reyao/http/http_parser.cc:102-110 | whatever stands in front of the first '/' of a target is dropped, and the rest is cut into path, query and fragment |
| HttpRoundTrip.HeaderSkipsOne | reyao/http/http_parser.cc:121-123 | a value starts two characters after the colon, whatever the one in between is |
| HttpThrows.ThrowsIff | reyao/http/http_parser.cc:115-137 | over any splitting into reads: an exception leaves the parser if and only if the first line of the stream that does not pass is a status line whose code is no number, a header line that ends at its colon, or a content-length that is no number with no chunked framing announced before |
| HttpVerdicts.VerdictIs | reyao/http/http_parser.cc:28-182 | over any splitting into reads: the parser throws, says error, finishes or waits exactly as the reference decides from the text: spaces, the two versions, a '/', the six status codes, a colon and a value in every header line, hexadecimal sizes whose low 32 bits are not all ones, and enough bytes |
| HttpThrows.ColonEndThrows | reyao/http/http_parser.cc:120-123 | after any good first line, a header that ends at its colon throws |
| HttpThrows.ShortestThrow | reyao/http/http_parser.cc:120-123 | a concrete stream that throws |
| HttpThrows.BodyNeverThrows | reyao/http/http_parser.cc:139-182 | once the headers are over, nothing throws |
| HttpChunked.ChunksRead | reyao/http/http_parser.cc:139-171 | the parser finds exactly the chunk boundaries and stores the chunks in order, each with its CRLF |
| HttpChunked.ChunkedWins | reyao/http/http_parser.cc:124-132 | wherever the transfer-encoding stands among the headers and whatever content-lengths there are, the body is the chunks, over any splitting |
| HttpChunked.LastValueWins | reyao/http/http_request.cc:55-57 | of fields whose names differ in case only, the message keeps the spelling of the first and the value of the last |
| ByteArrays.ByteArray.AddCapacity | reyao/bytearray.cc:301-313 | makes room by growing or by an overlapping copy to the left, without changing the content or shrinking; fails its assertion exactly when the window starts in the prepend area and no growth is needed |
| ByteArrays.ByteArray.Write | reyao/bytearray.cc:212-221 | appends to the queue, with the exact condition for the failed assertion |
| ByteArrays.ByteArray.Read | reyao/bytearray.cc:223-230 | takes from the front of the queue, or throws and takes nothing |
| ByteArrays.ByteArray.Receive | reyao/bytearray.cc:232-235 | reserving, filling and committing appends what was filled |
| ByteArrays.ByteArray.WritePrepend | reyao/bytearray.cc:315-320 | puts bytes in front of the queue if they fit there |
| ByteArrays.ByteArray.Reset | reyao/bytearray.cc:206-210 | an empty queue in which a write passes the assertion exactly when it has more than 1016 bytes |
| ByteArrays.ByteArray.FindCRLF | reyao/bytearray.cc:294-299 | the first line end of the window, none exactly when there is none |
| ByteArrays.ByteArray.WriteInt | reyao/bytearray.cc:29-69 | the bytes in the chosen byte order, on hosts of either order, or the failed assertion under its exact condition |
| ByteArrays.ByteArray.WriteString | reyao/bytearray.cc:87-100 | the length, cut to its prefix, and the whole string; once the length was written the string never fails |
| ByteArrays.ByteArray.ReadString | reyao/bytearray.cc:182-204 | the length, then the string; if the string is short, the length is gone and the rest stays |
| TypedQueues.ItemRoundTrip | reyao/bytearray.cc:87-204 | a value is read back, and nothing else with it, if and only if its format can express it |
| TypedQueues.TypedFifo | reyao/bytearray.cc:21-204 | any list of mixed values, with reads interleaved anywhere, comes back in order; the queue holds exactly the bytes not read yet |
| Wire.SwapThenStore | reyao/endian.h:11-27 | swapping before a store is storing in the other byte order, for any width |
| Wire.SwapTwice | reyao/endian.h:11-27 | swapping twice changes nothing |
| Wire.Positional | reyao/endian.h:11-27 | big-endian has the most significant byte in front, little-endian the least, for any width |
| Wire.IntRoundTrip | reyao/bytearray.cc:114-166 | an integer is read back if and only if its type holds it |
| RpcCodec.BodyRoundTrip | reyao/rpc/codec.cc:15-33 | parsing what was serialized recovers the name and the payload, whatever follows |
| RpcCodec.ParsedFills | reyao/rpc/codec.cc:82-114 | for arbitrary bytes a parsed message fills the announced length exactly and stays inside it |
| RpcCodec.ParsedRefusals | reyao/rpc/codec.cc:83-113 | for arbitrary bytes, by the number of the first four: exactly which give which refusal, and which a message |
| RpcCodec.LookIs | reyao/rpc/codec.cc:45-53 | for arbitrary bytes: nothing is looked at up to ten, a length below 6 or above 64 MiB is refused, a frame that is there is parsed, and otherwise the length is gone |
| RpcCodec.ReceiveFrame | reyao/rpc/codec.cc:42-57 | one frame in any non-empty pieces is received if and only if it is longer than ten bytes and complete the first time more than ten are buffered |
| RpcCodec.ReceiveWhole | reyao/rpc/codec.cc:45-52 | a complete frame is received whatever follows it |
| RpcCodec.LongFrameNeverReceived | reyao/rpc/codec.cc:44-54 | a frame of more than 4106 bytes is never received, however it is cut |
| RpcCodec.FrameIff | reyao/endian.h:29-51 | the length goes out in network order, so that the buffer is a frame, if and only if the host is little-endian or the four length bytes read the same from both ends |
| RpcCodec.ReversedLengthRefused | reyao/rpc/codec.cc:30-31 | the smallest frame of a big-endian host has its length reversed, and is refused |
| RpcCodec.SerializeToByteArray | reyao/rpc/codec.cc:15-33 | the buffer holds the length as the host writes it and the body, and both assertions hold; it is a frame exactly under the condition of FrameIff |
| RpcCodec.Parse | reyao/rpc/codec.cc:82-114 | for arbitrary bytes, every peek stays before the write position and the answer is the specified one |
| RpcCodec.Receive | reyao/rpc/codec.cc:42-57 | the loop over reads gives the specified answer |
| AsyncLogs.LogConservation | reyao/asynclog.cc:97-164 | in every interleaving: file, unwritten local buffers, buffers_ and current buffer together are the accepted lines in lock order; no moved-from buffer is used; spares are empty and both present at the loop head; each buffer has one owner |
| AsyncLogs.FileAtExit | reyao/asynclog.cc:126-163 | when the thread has ended, the file is exactly what was accepted before its final swap |
| AsyncLogs.LoggedBeforeStop | reyao/asynclog.cc:175-179 | everything logged before stop() is in the file when the thread has ended |
| AsyncLogs.StopEndsThread | reyao/asynclog.cc:126-130 | whatever is appended meanwhile: after stop() the thread ends within the steps of this round, one full round and one more for each line appended, and then the file holds everything accepted before stop() |
| AsyncLogs.RunsUntilStopped | reyao/asynclog.cc:126-130 | without stop() the thread never ends |
| AsyncLogs.EventuallyWritten | reyao/asynclog.cc:131-147 | while nobody stops the logger, everything accepted is in the file within a stated number of the thread's steps |
| AsyncLogs.HandedOver | reyao/asynclog.cc:100-105 | the current buffer is handed over exactly when a line would fill it to its last byte or beyond |
| AsyncLogs.StepOwners | reyao/asynclog.cc:105-111 | every step keeps the single owner of every buffer |
| AsyncLogClass.FixedBuffer.Append | reyao/fixedbuffer.h:15-20 | appends the text if it fits, else nothing |
| AsyncLogClass.AsyncLog.Append | reyao/asynclog.cc:97-116 | glue: the fields follow AsyncLogs.DoAppend, a step of the conservation theorem |
| AsyncLogClass.AsyncLog.Collect | reyao/asynclog.cc:132-144 | glue: the fields follow AsyncLogs.DoSwap, a step of the conservation theorem |
| AsyncLogClass.AsyncLog.WriteBuffers | reyao/asynclog.cc:146-147 | the loop is one specified step per buffer |
| AsyncLogClass.AsyncLog.Recycle | reyao/asynclog.cc:150-161 | glue: the fields follow AsyncLogs.DoRecycle, a step of the conservation theorem |
| SpinLocks.MutualExclusion | reyao/coroutine.h:75-82 | any number of threads, any interleaving: sem is 1 minus holders minus waiters, and two holders are one |
| SpinLocks.Progress | reyao/coroutine.h:75-82 | the lock can still be taken if and only if it is held or fewer than two threads spin |
| SpinLocks.StallIff | reyao/coroutine.h:75-82 | a stall can be reached if and only if there are at least two threads |

## Left out

- The worker loop, the hooks and coroutine switching (reyao/worker.cc, reyao/hook.cc, reyao/coroutine.cc) are a step relation and not methods: their control crosses coroutine switches, so a method body could not follow it. Stacks, `ucontext` and `shared_ptr` counts are not part of this model.
- Epollers.Epoller.AddEvent: what an access out of range does is not part of this model; the runtime relation speaks of fds with a slot.
- Epollers.Epoller.HandleEvent: the kernel's refusal of a legal MOD or DEL is not modelled.
- TimeoutRuns.TimeoutExclusive: claimed for runs whose poll passes collect their own worker's timeouts only, since it is false without (TimeoutRuns.RaceLost).
- TimerRuns.PollEndsInTime: the EINTR retry, the eventfd and the 256-event limit are not modelled.
- The clock is taken to be monotone, and 64-bit deadlines are taken not to overflow.
- A poll pass ends in one step of the runtime relation: expired functions and reports are queued together, in the order `Epollers.Epoller.AfterPoll` proves. Idle exit, `canStop`, notification and `polling_` are left out.
- `delEvent` appears in the poller only: nothing in the repository calls it on an event a coroutine waits for. `CoroutineCondition` is left out.
- The timer set is a sequence with a linear search in place of a balanced tree; addresses are numbers that no two timers in the set share.
- The parser's ByteArray is its readable window as a value; `ByteArrays.ByteArray` is where the buffer itself is modelled. Letters are ASCII, a byte is a character.
- HttpParsers.HttpParser.Parse: readSize_ is never updated, so the size limit at reyao/http/http_parser.cc:30 is dead and not modelled.
- HttpRoundTrip.RoundTrip: keepAlive is printed but never parsed back, so it is recovered only as the connection header.
- HttpChunked.ChunkedWins: chunks of 2^31 bytes and more are excluded, since HttpText.ChunkSizeSurvives shows their size is misread.
- ByteArrays.ByteArray.AddCapacity: sizes beyond 2^31, which the int parameter at reyao/bytearray.cc:301 would make negative, are not modelled. Floats, files and the hex dump are left out.
- RpcCodec.Parse: the protobuf library is a parameter that knows type names and accepts payloads.
- AsyncLogs.LogConservation: rolling, flushing and failed writes of the file are left out; the file is all that was written, in order.
- A `unique_ptr` buffer of the logger is a value with an identity, as it has one owner (AsyncLogs.LogConservation proves that); `AsyncLogClass.FixedBuffer` models the array inside separately, against the same function.
- The spin lock's `lock` is two kinds of step and not a method, because its loop waits for other threads. Wrap-around of its counter needs 2^31 threads and is not modelled.
- Servlets, scheduler start and stop, sockets, configuration, log formatting: easy, or calls into other libraries.
