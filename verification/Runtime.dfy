// The event loop: workers, coroutines, timers and IO waits as one transition system
// (reyao/worker.cc, reyao/coroutine.cc, reyao/hook.cc on top of reyao/epoller.cc and
// reyao/timer.cc). Any number of workers; each action is what one thread does between two points
// where another thread, or the kernel, can act.
module Runtime {
  import opened Prelude
  import opened Tasks
  import opened Timers
  import opened Polling
  import opened Epollers

  // reyao/coroutine.h:20-26
  datatype State = INIT | RUNNING | SUSPEND | DONE | EXCEPT

  // Where a coroutine stands inside a hooked call.
  datatype Phase =
    | Free                                                       // in the program's own code
    | Sleeping(deadline: int)                                    // sleep: the timer is set
    | IoSet(tinfo: TInfo, timer: Option<TimerId>, io: Io)        // do_io: the timer is set
    | IoWait(tinfo: TInfo, timer: Option<TimerId>, io: Io)       // do_io: the event is registered
    | IoBack(tinfo: TInfo, timer: Option<TimerId>, io: Io)       // do_io: resumed

  datatype Io = Io(fd: nat, dir: Dir, timeout: Option<int>)

  datatype Coro = Coro(state: State, home: nat, func: Func, phase: Phase)

  // What the worker's thread is doing.
  datatype Mode = Looping | Polling | Busy(co: CoId)

  datatype Worker = Worker(queue: seq<Task>, poller: Poller, mode: Mode, coFunc: Option<CoId>)

  // reyao/hook.cc:74-76, with the coroutine inside the call that made it. It leaves the map when
  // the call returns, which is when weak_ptr::lock starts to fail.
  datatype Info = Info(cancelled: bool, owner: CoId)

  datatype Sys = Sys(now: int, ws: seq<Worker>, cos: map<CoId, Coro>, timers: map<TimerId, Entry>,
                     infos: map<TInfo, Info>, nextTimer: TimerId, nextInfo: TInfo)

  datatype Action =
    | PopCo(w: nat)                            // reyao/worker.cc:82-90
    | PopDead(w: nat)                          // ... a finished coroutine: straight to the poll pass
    | PopFunc(w: nat, born: CoId)             // reyao/worker.cc:91-97
    | PollStart(w: nat)                        // reyao/worker.cc:104-110
    | PollEnd(w: nat, due: seq<TimerId>, events: seq<Report>)  // reyao/epoller.cc:216-273
    | RunWake(w: nat)                          // the function of a sleep timer
    | RunTimeout(w: nat)                       // reyao/hook.cc:119-129, 256-263
    | Sleep(w: nat, ms: int)                   // reyao/hook.cc:174-179
    | IoStart(w: nat, io: Io)                  // reyao/hook.cc:103-130
    | IoRegister(w: nat, accepted: bool)       // reyao/hook.cc:135-141
    | Yield(w: nat)                            // reyao/hook.cc:143, reyao/worker.cc:98-102
    | IoReturn(w: nat, again: bool)            // reyao/hook.cc:145-154
    | CloseFd(w: nat, fd: nat)                 // reyao/hook.cc:311-322
    | WatchFd(w: nat, fd: nat, dir: Dir, id: nat, accepted: bool)  // addEvent with a function
    | Finish(w: nat, threw: bool)              // reyao/coroutine.cc:60-77
    | Enqueue(w: nat, id: nat)                 // addTask of a function, by any thread
    | EnqueueCo(w: nat, born: CoId)           // addTask of a new coroutine, by any thread
    | StartTimer(interval: int, id: nat, recursive: bool)
    | StopTimer(t: TimerId)                    // cancel, on a timer of the program's own
    | MoveTimer(t: TimerId, interval: int, expire: int)        // refresh, reset: likewise
    | Tick(elapsed: nat)

  ghost predicate Finished(c: Coro) { c.state == DONE || c.state == EXCEPT }

  // Worker w runs a coroutine, Cur(s, w).
  ghost predicate Runs(s: Sys, w: nat) {
    w < |s.ws| && s.ws[w].mode.Busy? && s.ws[w].mode.co in s.cos
  }

  ghost function Cur(s: Sys, w: nat): CoId
    requires Runs(s, w)
  {
    s.ws[w].mode.co
  }

  ghost function CurCo(s: Sys, w: nat): Coro
    requires Runs(s, w)
  {
    s.cos[s.ws[w].mode.co]
  }

  // ... and that coroutine is in the program's own code.
  ghost predicate InCode(s: Sys, w: nat) {
    Runs(s, w) && CurCo(s, w).func.User? && CurCo(s, w).phase.Free?
  }

  // Worker w is about to run the head of its queue.
  ghost predicate Pops(s: Sys, w: nat) {
    w < |s.ws| && s.ws[w].mode.Looping? && s.ws[w].queue != []
  }

  ghost function SetW(s: Sys, w: nat, x: Worker): Sys
    requires w < |s.ws|
  {
    s.(ws := s.ws[w := x])
  }

  ghost function Push(s: Sys, w: nat, ts: seq<Task>): Sys
    requires w < |s.ws|
  {
    SetW(s, w, s.ws[w].(queue := s.ws[w].queue + ts))
  }

  ghost function SetPhase(s: Sys, w: nat, p: Phase): Sys
    requires Runs(s, w)
  {
    s.(cos := s.cos[Cur(s, w) := CurCo(s, w).(phase := p)])
  }

  // Entry at reyao/coroutine.cc:60-77: the coroutine is over and its worker goes on.
  ghost function Over(s: Sys, w: nat, st: State): Sys
    requires Runs(s, w)
  {
    SetW(s.(cos := s.cos[Cur(s, w) := CurCo(s, w).(state := st)]), w, s.ws[w].(mode := Looping))
  }

  // One more timer, due after `interval`.
  ghost function WithTimer(s: Sys, interval: int, recursive: bool, f: Func): Sys {
    s.(timers := s.timers[s.nextTimer := Entry(s.now + interval, interval, recursive, f)],
       nextTimer := s.nextTimer + 1)
  }

  ghost function WithoutTimer(s: Sys, t: Option<TimerId>): Sys {
    if t.Some? then s.(timers := s.timers - {t.value}) else s
  }

  // A call on the poller of worker w, whose deliveries go to the worker's own queue.
  ghost function Effected(s: Sys, w: nat, e: Effect): Sys
    requires w < |s.ws|
  {
    SetW(s, w, s.ws[w].(poller := e.poller, queue := s.ws[w].queue + TasksOf(e.out)))
  }

  // reyao/worker.cc:82-90. The phase a coroutine continues in when it is resumed:
  ghost function Resumed(p: Phase): Phase {
    match p
    case Sleeping(d) => Free
    case IoWait(tinfo, timer, io) => IoBack(tinfo, timer, io)
    case _ => p
  }

  ghost predicate CanPopCo(s: Sys, w: nat) {
    && Pops(s, w) && s.ws[w].queue[0].CoTask?
    && s.ws[w].queue[0].co in s.cos && !Finished(s.cos[s.ws[w].queue[0].co])
  }

  ghost function DoPopCo(s: Sys, w: nat): Sys
    requires CanPopCo(s, w)
  {
    var c := s.ws[w].queue[0].co;
    SetW(s.(cos := s.cos[c := s.cos[c].(state := RUNNING, phase := Resumed(s.cos[c].phase))]), w,
         s.ws[w].(queue := s.ws[w].queue[1..], mode := Busy(c)))
  }

  // A task whose coroutine is finished falls through to the poll pass.
  ghost predicate CanPopDead(s: Sys, w: nat) {
    && Pops(s, w) && s.ws[w].queue[0].CoTask?
    && (s.ws[w].queue[0].co in s.cos ==> Finished(s.cos[s.ws[w].queue[0].co]))
  }

  ghost function DoPopDead(s: Sys, w: nat): Sys
    requires CanPopDead(s, w)
  {
    SetW(s, w, s.ws[w].(queue := s.ws[w].queue[1..], mode := Polling))
  }

  // reyao/worker.cc:91-97: reuse the worker's function coroutine, or make one.
  ghost predicate CanPopFunc(s: Sys, w: nat, born: CoId) {
    Pops(s, w) && s.ws[w].queue[0].FuncTask? && born !in s.cos
  }

  ghost function FuncCo(s: Sys, w: nat, born: CoId): CoId
    requires w < |s.ws|
  {
    if s.ws[w].coFunc.Some? then s.ws[w].coFunc.value else born
  }

  ghost function DoPopFunc(s: Sys, w: nat, born: CoId): Sys
    requires CanPopFunc(s, w, born)
  {
    var c := FuncCo(s, w, born);
    SetW(s.(cos := s.cos[c := Coro(RUNNING, w, s.ws[w].queue[0].func, Free)]), w,
         s.ws[w].(queue := s.ws[w].queue[1..], mode := Busy(c), coFunc := Some(c)))
  }

  // reyao/worker.cc:104-110: only an empty queue leads to a poll pass.
  ghost predicate CanPollStart(s: Sys, w: nat) {
    w < |s.ws| && s.ws[w].mode.Looping? && s.ws[w].queue == []
  }

  ghost function DoPollStart(s: Sys, w: nat): Sys
    requires CanPollStart(s, w)
  {
    SetW(s, w, s.ws[w].(mode := Polling))
  }

  // reyao/epoller.cc:216-273, as proved for Epoller.AfterPoll. Tasks may have come in since.
  ghost predicate CanPollEnd(s: Sys, w: nat, due: seq<TimerId>, events: seq<Report>) {
    && w < |s.ws| && s.ws[w].mode.Polling?
    && DueOrder(s.timers, s.now, due) && Reportable(s.ws[w].poller, events)
  }

  ghost function DoPollEnd(s: Sys, w: nat, due: seq<TimerId>, events: seq<Report>): Sys
    requires CanPollEnd(s, w, due, events)
  {
    var e := Wait(s.ws[w].poller, events);
    SetW(s.(timers := AfterExpiry(s.timers, s.now)), w,
         s.ws[w].(queue := s.ws[w].queue + Fired(s.timers, due) + TasksOf(e.out),
                  poller := e.poller, mode := Looping))
  }

  // The function of a sleep timer: addTask of the sleeper at its own worker.
  ghost predicate CanRunWake(s: Sys, w: nat) {
    Runs(s, w) && CurCo(s, w).func.Wake? && CurCo(s, w).func.home < |s.ws|
  }

  ghost function DoRunWake(s: Sys, w: nat): Sys
    requires CanRunWake(s, w)
  {
    var f := CurCo(s, w).func;
    Push(Over(s, w, DONE), f.home, [CoTask(f.co)])
  }

  // reyao/hook.cc:119-129 and 256-263. The handling goes to the poller of whichever worker runs it.
  ghost predicate CanRunTimeout(s: Sys, w: nat) {
    Runs(s, w) && CurCo(s, w).func.IoTimeout?
  }

  ghost function DoRunTimeout(s: Sys, w: nat): Sys
    requires CanRunTimeout(s, w)
  {
    var f := CurCo(s, w).func;
    if f.tinfo !in s.infos || s.infos[f.tinfo].cancelled then Over(s, w, DONE)
    else
      Effected(Over(s.(infos := s.infos[f.tinfo := s.infos[f.tinfo].(cancelled := true)]), w, DONE),
               w, Take(s.ws[w].poller, f.fd, f.dir))
  }

  // reyao/hook.cc:174-179, 188-193, 203-209
  ghost function DoSleep(s: Sys, w: nat, ms: int): Sys
    requires InCode(s, w)
  {
    SetPhase(WithTimer(s, ms, false, Wake(w, Cur(s, w))), w, Sleeping(s.now + ms))
  }

  // reyao/hook.cc:114-130: set the timer, if a timeout is given, and go on to register.
  ghost function SetIoTimer(s: Sys, w: nat, tinfo: TInfo, io: Io): Sys
    requires Runs(s, w)
  {
    if io.timeout.None? then SetPhase(s, w, IoSet(tinfo, None, io))
    else SetPhase(WithTimer(s, io.timeout.value, false, IoTimeout(tinfo, io.fd, io.dir)), w,
                  IoSet(tinfo, Some(s.nextTimer), io))
  }

  // reyao/hook.cc:103-113, when the first attempt finds nothing ready.
  ghost function DoIoStart(s: Sys, w: nat, io: Io): Sys
    requires InCode(s, w)
  {
    SetIoTimer(s.(infos := s.infos[s.nextInfo := Info(false, Cur(s, w))], nextInfo := s.nextInfo + 1),
               w, s.nextInfo, io)
  }

  // reyao/hook.cc:135-141
  ghost predicate CanIoRegister(s: Sys, w: nat) {
    Runs(s, w) && CurCo(s, w).phase.IoSet?
  }

  ghost function Registration(s: Sys, w: nat, accepted: bool): Effect
    requires CanIoRegister(s, w)
  {
    var io := CurCo(s, w).phase.io;
    Add(s.ws[w].poller, io.fd, io.dir, CoTask(Cur(s, w)), accepted)
  }

  ghost function DoIoRegister(s: Sys, w: nat, accepted: bool): Sys
    requires CanIoRegister(s, w)
  {
    var p := CurCo(s, w).phase;
    var e := Registration(s, w, accepted);
    if e.ok then SetPhase(SetW(s, w, s.ws[w].(poller := e.poller)), w, IoWait(p.tinfo, p.timer, p.io))
    else SetPhase(WithoutTimer(s.(infos := s.infos - {p.tinfo}), p.timer), w, Free)
  }

  // reyao/hook.cc:143 and 180; reyao/worker.cc:98-102 lets go of a suspended function coroutine.
  ghost predicate CanYield(s: Sys, w: nat) {
    Runs(s, w) && (CurCo(s, w).phase.Sleeping? || CurCo(s, w).phase.IoWait?)
  }

  ghost function DoYield(s: Sys, w: nat): Sys
    requires CanYield(s, w)
  {
    var c := Cur(s, w);
    SetW(s.(cos := s.cos[c := CurCo(s, w).(state := SUSPEND)]), w,
         s.ws[w].(mode := Looping, coFunc := if s.ws[w].coFunc == Some(c) then None else s.ws[w].coFunc))
  }

  // reyao/hook.cc:145-154: cancel the timer, then give up, retry (`again`), or return.
  ghost predicate CanIoReturn(s: Sys, w: nat) {
    Runs(s, w) && CurCo(s, w).phase.IoBack?
  }

  ghost function DoIoReturn(s: Sys, w: nat, again: bool): Sys
    requires CanIoReturn(s, w)
  {
    var p := CurCo(s, w).phase;
    var s1 := WithoutTimer(s, p.timer);
    if again && p.tinfo in s.infos && !s.infos[p.tinfo].cancelled then SetIoTimer(s1, w, p.tinfo, p.io)
    else SetPhase(s1.(infos := s1.infos - {p.tinfo}), w, Free)
  }

  // reyao/hook.cc:311-322: the own poller gives up all of the fd, every kernel table forgets it.
  ghost function AllClosed(ws: seq<Worker>, fd: nat): seq<Worker> {
    seq(|ws|, i requires 0 <= i < |ws| => ws[i].(poller := Closed(ws[i].poller, fd)))
  }

  ghost function DoCloseFd(s: Sys, w: nat, fd: nat): Sys
    requires InCode(s, w)
  {
    var s1 := Effected(s, w, TakeAll(s.ws[w].poller, fd));
    s1.(ws := AllClosed(s1.ws, fd))
  }

  // addEvent with a function
  ghost function DoWatchFd(s: Sys, w: nat, fd: nat, dir: Dir, id: nat, accepted: bool): Sys
    requires InCode(s, w)
  {
    SetW(s, w, s.ws[w].(poller := Add(s.ws[w].poller, fd, dir, FuncTask(User(id)), accepted).poller))
  }

  // addTask of a coroutine that never ran
  ghost function DoEnqueueCo(s: Sys, w: nat, born: CoId): Sys
    requires w < |s.ws|
  {
    Push(s.(cos := s.cos[born := Coro(INIT, w, User(born), Free)]), w, [CoTask(born)])
  }

  // cancel, refresh and reset on a timer of the program's own
  ghost predicate UserTimer(s: Sys, t: TimerId) { t in s.timers && s.timers[t].func.User? }

  ghost function DoMoveTimer(s: Sys, t: TimerId, interval: int, expire: int): Sys
    requires UserTimer(s, t)
  {
    s.(timers := s.timers[t := s.timers[t].(interval := interval, expire := expire)])
  }

  ghost predicate Can(s: Sys, a: Action) {
    match a
    case PopCo(w) => CanPopCo(s, w)
    case PopDead(w) => CanPopDead(s, w)
    case PopFunc(w, born) => CanPopFunc(s, w, born)
    case PollStart(w) => CanPollStart(s, w)
    case PollEnd(w, due, events) => CanPollEnd(s, w, due, events)
    case RunWake(w) => CanRunWake(s, w)
    case RunTimeout(w) => CanRunTimeout(s, w)
    case Sleep(w, ms) => InCode(s, w)
    case IoStart(w, io) => InCode(s, w)
    case IoRegister(w, accepted) => CanIoRegister(s, w)
    case Yield(w) => CanYield(s, w)
    case IoReturn(w, again) => CanIoReturn(s, w)
    case CloseFd(w, fd) => InCode(s, w)
    case WatchFd(w, fd, dir, id, accepted) => InCode(s, w)
    case Finish(w, threw) => InCode(s, w)
    case Enqueue(w, id) => w < |s.ws|
    case EnqueueCo(w, born) => w < |s.ws| && born !in s.cos
    case StartTimer(interval, id, recursive) => true
    case StopTimer(t) => UserTimer(s, t)
    case MoveTimer(t, interval, expire) => UserTimer(s, t)
    case Tick(elapsed) => true
  }

  ghost function Do(s: Sys, a: Action): Sys
    requires Can(s, a)
  {
    match a
    case PopCo(w) => DoPopCo(s, w)
    case PopDead(w) => DoPopDead(s, w)
    case PopFunc(w, born) => DoPopFunc(s, w, born)
    case PollStart(w) => DoPollStart(s, w)
    case PollEnd(w, due, events) => DoPollEnd(s, w, due, events)
    case RunWake(w) => DoRunWake(s, w)
    case RunTimeout(w) => DoRunTimeout(s, w)
    case Sleep(w, ms) => DoSleep(s, w, ms)
    case IoStart(w, io) => DoIoStart(s, w, io)
    case IoRegister(w, accepted) => DoIoRegister(s, w, accepted)
    case Yield(w) => DoYield(s, w)
    case IoReturn(w, again) => DoIoReturn(s, w, again)
    case CloseFd(w, fd) => DoCloseFd(s, w, fd)
    case WatchFd(w, fd, dir, id, accepted) => DoWatchFd(s, w, fd, dir, id, accepted)
    case Finish(w, threw) => Over(s, w, if threw then EXCEPT else DONE)
    case Enqueue(w, id) => Push(s, w, [FuncTask(User(id))])
    case EnqueueCo(w, born) => DoEnqueueCo(s, w, born)
    case StartTimer(interval, id, recursive) => WithTimer(s, interval, recursive, User(id))
    case StopTimer(t) => WithoutTimer(s, Some(t))
    case MoveTimer(t, interval, expire) => DoMoveTimer(s, t, interval, expire)
    case Tick(elapsed) => s.(now := s.now + elapsed)
  }

  ghost function Init(n: nat): Sys {
    Sys(0, seq(n, i => Worker([], Poller(map[], map[]), Looping, None)), map[], map[], map[], 0, 0)
  }

  // The state after a run from the start; an action that is not possible changes nothing.
  ghost function Exec(n: nat, acts: seq<Action>): Sys {
    if acts == [] then Init(n)
    else
      var s := Exec(n, acts[..|acts| - 1]);
      if Can(s, acts[|acts| - 1]) then Do(s, acts[|acts| - 1]) else s
  }
}
