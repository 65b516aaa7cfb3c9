// Every step of the event loop keeps the stages of timed waits, provided a poll pass collects the
// timeouts of its own worker's coroutines only.
module TimeoutSteps {
  import opened Prelude
  import opened Tasks
  import opened Timers
  import opened Polling
  import opened PollingRuns
  import opened Epollers
  import opened Runtime
  import opened Ownership
  import opened Timeouts

  // ---- what ownership contributes ----

  lemma Running(s: Sys, wh: Where, w: nat)
    requires Good(s, wh) && Runs(s, w)
    ensures CurCo(s, w).state == RUNNING && CurCo(s, w).home == w
    ensures !CurCo(s, w).func.User? ==> CurCo(s, w).phase.Free?
    ensures s.nextTimer !in s.timers
  {
    assert WorkerOk(s, w) && CoroOk(s, Cur(s, w));
  }

  // The coroutine a worker runs is not suspended: if it is in a call, no timeout function of it is out.
  lemma RunningStage(s: Sys, w: nat) returns (g: Stage)
    requires Waits(s) && Runs(s, w) && Calling(s, Cur(s, w)) && CurCo(s, w).state == RUNNING && CurCo(s, w).home == w
    ensures AtStage(CurCo(s, w), Cur(s, w), ViewAt(s, w), g)
    ensures g == Pending || g == NoTimer || (g == Ran && CurCo(s, w).phase.IoBack?)
  {
    var c := Cur(s, w);
    assert WaitOk(s, c);
    g :| AtStage(s.cos[c], c, ViewAt(s, w), g) && Allowed(s.cos[c], g);
  }

  lemma NoneOutHere(s: Sys, wh: Where, w: nat)
    requires Good(s, wh) && Timely(s) && Runs(s, w)
    ensures NoneOut(s, Cur(s, w))
  {
    Running(s, wh, w);
    if Calling(s, Cur(s, w)) {
      var g := RunningStage(s, w);
      NoneOutAt(s, Cur(s, w), g);
    } else {
      NoneOutOutside(s, Cur(s, w));
    }
  }

  // ---- inside a call ----

  // Setting the timer of a new or retried call.
  lemma SetTimerStage(s: Sys, w: nat, tinfo: TInfo, io: Io)
    requires Runs(s, w) && CurCo(s, w).func.User?
    requires tinfo in s.infos && s.infos[tinfo] == Info(false, Cur(s, w))
    requires FuncTask(IoTimeout(tinfo, io.fd, io.dir)) !in s.ws[w].queue
    ensures var s' := SetIoTimer(s, w, tinfo, io);
         InCall(CurCo(s', w).phase) && Status(CurCo(s', w), Cur(s, w), ViewAt(s', w))
  {
    var s' := SetIoTimer(s, w, tinfo, io);
    assert AtStage(CurCo(s', w), Cur(s, w), ViewAt(s', w), if io.timeout.None? then NoTimer else Pending);
  }

  lemma IoStartOwn(s: Sys, w: nat, io: Io)
    requires InCode(s, w) && CurCo(s, w).home == w && s.nextTimer !in s.timers
    requires forall t | t in s.infos :: t < s.nextInfo
    ensures OwnCall(s, DoIoStart(s, w, io), w, Cur(s, w))
  {
  }

  lemma TimelyIoStart(s: Sys, wh: Where, w: nat, io: Io)
    requires Good(s, wh) && Timely(s) && InCode(s, w)
    ensures Timely(DoIoStart(s, w, io))
  {
    var c, s' := Cur(s, w), DoIoStart(s, w, io);
    Running(s, wh, w);
    NoneOutHere(s, wh, w);
    var s1 := s.(infos := s.infos[s.nextInfo := Info(false, c)], nextInfo := s.nextInfo + 1);
    var f := IoTimeout(s.nextInfo, io.fd, io.dir);
    assert FuncTask(f) in s.ws[w].queue ==> OwnedAt(s, w, f);
    SetTimerStage(s1, w, s.nextInfo, io);
    IoStartOwn(s, w, io);
    OwnCallStep(s, s', w, c);
  }

  lemma RegisteredOwn(s: Sys, w: nat, accepted: bool)
    requires CanIoRegister(s, w) && CurCo(s, w).home == w && CurCo(s, w).func.User? && Ids(s)
    requires Registration(s, w, accepted).ok
    ensures OwnCall(s, DoIoRegister(s, w, accepted), w, Cur(s, w))
  {
  }

  lemma RefusedOwn(s: Sys, w: nat, accepted: bool)
    requires CanIoRegister(s, w) && CurCo(s, w).home == w && CurCo(s, w).func.User? && Ids(s)
    requires !Registration(s, w, accepted).ok
    requires CurCo(s, w).phase.tinfo in s.infos && s.infos[CurCo(s, w).phase.tinfo].owner == Cur(s, w)
    ensures OwnCall(s, DoIoRegister(s, w, accepted), w, Cur(s, w))
  {
  }

  lemma RegisteredStage(s: Sys, w: nat, accepted: bool, g: Stage)
    requires CanIoRegister(s, w) && Registration(s, w, accepted).ok && CurCo(s, w).home == w && (g == Pending || g == NoTimer)
    requires AtStage(CurCo(s, w), Cur(s, w), ViewAt(s, w), g)
    ensures WaitOk(DoIoRegister(s, w, accepted), Cur(s, w))
  {
    var s' := DoIoRegister(s, w, accepted);
    assert AtStage(CurCo(s', w), Cur(s, w), ViewAt(s', w), g);
  }

  lemma TimelyIoRegister(s: Sys, wh: Where, w: nat, accepted: bool)
    requires Good(s, wh) && Timely(s) && CanIoRegister(s, w)
    ensures Timely(DoIoRegister(s, w, accepted))
  {
    var c, s' := Cur(s, w), DoIoRegister(s, w, accepted);
    Running(s, wh, w);
    NoneOutHere(s, wh, w);
    var g := RunningStage(s, w);
    if Registration(s, w, accepted).ok {
      RegisteredStage(s, w, accepted, g);
      RegisteredOwn(s, w, accepted);
    } else {
      RefusedOwn(s, w, accepted);
    }
    OwnCallStep(s, s', w, c);
  }

  lemma YieldOwn(s: Sys, w: nat)
    requires CanYield(s, w) && CurCo(s, w).home == w && CurCo(s, w).func.User? && Ids(s)
    ensures OwnCall(s, DoYield(s, w), w, Cur(s, w))
  {
  }

  lemma YieldStage(s: Sys, w: nat, g: Stage)
    requires CanYield(s, w) && InCall(CurCo(s, w).phase) && CurCo(s, w).home == w && CurCo(s, w).func.User?
    requires AtStage(CurCo(s, w), Cur(s, w), ViewAt(s, w), g) && (g == Pending || g == NoTimer)
    ensures WaitOk(DoYield(s, w), Cur(s, w))
  {
    var s' := DoYield(s, w);
    assert AtStage(s'.cos[Cur(s, w)], Cur(s, w), ViewAt(s', w), g);
  }

  lemma TimelyYield(s: Sys, wh: Where, w: nat)
    requires Good(s, wh) && Timely(s) && CanYield(s, w)
    ensures Timely(DoYield(s, w))
  {
    Running(s, wh, w);
    NoneOutHere(s, wh, w);
    if InCall(CurCo(s, w).phase) {
      var g := RunningStage(s, w);
      YieldStage(s, w, g);
    }
    YieldOwn(s, w);
    OwnCallStep(s, DoYield(s, w), w, Cur(s, w));
  }

  lemma ReturnOwn(s: Sys, w: nat)
    requires CanIoReturn(s, w) && CurCo(s, w).home == w && CurCo(s, w).func.User? && Ids(s)
    requires CurCo(s, w).phase.tinfo in s.infos && s.infos[CurCo(s, w).phase.tinfo].owner == Cur(s, w)
    ensures OwnCall(s, DoIoReturn(s, w, false), w, Cur(s, w))
  {
  }

  lemma RetryOwn(s: Sys, w: nat)
    requires CanIoReturn(s, w) && CurCo(s, w).home == w && CurCo(s, w).func.User? && Ids(s)
    requires s.nextTimer !in s.timers
    requires var t := CurCo(s, w).phase.tinfo; t in s.infos && !s.infos[t].cancelled
    ensures OwnCall(s, DoIoReturn(s, w, true), w, Cur(s, w))
  {
    assert DoIoReturn(s, w, true).infos == s.infos;
  }

  lemma TimelyRetry(s: Sys, wh: Where, w: nat)
    requires Good(s, wh) && Timely(s) && CanIoReturn(s, w)
    requires var t := CurCo(s, w).phase.tinfo; t in s.infos && !s.infos[t].cancelled
    ensures Timely(DoIoReturn(s, w, true))
  {
    var c, p, s' := Cur(s, w), CurCo(s, w).phase, DoIoReturn(s, w, true);
    Running(s, wh, w);
    NoneOutHere(s, wh, w);
    var g := RunningStage(s, w);
    SetTimerStage(WithoutTimer(s, p.timer), w, p.tinfo, p.io);
    RetryOwn(s, w);
    OwnCallStep(s, s', w, c);
  }

  lemma TimelyReturn(s: Sys, wh: Where, w: nat)
    requires Good(s, wh) && Timely(s) && CanIoReturn(s, w)
    ensures Timely(DoIoReturn(s, w, false))
  {
    Running(s, wh, w);
    NoneOutHere(s, wh, w);
    var g := RunningStage(s, w);
    ReturnOwn(s, w);
    OwnCallStep(s, DoIoReturn(s, w, false), w, Cur(s, w));
  }

  lemma TimelyIoReturn(s: Sys, wh: Where, w: nat, again: bool)
    requires Good(s, wh) && Timely(s) && CanIoReturn(s, w)
    ensures Timely(DoIoReturn(s, w, again))
  {
    var t := CurCo(s, w).phase.tinfo;
    if again && t in s.infos && !s.infos[t].cancelled {
      TimelyRetry(s, wh, w);
    } else {
      TimelyReturn(s, wh, w);
    }
  }

  // ---- outside calls ----

  lemma OutTasks(p: Poller, e: Effect, t: Task)
    requires Conserves(p, e) && t in TasksOf(e.out)
    ensures exists k :: k in p.armed && p.armed[k] == t
  {
    var i := OutIndex(e.out, t);
    OnHas(e.out, i);
    OutOn(p, e, e.out[i].key);
    assert e.out[i].key in p.armed && p.armed[e.out[i].key] == t;
  }

  lemma {:induction false} OutIndex(out: seq<Delivery>, t: Task) returns (i: nat)
    requires t in TasksOf(out)
    ensures i < |out| && out[i].task == t
  {
    if out[0].task == t {
      i := 0;
    } else {
      i := OutIndex(out[1..], t);
      i := i + 1;
    }
  }

  // Pollers hold no timeout functions.
  lemma NoTimeoutOut(s: Sys, wh: Where, w: nat, e: Effect)
    requires Good(s, wh) && w < |s.ws| && Conserves(s.ws[w].poller, e)
    ensures forall t | t in TasksOf(e.out) :: !IsTimeout(t)
  {
    assert WorkerOk(s, w);
    forall t | t in TasksOf(e.out) ensures !IsTimeout(t) {
      OutTasks(s.ws[w].poller, e, t);
    }
  }

  lemma TimelyCloseFd(s: Sys, wh: Where, w: nat, fd: nat)
    requires Good(s, wh) && Timely(s) && InCode(s, w)
    ensures Timely(DoCloseFd(s, w, fd))
  {
    var e := TakeAll(s.ws[w].poller, fd);
    TakeAllConservesAll(s.ws[w].poller, fd);
    NoTimeoutOut(s, wh, w, e);
    CloseQuiet(s, w, fd);
    QuietStep(s, DoCloseFd(s, w, fd), w, TasksOf(e.out));
  }

  // A sleeper whose wakeup runs is at home where the wakeup says, and not in a call.
  lemma WakesSleeper(s: Sys, wh: Where, w: nat)
    requires Good(s, wh) && CanRunWake(s, w)
    ensures var f := CurCo(s, w).func; NewWork(s, f.home, CoTask(f.co))
  {
    var f := CurCo(s, w).func;
    assert Held(s, InHand(w, f.home), f.co) == 1;
    assert Fits(s, f.co, wh[f.co]);
  }

  // The function ends, and the sleeper is back at its own worker.
  lemma TimelyRunWake(s: Sys, wh: Where, w: nat)
    requires Good(s, wh) && Timely(s) && CanRunWake(s, w)
    ensures Timely(DoRunWake(s, w))
  {
    var f, s1 := CurCo(s, w).func, Over(s, w, DONE);
    Running(s, wh, w);
    WakesSleeper(s, wh, w);
    DoneQuiet(s, w);
    QuietStep(s, s1, w, []);
    PushQuiet(s1, f.home, f.co);
    QuietStep(s1, DoRunWake(s, w), f.home, [CoTask(f.co)]);
  }

  lemma TimelyEnqueueCo(s: Sys, wh: Where, w: nat, born: CoId)
    requires Good(s, wh) && Timely(s) && w < |s.ws| && born !in s.cos
    ensures Timely(DoEnqueueCo(s, w, born))
  {
    forall v: nat | v < |s.ws| && s.ws[v].mode.Busy? ensures s.ws[v].mode.co in s.cos {
      assert WorkerOk(s, v);
    }
    EnqueueCoQuiet(s, w, born);
    QuietStep(s, DoEnqueueCo(s, w, born), w, [CoTask(born)]);
  }

  ghost predicate ByOthers(a: Action) {
    a.Enqueue? || a.EnqueueCo? || a.StartTimer? || a.StopTimer? || a.MoveTimer? || a.Tick?
  }

  // Timers of the program itself, and the passing of time.
  ghost predicate OfTimers(a: Action) { a.StartTimer? || a.StopTimer? || a.MoveTimer? || a.Tick? }

  lemma TimersQuiet(s: Sys, a: Action)
    requires Can(s, a) && OfTimers(a) && s.ws != [] && s.nextTimer !in s.timers
    ensures Quiet(s, Do(s, a), 0, [])
  {
    match a
    case StartTimer(interval, id, recursive) => StartTimerQuiet(s, interval, id, recursive);
    case StopTimer(t) => StopTimerQuiet(s, t);
    case MoveTimer(t, interval, expire) => MoveTimerQuiet(s, t, interval, expire);
    case Tick(elapsed) => TickQuiet(s, elapsed);
  }

  lemma TimelyEnqueue(s: Sys, w: nat, id: nat)
    requires Timely(s) && w < |s.ws|
    ensures Timely(Push(s, w, [FuncTask(User(id))]))
  {
    EnqueueQuiet(s, w, id);
    QuietStep(s, Push(s, w, [FuncTask(User(id))]), w, [FuncTask(User(id))]);
  }

  lemma FreshTimer(s: Sys, wh: Where)
    requires Good(s, wh)
    ensures s.nextTimer !in s.timers
  {
  }

  // Steps of other threads.
  lemma TimelyOther(s: Sys, wh: Where, a: Action)
    requires Good(s, wh) && Timely(s) && Can(s, a) && ByOthers(a) && s.ws != []
    ensures Timely(Do(s, a))
  {
    if OfTimers(a) {
      FreshTimer(s, wh);
      TimersQuiet(s, a);
      QuietStep(s, Do(s, a), 0, []);
    } else {
      match a
      case Enqueue(w, id) => TimelyEnqueue(s, w, id);
      case EnqueueCo(w, born) => TimelyEnqueueCo(s, wh, w, born);
    }
  }
}
