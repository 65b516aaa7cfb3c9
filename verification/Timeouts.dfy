// Timed IO waits (reyao/hook.cc:106-155): the stages a timeout goes through, and why every step keeps
// them, for any number of workers. The timers are shared; the poll passes considered here collect the
// timeouts of their own worker's coroutines only. TimeoutRuns.dfy draws the conclusions.
module Timeouts {
  import opened Prelude
  import opened Tasks
  import opened Timers
  import opened Polling
  import opened PollingRuns
  import opened Epollers
  import opened Runtime
  import opened Ownership

  ghost predicate InCall(p: Phase) { p.IoSet? || p.IoWait? || p.IoBack? }

  // The function the call gives to its timer.
  ghost function Fn(p: Phase): Func
    requires InCall(p)
  {
    IoTimeout(p.tinfo, p.io.fd, p.io.dir)
  }

  // What a timed wait depends on, at one worker.
  datatype View = View(infos: map<TInfo, Info>, timers: map<TimerId, Entry>, q: seq<Task>, hand: Option<Func>)

  // The function worker w is running.
  ghost function Hand(s: Sys, w: nat): Option<Func> {
    if w < |s.ws| && s.ws[w].mode.Busy? && s.ws[w].mode.co in s.cos then Some(s.cos[s.ws[w].mode.co].func) else None
  }

  ghost function ViewAt(s: Sys, w: nat): View
    requires w < |s.ws|
  {
    View(s.infos, s.timers, s.ws[w].queue, Hand(s, w))
  }

  // f is queued once, and before the coroutine it may wake.
  ghost predicate FirstBefore(q: seq<Task>, f: Func, c: CoId) {
    exists i :: FirstAt(q, f, c, i)
  }

  ghost predicate FirstAt(q: seq<Task>, f: Func, c: CoId, i: int) {
    && 0 <= i < |q| && q[i] == FuncTask(f) && CoTask(c) !in q[..i]
    && FuncTask(f) !in q[..i] && FuncTask(f) !in q[i + 1..]
  }

  // The four stages of a timeout: its timer is pending, its function is queued, running, or has run.
  datatype Stage = Pending | Queued | Handed | Ran | NoTimer

  ghost predicate AtStage(x: Coro, c: CoId, v: View, g: Stage)
    requires InCall(x.phase)
  {
    var p, f := x.phase, Fn(x.phase);
    && p.tinfo in v.infos && v.infos[p.tinfo].owner == c
    && (v.infos[p.tinfo].cancelled <==> g == Ran)
    && (p.timer.None? <==> g == NoTimer)
    && (g == Pending <==> p.timer.Some? && p.timer.value in v.timers)
    && (g == Pending ==> v.timers[p.timer.value].func == f && !v.timers[p.timer.value].recursive)
    && (if g == Queued then FirstBefore(v.q, f, c) else FuncTask(f) !in v.q)
    && (g == Handed <==> v.hand == Some(f))
  }

  // The function runs only while its coroutine is suspended in the wait.
  ghost predicate Allowed(x: Coro, g: Stage) {
    && (x.phase.IoSet? || (x.state == RUNNING && x.phase.IoWait?) ==> g == Pending || g == NoTimer)
    && (x.phase.IoBack? ==> g == Pending || g == NoTimer || g == Ran)
  }

  ghost predicate Status(x: Coro, c: CoId, v: View)
    requires InCall(x.phase)
  {
    exists g :: AtStage(x, c, v, g) && Allowed(x, g)
  }

  // ---- the invariant, one conjunct at a time ----

  ghost predicate Calling(s: Sys, c: CoId) { c in s.cos && InCall(s.cos[c].phase) }

  ghost predicate WaitOk(s: Sys, c: CoId)
    requires Calling(s, c)
  {
    s.cos[c].home < |s.ws| && Status(s.cos[c], c, ViewAt(s, s.cos[c].home))
  }

  // Every coroutine inside a call is at one of the stages.
  ghost predicate Waits(s: Sys) { forall c | Calling(s, c) :: WaitOk(s, c) }

  // The coroutine a timeout function belongs to, inside the call that made it.
  ghost predicate Owned(s: Sys, f: Func) {
    f.IoTimeout? ==>
      && f.tinfo in s.infos && Calling(s, s.infos[f.tinfo].owner)
      && Fn(s.cos[s.infos[f.tinfo].owner].phase) == f
  }

  // ... and is at home at worker w.
  ghost predicate OwnedAt(s: Sys, w: nat, f: Func) {
    Owned(s, f) && (f.IoTimeout? ==> s.cos[s.infos[f.tinfo].owner].home == w)
  }

  ghost predicate Queues(s: Sys) {
    forall w: nat, f | w < |s.ws| && FuncTask(f) in s.ws[w].queue :: OwnedAt(s, w, f)
  }

  ghost predicate Hands(s: Sys) {
    forall w: nat | w < |s.ws| && Hand(s, w).Some? :: OwnedAt(s, w, Hand(s, w).value)
  }

  ghost predicate TimerOwned(s: Sys, t: TimerId)
    requires t in s.timers
  {
    var f := s.timers[t].func;
    Owned(s, f) && (f.IoTimeout? ==> s.cos[s.infos[f.tinfo].owner].phase.timer == Some(t))
  }

  ghost predicate Alarms(s: Sys) { forall t | t in s.timers :: TimerOwned(s, t) }

  // New timers and new calls have new names.
  ghost predicate Ids(s: Sys) {
    && (forall t | t in s.infos :: t < s.nextInfo)
    && (forall c | Calling(s, c) && s.cos[c].phase.timer.Some? :: s.cos[c].phase.timer.value < s.nextTimer)
  }

  // Between the decision to poll and its end only new work, or a sleeper, can have come in.
  ghost predicate NewWork(s: Sys, w: nat, t: Task) {
    match t
    case CoTask(c) => c in s.cos && s.cos[c].home == w && !InCall(s.cos[c].phase)
    case FuncTask(f) => !f.IoTimeout?
  }

  ghost predicate Pollers(s: Sys) {
    forall w: nat, t | w < |s.ws| && s.ws[w].mode.Polling? && t in s.ws[w].queue :: NewWork(s, w, t)
  }

  ghost predicate Timely(s: Sys) {
    Waits(s) && Queues(s) && Hands(s) && Alarms(s) && Ids(s) && Pollers(s)
  }

  // ---- one coroutine of which nothing relevant changes but its queue ----

  lemma StageAppend(x: Coro, c: CoId, v: View, ts: seq<Task>, g: Stage)
    requires InCall(x.phase) && AtStage(x, c, v, g) && FuncTask(Fn(x.phase)) !in ts
    ensures AtStage(x, c, v.(q := v.q + ts), g)
  {
    var f := Fn(x.phase);
    if g == Queued {
      var i :| FirstAt(v.q, f, c, i);
      assert (v.q + ts)[..i] == v.q[..i] && (v.q + ts)[i + 1..] == v.q[i + 1..] + ts;
      assert FirstAt(v.q + ts, f, c, i);
    }
  }

  lemma StagePop(x: Coro, c: CoId, v: View, g: Stage)
    requires InCall(x.phase) && AtStage(x, c, v, g) && v.q != [] && v.q[0] != FuncTask(Fn(x.phase))
    ensures AtStage(x, c, v.(q := v.q[1..]), g)
  {
    var f := Fn(x.phase);
    if g == Queued {
      var i :| FirstAt(v.q, f, c, i);
      var r := v.q[1..];
      assert r[..i - 1] == v.q[1..i] && v.q[1..i] <= v.q[1..] && r[i..] == v.q[i + 1..];
      assert forall t | t in r[..i - 1] :: t in v.q[..i];
      assert FirstAt(r, f, c, i - 1);
    }
  }

  ghost predicate SameTimer(p: Phase, a: map<TimerId, Entry>, b: map<TimerId, Entry>)
    requires InCall(p)
  {
    p.timer.Some? ==>
      (p.timer.value in a <==> p.timer.value in b) && (p.timer.value in a ==> a[p.timer.value] == b[p.timer.value])
  }

  lemma StageSame(x: Coro, c: CoId, v: View, v': View, g: Stage)
    requires InCall(x.phase) && AtStage(x, c, v, g) && v'.q == v.q
    requires x.phase.tinfo in v'.infos && v'.infos[x.phase.tinfo] == v.infos[x.phase.tinfo]
    requires SameTimer(x.phase, v.timers, v'.timers)
    requires v'.hand == Some(Fn(x.phase)) <==> v.hand == Some(Fn(x.phase))
    ensures AtStage(x, c, v', g)
  {
  }

  // Everything about c's call but the queue of its worker is as it was.
  ghost predicate Untouched(s: Sys, s': Sys, c: CoId)
    requires Calling(s, c)
  {
    var x, w := s.cos[c], s.cos[c].home;
    && |s'.ws| == |s.ws| && c in s'.cos && s'.cos[c] == x
    && (x.phase.tinfo in s.infos ==> x.phase.tinfo in s'.infos && s'.infos[x.phase.tinfo] == s.infos[x.phase.tinfo])
    && SameTimer(x.phase, s.timers, s'.timers)
    && (Hand(s', w) == Some(Fn(x.phase)) <==> Hand(s, w) == Some(Fn(x.phase)))
  }

  lemma WaitAppended(s: Sys, s': Sys, c: CoId, ts: seq<Task>)
    requires Calling(s, c) && WaitOk(s, c) && Untouched(s, s', c)
    requires s'.ws[s.cos[c].home].queue == s.ws[s.cos[c].home].queue + ts && FuncTask(Fn(s.cos[c].phase)) !in ts
    ensures WaitOk(s', c)
  {
    var x, v := s.cos[c], ViewAt(s, s.cos[c].home);
    var g :| AtStage(x, c, v, g) && Allowed(x, g);
    StageAppend(x, c, v, ts, g);
    StageSame(x, c, v.(q := v.q + ts), ViewAt(s', x.home), g);
  }

  lemma WaitSame(s: Sys, s': Sys, c: CoId)
    requires Calling(s, c) && WaitOk(s, c) && Untouched(s, s', c)
    requires s'.ws[s.cos[c].home].queue == s.ws[s.cos[c].home].queue
    ensures WaitOk(s', c)
  {
    var q := s.ws[s.cos[c].home].queue;
    assert q + [] == q;
    WaitAppended(s, s', c, []);
  }

  lemma WaitPopped(s: Sys, s': Sys, c: CoId)
    requires Calling(s, c) && WaitOk(s, c) && Untouched(s, s', c)
    requires var q := s.ws[s.cos[c].home].queue;
             q != [] && q[0] != FuncTask(Fn(s.cos[c].phase)) && s'.ws[s.cos[c].home].queue == q[1..]
    ensures WaitOk(s', c)
  {
    var x, v := s.cos[c], ViewAt(s, s.cos[c].home);
    var g :| AtStage(x, c, v, g) && Allowed(x, g);
    StagePop(x, c, v, g);
    StageSame(x, c, v.(q := v.q[1..]), ViewAt(s', x.home), g);
  }

  lemma OwnedKept(s: Sys, s': Sys, w: nat, f: Func)
    requires OwnedAt(s, w, f)
    requires f.IoTimeout? ==> f.tinfo in s'.infos && s'.infos[f.tinfo].owner == s.infos[f.tinfo].owner
    requires f.IoTimeout? ==>
               var c := s.infos[f.tinfo].owner;
               Calling(s', c) && Fn(s'.cos[c].phase) == Fn(s.cos[c].phase) && s'.cos[c].home == s.cos[c].home
    ensures OwnedAt(s', w, f)
  {
  }

  // ---- steps that touch no call and no timeout function ----

  ghost predicate IsTimeout(t: Task) { t.FuncTask? && t.func.IoTimeout? }

  // Worker w gets the tasks ts, other queues stay.
  ghost predicate QueuesGrow(s: Sys, s': Sys, w: nat, ts: seq<Task>) {
    && |s'.ws| == |s.ws| && w < |s.ws|
    && (forall v | 0 <= v < |s.ws| && v != w :: s'.ws[v].queue == s.ws[v].queue)
    && s'.ws[w].queue == s.ws[w].queue + ts && (forall t | t in ts :: !IsTimeout(t))
  }

  ghost predicate CallsStay(s: Sys, s': Sys) {
    && (forall c | c in s.cos :: c in s'.cos && s'.cos[c].home == s.cos[c].home)
    && (forall c | c in s.cos && (InCall(s.cos[c].phase) || InCall(s'.cos[c].phase)) :: s'.cos[c] == s.cos[c])
    && (forall c | Calling(s', c) :: c in s.cos)
    && s'.infos == s.infos && s'.nextInfo == s.nextInfo && s.nextTimer <= s'.nextTimer
  }

  ghost predicate AlarmsStay(s: Sys, s': Sys) {
    && (forall t | t in s.timers && s.timers[t].func.IoTimeout? :: t in s'.timers && s'.timers[t] == s.timers[t])
    && (forall t | t in s'.timers && s'.timers[t].func.IoTimeout? :: t in s.timers && s'.timers[t] == s.timers[t])
    && (forall t | t in s'.timers && t < s.nextTimer :: t in s.timers)
  }

  ghost predicate HandsStay(s: Sys, s': Sys) {
    && (forall v: nat | v < |s.ws| && Hand(s, v).Some? && Hand(s, v).value.IoTimeout? :: Hand(s', v) == Hand(s, v))
    && (forall v: nat | v < |s.ws| && Hand(s', v).Some? && Hand(s', v).value.IoTimeout? :: Hand(s', v) == Hand(s, v))
  }

  ghost predicate PollersStay(s: Sys, s': Sys, w: nat, ts: seq<Task>) {
    && (forall v | 0 <= v < |s.ws| && v < |s'.ws| && s'.ws[v].mode.Polling? :: s.ws[v].mode.Polling? || s'.ws[v].queue == [])
    && (w < |s'.ws| && s'.ws[w].mode.Polling? ==> forall t | t in ts :: NewWork(s', w, t))
  }

  ghost predicate Quiet(s: Sys, s': Sys, w: nat, ts: seq<Task>) {
    QueuesGrow(s, s', w, ts) && CallsStay(s, s') && AlarmsStay(s, s') && HandsStay(s, s') && PollersStay(s, s', w, ts)
  }

  lemma PendingIsTimeout(s: Sys, c: CoId)
    requires Calling(s, c) && WaitOk(s, c) && s.cos[c].phase.timer.Some? && s.cos[c].phase.timer.value in s.timers
    ensures s.timers[s.cos[c].phase.timer.value].func == Fn(s.cos[c].phase)
  {
  }

  lemma QuietUntouched(s: Sys, s': Sys, c: CoId)
    requires |s'.ws| == |s.ws| && CallsStay(s, s') && AlarmsStay(s, s') && HandsStay(s, s')
    requires Calling(s, c) && WaitOk(s, c)
    requires s.cos[c].phase.timer.Some? ==> s.cos[c].phase.timer.value < s.nextTimer
    ensures Untouched(s, s', c)
  {
    var p := s.cos[c].phase;
    if p.timer.Some? && p.timer.value in s.timers {
      PendingIsTimeout(s, c);
    }
  }

  lemma QuietWaits(s: Sys, s': Sys, w: nat, ts: seq<Task>)
    requires Waits(s) && Ids(s) && Quiet(s, s', w, ts)
    ensures Waits(s')
  {
    forall c | Calling(s', c) ensures WaitOk(s', c) {
      QuietUntouched(s, s', c);
      if s.cos[c].home == w {
        WaitAppended(s, s', c, ts);
      } else {
        WaitSame(s, s', c);
      }
    }
  }

  lemma QuietQueues(s: Sys, s': Sys, w: nat, ts: seq<Task>)
    requires Queues(s) && QueuesGrow(s, s', w, ts) && CallsStay(s, s')
    ensures Queues(s')
  {
    forall v: nat, f | v < |s'.ws| && FuncTask(f) in s'.ws[v].queue ensures OwnedAt(s', v, f) {
      if f.IoTimeout? {
        assert IsTimeout(FuncTask(f)) && FuncTask(f) in s.ws[v].queue;
        OwnedKept(s, s', v, f);
      }
    }
  }

  lemma QuietHands(s: Sys, s': Sys)
    requires Hands(s) && |s'.ws| == |s.ws| && CallsStay(s, s') && HandsStay(s, s')
    ensures Hands(s')
  {
    forall v: nat | v < |s'.ws| && Hand(s', v).Some? ensures OwnedAt(s', v, Hand(s', v).value) {
      if Hand(s', v).value.IoTimeout? {
        OwnedKept(s, s', v, Hand(s, v).value);
      }
    }
  }

  lemma QuietAlarms(s: Sys, s': Sys)
    requires Alarms(s) && CallsStay(s, s') && AlarmsStay(s, s')
    ensures Alarms(s')
  {
    forall t | t in s'.timers ensures TimerOwned(s', t) {
      if s'.timers[t].func.IoTimeout? {
        assert TimerOwned(s, t);
      }
    }
  }

  lemma QuietPollers(s: Sys, s': Sys, w: nat, ts: seq<Task>)
    requires Pollers(s) && QueuesGrow(s, s', w, ts) && CallsStay(s, s') && PollersStay(s, s', w, ts)
    ensures Pollers(s')
  {
    forall v: nat, t | v < |s'.ws| && s'.ws[v].mode.Polling? && t in s'.ws[v].queue ensures NewWork(s', v, t) {
      if t in s.ws[v].queue {
        assert NewWork(s, v, t);
      }
    }
  }

  lemma QuietStep(s: Sys, s': Sys, w: nat, ts: seq<Task>)
    requires Timely(s) && Quiet(s, s', w, ts)
    ensures Timely(s')
  {
    QuietWaits(s, s', w, ts);
    QuietQueues(s, s', w, ts);
    QuietHands(s, s');
    QuietAlarms(s, s');
    QuietPollers(s, s', w, ts);
  }

  lemma FinishQuiet(s: Sys, w: nat, st: State)
    requires InCode(s, w)
    ensures Quiet(s, Over(s, w, st), w, [])
  {
  }

  lemma PollStartQuiet(s: Sys, w: nat)
    requires CanPollStart(s, w)
    ensures Quiet(s, DoPollStart(s, w), w, [])
  {
  }

  lemma WatchQuiet(s: Sys, w: nat, fd: nat, dir: Dir, id: nat, accepted: bool)
    requires InCode(s, w)
    ensures Quiet(s, DoWatchFd(s, w, fd, dir, id, accepted), w, [])
  {
  }

  lemma SleepQuiet(s: Sys, w: nat, ms: int)
    requires InCode(s, w) && s.nextTimer !in s.timers
    ensures Quiet(s, DoSleep(s, w, ms), w, [])
  {
  }

  lemma EnqueueQuiet(s: Sys, w: nat, id: nat)
    requires w < |s.ws|
    ensures Quiet(s, Push(s, w, [FuncTask(User(id))]), w, [FuncTask(User(id))])
  {
  }

  lemma EnqueueCoQuiet(s: Sys, w: nat, born: CoId)
    requires w < |s.ws| && born !in s.cos
    requires forall v: nat | v < |s.ws| && s.ws[v].mode.Busy? :: s.ws[v].mode.co in s.cos
    ensures Quiet(s, DoEnqueueCo(s, w, born), w, [CoTask(born)])
  {
  }

  lemma PushQuiet(s: Sys, h: nat, c: CoId)
    requires h < |s.ws| && NewWork(s, h, CoTask(c))
    ensures Quiet(s, Push(s, h, [CoTask(c)]), h, [CoTask(c)])
  {
  }

  lemma DoneQuiet(s: Sys, w: nat)
    requires Runs(s, w) && CurCo(s, w).phase.Free? && CurCo(s, w).func.Wake?
    ensures Quiet(s, Over(s, w, DONE), w, [])
  {
  }

  lemma CloseQuiet(s: Sys, w: nat, fd: nat)
    requires InCode(s, w) && forall t | t in TasksOf(TakeAll(s.ws[w].poller, fd).out) :: !IsTimeout(t)
    ensures Quiet(s, DoCloseFd(s, w, fd), w, TasksOf(TakeAll(s.ws[w].poller, fd).out))
  {
    assert forall v | 0 <= v < |s.ws| :: DoCloseFd(s, w, fd).ws[v].mode == s.ws[v].mode;
  }

  lemma StartTimerQuiet(s: Sys, interval: int, id: nat, recursive: bool)
    requires s.ws != [] && s.nextTimer !in s.timers
    ensures Quiet(s, WithTimer(s, interval, recursive, User(id)), 0, [])
  {
  }

  lemma StopTimerQuiet(s: Sys, t: TimerId)
    requires s.ws != [] && UserTimer(s, t)
    ensures Quiet(s, WithoutTimer(s, Some(t)), 0, [])
  {
  }

  lemma MoveTimerQuiet(s: Sys, t: TimerId, interval: int, expire: int)
    requires s.ws != [] && UserTimer(s, t)
    ensures Quiet(s, DoMoveTimer(s, t, interval, expire), 0, [])
  {
  }

  lemma TickQuiet(s: Sys, elapsed: nat)
    requires s.ws != []
    ensures Quiet(s, s.(now := s.now + elapsed), 0, [])
  {
  }

  // ---- steps of the running coroutine c, at worker w, that concern only its own call ----

  ghost predicate OnlyOne(s: Sys, s': Sys, w: nat, c: CoId) {
    && w < |s.ws| == |s'.ws| && s.ws[w].mode == Busy(c) && (s'.ws[w].mode == Busy(c) || s'.ws[w].mode == Looping)
    && s'.ws[w].queue == s.ws[w].queue
    && (forall v | 0 <= v < |s.ws| && v != w :: s'.ws[v] == s.ws[v])
    && c in s.cos && c in s'.cos && s'.cos == s.cos[c := s'.cos[c]]
    && s.cos[c].home == w == s'.cos[c].home && s.cos[c].func.User? && s'.cos[c].func == s.cos[c].func
  }

  ghost predicate OnlyOwnInfos(s: Sys, s': Sys, c: CoId) {
    && (forall t | t in s.infos && s.infos[t].owner != c :: t in s'.infos && s'.infos[t] == s.infos[t])
    && (forall t | t in s'.infos && s'.infos[t].owner != c :: t in s.infos)
    && (forall t | t in s'.infos :: t < s'.nextInfo)
  }

  ghost predicate OnlyOwnTimers(s: Sys, s': Sys, c: CoId)
    requires c in s.cos && c in s'.cos
  {
    var before, after := TimerOf(s.cos[c].phase), TimerOf(s'.cos[c].phase);
    && s.nextTimer <= s'.nextTimer
    && (forall t | t in s.timers && before != Some(t) :: t in s'.timers && s'.timers[t] == s.timers[t])
    && (forall t | t in s'.timers && after != Some(t) :: t in s.timers && s'.timers[t] == s.timers[t] && before != Some(t))
    && (after.None? || (after == before && s'.timers == s.timers)
        || (after == Some(s.nextTimer) && s.nextTimer < s'.nextTimer))
  }

  ghost predicate OwnCall(s: Sys, s': Sys, w: nat, c: CoId) {
    OnlyOne(s, s', w, c) && OnlyOwnInfos(s, s', c) && OnlyOwnTimers(s, s', c)
  }

  // No timeout function of c's call is queued or running, at any worker.
  ghost predicate NoneOut(s: Sys, c: CoId) {
    && (forall v: nat, f: Func | v < |s.ws| && f.IoTimeout? && FuncTask(f) in s.ws[v].queue && f.tinfo in s.infos ::
          s.infos[f.tinfo].owner != c)
    && (forall v: nat | v < |s.ws| && Hand(s, v).Some? && Hand(s, v).value.IoTimeout? && Hand(s, v).value.tinfo in s.infos ::
          s.infos[Hand(s, v).value.tinfo].owner != c)
  }

  lemma NoneOutAt(s: Sys, c: CoId, g: Stage)
    requires Calling(s, c) && s.cos[c].home < |s.ws| && Queues(s) && Hands(s)
    requires AtStage(s.cos[c], c, ViewAt(s, s.cos[c].home), g) && g != Queued && g != Handed
    ensures NoneOut(s, c)
  {
    forall v: nat, f: Func | v < |s.ws| && f.IoTimeout? && FuncTask(f) in s.ws[v].queue && f.tinfo in s.infos
      ensures s.infos[f.tinfo].owner != c {
      assert OwnedAt(s, v, f);
    }
    forall v: nat | v < |s.ws| && Hand(s, v).Some? && Hand(s, v).value.IoTimeout? && Hand(s, v).value.tinfo in s.infos
      ensures s.infos[Hand(s, v).value.tinfo].owner != c {
      assert OwnedAt(s, v, Hand(s, v).value);
    }
  }

  lemma NoneOutOutside(s: Sys, c: CoId)
    requires !Calling(s, c) && Queues(s) && Hands(s)
    ensures NoneOut(s, c)
  {
    forall v: nat, f: Func | v < |s.ws| && f.IoTimeout? && FuncTask(f) in s.ws[v].queue && f.tinfo in s.infos
      ensures s.infos[f.tinfo].owner != c {
      assert OwnedAt(s, v, f);
    }
    forall v: nat | v < |s.ws| && Hand(s, v).Some? && Hand(s, v).value.IoTimeout? && Hand(s, v).value.tinfo in s.infos
      ensures s.infos[Hand(s, v).value.tinfo].owner != c {
      assert OwnedAt(s, v, Hand(s, v).value);
    }
  }

  // A pending timer is the timer of one call only.
  lemma TimersDiffer(s: Sys, c: CoId, y: CoId)
    requires c != y && Calling(s, y) && WaitOk(s, y) && (Calling(s, c) ==> WaitOk(s, c)) && c in s.cos
    requires s.cos[y].phase.timer.Some? && s.cos[y].phase.timer.value in s.timers
    ensures TimerOf(s.cos[c].phase) != s.cos[y].phase.timer
  {
    PendingIsTimeout(s, y);
    if Calling(s, c) && s.cos[c].phase.timer == s.cos[y].phase.timer {
      PendingIsTimeout(s, c);
    }
  }

  lemma OwnerIs(s: Sys, c: CoId)
    requires Calling(s, c) && WaitOk(s, c)
    ensures s.cos[c].phase.tinfo in s.infos && s.infos[s.cos[c].phase.tinfo].owner == c
  {
  }

  lemma OwnCallUntouched(s: Sys, s': Sys, w: nat, c: CoId, y: CoId)
    requires OwnCall(s, s', w, c) && y != c && Calling(s, y) && WaitOk(s, y) && (Calling(s, c) ==> WaitOk(s, c))
    requires s.cos[y].phase.timer.Some? ==> s.cos[y].phase.timer.value < s.nextTimer
    ensures Untouched(s, s', y)
  {
    OwnerIs(s, y);
    var p := s.cos[y].phase;
    if p.timer.Some? && p.timer.value in s.timers {
      TimersDiffer(s, c, y);
    }
    assert forall v: nat | v < |s.ws| && v != w :: Hand(s', v) == Hand(s, v);
  }

  lemma OwnCallWaits(s: Sys, s': Sys, w: nat, c: CoId)
    requires Waits(s) && Ids(s) && OwnCall(s, s', w, c) && (Calling(s', c) ==> WaitOk(s', c))
    ensures Waits(s')
  {
    forall y | Calling(s', y) ensures WaitOk(s', y) {
      if y != c {
        OwnCallUntouched(s, s', w, c, y);
        WaitSame(s, s', y);
      }
    }
  }

  lemma OwnCallQueues(s: Sys, s': Sys, w: nat, c: CoId)
    requires Queues(s) && OwnCall(s, s', w, c) && NoneOut(s, c)
    ensures Queues(s')
  {
    forall v: nat, f | v < |s'.ws| && FuncTask(f) in s'.ws[v].queue ensures OwnedAt(s', v, f) {
      assert OwnedAt(s, v, f);
      OwnedKept(s, s', v, f);
    }
  }

  lemma OwnCallHands(s: Sys, s': Sys, w: nat, c: CoId)
    requires Hands(s) && OwnCall(s, s', w, c) && NoneOut(s, c)
    ensures Hands(s')
  {
    forall v: nat | v < |s'.ws| && Hand(s', v).Some? ensures OwnedAt(s', v, Hand(s', v).value) {
      if v != w {
        OwnedKept(s, s', v, Hand(s, v).value);
      }
    }
  }

  lemma OwnCallAlarms(s: Sys, s': Sys, w: nat, c: CoId)
    requires Alarms(s) && OwnCall(s, s', w, c)
    requires TimerOf(s'.cos[c].phase).Some? && TimerOf(s'.cos[c].phase).value in s'.timers ==>
               TimerOwned(s', TimerOf(s'.cos[c].phase).value)
    ensures Alarms(s')
  {
    forall t | t in s'.timers ensures TimerOwned(s', t) {
      if TimerOf(s'.cos[c].phase) != Some(t) {
        assert TimerOwned(s, t);
      }
    }
  }

  lemma OwnCallPollers(s: Sys, s': Sys, w: nat, c: CoId)
    requires Pollers(s) && OwnCall(s, s', w, c)
    ensures Pollers(s')
  {
    forall v: nat, t | v < |s'.ws| && s'.ws[v].mode.Polling? && t in s'.ws[v].queue ensures NewWork(s', v, t) {
      assert NewWork(s, v, t);
    }
  }

  lemma OwnCallStep(s: Sys, s': Sys, w: nat, c: CoId)
    requires Timely(s) && OwnCall(s, s', w, c) && NoneOut(s, c)
    requires Calling(s', c) ==> WaitOk(s', c)
    ensures Timely(s')
  {
    OwnCallWaits(s, s', w, c);
    OwnCallQueues(s, s', w, c);
    OwnCallHands(s, s', w, c);
    if TimerOf(s'.cos[c].phase).Some? && TimerOf(s'.cos[c].phase).value in s'.timers {
      OwnTimer(s', c);
    }
    OwnCallAlarms(s, s', w, c);
    OwnCallPollers(s, s', w, c);
    assert Ids(s');
  }

  lemma OwnTimer(s: Sys, c: CoId)
    requires Calling(s, c) && WaitOk(s, c) && s.cos[c].phase.timer.Some? && s.cos[c].phase.timer.value in s.timers
    ensures TimerOwned(s, s.cos[c].phase.timer.value)
  {
    PendingIsTimeout(s, c);
    OwnerIs(s, c);
  }
}
