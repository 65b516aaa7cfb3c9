// Who is woken: a timeout wakes the coroutine it is for and tells it, closing an fd wakes its waiters
// (reyao/hook.cc:119-155, 311-322). Stated over runs and against the actions.
module Wakeups {
  import opened Prelude
  import opened Tasks
  import opened Timers
  import opened Polling
  import opened PollingRuns
  import opened Epollers
  import opened Runtime
  import opened Ownership
  import opened Timeouts
  import opened TimeoutSteps
  import opened TimeoutPops
  import opened TimeoutRuns
  import opened Deadlines
  import opened WorkerQueues

  // ---- a timeout function runs ----

  lemma TakeIs(p: Poller, fd: nat, d: Dir, t: Task)
    ensures var (e, k) := (Take(p, fd, d), (fd, d));
      && (t in TasksOf(e.out) <==> k in p.armed && fd in p.kernel && p.armed[k] == t)
      && (k in e.poller.armed <==> k in p.armed && fd !in p.kernel)
  {
  }

  // What the step does to the worker that runs it: the function's fd and direction lose their waiter, if
  // the kernel knows the fd, and whoever that was is queued.
  lemma TimeoutStep(s: Sys, w: nat)
    requires CanRunTimeout(s, w) && FindsCall(s, w)
    ensures var (f, s', x) := (CurCo(s, w).func, Do(s, RunTimeout(w)), s.ws[w]);
            var k := (f.fd, f.dir);
      && w < |s'.ws| && f.tinfo in s'.infos && s'.infos[f.tinfo].cancelled
      && (forall t :: t in s'.ws[w].queue <==>
            t in x.queue || (k in x.poller.armed && f.fd in x.poller.kernel && x.poller.armed[k] == t))
      && (k in s'.ws[w].poller.armed <==> k in x.poller.armed && f.fd !in x.poller.kernel)
  {
    var f, x := CurCo(s, w).func, s.ws[w];
    forall t ensures t in TasksOf(Take(x.poller, f.fd, f.dir).out) <==>
                     (f.fd, f.dir) in x.poller.armed && f.fd in x.poller.kernel && x.poller.armed[(f.fd, f.dir)] == t {
      TakeIs(x.poller, f.fd, f.dir, t);
    }
    TakeIs(x.poller, f.fd, f.dir, CoTask(0));
  }

  lemma HeldIffQueued(s: Sys, wh: Where, w: nat, c: CoId)
    requires Exclusive(s, wh) && w < |s.ws|
    ensures Held(s, InQueue(w), c) == 1 <==> CoTask(c) in s.ws[w].queue
  {
    if CoTask(c) in s.ws[w].queue {
      QueuedIsHeld(s, wh, w, CoTask(c));
    }
  }

  // A timed-out coroutine is told, and woken: once its function ran it is queued at its worker, once,
  // if and only if it was registered there on an fd the kernel knows, or was queued already. The one case
  // left is an fd closed without this poller: then nothing wakes it.
  lemma TimeoutWakes(n: nat, acts: seq<Action>, w: nat)
    requires n > 0 && HomeRun(n, acts) && CanRunTimeout(Exec(n, acts), w)
    ensures var s := Exec(n, acts);
            var (f, s', x) := (CurCo(s, w).func, Do(s, RunTimeout(w)), s.ws[w]);
            var k := (f.fd, f.dir);
      && f.tinfo in s.infos && f.tinfo in s'.infos && s'.infos[f.tinfo].cancelled
      && var c := s.infos[f.tinfo].owner;
      && (Held(s', InQueue(w), c) == 1 <==>
            (k in x.poller.armed && x.poller.armed[k] == CoTask(c) && f.fd in x.poller.kernel) || Held(s, InQueue(w), c) == 1)
      && ((k in x.poller.armed && x.poller.armed[k] == CoTask(c)) || Held(s, InQueue(w), c) == 1)
      && (w < |s'.ws| && (k in s'.ws[w].poller.armed <==> k in x.poller.armed && f.fd !in x.poller.kernel))
  {
    var s := Exec(n, acts);
    var wh := AlwaysTimely(n, acts);
    TimeoutFindsCall(s, w);
    TimeoutStep(s, w);
    var c := s.infos[CurCo(s, w).func.tinfo].owner;
    var wh' := KeepStep(s, wh, RunTimeout(w));
    HeldIffQueued(s, wh, w, c);
    HeldIffQueued(Do(s, RunTimeout(w)), wh', w, c);
    WaiterIsHeld(s, wh, w, c);
  }

  // A suspended wait is registered where it waits, or queued.
  lemma WaiterIsHeld(s: Sys, wh: Where, w: nat, c: CoId)
    requires Good(s, wh) && Calling(s, c) && s.cos[c].home == w && s.cos[c].phase.IoWait? && w < |s.ws|
    requires s.cos[c].state == SUSPEND
    ensures var k := (s.cos[c].phase.io.fd, s.cos[c].phase.io.dir);
         (k in s.ws[w].poller.armed && s.ws[w].poller.armed[k] == CoTask(c)) || Held(s, InQueue(w), c) == 1
  {
    assert c in wh && Fits(s, c, wh[c]);
    assert Held(s, wh[c], c) == 1;
  }

  // ---- it is told when it is back ----

  // c is suspended in its wait and was told.
  ghost predicate ToldOf(s: Sys, c: CoId, p: Phase) {
    && p.IoWait? && c in s.cos && s.cos[c].state == SUSPEND && s.cos[c].phase == p
    && p.tinfo in s.infos && s.infos[p.tinfo] == Info(true, c)
  }

  // Only the call it belongs to takes a timerInfo away.
  lemma InfoKept(s: Sys, a: Action, tinfo: TInfo)
    requires Can(s, a) && tinfo in s.infos && tinfo < s.nextInfo && s.infos[tinfo].cancelled
    requires a.IoReturn? || a.IoRegister? ==> CurCo(s, a.w).phase.tinfo != tinfo
    ensures tinfo in Do(s, a).infos && Do(s, a).infos[tinfo] == s.infos[tinfo]
  {
    if a.IoReturn? || a.IoRegister? {
      CallsKeepInfo(s, a, tinfo);
    } else {
      OthersKeepInfo(s, a, tinfo);
    }
  }

  lemma CallsKeepInfo(s: Sys, a: Action, tinfo: TInfo)
    requires Can(s, a) && tinfo in s.infos && (a.IoReturn? || a.IoRegister?) && CurCo(s, a.w).phase.tinfo != tinfo
    ensures tinfo in Do(s, a).infos && Do(s, a).infos[tinfo] == s.infos[tinfo]
  {
  }

  lemma OthersKeepInfo(s: Sys, a: Action, tinfo: TInfo)
    requires Can(s, a) && tinfo in s.infos && tinfo < s.nextInfo && s.infos[tinfo].cancelled && !a.IoReturn? && !a.IoRegister?
    ensures tinfo in Do(s, a).infos && Do(s, a).infos[tinfo] == s.infos[tinfo]
  {
  }

  lemma InfoStays(s: Sys, wh: Where, a: Action, c: CoId, p: Phase)
    requires Good(s, wh) && Waits(s) && Ids(s) && Can(s, a) && ToldOf(s, c, p)
    ensures p.tinfo in Do(s, a).infos && Do(s, a).infos[p.tinfo] == Info(true, c)
  {
    NotRunning(s, wh, a, c);
    if a.IoReturn? || a.IoRegister? {
      OwnerIs(s, Cur(s, a.w));
    }
    InfoKept(s, a, p.tinfo);
  }

  lemma SuspendedStays(s: Sys, wh: Where, a: Action, c: CoId)
    requires Good(s, wh) && Can(s, a) && c in s.cos && s.cos[c].state == SUSPEND && !Resumes(s, a, c)
    ensures c in Do(s, a).cos && Do(s, a).cos[c] == s.cos[c]
  {
    assert CoroOk(s, c);
    NotRunning(s, wh, a, c);
    FinishedOnly(s, wh, a);
    OthersLeave(s, a, c);
  }

  lemma NotRunning(s: Sys, wh: Where, a: Action, c: CoId)
    requires Good(s, wh) && Can(s, a) && c in s.cos && s.cos[c].state == SUSPEND
    ensures forall w: nat | w < |s.ws| && s.ws[w].mode.Busy? :: s.ws[w].mode.co != c
  {
    forall w: nat | w < |s.ws| && s.ws[w].mode.Busy? ensures s.ws[w].mode.co != c {
      assert WorkerOk(s, w);
    }
  }

  lemma {:induction false} StaysTold(n: nat, acts: seq<Action>, i: nat, c: CoId, p: Phase)
    requires n > 0 && HomeRun(n, acts) && i <= |acts| && NotResumed(n, acts, i, c) && ToldOf(Exec(n, acts[..i]), c, p)
    ensures ToldOf(Exec(n, acts), c, p)
  {
    if i == |acts| {
      assert acts[..i] == acts;
    } else {
      var init, a := acts[..|acts| - 1], acts[|acts| - 1];
      NotResumedInit(n, acts, i, c);
      HomeRunPrefix(n, acts);
      StaysTold(n, init, i, c, p);
      if Can(Exec(n, init), a) {
        var wh := AlwaysTimely(n, init);
        InfoStays(Exec(n, init), wh, a, c, p);
        SuspendedStays(Exec(n, init), wh, a, c);
      }
    }
  }

  lemma TimeoutTells(n: nat, acts: seq<Action>, w: nat)
    requires n > 0 && HomeRun(n, acts) && CanRunTimeout(Exec(n, acts), w)
    ensures var s := Exec(n, acts);
            var f := CurCo(s, w).func;
         && f.tinfo in s.infos && s.infos[f.tinfo].owner in s.cos
         && var c := s.infos[f.tinfo].owner;
            InCall(s.cos[c].phase) && Fn(s.cos[c].phase) == f && ToldOf(Do(s, RunTimeout(w)), c, s.cos[c].phase)
  {
    var s := Exec(n, acts);
    var wh := AlwaysTimely(n, acts);
    TimeoutRunsOnce(n, acts, w);
    TimeoutFindsCall(s, w);
    var c := s.infos[CurCo(s, w).func.tinfo].owner;
    SuspendedStays(s, wh, RunTimeout(w), c);
  }

  lemma ResumedTold(s: Sys, v: nat, c: CoId, p: Phase)
    requires ToldOf(s, c, p) && Resumes(s, PopCo(v), c)
    ensures var s' := Do(s, PopCo(v));
         && CanIoReturn(s', v) && Cur(s', v) == c && CurCo(s', v).phase.tinfo == p.tinfo
         && p.tinfo in s'.infos && s'.infos[p.tinfo].cancelled
  {
  }

  lemma ToldFrom(n: nat, acts: seq<Action>, i: nat, w: nat)
    requires n > 0 && HomeRun(n, acts) && i < |acts| && acts[i] == RunTimeout(w) && CanRunTimeout(Exec(n, acts[..i]), w)
    ensures var s0 := Exec(n, acts[..i]);
            var f := CurCo(s0, w).func;
         && f.tinfo in s0.infos && s0.infos[f.tinfo].owner in s0.cos
         && var c := s0.infos[f.tinfo].owner;
            InCall(s0.cos[c].phase) && s0.cos[c].phase.tinfo == f.tinfo
            && ToldOf(Exec(n, acts[..i + 1]), c, s0.cos[c].phase)
  {
    HomeRunCut(n, acts, i);
    TimeoutTells(n, acts[..i], w);
    assert acts[..i + 1][..i] == acts[..i] && Exec(n, acts[..i + 1]) == Do(Exec(n, acts[..i]), acts[i]);
  }

  // From the run of the timeout function until the coroutine is resumed, however long that takes, it stays
  // told; and when it is resumed, it is back in its call and reads that it timed out.
  lemma ToldWhenBack(n: nat, acts: seq<Action>, i: nat, w: nat, v: nat)
    requires n > 0 && HomeRun(n, acts) && i < |acts| && acts[i] == RunTimeout(w) && CanRunTimeout(Exec(n, acts[..i]), w)
    requires var s0 := Exec(n, acts[..i]);
         CurCo(s0, w).func.tinfo in s0.infos && NotResumed(n, acts, i + 1, s0.infos[CurCo(s0, w).func.tinfo].owner)
         && Resumes(Exec(n, acts), PopCo(v), s0.infos[CurCo(s0, w).func.tinfo].owner)
    ensures var (s0, s') := (Exec(n, acts[..i]), Do(Exec(n, acts), PopCo(v)));
            var tinfo := CurCo(s0, w).func.tinfo;
            var c := s0.infos[tinfo].owner;
         && CanIoReturn(s', v) && Cur(s', v) == c && CurCo(s', v).phase.tinfo == tinfo
         && tinfo in s'.infos && s'.infos[tinfo].cancelled
  {
    var s0 := Exec(n, acts[..i]);
    ToldFrom(n, acts, i, w);
    var c := s0.infos[CurCo(s0, w).func.tinfo].owner;
    StaysTold(n, acts, i + 1, c, s0.cos[c].phase);
    ResumedTold(Exec(n, acts), v, c, s0.cos[c].phase);
  }

  lemma HomeRunCut(n: nat, acts: seq<Action>, i: nat)
    requires HomeRun(n, acts) && i <= |acts|
    ensures HomeRun(n, acts[..i])
  {
    forall j | 0 <= j < i && acts[..i][j].PollEnd? && Can(Exec(n, acts[..i][..j]), acts[..i][j])
      ensures CollectsHome(Exec(n, acts[..i][..j]), acts[..i][j].w, acts[..i][j].due) {
      assert acts[..i][..j] == acts[..j];
    }
  }

  // And what it does then: told, or not asked to go on, it leaves the call, with its timer and its
  // timerInfo gone; otherwise it tries again with what Deadlines.WaitStarts says.
  lemma ReturnOutcome(s: Sys, w: nat, again: bool)
    requires CanIoReturn(s, w) && (!again || CurCo(s, w).phase.tinfo !in s.infos || s.infos[CurCo(s, w).phase.tinfo].cancelled)
    ensures var (c, p, s') := (Cur(s, w), CurCo(s, w).phase, Do(s, IoReturn(w, again)));
         && s'.cos[c] == s.cos[c].(phase := Free) && p.tinfo !in s'.infos
         && (p.timer.Some? ==> p.timer.value !in s'.timers)
         && s'.ws == s.ws && s'.infos == s.infos - {p.tinfo}
  {
  }

  // A refused registration ends the call in the same way.
  lemma RefusedOutcome(s: Sys, w: nat, accepted: bool)
    requires Can(s, IoRegister(w, accepted)) && !Registration(s, w, accepted).ok
    ensures var (c, p, s') := (Cur(s, w), CurCo(s, w).phase, Do(s, IoRegister(w, accepted)));
         && s'.cos[c] == s.cos[c].(phase := Free) && p.tinfo !in s'.infos
         && (p.timer.Some? ==> p.timer.value !in s'.timers)
         && s'.ws == s.ws && s'.infos == s.infos - {p.tinfo}
  {
  }

  // ---- running and ending ----

  // The coroutine that is popped is the one that runs.
  lemma PoppedResumes(s: Sys, w: nat)
    requires Can(s, PopCo(w))
    ensures var s' := Do(s, PopCo(w));
         Runs(s', w) && CoTask(Cur(s', w)) == s.ws[w].queue[0] && CurCo(s', w).state == RUNNING
  {
  }

  // A coroutine that returns is DONE, one that throws EXCEPT; its worker goes on, and nothing holds it
  // any more.
  lemma FinishEnds(s: Sys, wh: Where, w: nat, threw: bool)
    requires Good(s, wh) && Can(s, Finish(w, threw))
    ensures var (c, s') := (Cur(s, w), Do(s, Finish(w, threw)));
         && s'.cos[c].state == (if threw then EXCEPT else DONE)
         && w < |s'.ws| && s'.ws[w].mode == Looping
         && forall p: Place :: Held(s', p, c) == 0
  {
    var s' := Do(s, Finish(w, threw));
    assert WorkerOk(s, w);
    var wh' := KeepStep(s, wh, Finish(w, threw));
    forall p: Place ensures Held(s', p, Cur(s, w)) == Has(At(wh', p, Cur(s, w))) {
    }
  }

  // ---- the program's own functions ----

  // A function watches an fd once the kernel agreed.
  lemma WatchRegisters(s: Sys, w: nat, fd: nat, dir: Dir, id: nat, accepted: bool)
    requires Can(s, WatchFd(w, fd, dir, id, accepted)) && s.ws[w].poller.Synced()
    requires (fd, dir) !in s.ws[w].poller.armed && accepted
    ensures var s' := Do(s, WatchFd(w, fd, dir, id, accepted));
         && w < |s'.ws| && (fd, dir) in s'.ws[w].poller.armed && s'.ws[w].poller.armed[(fd, dir)] == FuncTask(User(id))
         && fd in s'.ws[w].poller.kernel && s'.ws[w].poller.kernel[fd] == s.ws[w].poller.Types(fd) + {dir}
  {
    SyncedCallsSucceed(s.ws[w].poller, fd, dir, FuncTask(User(id)));
  }

  // A timer of the program is due after its interval; stopping it takes it away, moving it changes its
  // interval and deadline and nothing else.
  lemma ProgramTimers(s: Sys, interval: int, id: nat, recursive: bool, t: TimerId, expire: int)
    ensures Do(s, StartTimer(interval, id, recursive)).timers
         == s.timers[s.nextTimer := Entry(s.now + interval, interval, recursive, User(id))]
    ensures Can(s, StopTimer(t)) ==> Do(s, StopTimer(t)).timers == s.timers - {t}
    ensures Can(s, MoveTimer(t, interval, expire)) ==>
              t in s.timers && Do(s, MoveTimer(t, interval, expire)).timers
              == s.timers[t := Entry(expire, interval, s.timers[t].recursive, s.timers[t].func)]
  {
  }

  // ---- closing an fd ----

  // close wakes everything that waits on the fd at the closing worker, if its kernel knows the fd; no
  // poller's kernel knows it afterwards, and what waits for it at other workers stays where it is.
  lemma CloseWakes(s: Sys, wh: Where, w: nat, fd: nat, d: Dir)
    requires Good(s, wh) && Can(s, CloseFd(w, fd)) && (fd, d) in s.ws[w].poller.armed && fd in s.ws[w].poller.kernel
    ensures var (s', t) := (Do(s, CloseFd(w, fd)), s.ws[w].poller.armed[(fd, d)]);
         && w < |s'.ws| && (fd, d) !in s'.ws[w].poller.armed && t in s'.ws[w].queue
         && (t.CoTask? ==> Held(s', InQueue(w), t.co) == 1)
  {
    var p, s' := s.ws[w].poller, Do(s, CloseFd(w, fd));
    var e := TakeAll(p, fd);
    assert d in p.Types(fd);
    TakeAllConservesAll(p, fd);
    OutOn(p, e, (fd, d));
    OnInTasks(e.out, (fd, d));
    var wh' := KeepStep(s, wh, CloseFd(w, fd));
    QueuedIsHeld(s', wh', w, p.armed[(fd, d)]);
  }

  lemma CloseForgets(s: Sys, w: nat, fd: nat, v: nat)
    requires Can(s, CloseFd(w, fd)) && v < |s.ws|
    ensures var s' := Do(s, CloseFd(w, fd));
         && |s'.ws| == |s.ws| && fd !in s'.ws[v].poller.kernel
         && (v != w || fd !in s.ws[w].poller.kernel ==>
               s'.ws[v].poller.armed == s.ws[v].poller.armed && s'.ws[v].queue == s.ws[v].queue)
  {
  }

  // ---- no call is told early ----

  // A timeout function runs only after the time its call asked for.
  lemma NeverToldEarly(n: nat, acts: seq<Action>, i: nat, io: Io, w: nat)
    requires n > 0 && HomeRun(n, acts)
    requires i < |acts| && StartsWait(Exec(n, acts[..i]), acts[i], io) && io.timeout.Some?
    requires NotEnded(n, acts, i + 1, Cur(Exec(n, acts[..i]), acts[i].w))
    requires var (s, c) := (Exec(n, acts), Cur(Exec(n, acts[..i]), acts[i].w));
         CanRunTimeout(s, w) && CurCo(s, w).func.tinfo in s.infos && s.infos[CurCo(s, w).func.tinfo].owner == c
    ensures Exec(n, acts).now >= Exec(n, acts[..i]).now + io.timeout.value
  {
    var s := Exec(n, acts);
    var wh := AlwaysTimely(n, acts);
    TimeoutNotEarly(n, acts, i, io);
    TimeoutFindsCall(s, w);
  }
}
