// The steps that move a timeout on: a task is popped, a timeout function runs, a poll pass ends.
module TimeoutPops {
  import opened Prelude
  import opened Tasks
  import opened Timers
  import opened Polling
  import opened PollingRuns
  import opened Epollers
  import opened Runtime
  import opened Ownership
  import opened Timeouts
  import opened TimeoutSteps

  // ---- a coroutine is popped ----

  ghost predicate PopsHome(s: Sys, w: nat) {
    CanPopCo(s, w) && var x := s.cos[s.ws[w].queue[0].co]; x.home == w && x.func.User?
  }

  // A resumed wait: its timeout function is not on its way, for it would stand before it.
  lemma ResumeStage(s: Sys, w: nat)
    requires PopsHome(s, w) && Calling(s, s.ws[w].queue[0].co) && WaitOk(s, s.ws[w].queue[0].co)
    requires s.cos[s.ws[w].queue[0].co].phase.IoWait?
    ensures WaitOk(DoPopCo(s, w), s.ws[w].queue[0].co)
  {
    var c, v, s' := s.ws[w].queue[0].co, ViewAt(s, w), DoPopCo(s, w);
    var g :| AtStage(s.cos[c], c, v, g) && Allowed(s.cos[c], g);
    StagePop(s.cos[c], c, v, g);
    assert AtStage(s'.cos[c], c, ViewAt(s', w), g);
  }

  lemma PopCoUntouched(s: Sys, w: nat, y: CoId)
    requires PopsHome(s, w) && Calling(s, y) && y != s.ws[w].queue[0].co
    ensures Untouched(s, DoPopCo(s, w), y)
  {
  }

  lemma PopCoWaits(s: Sys, w: nat)
    requires Waits(s) && PopsHome(s, w)
    requires var c := s.ws[w].queue[0].co; Calling(s, c) ==> s.cos[c].phase.IoWait?
    ensures Waits(DoPopCo(s, w))
  {
    var c, s' := s.ws[w].queue[0].co, DoPopCo(s, w);
    forall y | Calling(s', y) ensures WaitOk(s', y) {
      if y == c {
        ResumeStage(s, w);
      } else {
        PopCoUntouched(s, w, y);
        if s.cos[y].home == w {
          WaitPopped(s, s', y);
        } else {
          WaitSame(s, s', y);
        }
      }
    }
  }

  lemma PopCoOwners(s: Sys, w: nat)
    requires Queues(s) && Hands(s) && Alarms(s) && PopsHome(s, w)
    ensures Queues(DoPopCo(s, w)) && Hands(DoPopCo(s, w)) && Alarms(DoPopCo(s, w))
  {
    var s' := DoPopCo(s, w);
    forall v: nat, f | v < |s'.ws| && FuncTask(f) in s'.ws[v].queue ensures OwnedAt(s', v, f) {
      OwnedKept(s, s', v, f);
    }
    forall v: nat | v < |s'.ws| && Hand(s', v).Some? ensures OwnedAt(s', v, Hand(s', v).value) {
      if v != w {
        OwnedKept(s, s', v, Hand(s, v).value);
      }
    }
    forall t | t in s'.timers ensures TimerOwned(s', t) {
      assert TimerOwned(s, t);
    }
  }

  lemma PopCoPollers(s: Sys, w: nat)
    requires Pollers(s) && PopsHome(s, w)
    ensures Pollers(DoPopCo(s, w))
  {
    var s' := DoPopCo(s, w);
    forall v: nat, t | v < |s'.ws| && s'.ws[v].mode.Polling? && t in s'.ws[v].queue ensures NewWork(s', v, t) {
      assert NewWork(s, v, t);
    }
  }

  lemma TimelyPopCo(s: Sys, wh: Where, w: nat)
    requires Good(s, wh) && Timely(s) && CanPopCo(s, w)
    ensures Timely(DoPopCo(s, w))
  {
    HeadCo(s, wh, w);
    assert CoroOk(s, s.ws[w].queue[0].co) && Fits(s, s.ws[w].queue[0].co, InQueue(w));
    PopCoWaits(s, w);
    PopCoOwners(s, w);
    PopCoPollers(s, w);
  }

  // ---- a function is popped ----

  // The coroutine that will run it is in no call and at no other worker.
  ghost predicate Spare(s: Sys, w: nat, c: CoId) {
    && (c in s.cos ==> s.cos[c].home == w && !InCall(s.cos[c].phase))
    && (forall v: nat | v < |s.ws| && s.ws[v].mode.Busy? :: s.ws[v].mode.co in s.cos && s.ws[v].mode.co != c)
  }

  lemma FuncCoSpare(s: Sys, wh: Where, w: nat, born: CoId)
    requires Good(s, wh) && CanPopFunc(s, w, born)
    ensures Spare(s, w, FuncCo(s, w, born))
  {
    var c := FuncCo(s, w, born);
    assert WorkerOk(s, w);
    assert c in s.cos ==> CoroOk(s, c);
    forall v: nat | v < |s.ws| && s.ws[v].mode.Busy? ensures s.ws[v].mode.co in s.cos && s.ws[v].mode.co != c {
      assert WorkerOk(s, v);
    }
  }

  lemma PopFuncAway(s: Sys, w: nat, born: CoId, y: CoId)
    requires CanPopFunc(s, w, born) && Spare(s, w, FuncCo(s, w, born)) && Calling(s, y)
    requires Fn(s.cos[y].phase) != s.ws[w].queue[0].func || s.cos[y].home != w
    ensures Untouched(s, DoPopFunc(s, w, born), y)
  {
  }

  // The timeout function of y's call is popped.
  lemma HandedStage(s: Sys, w: nat, born: CoId, y: CoId)
    requires CanPopFunc(s, w, born) && Spare(s, w, FuncCo(s, w, born)) && Calling(s, y) && WaitOk(s, y)
    requires Fn(s.cos[y].phase) == s.ws[w].queue[0].func && s.cos[y].home == w
    ensures WaitOk(DoPopFunc(s, w, born), y)
  {
    var x, f, s' := s.cos[y], s.ws[w].queue[0].func, DoPopFunc(s, w, born);
    var g :| AtStage(x, y, ViewAt(s, w), g) && Allowed(x, g);
    var i :| FirstAt(s.ws[w].queue, f, y, i);
    assert AtStage(x, y, ViewAt(s', w), Handed);
  }

  lemma PopFuncWaits(s: Sys, w: nat, born: CoId)
    requires Waits(s) && CanPopFunc(s, w, born) && Spare(s, w, FuncCo(s, w, born))
    ensures Waits(DoPopFunc(s, w, born))
  {
    var f, s' := s.ws[w].queue[0].func, DoPopFunc(s, w, born);
    forall y | Calling(s', y) ensures WaitOk(s', y) {
      if s.cos[y].home != w {
        PopFuncAway(s, w, born, y);
        WaitSame(s, s', y);
      } else if f == Fn(s.cos[y].phase) {
        HandedStage(s, w, born, y);
      } else {
        PopFuncAway(s, w, born, y);
        WaitPopped(s, s', y);
      }
    }
  }

  lemma PopFuncOwners(s: Sys, w: nat, born: CoId)
    requires Queues(s) && Hands(s) && Alarms(s) && CanPopFunc(s, w, born) && Spare(s, w, FuncCo(s, w, born))
    ensures var s' := DoPopFunc(s, w, born); Queues(s') && Hands(s') && Alarms(s')
  {
    var s' := DoPopFunc(s, w, born);
    forall v: nat, f | v < |s'.ws| && FuncTask(f) in s'.ws[v].queue ensures OwnedAt(s', v, f) {
      OwnedKept(s, s', v, f);
    }
    forall v: nat | v < |s'.ws| && Hand(s', v).Some? ensures OwnedAt(s', v, Hand(s', v).value) {
      if v == w {
        assert s.ws[w].queue[0] == FuncTask(s.ws[w].queue[0].func);
        OwnedKept(s, s', w, s.ws[w].queue[0].func);
      } else {
        OwnedKept(s, s', v, Hand(s, v).value);
      }
    }
    forall t | t in s'.timers ensures TimerOwned(s', t) {
      assert TimerOwned(s, t);
    }
  }

  lemma PopFuncPollers(s: Sys, w: nat, born: CoId)
    requires Pollers(s) && CanPopFunc(s, w, born) && Spare(s, w, FuncCo(s, w, born))
    ensures Pollers(DoPopFunc(s, w, born))
  {
    var s' := DoPopFunc(s, w, born);
    forall v: nat, t | v < |s'.ws| && s'.ws[v].mode.Polling? && t in s'.ws[v].queue ensures NewWork(s', v, t) {
      assert NewWork(s, v, t);
    }
  }

  lemma TimelyPopFunc(s: Sys, wh: Where, w: nat, born: CoId)
    requires Good(s, wh) && Timely(s) && CanPopFunc(s, w, born)
    ensures Timely(DoPopFunc(s, w, born))
  {
    FuncCoSpare(s, wh, w, born);
    PopFuncWaits(s, w, born);
    PopFuncOwners(s, w, born);
    PopFuncPollers(s, w, born);
  }

  // ---- a timeout function runs ----

  // It finds its call alive, at home here, and not cancelled: its guard never stops it.
  ghost predicate FindsCall(s: Sys, w: nat)
    requires CanRunTimeout(s, w)
  {
    var f := CurCo(s, w).func;
    && f.tinfo in s.infos && !s.infos[f.tinfo].cancelled
    && var c := s.infos[f.tinfo].owner;
       Calling(s, c) && s.cos[c].home == w && Fn(s.cos[c].phase) == f
       && AtStage(s.cos[c], c, ViewAt(s, w), Handed) && Allowed(s.cos[c], Handed)
  }

  lemma TimeoutFindsCall(s: Sys, w: nat)
    requires Waits(s) && Hands(s) && CanRunTimeout(s, w)
    ensures FindsCall(s, w)
  {
    var f := CurCo(s, w).func;
    assert Hand(s, w) == Some(f) && OwnedAt(s, w, f);
    assert WaitOk(s, s.infos[f.tinfo].owner);
  }

  ghost predicate Runnable(s: Sys, w: nat) {
    && CanRunTimeout(s, w) && FindsCall(s, w) && CurCo(s, w).phase.Free?
    && forall t | t in TasksOf(Take(s.ws[w].poller, CurCo(s, w).func.fd, CurCo(s, w).func.dir).out) :: !IsTimeout(t)
  }

  lemma RunTimeoutUntouched(s: Sys, w: nat, y: CoId)
    requires Runnable(s, w) && Calling(s, y) && WaitOk(s, y) && y != s.infos[CurCo(s, w).func.tinfo].owner
    ensures Untouched(s, DoRunTimeout(s, w), y)
  {
    OwnerIs(s, y);
  }

  lemma RanStage(s: Sys, w: nat)
    requires Runnable(s, w)
    ensures WaitOk(DoRunTimeout(s, w), s.infos[CurCo(s, w).func.tinfo].owner)
  {
    var f, s' := CurCo(s, w).func, DoRunTimeout(s, w);
    var c := s.infos[f.tinfo].owner;
    StageAppend(s.cos[c], c, ViewAt(s, w), TasksOf(Take(s.ws[w].poller, f.fd, f.dir).out), Handed);
    assert AtStage(s.cos[c], c, ViewAt(s', w), Ran);
  }

  lemma RunTimeoutWaits(s: Sys, w: nat)
    requires Waits(s) && Runnable(s, w)
    ensures Waits(DoRunTimeout(s, w))
  {
    var f, s' := CurCo(s, w).func, DoRunTimeout(s, w);
    forall y | Calling(s', y) ensures WaitOk(s', y) {
      if y == s.infos[f.tinfo].owner {
        RanStage(s, w);
      } else {
        RunTimeoutUntouched(s, w, y);
        if s.cos[y].home == w {
          WaitAppended(s, s', y, TasksOf(Take(s.ws[w].poller, f.fd, f.dir).out));
        } else {
          WaitSame(s, s', y);
        }
      }
    }
  }

  lemma RunTimeoutOwners(s: Sys, w: nat)
    requires Queues(s) && Hands(s) && Alarms(s) && Runnable(s, w)
    ensures var s' := DoRunTimeout(s, w); Queues(s') && Hands(s') && Alarms(s')
  {
    var s' := DoRunTimeout(s, w);
    forall v: nat, f | v < |s'.ws| && FuncTask(f) in s'.ws[v].queue ensures OwnedAt(s', v, f) {
      if IsTimeout(FuncTask(f)) {
        assert FuncTask(f) in s.ws[v].queue;
        OwnedKept(s, s', v, f);
      }
    }
    forall v: nat | v < |s'.ws| && Hand(s', v).Some? ensures OwnedAt(s', v, Hand(s', v).value) {
      OwnedKept(s, s', v, Hand(s, v).value);
    }
    forall t | t in s'.timers ensures TimerOwned(s', t) {
      assert TimerOwned(s, t);
    }
  }

  lemma RunTimeoutPollers(s: Sys, w: nat)
    requires Pollers(s) && Runnable(s, w)
    ensures Pollers(DoRunTimeout(s, w))
  {
    var s' := DoRunTimeout(s, w);
    forall v: nat, t | v < |s'.ws| && s'.ws[v].mode.Polling? && t in s'.ws[v].queue ensures NewWork(s', v, t) {
      assert NewWork(s, v, t);
    }
  }

  lemma TimelyRunTimeout(s: Sys, wh: Where, w: nat)
    requires Good(s, wh) && Timely(s) && CanRunTimeout(s, w)
    ensures Timely(DoRunTimeout(s, w))
  {
    var f := CurCo(s, w).func;
    TimeoutFindsCall(s, w);
    Running(s, wh, w);
    TakeConservesAll(s.ws[w].poller, f.fd, f.dir);
    NoTimeoutOut(s, wh, w, Take(s.ws[w].poller, f.fd, f.dir));
    RunTimeoutWaits(s, w);
    RunTimeoutOwners(s, w);
    RunTimeoutPollers(s, w);
  }

  // ---- a poll pass ends ----

  // The condition: of the timeouts, the pass collects those of its own worker's coroutines only.
  ghost predicate OwnTimeouts(s: Sys, w: nat, due: seq<TimerId>) {
    forall t | t in due && t in s.timers && s.timers[t].func.IoTimeout? :: OwnedAt(s, w, s.timers[t].func)
  }

  lemma {:induction false} FiredAre(p: map<TimerId, Entry>, due: seq<TimerId>)
    requires forall i | 0 <= i < |due| :: due[i] in p
    ensures |Fired(p, due)| == |due| && forall i | 0 <= i < |due| :: Fired(p, due)[i] == FuncTask(p[due[i]].func)
  {
    if due != [] {
      FiredAre(p, due[..|due| - 1]);
    }
  }

  lemma FirstInMiddle(a: seq<Task>, b: seq<Task>, f: Func, c: CoId)
    requires FuncTask(f) !in a && CoTask(c) !in a && FuncTask(f) !in b
    ensures FirstBefore(a + [FuncTask(f)] + b, f, c)
  {
    var q := a + [FuncTask(f)] + b;
    assert q[..|a|] == a && q[|a| + 1..] == b;
    assert FirstAt(q, f, c, |a|);
  }

  // A due timer puts its function behind what is queued already, before what the events bring.
  lemma FirstFired(q: seq<Task>, p: map<TimerId, Entry>, due: seq<TimerId>, out: seq<Task>, j: nat, c: CoId)
    requires j < |due| && forall i | 0 <= i < |due| :: due[i] in p
    requires forall i | 0 <= i < |due| && p[due[i]].func == p[due[j]].func :: i == j
    requires FuncTask(p[due[j]].func) !in q && CoTask(c) !in q && FuncTask(p[due[j]].func) !in out
    ensures FirstBefore(q + Fired(p, due) + out, p[due[j]].func, c)
  {
    FiredAre(p, due);
    var f, t := p[due[j]].func, Fired(p, due);
    assert q + t + out == (q + t[..j]) + [FuncTask(f)] + (t[j + 1..] + out);
    FirstInMiddle(q + t[..j], t[j + 1..] + out, f, c);
  }

  ghost function News(s: Sys, w: nat, due: seq<TimerId>, events: seq<Report>): seq<Task>
    requires CanPollEnd(s, w, due, events)
  {
    Fired(s.timers, due) + TasksOf(Wait(s.ws[w].poller, events).out)
  }

  // Nothing of a call is queued at a worker that polls.
  lemma QueueIsNew(s: Sys, w: nat, c: CoId)
    requires Pollers(s) && w < |s.ws| && s.ws[w].mode.Polling? && Calling(s, c)
    ensures CoTask(c) !in s.ws[w].queue && FuncTask(Fn(s.cos[c].phase)) !in s.ws[w].queue
  {
    assert CoTask(c) in s.ws[w].queue ==> NewWork(s, w, CoTask(c));
    assert FuncTask(Fn(s.cos[c].phase)) in s.ws[w].queue ==> NewWork(s, w, FuncTask(Fn(s.cos[c].phase)));
  }

  // The timers with the function of c's call: its own.
  lemma OwnTimerOnly(s: Sys, c: CoId, t: TimerId)
    requires Alarms(s) && Calling(s, c) && WaitOk(s, c) && t in s.timers && s.timers[t].func == Fn(s.cos[c].phase)
    ensures s.cos[c].phase.timer == Some(t)
  {
    assert TimerOwned(s, t);
  }

  ghost predicate EventsOk(s: Sys, w: nat, due: seq<TimerId>, events: seq<Report>) {
    CanPollEnd(s, w, due, events) && forall t | t in TasksOf(Wait(s.ws[w].poller, events).out) :: !IsTimeout(t)
  }

  lemma DueFirst(s: Sys, w: nat, due: seq<TimerId>, events: seq<Report>, c: CoId)
    requires Alarms(s) && Pollers(s) && EventsOk(s, w, due, events) && Calling(s, c) && WaitOk(s, c)
    requires var t := s.cos[c].phase.timer; t.Some? && t.value in due
    ensures FirstBefore(DoPollEnd(s, w, due, events).ws[w].queue, Fn(s.cos[c].phase), c)
  {
    var f := Fn(s.cos[c].phase);
    PendingIsTimeout(s, c);
    QueueIsNew(s, w, c);
    var j :| 0 <= j < |due| && due[j] == s.cos[c].phase.timer.value;
    forall i | 0 <= i < |due| && s.timers[due[i]].func == f ensures i == j {
      OwnTimerOnly(s, c, due[i]);
    }
    assert IsTimeout(FuncTask(f));
    FirstFired(s.ws[w].queue, s.timers, due, TasksOf(Wait(s.ws[w].poller, events).out), j, c);
  }

  lemma PollStageDue(s: Sys, w: nat, due: seq<TimerId>, events: seq<Report>, c: CoId)
    requires Alarms(s) && Pollers(s) && EventsOk(s, w, due, events) && Calling(s, c) && WaitOk(s, c)
    requires var t := s.cos[c].phase.timer; t.Some? && t.value in due
    requires s.cos[c].home == w && s.cos[c].state != RUNNING && s.cos[c].phase.IoWait?
    ensures WaitOk(DoPollEnd(s, w, due, events), c)
  {
    var x, s' := s.cos[c], DoPollEnd(s, w, due, events);
    PendingIsTimeout(s, c);
    DueFirst(s, w, due, events, c);
    assert AtStage(x, c, ViewAt(s', w), Queued);
  }

  lemma NotDueYet(s: Sys, w: nat, due: seq<TimerId>, events: seq<Report>, t: TimerId)
    requires CanPollEnd(s, w, due, events) && t in s.timers && t !in due
    ensures t in AfterExpiry(s.timers, s.now) && AfterExpiry(s.timers, s.now)[t] == s.timers[t]
  {
  }

  lemma NotFired(s: Sys, w: nat, due: seq<TimerId>, events: seq<Report>, c: CoId)
    requires Alarms(s) && EventsOk(s, w, due, events) && Calling(s, c) && WaitOk(s, c)
    requires var t := s.cos[c].phase.timer; t.Some? ==> t.value !in due
    ensures FuncTask(Fn(s.cos[c].phase)) !in News(s, w, due, events)
  {
    var f := Fn(s.cos[c].phase);
    FiredAre(s.timers, due);
    assert IsTimeout(FuncTask(f));
    forall j | 0 <= j < |due| ensures s.timers[due[j]].func != f {
      if s.timers[due[j]].func == f {
        OwnTimerOnly(s, c, due[j]);
      }
    }
  }

  lemma PollUntouched(s: Sys, w: nat, due: seq<TimerId>, events: seq<Report>, c: CoId)
    requires CanPollEnd(s, w, due, events) && Calling(s, c)
    requires var t := s.cos[c].phase.timer; t.Some? ==> t.value !in due
    ensures Untouched(s, DoPollEnd(s, w, due, events), c)
  {
    var t := s.cos[c].phase.timer;
    if t.Some? && t.value in s.timers {
      NotDueYet(s, w, due, events, t.value);
    }
  }

  // The coroutines of a worker that polls are suspended.
  ghost predicate Suspended(s: Sys, w: nat) {
    forall c | Calling(s, c) && s.cos[c].home == w :: s.cos[c].state != RUNNING && s.cos[c].phase.IoWait?
  }

  lemma PollWait(s: Sys, w: nat, due: seq<TimerId>, events: seq<Report>, c: CoId)
    requires Alarms(s) && Pollers(s) && Suspended(s, w) && EventsOk(s, w, due, events) && OwnTimeouts(s, w, due)
    requires Calling(s, c) && WaitOk(s, c)
    ensures WaitOk(DoPollEnd(s, w, due, events), c)
  {
    var s' := DoPollEnd(s, w, due, events);
    if s.cos[c].phase.timer.Some? && s.cos[c].phase.timer.value in due {
      PendingIsTimeout(s, c);
      OwnerIs(s, c);
      PollStageDue(s, w, due, events, c);
    } else {
      PollUntouched(s, w, due, events, c);
      if s.cos[c].home == w {
        NotFired(s, w, due, events, c);
        Assoc(s.ws[w].queue, Fired(s.timers, due), TasksOf(Wait(s.ws[w].poller, events).out));
        WaitAppended(s, s', c, News(s, w, due, events));
      } else {
        WaitSame(s, s', c);
      }
    }
  }

  lemma PollQueues(s: Sys, w: nat, due: seq<TimerId>, events: seq<Report>)
    requires Queues(s) && EventsOk(s, w, due, events) && OwnTimeouts(s, w, due)
    ensures Queues(DoPollEnd(s, w, due, events))
  {
    var s' := DoPollEnd(s, w, due, events);
    forall v: nat, f | v < |s'.ws| && FuncTask(f) in s'.ws[v].queue ensures OwnedAt(s', v, f) {
      if FuncTask(f) in s.ws[v].queue {
        OwnedKept(s, s', v, f);
      } else if IsTimeout(FuncTask(f)) {
        FiredAre(s.timers, due);
        var j :| 0 <= j < |due| && Fired(s.timers, due)[j] == FuncTask(f);
        OwnedKept(s, s', v, s.timers[due[j]].func);
      }
    }
  }

  lemma PollRest(s: Sys, w: nat, due: seq<TimerId>, events: seq<Report>)
    requires Hands(s) && Alarms(s) && Pollers(s) && CanPollEnd(s, w, due, events)
    ensures var s' := DoPollEnd(s, w, due, events); Hands(s') && Alarms(s') && Pollers(s')
  {
    var s' := DoPollEnd(s, w, due, events);
    forall v: nat | v < |s'.ws| && Hand(s', v).Some? ensures OwnedAt(s', v, Hand(s', v).value) {
      OwnedKept(s, s', v, Hand(s, v).value);
    }
    forall t | t in s'.timers ensures TimerOwned(s', t) {
      assert TimerOwned(s, t);
    }
    forall v: nat, t | v < |s'.ws| && s'.ws[v].mode.Polling? && t in s'.ws[v].queue ensures NewWork(s', v, t) {
      assert NewWork(s, v, t);
    }
  }

  lemma IdleSuspended(s: Sys, wh: Where, w: nat)
    requires Good(s, wh) && Waits(s) && w < |s.ws| && s.ws[w].mode.Polling?
    ensures Suspended(s, w)
  {
    forall c | Calling(s, c) && s.cos[c].home == w ensures s.cos[c].state != RUNNING && s.cos[c].phase.IoWait? {
      assert CoroOk(s, c);
    }
  }

  lemma TimelyPollEnd(s: Sys, wh: Where, w: nat, due: seq<TimerId>, events: seq<Report>)
    requires Good(s, wh) && Timely(s) && CanPollEnd(s, w, due, events) && OwnTimeouts(s, w, due)
    ensures Timely(DoPollEnd(s, w, due, events))
  {
    var s' := DoPollEnd(s, w, due, events);
    WaitConservesAll(s.ws[w].poller, events);
    NoTimeoutOut(s, wh, w, Wait(s.ws[w].poller, events));
    IdleSuspended(s, wh, w);
    forall c | Calling(s', c) ensures WaitOk(s', c) {
      PollWait(s, w, due, events, c);
    }
    PollQueues(s, w, due, events);
    PollRest(s, w, due, events);
  }

  // ---- every step ----

  ghost predicate InsideCall(a: Action) { a.IoStart? || a.IoRegister? || a.Yield? || a.IoReturn? }

  lemma TimelyInside(s: Sys, wh: Where, a: Action)
    requires Good(s, wh) && Timely(s) && Can(s, a) && InsideCall(a)
    ensures Timely(Do(s, a))
  {
    match a
    case IoStart(w, io) => TimelyIoStart(s, wh, w, io);
    case IoRegister(w, accepted) => TimelyIoRegister(s, wh, w, accepted);
    case Yield(w) => TimelyYield(s, wh, w);
    case IoReturn(w, again) => TimelyIoReturn(s, wh, w, again);
  }

  ghost predicate MovesOn(a: Action) { a.PopCo? || a.PopDead? || a.PopFunc? || a.RunTimeout? || a.PollEnd? }

  ghost predicate CollectsOwn(s: Sys, a: Action) { a.PollEnd? ==> OwnTimeouts(s, a.w, a.due) }

  lemma TimelyMove(s: Sys, wh: Where, a: Action)
    requires Good(s, wh) && Timely(s) && Can(s, a) && MovesOn(a) && CollectsOwn(s, a)
    ensures Timely(Do(s, a))
  {
    match a
    case PopCo(w) => TimelyPopCo(s, wh, w);
    case PopDead(w) => HeadCo(s, wh, w); assert false;
    case PopFunc(w, born) => TimelyPopFunc(s, wh, w, born);
    case RunTimeout(w) => TimelyRunTimeout(s, wh, w);
    case PollEnd(w, due, events) => TimelyPollEnd(s, wh, w, due, events);
  }

  ghost predicate InProgram(a: Action) {
    a.PollStart? || a.RunWake? || a.Sleep? || a.CloseFd? || a.WatchFd? || a.Finish?
  }

  lemma TimelyProgram(s: Sys, wh: Where, a: Action)
    requires Good(s, wh) && Timely(s) && Can(s, a) && InProgram(a)
    ensures Timely(Do(s, a))
  {
    match a
    case PollStart(w) =>
      PollStartQuiet(s, w);
      QuietStep(s, Do(s, a), w, []);
    case RunWake(w) => TimelyRunWake(s, wh, w);
    case Sleep(w, ms) =>
      Running(s, wh, w);
      SleepQuiet(s, w, ms);
      QuietStep(s, Do(s, a), w, []);
    case CloseFd(w, fd) => TimelyCloseFd(s, wh, w, fd);
    case WatchFd(w, fd, dir, id, accepted) =>
      WatchQuiet(s, w, fd, dir, id, accepted);
      QuietStep(s, Do(s, a), w, []);
    case Finish(w, threw) =>
      FinishQuiet(s, w, if threw then EXCEPT else DONE);
      QuietStep(s, Do(s, a), w, []);
  }

  lemma TimelyStep(s: Sys, wh: Where, a: Action)
    requires Good(s, wh) && Timely(s) && Can(s, a) && CollectsOwn(s, a) && s.ws != []
    ensures Timely(Do(s, a))
  {
    if ByOthers(a) {
      TimelyOther(s, wh, a);
    } else if InsideCall(a) {
      TimelyInside(s, wh, a);
    } else if InProgram(a) {
      TimelyProgram(s, wh, a);
    } else {
      TimelyMove(s, wh, a);
    }
  }
}
