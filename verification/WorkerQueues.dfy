// A worker's queue over runs: first in, first out, and every function given to a worker runs there once
// (reyao/worker.h:79-115, reyao/worker.cc:70-103).
module WorkerQueues {
  import opened Prelude
  import opened Tasks
  import opened Timers
  import opened Polling
  import opened PollingRuns
  import opened Epollers
  import opened Runtime
  import opened Ownership
  import opened Timeouts
  import opened TimeoutSteps
  import opened TimeoutPops
  import opened TimeoutRuns

  // ---- first in, first out ----

  // The action takes the head of worker v's queue.
  ghost predicate PopsAt(s: Sys, a: Action, v: nat) {
    Can(s, a) && (a.PopCo? || a.PopDead? || a.PopFunc?) && a.w == v
  }

  // A step takes the head, or appends.
  ghost predicate InLine(s: Sys, s': Sys, v: nat, pops: bool) {
    && |s'.ws| == |s.ws| && v < |s.ws|
    && (if pops then s.ws[v].queue != [] && s'.ws[v].queue == s.ws[v].queue[1..] else s.ws[v].queue <= s'.ws[v].queue)
  }

  lemma PopInLine(s: Sys, a: Action, v: nat)
    requires Can(s, a) && v < |s.ws| && (a.PopCo? || a.PopDead? || a.PopFunc?)
    ensures InLine(s, Do(s, a), v, PopsAt(s, a, v))
  {
  }

  lemma WakeInLine(s: Sys, a: Action, v: nat)
    requires Can(s, a) && v < |s.ws| && a.RunWake?
    ensures InLine(s, Do(s, a), v, false)
  {
    assert forall x | 0 <= x < |s.ws| :: Over(s, a.w, DONE).ws[x].queue == s.ws[x].queue;
  }

  lemma DeliveryInLine(s: Sys, a: Action, v: nat)
    requires Can(s, a) && v < |s.ws| && (a.PollEnd? || a.RunTimeout? || a.CloseFd?)
    ensures InLine(s, Do(s, a), v, false)
  {
  }

  lemma OthersInLine(s: Sys, a: Action, v: nat)
    requires Can(s, a) && v < |s.ws| && !(a.PopCo? || a.PopDead? || a.PopFunc?) && !a.RunWake?
    requires !(a.PollEnd? || a.RunTimeout? || a.CloseFd?)
    ensures InLine(s, Do(s, a), v, false)
  {
  }

  lemma StepInLine(s: Sys, a: Action, v: nat)
    requires Can(s, a) && v < |s.ws|
    ensures InLine(s, Do(s, a), v, PopsAt(s, a, v))
  {
    if a.PopCo? || a.PopDead? || a.PopFunc? {
      PopInLine(s, a, v);
    } else if a.RunWake? {
      WakeInLine(s, a, v);
    } else if a.PollEnd? || a.RunTimeout? || a.CloseFd? {
      DeliveryInLine(s, a, v);
    } else {
      OthersInLine(s, a, v);
    }
  }

  // The state after an action that may be impossible, and after more actions.
  ghost function After(s: Sys, a: Action): Sys { if Can(s, a) then Do(s, a) else s }

  ghost function AfterAll(s: Sys, acts: seq<Action>): Sys
    decreases |acts|
  {
    if acts == [] then s else AfterAll(After(s, acts[0]), acts[1..])
  }

  lemma {:induction false} RunsOn(n: nat, pre: seq<Action>, post: seq<Action>)
    ensures Exec(n, pre + post) == AfterAll(Exec(n, pre), post)
    decreases |post|
  {
    if post == [] {
      assert pre + post == pre;
    } else {
      assert pre + post == (pre + post[..1]) + post[1..];
      RunsOn(n, pre + post[..1], post[1..]);
      assert (pre + post[..1])[..|pre|] == pre;
    }
  }

  // How often worker v takes a task on the way.
  ghost function PopCount(s: Sys, acts: seq<Action>, v: nat): nat
    decreases |acts|
  {
    if acts == [] then 0 else Has(PopsAt(s, acts[0], v)) + PopCount(After(s, acts[0]), acts[1..], v)
  }

  ghost function QueueAt(s: Sys, v: nat): seq<Task> { if v < |s.ws| then s.ws[v].queue else [] }

  // The task that stands in line at v behind m others.
  ghost function TaskAt(s: Sys, v: nat, m: nat): Option<Task> {
    if m < |QueueAt(s, v)| then Some(QueueAt(s, v)[m]) else None
  }

  lemma TurnStep(s: Sys, a: Action, v: nat, m: nat, t: Task)
    requires TaskAt(s, v, Has(PopsAt(s, a, v)) + m) == Some(t)
    ensures TaskAt(After(s, a), v, m) == Some(t)
  {
    if Can(s, a) && v < |s.ws| {
      StepInLine(s, a, v);
    }
  }

  // Every task waits its turn: whatever is done, it then stands behind m others if it stood behind those
  // and the ones taken on the way.
  lemma {:induction false} WaitsItsTurn(s: Sys, acts: seq<Action>, v: nat, m: nat, t: Task)
    requires TaskAt(s, v, PopCount(s, acts, v) + m) == Some(t)
    ensures TaskAt(AfterAll(s, acts), v, m) == Some(t)
    decreases |acts|
  {
    if acts != [] {
      TurnStep(s, acts[0], v, PopCount(After(s, acts[0]), acts[1..], v) + m, t);
      WaitsItsTurn(After(s, acts[0]), acts[1..], v, m, t);
    }
  }

  // The worker's own step in its loop.
  predicate Turns(a: Action, w: nat) { (a.PopCo? || a.PopDead? || a.PopFunc? || a.PollStart?) && a.w == w }

  // A worker in its loop polls next exactly when it has no task, or the first one is a coroutine that is over.
  // With any other it is busy, and nobody else's step takes it out of its loop.
  lemma LoopTurn(s: Sys, a: Action, w: nat)
    requires Can(s, a) && w < |s.ws| && s.ws[w].mode.Looping?
    ensures var (q, s') := (s.ws[w].queue, Do(s, a));
      && w < |s'.ws|
      && (Turns(a, w) ==>
           && (s'.ws[w].mode.Polling? <==> q == [] || (q[0].CoTask? && (q[0].co in s.cos ==> Finished(s.cos[q[0].co]))))
           && (s'.ws[w].mode.Busy? <==> !s'.ws[w].mode.Polling?))
      && (!Turns(a, w) ==> s'.ws[w].mode.Looping?)
  {
    DoWorkers(s, a);
    if !Turns(a, w) {
      ModeKept(s, a, w);
    }
  }

  lemma ModeKept(s: Sys, a: Action, w: nat)
    requires Can(s, a) && w < |s.ws| && !Turns(a, w) && s.ws[w].mode.Looping?
    ensures w < |Do(s, a).ws| && Do(s, a).ws[w].mode == Looping
  {
    if a.PollEnd? || a.RunWake? || a.RunTimeout? || a.CloseFd? || a.Yield? || a.Finish? {
      ModeKeptByLoop(s, a, w);
    } else {
      ModeKeptByCode(s, a, w);
    }
  }

  lemma ModeKeptByLoop(s: Sys, a: Action, w: nat)
    requires Can(s, a) && w < |s.ws| && s.ws[w].mode.Looping?
    requires a.PollEnd? || a.RunWake? || a.RunTimeout? || a.CloseFd? || a.Yield? || a.Finish?
    ensures w < |Do(s, a).ws| && Do(s, a).ws[w].mode == Looping
  {
  }

  lemma ModeKeptByCode(s: Sys, a: Action, w: nat)
    requires Can(s, a) && w < |s.ws| && !Turns(a, w) && s.ws[w].mode.Looping?
    requires !(a.PollEnd? || a.RunWake? || a.RunTimeout? || a.CloseFd? || a.Yield? || a.Finish?)
    ensures w < |Do(s, a).ws| && Do(s, a).ws[w].mode == Looping
  {
  }

  // ---- functions ----

  // A popped function runs at this worker, on a coroutine of its own.
  lemma PoppedRuns(s: Sys, wh: Where, w: nat, born: CoId)
    requires Good(s, wh) && Can(s, PopFunc(w, born))
    ensures var s' := Do(s, PopFunc(w, born));
         && Runs(s', w) && FuncTask(CurCo(s', w).func) == s.ws[w].queue[0]
         && CurCo(s', w).state == RUNNING && CurCo(s', w).home == w && CurCo(s', w).phase == Free
         && (Cur(s', w) in s.cos ==> Finished(s.cos[Cur(s', w)]))
  {
    if s.ws[w].coFunc.Some? {
      ReusesFinishedOnly(s, wh, w);
    }
  }

  // The function with this name is held by no timer and no poller.
  ghost predicate NoSource(s: Sys, id: nat) {
    && (forall t | t in s.timers :: s.timers[t].func != User(id))
    && (forall v: nat, k | v < |s.ws| && k in s.ws[v].poller.armed :: s.ws[v].poller.armed[k] != FuncTask(User(id)))
  }

  // The program gives this name to nothing but functions it enqueues.
  ghost predicate OnlyEnqueued(a: Action, id: nat) {
    && (a.StartTimer? ==> a.id != id)
    && (a.WatchFd? ==> a.id != id)
  }

  lemma NotOut(s: Sys, v: nat, e: Effect, id: nat)
    requires NoSource(s, id) && v < |s.ws| && Conserves(s.ws[v].poller, e)
    ensures FuncTask(User(id)) !in TasksOf(e.out)
    ensures forall k | k in e.poller.armed :: e.poller.armed[k] != FuncTask(User(id))
  {
    if FuncTask(User(id)) in TasksOf(e.out) {
      OutTasks(s.ws[v].poller, e, FuncTask(User(id)));
    }
    forall k | k in e.poller.armed ensures e.poller.armed[k] != FuncTask(User(id)) {
      StillArmed(s.ws[v].poller, e, k);
    }
  }

  // The steps that hand out what pollers and timers hold.
  ghost predicate Delivers(a: Action) { a.PollEnd? || a.RunTimeout? || a.CloseFd? }

  // The worker v's poller after the step, as a call on it.
  ghost function EffectOf(s: Sys, a: Action): Effect
    requires Can(s, a) && Delivers(a)
  {
    match a
    case PollEnd(w, due, events) => Wait(s.ws[w].poller, events)
    case RunTimeout(w) => Take(s.ws[w].poller, CurCo(s, w).func.fd, CurCo(s, w).func.dir)
    case CloseFd(w, fd) => TakeAll(s.ws[w].poller, fd)
  }

  lemma EffectConserves(s: Sys, a: Action)
    requires Can(s, a) && Delivers(a)
    ensures Conserves(s.ws[a.w].poller, EffectOf(s, a))
  {
    match a
    case PollEnd(w, due, events) => WaitConservesAll(s.ws[w].poller, events);
    case RunTimeout(w) => TakeConservesAll(s.ws[w].poller, CurCo(s, w).func.fd, CurCo(s, w).func.dir);
    case CloseFd(w, fd) => TakeAllConservesAll(s.ws[w].poller, fd);
  }

  lemma TimersStay(s: Sys, a: Action, id: nat)
    requires Can(s, a) && NoSource(s, id) && OnlyEnqueued(a, id) && !Delivers(a)
    ensures forall t | t in Do(s, a).timers :: Do(s, a).timers[t].func != User(id)
  {
  }

  lemma PollersSame(s: Sys, a: Action, v: nat)
    requires Can(s, a) && v < |s.ws| && !Delivers(a) && !a.WatchFd? && !a.IoRegister?
    ensures v < |Do(s, a).ws| && Do(s, a).ws[v].poller == s.ws[v].poller
  {
  }

  lemma PollersAdd(s: Sys, a: Action, id: nat, v: nat, k: Key)
    requires Can(s, a) && NoSource(s, id) && OnlyEnqueued(a, id) && (a.WatchFd? || a.IoRegister?)
    requires v < |Do(s, a).ws| == |s.ws| && k in Do(s, a).ws[v].poller.armed
    ensures Do(s, a).ws[v].poller.armed[k] != FuncTask(User(id))
  {
  }

  lemma SourcesStay(s: Sys, a: Action, id: nat)
    requires Can(s, a) && NoSource(s, id) && OnlyEnqueued(a, id) && !Delivers(a)
    ensures NoSource(Do(s, a), id)
  {
    var s' := Do(s, a);
    DoWorkers(s, a);
    TimersStay(s, a, id);
    forall v: nat, k | v < |s'.ws| && k in s'.ws[v].poller.armed
      ensures s'.ws[v].poller.armed[k] != FuncTask(User(id)) {
      if a.WatchFd? || a.IoRegister? {
        PollersAdd(s, a, id, v, k);
      } else {
        PollersSame(s, a, v);
      }
    }
  }

  lemma SourcesDeliver(s: Sys, a: Action, id: nat)
    requires Can(s, a) && NoSource(s, id) && Delivers(a)
    ensures NoSource(Do(s, a), id)
  {
    var s' := Do(s, a);
    EffectConserves(s, a);
    NotOut(s, a.w, EffectOf(s, a), id);
    forall v: nat, k | v < |s'.ws| && k in s'.ws[v].poller.armed
      ensures s'.ws[v].poller.armed[k] != FuncTask(User(id)) {
      assert s'.ws[v].poller.armed == s.ws[v].poller.armed
          || (v == a.w && s'.ws[v].poller.armed == EffectOf(s, a).poller.armed);
    }
  }

  // How often the function stands in worker w's queue.
  ghost function Queued(s: Sys, w: nat, id: nat): nat {
    multiset(QueueAt(s, w))[FuncTask(User(id))]
  }

  // The step makes worker w run the function.
  ghost predicate RunsNow(s: Sys, a: Action, w: nat, id: nat) {
    a.PopFunc? && a.w == w && Can(s, a) && var s' := Do(s, a); Runs(s', w) && CurCo(s', w).func == User(id)
  }

  lemma PushedNone(q: seq<Task>, ts: seq<Task>, t: Task)
    requires t !in ts
    ensures multiset(q + ts)[t] == multiset(q)[t]
  {
    PushTasks(q, ts, t);
  }

  lemma PollAppends(s: Sys, a: Action)
    requires Can(s, a) && a.PollEnd?
    ensures Do(s, a).ws[a.w].queue == s.ws[a.w].queue + (Fired(s.timers, a.due) + TasksOf(EffectOf(s, a).out))
    ensures forall v | 0 <= v < |s.ws| && v != a.w :: Do(s, a).ws[v].queue == s.ws[v].queue
  {
    Assoc(s.ws[a.w].queue, Fired(s.timers, a.due), TasksOf(EffectOf(s, a).out));
  }

  lemma EffectAppends(s: Sys, a: Action)
    requires Can(s, a) && (a.RunTimeout? || a.CloseFd?)
    ensures Do(s, a).ws[a.w].queue == s.ws[a.w].queue || Do(s, a).ws[a.w].queue == s.ws[a.w].queue + TasksOf(EffectOf(s, a).out)
    ensures forall v | 0 <= v < |s.ws| && v != a.w :: Do(s, a).ws[v].queue == s.ws[v].queue
  {
  }

  lemma AppendedNone(s: Sys, s': Sys, v: nat, ts: seq<Task>, w: nat, id: nat)
    requires |s'.ws| == |s.ws| && v < |s.ws| && FuncTask(User(id)) !in ts
    requires s'.ws[v].queue == s.ws[v].queue || s'.ws[v].queue == s.ws[v].queue + ts
    requires forall x | 0 <= x < |s.ws| && x != v :: s'.ws[x].queue == s.ws[x].queue
    ensures Queued(s', w, id) == Queued(s, w, id)
  {
    PushedNone(s.ws[v].queue, ts, FuncTask(User(id)));
  }

  lemma FiresNone(s: Sys, due: seq<TimerId>, id: nat)
    requires NoSource(s, id) && forall t | t in due :: t in s.timers
    ensures FuncTask(User(id)) !in Fired(s.timers, due)
  {
    FiredAre(s.timers, due);
  }

  lemma PollGivesNone(s: Sys, a: Action, w: nat, id: nat)
    requires Can(s, a) && a.PollEnd? && NoSource(s, id) && FuncTask(User(id)) !in TasksOf(EffectOf(s, a).out)
    ensures Queued(Do(s, a), w, id) == Queued(s, w, id)
  {
    FiresNone(s, a.due, id);
    PollAppends(s, a);
    DoWorkers(s, a);
    AppendedNone(s, Do(s, a), a.w, Fired(s.timers, a.due) + TasksOf(EffectOf(s, a).out), w, id);
  }

  lemma EffectGivesNone(s: Sys, a: Action, w: nat, id: nat)
    requires Can(s, a) && (a.RunTimeout? || a.CloseFd?) && FuncTask(User(id)) !in TasksOf(EffectOf(s, a).out)
    ensures Queued(Do(s, a), w, id) == Queued(s, w, id)
  {
    EffectAppends(s, a);
    DoWorkers(s, a);
    AppendedNone(s, Do(s, a), a.w, TasksOf(EffectOf(s, a).out), w, id);
  }

  lemma DeliversNone(s: Sys, a: Action, w: nat, id: nat)
    requires Can(s, a) && NoSource(s, id) && Delivers(a)
    ensures Queued(Do(s, a), w, id) == Queued(s, w, id)
  {
    EffectConserves(s, a);
    NotOut(s, a.w, EffectOf(s, a), id);
    if a.PollEnd? {
      PollGivesNone(s, a, w, id);
    } else {
      EffectGivesNone(s, a, w, id);
    }
  }

  lemma PopTakesOne(s: Sys, a: Action, w: nat, id: nat)
    requires Can(s, a) && (a.PopCo? || a.PopDead? || a.PopFunc?)
    ensures Queued(s, w, id) == Queued(Do(s, a), w, id) + Has(RunsNow(s, a, w, id))
  {
    PopHead(s.ws[a.w].queue, FuncTask(User(id)));
  }

  lemma QuietSteps(s: Sys, a: Action, w: nat)
    requires Can(s, a) && !Delivers(a) && !a.PopCo? && !a.PopDead? && !a.PopFunc?
    requires !a.Enqueue? && !a.EnqueueCo? && !a.RunWake?
    ensures QueueAt(Do(s, a), w) == QueueAt(s, w)
  {
  }

  // The steps that push one task.
  ghost function Pushed(s: Sys, a: Action): (nat, Task)
    requires Can(s, a) && (a.Enqueue? || a.EnqueueCo? || a.RunWake?)
  {
    match a
    case Enqueue(v, x) => (v, FuncTask(User(x)))
    case EnqueueCo(v, born) => (v, CoTask(born))
    case RunWake(v) => (CurCo(s, v).func.home, CoTask(CurCo(s, v).func.co))
  }

  lemma PushesOne(s: Sys, a: Action)
    requires Can(s, a) && (a.Enqueue? || a.EnqueueCo? || a.RunWake?)
    ensures var ((v, t), s') := (Pushed(s, a), Do(s, a));
      && |s'.ws| == |s.ws| && v < |s.ws| && s'.ws[v].queue == s.ws[v].queue + [t]
      && forall x | 0 <= x < |s.ws| && x != v :: s'.ws[x].queue == s.ws[x].queue
  {
    if a.RunWake? {
      assert forall x | 0 <= x < |s.ws| :: Over(s, a.w, DONE).ws[x].queue == s.ws[x].queue;
    }
  }

  lemma OneMore(s: Sys, s': Sys, v: nat, t: Task, w: nat, id: nat)
    requires |s'.ws| == |s.ws| && v < |s.ws| && s'.ws[v].queue == s.ws[v].queue + [t]
    requires forall x | 0 <= x < |s.ws| && x != v :: s'.ws[x].queue == s.ws[x].queue
    ensures Queued(s', w, id) == Queued(s, w, id) + Has(v == w && t == FuncTask(User(id)))
  {
    PushTasks(s.ws[v].queue, [t], FuncTask(User(id)));
    assert multiset([t])[FuncTask(User(id))] == Has(t == FuncTask(User(id)));
  }

  lemma OtherSteps(s: Sys, a: Action, w: nat, id: nat)
    requires Can(s, a) && !Delivers(a) && !a.PopCo? && !a.PopDead? && !a.PopFunc?
    ensures Queued(Do(s, a), w, id) == Queued(s, w, id) + Has(a == Enqueue(w, id))
  {
    if a.Enqueue? || a.EnqueueCo? || a.RunWake? {
      PushesOne(s, a);
      OneMore(s, Do(s, a), Pushed(s, a).0, Pushed(s, a).1, w, id);
    } else {
      QuietSteps(s, a, w);
    }
  }

  lemma StepCounts(s: Sys, a: Action, w: nat, id: nat)
    requires Can(s, a) && NoSource(s, id) && OnlyEnqueued(a, id)
    ensures NoSource(Do(s, a), id)
    ensures Queued(s, w, id) + Has(a == Enqueue(w, id)) == Queued(Do(s, a), w, id) + Has(RunsNow(s, a, w, id))
  {
    if Delivers(a) {
      SourcesDeliver(s, a, id);
      DeliversNone(s, a, w, id);
    } else {
      SourcesStay(s, a, id);
      if a.PopCo? || a.PopDead? || a.PopFunc? {
        PopTakesOne(s, a, w, id);
      } else {
        OtherSteps(s, a, w, id);
      }
    }
  }

  // How often the function was given to worker w, and how often w ran it.
  ghost function Given(n: nat, acts: seq<Action>, w: nat, id: nat): nat {
    if acts == [] then 0
    else
      var (init, a) := (acts[..|acts| - 1], acts[|acts| - 1]);
      Given(n, init, w, id) + Has(Can(Exec(n, init), a) && a == Enqueue(w, id))
  }

  ghost function Ran(n: nat, acts: seq<Action>, w: nat, id: nat): nat {
    if acts == [] then 0
    else
      var (init, a) := (acts[..|acts| - 1], acts[|acts| - 1]);
      Ran(n, init, w, id) + Has(RunsNow(Exec(n, init), a, w, id))
  }

  lemma NoSourceAtFirst(n: nat, id: nat)
    ensures NoSource(Init(n), id) && forall w: nat :: Queued(Init(n), w, id) == 0
  {
  }

  // Over any run: a function given to a worker so many times ran there, and only there, so many times,
  // less those still in its queue.
  lemma {:induction false} GivenRunsOnce(n: nat, acts: seq<Action>, w: nat, id: nat)
    requires forall i | 0 <= i < |acts| :: OnlyEnqueued(acts[i], id)
    ensures NoSource(Exec(n, acts), id)
    ensures Given(n, acts, w, id) == Ran(n, acts, w, id) + Queued(Exec(n, acts), w, id)
  {
    if acts == [] {
      NoSourceAtFirst(n, id);
    } else {
      var init, a := acts[..|acts| - 1], acts[|acts| - 1];
      GivenRunsOnce(n, init, w, id);
      if Can(Exec(n, init), a) {
        StepCounts(Exec(n, init), a, w, id);
      }
    }
  }

  // ---- what a poll pass brings ----

  // The function of every due timer is queued, behind what was queued before.
  lemma PollFires(s: Sys, w: nat, due: seq<TimerId>, events: seq<Report>, j: nat)
    requires Can(s, PollEnd(w, due, events)) && j < |due|
    ensures due[j] in s.timers && FuncTask(s.timers[due[j]].func) in QueueAt(Do(s, PollEnd(w, due, events)), w)
    ensures s.ws[w].queue <= QueueAt(Do(s, PollEnd(w, due, events)), w)
  {
    FiredHas(s.timers, due, j);
    PollAppends(s, PollEnd(w, due, events));
  }

  // Whatever waits for what is reported is queued: a coroutine or a function.
  lemma PollDelivers(s: Sys, wh: Where, w: nat, due: seq<TimerId>, events: seq<Report>, i: nat, d: Dir)
    requires Good(s, wh) && Can(s, PollEnd(w, due, events)) && i < |events|
    requires (events[i].fd, d) in s.ws[w].poller.armed && (d in events[i].events || events[i].errhup)
    ensures var s' := Do(s, PollEnd(w, due, events));
         s.ws[w].poller.armed[(events[i].fd, d)] in QueueAt(s', w)
         && w < |s'.ws| && (events[i].fd, d) !in s'.ws[w].poller.armed
  {
    var p, k := s.ws[w].poller, (events[i].fd, d);
    assert WorkerOk(s, w);
    PassReaches(p, events, i, d);
    OnInTasks(Wait(p, events).out, k);
    PollAppends(s, PollEnd(w, due, events));
  }

  lemma {:induction false} OnInTasks(out: seq<Delivery>, k: Key)
    ensures forall t | t in On(out, k) :: t in TasksOf(out)
  {
    if out != [] {
      OnInTasks(out[1..], k);
    }
  }
}
