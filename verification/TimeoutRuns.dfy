// Timed IO waits over whole runs (reyao/hook.cc:106-155): when a coroutine that resumes either still
// has its timer pending or was told about the timeout, never both and never neither.
module TimeoutRuns {
  import opened Prelude
  import opened Tasks
  import opened Timers
  import opened Polling
  import opened PollingRuns
  import opened Epollers
  import opened Runtime
  import opened Ownership
  import opened Timeouts
  import opened TimeoutSteps
  import opened TimeoutPops

  // A poll pass of worker w collects, of the timeouts, only those of calls made at w.
  ghost predicate CollectsHome(s: Sys, w: nat, due: seq<TimerId>) {
    forall t | t in due && t in s.timers && s.timers[t].func.IoTimeout? ::
      var f := s.timers[t].func;
      f.tinfo in s.infos && s.infos[f.tinfo].owner in s.cos ==> s.cos[s.infos[f.tinfo].owner].home == w
  }

  // A run in which every poll pass does so.
  ghost predicate HomeRun(n: nat, acts: seq<Action>) {
    forall i | 0 <= i < |acts| && acts[i].PollEnd? && Can(Exec(n, acts[..i]), acts[i]) ::
      CollectsHome(Exec(n, acts[..i]), acts[i].w, acts[i].due)
  }

  lemma HomeRunPrefix(n: nat, acts: seq<Action>)
    requires HomeRun(n, acts) && acts != []
    ensures HomeRun(n, acts[..|acts| - 1])
    ensures var (s, a) := (Exec(n, acts[..|acts| - 1]), acts[|acts| - 1]);
         a.PollEnd? && Can(s, a) ==> CollectsHome(s, a.w, a.due)
  {
    var init := acts[..|acts| - 1];
    forall i | 0 <= i < |init| && init[i].PollEnd? && Can(Exec(n, init[..i]), init[i])
      ensures CollectsHome(Exec(n, init[..i]), init[i].w, init[i].due) {
      assert init[..i] == acts[..i];
    }
  }

  lemma HomeIsOwn(s: Sys, w: nat, due: seq<TimerId>)
    requires Alarms(s) && CollectsHome(s, w, due)
    ensures OwnTimeouts(s, w, due)
  {
    forall t | t in due && t in s.timers && s.timers[t].func.IoTimeout? ensures OwnedAt(s, w, s.timers[t].func) {
      assert TimerOwned(s, t);
    }
  }

  lemma DoWorkers(s: Sys, a: Action)
    requires Can(s, a)
    ensures |Do(s, a).ws| == |s.ws|
  {
  }

  lemma {:induction false} WorkerCount(n: nat, acts: seq<Action>)
    ensures |Exec(n, acts).ws| == n
  {
    if acts != [] {
      var s, a := Exec(n, acts[..|acts| - 1]), acts[|acts| - 1];
      WorkerCount(n, acts[..|acts| - 1]);
      if Can(s, a) {
        DoWorkers(s, a);
      }
    }
  }

  lemma {:induction false} AlwaysTimely(n: nat, acts: seq<Action>) returns (wh: Where)
    requires n > 0 && HomeRun(n, acts)
    ensures Good(Exec(n, acts), wh) && Timely(Exec(n, acts))
  {
    wh := Reachable(n, acts);
    if acts != [] {
      var s, a := Exec(n, acts[..|acts| - 1]), acts[|acts| - 1];
      HomeRunPrefix(n, acts);
      var wh0 := AlwaysTimely(n, acts[..|acts| - 1]);
      WorkerCount(n, acts[..|acts| - 1]);
      if Can(s, a) {
        if a.PollEnd? {
          HomeIsOwn(s, a.w, a.due);
        }
        TimelyStep(s, wh0, a);
      }
    }
  }

  // Timeout exclusivity, for any number of workers whose poll passes collect the timeouts of their own
  // calls. Whenever a coroutine is back from a timed wait: either its timer is still pending (so cancel
  // answers true) and it was not told about a timeout, or its timer is gone and it was told. In both
  // cases the function is at no worker queued or running, so it cannot reach a later attempt of the
  // same call.
  lemma TimeoutExclusive(n: nat, acts: seq<Action>, w: nat)
    requires n > 0 && HomeRun(n, acts)
    requires CanIoReturn(Exec(n, acts), w) && CurCo(Exec(n, acts), w).phase.timer.Some?
    ensures var s := Exec(n, acts);
            var p := CurCo(s, w).phase;
            && p.tinfo in s.infos
            && (p.timer.value in s.timers <==> !s.infos[p.tinfo].cancelled)
            && (forall v: nat | v < |s.ws| :: FuncTask(Fn(p)) !in s.ws[v].queue && Hand(s, v) != Some(Fn(p)))
            && (forall t | t in s.timers && s.timers[t].func == Fn(p) :: t == p.timer.value)
  {
    var s := Exec(n, acts);
    var wh := AlwaysTimely(n, acts);
    Running(s, wh, w);
    var g := RunningStage(s, w);
    NoneOutAt(s, Cur(s, w), g);
    var p := CurCo(s, w).phase;
    forall t | t in s.timers && s.timers[t].func == Fn(p) ensures t == p.timer.value {
      OwnTimerOnly(s, Cur(s, w), t);
    }
  }

  // The timeout function, when it runs, finds the call it belongs to alive, at this worker and not yet
  // told: the check at reyao/hook.cc:122 never stops it.
  lemma TimeoutRunsOnce(n: nat, acts: seq<Action>, w: nat)
    requires n > 0 && HomeRun(n, acts) && CanRunTimeout(Exec(n, acts), w)
    ensures var s := Exec(n, acts);
            var f := CurCo(s, w).func;
            && f.tinfo in s.infos && !s.infos[f.tinfo].cancelled
            && var c := s.infos[f.tinfo].owner;
               c in s.cos && s.cos[c].home == w && s.cos[c].state == SUSPEND
               && s.cos[c].phase.IoWait? && Fn(s.cos[c].phase) == f
  {
    var s := Exec(n, acts);
    var wh := AlwaysTimely(n, acts);
    TimeoutFindsCall(s, w);
    assert CoroOk(s, s.infos[CurCo(s, w).func.tinfo].owner);
  }

  // With one worker every pass collects its own calls' timeouts.
  lemma SingleIsHome(acts: seq<Action>)
    ensures HomeRun(1, acts)
  {
    forall i | 0 <= i < |acts| && acts[i].PollEnd? && Can(Exec(1, acts[..i]), acts[i])
      ensures CollectsHome(Exec(1, acts[..i]), acts[i].w, acts[i].due) {
      var s := Exec(1, acts[..i]);
      var wh := Reachable(1, acts[..i]);
      WorkerCount(1, acts[..i]);
      assert forall c | c in s.cos :: CoroOk(s, c);
    }
  }

  // The property at one state and worker: a coroutine that is back from a timed wait.
  ghost predicate Told(s: Sys, w: nat) {
    CanIoReturn(s, w) && CurCo(s, w).phase.timer.Some? ==>
      var p := CurCo(s, w).phase;
      p.tinfo in s.infos && (p.timer.value in s.timers <==> !s.infos[p.tinfo].cancelled)
  }

  // ---- without the condition: a run that loses ----

  lemma ExecMore(n: nat, acts: seq<Action>, a: Action)
    requires Can(Exec(n, acts), a)
    ensures Exec(n, acts + [a]) == Do(Exec(n, acts), a)
  {
    assert (acts + [a])[..|acts|] == acts;
  }

  // The state, as far as workers 0 and 1 see it.
  ghost predicate Snap(s: Sys, now: int, x: Option<Coro>, timers: map<TimerId, Entry>, infos: map<TInfo, Info>,
                       w0: Worker, w1: Worker) {
    && |s.ws| >= 2 && s.now == now && s.ws[0] == w0 && s.ws[1] == w1 && s.timers == timers && s.infos == infos
    && s.cos == (if x.Some? then map[0 := x.value] else map[])
  }

  const READ := Io(5, In, Some(10))
  const IDLE := Worker([], Poller(map[], map[]), Looping, None)
  const ARMED := Poller(map[(5, In) := CoTask(0)], map[5 := {In}])
  const TEN := map[0 := Entry(10, 10, false, IoTimeout(0, 5, In))]

  ghost function Reading(st: State, p: Phase): Option<Coro> { Some(Coro(st, 0, User(0), p)) }

  // Worker 0 starts a read with a timeout of 10 ms ...
  lemma RaceStarts(n: nat) returns (acts: seq<Action>)
    requires n >= 2
    ensures var s := Exec(n, acts);
            s.nextTimer == 0 && s.nextInfo == 0 &&
            Snap(s, 0, Reading(RUNNING, Free), map[], map[], IDLE.(mode := Busy(0)), IDLE)
  {
    acts := [];
    ExecMore(n, acts, EnqueueCo(0, 0));
    acts := acts + [EnqueueCo(0, 0)];
    assert Exec(n, acts).ws[0] == IDLE.(queue := [CoTask(0)]);
    ExecMore(n, acts, PopCo(0));
    acts := acts + [PopCo(0)];
  }

  // ... and waits for it.
  lemma RaceSets(n: nat) returns (acts: seq<Action>)
    requires n >= 2
    ensures Snap(Exec(n, acts), 0, Reading(RUNNING, IoSet(0, Some(0), READ)), TEN, map[0 := Info(false, 0)],
                 IDLE.(mode := Busy(0)), IDLE)
  {
    acts := RaceStarts(n);
    ExecMore(n, acts, IoStart(0, READ));
    acts := acts + [IoStart(0, READ)];
  }

  lemma RaceRegisters(n: nat) returns (acts: seq<Action>)
    requires n >= 2
    ensures Snap(Exec(n, acts), 0, Reading(RUNNING, IoWait(0, Some(0), READ)), TEN, map[0 := Info(false, 0)],
                 IDLE.(mode := Busy(0), poller := ARMED), IDLE)
  {
    acts := RaceSets(n);
    var s := Exec(n, acts);
    assert s.ws[0].poller.Types(5) == {};
    assert Registration(s, 0, true).ok;
    ExecMore(n, acts, IoRegister(0, true));
    acts := acts + [IoRegister(0, true)];
    assert s.ws[0].poller.Types(5) + {In} == {In};
  }

  lemma RaceWaits(n: nat) returns (acts: seq<Action>)
    requires n >= 2
    ensures Snap(Exec(n, acts), 0, Reading(SUSPEND, IoWait(0, Some(0), READ)), TEN, map[0 := Info(false, 0)],
                 IDLE.(mode := Polling, poller := ARMED), IDLE)
  {
    acts := RaceRegisters(n);
    ExecMore(n, acts, Yield(0));
    acts := acts + [Yield(0)];
    ExecMore(n, acts, PollStart(0));
    acts := acts + [PollStart(0)];
  }

  const READABLE := Report(5, {In}, false)

  lemma ArmedWait()
    ensures Wait(ARMED, [READABLE]) == Effect(Poller(map[], map[]), true, [Delivery((5, In), CoTask(0))])
    ensures Reportable(ARMED, [READABLE]) && TasksOf(Wait(ARMED, [READABLE]).out) == [CoTask(0)]
  {
    assert (5, In) in ARMED.armed && In in ARMED.Types(5) && Out !in ARMED.Types(5);
    assert ARMED.Types(5) * {In} == {In} && ARMED.Types(5) - {In} == {};
    var e := Deliver(ARMED, READABLE);
    assert e.out == [Delivery((5, In), CoTask(0))] && e.poller == Poller(map[], map[]);
    assert [READABLE][1..] == [] && e.out[1..] == [];
  }

  lemma NotYetTen()
    ensures AfterExpiry(TEN, 0) == TEN && DueOrder(TEN, 0, []) && Fired(TEN, []) == []
  {
  }

  // The data arrives in time: worker 0 queues the coroutine.
  lemma RaceArrives(n: nat) returns (acts: seq<Action>)
    requires n >= 2
    ensures Snap(Exec(n, acts), 0, Reading(SUSPEND, IoWait(0, Some(0), READ)), TEN, map[0 := Info(false, 0)],
                 IDLE.(queue := [CoTask(0)]), IDLE)
  {
    acts := RaceWaits(n);
    var s := Exec(n, acts);
    NotYetTen();
    ArmedWait();
    assert Can(s, PollEnd(0, [], [READABLE]));
    ExecMore(n, acts, PollEnd(0, [], [READABLE]));
    acts := acts + [PollEnd(0, [], [READABLE])];
  }

  // Before worker 0 gets to the coroutine, 10 ms pass and worker 1 collects the timer.
  lemma RacePolls(n: nat) returns (acts: seq<Action>)
    requires n >= 2
    ensures Snap(Exec(n, acts), 10, Reading(SUSPEND, IoWait(0, Some(0), READ)), TEN, map[0 := Info(false, 0)],
                 IDLE.(queue := [CoTask(0)]), IDLE.(mode := Polling))
  {
    acts := RaceArrives(n);
    ExecMore(n, acts, Tick(10));
    acts := acts + [Tick(10)];
    ExecMore(n, acts, PollStart(1));
    acts := acts + [PollStart(1)];
  }

  lemma TenExpires()
    ensures AfterExpiry(TEN, 10) == map[] && DueOrder(TEN, 10, [0]) && Fired(TEN, [0]) == [FuncTask(IoTimeout(0, 5, In))]
    ensures Wait(IDLE.poller, []) == Effect(IDLE.poller, true, []) && Reportable(IDLE.poller, [])
  {
    assert [0][..0] == [];
  }

  lemma RaceExpires(n: nat) returns (acts: seq<Action>)
    requires n >= 2
    ensures Snap(Exec(n, acts), 10, Reading(SUSPEND, IoWait(0, Some(0), READ)), map[], map[0 := Info(false, 0)],
                 IDLE.(queue := [CoTask(0)]), IDLE.(queue := [FuncTask(IoTimeout(0, 5, In))]))
  {
    acts := RacePolls(n);
    var s := Exec(n, acts);
    TenExpires();
    assert Can(s, PollEnd(1, [0], []));
    ExecMore(n, acts, PollEnd(1, [0], []));
    acts := acts + [PollEnd(1, [0], [])];
  }

  // With two workers or more the property fails: the coroutine is back, its timer is gone, and it was
  // not told; the function still queued at worker 1 will strike a later attempt of the call.
  lemma RaceLost(n: nat) returns (acts: seq<Action>)
    requires n >= 2
    ensures var s := Exec(n, acts);
            && !Told(s, 0) && |s.ws| >= 2 && FuncTask(Fn(CurCo(s, 0).phase)) in s.ws[1].queue
  {
    acts := RaceExpires(n);
    ExecMore(n, acts, PopCo(0));
    acts := acts + [PopCo(0)];
  }

  // Exclusivity holds over all runs exactly with a single worker.
  lemma ExclusiveIffSingleWorker(n: nat)
    requires n >= 1
    ensures (forall acts, w :: Told(Exec(n, acts), w)) <==> n == 1
  {
    if n == 1 {
      forall acts, w: nat ensures Told(Exec(n, acts), w) {
        SingleIsHome(acts);
        if CanIoReturn(Exec(n, acts), w) && CurCo(Exec(n, acts), w).phase.timer.Some? {
          TimeoutExclusive(n, acts, w);
        }
      }
    } else {
      var acts := RaceLost(n);
    }
  }

  // The workers a started Scheduler runs, reyao/scheduler.cc:20-51: its threads and the main worker.
  function StartedWorkers(threads: nat): nat
    requires threads >= 1
  {
    (if threads == 1 then 1 else threads - 1) + 1
  }

  // A Scheduler never runs a single worker, not even for one thread: every one of them can lose.
  lemma EverySchedulerCanLose(threads: nat)
    requires threads >= 1
    ensures exists acts, w :: !Told(Exec(StartedWorkers(threads), acts), w)
  {
    ExclusiveIffSingleWorker(StartedWorkers(threads));
  }
}
