// How long things last: a sleeper sleeps as long as it was told to, and a timed wait is given the time it
// asked for (reyao/hook.cc:114-130, 170-212). Stated against the actions that start them.
module Deadlines {
  import opened Prelude
  import opened Tasks
  import opened Timers
  import opened Polling
  import opened Epollers
  import opened Runtime
  import opened Ownership
  import opened Timeouts

  // ---- who changes a coroutine ----

  // The action is a step of coroutine c, or resumes or reuses it.
  ghost predicate Acts(s: Sys, a: Action, c: CoId)
    requires Can(s, a)
  {
    match a
    case PopCo(w) => s.ws[w].queue[0].co == c
    case PopFunc(w, born) => FuncCo(s, w, born) == c
    case RunWake(w) => Cur(s, w) == c
    case RunTimeout(w) => Cur(s, w) == c
    case Sleep(w, _) => Cur(s, w) == c
    case IoStart(w, _) => Cur(s, w) == c
    case IoRegister(w, _) => Cur(s, w) == c
    case Yield(w) => Cur(s, w) == c
    case IoReturn(w, _) => Cur(s, w) == c
    case Finish(w, _) => Cur(s, w) == c
    case _ => false
  }

  // c is the same after the step.
  ghost predicate Leaves(s: Sys, s': Sys, c: CoId) { c in s.cos && c in s'.cos && s'.cos[c] == s.cos[c] }

  lemma WorkersLeave(s: Sys, a: Action, c: CoId)
    requires Can(s, a) && c in s.cos && !Acts(s, a, c) && OfWorker(a)
    ensures Leaves(s, Do(s, a), c)
  {
  }

  lemma CallsLeave(s: Sys, a: Action, c: CoId)
    requires Can(s, a) && c in s.cos && !Acts(s, a, c) && (a.IoStart? || a.IoRegister? || a.IoReturn?)
    ensures Leaves(s, Do(s, a), c)
  {
  }

  lemma RestLeaves(s: Sys, a: Action, c: CoId)
    requires Can(s, a) && c in s.cos && !Acts(s, a, c) && !OfWorker(a)
    requires !(a.IoStart? || a.IoRegister? || a.IoReturn?)
    ensures Leaves(s, Do(s, a), c)
  {
  }

  lemma OthersLeave(s: Sys, a: Action, c: CoId)
    requires Can(s, a) && c in s.cos && !Acts(s, a, c)
    ensures c in Do(s, a).cos && Do(s, a).cos[c] == s.cos[c]
  {
    if OfWorker(a) {
      WorkersLeave(s, a, c);
    } else if a.IoStart? || a.IoRegister? || a.IoReturn? {
      CallsLeave(s, a, c);
    } else {
      RestLeaves(s, a, c);
    }
  }

  // c is resumed.
  ghost predicate Resumes(s: Sys, a: Action, c: CoId) { a.PopCo? && Can(s, a) && s.ws[a.w].queue[0].co == c }

  // c is suspended, or about to be.
  ghost predicate Parked(x: Coro) { x.state == SUSPEND || (x.state == RUNNING && (x.phase.Sleeping? || x.phase.IoWait?)) }

  // A parked coroutine yields or is resumed; it does nothing else.
  lemma ParkedActs(s: Sys, wh: Where, a: Action, c: CoId)
    requires Good(s, wh) && Can(s, a) && c in s.cos && Parked(s.cos[c]) && Acts(s, a, c)
    ensures a.Yield? || Resumes(s, a, c)
  {
    assert CoroOk(s, c);
    FinishedOnly(s, wh, a);
  }

  // A coroutine that is reused is finished.
  lemma FinishedOnly(s: Sys, wh: Where, a: Action)
    requires Good(s, wh) && Can(s, a)
    ensures a.PopFunc? && FuncCo(s, a.w, a.born) in s.cos ==> Finished(s.cos[FuncCo(s, a.w, a.born)])
  {
    if a.PopFunc? && s.ws[a.w].coFunc.Some? {
      ReusesFinishedOnly(s, wh, a.w);
    }
  }

  lemma ParkedStays(s: Sys, wh: Where, a: Action, c: CoId)
    requires Good(s, wh) && Can(s, a) && c in s.cos && Parked(s.cos[c]) && !Resumes(s, a, c)
    ensures var s' := Do(s, a); c in s'.cos && Parked(s'.cos[c]) && s'.cos[c].phase == s.cos[c].phase
  {
    if Acts(s, a, c) {
      ParkedActs(s, wh, a, c);
    } else {
      OthersLeave(s, a, c);
    }
  }

  // No resumption of c from step i on.
  ghost predicate NotResumed(n: nat, acts: seq<Action>, i: nat, c: CoId) {
    forall j | i <= j < |acts| :: !Resumes(Exec(n, acts[..j]), acts[j], c)
  }

  lemma NotResumedInit(n: nat, acts: seq<Action>, i: nat, c: CoId)
    requires NotResumed(n, acts, i, c) && i < |acts|
    ensures NotResumed(n, acts[..|acts| - 1], i, c) && acts[..|acts| - 1][..i] == acts[..i]
    ensures !Resumes(Exec(n, acts[..|acts| - 1]), acts[|acts| - 1], c)
  {
    var init := acts[..|acts| - 1];
    forall j | i <= j < |init| ensures !Resumes(Exec(n, init[..j]), init[j], c) {
      assert init[..j] == acts[..j];
    }
  }

  lemma {:induction false} StaysParked(n: nat, acts: seq<Action>, i: nat, c: CoId)
    requires i <= |acts| && NotResumed(n, acts, i, c)
    requires var s0 := Exec(n, acts[..i]); c in s0.cos && Parked(s0.cos[c])
    ensures var (s, s0) := (Exec(n, acts), Exec(n, acts[..i]));
         c in s.cos && Parked(s.cos[c]) && s.cos[c].phase == s0.cos[c].phase
  {
    if i == |acts| {
      assert acts[..i] == acts;
    } else {
      var init, a := acts[..|acts| - 1], acts[|acts| - 1];
      NotResumedInit(n, acts, i, c);
      StaysParked(n, init, i, c);
      if Can(Exec(n, init), a) {
        var wh := Reachable(n, init);
        ParkedStays(Exec(n, init), wh, a, c);
      }
    }
  }

  // ---- sleep ----

  lemma SleepStarts(s: Sys, wh: Where, w: nat, ms: int)
    requires Good(s, wh) && Can(s, Sleep(w, ms))
    ensures var (c, s') := (Cur(s, w), Do(s, Sleep(w, ms)));
         c in s'.cos && Parked(s'.cos[c]) && s'.cos[c].phase == Sleeping(s.now + ms)
  {
    assert WorkerOk(s, w);
  }

  // However the run goes on, until it is resumed the sleeper sleeps towards `ms` after it went to sleep;
  // before that moment its timer alone holds it, and that timer is due at that moment.
  lemma SleepsUntil(n: nat, acts: seq<Action>, i: nat, w: nat, ms: int)
    requires i < |acts| && acts[i] == Sleep(w, ms) && Can(Exec(n, acts[..i]), acts[i])
    requires NotResumed(n, acts, i + 1, Cur(Exec(n, acts[..i]), w))
    ensures var (s0, s) := (Exec(n, acts[..i]), Exec(n, acts));
            var c := Cur(s0, w);
         && c in s.cos && s.cos[c].phase == Sleeping(s0.now + ms)
         && (s.now < s0.now + ms ==>
               exists t :: Held(s, InTimer(t), c) == 1 && t in s.timers && s.timers[t].expire == s0.now + ms
                           && forall q: Place :: q != InTimer(t) ==> Held(s, q, c) == 0)
  {
    SleepGoesOn(n, acts, i, w, ms);
    if Exec(n, acts).now < Exec(n, acts[..i]).now + ms {
      NoEarlyWakeup(n, acts, Cur(Exec(n, acts[..i]), w));
    }
  }

  lemma SleepGoesOn(n: nat, acts: seq<Action>, i: nat, w: nat, ms: int)
    requires i < |acts| && acts[i] == Sleep(w, ms) && Can(Exec(n, acts[..i]), acts[i])
    requires NotResumed(n, acts, i + 1, Cur(Exec(n, acts[..i]), w))
    ensures var (s0, s) := (Exec(n, acts[..i]), Exec(n, acts));
         Cur(s0, w) in s.cos && s.cos[Cur(s0, w)].phase == Sleeping(s0.now + ms)
  {
    var s0 := Exec(n, acts[..i]);
    var wh := Reachable(n, acts[..i]);
    SleepStarts(s0, wh, w, ms);
    assert acts[..i + 1][..i] == acts[..i] && Exec(n, acts[..i + 1]) == Do(s0, acts[i]);
    StaysParked(n, acts, i + 1, Cur(s0, w));
  }

  // So it is never resumed before.
  lemma NeverResumedEarly(n: nat, acts: seq<Action>, i: nat, w: nat, ms: int, v: nat)
    requires i < |acts| && acts[i] == Sleep(w, ms) && Can(Exec(n, acts[..i]), acts[i])
    requires NotResumed(n, acts, i + 1, Cur(Exec(n, acts[..i]), w))
    requires Resumes(Exec(n, acts), PopCo(v), Cur(Exec(n, acts[..i]), w))
    ensures Exec(n, acts).now >= Exec(n, acts[..i]).now + ms
  {
    var s, c := Exec(n, acts), Cur(Exec(n, acts[..i]), w);
    SleepsUntil(n, acts, i, w, ms);
    var wh := Reachable(n, acts);
    QueuedIsHeld(s, wh, v, CoTask(c));
  }

  // ---- timed waits ----

  // c leaves its call: it returns from the wait, or its registration is refused.
  ghost predicate Ends(s: Sys, a: Action, c: CoId) {
    && Can(s, a)
    && ((a.IoReturn? && Cur(s, a.w) == c) || (a.IoRegister? && Cur(s, a.w) == c && !Registration(s, a.w, a.accepted).ok))
  }

  ghost predicate SameCall(p: Phase, q: Phase) {
    InCall(p) && InCall(q) && p.tinfo == q.tinfo && p.timer == q.timer && p.io == q.io
  }

  lemma CallStays(s: Sys, wh: Where, a: Action, c: CoId)
    requires Good(s, wh) && Can(s, a) && Calling(s, c) && !Ends(s, a, c)
    ensures var s' := Do(s, a); Calling(s', c) && SameCall(s.cos[c].phase, s'.cos[c].phase)
  {
    assert CoroOk(s, c);
    FinishedOnly(s, wh, a);
    if !Acts(s, a, c) {
      OthersLeave(s, a, c);
    }
  }

  // No call but c's has timer t.
  ghost predicate OnlyTimerOf(s: Sys, c: CoId, t: TimerId) {
    t < s.nextTimer && forall y | y in s.cos && y != c :: TimerOf(s.cos[y].phase) != Some(t)
  }

  // A step gives a coroutine a new timer, or none, or leaves it the one it has.
  ghost predicate TimerStep(s: Sys, s': Sys, y: CoId)
    requires y in s'.cos
  {
    var t := TimerOf(s'.cos[y].phase);
    t == None || t == Some(s.nextTimer) || (y in s.cos && t == TimerOf(s.cos[y].phase))
  }

  lemma TimerSet(s: Sys, w: nat, tinfo: TInfo, io: Io, y: CoId)
    requires Runs(s, w) && y in SetIoTimer(s, w, tinfo, io).cos
    ensures TimerStep(s, SetIoTimer(s, w, tinfo, io), y)
  {
  }

  lemma TimerOfStart(s: Sys, w: nat, io: Io, y: CoId)
    requires Can(s, IoStart(w, io)) && y in Do(s, IoStart(w, io)).cos
    ensures TimerStep(s, Do(s, IoStart(w, io)), y)
  {
    IoStartIs(s, w, io);
    TimerSet(Noted(s, Cur(s, w)), w, s.nextInfo, io, y);
  }

  lemma TimerOfReturn(s: Sys, w: nat, again: bool, y: CoId)
    requires Can(s, IoReturn(w, again)) && y in Do(s, IoReturn(w, again)).cos
    ensures TimerStep(s, Do(s, IoReturn(w, again)), y)
  {
    var p := CurCo(s, w).phase;
    if again && p.tinfo in s.infos && !s.infos[p.tinfo].cancelled {
      TimerSet(WithoutTimer(s, p.timer), w, p.tinfo, p.io, y);
    }
  }

  lemma TimerOfRegister(s: Sys, a: Action, y: CoId)
    requires Can(s, a) && y in Do(s, a).cos && a.IoRegister?
    ensures TimerStep(s, Do(s, a), y)
  {
  }

  lemma TimerOfOthers(s: Sys, a: Action, y: CoId)
    requires Can(s, a) && y in Do(s, a).cos && !(a.IoStart? || a.IoRegister? || a.IoReturn?)
    ensures TimerStep(s, Do(s, a), y)
  {
  }

  lemma TimerOfStep(s: Sys, a: Action, y: CoId)
    requires Can(s, a) && y in Do(s, a).cos
    ensures TimerStep(s, Do(s, a), y)
  {
    match a
    case IoStart(w, io) => TimerOfStart(s, w, io, y);
    case IoReturn(w, again) => TimerOfReturn(s, w, again, y);
    case IoRegister(_, _) => TimerOfRegister(s, a, y);
    case _ => TimerOfOthers(s, a, y);
  }

  lemma NextTimerGrows(s: Sys, a: Action)
    requires Can(s, a)
    ensures s.nextTimer <= Do(s, a).nextTimer && s.now <= Do(s, a).now
  {
  }

  lemma OnlyTimerStays(s: Sys, a: Action, c: CoId, t: TimerId)
    requires Can(s, a) && OnlyTimerOf(s, c, t)
    ensures OnlyTimerOf(Do(s, a), c, t)
  {
    var s' := Do(s, a);
    NextTimerGrows(s, a);
    forall y | y in s'.cos && y != c ensures TimerOf(s'.cos[y].phase) != Some(t) {
      TimerOfStep(s, a, y);
    }
  }

  // A timeout leaves the timers when it is due, or when its call ends; until then it does not change.
  lemma TimeoutStays(s: Sys, a: Action, c: CoId, t: TimerId)
    requires Can(s, a) && OnlyTimerOf(s, c, t) && !Ends(s, a, c)
    requires t in s.timers && s.timers[t].func.IoTimeout? && !s.timers[t].recursive
    ensures var s' := Do(s, a);
         if t in s'.timers then s'.timers[t] == s.timers[t] else s.timers[t].expire <= s.now
  {
    if a.PollEnd? {
      assert Do(s, a).timers == AfterExpiry(s.timers, s.now);
    }
  }

  lemma TimeoutNotBack(s: Sys, a: Action, t: TimerId)
    requires Can(s, a) && t !in s.timers && t < s.nextTimer
    ensures t !in Do(s, a).timers
  {
    if OfWorker(a) {
      WorkersAddNone(s, a);
    } else if a.IoReturn? {
      assert t !in WithoutTimer(s, CurCo(s, a.w).phase.timer).timers;
    }
  }

  lemma WorkersAddNone(s: Sys, a: Action)
    requires Can(s, a) && OfWorker(a)
    ensures forall t | t in Do(s, a).timers :: t in s.timers
  {
  }

  // c is in the call it made with these arguments, whose timer was due at e.expire.
  ghost predicate InTimedCall(s: Sys, c: CoId, p: Phase, e: Entry)
    requires InCall(p) && p.timer.Some?
  {
    && Calling(s, c) && SameCall(p, s.cos[c].phase) && OnlyTimerOf(s, c, p.timer.value)
    && (if p.timer.value in s.timers then s.timers[p.timer.value] == e else e.expire <= s.now)
  }

  lemma TimedCallStays(s: Sys, wh: Where, a: Action, c: CoId, p: Phase, e: Entry)
    requires InCall(p) && p.timer.Some? && e.func.IoTimeout? && !e.recursive
    requires Good(s, wh) && Can(s, a) && !Ends(s, a, c) && InTimedCall(s, c, p, e)
    ensures InTimedCall(Do(s, a), c, p, e)
  {
    CallStays(s, wh, a, c);
    OnlyTimerStays(s, a, c, p.timer.value);
    NextTimerGrows(s, a);
    if p.timer.value in s.timers {
      TimeoutStays(s, a, c, p.timer.value);
    } else {
      TimeoutNotBack(s, a, p.timer.value);
    }
  }

  // The action starts a wait of the running coroutine with these arguments: a new call, or another
  // attempt of one that was not told about a timeout.
  ghost predicate StartsWait(s: Sys, a: Action, io: Io) {
    && Can(s, a)
    && ((a.IoStart? && a.io == io)
        || (a.IoReturn? && a.again && CurCo(s, a.w).phase.io == io
            && CurCo(s, a.w).phase.tinfo in s.infos && !s.infos[CurCo(s, a.w).phase.tinfo].cancelled))
  }

  // What it starts: a wait for what was asked for, with a new timer that is due after the time asked for,
  // or with no timer if none was.
  lemma WaitStarts(s: Sys, wh: Where, a: Action, io: Io)
    requires Good(s, wh) && StartsWait(s, a, io)
    ensures var (c, s') := (Cur(s, a.w), Do(s, a));
      && Calling(s', c) && s'.cos[c].phase.IoSet? && s'.cos[c].phase.io == io
      && (match io.timeout
          case None => s'.cos[c].phase.timer == None
          case Some(ms) =>
            var p := s'.cos[c].phase;
            p.timer.Some? && p.timer.value !in s.timers && p.timer.value in s'.timers
            && InTimedCall(s', c, p, Entry(s.now + ms, ms, false, IoTimeout(p.tinfo, io.fd, io.dir))))
  {
    var c, s' := Cur(s, a.w), Do(s, a);
    assert s.nextTimer !in s.timers;
    WaitSet(s, a, io);
    if io.timeout.Some? {
      OnlyNewTimer(s, wh, a, c);
    }
  }

  lemma WaitSet(s: Sys, a: Action, io: Io)
    requires StartsWait(s, a, io) && s.nextTimer !in s.timers
    ensures var (c, s') := (Cur(s, a.w), Do(s, a));
      && Calling(s', c) && s'.cos[c].phase.IoSet? && s'.cos[c].phase.io == io
      && (match io.timeout
          case None => s'.cos[c].phase.timer == None
          case Some(ms) =>
            var p := s'.cos[c].phase;
            && p.timer == Some(s.nextTimer) && s.nextTimer < s'.nextTimer && s.nextTimer in s'.timers
            && s'.timers[s.nextTimer] == Entry(s.now + ms, ms, false, IoTimeout(p.tinfo, io.fd, io.dir)))
  {
    if a.IoStart? {
      assert Do(s, a) == DoIoStart(s, a.w, a.io);
    } else {
      assert Do(s, a) == DoIoReturn(s, a.w, true);
    }
  }

  lemma OnlyNewTimer(s: Sys, wh: Where, a: Action, c: CoId)
    requires Good(s, wh) && (a.IoStart? || a.IoReturn?) && Can(s, a) && c == Cur(s, a.w)
    requires s.nextTimer < Do(s, a).nextTimer
    ensures OnlyTimerOf(Do(s, a), c, s.nextTimer)
  {
    var s' := Do(s, a);
    forall y | y in s'.cos && y != c ensures TimerOf(s'.cos[y].phase) != Some(s.nextTimer) {
      OthersLeave(s, a, y);
      assert CoroOk(s, y);
    }
  }

  // The wait goes on from step i.
  ghost predicate NotEnded(n: nat, acts: seq<Action>, i: nat, c: CoId) {
    forall j | i <= j < |acts| :: !Ends(Exec(n, acts[..j]), acts[j], c)
  }

  lemma {:induction false} StaysTimed(n: nat, acts: seq<Action>, i: nat, c: CoId, p: Phase, e: Entry)
    requires InCall(p) && p.timer.Some? && e.func.IoTimeout? && !e.recursive
    requires i <= |acts| && NotEnded(n, acts, i, c) && InTimedCall(Exec(n, acts[..i]), c, p, e)
    ensures InTimedCall(Exec(n, acts), c, p, e)
  {
    if i == |acts| {
      assert acts[..i] == acts;
    } else {
      var init, a := acts[..|acts| - 1], acts[|acts| - 1];
      assert forall j | i <= j < |init| :: init[..j] == acts[..j];
      assert init[..i] == acts[..i];
      StaysTimed(n, init, i, c, p, e);
      if Can(Exec(n, init), a) {
        var wh := Reachable(n, init);
        TimedCallStays(Exec(n, init), wh, a, c, p, e);
      }
    }
  }

  // However the run goes on, until the call ends or tries again: it waits for what it asked for, and its
  // timer is pending, due `ms` after it was set, or that moment has passed.
  lemma TimeoutNotEarly(n: nat, acts: seq<Action>, i: nat, io: Io)
    requires i < |acts| && StartsWait(Exec(n, acts[..i]), acts[i], io) && io.timeout.Some?
    requires NotEnded(n, acts, i + 1, Cur(Exec(n, acts[..i]), acts[i].w))
    ensures var (s0, s) := (Exec(n, acts[..i]), Exec(n, acts));
            var c := Cur(s0, acts[i].w);
         && Calling(s, c) && s.cos[c].phase.io == io && s.cos[c].phase.timer.Some?
         && var t := s.cos[c].phase.timer.value;
            if t in s.timers then s.timers[t].expire == s0.now + io.timeout.value && !s.timers[t].recursive
                                  && s.timers[t].func == Fn(s.cos[c].phase)
            else s0.now + io.timeout.value <= s.now
  {
    var s0, a := Exec(n, acts[..i]), acts[i];
    var c := Cur(s0, a.w);
    var wh := Reachable(n, acts[..i]);
    WaitStarts(s0, wh, a, io);
    assert acts[..i + 1][..i] == acts[..i] && Exec(n, acts[..i + 1]) == Do(s0, a);
    var p := Do(s0, a).cos[c].phase;
    StaysTimed(n, acts, i + 1, c, p, Entry(s0.now + io.timeout.value, io.timeout.value, false, IoTimeout(p.tinfo, io.fd, io.dir)));
  }
}
