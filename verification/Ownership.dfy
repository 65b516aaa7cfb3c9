// Who holds a coroutine that does not run: in every reachable state exactly one holder.
module Ownership {
  import opened Prelude
  import opened Tasks
  import opened Timers
  import opened Polling
  import opened PollingRuns
  import opened Epollers
  import opened Runtime

  // Everything that can bring a coroutine back.
  datatype Place =
    | InQueue(w: nat)                  // an entry of worker w's queue
    | InEvent(w: nat, key: Key)        // an armed event context of worker w's poller
    | InTimer(t: TimerId)              // the function of a pending sleep timer
    | InFuncQueue(w: nat, home: nat)   // that function, queued at worker w
    | InHand(w: nat, home: nat)        // that function, running at worker w

  // How often coroutine c is held at a place, read off the state.
  ghost function Held(s: Sys, p: Place, c: CoId): nat {
    match p
    case InQueue(w) => if w < |s.ws| then multiset(s.ws[w].queue)[CoTask(c)] else 0
    case InEvent(w, key) =>
      Has(w < |s.ws| && key in s.ws[w].poller.armed && s.ws[w].poller.armed[key] == CoTask(c))
    case InTimer(t) => Has(t in s.timers && s.timers[t].func.Wake? && s.timers[t].func.co == c)
    case InFuncQueue(w, home) => if w < |s.ws| then multiset(s.ws[w].queue)[FuncTask(Wake(home, c))] else 0
    case InHand(w, home) =>
      Has(w < |s.ws| && s.ws[w].mode.Busy? && s.ws[w].mode.co in s.cos
          && s.cos[s.ws[w].mode.co].func == Wake(home, c))
  }

  // Not running, or about to stop running with its wakeup already arranged.
  ghost predicate Waiting(x: Coro) {
    x.state == SUSPEND || x.state == INIT || (x.state == RUNNING && (x.phase.Sleeping? || x.phase.IoWait?))
  }

  type Where = map<CoId, Place>

  ghost predicate At(wh: Where, p: Place, c: CoId) { c in wh && wh[c] == p }

  // Each waiting coroutine is held once, at its place of `wh`, and nothing else is held at all.
  ghost predicate Exclusive(s: Sys, wh: Where) {
    forall p: Place, c: CoId :: Held(s, p, c) == Has(At(wh, p, c))
  }

  // The kind of place fits what the coroutine waits for; sleepers are released only when due.
  ghost predicate Fits(s: Sys, c: CoId, p: Place) {
    && c in s.cos
    && var x := s.cos[c];
      match p
      case InQueue(w) => w == x.home && (x.phase.Sleeping? ==> x.phase.deadline <= s.now)
      case InEvent(w, key) => w == x.home && x.phase.IoWait? && key == (x.phase.io.fd, x.phase.io.dir)
      case InTimer(t) =>
        x.phase.Sleeping? && t in s.timers && s.timers[t].func == Wake(x.home, c)
        && !s.timers[t].recursive && s.timers[t].expire == x.phase.deadline
      case InFuncQueue(w, home) => home == x.home && x.phase.Sleeping? && x.phase.deadline <= s.now
      case InHand(w, home) => home == x.home && x.phase.Sleeping? && x.phase.deadline <= s.now
  }

  // What a coroutine's state says about its phase and its function.
  ghost predicate CoroOk(s: Sys, c: CoId) {
    && c in s.cos
    && var x := s.cos[c];
      && x.home < |s.ws|
      && (x.state == RUNNING ==> s.ws[x.home].mode == Busy(c))
      && (x.state == SUSPEND ==> x.phase.Sleeping? || x.phase.IoWait?)
      && (x.state == INIT || Finished(x) ==> x.phase.Free?)
      && (!x.func.User? ==> x.phase.Free? && (x.state == RUNNING || Finished(x)))
      && (TimerOf(x.phase).Some? ==>
            var t := TimerOf(x.phase).value;
            t < s.nextTimer && (t in s.timers ==> s.timers[t].func.IoTimeout?))
  }

  // The timer a hooked call set for its own timeout.
  ghost function TimerOf(p: Phase): Option<TimerId> {
    if p.IoSet? || p.IoWait? || p.IoBack? then p.timer else None
  }

  ghost predicate WorkerOk(s: Sys, w: nat) {
    && w < |s.ws|
    && var x := s.ws[w];
      && x.poller.Consistent()
      && (forall k | k in x.poller.armed && x.poller.armed[k].FuncTask? :: x.poller.armed[k].func.User?)
      && (x.mode.Busy? ==> x.mode.co in s.cos && s.cos[x.mode.co].state == RUNNING && s.cos[x.mode.co].home == w)
      && (x.coFunc.Some? ==> x.coFunc.value in s.cos && s.cos[x.coFunc.value].home == w
                             && (x.mode == Busy(x.coFunc.value) || Finished(s.cos[x.coFunc.value])))
  }

  ghost predicate Rest(s: Sys, wh: Where) {
    && (forall c | c in wh :: Fits(s, c, wh[c]))
    && (forall c | c in s.cos :: CoroOk(s, c))
    && (forall w: nat | w < |s.ws| :: WorkerOk(s, w))
    && (forall t | t in s.timers :: t < s.nextTimer)
    && (forall c :: c in wh <==> c in s.cos && Waiting(s.cos[c]))
  }

  ghost predicate Good(s: Sys, wh: Where) {
    Exclusive(s, wh) && Rest(s, wh)
  }

  // The part of the invariant that does not count holders.
  //
  // One worker w, one coroutine c of that worker and c's place change, everything else stays.
  ghost predicate Local(s: Sys, s': Sys, wh: Where, wh': Where, w: nat, c: CoId) {
    && w < |s.ws| == |s'.ws| && (forall v | 0 <= v < |s.ws| && v != w :: s'.ws[v] == s.ws[v])
    && c in s'.cos && s'.cos == s.cos[c := s'.cos[c]] && (c in s.cos ==> s.cos[c].home == w)
    && (s.ws[w].mode.Busy? ==> s.ws[w].mode.co == c)
    && s.now <= s'.now && TimersKept(s, s')
    && (forall x | x != c :: x in wh <==> x in wh')
    && (forall x | x != c && x in wh :: wh'[x] == wh[x])
  }

  lemma FrameWorkers(s: Sys, s': Sys, wh: Where, wh': Where, w: nat, c: CoId)
    requires Rest(s, wh) && Local(s, s', wh, wh', w, c) && WorkerOk(s', w)
    ensures forall v: nat | v < |s'.ws| :: WorkerOk(s', v)
  {
    forall v: nat | v < |s'.ws| ensures WorkerOk(s', v) {
      assert WorkerOk(s, v);
    }
  }

  lemma FrameCoros(s: Sys, s': Sys, wh: Where, wh': Where, w: nat, c: CoId)
    requires Rest(s, wh) && Local(s, s', wh, wh', w, c) && CoroOk(s', c)
    ensures forall x | x in s'.cos :: CoroOk(s', x)
  {
    forall x | x in s'.cos ensures CoroOk(s', x) {
      assert x in s.cos ==> CoroOk(s, x);
    }
  }

  lemma FrameFits(s: Sys, s': Sys, wh: Where, wh': Where, w: nat, c: CoId)
    requires Rest(s, wh) && Local(s, s', wh, wh', w, c)
    requires c in wh' ==> Fits(s', c, wh'[c])
    ensures forall x | x in wh' :: Fits(s', x, wh'[x])
  {
    forall x | x in wh' ensures Fits(s', x, wh'[x]) {
      assert x != c ==> Fits(s, x, wh[x]);
    }
  }

  lemma Frame(s: Sys, s': Sys, wh: Where, wh': Where, w: nat, c: CoId)
    requires Rest(s, wh) && Local(s, s', wh, wh', w, c)
    requires WorkerOk(s', w) && CoroOk(s', c)
    requires c in wh' <==> Waiting(s'.cos[c])
    requires c in wh' ==> Fits(s', c, wh'[c])
    ensures Rest(s', wh')
  {
    FrameWorkers(s, s', wh, wh', w, c);
    FrameCoros(s, s', wh, wh', w, c);
    FrameFits(s, s', wh, wh', w, c);
  }

  // Timers keep their functions, sleep timers stay, new timers have new names.
  ghost predicate TimersKept(s: Sys, s': Sys) {
    && s.nextTimer <= s'.nextTimer
    && (forall t | t in s'.timers :: t < s'.nextTimer)
    && (forall t | t in s'.timers && t < s.nextTimer :: t in s.timers && s'.timers[t].func == s.timers[t].func)
    && (forall t | t in s.timers && s.timers[t].func.Wake? :: t in s'.timers && s'.timers[t] == s.timers[t])
  }

  // Queues do not matter here.
  lemma FrameQueues(s: Sys, s': Sys, wh: Where)
    requires Rest(s, wh)
    requires s' == s.(ws := s'.ws) && |s'.ws| == |s.ws|
    requires forall v | 0 <= v < |s.ws| :: s'.ws[v] == s.ws[v].(queue := s'.ws[v].queue)
    ensures Rest(s', wh)
  {
    forall v: nat | v < |s'.ws| ensures WorkerOk(s', v) {
      assert WorkerOk(s, v);
    }
    forall x | x in s'.cos ensures CoroOk(s', x) {
      assert CoroOk(s, x);
    }
    forall x | x in wh ensures Fits(s', x, wh[x]) {
      assert Fits(s, x, wh[x]);
    }
  }

  lemma PopHead(q: seq<Task>, t: Task)
    requires q != []
    ensures multiset(q)[t] == Has(q[0] == t) + multiset(q[1..])[t]
  {
    assert q == [q[0]] + q[1..];
  }

  // The head of a queue is what the counts say: a waiting coroutine of this worker, or the wakeup
  // of one.
  lemma HeadCo(s: Sys, wh: Where, w: nat)
    requires Good(s, wh) && Pops(s, w) && s.ws[w].queue[0].CoTask?
    ensures At(wh, InQueue(w), s.ws[w].queue[0].co)
    ensures CanPopCo(s, w) && s.cos[s.ws[w].queue[0].co].state != RUNNING
    ensures s.cos[s.ws[w].queue[0].co].home == w && s.cos[s.ws[w].queue[0].co].func.User?
  {
    var c := s.ws[w].queue[0].co;
    PopHead(s.ws[w].queue, CoTask(c));
    assert Held(s, InQueue(w), c) >= 1;
    assert Fits(s, c, wh[c]) && CoroOk(s, c);
  }

  lemma HeadWake(s: Sys, wh: Where, w: nat)
    requires Good(s, wh) && Pops(s, w) && s.ws[w].queue[0].FuncTask? && s.ws[w].queue[0].func.Wake?
    ensures At(wh, InFuncQueue(w, s.ws[w].queue[0].func.home), s.ws[w].queue[0].func.co)
  {
    var f := s.ws[w].queue[0].func;
    PopHead(s.ws[w].queue, FuncTask(f));
    assert Held(s, InFuncQueue(w, f.home), f.co) >= 1;
  }

  lemma HeldPopCo(s: Sys, w: nat, p: Place, x: CoId)
    requires CanPopCo(s, w) && s.cos[s.ws[w].queue[0].co].func.User?
    requires p.InHand? && p.w < |s.ws| && s.ws[p.w].mode.Busy? ==> s.ws[p.w].mode.co != s.ws[w].queue[0].co
    ensures Held(s, p, x) == Held(DoPopCo(s, w), p, x) + Has(p == InQueue(w) && x == s.ws[w].queue[0].co)
  {
    match p
    case InQueue(v) => PopHead(s.ws[w].queue, CoTask(x));
    case InFuncQueue(v, home) => PopHead(s.ws[w].queue, FuncTask(Wake(home, x)));
    case _ =>
  }

  lemma RestPopCo(s: Sys, wh: Where, w: nat)
    requires Good(s, wh) && CanPopCo(s, w)
    ensures Rest(DoPopCo(s, w), wh - {s.ws[w].queue[0].co})
  {
    var c := s.ws[w].queue[0].co;
    HeadCo(s, wh, w);
    assert WorkerOk(s, w) && CoroOk(s, c);
    Frame(s, DoPopCo(s, w), wh, wh - {c}, w, c);
  }

  lemma KeepPopCo(s: Sys, wh: Where, w: nat) returns (wh': Where)
    requires Good(s, wh) && CanPopCo(s, w)
    ensures Good(DoPopCo(s, w), wh')
  {
    var c := s.ws[w].queue[0].co;
    HeadCo(s, wh, w);
    wh' := wh - {c};
    RestPopCo(s, wh, w);
    forall p: Place, x: CoId ensures Held(DoPopCo(s, w), p, x) == Has(At(wh', p, x)) {
      if p.InHand? && p.w < |s.ws| { assert WorkerOk(s, p.w); }
      HeldPopCo(s, w, p, x);
    }
  }

  lemma HeldPopFunc(s: Sys, w: nat, born: CoId, p: Place, x: CoId)
    requires CanPopFunc(s, w, born)
    requires p.InHand? && p.w != w && p.w < |s.ws| && s.ws[p.w].mode.Busy? ==> s.ws[p.w].mode.co != FuncCo(s, w, born)
    ensures Held(s, p, x) + Has(p.InHand? && p.w == w && s.ws[w].queue[0].func == Wake(p.home, x)) ==
            Held(DoPopFunc(s, w, born), p, x)
            + Has(p.InFuncQueue? && p.w == w && s.ws[w].queue[0].func == Wake(p.home, x))
  {
    match p
    case InQueue(v) => PopHead(s.ws[w].queue, CoTask(x));
    case InFuncQueue(v, home) => PopHead(s.ws[w].queue, FuncTask(Wake(home, x)));
    case _ =>
  }

  lemma RestPopFunc(s: Sys, wh: Where, w: nat, born: CoId)
    requires Rest(s, wh) && CanPopFunc(s, w, born)
    ensures Rest(DoPopFunc(s, w, born), wh)
  {
    var c := FuncCo(s, w, born);
    assert WorkerOk(s, w) && (c in s.cos ==> CoroOk(s, c));
    Frame(s, DoPopFunc(s, w, born), wh, wh, w, c);
  }

  lemma FitsHanded(s: Sys, s': Sys, c: CoId, p: Place)
    requires p.InFuncQueue? && Fits(s, c, p) && c in s'.cos && s'.cos[c] == s.cos[c] && s'.now == s.now
    ensures Fits(s', c, InHand(p.w, p.home))
  {
  }

  // The sleeper whose wakeup is popped, if it is one, is now in the worker's hand.
  lemma WherePopFunc(s: Sys, wh: Where, w: nat, born: CoId) returns (wh': Where)
    requires Good(s, wh) && CanPopFunc(s, w, born)
    ensures Rest(DoPopFunc(s, w, born), wh')
    ensures var f := s.ws[w].queue[0].func;
         if f.Wake? then At(wh, InFuncQueue(w, f.home), f.co) && wh' == wh[f.co := InHand(w, f.home)] else wh' == wh
  {
    var f, s' := s.ws[w].queue[0].func, DoPopFunc(s, w, born);
    wh' := wh;
    RestPopFunc(s, wh, w, born);
    if f.Wake? {
      HeadWake(s, wh, w);
      assert Fits(s, f.co, wh[f.co]) && Waiting(s.cos[f.co]);
      assert WorkerOk(s, w);
      FitsHanded(s, s', f.co, wh[f.co]);
      RestMoved(s', wh, f.co, InHand(w, f.home));
      wh' := wh[f.co := InHand(w, f.home)];
    }
  }

  lemma KeepPopFunc(s: Sys, wh: Where, w: nat, born: CoId) returns (wh': Where)
    requires Good(s, wh) && CanPopFunc(s, w, born)
    ensures Good(DoPopFunc(s, w, born), wh')
  {
    wh' := WherePopFunc(s, wh, w, born);
    forall v: nat | v < |s.ws| && v != w && s.ws[v].mode.Busy? ensures s.ws[v].mode.co != FuncCo(s, w, born) {
      assert WorkerOk(s, v) && WorkerOk(s, w);
    }
    forall p: Place, x: CoId ensures Held(DoPopFunc(s, w, born), p, x) == Has(At(wh', p, x)) {
      HeldPopFunc(s, w, born, p, x);
      MovedPopFunc(s, wh, wh', w, born, p, x);
    }
  }

  lemma MovedPopFunc(s: Sys, wh: Where, wh': Where, w: nat, born: CoId, p: Place, x: CoId)
    requires CanPopFunc(s, w, born)
    requires var f := s.ws[w].queue[0].func;
         if f.Wake? then At(wh, InFuncQueue(w, f.home), f.co) && wh' == wh[f.co := InHand(w, f.home)] else wh' == wh
    ensures Has(At(wh, p, x)) + Has(p.InHand? && p.w == w && s.ws[w].queue[0].func == Wake(p.home, x))
         == Has(At(wh', p, x)) + Has(p.InFuncQueue? && p.w == w && s.ws[w].queue[0].func == Wake(p.home, x))
  {
  }

  // Coroutine::reuse asserts that what it reuses is not in the middle of something.
  lemma ReusesFinishedOnly(s: Sys, wh: Where, w: nat)
    requires Good(s, wh) && Pops(s, w) && s.ws[w].coFunc.Some?
    ensures s.ws[w].coFunc.value in s.cos && Finished(s.cos[s.ws[w].coFunc.value])
  {
    assert WorkerOk(s, w);
  }

  lemma KeepPollStart(s: Sys, wh: Where, w: nat)
    requires Good(s, wh) && CanPollStart(s, w)
    ensures Good(DoPollStart(s, w), wh)
  {
    var s' := DoPollStart(s, w);
    forall p: Place, x: CoId ensures Held(s', p, x) == Held(s, p, x) {
    }
    forall v: nat | v < |s'.ws| ensures WorkerOk(s', v) {
      assert WorkerOk(s, v);
    }
    forall x | x in s'.cos ensures CoroOk(s', x) {
      assert CoroOk(s, x);
    }
    forall x | x in wh ensures Fits(s', x, wh[x]) {
      assert Fits(s, x, wh[x]);
    }
  }

  lemma HeldOver(s: Sys, w: nat, st: State, p: Place, x: CoId)
    requires Runs(s, w)
    ensures Held(s, p, x) ==
            Held(Over(s, w, st), p, x) + Has(p.InHand? && p.w == w && CurCo(s, w).func == Wake(p.home, x))
  {
  }

  lemma HeldPush(s: Sys, w: nat, c: CoId, p: Place, x: CoId)
    requires w < |s.ws|
    ensures Held(Push(s, w, [CoTask(c)]), p, x) == Held(s, p, x) + Has(p == InQueue(w) && x == c)
  {
    if p.InQueue? {
      assert multiset([CoTask(c)])[CoTask(x)] == Has(x == c);
    }
  }

  lemma KeepOver(s: Sys, wh: Where, w: nat, st: State)
    requires Rest(s, wh) && Runs(s, w) && CurCo(s, w).phase.Free? && (st == DONE || st == EXCEPT)
    ensures Rest(Over(s, w, st), wh)
  {
    assert WorkerOk(s, w) && CoroOk(s, Cur(s, w));
    Frame(s, Over(s, w, st), wh, wh, w, Cur(s, w));
  }

  lemma FitsAwake(s: Sys, s': Sys, c: CoId, p: Place)
    requires p.InHand? && Fits(s, c, p) && c in s'.cos && s'.cos[c] == s.cos[c] && s'.now == s.now
    ensures Fits(s', c, InQueue(p.home))
  {
  }

  lemma RestMoved(s: Sys, wh: Where, c: CoId, p: Place)
    requires Rest(s, wh) && c in wh && Fits(s, c, p)
    ensures Rest(s, wh[c := p])
  {
  }

  lemma RestRunWake(s: Sys, wh: Where, w: nat)
    requires Rest(s, wh) && CanRunWake(s, w)
    requires var f := CurCo(s, w).func; At(wh, InHand(w, f.home), f.co)
    ensures var f := CurCo(s, w).func; Rest(DoRunWake(s, w), wh[f.co := InQueue(f.home)])
  {
    var f, s' := CurCo(s, w).func, DoRunWake(s, w);
    assert WorkerOk(s, w) && CoroOk(s, Cur(s, w));
    KeepOver(s, wh, w, DONE);
    FrameQueues(Over(s, w, DONE), s', wh);
    assert Fits(s, f.co, InHand(w, f.home));
    FitsAwake(s, s', f.co, InHand(w, f.home));
    RestMoved(s', wh, f.co, InQueue(f.home));
  }

  lemma HeldRunWake(s: Sys, w: nat, p: Place, x: CoId)
    requires CanRunWake(s, w)
    ensures var f := CurCo(s, w).func;
         Held(DoRunWake(s, w), p, x) + Has(p.InHand? && p.w == w && f == Wake(p.home, x))
         == Held(s, p, x) + Has(p == InQueue(f.home) && x == f.co)
  {
    var f := CurCo(s, w).func;
    HeldOver(s, w, DONE, p, x);
    HeldPush(Over(s, w, DONE), f.home, f.co, p, x);
  }

  lemma KeepRunWake(s: Sys, wh: Where, w: nat) returns (wh': Where)
    requires Good(s, wh) && CanRunWake(s, w)
    ensures Good(DoRunWake(s, w), wh')
  {
    var f := CurCo(s, w).func;
    assert Held(s, InHand(w, f.home), f.co) == 1;
    wh' := wh[f.co := InQueue(f.home)];
    RestRunWake(s, wh, w);
    forall p: Place, x: CoId ensures Held(DoRunWake(s, w), p, x) == Has(At(wh', p, x)) {
      HeldRunWake(s, w, p, x);
      assert Held(s, p, x) == Has(At(wh, p, x));
    }
  }

  lemma HeldSleep(s: Sys, w: nat, ms: int, p: Place, x: CoId)
    requires InCode(s, w) && s.nextTimer !in s.timers
    ensures Held(DoSleep(s, w, ms), p, x) == Held(s, p, x) + Has(p == InTimer(s.nextTimer) && x == Cur(s, w))
  {
  }

  lemma KeepSleep(s: Sys, wh: Where, w: nat, ms: int) returns (wh': Where)
    requires Good(s, wh) && InCode(s, w)
    ensures Good(DoSleep(s, w, ms), wh')
  {
    var c := Cur(s, w);
    var s' := DoSleep(s, w, ms);
    wh' := wh[c := InTimer(s.nextTimer)];
    assert WorkerOk(s, w) && CoroOk(s, c);
    Frame(s, s', wh, wh', w, c);
    forall p: Place, x: CoId ensures Held(s', p, x) == Has(At(wh', p, x)) {
      HeldSleep(s, w, ms, p, x);
    }
  }

  lemma KeepInfos(s: Sys, s': Sys, wh: Where)
    requires Good(s, wh) && s' == s.(infos := s'.infos, nextInfo := s'.nextInfo)
    ensures Good(s', wh)
  {
    forall p: Place, x: CoId ensures Held(s', p, x) == Held(s, p, x) {
    }
    forall v: nat | v < |s'.ws| ensures WorkerOk(s', v) {
      assert WorkerOk(s, v);
    }
    forall x | x in s'.cos ensures CoroOk(s', x) {
      assert CoroOk(s, x);
    }
    forall x | x in wh ensures Fits(s', x, wh[x]) {
      assert Fits(s, x, wh[x]);
    }
  }

  // Timers that wake no sleeper may come, go, and change their deadline.
  lemma KeepTimers(s: Sys, s': Sys, wh: Where)
    requires Good(s, wh) && s' == s.(timers := s'.timers, nextTimer := s'.nextTimer, now := s'.now)
    requires s.now <= s'.now && TimersKept(s, s')
    requires forall t | t in s'.timers && s'.timers[t].func.Wake? :: t in s.timers && s'.timers[t] == s.timers[t]
    ensures Good(s', wh)
  {
    forall p: Place, x: CoId ensures Held(s', p, x) == Held(s, p, x) {
    }
    forall v: nat | v < |s'.ws| ensures WorkerOk(s', v) {
      assert WorkerOk(s, v);
    }
    forall x | x in s'.cos ensures CoroOk(s', x) {
      assert CoroOk(s, x);
    }
    forall x | x in wh ensures Fits(s', x, wh[x]) {
      assert Fits(s, x, wh[x]);
    }
  }

  lemma HeldPhase(s: Sys, w: nat, p: Phase, q: Place, x: CoId)
    requires Runs(s, w)
    ensures Held(SetPhase(s, w, p), q, x) == Held(s, q, x)
  {
  }

  // The running coroutine goes from one place in its code to another, neither of them a wait.
  lemma KeepPhase(s: Sys, wh: Where, w: nat, p: Phase)
    requires Good(s, wh) && Runs(s, w) && CurCo(s, w).func.User?
    requires !CurCo(s, w).phase.Sleeping? && !CurCo(s, w).phase.IoWait? && !p.Sleeping? && !p.IoWait?
    requires TimerOf(p).Some? ==> var t := TimerOf(p).value;
               t < s.nextTimer && (t in s.timers ==> s.timers[t].func.IoTimeout?)
    ensures Good(SetPhase(s, w, p), wh)
  {
    var s' := SetPhase(s, w, p);
    assert WorkerOk(s, w) && CoroOk(s, Cur(s, w));
    Frame(s, s', wh, wh, w, Cur(s, w));
    forall q: Place, x: CoId ensures Held(s', q, x) == Held(s, q, x) {
      HeldPhase(s, w, p, q, x);
    }
  }

  lemma KeepSetIoTimer(s: Sys, wh: Where, w: nat, tinfo: TInfo, io: Io)
    requires Good(s, wh) && Runs(s, w) && CurCo(s, w).func.User?
    requires !CurCo(s, w).phase.Sleeping? && !CurCo(s, w).phase.IoWait?
    ensures Good(SetIoTimer(s, w, tinfo, io), wh)
  {
    if io.timeout.None? {
      KeepPhase(s, wh, w, IoSet(tinfo, None, io));
    } else {
      var s1 := WithTimer(s, io.timeout.value, false, IoTimeout(tinfo, io.fd, io.dir));
      KeepTimers(s, s1, wh);
      KeepPhase(s1, wh, w, IoSet(tinfo, Some(s.nextTimer), io));
    }
  }

  // A new call: its timerInfo first, then its timer.
  ghost function Noted(s: Sys, c: CoId): Sys {
    s.(infos := s.infos[s.nextInfo := Info(false, c)], nextInfo := s.nextInfo + 1)
  }

  lemma IoStartIs(s: Sys, w: nat, io: Io)
    requires InCode(s, w)
    ensures var s1 := Noted(s, Cur(s, w));
         InCode(s1, w) && DoIoStart(s, w, io) == SetIoTimer(s1, w, s.nextInfo, io)
  {
  }

  lemma KeepIoStart(s: Sys, wh: Where, w: nat, io: Io)
    requires Good(s, wh) && InCode(s, w)
    ensures Good(DoIoStart(s, w, io), wh)
  {
    KeepInfos(s, Noted(s, Cur(s, w)), wh);
    IoStartIs(s, w, io);
    KeepSetIoTimer(Noted(s, Cur(s, w)), wh, w, s.nextInfo, io);
  }

  lemma KeepWithoutTimer(s: Sys, wh: Where, t: Option<TimerId>)
    requires Good(s, wh) && (t.Some? && t.value in s.timers ==> !s.timers[t.value].func.Wake?)
    ensures Good(WithoutTimer(s, t), wh)
  {
    KeepTimers(s, WithoutTimer(s, t), wh);
  }

  lemma KeepIoReturn(s: Sys, wh: Where, w: nat, again: bool)
    requires Good(s, wh) && CanIoReturn(s, w)
    ensures Good(DoIoReturn(s, w, again), wh)
  {
    var p := CurCo(s, w).phase;
    assert WorkerOk(s, w) && CoroOk(s, Cur(s, w));
    var s1 := WithoutTimer(s, p.timer);
    KeepWithoutTimer(s, wh, p.timer);
    if again && p.tinfo in s.infos && !s.infos[p.tinfo].cancelled {
      KeepSetIoTimer(s1, wh, w, p.tinfo, p.io);
    } else {
      var s2 := s1.(infos := s1.infos - {p.tinfo});
      KeepInfos(s1, s2, wh);
      KeepPhase(s2, wh, w, Free);
    }
  }

  lemma RegisteredWorker(s: Sys, w: nat, accepted: bool)
    requires CanIoRegister(s, w) && Registration(s, w, accepted).ok && WorkerOk(s, w)
    ensures WorkerOk(DoIoRegister(s, w, accepted), w)
  {
    var p := CurCo(s, w).phase;
    AddConsistent(s.ws[w].poller, p.io.fd, p.io.dir, CoTask(Cur(s, w)), accepted);
    assert DoIoRegister(s, w, accepted).ws[w].poller == Registration(s, w, accepted).poller;
  }

  lemma RegisteredCoro(s: Sys, w: nat, accepted: bool)
    requires CanIoRegister(s, w) && Registration(s, w, accepted).ok && CoroOk(s, Cur(s, w)) && CurCo(s, w).home == w
    requires CurCo(s, w).state == RUNNING
    ensures var (s', io) := (DoIoRegister(s, w, accepted), CurCo(s, w).phase.io);
         CoroOk(s', Cur(s, w)) && Fits(s', Cur(s, w), InEvent(w, (io.fd, io.dir))) && Waiting(s'.cos[Cur(s, w)])
  {
  }

  lemma RestRegistered(s: Sys, wh: Where, w: nat, accepted: bool)
    requires Rest(s, wh) && CanIoRegister(s, w) && Registration(s, w, accepted).ok
    ensures var io := CurCo(s, w).phase.io;
            Rest(DoIoRegister(s, w, accepted), wh[Cur(s, w) := InEvent(w, (io.fd, io.dir))])
  {
    var c, p := Cur(s, w), CurCo(s, w).phase;
    assert WorkerOk(s, w) && CoroOk(s, c);
    RegisteredWorker(s, w, accepted);
    RegisteredCoro(s, w, accepted);
    Frame(s, DoIoRegister(s, w, accepted), wh, wh[c := InEvent(w, (p.io.fd, p.io.dir))], w, c);
  }

  lemma HeldRegistered(s: Sys, w: nat, accepted: bool, p: Place, x: CoId)
    requires CanIoRegister(s, w) && Registration(s, w, accepted).ok
    ensures var io := CurCo(s, w).phase.io;
            Held(DoIoRegister(s, w, accepted), p, x) ==
            Held(s, p, x) + Has(p == InEvent(w, (io.fd, io.dir)) && x == Cur(s, w))
  {
  }

  lemma KeepRegistered(s: Sys, wh: Where, w: nat, accepted: bool) returns (wh': Where)
    requires Good(s, wh) && CanIoRegister(s, w) && Registration(s, w, accepted).ok
    ensures Good(DoIoRegister(s, w, accepted), wh')
  {
    var io := CurCo(s, w).phase.io;
    assert WorkerOk(s, w);
    wh' := wh[Cur(s, w) := InEvent(w, (io.fd, io.dir))];
    RestRegistered(s, wh, w, accepted);
    forall q: Place, x: CoId ensures Held(DoIoRegister(s, w, accepted), q, x) == Has(At(wh', q, x)) {
      HeldRegistered(s, w, accepted, q, x);
    }
  }

  lemma KeepRefused(s: Sys, wh: Where, w: nat, accepted: bool)
    requires Good(s, wh) && CanIoRegister(s, w) && !Registration(s, w, accepted).ok
    ensures Good(DoIoRegister(s, w, accepted), wh)
  {
    var p := CurCo(s, w).phase;
    assert WorkerOk(s, w) && CoroOk(s, Cur(s, w));
    var s1 := s.(infos := s.infos - {p.tinfo});
    KeepInfos(s, s1, wh);
    KeepWithoutTimer(s1, wh, p.timer);
    KeepPhase(WithoutTimer(s1, p.timer), wh, w, Free);
  }

  lemma RestYield(s: Sys, wh: Where, w: nat)
    requires Rest(s, wh) && CanYield(s, w)
    ensures Rest(DoYield(s, w), wh) && CurCo(s, w).state == RUNNING && CurCo(s, w).func.User?
  {
    var c := Cur(s, w);
    assert WorkerOk(s, w) && CoroOk(s, c);
    assert Fits(s, c, wh[c]);
    Frame(s, DoYield(s, w), wh, wh, w, c);
  }

  lemma HeldYield(s: Sys, w: nat, p: Place, x: CoId)
    requires CanYield(s, w) && CurCo(s, w).func.User?
    ensures Held(DoYield(s, w), p, x) == Held(s, p, x)
  {
  }

  lemma KeepYield(s: Sys, wh: Where, w: nat)
    requires Good(s, wh) && CanYield(s, w)
    ensures Good(DoYield(s, w), wh)
  {
    RestYield(s, wh, w);
    forall q: Place, x: CoId ensures Held(DoYield(s, w), q, x) == Has(At(wh, q, x)) {
      HeldYield(s, w, q, x);
    }
  }

  lemma KeepFinish(s: Sys, wh: Where, w: nat, st: State)
    requires Good(s, wh) && InCode(s, w) && (st == DONE || st == EXCEPT)
    ensures Good(Over(s, w, st), wh)
  {
    KeepOver(s, wh, w, st);
    forall q: Place, x: CoId ensures Held(Over(s, w, st), q, x) == Held(s, q, x) {
      HeldOver(s, w, st, q, x);
    }
  }

  lemma RestWatchFd(s: Sys, wh: Where, w: nat, fd: nat, dir: Dir, id: nat, accepted: bool)
    requires Rest(s, wh) && InCode(s, w)
    ensures Rest(DoWatchFd(s, w, fd, dir, id, accepted), wh)
  {
    var s' := DoWatchFd(s, w, fd, dir, id, accepted);
    assert WorkerOk(s, w) && CoroOk(s, Cur(s, w));
    AddConsistent(s.ws[w].poller, fd, dir, FuncTask(User(id)), accepted);
    assert WorkerOk(s', w);
    Frame(s, s', wh, wh, w, Cur(s, w));
  }

  lemma HeldWatchFd(s: Sys, w: nat, fd: nat, dir: Dir, id: nat, accepted: bool, p: Place, x: CoId)
    requires InCode(s, w)
    ensures Held(DoWatchFd(s, w, fd, dir, id, accepted), p, x) == Held(s, p, x)
  {
  }

  lemma KeepWatchFd(s: Sys, wh: Where, w: nat, fd: nat, dir: Dir, id: nat, accepted: bool)
    requires Good(s, wh) && InCode(s, w)
    ensures Good(DoWatchFd(s, w, fd, dir, id, accepted), wh)
  {
    RestWatchFd(s, wh, w, fd, dir, id, accepted);
    forall q: Place, x: CoId ensures Held(DoWatchFd(s, w, fd, dir, id, accepted), q, x) == Held(s, q, x) {
      HeldWatchFd(s, w, fd, dir, id, accepted, q, x);
    }
  }

  lemma HeldEnqueue(s: Sys, w: nat, id: nat, p: Place, x: CoId)
    requires w < |s.ws|
    ensures Held(Push(s, w, [FuncTask(User(id))]), p, x) == Held(s, p, x)
  {
    var t: seq<Task> := [FuncTask(User(id))];
    assert multiset(t)[CoTask(x)] == 0;
    if p.InFuncQueue? {
      assert multiset(t)[FuncTask(Wake(p.home, x))] == 0;
    }
  }

  lemma KeepEnqueue(s: Sys, wh: Where, w: nat, id: nat)
    requires Good(s, wh) && w < |s.ws|
    ensures Good(Push(s, w, [FuncTask(User(id))]), wh)
  {
    var s' := Push(s, w, [FuncTask(User(id))]);
    FrameQueues(s, s', wh);
    forall q: Place, x: CoId ensures Held(s', q, x) == Held(s, q, x) {
      HeldEnqueue(s, w, id, q, x);
    }
  }

  lemma RestEnqueueCo(s: Sys, wh: Where, w: nat, born: CoId)
    requires Rest(s, wh) && w < |s.ws| && born !in s.cos
    ensures Rest(DoEnqueueCo(s, w, born), wh[born := InQueue(w)])
  {
    var s' := DoEnqueueCo(s, w, born);
    var wh' := wh[born := InQueue(w)];
    forall v: nat | v < |s'.ws| ensures WorkerOk(s', v) {
      assert WorkerOk(s, v);
    }
    forall x | x in s'.cos ensures CoroOk(s', x) {
      assert x != born ==> CoroOk(s, x);
    }
    forall x | x in wh' ensures Fits(s', x, wh'[x]) {
      assert x != born ==> Fits(s, x, wh[x]);
    }
  }

  lemma KeepEnqueueCo(s: Sys, wh: Where, w: nat, born: CoId) returns (wh': Where)
    requires Good(s, wh) && w < |s.ws| && born !in s.cos
    ensures Good(DoEnqueueCo(s, w, born), wh')
  {
    wh' := wh[born := InQueue(w)];
    RestEnqueueCo(s, wh, w, born);
    var s1 := s.(cos := s.cos[born := Coro(INIT, w, User(born), Free)]);
    forall q: Place, x: CoId ensures Held(DoEnqueueCo(s, w, born), q, x) == Has(At(wh', q, x)) {
      assert Held(s, q, x) == Has(At(wh, q, x));
      if q.InHand? && q.w < |s.ws| { assert WorkerOk(s, q.w); }
      assert Held(s1, q, x) == Held(s, q, x);
      HeldPush(s1, w, born, q, x);
    }
  }

  // A call on a poller moves coroutines from its events to its worker's queue.
  ghost function MovedOut(wh: Where, w: nat, left: map<Key, Task>): Where {
    map c | c in wh :: if wh[c].InEvent? && wh[c].w == w && wh[c].key !in left then InQueue(w) else wh[c]
  }

  lemma HeldEffectedQueue(s: Sys, wh: Where, w: nat, e: Effect, x: CoId)
    requires Exclusive(s, wh) && w < |s.ws| && Conserves(s.ws[w].poller, e)
    ensures Held(Effected(s, w, e), InQueue(w), x) == Has(At(MovedOut(wh, w, e.poller.armed), InQueue(w), x))
  {
    var q := s.ws[w].poller;
    forall k | k in q.armed && q.armed[k] == CoTask(x) ensures At(wh, InEvent(w, k), x) {
      assert Held(s, InEvent(w, k), x) == 1;
    }
    var k0 := if x in wh && wh[x].InEvent? && wh[x].w == w then wh[x].key else (0, In);
    assert Held(s, InEvent(w, k0), x) == Has(At(wh, InEvent(w, k0), x));
    assert Held(s, InQueue(w), x) == Has(At(wh, InQueue(w), x));
    DeliveredOnce(q, e, CoTask(x), k0);
  }

  lemma HeldEffectedFunc(s: Sys, w: nat, e: Effect, home: nat, x: CoId)
    requires w < |s.ws| && Conserves(s.ws[w].poller, e)
    requires forall k | k in s.ws[w].poller.armed && s.ws[w].poller.armed[k].FuncTask? :: s.ws[w].poller.armed[k].func.User?
    ensures Held(Effected(s, w, e), InFuncQueue(w, home), x) == Held(s, InFuncQueue(w, home), x)
  {
    DeliveredOnce(s.ws[w].poller, e, FuncTask(Wake(home, x)), (0, In));
  }

  lemma HeldEffectedEvent(s: Sys, w: nat, e: Effect, k: Key, x: CoId)
    requires w < |s.ws| && Conserves(s.ws[w].poller, e)
    ensures Held(Effected(s, w, e), InEvent(w, k), x) == if k in e.poller.armed then Held(s, InEvent(w, k), x) else 0
  {
    if k in e.poller.armed {
      StillArmed(s.ws[w].poller, e, k);
    }
  }

  lemma HeldElsewhere(s: Sys, w: nat, e: Effect, p: Place, x: CoId)
    requires w < |s.ws| && !((p.InQueue? || p.InFuncQueue? || p.InEvent?) && p.w == w)
    ensures Held(Effected(s, w, e), p, x) == Held(s, p, x)
  {
  }

  lemma HeldEffected(s: Sys, wh: Where, w: nat, e: Effect, p: Place, x: CoId)
    requires Exclusive(s, wh) && w < |s.ws| && Conserves(s.ws[w].poller, e)
    requires forall k | k in s.ws[w].poller.armed && s.ws[w].poller.armed[k].FuncTask? :: s.ws[w].poller.armed[k].func.User?
    ensures Held(Effected(s, w, e), p, x) == Has(At(MovedOut(wh, w, e.poller.armed), p, x))
  {
    assert Held(s, p, x) == Has(At(wh, p, x));
    if p == InQueue(w) {
      HeldEffectedQueue(s, wh, w, e, x);
    } else if p.InFuncQueue? && p.w == w {
      HeldEffectedFunc(s, w, e, p.home, x);
    } else if p.InEvent? && p.w == w {
      HeldEffectedEvent(s, w, e, p.key, x);
    } else {
      HeldElsewhere(s, w, e, p, x);
    }
  }

  lemma RestEffected(s: Sys, wh: Where, w: nat, e: Effect)
    requires Rest(s, wh) && w < |s.ws| && Conserves(s.ws[w].poller, e) && e.poller.Consistent()
    ensures Rest(Effected(s, w, e), MovedOut(wh, w, e.poller.armed))
  {
    var s' := Effected(s, w, e);
    var wh' := MovedOut(wh, w, e.poller.armed);
    forall k | k in e.poller.armed ensures k in s.ws[w].poller.armed && s.ws[w].poller.armed[k] == e.poller.armed[k] {
      StillArmed(s.ws[w].poller, e, k);
    }
    assert WorkerOk(s, w);
    forall v: nat | v < |s'.ws| ensures WorkerOk(s', v) {
      assert WorkerOk(s, v);
    }
    forall x | x in s'.cos ensures CoroOk(s', x) {
      assert CoroOk(s, x);
    }
    forall x | x in wh' ensures Fits(s', x, wh'[x]) {
      assert Fits(s, x, wh[x]);
    }
  }

  lemma KeepEffected(s: Sys, wh: Where, w: nat, e: Effect) returns (wh': Where)
    requires Good(s, wh) && w < |s.ws| && Conserves(s.ws[w].poller, e) && e.poller.Consistent()
    ensures Good(Effected(s, w, e), wh')
  {
    wh' := MovedOut(wh, w, e.poller.armed);
    RestEffected(s, wh, w, e);
    assert WorkerOk(s, w);
    forall p: Place, x: CoId ensures Held(Effected(s, w, e), p, x) == Has(At(wh', p, x)) {
      HeldEffected(s, wh, w, e, p, x);
    }
  }

  lemma KeepRunTimeout(s: Sys, wh: Where, w: nat) returns (wh': Where)
    requires Good(s, wh) && CanRunTimeout(s, w)
    ensures Good(DoRunTimeout(s, w), wh')
  {
    var f := CurCo(s, w).func;
    assert WorkerOk(s, w) && CoroOk(s, Cur(s, w));
    if f.tinfo !in s.infos || s.infos[f.tinfo].cancelled {
      KeepDone(s, wh, w);
      wh' := wh;
    } else {
      var s1 := s.(infos := s.infos[f.tinfo := s.infos[f.tinfo].(cancelled := true)]);
      KeepInfos(s, s1, wh);
      KeepDone(s1, wh, w);
      TakeConservesAll(s.ws[w].poller, f.fd, f.dir);
      TakeConsistent(s.ws[w].poller, f.fd, f.dir);
      wh' := KeepEffected(Over(s1, w, DONE), wh, w, Take(s.ws[w].poller, f.fd, f.dir));
    }
  }

  lemma KeepDone(s: Sys, wh: Where, w: nat)
    requires Good(s, wh) && CanRunTimeout(s, w)
    ensures Good(Over(s, w, DONE), wh)
  {
    assert CoroOk(s, Cur(s, w)) by { assert WorkerOk(s, w); }
    KeepOver(s, wh, w, DONE);
    forall q: Place, x: CoId ensures Held(Over(s, w, DONE), q, x) == Has(At(wh, q, x)) {
      HeldOver(s, w, DONE, q, x);
    }
  }

  lemma KeepClosed(s: Sys, wh: Where, fd: nat)
    requires Good(s, wh)
    ensures Good(s.(ws := AllClosed(s.ws, fd)), wh)
  {
    var s' := s.(ws := AllClosed(s.ws, fd));
    forall p: Place, x: CoId ensures Held(s', p, x) == Held(s, p, x) {
    }
    forall v: nat | v < |s'.ws| ensures WorkerOk(s', v) {
      assert WorkerOk(s, v);
      ClosedConsistent(s.ws[v].poller, fd);
    }
    forall x | x in s'.cos ensures CoroOk(s', x) {
      assert CoroOk(s, x);
    }
    forall x | x in wh ensures Fits(s', x, wh[x]) {
      assert Fits(s, x, wh[x]);
    }
  }

  lemma KeepCloseFd(s: Sys, wh: Where, w: nat, fd: nat) returns (wh': Where)
    requires Good(s, wh) && InCode(s, w)
    ensures Good(DoCloseFd(s, w, fd), wh')
  {
    assert WorkerOk(s, w);
    TakeAllConservesAll(s.ws[w].poller, fd);
    TakeAllConsistent(s.ws[w].poller, fd);
    wh' := KeepEffected(s, wh, w, TakeAll(s.ws[w].poller, fd));
    KeepClosed(Effected(s, w, TakeAll(s.ws[w].poller, fd)), wh', fd);
  }

  // A poll pass: due sleep timers hand their coroutines to the functions queued at this worker.
  ghost function DoFire(s: Sys, w: nat, due: seq<TimerId>): Sys
    requires w < |s.ws|
  {
    Push(s.(timers := AfterExpiry(s.timers, s.now)), w, Fired(s.timers, due))
  }

  ghost function MovedDue(s: Sys, wh: Where, w: nat): Where {
    map c | c in wh ::
      if wh[c].InTimer? && wh[c].t !in AfterExpiry(s.timers, s.now) && c in s.cos
      then InFuncQueue(w, s.cos[c].home) else wh[c]
  }

  lemma {:induction false} CountFired(p: map<TimerId, Entry>, due: seq<TimerId>, t: Task, k0: TimerId)
    requires forall i | 0 <= i < |due| :: due[i] in p
    requires forall i, j | 0 <= i < j < |due| :: due[i] != due[j]
    requires forall k | k in p && FuncTask(p[k].func) == t :: k == k0
    ensures multiset(Fired(p, due))[t] == Has(k0 in due && k0 in p && FuncTask(p[k0].func) == t)
  {
    if due != [] {
      var before, k := due[..|due| - 1], due[|due| - 1];
      CountFired(p, before, t, k0);
      assert due == before + [k];
      assert multiset([FuncTask(p[k].func)])[t] == Has(FuncTask(p[k].func) == t);
      assert multiset(Fired(p, due)) == multiset(Fired(p, before)) + multiset([FuncTask(p[k].func)]);
    }
  }

  lemma FiredWakes(s: Sys, wh: Where, w: nat, due: seq<TimerId>, home: nat, x: CoId)
    requires Good(s, wh) && DueOrder(s.timers, s.now, due)
    ensures multiset(Fired(s.timers, due))[FuncTask(Wake(home, x))] ==
            Has(x in wh && wh[x].InTimer? && x in s.cos && s.cos[x].home == home
                && wh[x].t !in AfterExpiry(s.timers, s.now))
  {
    forall t | t in s.timers && s.timers[t].func == Wake(home, x) ensures At(wh, InTimer(t), x) {
      assert Held(s, InTimer(t), x) == 1;
    }
    var k0 := if x in wh && wh[x].InTimer? then wh[x].t else 0;
    CountFired(s.timers, due, FuncTask(Wake(home, x)), k0);
    assert x in wh ==> Fits(s, x, wh[x]);
  }

  lemma HeldFireFunc(s: Sys, wh: Where, w: nat, due: seq<TimerId>, home: nat, x: CoId)
    requires Good(s, wh) && w < |s.ws| && DueOrder(s.timers, s.now, due)
    ensures Held(DoFire(s, w, due), InFuncQueue(w, home), x) == Has(At(MovedDue(s, wh, w), InFuncQueue(w, home), x))
  {
    assert Held(s, InFuncQueue(w, home), x) == Has(At(wh, InFuncQueue(w, home), x));
    assert x in wh ==> Fits(s, x, wh[x]);
    FiredWakes(s, wh, w, due, home, x);
    PushTasks(s.ws[w].queue, Fired(s.timers, due), FuncTask(Wake(home, x)));
  }

  lemma PushTasks(q: seq<Task>, ts: seq<Task>, t: Task)
    ensures multiset(q + ts)[t] == multiset(q)[t] + multiset(ts)[t]
  {
  }

  lemma HeldFireQueue(s: Sys, w: nat, due: seq<TimerId>, x: CoId)
    requires w < |s.ws| && DueOrder(s.timers, s.now, due)
    ensures Held(DoFire(s, w, due), InQueue(w), x) == Held(s, InQueue(w), x)
  {
    CountFired(s.timers, due, CoTask(x), 0);
    PushTasks(s.ws[w].queue, Fired(s.timers, due), CoTask(x));
  }

  lemma HeldFireTimer(s: Sys, wh: Where, w: nat, due: seq<TimerId>, t: TimerId, x: CoId)
    requires Good(s, wh) && w < |s.ws|
    ensures Held(DoFire(s, w, due), InTimer(t), x) == Has(At(MovedDue(s, wh, w), InTimer(t), x))
  {
    assert Held(s, InTimer(t), x) == Has(At(wh, InTimer(t), x));
    assert x in wh ==> Fits(s, x, wh[x]);
  }

  lemma HeldFireElse(s: Sys, w: nat, due: seq<TimerId>, p: Place, x: CoId)
    requires w < |s.ws| && !p.InTimer? && !((p.InQueue? || p.InFuncQueue?) && p.w == w)
    ensures Held(DoFire(s, w, due), p, x) == Held(s, p, x)
  {
  }

  lemma HeldFire(s: Sys, wh: Where, w: nat, due: seq<TimerId>, p: Place, x: CoId)
    requires Good(s, wh) && w < |s.ws| && DueOrder(s.timers, s.now, due)
    ensures Held(DoFire(s, w, due), p, x) == Has(At(MovedDue(s, wh, w), p, x))
  {
    if p.InFuncQueue? && p.w == w {
      HeldFireFunc(s, wh, w, due, p.home, x);
    } else if p.InTimer? {
      HeldFireTimer(s, wh, w, due, p.t, x);
    } else {
      assert Held(s, p, x) == Has(At(wh, p, x));
      if p == InQueue(w) {
        HeldFireQueue(s, w, due, x);
      } else {
        HeldFireElse(s, w, due, p, x);
      }
    }
  }

  lemma RestFire(s: Sys, wh: Where, w: nat, due: seq<TimerId>)
    requires Rest(s, wh) && w < |s.ws|
    ensures Rest(DoFire(s, w, due), MovedDue(s, wh, w))
  {
    var s' := DoFire(s, w, due);
    var wh' := MovedDue(s, wh, w);
    forall v: nat | v < |s'.ws| ensures WorkerOk(s', v) {
      assert WorkerOk(s, v);
    }
    forall x | x in s'.cos ensures CoroOk(s', x) {
      assert CoroOk(s, x);
    }
    forall x | x in wh' ensures Fits(s', x, wh'[x]) {
      assert Fits(s, x, wh[x]);
    }
  }

  lemma KeepFire(s: Sys, wh: Where, w: nat, due: seq<TimerId>) returns (wh': Where)
    requires Good(s, wh) && w < |s.ws| && DueOrder(s.timers, s.now, due)
    ensures Good(DoFire(s, w, due), wh')
  {
    wh' := MovedDue(s, wh, w);
    RestFire(s, wh, w, due);
    forall p: Place, x: CoId ensures Held(DoFire(s, w, due), p, x) == Has(At(wh', p, x)) {
      HeldFire(s, wh, w, due, p, x);
    }
  }

  lemma KeepIdle(s: Sys, wh: Where, w: nat)
    requires Good(s, wh) && w < |s.ws| && s.ws[w].mode.Polling?
    ensures Good(SetW(s, w, s.ws[w].(mode := Looping)), wh)
  {
    var s' := SetW(s, w, s.ws[w].(mode := Looping));
    forall p: Place, x: CoId ensures Held(s', p, x) == Held(s, p, x) {
    }
    forall v: nat | v < |s'.ws| ensures WorkerOk(s', v) {
      assert WorkerOk(s, v);
    }
    forall x | x in s'.cos ensures CoroOk(s', x) {
      assert CoroOk(s, x);
    }
    forall x | x in wh ensures Fits(s', x, wh[x]) {
      assert Fits(s, x, wh[x]);
    }
  }

  lemma KeepPollEnd(s: Sys, wh: Where, w: nat, due: seq<TimerId>, events: seq<Report>) returns (wh': Where)
    requires Good(s, wh) && CanPollEnd(s, w, due, events)
    ensures Good(DoPollEnd(s, w, due, events), wh')
  {
    var e := Wait(s.ws[w].poller, events);
    assert WorkerOk(s, w);
    WaitConservesAll(s.ws[w].poller, events);
    WaitConsistent(s.ws[w].poller, events);
    var s1 := DoFire(s, w, due);
    var wh1 := KeepFire(s, wh, w, due);
    var s2 := Effected(s1, w, e);
    wh' := KeepEffected(s1, wh1, w, e);
    KeepIdle(s2, wh', w);
    assert DoPollEnd(s, w, due, events) == SetW(s2, w, s2.ws[w].(mode := Looping));
  }

  lemma {:induction false} FiredHas(p: map<TimerId, Entry>, due: seq<TimerId>, j: nat)
    requires j < |due| && due[j] in p
    ensures FuncTask(p[due[j]].func) in Fired(p, due)
  {
    if j < |due| - 1 {
      FiredHas(p, due[..|due| - 1], j);
    }
  }

  // A coroutine armed at one key, and that key only, is queued when its registration goes.
  lemma ReleasedIsOut(s: Sys, wh: Where, w: nat, e: Effect, k: Key)
    requires Exclusive(s, wh) && w < |s.ws| && Conserves(s.ws[w].poller, e)
    requires k in s.ws[w].poller.armed && s.ws[w].poller.armed[k].CoTask? && k !in e.poller.armed
    ensures s.ws[w].poller.armed[k] in TasksOf(e.out)
  {
    var p := s.ws[w].poller;
    var t := p.armed[k];
    forall k2 | k2 in p.armed && p.armed[k2] == t ensures k2 == k {
      assert Held(s, InEvent(w, k), t.co) == 1 && Held(s, InEvent(w, k2), t.co) == 1;
    }
    DeliveredOnce(p, e, t, k);
  }

  lemma QueuedIsHeld(s: Sys, wh: Where, w: nat, t: Task)
    requires Exclusive(s, wh) && w < |s.ws| && t in s.ws[w].queue
    ensures t.CoTask? ==> Held(s, InQueue(w), t.co) == 1
    ensures t.FuncTask? && t.func.Wake? ==> Held(s, InFuncQueue(w, t.func.home), t.func.co) == 1
  {
    assert multiset(s.ws[w].queue)[t] > 0;
    if t.CoTask? {
      assert Held(s, InQueue(w), t.co) == Has(At(wh, InQueue(w), t.co));
    } else if t.func.Wake? {
      assert Held(s, InFuncQueue(w, t.func.home), t.func.co) == Has(At(wh, InFuncQueue(w, t.func.home), t.func.co));
    }
  }

  // A poll pass queues the wakeup of every due sleeper, once.
  lemma PollWakes(s: Sys, wh: Where, w: nat, due: seq<TimerId>, events: seq<Report>, j: nat)
    requires Good(s, wh) && CanPollEnd(s, w, due, events) && j < |due| && s.timers[due[j]].func.Wake?
    ensures var f := s.timers[due[j]].func; Held(DoPollEnd(s, w, due, events), InFuncQueue(w, f.home), f.co) == 1
  {
    var wh' := KeepPollEnd(s, wh, w, due, events);
    FiredHas(s.timers, due, j);
    QueuedIsHeld(DoPollEnd(s, w, due, events), wh', w, FuncTask(s.timers[due[j]].func));
  }

  // A poll pass queues every coroutine whose registration it takes away, once.
  lemma PollReleases(s: Sys, wh: Where, w: nat, due: seq<TimerId>, events: seq<Report>, k: Key)
    requires Good(s, wh) && CanPollEnd(s, w, due, events)
    requires k in s.ws[w].poller.armed && s.ws[w].poller.armed[k].CoTask?
    requires k !in DoPollEnd(s, w, due, events).ws[w].poller.armed
    ensures Held(DoPollEnd(s, w, due, events), InQueue(w), s.ws[w].poller.armed[k].co) == 1
  {
    var wh' := KeepPollEnd(s, wh, w, due, events);
    WaitConservesAll(s.ws[w].poller, events);
    ReleasedIsOut(s, wh, w, Wait(s.ws[w].poller, events), k);
    QueuedIsHeld(DoPollEnd(s, w, due, events), wh', w, s.ws[w].poller.armed[k]);
  }

  lemma KeepTimerActions(s: Sys, wh: Where, a: Action)
    requires Good(s, wh) && Can(s, a) && (a.StartTimer? || a.StopTimer? || a.MoveTimer? || a.Tick?)
    ensures Good(Do(s, a), wh)
  {
    KeepTimers(s, Do(s, a), wh);
  }

  // The steps of a worker between coroutines.
  ghost predicate OfWorker(a: Action) {
    a.PopCo? || a.PopDead? || a.PopFunc? || a.PollStart? || a.PollEnd? || a.RunWake? || a.RunTimeout?
  }

  // The steps of a coroutine.
  ghost predicate OfCoroutine(a: Action) {
    a.Sleep? || a.IoStart? || a.IoRegister? || a.Yield? || a.IoReturn? || a.CloseFd? || a.WatchFd? || a.Finish?
  }

  lemma KeepWorkerStep(s: Sys, wh: Where, a: Action) returns (wh': Where)
    requires Good(s, wh) && Can(s, a) && OfWorker(a)
    ensures Good(Do(s, a), wh')
  {
    wh' := wh;
    match a
    case PopCo(w) => wh' := KeepPopCo(s, wh, w);
    case PopDead(w) => HeadCo(s, wh, w); assert false;
    case PopFunc(w, born) => wh' := KeepPopFunc(s, wh, w, born);
    case PollStart(w) => KeepPollStart(s, wh, w);
    case PollEnd(w, due, events) => wh' := KeepPollEnd(s, wh, w, due, events);
    case RunWake(w) => wh' := KeepRunWake(s, wh, w);
    case RunTimeout(w) => wh' := KeepRunTimeout(s, wh, w);
  }

  lemma KeepCoroutineStep(s: Sys, wh: Where, a: Action) returns (wh': Where)
    requires Good(s, wh) && Can(s, a) && OfCoroutine(a)
    ensures Good(Do(s, a), wh')
  {
    wh' := wh;
    match a
    case Sleep(w, ms) => wh' := KeepSleep(s, wh, w, ms);
    case IoStart(w, io) => KeepIoStart(s, wh, w, io);
    case IoRegister(w, accepted) =>
      if Registration(s, w, accepted).ok { wh' := KeepRegistered(s, wh, w, accepted); }
      else { KeepRefused(s, wh, w, accepted); }
    case Yield(w) => KeepYield(s, wh, w);
    case IoReturn(w, again) => KeepIoReturn(s, wh, w, again);
    case CloseFd(w, fd) => wh' := KeepCloseFd(s, wh, w, fd);
    case WatchFd(w, fd, dir, id, accepted) => KeepWatchFd(s, wh, w, fd, dir, id, accepted);
    case Finish(w, threw) => KeepFinish(s, wh, w, if threw then EXCEPT else DONE);
  }

  lemma KeepStep(s: Sys, wh: Where, a: Action) returns (wh': Where)
    requires Good(s, wh) && Can(s, a)
    ensures Good(Do(s, a), wh')
  {
    wh' := wh;
    if OfWorker(a) {
      wh' := KeepWorkerStep(s, wh, a);
    } else if OfCoroutine(a) {
      wh' := KeepCoroutineStep(s, wh, a);
    } else {
      match a
      case Enqueue(w, id) => KeepEnqueue(s, wh, w, id);
      case EnqueueCo(w, born) => wh' := KeepEnqueueCo(s, wh, w, born);
      case _ => KeepTimerActions(s, wh, a);
    }
  }

  lemma {:induction false} Reachable(n: nat, acts: seq<Action>) returns (wh: Where)
    ensures Good(Exec(n, acts), wh)
  {
    if acts == [] {
      wh := map[];
    } else {
      var s := Exec(n, acts[..|acts| - 1]);
      wh := Reachable(n, acts[..|acts| - 1]);
      if Can(s, acts[|acts| - 1]) {
        wh := KeepStep(s, wh, acts[|acts| - 1]);
      }
    }
  }

  // Wakeup ownership. In every reachable state, with any number of workers and whatever the
  // coroutines, the other threads and the kernel do: a coroutine that waits is held once, by exactly
  // one of the five kinds of holder, so it is neither lost nor resumed twice nor destroyed while
  // suspended; and a coroutine that runs or is finished is held by nothing, so no old wakeup ever
  // reaches it after its stack was reused.
  lemma OneHolder(n: nat, acts: seq<Action>, c: CoId)
    requires c in Exec(n, acts).cos
    ensures var s := Exec(n, acts);
            if Waiting(s.cos[c])
            then exists p :: Held(s, p, c) == 1 && forall q: Place :: q != p ==> Held(s, q, c) == 0
            else forall q: Place :: Held(s, q, c) == 0
  {
    var s := Exec(n, acts);
    var wh := Reachable(n, acts);
    forall q: Place ensures Held(s, q, c) == Has(At(wh, q, c)) {
    }
    if Waiting(s.cos[c]) {
      assert Held(s, wh[c], c) == 1;
    }
  }

  // The assertions of the coroutine code hold in every reachable state: what is resumed does not
  // run (reyao/coroutine.cc:67), what is reused is over (line 56), what yields runs (line 96). And a
  // worker whose queue is not empty never goes to poll.
  lemma AssertionsHold(n: nat, acts: seq<Action>, w: nat)
    requires w < |Exec(n, acts).ws|
    ensures var s := Exec(n, acts);
            && (Pops(s, w) && s.ws[w].queue[0].CoTask? ==>
                  CanPopCo(s, w) && s.cos[s.ws[w].queue[0].co].state != RUNNING)
            && (Pops(s, w) && s.ws[w].coFunc.Some? ==>
                  s.ws[w].coFunc.value in s.cos && Finished(s.cos[s.ws[w].coFunc.value]))
            && (CanYield(s, w) ==> CurCo(s, w).state == RUNNING)
            && (forall v: nat, c | c in s.cos && s.cos[c].state == RUNNING && s.cos[c].home == w
                  && v < |s.ws| && s.ws[v].mode == Busy(c) :: v == w)
  {
    var s := Exec(n, acts);
    var wh := Reachable(n, acts);
    assert WorkerOk(s, w);
    if Pops(s, w) && s.ws[w].queue[0].CoTask? {
      HeadCo(s, wh, w);
    }
    forall v: nat, c | c in s.cos && s.cos[c].state == RUNNING && s.cos[c].home == w
                  && v < |s.ws| && s.ws[v].mode == Busy(c) ensures v == w {
      assert WorkerOk(s, v);
    }
  }

  // No early wakeup: a sleeper found in a queue, or whose wakeup is under way, has reached its
  // deadline; before it, only its timer holds it.
  lemma NoEarlyWakeup(n: nat, acts: seq<Action>, c: CoId)
    requires c in Exec(n, acts).cos && Exec(n, acts).cos[c].phase.Sleeping?
    requires Exec(n, acts).now < Exec(n, acts).cos[c].phase.deadline
    ensures var s := Exec(n, acts);
            exists t :: Held(s, InTimer(t), c) == 1 && t in s.timers && s.timers[t].expire == s.cos[c].phase.deadline
                        && forall q: Place :: q != InTimer(t) ==> Held(s, q, c) == 0
  {
    var s := Exec(n, acts);
    var wh := Reachable(n, acts);
    assert CoroOk(s, c) && Fits(s, c, wh[c]);
    assert Held(s, wh[c], c) == 1;
    forall q: Place ensures Held(s, q, c) == Has(At(wh, q, c)) {
    }
  }
}
