// reyao/epoller.cc: the registrations as the source stores them, proved against module Polling.
module Epollers {
  import opened Prelude
  import opened Tasks
  import opened Polling
  import opened PollingRuns
  import opened Timers

  // reyao/worker.h:57-115: the queue of tasks of one worker. A task without function and coroutine
  // is dropped.
  class WorkerQueue {
    var tasks: seq<Task>
    var idle: bool

    // The answer tells whether the worker must be notified.
    method AddTask(co: Option<CoId>, func: Option<Func>) returns (needNotify: bool)
      modifies this`tasks
      ensures needNotify <==> old(tasks) == [] || idle
      ensures tasks == old(tasks) + (match co
                                     case Some(c) => [CoTask(c)]
                                     case None => if func.Some? then [FuncTask(func.value)] else [])
    {
      needNotify := tasks == [] || idle;
      match co
      case Some(c) => tasks := tasks + [CoTask(c)];
      case None => if func.Some? { tasks := tasks + [FuncTask(func.value)]; }
    }
  }

  // reyao/epoller.h:26-30
  datatype EventCtx = EventCtx(worker: WorkerQueue?, co: Option<CoId>, func: Option<Func>) {
    // No registration.
    ghost predicate Clear() { worker == null && co == None && func == None }

    // One registration: a worker, and exactly one of coroutine and function.
    ghost predicate Holds(w: WorkerQueue, t: Task) {
      && worker == w
      && match t
         case CoTask(c) => co == Some(c) && func == None
         case FuncTask(f) => co == None && func == Some(f)
    }
  }

  // reyao/epoller.h:25-42
  datatype IOEvent = IOEvent(read: EventCtx, write: EventCtx, types: set<Dir>, fd: nat) {
    function Ctx(d: Dir): EventCtx { if d == In then read else write }
    function With(d: Dir, c: EventCtx): IOEvent { if d == In then this.(read := c) else this.(write := c) }
  }

  const NO_CTX := EventCtx(null, None, None)

  // Slot d of e says what `armed` says about (fd, d).
  ghost predicate SlotMeans(e: IOEvent, fd: nat, d: Dir, armed: map<Key, Task>, w: WorkerQueue) {
    if (fd, d) in armed then d in e.types && e.Ctx(d).Holds(w, armed[(fd, d)])
    else d !in e.types && e.Ctx(d).Clear()
  }

  ghost predicate AllMean(es: seq<IOEvent>, armed: map<Key, Task>, w: WorkerQueue) {
    && (forall k | k in armed :: k.0 < |es|)
    && (forall fd, d | 0 <= fd < |es| :: SlotMeans(es[fd], fd, d, armed, w))
    && (forall fd | 0 <= fd < |es| :: es[fd].fd == fd)
  }

  lemma UpdateSlots(es: seq<IOEvent>, armed: map<Key, Task>, w: WorkerQueue,
                    fd: nat, e: IOEvent, armed': map<Key, Task>)
    requires AllMean(es, armed, w) && fd < |es| && e.fd == fd
    requires SlotMeans(e, fd, In, armed', w) && SlotMeans(e, fd, Out, armed', w)
    requires forall k: Key | k.0 != fd :: k in armed <==> k in armed'
    requires forall k: Key | k.0 != fd && k in armed :: armed'[k] == armed[k]
    ensures AllMean(es[fd := e], armed', w)
  {
    var es' := es[fd := e];
    forall x, d | 0 <= x < |es'| ensures SlotMeans(es'[x], x, d, armed', w) {
      assert d == In || d == Out;
      if x != fd {
        assert SlotMeans(es[x], x, d, armed, w);
      }
    }
  }

  lemma OneLess(armed: map<Key, Task>, k: Key)
    requires k in armed
    ensures |armed - {k}| == |armed| - 1
  {
    assert (armed - {k}).Keys == armed.Keys - {k};
  }

  lemma WithoutEach(armed: map<Key, Task>, fd: nat, ds: set<Dir>)
    ensures Without(armed, fd, ds) ==
            var a := if In in ds then armed - {(fd, In)} else armed;
            if Out in ds then a - {(fd, Out)} else a
  {
    forall k: Key ensures k.1 == In || k.1 == Out {
    }
  }

  function Fetched(p: Poller, fd: nat, hit: set<Dir>): seq<Delivery> {
    (if In in hit then Fetch(p, fd, In) else []) + (if Out in hit then Fetch(p, fd, Out) else [])
  }

  lemma FetchBoth(before: seq<Task>, p: Poller, fd: nat, hit: set<Dir>)
    ensures before + TasksOf(Fetched(p, fd, hit))
         == (before + (if In in hit then TasksOf(Fetch(p, fd, In)) else []))
            + (if Out in hit then TasksOf(Fetch(p, fd, Out)) else [])
  {
    TasksOfAppend(if In in hit then Fetch(p, fd, In) else [], if Out in hit then Fetch(p, fd, Out) else []);
  }

  // The reports from i on, as the loop sees them: `done` is what the ones before i delivered.
  ghost predicate Remaining(p: Poller, events: seq<Report>, i: nat, total: Effect, done: seq<Delivery>) {
    && i <= |events| && Reportable(p, events[i..])
    && total.poller == Wait(p, events[i..]).poller
    && total.out == done + Wait(p, events[i..]).out
  }

  lemma NextReport(p: Poller, events: seq<Report>, i: nat, total: Effect, done: seq<Delivery>)
    requires p.Consistent() && i < |events| && Remaining(p, events, i, total, done)
    ensures events[i].fd in p.kernel && events[i].events <= p.kernel[events[i].fd]
    ensures Remaining(Deliver(p, events[i]).poller, events, i + 1, total, done + Deliver(p, events[i]).out)
    ensures TasksOf(done + Deliver(p, events[i]).out) == TasksOf(done) + TasksOf(Deliver(p, events[i]).out)
  {
    var rest := events[i..];
    assert rest[0] == events[i] && rest[1..] == events[i + 1..];
    DeliverLegal(p, rest);
    var e := Deliver(p, events[i]);
    var after := Wait(e.poller, events[i + 1..]).out;
    assert done + (e.out + after) == (done + e.out) + after;
    TasksOfAppend(done, e.out);
  }

  class Epoller {
    const worker: WorkerQueue
    var ioEvents: seq<IOEvent>
    var pendingEvents: nat
    var kernel: map<nat, set<Dir>>   // the kernel's side of epfd_
    ghost var poller: Poller         // what all of this means

    ghost predicate Valid()
      reads this
    {
      && AllMean(ioEvents, poller.armed, worker)
      && poller.kernel == kernel
      && poller.Consistent()
      && pendingEvents == |poller.armed|
    }

    constructor (w: WorkerQueue)
      ensures Valid() && worker == w && poller == Poller(map[], map[])
    {
      worker := w;
      ioEvents := [];
      pendingEvents := 0;
      kernel := map[];
      poller := Poller(map[], map[]);
    }

    lemma TypesAgree(fd: nat)
      requires Valid() && fd < |ioEvents|
      ensures ioEvents[fd].types == poller.Types(fd)
    {
      forall d: Dir ensures d in ioEvents[fd].types <==> d in poller.Types(fd) {
        assert SlotMeans(ioEvents[fd], fd, d, poller.armed, worker);
      }
    }

    // reyao/epoller.h:59-67, called with fd * 1.5 truncated. It makes room for fd unless fd < 2.
    method Resize(size: nat)
      requires Valid() && size >= |ioEvents|
      modifies this`ioEvents
      ensures Valid() && |ioEvents| == size
    {
      while |ioEvents| < size
        invariant Valid() && |ioEvents| <= size
      {
        ioEvents := ioEvents + [IOEvent(NO_CTX, NO_CTX, {}, |ioEvents|)];
      }
    }

    // epoll_ctl: ADD needs the fd absent, MOD and DEL need it present. ADD and MOD may be refused.
    method EpollCtlSet(add: bool, fd: nat, mask: set<Dir>, accepted: bool) returns (rt: bool)
      modifies this`kernel
      ensures rt <==> accepted && (add <==> fd !in old(kernel))
      ensures kernel == if rt then old(kernel)[fd := mask] else old(kernel)
    {
      rt := accepted && (add <==> fd !in kernel);
      if rt { kernel := kernel[fd := mask]; }
    }

    method EpollCtlDel(fd: nat) returns (rt: bool)
      modifies this`kernel
      ensures rt <==> fd in old(kernel)
      ensures kernel == old(kernel) - {fd}
    {
      rt := fd in kernel;
      kernel := kernel - {fd};
    }

    // reyao/epoller.cc:31-42
    method TriggleEvent(fd: nat, d: Dir)
      requires AllMean(ioEvents, poller.armed, worker) && (fd, d) in poller.armed
      modifies this`ioEvents, this`poller, worker
      ensures AllMean(ioEvents, poller.armed, worker) && |ioEvents| == |old(ioEvents)|
      ensures poller == old(poller).(armed := old(poller).armed - {(fd, d)})
      ensures ioEvents[fd].types == old(ioEvents[fd].types) - {d}
      ensures worker.tasks == old(worker.tasks) + TasksOf(Fetch(old(poller), fd, d))
    {
      var e := ioEvents[fd];
      assert SlotMeans(e, fd, In, poller.armed, worker) && SlotMeans(e, fd, Out, poller.armed, worker);
      var ctx := e.Ctx(d);
      var _ := ctx.worker.AddTask(ctx.co, ctx.func);
      var left := if ctx.co.Some? then ctx.(co := None, worker := null) else ctx.(func := None, worker := null);
      var e' := e.With(d, left).(types := e.types - {d});
      UpdateSlots(ioEvents, poller.armed, worker, fd, e', poller.armed - {(fd, d)});
      ioEvents := ioEvents[fd := e'];
      poller := poller.(armed := poller.armed - {(fd, d)});
    }

    // reyao/epoller.cc:65-102. Growing to fd * 1.5 makes room for fd only from 2 on; without room the
    // table is accessed out of range, which `outOfRange` tells.
    method AddEvent(fd: nat, d: Dir, co: CoId, func: Option<Func>, accepted: bool) returns (ok: bool, outOfRange: bool)
      requires Valid()
      modifies this
      ensures Valid()
      ensures outOfRange <==> |old(ioEvents)| <= fd < 2
      ensures outOfRange ==> !ok && poller == old(poller)
      ensures !outOfRange ==> var e := Add(old(poller), fd, d, TaskOf(co, func), accepted); ok == e.ok && poller == e.poller
    {
      if |ioEvents| <= fd {
        Grow(fd);
      }
      if |ioEvents| <= fd {
        return false, true;
      }
      ok := Register(fd, d, co, func, accepted);
      outOfRange := false;
    }

    method Grow(fd: nat)
      requires Valid() && |ioEvents| <= fd
      modifies this`ioEvents
      ensures Valid() && (fd < |ioEvents| <==> fd >= 2)
    {
      Resize(fd * 3 / 2);
    }

    method Register(fd: nat, d: Dir, co: CoId, func: Option<Func>, accepted: bool) returns (ok: bool)
      requires Valid() && fd < |ioEvents|
      modifies this
      ensures Valid()
      ensures var e := Add(old(poller), fd, d, TaskOf(co, func), accepted);
              ok == e.ok && poller == e.poller
    {
      TypesAgree(fd);
      if d in ioEvents[fd].types {
        return false;
      }
      AddConsistent(poller, fd, d, TaskOf(co, func), accepted);
      ok := EpollCtlSet(ioEvents[fd].types == {}, fd, ioEvents[fd].types + {d}, accepted);
      if ok {
        Arm(fd, d, co, func);
        poller := poller.(kernel := kernel);
      }
    }

    // The registration itself (lines 90-101); the two asserted fields are indeed empty.
    method Arm(fd: nat, d: Dir, co: CoId, func: Option<Func>)
      requires AllMean(ioEvents, poller.armed, worker) && pendingEvents == |poller.armed|
      requires fd < |ioEvents| && (fd, d) !in poller.armed
      modifies this`ioEvents, this`poller, this`pendingEvents
      ensures AllMean(ioEvents, poller.armed, worker) && pendingEvents == |poller.armed|
      ensures poller == old(poller).(armed := old(poller).armed[(fd, d) := TaskOf(co, func)])
    {
      var e := ioEvents[fd];
      assert SlotMeans(e, fd, In, poller.armed, worker) && SlotMeans(e, fd, Out, poller.armed, worker);
      pendingEvents := pendingEvents + 1;
      var ctx := e.Ctx(d);
      assert ctx.co.None? && ctx.worker == null;
      var armed := if func.Some? then ctx.(worker := worker, func := func)
                   else ctx.(worker := worker, co := Some(co));
      var e' := e.With(d, armed).(types := e.types + {d});
      UpdateSlots(ioEvents, poller.armed, worker, fd, e', poller.armed[(fd, d) := TaskOf(co, func)]);
      ioEvents := ioEvents[fd := e'];
      poller := poller.(armed := poller.armed[(fd, d) := TaskOf(co, func)]);
    }

    // A given function is registered, otherwise the running coroutine.
    ghost function TaskOf(co: CoId, func: Option<Func>): Task {
      if func.Some? then FuncTask(func.value) else CoTask(co)
    }

    // The common part of reyao/epoller.cc:104-131 and 135-158: stop watching one direction.
    method Unwatch(fd: nat, d: Dir) returns (ok: bool)
      requires Valid() && fd < |ioEvents| && d in ioEvents[fd].types
      modifies this`kernel
      ensures ok <==> fd in poller.kernel
      ensures kernel == if ok then Watch(poller.kernel, fd, poller.Types(fd) - {d}) else poller.kernel
    {
      TypesAgree(fd);
      var newTypes := ioEvents[fd].types - {d};
      if newTypes != {} {
        ok := EpollCtlSet(false, fd, newTypes, true);
      } else {
        ok := EpollCtlDel(fd);
      }
    }

    // reyao/epoller.cc:104-133
    method DelEvent(fd: nat, d: Dir) returns (ok: bool)
      requires Valid()
      modifies this
      ensures Valid()
      ensures ok == Take(old(poller), fd, d).ok && poller == Take(old(poller), fd, d).poller
    {
      if |ioEvents| <= fd {
        return false;
      }
      var e := ioEvents[fd];
      assert SlotMeans(e, fd, In, poller.armed, worker) && SlotMeans(e, fd, Out, poller.armed, worker);
      if d !in e.types {
        return false;
      }
      ok := Unwatch(fd, d);
      if !ok {
        return;
      }
      pendingEvents := pendingEvents - 1;
      TakeConsistent(poller, fd, d);
      var e' := e.With(d, EventCtx(null, None, None)).(types := e.types - {d});
      UpdateSlots(ioEvents, poller.armed, worker, fd, e', poller.armed - {(fd, d)});
      ioEvents := ioEvents[fd := e'];
      poller := Take(poller, fd, d).poller;
    }

    // reyao/epoller.cc:135-161
    method HandleEvent(fd: nat, d: Dir) returns (ok: bool)
      requires Valid()
      modifies this, worker
      ensures Valid()
      ensures var e := Take(old(poller), fd, d);
              ok == e.ok && poller == e.poller && worker.tasks == old(worker.tasks) + TasksOf(e.out)
    {
      if |ioEvents| <= fd {
        return false;
      }
      assert SlotMeans(ioEvents[fd], fd, d, poller.armed, worker);
      if d !in ioEvents[fd].types {
        return false;
      }
      ok := Unwatch(fd, d);
      if !ok {
        return;
      }
      TakeConsistent(poller, fd, d);
      ghost var p := poller;
      TriggleEvent(fd, d);
      poller := poller.(kernel := kernel);
      pendingEvents := pendingEvents - 1;
    }

    // reyao/epoller.cc:163-194
    method HandleAllEvent(fd: nat) returns (ok: bool)
      requires Valid()
      modifies this, worker
      ensures Valid()
      ensures var e := TakeAll(old(poller), fd);
              ok == e.ok && poller == e.poller && worker.tasks == old(worker.tasks) + TasksOf(e.out)
    {
      if |ioEvents| <= fd {
        assert poller.Types(fd) == {};
        return false;
      }
      TypesAgree(fd);
      if ioEvents[fd].types == {} {
        return false;
      }
      ok := EpollCtlDel(fd);
      if !ok {
        return;
      }
      TakeAllConsistent(poller, fd);
      TriggleBoth(fd, ioEvents[fd].types);
      poller := poller.(kernel := kernel);
    }

    // Lines 185-192 and 264-271: trigger the given directions, reading first.
    method TriggleBoth(fd: nat, hit: set<Dir>)
      requires AllMean(ioEvents, poller.armed, worker) && pendingEvents == |poller.armed|
      requires hit <= poller.Types(fd)
      modifies this`ioEvents, this`poller, this`pendingEvents, worker
      ensures AllMean(ioEvents, poller.armed, worker) && pendingEvents == |poller.armed|
      ensures poller == old(poller).(armed := Without(old(poller).armed, fd, hit))
      ensures worker.tasks == old(worker.tasks) + TasksOf(Fetched(old(poller), fd, hit))
    {
      WithoutEach(poller.armed, fd, hit);
      FetchBoth(worker.tasks, poller, fd, hit);
      if In in hit {
        OneLess(poller.armed, (fd, In));
        TriggleEvent(fd, In);
        pendingEvents := pendingEvents - 1;
      }
      if Out in hit {
        OneLess(poller.armed, (fd, Out));
        TriggleEvent(fd, Out);
        pendingEvents := pendingEvents - 1;
      }
    }

    // reyao/epoller.cc:235-272: one reported event.
    method Dispatch(r: Report)
      requires Valid() && r.fd in kernel && r.events <= kernel[r.fd]
      modifies this, worker
      ensures Valid()
      ensures var e := Deliver(old(poller), r);
              poller == e.poller && worker.tasks == old(worker.tasks) + TasksOf(e.out)
    {
      var fd := r.fd;
      DeliverLegal(poller, [r]);
      assert fd < |ioEvents| by {
        var d :| d in poller.Types(fd);
        assert (fd, d) in poller.armed;
      }
      TypesAgree(fd);
      var types := ioEvents[fd].types;
      var hit := if r.errhup then r.events + types else r.events;
      if types * hit == {} {
        return;
      }
      ghost var p := poller;
      if types - hit != {} {
        var _ := EpollCtlSet(false, fd, {}, true);
      } else {
        var _ := EpollCtlDel(fd);
      }
      TriggleBoth(fd, hit);
      poller := poller.(kernel := kernel);
      assert poller == Deliver(p, r).poller;
    }

    method DispatchNext(events: seq<Report>, i: nat, ghost total: Effect, ghost done: seq<Delivery>, ghost base: seq<Task>)
      returns (ghost done': seq<Delivery>)
      requires i < |events| && Valid() && Remaining(poller, events, i, total, done)
      requires worker.tasks == base + TasksOf(done)
      modifies this, worker
      ensures Valid() && Remaining(poller, events, i + 1, total, done')
      ensures worker.tasks == base + TasksOf(done')
    {
      NextReport(poller, events, i, total, done);
      ghost var out := Deliver(poller, events[i]).out;
      done' := done + out;
      TasksOfAppend(done, out);
      Assoc(base, TasksOf(done), TasksOf(out));
      Dispatch(events[i]);
    }

    // reyao/epoller.cc:224-273: the loop over the reported events.
    method DispatchAll(events: seq<Report>)
      requires Valid() && Reportable(poller, events)
      modifies this, worker
      ensures Valid() && poller == Wait(old(poller), events).poller
      ensures worker.tasks == old(worker.tasks) + TasksOf(Wait(old(poller), events).out)
    {
      ghost var total := Wait(poller, events);
      ghost var done: seq<Delivery> := [];
      ghost var base := worker.tasks;
      var i := 0;
      assert events[0..] == events;
      while i < |events|
        invariant 0 <= i <= |events| && Valid() && Remaining(poller, events, i, total, done)
        invariant worker.tasks == base + TasksOf(done)
      {
        done := DispatchNext(events, i, total, done, base);
        i := i + 1;
      }
      assert events[i..] == [] && total.out == done;
    }

    // reyao/epoller.cc:216-273: after epoll_wait returned. The functions of the due timers are
    // queued first, in deadline order, and then the tasks of the reported events.
    method AfterPoll(events: seq<Report>, timers: TimeManager, now: int, probe: nat) returns (ghost order: seq<Timer>)
      requires Valid() && timers.Valid() && Reportable(poller, events)
      modifies this, worker, timers, timers.all
      ensures Valid() && timers.Valid()
      ensures DueOrder(old(timers.pending), now, order)
      ensures timers.pending == AfterExpiry(old(timers.pending), now)
      ensures poller == Wait(old(poller), events).poller
      ensures worker.tasks == old(worker.tasks) + Fired(old(timers.pending), order)
                              + TasksOf(Wait(old(poller), events).out)
    {
      ghost var p := timers.pending;
      var funcs;
      assert this as object !in timers.all && worker as object !in timers.all;
      funcs, order := timers.ExpiredFunctions(now, probe);
      AddFuncs(funcs, p, order);
      DispatchAll(events);
    }

    // reyao/worker.h:91-104
    method AddFuncs(funcs: seq<Func>, ghost p: map<Timer, Entry>, ghost order: seq<Timer>)
      requires |funcs| == |order| && forall i | 0 <= i < |order| :: order[i] in p && funcs[i] == p[order[i]].func
      modifies worker
      ensures worker.tasks == old(worker.tasks) + Fired(p, order)
    {
      for i := 0 to |funcs|
        invariant worker.tasks == old(worker.tasks) + Fired(p, order[..i])
      {
        var _ := worker.AddTask(None, Some(funcs[i]));
        assert order[..i + 1] == order[..i] + [order[i]];
      }
      assert order[..|order|] == order;
    }
  }

  // The tasks that run the functions of the given timers.
  ghost function Fired<K>(p: map<K, Entry>, order: seq<K>): seq<Task> {
    if order == [] then []
    else Fired(p, order[..|order| - 1])
         + (var k := order[|order| - 1]; if k in p then [FuncTask(p[k].func)] else [])
  }

  lemma {:induction false} TasksOfAppend(a: seq<Delivery>, b: seq<Delivery>)
    ensures TasksOf(a + b) == TasksOf(a) + TasksOf(b)
  {
    if a == [] {
      assert a + b == b;
    } else {
      assert (a + b)[1..] == a[1..] + b;
      TasksOfAppend(a[1..], b);
    }
  }
}
