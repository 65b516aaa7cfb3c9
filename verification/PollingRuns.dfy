// What the poller promises over whole runs.
module PollingRuns {
  import opened Prelude
  import opened Tasks
  import opened Polling

  datatype Op =
    | AddOp(fd: nat, d: Dir, task: Task, accepted: bool)
    | DelOp(fd: nat, d: Dir)
    | HandleOp(fd: nat, d: Dir)
    | HandleAllOp(fd: nat)
    | WaitOp(rs: seq<Report>)
    | CloseOp(fd: nat)       // by whoever owns the descriptor, without going through this poller

  function Apply(p: Poller, op: Op): Effect {
    match op
    case AddOp(fd, d, t, accepted) => Add(p, fd, d, t, accepted)
    case DelOp(fd, d) => Take(p, fd, d)
    case HandleOp(fd, d) => Take(p, fd, d)
    case HandleAllOp(fd) => TakeAll(p, fd)
    case WaitOp(rs) => Wait(p, rs)
    case CloseOp(fd) => Effect(Closed(p, fd), true, [])
  }

  ghost predicate Possible(p: Poller, op: Op) {
    op.WaitOp? ==> Reportable(p, op.rs)
  }

  // The tasks of the deliveries on one key, in order.
  function On(out: seq<Delivery>, k: Key): seq<Task> {
    if out == [] then []
    else (if out[0].key == k then [out[0].task] else []) + On(out[1..], k)
  }

  lemma {:induction false} OnAppend(a: seq<Delivery>, b: seq<Delivery>, k: Key)
    ensures On(a + b, k) == On(a, k) + On(b, k)
  {
    if a == [] {
      assert a + b == b;
    } else {
      assert (a + b)[1..] == a[1..] + b;
      OnAppend(a[1..], b, k);
    }
  }

  function Armed(p: Poller, k: Key): seq<Task> {
    if k in p.armed then [p.armed[k]] else []
  }

  function Added(p: Poller, op: Op, k: Key): seq<Task> {
    if op.AddOp? && (op.fd, op.d) == k && Apply(p, op).ok then [op.task] else []
  }

  lemma OnFetch(p: Poller, fd: nat, d: Dir, k: Key)
    ensures On(Fetch(p, fd, d), k) == if (fd, d) == k then Armed(p, k) else []
  {
  }

  lemma DeliverOut(p: Poller, r: Report, k: Key)
    requires p.Types(r.fd) * Real(p, r) != {}
    ensures On(Deliver(p, r).out, k) == if k.0 == r.fd && k.1 in Real(p, r) then Armed(p, k) else []
  {
    assert k.1 == In || k.1 == Out;
    OnAppend(if In in Real(p, r) then Fetch(p, r.fd, In) else [],
             if Out in Real(p, r) then Fetch(p, r.fd, Out) else [], k);
    OnFetch(p, r.fd, In, k);
    OnFetch(p, r.fd, Out, k);
  }

  lemma DeliverConserves(p: Poller, r: Report, k: Key)
    ensures Armed(p, k) == On(Deliver(p, r).out, k) + Armed(Deliver(p, r).poller, k)
  {
    if p.Types(r.fd) * Real(p, r) != {} {
      DeliverOut(p, r, k);
    }
  }

  lemma {:induction false} WaitConserves(p: Poller, rs: seq<Report>, k: Key)
    ensures Armed(p, k) == On(Wait(p, rs).out, k) + Armed(Wait(p, rs).poller, k)
    decreases rs
  {
    if rs != [] {
      var e := Deliver(p, rs[0]);
      DeliverConserves(p, rs[0], k);
      WaitConserves(e.poller, rs[1..], k);
      OnAppend(e.out, Wait(e.poller, rs[1..]).out, k);
    }
  }

  lemma TakeAllConserves(p: Poller, fd: nat, k: Key)
    ensures Armed(p, k) == On(TakeAll(p, fd).out, k) + Armed(TakeAll(p, fd).poller, k)
  {
    OnAppend(Fetch(p, fd, In), Fetch(p, fd, Out), k);
    assert k.1 == In || k.1 == Out;
    assert k in p.armed ==> k.1 in p.Types(k.0);
  }

  lemma OpConserves(p: Poller, op: Op, k: Key)
    ensures Armed(p, k) + Added(p, op, k) == On(Apply(p, op).out, k) + Armed(Apply(p, op).poller, k)
  {
    match op
    case HandleAllOp(fd) => TakeAllConserves(p, fd, k);
    case WaitOp(rs) => WaitConserves(p, rs, k);
    case _ =>
  }

  datatype History = History(poller: Poller, added: seq<Task>, removed: seq<Task>)

  // Everything ever registered on key k, and everything ever taken off it (enqueued, or given up
  // by delEvent), in order.
  function Run(p: Poller, ops: seq<Op>, k: Key): History {
    if ops == [] then History(p, [], [])
    else
      var h := Run(p, ops[..|ops| - 1], k);
      var op := ops[|ops| - 1];
      var e := Apply(h.poller, op);
      History(e.poller, h.added + Added(h.poller, op, k), h.removed + On(e.out, k))
  }

  // Exactly-once delivery: over any run, what was registered on a key is what was taken off it, in
  // the same order and each once, followed by the registration still pending, if any.
  lemma {:induction false} ExactlyOnce(ops: seq<Op>, k: Key)
    ensures var h := Run(Poller(map[], map[]), ops, k);
            h.added == h.removed + Armed(h.poller, k)
  {
    if ops != [] {
      var h := Run(Poller(map[], map[]), ops[..|ops| - 1], k);
      var op := ops[|ops| - 1];
      ExactlyOnce(ops[..|ops| - 1], k);
      OpConserves(h.poller, op, k);
      var e := Apply(h.poller, op);
      assert Run(Poller(map[], map[]), ops, k) ==
             History(e.poller, h.added + Added(h.poller, op, k), h.removed + On(e.out, k));
      assert (h.removed + Armed(h.poller, k)) + Added(h.poller, op, k)
          == h.removed + (Armed(h.poller, k) + Added(h.poller, op, k))
          == h.removed + (On(e.out, k) + Armed(e.poller, k));
    }
  }

  lemma DeliverTypes(p: Poller, r: Report, fd: nat)
    ensures Deliver(p, r).poller.Types(fd) ==
            if fd == r.fd then p.Types(fd) - Real(p, r) else p.Types(fd)
  {
    var was := p.Types(fd);
    if fd == r.fd && was * Real(p, r) == {} {
      assert forall d | d in was :: d in Real(p, r) ==> d in was * Real(p, r);
    }
  }

  lemma DeliverConsistent(p: Poller, r: Report)
    requires p.Consistent()
    ensures Deliver(p, r).poller.Consistent()
    ensures p.Synced() ==> Deliver(p, r).poller.Synced()
  {
    var q := Deliver(p, r).poller;
    forall fd ensures q.Types(fd) == if fd == r.fd then p.Types(fd) - Real(p, r) else p.Types(fd) {
      DeliverTypes(p, r, fd);
    }
    assert forall k | k in q.armed :: k.1 in q.Types(k.0);
  }

  // No assertion of triggleEvent fails: what is triggered is waited for.
  lemma DeliverLegal(p: Poller, rs: seq<Report>)
    requires p.Consistent() && rs != [] && Reportable(p, rs)
    ensures Real(p, rs[0]) <= p.Types(rs[0].fd)
    ensures Deliver(p, rs[0]).poller.Consistent()
    ensures p.Synced() ==> Deliver(p, rs[0]).poller.Synced()
    ensures Reportable(Deliver(p, rs[0]).poller, rs[1..])
  {
    DeliverConsistent(p, rs[0]);
    var q := Deliver(p, rs[0]).poller;
    assert forall fd | fd != rs[0].fd && fd in p.kernel :: fd in q.kernel && q.kernel[fd] == p.kernel[fd];
  }

  // Through a whole pass: given that the kernel knew the reported fds when epoll_wait returned, it still
  // knows each one when the pass comes to it, and what is triggered is waited for.
  lemma {:induction false} PassLegal(p: Poller, rs: seq<Report>, i: nat)
    requires p.Consistent() && Reportable(p, rs) && i < |rs|
    ensures var q := Wait(p, rs[..i]).poller; rs[i].fd in q.kernel && Real(q, rs[i]) <= q.Types(rs[i].fd)
    decreases i
  {
    DeliverLegal(p, rs);
    if i > 0 {
      assert rs[..i][0] == rs[0] && rs[..i][1..] == rs[1..][..i - 1];
      PassLegal(Deliver(p, rs[0]).poller, rs[1..], i - 1);
    }
  }

  lemma {:induction false} WaitConsistent(p: Poller, rs: seq<Report>)
    requires p.Consistent() && Reportable(p, rs)
    ensures Wait(p, rs).poller.Consistent()
    ensures p.Synced() ==> Wait(p, rs).poller.Synced()
    decreases rs
  {
    if rs != [] {
      DeliverLegal(p, rs);
      WaitConsistent(Deliver(p, rs[0]).poller, rs[1..]);
    }
  }

  lemma TypesAfter(p: Poller, q: Poller, fd: nat, ds: set<Dir>)
    requires forall x, d :: (x, d) in q.armed <==> if x == fd then d in ds else (x, d) in p.armed
    ensures forall x :: q.Types(x) == if x == fd then ds else p.Types(x)
  {
  }

  lemma TakeConsistent(p: Poller, fd: nat, d: Dir)
    requires p.Consistent()
    ensures Take(p, fd, d).poller.Consistent()
    ensures p.Synced() ==> Take(p, fd, d).poller.Synced()
  {
    var q := Take(p, fd, d).poller;
    if q != p {
      TypesAfter(p, q, fd, p.Types(fd) - {d});
      assert forall k | k in q.armed :: k.1 in q.Types(k.0);
    }
  }

  lemma AddConsistent(p: Poller, fd: nat, d: Dir, t: Task, accepted: bool)
    requires p.Consistent()
    ensures Add(p, fd, d, t, accepted).poller.Consistent()
    ensures p.Synced() ==> Add(p, fd, d, t, accepted).poller.Synced()
  {
    var q := Add(p, fd, d, t, accepted).poller;
    if Add(p, fd, d, t, accepted).ok {
      TypesAfter(p, q, fd, p.Types(fd) + {d});
    }
  }

  lemma TakeAllConsistent(p: Poller, fd: nat)
    requires p.Consistent()
    ensures TakeAll(p, fd).poller.Consistent()
    ensures p.Synced() ==> TakeAll(p, fd).poller.Synced()
  {
    var q := TakeAll(p, fd).poller;
    if TakeAll(p, fd).ok {
      TypesAfter(p, q, fd, {});
    }
  }

  // Closing an fd behind the poller's back keeps the weak half of the correspondence with the
  // kernel, and the strong half exactly when nobody waited on that fd here.
  lemma ClosedConsistent(p: Poller, fd: nat)
    requires p.Consistent()
    ensures Closed(p, fd).Consistent()
    ensures p.Synced() ==> (Closed(p, fd).Synced() <==> p.Types(fd) == {})
  {
    assert forall x :: Closed(p, fd).Types(x) == p.Types(x);
    assert forall k | k in p.armed :: k.1 in p.Types(k.0);
    if d :| d in p.Types(fd) {
      assert (fd, d) in Closed(p, fd).armed;
    }
  }

  lemma OpConsistent(p: Poller, op: Op)
    requires p.Consistent() && Possible(p, op)
    ensures Apply(p, op).poller.Consistent()
    ensures p.Synced() && !op.CloseOp? ==> Apply(p, op).poller.Synced()
  {
    match op
    case AddOp(fd, d, t, accepted) => AddConsistent(p, fd, d, t, accepted);
    case DelOp(fd, d) => TakeConsistent(p, fd, d);
    case HandleOp(fd, d) => TakeConsistent(p, fd, d);
    case HandleAllOp(fd) => TakeAllConsistent(p, fd);
    case WaitOp(rs) => WaitConsistent(p, rs);
    case CloseOp(fd) => ClosedConsistent(p, fd);
  }

  // A run in which every wait reports what the kernel may report.
  ghost predicate PossibleRun(ops: seq<Op>, k: Key) {
    forall i | 0 <= i < |ops| :: Possible(Run(Poller(map[], map[]), ops[..i], k).poller, ops[i])
  }

  // In every reachable state each fd the kernel watches is waited on, for at least what the kernel
  // watches; and as long as no fd is closed behind the poller's back, the kernel watches every fd
  // that is waited on, so no epoll_ctl names a wrong operation.
  lemma {:induction false} AlwaysConsistent(ops: seq<Op>, k: Key)
    requires PossibleRun(ops, k)
    ensures Run(Poller(map[], map[]), ops, k).poller.Consistent()
    ensures (forall i | 0 <= i < |ops| :: !ops[i].CloseOp?) ==>
              Run(Poller(map[], map[]), ops, k).poller.Synced()
  {
    if ops != [] {
      var before := ops[..|ops| - 1];
      assert forall i | 0 <= i < |before| :: before[..i] == ops[..i];
      AlwaysConsistent(before, k);
      assert Possible(Run(Poller(map[], map[]), ops[..|ops| - 1], k).poller, ops[|ops| - 1]);
      OpConsistent(Run(Poller(map[], map[]), before, k).poller, ops[|ops| - 1]);
    }
  }

  // Legality of every epoll_ctl in a synced poller: ADD exactly for unknown fds, MOD and DEL for
  // known ones; so each operation fails only when it finds nothing to do (or the kernel refuses).
  lemma SyncedCallsSucceed(p: Poller, fd: nat, d: Dir, t: Task)
    requires p.Synced()
    ensures Add(p, fd, d, t, true).ok <==> (fd, d) !in p.armed
    ensures Take(p, fd, d).ok <==> (fd, d) in p.armed
    ensures TakeAll(p, fd).ok <==> p.Types(fd) != {}
  {
    assert forall k | k in p.armed :: k.1 in p.Types(k.0);
    if x :| x in p.Types(fd) {
      assert (fd, x) in p.armed;
    }
  }

  lemma NothingLeft(a: set<Dir>, b: set<Dir>)
    ensures a - b == {} <==> a <= b
  {
    if a - b == {} {
      assert forall d | d in a :: d !in a - b;
    }
  }

  // After a report the kernel watches for nothing on that fd: its mask equals what is waited for
  // exactly when the report stood for everything that was.
  lemma PartialDeliveryLosesInterest(p: Poller, r: Report)
    requires p.Synced() && r.fd in p.kernel && r.events <= p.kernel[r.fd] && p.Types(r.fd) * Real(p, r) != {}
    ensures var q := Deliver(p, r).poller;
            && (r.fd in q.kernel ==> q.kernel[r.fd] == {})
            && (r.fd !in q.kernel || q.kernel[r.fd] == q.Types(r.fd) <==> p.Types(r.fd) <= Real(p, r))
  {
    DeliverTypes(p, r, r.fd);
    NothingLeft(p.Types(r.fd), Real(p, r));
  }

  // Reading and writing on one fd, of which only reading is reported: nothing watches for the writer.
  lemma WriterIsForgotten(fd: nat, reader: Task, writer: Task)
    ensures var p := Poller(map[(fd, In) := reader, (fd, Out) := writer], map[fd := {In, Out}]);
            var r := Report(fd, {In}, false);
            var q := Deliver(p, r).poller;
         p.Synced() && Reportable(p, [r]) && q.Types(fd) == {Out} && q.kernel == map[fd := {}]
  {
    var p := Poller(map[(fd, In) := reader, (fd, Out) := writer], map[fd := {In, Out}]);
    var r := Report(fd, {In}, false);
    assert In in p.Types(fd) && Out in p.Types(fd);
    assert p.Types(fd) == {In, Out} && Real(p, r) == {In};
    assert p.Types(fd) * {In} == {In} && p.Types(fd) - {In} == {Out};
    DeliverTypes(p, r, fd);
  }

  // At most one side of the fd is waited on, and the kernel watches for none.
  ghost predicate Deaf(p: Poller, fd: nat) {
    fd in p.kernel ==> p.kernel[fd] == {} && forall d, e | d in p.Types(fd) && e in p.Types(fd) :: d == e
  }

  lemma DeliverDeaf(p: Poller, r: Report, fd: nat)
    requires Deaf(p, fd)
    ensures Deaf(Deliver(p, r).poller, fd)
  {
    DeliverTypes(p, r, fd);
  }

  lemma {:induction false} WaitDeaf(p: Poller, rs: seq<Report>, fd: nat)
    requires Deaf(p, fd)
    ensures Deaf(Wait(p, rs).poller, fd)
    decreases rs
  {
    if rs != [] {
      DeliverDeaf(p, rs[0], fd);
      WaitDeaf(Deliver(p, rs[0]).poller, rs[1..], fd);
    }
  }

  lemma TakeDeaf(p: Poller, fd: nat, d: Dir, x: nat)
    requires Deaf(p, x)
    ensures Deaf(Take(p, fd, d).poller, x)
  {
    var q := Take(p, fd, d).poller;
    if q != p {
      TypesAfter(p, q, fd, p.Types(fd) - {d});
      assert d in p.Types(fd);
    }
  }

  ghost predicate AddsOn(p: Poller, op: Op, fd: nat) { op.AddOp? && op.fd == fd && Apply(p, op).ok }

  lemma OpDeaf(p: Poller, op: Op, fd: nat)
    requires Deaf(p, fd) && !AddsOn(p, op, fd)
    ensures Deaf(Apply(p, op).poller, fd)
  {
    match op
    case AddOp(x, d, t, accepted) =>
      var q := Apply(p, op).poller;
      if Apply(p, op).ok {
        TypesAfter(p, q, x, p.Types(x) + {d});
      }
    case DelOp(x, d) => TakeDeaf(p, x, d, fd);
    case HandleOp(x, d) => TakeDeaf(p, x, d, fd);
    case HandleAllOp(x) =>
      var q := Apply(p, op).poller;
      if Apply(p, op).ok {
        TypesAfter(p, q, x, {});
      }
    case WaitOp(rs) => WaitDeaf(p, rs, fd);
    case CloseOp(x) => assert Closed(p, x).Types(fd) == p.Types(fd);
  }

  ghost predicate NoAddOn(p: Poller, ops: seq<Op>, fd: nat, k: Key) {
    forall i | 0 <= i < |ops| :: !AddsOn(Run(p, ops[..i], k).poller, ops[i], fd)
  }

  lemma {:induction false} StaysDeaf(p: Poller, ops: seq<Op>, fd: nat, k: Key)
    requires Deaf(p, fd) && NoAddOn(p, ops, fd, k)
    ensures Deaf(Run(p, ops, k).poller, fd)
  {
    if ops != [] {
      var n := |ops| - 1;
      assert forall i | 0 <= i < n :: ops[..n][..i] == ops[..i];
      StaysDeaf(p, ops[..n], fd, k);
      OpDeaf(Run(p, ops[..n], k).poller, ops[n], fd);
    }
  }

  // What a report leaves behind on its fd is lost to the kernel until something is added there again:
  // whatever else happens, no report brings it an event, so only an error or hang-up, its timeout or
  // the closing of the fd reaches it.
  lemma StrandedUntilAdded(p: Poller, r: Report, ops: seq<Op>, k: Key, later: seq<Report>, i: nat)
    requires p.Synced() && Reportable(p, [r]) && p.Types(r.fd) * Real(p, r) != {}
    requires NoAddOn(Deliver(p, r).poller, ops, r.fd, k)
    requires var q := Run(Deliver(p, r).poller, ops, k).poller; Reportable(q, later) && i < |later| && later[i].fd == r.fd
    ensures later[i].events == {}
    ensures var q := Run(Deliver(p, r).poller, ops, k).poller;
         !later[i].errhup ==> Deliver(q, later[i]) == Effect(q, false, [])
  {
    var q := Deliver(p, r).poller;
    assert [r][0] == r;
    DeliverTypes(p, r, r.fd);
    var d :| d in p.Types(r.fd) * Real(p, r);
    assert forall e | e in q.Types(r.fd) :: e == if d == In then Out else In;
    StaysDeaf(q, ops, r.fd, k);
    assert Deaf(Run(q, ops, k).poller, later[i].fd);
  }

  // ---- what the kernel watches ----

  // A successful add makes the kernel watch for everything waited for on the fd, what a report left
  // behind there included.
  lemma AddWatchesAll(p: Poller, fd: nat, d: Dir, t: Task, accepted: bool)
    requires Add(p, fd, d, t, accepted).ok
    ensures var q := Add(p, fd, d, t, accepted).poller;
         && fd in q.kernel && q.kernel[fd] == q.Types(fd) == p.Types(fd) + {d}
         && forall x | x != fd :: q.Types(x) == p.Types(x) && (x in q.kernel <==> x in p.kernel)
                                  && (x in q.kernel ==> q.kernel[x] == p.kernel[x])
  {
    TypesAfter(p, Add(p, fd, d, t, accepted).poller, fd, p.Types(fd) + {d});
  }

  // Taking one direction makes it watch for the other one, if that is waited for, and for nothing else.
  lemma TakeWatchesRest(p: Poller, fd: nat, d: Dir)
    requires Take(p, fd, d).ok
    ensures var q := Take(p, fd, d).poller;
         && q.Types(fd) == p.Types(fd) - {d}
         && (fd in q.kernel <==> p.Types(fd) != {d}) && (fd in q.kernel ==> q.kernel[fd] == q.Types(fd))
         && forall x | x != fd :: q.Types(x) == p.Types(x) && (x in q.kernel <==> x in p.kernel)
                                  && (x in q.kernel ==> q.kernel[x] == p.kernel[x])
  {
    TypesAfter(p, Take(p, fd, d).poller, fd, p.Types(fd) - {d});
    assert d in p.Types(fd);
    NothingLeft(p.Types(fd), {d});
  }

  // A report of the pass names the fd, but not everything waited for there.
  ghost predicate LeavesPart(p: Poller, rs: seq<Report>, fd: nat) {
    exists i :: 0 <= i < |rs| && rs[i].fd == fd && Part(p, rs[i])
  }

  predicate Part(p: Poller, r: Report) { !r.errhup && !(p.Types(r.fd) <= r.events) && p.Types(r.fd) * r.events != {} }

  // Whether a report left part of what is waited for on the fd behind, since the last successful add or
  // take there.
  ghost predicate LeftBehind(ops: seq<Op>, fd: nat, k: Key) {
    ops != []
    && var (before, op) := (ops[..|ops| - 1], ops[|ops| - 1]);
       var p := Run(Poller(map[], map[]), before, k).poller;
       match op
       case AddOp(x, _, _, _) => LeftBehind(before, fd, k) && !(x == fd && Apply(p, op).ok)
       case DelOp(x, _) => LeftBehind(before, fd, k) && !(x == fd && Apply(p, op).ok)
       case HandleOp(x, _) => LeftBehind(before, fd, k) && !(x == fd && Apply(p, op).ok)
       case WaitOp(rs) => LeftBehind(before, fd, k) || LeavesPart(p, rs, fd)
       case _ => LeftBehind(before, fd, k)
  }

  ghost predicate Watches(p: Poller, fd: nat, left: bool) {
    fd in p.kernel ==> p.kernel[fd] == if left then {} else p.Types(fd)
  }

  lemma DeliverElsewhere(p: Poller, r: Report, fd: nat)
    requires r.fd != fd
    ensures var q := Deliver(p, r).poller;
         q.Types(fd) == p.Types(fd) && (fd in q.kernel <==> fd in p.kernel) && (fd in q.kernel ==> q.kernel[fd] == p.kernel[fd])
  {
    DeliverTypes(p, r, fd);
  }

  lemma {:induction false} WaitElsewhere(p: Poller, rs: seq<Report>, fd: nat)
    requires forall i | 0 <= i < |rs| :: rs[i].fd != fd
    ensures var q := Wait(p, rs).poller;
         q.Types(fd) == p.Types(fd) && (fd in q.kernel <==> fd in p.kernel) && (fd in q.kernel ==> q.kernel[fd] == p.kernel[fd])
    decreases rs
  {
    if rs != [] {
      DeliverElsewhere(p, rs[0], fd);
      WaitElsewhere(Deliver(p, rs[0]).poller, rs[1..], fd);
    }
  }

  lemma DeliverWatches(p: Poller, r: Report, left: bool)
    requires Watches(p, r.fd, left) && r.fd in p.kernel
    ensures Watches(Deliver(p, r).poller, r.fd, left || Part(p, r))
  {
    DeliverTypes(p, r, r.fd);
    NothingLeft(p.Types(r.fd), Real(p, r));
  }

  lemma {:induction false} WaitWatches(p: Poller, rs: seq<Report>, fd: nat, left: bool)
    requires p.Consistent() && Reportable(p, rs) && Watches(p, fd, left)
    ensures Watches(Wait(p, rs).poller, fd, left || LeavesPart(p, rs, fd))
    decreases rs
  {
    if rs != [] {
      var q := Deliver(p, rs[0]).poller;
      DeliverLegal(p, rs);
      if rs[0].fd == fd {
        DeliverWatches(p, rs[0], left);
        WaitElsewhere(q, rs[1..], fd);
        assert LeavesPart(p, rs, fd) <==> Part(p, rs[0]);
      } else {
        DeliverElsewhere(p, rs[0], fd);
        WaitWatches(q, rs[1..], fd, left);
        LeavesPartLater(p, rs, fd);
      }
    }
  }

  lemma LeavesPartLater(p: Poller, rs: seq<Report>, fd: nat)
    requires rs != [] && rs[0].fd != fd
    ensures LeavesPart(Deliver(p, rs[0]).poller, rs[1..], fd) <==> LeavesPart(p, rs, fd)
  {
    var q, tail := Deliver(p, rs[0]).poller, rs[1..];
    DeliverElsewhere(p, rs[0], fd);
    assert forall i | 0 <= i < |tail| :: tail[i] == rs[i + 1];
    if LeavesPart(p, rs, fd) {
      var i :| 0 <= i < |rs| && rs[i].fd == fd && Part(p, rs[i]);
      assert tail[i - 1] == rs[i];
    }
  }

  lemma OpWatches(p: Poller, op: Op, fd: nat, left: bool)
    requires p.Consistent() && Possible(p, op) && Watches(p, fd, left)
    ensures var q := Apply(p, op).poller;
      match op
      case AddOp(x, _, _, _) => Watches(q, fd, left && !(x == fd && Apply(p, op).ok))
      case DelOp(x, _) => Watches(q, fd, left && !(x == fd && Apply(p, op).ok))
      case HandleOp(x, _) => Watches(q, fd, left && !(x == fd && Apply(p, op).ok))
      case WaitOp(rs) => Watches(q, fd, left || LeavesPart(p, rs, fd))
      case _ => Watches(q, fd, left)
  {
    match op
    case AddOp(x, d, t, accepted) =>
      if Apply(p, op).ok {
        AddWatchesAll(p, x, d, t, accepted);
      }
    case DelOp(x, d) =>
      if Apply(p, op).ok {
        TakeWatchesRest(p, x, d);
      }
    case HandleOp(x, d) =>
      if Apply(p, op).ok {
        TakeWatchesRest(p, x, d);
      }
    case HandleAllOp(x) =>
      if Apply(p, op).ok {
        TypesAfter(p, Apply(p, op).poller, x, {});
      }
    case WaitOp(rs) => WaitWatches(p, rs, fd, left);
    case CloseOp(x) => assert Closed(p, x).Types(fd) == p.Types(fd);
  }

  // Over any run the kernel watches an fd it knows for exactly what is waited for there, or for nothing
  // at all; the latter exactly while a report left something behind that no later add or take repaired.
  lemma {:induction false} KernelWatches(ops: seq<Op>, fd: nat, k: Key)
    requires PossibleRun(ops, k)
    ensures Watches(Run(Poller(map[], map[]), ops, k).poller, fd, LeftBehind(ops, fd, k))
  {
    if ops != [] {
      var before, op := ops[..|ops| - 1], ops[|ops| - 1];
      assert forall i | 0 <= i < |before| :: before[..i] == ops[..i];
      KernelWatches(before, fd, k);
      AlwaysConsistent(before, k);
      OpWatches(Run(Poller(map[], map[]), before, k).poller, op, fd, LeftBehind(before, fd, k));
    }
  }

  // ---- what a report reaches ----

  // A report reaches the directions it names, and all of them on an error or hang-up; nothing else.
  lemma DeliverReaches(p: Poller, r: Report, d: Dir)
    requires (r.fd, d) in p.armed
    ensures var (e, k) := (Deliver(p, r), (r.fd, d));
         if d in r.events || r.errhup then k !in e.poller.armed && On(e.out, k) == [p.armed[k]]
         else k in e.poller.armed && e.poller.armed[k] == p.armed[k] && On(e.out, k) == []
  {
    assert d in p.Types(r.fd);
    assert d in r.events || r.errhup ==> d in p.Types(r.fd) * Real(p, r);
    if p.Types(r.fd) * Real(p, r) != {} {
      DeliverOut(p, r, (r.fd, d));
    }
    DeliverConserves(p, r, (r.fd, d));
  }

  lemma DeliverOther(p: Poller, r: Report, k: Key)
    requires r.fd != k.0
    ensures On(Deliver(p, r).out, k) == [] && Armed(Deliver(p, r).poller, k) == Armed(p, k)
  {
    if p.Types(r.fd) * Real(p, r) != {} {
      DeliverOut(p, r, k);
    }
    DeliverConserves(p, r, k);
  }

  lemma {:induction false} WaitOther(p: Poller, rs: seq<Report>, k: Key)
    requires forall i | 0 <= i < |rs| :: rs[i].fd != k.0
    ensures On(Wait(p, rs).out, k) == [] && Armed(Wait(p, rs).poller, k) == Armed(p, k)
    decreases rs
  {
    if rs != [] {
      var e := Deliver(p, rs[0]);
      DeliverOther(p, rs[0], k);
      WaitOther(e.poller, rs[1..], k);
      OnAppend(e.out, Wait(e.poller, rs[1..]).out, k);
    }
  }

  predicate Reached(p: Poller, e: Effect, k: Key, hit: bool)
    requires k in p.armed
  {
    if hit then k !in e.poller.armed && On(e.out, k) == [p.armed[k]]
    else k in e.poller.armed && e.poller.armed[k] == p.armed[k] && On(e.out, k) == []
  }

  lemma ReachedNow(p: Poller, rs: seq<Report>, d: Dir)
    requires Reportable(p, rs) && rs != [] && (rs[0].fd, d) in p.armed
    ensures Reached(p, Wait(p, rs), (rs[0].fd, d), d in rs[0].events || rs[0].errhup)
  {
    var k, e := (rs[0].fd, d), Deliver(p, rs[0]);
    DeliverReaches(p, rs[0], d);
    WaitOther(e.poller, rs[1..], k);
    OnAppend(e.out, Wait(e.poller, rs[1..]).out, k);
  }

  lemma ReachedLater(p: Poller, rs: seq<Report>, k: Key, hit: bool)
    requires rs != [] && rs[0].fd != k.0 && k in p.armed
    ensures var e := Deliver(p, rs[0]);
         k in e.poller.armed && (Reached(e.poller, Wait(e.poller, rs[1..]), k, hit) ==> Reached(p, Wait(p, rs), k, hit))
  {
    var e := Deliver(p, rs[0]);
    DeliverOther(p, rs[0], k);
    assert Armed(p, k) == [p.armed[k]];
    OnAppend(e.out, Wait(e.poller, rs[1..]).out, k);
  }

  // Over a whole pass: a waiter is handed out, once, exactly when a report of its fd names its direction
  // or says error or hang-up; every other waiter stays.
  lemma {:induction false} PassReaches(p: Poller, rs: seq<Report>, i: nat, d: Dir)
    requires p.Consistent() && Reportable(p, rs) && i < |rs| && (rs[i].fd, d) in p.armed
    ensures Reached(p, Wait(p, rs), (rs[i].fd, d), d in rs[i].events || rs[i].errhup)
    decreases i
  {
    if i == 0 {
      ReachedNow(p, rs, d);
    } else {
      DeliverLegal(p, rs);
      ReachedLater(p, rs, (rs[i].fd, d), d in rs[i].events || rs[i].errhup);
      assert rs[1..][i - 1] == rs[i];
      PassReaches(Deliver(p, rs[0]).poller, rs[1..], i - 1, d);
    }
  }

  // Where both directions are handed out at once, reading comes first.
  lemma ReadingFirst(p: Poller, r: Report)
    requires (r.fd, In) in p.armed && (r.fd, Out) in p.armed
    ensures r.errhup || r.events == {In, Out} ==> TasksOf(Deliver(p, r).out) == [p.armed[(r.fd, In)], p.armed[(r.fd, Out)]]
    ensures r.fd in p.kernel ==> TasksOf(TakeAll(p, r.fd).out) == [p.armed[(r.fd, In)], p.armed[(r.fd, Out)]]
  {
    var both := [Delivery((r.fd, In), p.armed[(r.fd, In)]), Delivery((r.fd, Out), p.armed[(r.fd, Out)])];
    assert In in p.Types(r.fd) && Out in p.Types(r.fd);
    assert both[1..] == [both[1]] && both[1..][1..] == [];
    assert TasksOf(both[1..]) == [both[1].task];
    assert TasksOf(both) == [p.armed[(r.fd, In)], p.armed[(r.fd, Out)]];
    if r.fd in p.kernel {
      assert TakeAll(p, r.fd).out == both;
    }
    if r.errhup || r.events == {In, Out} {
      assert In in p.Types(r.fd) * Real(p, r) && Out in Real(p, r);
      assert Deliver(p, r).out == both;
    }
  }

  // What every operation of the poller does to its registrations: none is lost, none is invented.
  ghost predicate Conserves(p: Poller, e: Effect) {
    forall k: Key :: Armed(p, k) == On(e.out, k) + Armed(e.poller, k)
  }

  lemma WaitConservesAll(p: Poller, rs: seq<Report>)
    ensures Conserves(p, Wait(p, rs))
  {
    forall k: Key ensures Armed(p, k) == On(Wait(p, rs).out, k) + Armed(Wait(p, rs).poller, k) {
      WaitConserves(p, rs, k);
    }
  }

  lemma TakeConservesAll(p: Poller, fd: nat, d: Dir)
    ensures Conserves(p, Take(p, fd, d))
  {
    forall k: Key ensures Armed(p, k) == On(Take(p, fd, d).out, k) + Armed(Take(p, fd, d).poller, k) {
      OnFetch(p, fd, d, k);
    }
  }

  lemma TakeAllConservesAll(p: Poller, fd: nat)
    ensures Conserves(p, TakeAll(p, fd))
  {
    forall k: Key ensures Armed(p, k) == On(TakeAll(p, fd).out, k) + Armed(TakeAll(p, fd).poller, k) {
      TakeAllConserves(p, fd, k);
    }
  }

  lemma {:induction false} OnHas(out: seq<Delivery>, i: nat)
    requires i < |out|
    ensures out[i].task in On(out, out[i].key)
  {
    if i > 0 {
      OnHas(out[1..], i - 1);
    }
  }

  lemma {:induction false} CountOn(out: seq<Delivery>, t: Task, k: Key)
    requires forall i | 0 <= i < |out| && out[i].task == t :: out[i].key == k
    ensures multiset(TasksOf(out))[t] == multiset(On(out, k))[t]
  {
    if out != [] {
      CountOn(out[1..], t, k);
    }
  }

  // What left a key is its registration, if that is gone.
  lemma OutOn(p: Poller, e: Effect, k: Key)
    requires Conserves(p, e)
    ensures On(e.out, k) == if k in e.poller.armed then [] else Armed(p, k)
  {
    assert Armed(p, k) == On(e.out, k) + Armed(e.poller, k);
    assert |Armed(p, k)| == |On(e.out, k)| + |Armed(e.poller, k)|;
  }

  // A task registered under at most one key is delivered once if its registration is gone, and not
  // at all otherwise.
  lemma DeliveredOnce(p: Poller, e: Effect, t: Task, k0: Key)
    requires Conserves(p, e) && forall k | k in p.armed && p.armed[k] == t :: k == k0
    ensures multiset(TasksOf(e.out))[t] ==
            if k0 in p.armed && p.armed[k0] == t && k0 !in e.poller.armed then 1 else 0
  {
    forall i | 0 <= i < |e.out| && e.out[i].task == t ensures e.out[i].key == k0 {
      OnHas(e.out, i);
      OutOn(p, e, e.out[i].key);
    }
    CountOn(e.out, t, k0);
    OutOn(p, e, k0);
  }

  lemma StillArmed(p: Poller, e: Effect, k: Key)
    requires Conserves(p, e) && k in e.poller.armed
    ensures k in p.armed && p.armed[k] == e.poller.armed[k]
  {
    assert Armed(p, k) == On(e.out, k) + Armed(e.poller, k);
    assert Armed(e.poller, k)[0] in Armed(p, k);
  }
}
