// What the timer set promises over whole runs, stated on the map of pending deadlines that the
// classes of module Timers maintain.
module TimerRuns {
  import opened Prelude
  import opened Tasks
  import opened Timers

  // One call on the set, with the clock reading it takes.
  datatype Op =
    | Add(k: TimerId, interval: int, func: Func, recursive: bool)
    | Cancel(k: TimerId)
    | Refresh(k: TimerId)
    | Reset(k: TimerId, interval: int, fromNow: bool)
    | Expire

  type Pending = map<TimerId, Entry>

  ghost function Apply(p: Pending, op: Op, now: int): Pending {
    match op
    case Add(k, interval, func, recursive) => p[k := Entry(now + interval, interval, recursive, func)]
    case Cancel(k) => p - {k}
    case Refresh(k) => if k in p then p[k := p[k].(expire := now + p[k].interval)] else p
    case Reset(k, interval, fromNow) =>
      if k in p && (p[k].interval != interval || fromNow)
      then p[k := Restarted(p[k], interval, fromNow, now)] else p
    case Expire => AfterExpiry(p, now)
  }

  ghost function Fires(p: Pending, op: Op, now: int, k: TimerId): nat {
    Has(op.Expire? && k in p && p[k].expire <= now)
  }

  ghost function Cancels(p: Pending, op: Op, k: TimerId): nat {
    Has(op == Cancel(k) && k in p)
  }

  datatype Timed = Timed(op: Op, now: int)
  datatype Tally = Tally(pending: Pending, adds: nat, fires: nat, cancels: nat)

  // How often timer k was added, was collected for execution, and answered true to cancel.
  ghost function Run(ops: seq<Timed>, k: TimerId): Tally {
    if ops == [] then Tally(map[], 0, 0, 0)
    else
      var t := Run(ops[..|ops| - 1], k);
      var (op, now) := (ops[|ops| - 1].op, ops[|ops| - 1].now);
      Tally(Apply(t.pending, op, now),
            t.adds + Has(op.Add? && op.k == k),
            t.fires + Fires(t.pending, op, now, k),
            t.cancels + Cancels(t.pending, op, k))
  }

  // Timer objects are new when they are added.
  ghost predicate FreshAdds(ops: seq<Timed>) {
    forall i, j | 0 <= i < j < |ops| && ops[i].op.Add? && ops[j].op.Add? :: ops[i].op.k != ops[j].op.k
  }

  ghost predicate OneShot(ops: seq<Timed>, k: TimerId) {
    forall i | 0 <= i < |ops| && ops[i].op.Add? && ops[i].op.k == k :: !ops[i].op.recursive
  }

  lemma {:induction false} Unadded(ops: seq<Timed>, k: TimerId)
    requires forall i | 0 <= i < |ops| :: !(ops[i].op.Add? && ops[i].op.k == k)
    ensures k !in Run(ops, k).pending && Run(ops, k).adds == 0
    ensures Run(ops, k).fires == 0 && Run(ops, k).cancels == 0
  {
    if ops != [] {
      Unadded(ops[..|ops| - 1], k);
    }
  }

  // Every one-shot timer ends in exactly one way: over any run, whatever is called and whenever,
  // an added timer has fired once, or was cancelled once, or is still pending.
  lemma {:induction false} OneShotEndsOnce(ops: seq<Timed>, k: TimerId)
    requires FreshAdds(ops) && OneShot(ops, k)
    ensures var t := Run(ops, k);
            && t.adds <= 1
            && t.fires + t.cancels + Has(k in t.pending) == t.adds
            && (k in t.pending ==> !t.pending[k].recursive)
  {
    if ops != [] {
      var before := ops[..|ops| - 1];
      OneShotEndsOnce(before, k);
      var op := ops[|ops| - 1].op;
      if op.Add? && op.k == k {
        Unadded(before, k);
      }
    }
  }

  // Collecting leaves only later deadlines, provided every recurring timer has a positive interval;
  // one that has not is due again at once.
  lemma OnlyLaterDeadlinesRemain(p: Pending, now: int)
    ensures (forall k | k in AfterExpiry(p, now) :: now < AfterExpiry(p, now)[k].expire)
       <==> (forall k | k in p && p[k].recursive && p[k].expire <= now :: p[k].interval > 0)
  {
    var q := AfterExpiry(p, now);
    if k :| k in p && p[k].recursive && p[k].expire <= now && p[k].interval <= 0 {
      assert k in q && q[k].expire <= now;
    }
  }

  // The worker passes the answer of getExpire, an int64, to an int parameter (reyao/worker.cc:132,
  // reyao/epoller.cc:196-205), where -1 and everything above 5000 becomes 5000 ms. A negative
  // result makes epoll_wait block with no limit.
  const MAX_POLL := 5000

  function PollTimeout(expire: int): int {
    var timeout := ToInt32(expire);
    if timeout != -1 then (if timeout > MAX_POLL then MAX_POLL else timeout) else MAX_POLL
  }

  // The low 32 bits of the distance are below 2^31, or all ones, which `int` reads as -1.
  predicate LowBitsHarmless(expire: int) {
    var low := expire % 0x1_0000_0000;
    low < 0x8000_0000 || low == 0xFFFF_FFFF
  }

  // The wait is bounded exactly when the low 32 bits of the distance to the earliest deadline are
  // harmless; then it ends no later than that deadline. A wait of full length that was not clamped makes
  // some timer due.
  lemma PollEndsInTime(p: Pending, now: int, expire: int)
    requires IsExpire(p, now, expire)
    ensures PollTimeout(expire) >= 0 <==> LowBitsHarmless(expire)
    ensures LowBitsHarmless(expire) ==> PollTimeout(expire) <= MAX_POLL
    ensures LowBitsHarmless(expire) ==>
              forall k | k in p :: PollTimeout(expire) == 0 || now + PollTimeout(expire) <= p[k].expire
    ensures |p| > 0 && PollTimeout(expire) == expire ==>
              exists k :: k in p && p[k].expire <= now + PollTimeout(expire)
  {
    Narrowed(expire);
  }

  lemma Narrowed(expire: int)
    requires expire >= -1
    ensures -1 <= ToInt32(expire) <==> LowBitsHarmless(expire)
    ensures LowBitsHarmless(expire) && ToInt32(expire) != -1 ==> 0 <= ToInt32(expire) <= expire
    ensures ToInt32(expire) == -1 ==> expire == -1 || expire >= 0xFFFF_FFFF
  {
  }

  // What the worker means to wait: until the earliest deadline, and no longer than MAX_POLL.
  function Meant(expire: int): int { if expire == -1 || expire > MAX_POLL then MAX_POLL else expire }

  // It waits as long as it means to exactly when the distance is short, or its low 32 bits are long too.
  lemma WaitsAsMeant(expire: int)
    requires expire >= -1
    ensures PollTimeout(expire) == Meant(expire) <==>
            var low := expire % 0x1_0000_0000;
            expire < MAX_POLL || MAX_POLL <= low < 0x8000_0000 || low == 0xFFFF_FFFF
  {
    Narrowed(expire);
  }

  // 2^32 + 5 ms ahead, the worker wakes after 5 ms instead of 5000.
  lemma FarDeadlineWakesEarly()
    ensures PollTimeout(0x1_0000_0005) == 5 && Meant(0x1_0000_0005) == MAX_POLL
  {
  }

  // A single timer 2^31 ms (about 25 days) ahead makes the worker block without limit.
  lemma FarDeadlineBlocks(now: int, f: Func)
    ensures var p: Pending := map[0 := Entry(now + 0x8000_0000, 0x8000_0000, false, f)];
            IsExpire(p, now, 0x8000_0000) && PollTimeout(0x8000_0000) < 0
  {
    var p: Pending := map[0 := Entry(now + 0x8000_0000, 0x8000_0000, false, f)];
    assert 0 in p;
  }
}
