// reyao/timer.cc: the ordered set of timers shared by all workers.
//
// A timer is seen by the rest of the runtime as an entry of a map from timers to deadlines
// (`Pending`). The classes below keep that map as a sequence ordered by (deadline, address),
// as the std::set of the source does, and are proved against it.
module Timers {
  import opened Prelude
  import opened Tasks

  datatype Entry = Entry(expire: int, interval: int, recursive: bool, func: Func)

  // The deadline the poller may wait for: -1 means no timer at all.
  ghost predicate IsExpire<K>(p: map<K, Entry>, now: int, r: int) {
    if |p| == 0 then r == -1
    else
      && r >= 0
      && (forall k | k in p :: r <= p[k].expire - now || r == 0)
      && (exists k | k in p :: (if r == 0 then p[k].expire <= now else p[k].expire == now + r))
  }

  // Every timer due at `now` exactly once, earliest deadline first.
  ghost predicate DueOrder<K>(p: map<K, Entry>, now: int, order: seq<K>) {
    && (forall k | k in order :: k in p && p[k].expire <= now)
    && (forall k | k in p && p[k].expire <= now :: k in order)
    && (forall i, j | 0 <= i < j < |order| :: order[i] != order[j])
    && (forall i, j | 0 <= i < j < |order| && order[i] in p && order[j] in p ::
          p[order[i]].expire <= p[order[j]].expire)
  }

  ghost function Stays(e: Entry, now: int): bool { now < e.expire || e.recursive }

  ghost function Rearmed(e: Entry, now: int): Entry {
    if now < e.expire then e else e.(expire := now + e.interval)
  }

  // What is pending after the timers due at `now` were collected.
  ghost function AfterExpiry<K>(p: map<K, Entry>, now: int): map<K, Entry> {
    map k | k in p && Stays(p[k], now) :: Rearmed(p[k], now)
  }

  // The same with the timers in `rest` collected but not yet settled.
  ghost function Midway<K>(p: map<K, Entry>, now: int, rest: seq<K>): map<K, Entry> {
    map k | k in p && Stays(p[k], now) && k !in rest :: Rearmed(p[k], now)
  }

  lemma MidwayStep<K>(p: map<K, Entry>, now: int, rest: seq<K>)
    requires |rest| > 0 && rest[0] in p && p[rest[0]].expire <= now && rest[0] !in rest[1..]
    ensures Midway(p, now, rest[1..]) ==
            var e := p[rest[0]];
            if e.recursive then Midway(p, now, rest)[rest[0] := Rearmed(e, now)] else Midway(p, now, rest)
  {
    assert forall k :: k in rest <==> k == rest[0] || k in rest[1..];
  }

  // reyao/timer.cc:15-33. `addr` is the object's address, which breaks ties between deadlines.
  class Timer {
    const addr: nat
    const recursive: bool
    var interval: int
    var expire: int
    var func: Option<Func>

    constructor (addr: nat, interval: int, func: Func, recursive: bool, now: int)
      ensures this.addr == addr && this.recursive == recursive && this.interval == interval
      ensures this.expire == now + interval && this.func == Some(func)
    {
      this.addr := addr;
      this.recursive := recursive;
      this.interval := interval;
      this.expire := now + interval;
      this.func := Some(func);
    }
  }

  predicate Before(e1: int, a1: nat, e2: int, a2: nat) {
    e1 < e2 || (e1 == e2 && a1 < a2)
  }

  ghost function Restarted(e: Entry, interval: int, fromNow: bool, now: int): Entry {
    e.(interval := interval, expire := (if fromNow then now else e.expire - e.interval) + interval)
  }

  // Strictly ordered by (deadline, address); hence without duplicates.
  ghost predicate Sorted(s: seq<Timer>, p: map<Timer, Entry>) {
    && (forall t | t in s :: t in p)
    && (forall i, j | 0 <= i < j < |s| ::
          s[i] in p && s[j] in p && Before(p[s[i]].expire, s[i].addr, p[s[j]].expire, s[j].addr))
  }

  lemma InsertKeeps(s: seq<Timer>, t: Timer, i: nat)
    requires i <= |s|
    ensures forall u :: u in s[..i] + [t] + s[i..] <==> u in s || u == t
  {
    var r := s[..i] + [t] + s[i..];
    assert s == s[..i] + s[i..];
    assert r[i] == t;
  }

  lemma InsertAt(s: seq<Timer>, t: Timer, i: nat, j: nat)
    requires i <= |s| && j <= |s|
    ensures (s[..i] + [t] + s[i..])[j] == if j < i then s[j] else if j == i then t else s[j - 1]
  {
  }

  // Where the new timer belongs: behind all that are before it, in front of the others.
  ghost predicate Belongs(s: seq<Timer>, p: map<Timer, Entry>, t: Timer, e: Entry, i: nat) {
    && Sorted(s, p) && i <= |s| && t !in s && (forall u | u in s :: u.addr != t.addr)
    && (forall j | 0 <= j < i :: s[j] in p && Before(p[s[j]].expire, s[j].addr, e.expire, t.addr))
    && (forall j | i <= j < |s| :: s[j] in p && !Before(p[s[j]].expire, s[j].addr, e.expire, t.addr))
  }

  lemma InsertPair(s: seq<Timer>, p: map<Timer, Entry>, t: Timer, e: Entry, i: nat, x: nat, y: nat)
    requires Belongs(s, p, t, e, i) && x < y <= |s|
    ensures var (r, q) := (s[..i] + [t] + s[i..], p[t := e]);
         r[x] in q && r[y] in q && Before(q[r[x]].expire, r[x].addr, q[r[y]].expire, r[y].addr)
  {
    InsertAt(s, t, i, x);
    InsertAt(s, t, i, y);
    var a, b := if x < i then x else x - 1, if y < i then y else y - 1;
    if x != i {
      assert s[a] in s;
    }
    if y != i {
      assert s[b] in s;
    }
    if x != i && y != i {
      assert Before(p[s[a]].expire, s[a].addr, p[s[b]].expire, s[b].addr);
    }
  }

  lemma InsertSorted(s: seq<Timer>, p: map<Timer, Entry>, t: Timer, e: Entry, i: nat)
    requires Belongs(s, p, t, e, i)
    ensures Sorted(s[..i] + [t] + s[i..], p[t := e])
    ensures forall u :: u in s[..i] + [t] + s[i..] <==> u in s || u == t
  {
    var r := s[..i] + [t] + s[i..];
    InsertKeeps(s, t, i);
    forall x, y | 0 <= x < y < |r|
      ensures r[x] in p[t := e] && r[y] in p[t := e]
      ensures Before(p[t := e][r[x]].expire, r[x].addr, p[t := e][r[y]].expire, r[y].addr) {
      InsertPair(s, p, t, e, i, x, y);
    }
  }

  // The element at position 0, and only that one, is before every other one.
  lemma FrontIsLeast(s: seq<Timer>, p: map<Timer, Entry>, i: nat)
    requires Sorted(s, p) && i < |s| && forall t | t in p :: t in s
    ensures i == 0 <==> forall u | u in p && u != s[i] :: Before(p[s[i]].expire, s[i].addr, p[u].expire, u.addr)
  {
    assert s[0] in s && s[i] in s;
  }

  // No two timers of the set share an address.
  ghost predicate Apart(p: map<Timer, Entry>) {
    forall t, u | t in p && u in p && t.addr == u.addr :: t == u
  }

  // Cutting after the last due timer separates the due ones from the rest.
  ghost predicate CutsAt(s: seq<Timer>, p: map<Timer, Entry>, now: int, it: nat) {
    && Sorted(s, p) && it <= |s| && (forall t | t in p :: t in s)
    && (forall j | 0 <= j < it :: p[s[j]].expire <= now)
    && (it < |s| ==> now < p[s[it]].expire)
  }

  lemma CutIs(s: seq<Timer>, p: map<Timer, Entry>, now: int, it: nat, k: nat)
    requires CutsAt(s, p, now, it) && k < |s|
    ensures s[k] in p && (k < it <==> p[s[k]].expire <= now)
    ensures s[k] in if k < it then s[..it] else s[it..]
  {
    if k < it {
      assert s[..it][k] == s[k];
    } else {
      assert s[it..][k - it] == s[k];
    }
    assert s[k] in s;
  }

  lemma CutSides(s: seq<Timer>, p: map<Timer, Entry>, now: int, it: nat, t: Timer)
    requires CutsAt(s, p, now, it) && t in p
    ensures t in s[..it] <==> p[t].expire <= now
    ensures t in s[it..] <==> now < p[t].expire
  {
    var k :| 0 <= k < |s| && s[k] == t;
    CutIs(s, p, now, it, k);
    if t in s[..it] {
      var i :| 0 <= i < it && s[i] == t;
      CutIs(s, p, now, it, i);
    }
    if t in s[it..] {
      var i :| it <= i < |s| && s[i] == t;
      CutIs(s, p, now, it, i);
    }
  }

  lemma SplitOrder(s: seq<Timer>, p: map<Timer, Entry>, now: int, it: nat)
    requires CutsAt(s, p, now, it)
    ensures DueOrder(p, now, s[..it])
  {
    forall t | t in p ensures t in s[..it] <==> p[t].expire <= now {
      CutSides(s, p, now, it, t);
    }
    assert forall j | 0 <= j < it :: s[..it][j] == s[j] && s[j] in s;
  }

  lemma SplitRest(s: seq<Timer>, p: map<Timer, Entry>, now: int, it: nat)
    requires CutsAt(s, p, now, it)
    ensures var q := Midway(p, now, s[..it]);
            && Sorted(s[it..], q)
            && (forall t | t in q :: t in s[it..] && t in p && q[t] == p[t])
            && (forall t | t in p && t !in q :: t in s[..it])
  {
    forall t | t in p ensures t in s[..it] <==> p[t].expire <= now ensures t in s[it..] <==> now < p[t].expire {
      CutSides(s, p, now, it, t);
    }
    assert forall j | 0 <= j < |s| - it :: s[it..][j] == s[it + j] && s[it + j] in s;
  }

  lemma SplitDue(s: seq<Timer>, p: map<Timer, Entry>, now: int, it: nat)
    requires CutsAt(s, p, now, it)
    ensures DueOrder(p, now, s[..it])
    ensures var q := Midway(p, now, s[..it]);
            && Sorted(s[it..], q)
            && (forall t | t in q :: t in s[it..] && t in p && q[t] == p[t])
            && (forall t | t in s[..it] :: t in p && t !in q)
            && (forall t | t in p && t !in q :: t in s[..it])
  {
    SplitOrder(s, p, now, it);
    SplitRest(s, p, now, it);
  }

  lemma EraseInsert(p: map<Timer, Entry>, t: Timer, e: Entry)
    ensures (p - {t})[t := e] == p[t := e]
  {
  }

  lemma EraseSorted(s: seq<Timer>, p: map<Timer, Entry>, i: nat)
    requires Sorted(s, p) && i < |s|
    ensures Sorted(s[..i] + s[i + 1..], p - {s[i]})
    ensures forall u :: u in s[..i] + s[i + 1..] <==> u in s && u != s[i]
  {
    var r := s[..i] + s[i + 1..];
    assert forall j | 0 <= j < |r| :: r[j] == s[if j < i then j else j + 1];
    assert forall j | 0 <= j < |r| :: r[j] != s[i];
    forall u ensures u in r <==> u in s && u != s[i] {
      if u in s && u != s[i] {
        var k :| 0 <= k < |s| && s[k] == u;
        assert r[if k < i then k else k - 1] == u;
      }
    }
  }

  class TimeManager {
    var timers: seq<Timer>
    ghost var pending: map<Timer, Entry>  // what the set means: deadlines of the timers inside
    ghost var all: set<Timer>                // every timer this manager ever created

    // Ordered strictly by (deadline, address).
    ghost predicate Ordered()
      reads this
    {
      && Sorted(timers, pending)
      && (forall t | t in pending :: t in timers)
      && pending.Keys <= all
      && Apart(pending)
    }

    // The object's own fields say what the set says: inside iff its function is set.
    ghost predicate Tied(t: Timer)
      reads this`pending, t
    {
      if t in pending
      then t.func.Some? && pending[t] == Entry(t.expire, t.interval, t.recursive, t.func.value)
      else t.func.None?
    }

    ghost predicate Valid()
      reads this, all
    {
      Ordered() && forall t | t in all :: Tied(t)
    }

    constructor ()
      ensures Valid() && pending == map[] && all == {}
    {
      timers := [];
      all := {};
      pending := map[];
    }

    // std::set::lower_bound: the first element whose key is not before the given one.
    method LowerBound(expire: int, addr: nat) returns (i: nat)
      requires Ordered() && forall t | t in pending :: t.expire == pending[t].expire
      ensures i <= |timers|
      ensures forall j | 0 <= j < i :: Before(pending[timers[j]].expire, timers[j].addr, expire, addr)
      ensures forall j | i <= j < |timers| :: !Before(pending[timers[j]].expire, timers[j].addr, expire, addr)
    {
      i := 0;
      while i < |timers| && Before(timers[i].expire, timers[i].addr, expire, addr)
        invariant i <= |timers|
        invariant forall j | 0 <= j < i :: Before(pending[timers[j]].expire, timers[j].addr, expire, addr)
      {
        i := i + 1;
      }
    }

    // std::set::find: by key, not by identity.
    method Find(t: Timer) returns (i: nat)
      requires Ordered() && forall u | u in pending :: u.expire == pending[u].expire
      requires t in pending || forall u | u in pending :: u.addr != t.addr
      ensures i < |timers| ==> timers[i] == t
      ensures i >= |timers| ==> t !in pending
    {
      i := LowerBound(t.expire, t.addr);
      if t in pending {
        var k :| 0 <= k < |timers| && timers[k] == t;
      }
      if i < |timers| && Before(t.expire, t.addr, timers[i].expire, timers[i].addr) {
        i := |timers|;
      }
    }

    // std::set::insert of a timer that is not inside.
    method Insert(t: Timer) returns (i: nat)
      requires Ordered() && t !in pending && t.func.Some?
      requires forall u | u in pending :: u.addr != t.addr
      requires forall u | u in pending :: u.expire == pending[u].expire
      modifies this
      ensures Ordered() && all == old(all) + {t}
      ensures pending == old(pending)[t := Entry(t.expire, t.interval, t.recursive, t.func.value)]
      ensures i < |timers| && timers[i] == t
    {
      i := LowerBound(t.expire, t.addr);
      ghost var e := Entry(t.expire, t.interval, t.recursive, t.func.value);
      InsertSorted(timers, pending, t, e, i);
      timers := timers[..i] + [t] + timers[i..];
      pending := pending[t := e];
      all := all + {t};
    }

    // std::set::erase at a position.
    method Erase(i: nat)
      requires Ordered() && i < |timers|
      modifies this`timers, this`pending
      ensures Ordered() && pending == old(pending) - {old(timers)[i]}
    {
      EraseSorted(timers, pending, i);
      pending := pending - {timers[i]};
      timers := timers[..i] + timers[i + 1..];
    }

    // reyao/timer.cc:114-126. The result says whether the new timer is the earliest. Its address may be
    // that of a timer that was freed: only those still inside matter to the order.
    method AddTimer(addr: nat, interval: int, func: Func, recursive: bool, now: int)
      returns (t: Timer, atFront: bool)
      requires Valid() && forall u | u in pending :: u.addr != addr
      modifies this
      ensures Valid() && fresh(t) && t.addr == addr && all == old(all) + {t}
      ensures pending == old(pending)[t := Entry(now + interval, interval, recursive, func)]
      ensures atFront <==> forall u | u in pending && u != t :: Before(now + interval, addr, pending[u].expire, u.addr)
    {
      t := new Timer(addr, interval, func, recursive, now);
      var i := Insert(t);
      atFront := i == 0;
      FrontIsLeast(timers, pending, i);
    }

    // reyao/timer.cc:22-35. The branch that reports an absent timer is dead.
    method Cancel(t: Timer) returns (ok: bool)
      requires Valid() && t in all
      modifies this`timers, this`pending, t`func
      ensures Valid()
      ensures ok <==> t in old(pending)
      ensures pending == old(pending) - {t}
    {
      if t.func.Some? {
        t.func := None;
        var i := Find(t);
        if i >= |timers| {
          assert false;
        }
        Erase(i);
        return true;
      }
      return false;
    }

    // Everything but t is as its own fields say.
    ghost predicate TiedBut(t: Timer)
      reads this, all
    {
      Ordered() && forall u | u in all && u != t :: Tied(u)
    }

    method TakeOut(t: Timer)
      requires Valid() && t in pending
      modifies this`timers, this`pending
      ensures TiedBut(t) && pending == old(pending) - {t} && forall u | u in pending :: u.addr != t.addr
    {
      var i := Find(t);
      if i >= |timers| {
        assert false;
      }
      Erase(i);
    }

    method PutBack(t: Timer, interval: int, expire: int) returns (atFront: bool)
      requires TiedBut(t) && t in all && t !in pending && t.func.Some? && forall u | u in pending :: u.addr != t.addr
      modifies this, t`expire, t`interval
      ensures Valid() && all == old(all)
      ensures pending == old(pending)[t := Entry(expire, interval, t.recursive, t.func.value)]
      ensures atFront <==> forall u | u in pending && u != t :: Before(expire, t.addr, pending[u].expire, u.addr)
    {
      t.interval := interval;
      t.expire := expire;
      var i := Insert(t);
      FrontIsLeast(timers, pending, i);
      atFront := i == 0;
    }

    // Out of the set, changed, and in again: no key changes while inside.
    method Move(t: Timer, interval: int, expire: int) returns (atFront: bool)
      requires Valid() && t in pending
      modifies this, t`expire, t`interval
      ensures Valid() && all == old(all)
      ensures pending == old(pending)[t := old(pending)[t].(interval := interval, expire := expire)]
      ensures atFront <==> forall u | u in pending && u != t :: Before(expire, t.addr, pending[u].expire, u.addr)
    {
      TakeOut(t);
      atFront := PutBack(t, interval, expire);
      EraseInsert(old(pending), t, pending[t]);
    }

    // reyao/timer.cc:37-50
    method Refresh(t: Timer, now: int) returns (ok: bool)
      requires Valid() && t in all
      modifies this, t`expire, t`interval
      ensures Valid() && all == old(all) && t.interval == old(t.interval)
      ensures ok <==> t in old(pending)
      ensures pending == if ok then old(pending)[t := old(pending)[t].(expire := now + old(pending)[t].interval)]
                         else old(pending)
    {
      if t.func.None? {
        return false;
      }
      var _ := Move(t, t.interval, now + t.interval);
      ok := true;
      assert Tied(t);
    }

    // reyao/timer.cc:52-85. A cancelled timer asked for its own interval still answers true.
    method Reset(t: Timer, interval: int, fromNow: bool, now: int) returns (ok: bool, atFront: bool)
      requires Valid() && t in all
      modifies this, t`expire, t`interval
      ensures Valid() && all == old(all)
      ensures ok <==> t in old(pending) || (old(t.interval) == interval && !fromNow)
      ensures var moved := t in old(pending) && !(old(t.interval) == interval && !fromNow);
        && pending == (if moved then old(pending)[t := Restarted(old(pending)[t], interval, fromNow, now)] else old(pending))
        && (atFront <==> moved && forall u | u in pending && u != t ::
              Before(pending[t].expire, t.addr, pending[u].expire, u.addr))
    {
      atFront := false;
      if t.interval == interval && !fromNow {
        return true, atFront;
      }
      if t.func.None? {
        return false, atFront;
      }
      var start := if fromNow then now else t.expire - t.interval;
      atFront := Move(t, interval, start + interval);
      ok := true;
    }

    // reyao/timer.cc:142-156
    method GetExpire(now: int) returns (r: int)
      requires Valid()
      ensures IsExpire(pending, now, r)
    {
      if |timers| == 0 {
        return -1;
      }
      FrontIsLeast(timers, pending, 0);
      assert timers[0] in pending;
      if now > timers[0].expire {
        r := 0;
      } else {
        r := timers[0].expire - now;
      }
    }

    // Valid but for the timers of `rest`, which are out of the set with their functions still set.
    ghost predicate ValidExcept(rest: seq<Timer>)
      reads this, all
    {
      && Ordered()
      && (forall t | t in all && t !in rest :: Tied(t))
      && (forall t | t in rest :: t in all && t !in pending)
      && (forall t, u | t in rest && u in pending :: t.addr != u.addr)
      && (forall i, j | 0 <= i < j < |rest| :: rest[i].addr != rest[j].addr)
    }

    // A recurring timer goes in again.
    method Rearm(ghost rest: seq<Timer>, t: Timer, now: int)
      requires |rest| > 0 && rest[0] == t && ValidExcept(rest) && t.func.Some? && t.recursive
      modifies this, t`expire
      ensures ValidExcept(rest[1..]) && all == old(all)
      ensures pending == old(pending)[t := Entry(now + t.interval, t.interval, true, t.func.value)]
    {
      assert forall u | u in pending :: u in all && u !in rest;
      assert forall u :: u in rest <==> u == t || u in rest[1..];
      t.expire := now + t.interval;
      var _ := Insert(t);
    }

    // A one-shot timer is spent.
    method Spend(ghost rest: seq<Timer>, t: Timer)
      requires |rest| > 0 && rest[0] == t && ValidExcept(rest)
      modifies t`func
      ensures ValidExcept(rest[1..])
    {
      assert forall u | u in pending :: u in all && u !in rest;
      assert forall u :: u in rest <==> u == t || u in rest[1..];
      t.func := None;
    }

    // One round of the loop at reyao/timer.cc:176-184, for a timer already taken out of the set.
    method Settle(ghost rest: seq<Timer>, t: Timer, now: int) returns (func: Func)
      requires |rest| > 0 && rest[0] == t && ValidExcept(rest) && t.func.Some?
      modifies this, t`expire, t`func
      ensures ValidExcept(rest[1..]) && all == old(all)
      ensures old(t.func) == Some(func)
      ensures pending == if t.recursive
                         then old(pending)[t := Entry(now + t.interval, t.interval, true, func)]
                         else old(pending)
    {
      func := t.func.value;
      if t.recursive {
        Rearm(rest, t, now);
      } else {
        Spend(rest, t);
      }
    }

    // The search at reyao/timer.cc:166-171. `probe` is the address of the temporary timer made for
    // it: it decides on which side of it the timers that tie at `now` fall.
    method CountDue(now: int, probe: nat) returns (it: nat)
      requires Valid()
      ensures it <= |timers|
      ensures forall j | 0 <= j < it :: pending[timers[j]].expire <= now
      ensures it < |timers| ==> now < pending[timers[it]].expire
    {
      it := LowerBound(now, probe);
      while it < |timers| && timers[it].expire == now
        invariant it <= |timers|
        invariant forall j | 0 <= j < it :: pending[timers[j]].expire <= now
        invariant it < |timers| ==> now <= pending[timers[it]].expire
      {
        it := it + 1;
        if it < |timers| {
          assert Before(pending[timers[it - 1]].expire, timers[it - 1].addr, pending[timers[it]].expire, timers[it].addr);
        }
      }
    }

    method TakeDue(now: int, probe: nat) returns (expired: seq<Timer>)
      requires Valid()
      modifies this`timers, this`pending
      ensures DueOrder(old(pending), now, expired)
      ensures ValidExcept(expired)
      ensures pending == Midway(old(pending), now, expired)
    {
      var it := CountDue(now, probe);
      expired := timers[..it];
      SplitDue(timers, pending, now, it);
      timers := timers[it..];
      pending := Midway(pending, now, expired);
    }

    // What holds with the timers of `rest` still to settle.
    ghost predicate Settling(rest: seq<Timer>, p: map<Timer, Entry>, now: int)
      reads this, all, rest
    {
      && ValidExcept(rest) && pending == Midway(p, now, rest)
      && forall t | t in rest :: MatchesAt(p, t) && p[t].expire <= now
    }

    method SettleNext(ghost rest: seq<Timer>, t: Timer, now: int, ghost p: map<Timer, Entry>) returns (func: Func)
      requires |rest| > 0 && rest[0] == t && Settling(rest, p, now)
      modifies this, t`expire, t`func
      ensures Settling(rest[1..], p, now) && all == old(all) && t in p && func == p[t].func
    {
      assert t in rest;
      MidwayStep(p, now, rest);
      func := Settle(rest, t, now);
      assert t.recursive ==> pending == old(pending)[t := Rearmed(p[t], now)];
      forall u | u in rest[1..] ensures MatchesAt(p, u) && p[u].expire <= now {
        assert u in rest && u != t;
      }
    }

    // The loop at reyao/timer.cc:176-184.
    method SettleAll(expired: seq<Timer>, now: int, ghost p: map<Timer, Entry>) returns (funcs: seq<Func>)
      requires Settling(expired, p, now)
      modifies this, all
      ensures Valid() && all == old(all) && pending == AfterExpiry(p, now)
      ensures |funcs| == |expired|
      ensures forall i | 0 <= i < |expired| :: expired[i] in p && funcs[i] == p[expired[i]].func
    {
      funcs := [];
      for n := 0 to |expired|
        invariant all == old(all) && |funcs| == n
        invariant Settling(expired[n..], p, now)
        invariant forall i | 0 <= i < n :: expired[i] in p && funcs[i] == p[expired[i]].func
      {
        assert expired[n..][0] == expired[n] && expired[n..][1..] == expired[n + 1..];
        var f := SettleNext(expired[n..], expired[n], now, p);
        funcs := funcs + [f];
      }
      assert expired[|expired|..] == [];
    }

    ghost predicate MatchesAt(p: map<Timer, Entry>, t: Timer)
      reads t
    {
      t in p && t.func == Some(p[t].func) && t.interval == p[t].interval && t.recursive == p[t].recursive
    }

    // reyao/timer.cc:158-185
    method ExpiredFunctions(now: int, probe: nat) returns (funcs: seq<Func>, ghost order: seq<Timer>)
      requires Valid()
      modifies this, all
      ensures Valid() && all == old(all)
      ensures DueOrder(old(pending), now, order)
      ensures |funcs| == |order|
      ensures forall i | 0 <= i < |order| :: funcs[i] == old(pending)[order[i]].func
      ensures pending == AfterExpiry(old(pending), now)
    {
      ghost var p := pending;
      var expired := TakeDue(now, probe);
      order := expired;
      funcs := SettleAll(expired, now, p);
    }
  }
}
