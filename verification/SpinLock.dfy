// CoroutineSpinLock, reyao/coroutine.h:73-85, for any number of threads. Each atomic operation on sem
// is one step.
module SpinLocks {

  datatype Pc = Idle | Spinning | Holding

  datatype Lock = Lock(sem: int, threads: seq<Pc>)

  // Enter is --sem with its test; Look is one test of the spin loop; Leave is ++sem.
  datatype Action = Enter(t: nat) | Look(t: nat) | Leave(t: nat)

  function Init(n: nat): Lock { Lock(1, seq(n, i => Idle)) }

  // A step a thread cannot take leaves everything as it is.
  function Do(s: Lock, a: Action): Lock {
    if a.t >= |s.threads| then s
    else
      match (a, s.threads[a.t])
      case (Enter(t), Idle) => Lock(s.sem - 1, s.threads[t := if s.sem - 1 < 0 then Spinning else Holding])
      case (Look(t), Spinning) => if s.sem < 0 then s else s.(threads := s.threads[t := Holding])
      case (Leave(t), Holding) => Lock(s.sem + 1, s.threads[t := Idle])
      case _ => s
  }

  function RunFrom(s: Lock, acts: seq<Action>): Lock {
    if acts == [] then s else Do(RunFrom(s, acts[..|acts| - 1]), acts[|acts| - 1])
  }

  function Count(ts: seq<Pc>, pc: Pc): nat {
    if ts == [] then 0 else Count(ts[..|ts| - 1], pc) + if ts[|ts| - 1] == pc then 1 else 0
  }

  lemma {:induction false} CountUpdate(ts: seq<Pc>, t: nat, now: Pc, pc: Pc)
    requires t < |ts|
    ensures Count(ts[t := now], pc) + (if ts[t] == pc then 1 else 0) == Count(ts, pc) + if now == pc then 1 else 0
  {
    var n := |ts| - 1;
    if t == n {
      assert ts[t := now][..n] == ts[..n];
    } else {
      assert ts[t := now][..n] == ts[..n][t := now];
      CountUpdate(ts[..n], t, now, pc);
    }
  }

  function Holders(s: Lock): nat { Count(s.threads, Holding) }
  function Waiters(s: Lock): nat { Count(s.threads, Spinning) }

  predicate Inv(s: Lock) { s.sem == 1 - Holders(s) - Waiters(s) && Holders(s) <= 1 }

  lemma StepKeeps(s: Lock, a: Action)
    requires Inv(s)
    ensures Inv(Do(s, a))
  {
    var r := Do(s, a);
    if r != s {
      CountUpdate(s.threads, a.t, r.threads[a.t], Holding);
      CountUpdate(s.threads, a.t, r.threads[a.t], Spinning);
    }
  }

  lemma {:induction false} RunKeeps(s: Lock, acts: seq<Action>)
    requires Inv(s)
    ensures Inv(RunFrom(s, acts)) && |RunFrom(s, acts).threads| == |s.threads|
  {
    if acts != [] {
      RunKeeps(s, acts[..|acts| - 1]);
      StepKeeps(RunFrom(s, acts[..|acts| - 1]), acts[|acts| - 1]);
    }
  }

  lemma {:induction false} InitKeeps(n: nat)
    ensures Inv(Init(n)) && Holders(Init(n)) == 0 && Waiters(Init(n)) == 0
  {
    if n > 0 {
      assert Init(n).threads[..n - 1] == Init(n - 1).threads;
      InitKeeps(n - 1);
    }
  }

  lemma {:induction false} CountTwo(ts: seq<Pc>, i: nat, j: nat, pc: Pc)
    requires i < j < |ts| && ts[i] == ts[j] == pc
    ensures Count(ts, pc) >= 2
  {
    var n := |ts| - 1;
    if j < n {
      CountTwo(ts[..n], i, j, pc);
    } else {
      CountOne(ts[..n], i, pc);
    }
  }

  lemma {:induction false} CountOne(ts: seq<Pc>, i: nat, pc: Pc)
    requires i < |ts| && ts[i] == pc
    ensures Count(ts, pc) >= 1
  {
    if i < |ts| - 1 {
      CountOne(ts[..|ts| - 1], i, pc);
    }
  }

  lemma {:induction false} SomeOne(ts: seq<Pc>, pc: Pc) returns (i: nat)
    requires Count(ts, pc) >= 1
    ensures i < |ts| && ts[i] == pc
  {
    var n := |ts| - 1;
    if ts[n] == pc {
      i := n;
    } else {
      i := SomeOne(ts[..n], pc);
    }
  }

  // For any number of threads and any interleaving: sem counts, and no two threads hold the lock.
  lemma MutualExclusion(n: nat, acts: seq<Action>, i: nat, j: nat)
    requires i < n && j < n
    ensures var s := RunFrom(Init(n), acts);
      && |s.threads| == n
      && s.sem == 1 - Holders(s) - Waiters(s)
      && (s.threads[i] == Holding && s.threads[j] == Holding ==> i == j)
  {
    InitKeeps(n);
    RunKeeps(Init(n), acts);
    var s := RunFrom(Init(n), acts);
    if s.threads[i] == Holding && s.threads[j] == Holding && i != j {
      CountTwo(s.threads, if i < j then i else j, if i < j then j else i, Holding);
    }
  }

  // ---- stalls ----

  predicate Stalled(s: Lock) { Holders(s) == 0 && Waiters(s) >= 2 }

  lemma StepStalled(s: Lock, a: Action)
    requires Inv(s) && Stalled(s)
    ensures Stalled(Do(s, a))
  {
    if a.t < |s.threads| {
      if s.threads[a.t] == Holding {
        CountOne(s.threads, a.t, Holding);
      }
      CountUpdate(s.threads, a.t, Spinning, Holding);
      CountUpdate(s.threads, a.t, Spinning, Spinning);
    }
  }

  lemma {:induction false} StallIsForever(s: Lock, acts: seq<Action>)
    requires Inv(s) && Stalled(s)
    ensures Stalled(RunFrom(s, acts))
  {
    if acts != [] {
      var init := acts[..|acts| - 1];
      StallIsForever(s, init);
      RunKeeps(s, init);
      StepStalled(RunFrom(s, init), acts[|acts| - 1]);
    }
  }

  // Whether anyone holds the lock now or after some further steps.
  ghost predicate CanBeHeld(s: Lock) { exists acts :: Holders(RunFrom(s, acts)) == 1 }

  // Progress: the lock can still be taken exactly when it is held or fewer than two threads spin.
  lemma Progress(n: nat, acts: seq<Action>)
    requires n > 0
    ensures var s := RunFrom(Init(n), acts); CanBeHeld(s) <==> !Stalled(s)
  {
    InitKeeps(n);
    RunKeeps(Init(n), acts);
    var s := RunFrom(Init(n), acts);
    if Stalled(s) {
      forall more ensures Holders(RunFrom(s, more)) != 1 {
        StallIsForever(s, more);
      }
    } else if Holders(s) == 1 {
      assert Holders(RunFrom(s, [])) == 1;
    } else {
      var t, a := 0, Enter(0);
      if Waiters(s) == 1 {
        t := SomeOne(s.threads, Spinning);
        a := Look(t);
      } else {
        if s.threads[0] == Spinning { CountOne(s.threads, 0, Spinning); }
        if s.threads[0] == Holding { CountOne(s.threads, 0, Holding); }
      }
      CountUpdate(s.threads, t, Holding, Holding);
      assert [a][..0] == [];
      assert RunFrom(s, [a]) == Do(s, a);
      assert Holders(RunFrom(s, [a])) == 1;
    }
  }

  // A thread that takes the lock again before the other one looked makes both spin for ever.
  lemma TwoThreadsStall(n: nat)
    requires n >= 2
    ensures Stalled(RunFrom(Init(n), [Enter(0), Enter(1), Leave(0), Enter(0)]))
  {
    InitKeeps(n);
    var s0 := Init(n);
    var s1, s2 := Do(s0, Enter(0)), Do(Do(s0, Enter(0)), Enter(1));
    var s3 := Do(s2, Leave(0));
    var s4 := Do(s3, Enter(0));
    var acts := [Enter(0), Enter(1), Leave(0), Enter(0)];
    assert acts[..3] == [Enter(0), Enter(1), Leave(0)];
    assert acts[..3][..2] == [Enter(0), Enter(1)];
    assert acts[..3][..2][..1] == [Enter(0)];
    assert acts[..3][..2][..1][..0] == [];
    assert RunFrom(s0, acts[..3][..2][..1]) == s1;
    assert RunFrom(s0, acts[..3][..2]) == s2;
    assert RunFrom(s0, acts[..3]) == s3;
    assert RunFrom(s0, acts) == s4;
    RunKeeps(s0, acts);
    CountTwo(s4.threads, 0, 1, Spinning);
    assert s4.sem == -1;
  }

  ghost predicate CanStall(n: nat) { exists acts :: Stalled(RunFrom(Init(n), acts)) }

  // A stall can happen exactly when there are at least two threads.
  lemma StallIff(n: nat)
    ensures CanStall(n) <==> n >= 2
  {
    if n >= 2 {
      TwoThreadsStall(n);
      var acts := [Enter(0), Enter(1), Leave(0), Enter(0)];
      assert Stalled(RunFrom(Init(n), acts));
    } else {
      forall acts ensures !Stalled(RunFrom(Init(n), acts)) {
        InitKeeps(n);
        RunKeeps(Init(n), acts);
        AtMost(RunFrom(Init(n), acts).threads, Spinning);
      }
    }
  }

  lemma {:induction false} AtMost(ts: seq<Pc>, pc: Pc)
    ensures Count(ts, pc) <= |ts|
  {
    if ts != [] {
      AtMost(ts[..|ts| - 1], pc);
    }
  }
}
