// The double-buffered logger of reyao/asynclog.cc as steps taken under its mutex or by its thread alone.
module AsyncLogs {
  import opened Prelude

  const BUFFER_SIZE: nat := 4096

  // A FixedBuffer; `id` tells allocations apart. An Option<Buffer> is a unique_ptr, None when moved from.
  datatype Buffer = Buffer(id: nat, data: string)

  // reyao/fixedbuffer.h:15-20: text that does not fit is dropped whole.
  function Appended(data: string, line: string): string {
    if |data| + |line| <= BUFFER_SIZE then data + line else data
  }

  // Where the logging thread is in its loop, reyao/asynclog.cc:126-163.
  datatype Pc = Top | Enter | Waiting | Writing(k: nat) | Exited

  datatype Log = Log(curr: Option<Buffer>, backup: Option<Buffer>, buffers: seq<Option<Buffer>>,
                     first: Option<Buffer>, second: Option<Buffer>, local: seq<Option<Buffer>>,
                     pc: Pc, running: bool, exit: bool, file: string, next: nat, crashed: bool)

  datatype Action = Append(line: string) | Stop | Backend

  function Init(): Log {
    Log(Some(Buffer(0, "")), Some(Buffer(1, "")), [], Some(Buffer(2, "")), Some(Buffer(3, "")), [],
        Top, true, false, "", 4, false)
  }

  // ---- steps; using a moved-from pointer is a crash ----

  // reyao/asynclog.cc:105-111: the full buffer is handed over, a spare or a new one takes its place.
  function Rotated(s: Log): Log {
    s.(buffers := s.buffers + [s.curr], backup := None,
       curr := if s.backup.Some? then s.backup else Some(Buffer(s.next, "")),
       next := if s.backup.Some? then s.next else s.next + 1)
  }

  function WithLine(s: Log, line: string): Log
    requires s.curr.Some?
  {
    s.(curr := Some(s.curr.value.(data := Appended(s.curr.value.data, line))))
  }

  // reyao/asynclog.cc:97-116
  function DoAppend(s: Log, line: string): Log {
    if s.curr.None? then s.(crashed := true)
    else if BUFFER_SIZE - |s.curr.value.data| > |line| then WithLine(s, line)
    else WithLine(Rotated(s), line)
  }

  // reyao/asynclog.cc:137-143
  function DoSwap(s: Log): Log {
    s.(local := s.buffers + [s.curr], buffers := s.local, curr := s.first, first := None,
       backup := if s.backup.None? then s.second else s.backup,
       second := if s.backup.None? then None else s.second, pc := Writing(0))
  }

  // reyao/asynclog.cc:146-147, one buffer
  function DoWrite(s: Log): Log
    requires s.pc.Writing? && s.pc.k < |s.local|
  {
    var b := s.local[s.pc.k];
    if b.None? then s.(crashed := true) else s.(file := s.file + b.value.data, pc := Writing(s.pc.k + 1))
  }

  // reyao/asynclog.cc:150-161
  function DoRecycle(s: Log): Log {
    if s.local == [] || s.local[0].None? || (s.second.None? && |s.local| >= 2 && s.local[1].None?)
    then s.(crashed := true)
    else
      var fromLocal := s.second.None? && |s.local| >= 2;
      s.(first := Some(s.local[0].value.(data := "")),
         second := if s.second.Some? then s.second
                   else if fromLocal then Some(s.local[1].value.(data := ""))
                   else Some(Buffer(s.next, "")),
         next := if s.second.Some? || fromLocal then s.next else s.next + 1,
         local := [], pc := Top)
  }

  // The thread's next step. The wait may end at any time, for a notification or by its timeout.
  function DoBackend(s: Log): Log {
    match s.pc
    case Top => if s.running then s.(running := !s.exit, pc := Enter) else s.(pc := Exited)
    case Enter => if s.buffers == [] then s.(pc := Waiting) else DoSwap(s)
    case Waiting => DoSwap(s)
    case Writing(k) => if k < |s.local| then DoWrite(s) else DoRecycle(s)
    case Exited => s
  }

  function Do(s: Log, a: Action): Log {
    match a
    case Append(line) => DoAppend(s, line)
    case Stop => s.(exit := true)
    case Backend => DoBackend(s)
  }

  function Run(acts: seq<Action>): Log {
    if acts == [] then Init() else Do(Run(acts[..|acts| - 1]), acts[|acts| - 1])
  }

  // ---- specification ----

  // The lines the logger takes, in lock order: all that fit an empty buffer.
  function Accepted(acts: seq<Action>): string {
    if acts == [] then ""
    else
      var before := Accepted(acts[..|acts| - 1]);
      match acts[|acts| - 1]
      case Append(line) => if |line| <= BUFFER_SIZE then before + line else before
      case _ => before
  }

  function Text(bs: seq<Option<Buffer>>): string {
    if bs == [] then ""
    else Text(bs[..|bs| - 1]) + (if bs[|bs| - 1].Some? then bs[|bs| - 1].value.data else "")
  }

  lemma {:induction false} TextTail(bs: seq<Option<Buffer>>, k: nat)
    requires k < |bs| && bs[k].Some?
    ensures Text(bs[k..]) == bs[k].value.data + Text(bs[k + 1..])
  {
    var t := bs[k..];
    if |t| == 1 {
      assert t[..0] == [] && bs[k + 1..] == [];
    } else {
      var shorter := bs[..|bs| - 1];
      TextTail(shorter, k);
      assert t[..|t| - 1] == shorter[k..] && bs[k + 1..][..|t| - 2] == shorter[k + 1..];
    }
  }

  lemma TextPush(bs: seq<Option<Buffer>>, b: Option<Buffer>)
    requires b.Some?
    ensures Text(bs + [b]) == Text(bs) + b.value.data
  {
    assert (bs + [b])[..|bs|] == bs;
  }

  // The thread owns what it swapped out and did not write yet.
  function Unwritten(s: Log): string {
    if s.pc.Writing? && s.pc.k <= |s.local| then Text(s.local[s.pc.k..]) else ""
  }

  function CurrText(s: Log): string { if s.curr.Some? then s.curr.value.data else "" }

  function Everything(s: Log): string { s.file + (Unwritten(s) + (Text(s.buffers) + CurrText(s))) }

  predicate Empty(b: Option<Buffer>) { b.Some? ==> b.value.data == "" }

  predicate NoneMissing(bs: seq<Option<Buffer>>) { forall i | 0 <= i < |bs| :: bs[i].Some? }

  // No pointer that will be used was moved from; spares are empty; at the head of the loop, and until
  // the next swap, the thread holds both of its spares.
  predicate Shape(s: Log) {
    && !s.crashed && s.curr.Some? && NoneMissing(s.buffers) && NoneMissing(s.local)
    && Empty(s.backup) && Empty(s.first) && Empty(s.second)
    && (if s.pc.Writing? then s.local != [] && s.pc.k <= |s.local| && s.first.None?
        else s.local == [] && s.first.Some? && s.second.Some?)
  }

  // ---- one owner per buffer ----

  function OwnedBy(b: Option<Buffer>, id: nat): nat { if b.Some? && b.value.id == id then 1 else 0 }

  function OwnedIn(bs: seq<Option<Buffer>>, id: nat): nat {
    if bs == [] then 0 else OwnedIn(bs[..|bs| - 1], id) + OwnedBy(bs[|bs| - 1], id)
  }

  function Owners(s: Log, id: nat): nat {
    OwnedBy(s.curr, id) + OwnedBy(s.backup, id) + OwnedBy(s.first, id) + OwnedBy(s.second, id) + OwnedIn(s.buffers, id) + OwnedIn(s.local, id)
  }

  predicate SoleOwner(s: Log, id: nat) { Owners(s, id) <= if id < s.next then 1 else 0 }

  lemma {:induction false} OwnedInTwo(bs: seq<Option<Buffer>>, id: nat)
    requires |bs| >= 1
    ensures OwnedIn(bs, id) >= OwnedBy(bs[0], id) + if |bs| >= 2 then OwnedBy(bs[1], id) else 0
  {
    var init := bs[..|bs| - 1];
    if |bs| == 1 {
      assert init == [];
    } else if |bs| == 2 {
      assert init == [bs[0]] && init[..0] == [];
    } else {
      OwnedInTwo(init, id);
    }
  }

  lemma OwnedPush(bs: seq<Option<Buffer>>, b: Option<Buffer>, id: nat)
    ensures OwnedIn(bs + [b], id) == OwnedIn(bs, id) + OwnedBy(b, id)
  {
    assert (bs + [b])[..|bs|] == bs;
  }

  lemma RotatedOwners(s: Log, id: nat)
    requires s.curr.Some? && SoleOwner(s, id)
    ensures SoleOwner(Rotated(s), id)
  {
    OwnedPush(s.buffers, s.curr, id);
  }

  lemma AppendOwners(s: Log, line: string, id: nat)
    requires Shape(s) && SoleOwner(s, id)
    ensures SoleOwner(DoAppend(s, line), id)
  {
    RotatedOwners(s, id);
    assert Owners(WithLine(s, line), id) == Owners(s, id);
    assert Owners(WithLine(Rotated(s), line), id) == Owners(Rotated(s), id);
  }

  lemma SwapOwners(s: Log, id: nat)
    requires Shape(s) && !s.pc.Writing?
    ensures Owners(DoSwap(s), id) == Owners(s, id)
  {
    OwnedPush(s.buffers, s.curr, id);
  }

  lemma RecycleOwners(s: Log, id: nat)
    requires Shape(s) && s.pc.Writing? && SoleOwner(s, id)
    ensures SoleOwner(DoRecycle(s), id)
  {
    OwnedInTwo(s.local, id);
  }

  lemma BackendOwners(s: Log, id: nat)
    requires Shape(s) && SoleOwner(s, id)
    ensures SoleOwner(DoBackend(s), id)
  {
    if s.pc == Waiting || (s.pc == Enter && s.buffers != []) {
      SwapOwners(s, id);
    } else if s.pc.Writing? {
      if s.pc.k < |s.local| {
        assert Owners(DoWrite(s), id) == Owners(s, id);
      } else {
        RecycleOwners(s, id);
      }
    } else {
      assert Owners(DoBackend(s), id) == Owners(s, id);
    }
  }

  lemma StepOwners(s: Log, a: Action, id: nat)
    requires Shape(s) && SoleOwner(s, id)
    ensures SoleOwner(Do(s, a), id)
  {
    match a
    case Append(line) => AppendOwners(s, line, id);
    case Stop =>
    case Backend => BackendOwners(s, id);
  }

  // ---- every step keeps the shape and loses nothing ----

  lemma AppendShape(s: Log, line: string)
    requires Shape(s)
    ensures Shape(DoAppend(s, line))
  {
  }

  lemma AppendText(s: Log, line: string)
    requires Shape(s)
    ensures var r := DoAppend(s, line);
         Text(r.buffers) + CurrText(r) == (Text(s.buffers) + CurrText(s)) + (if |line| <= BUFFER_SIZE then line else "")
  {
    var r := DoAppend(s, line);
    if r.buffers == s.buffers {
      Assoc(Text(s.buffers), CurrText(s), line);
    } else {
      TextPush(s.buffers, s.curr);
      assert "" + line == line;
    }
  }

  lemma AppendKeeps(s: Log, line: string)
    requires Shape(s)
    ensures Everything(DoAppend(s, line)) == Everything(s) + (if |line| <= BUFFER_SIZE then line else "")
  {
    var r, t, added := DoAppend(s, line), Text(s.buffers) + CurrText(s), if |line| <= BUFFER_SIZE then line else "";
    AppendText(s, line);
    assert r.file == s.file && Unwritten(r) == Unwritten(s);
    Assoc(Unwritten(s), t, added);
    Assoc(s.file, Unwritten(s) + t, added);
  }

  lemma SwapKeeps(s: Log)
    requires Shape(s) && !s.pc.Writing?
    ensures Shape(DoSwap(s)) && Everything(DoSwap(s)) == Everything(s)
    ensures DoSwap(s).file + Unwritten(DoSwap(s)) == Everything(s)
  {
    var r := DoSwap(s);
    assert r.local[0..] == r.local && r.local[..|s.buffers|] == s.buffers;
  }

  lemma WriteShape(s: Log)
    requires Shape(s) && s.pc.Writing? && s.pc.k < |s.local|
    ensures Shape(DoWrite(s)) && DoWrite(s) == s.(file := s.file + s.local[s.pc.k].value.data, pc := Writing(s.pc.k + 1))
  {
  }

  lemma WriteKeeps(s: Log)
    requires Shape(s) && s.pc.Writing? && s.pc.k < |s.local|
    ensures Shape(DoWrite(s)) && Everything(DoWrite(s)) == Everything(s)
    ensures DoWrite(s).file + Unwritten(DoWrite(s)) == s.file + Unwritten(s)
  {
    var data, more, front := s.local[s.pc.k].value.data, Text(s.local[s.pc.k + 1..]), Text(s.buffers) + CurrText(s);
    WriteShape(s);
    TextTail(s.local, s.pc.k);
    Assoc(s.file, data, more);
    Assoc(data, more, front);
    Assoc(s.file, data, more + front);
  }

  lemma BackendKeeps(s: Log)
    requires Shape(s)
    ensures Shape(DoBackend(s)) && Everything(DoBackend(s)) == Everything(s)
  {
    match s.pc
    case Top =>
    case Enter => SwapKeeps(s);
    case Waiting => SwapKeeps(s);
    case Writing(k) =>
      if k < |s.local| {
        WriteKeeps(s);
      } else {
        assert s.local[k..] == [];
      }
    case Exited =>
  }

  // In every interleaving: no line is lost, doubled or reordered, no moved-from buffer is used, and
  // each buffer has one owner.
  lemma {:induction false} LogConservation(acts: seq<Action>)
    ensures Shape(Run(acts)) && Everything(Run(acts)) == Accepted(acts)
    ensures forall id :: SoleOwner(Run(acts), id)
  {
    if acts == [] {
      assert Text([]) == "";
    } else {
      var init, a := acts[..|acts| - 1], acts[|acts| - 1];
      LogConservation(init);
      match a {
        case Append(line) =>
          AppendShape(Run(init), line);
          AppendKeeps(Run(init), line);
        case Stop =>
        case Backend => BackendKeeps(Run(init));
      }
      forall id ensures SoleOwner(Run(acts), id) {
        StepOwners(Run(init), a, id);
      }
    }
  }

  // ---- the end ----

  // The step that takes the buffers for the last time: a swap after the thread saw exit_.
  predicate FinalSwap(s: Log, a: Action) {
    a == Backend && !s.running && (s.pc == Waiting || (s.pc == Enter && s.buffers != []))
  }

  // What was accepted before the final swap; nothing while it did not happen.
  function BeforeFinalSwap(acts: seq<Action>): Option<string> {
    if acts == [] then None
    else
      var init := acts[..|acts| - 1];
      if FinalSwap(Run(init), acts[|acts| - 1]) then Some(Accepted(init)) else BeforeFinalSwap(init)
  }

  predicate AfterFinal(s: Log) { !s.running && (s.pc == Top || s.pc.Writing? || s.pc == Exited) }

  lemma FinalStep(s: Log)
    requires Shape(s) && FinalSwap(s, Backend)
    ensures AfterFinal(DoBackend(s)) && DoBackend(s).file + Unwritten(DoBackend(s)) == Everything(s)
  {
    SwapKeeps(s);
  }

  lemma OtherSteps(s: Log)
    requires Shape(s) && (s.pc == Exited ==> !s.running) && !FinalSwap(s, Backend)
    ensures AfterFinal(DoBackend(s)) <==> AfterFinal(s)
    ensures AfterFinal(s) ==> DoBackend(s).file + Unwritten(DoBackend(s)) == s.file + Unwritten(s)
  {
    if s.pc.Writing? {
      if s.pc.k < |s.local| {
        WriteKeeps(s);
      } else {
        assert s.local[s.pc.k..] == [];
      }
    }
  }

  ghost predicate Ending(s: Log, b: Option<string>) {
    && (AfterFinal(s) <==> b.Some?)
    && (b.Some? ==> s.file + Unwritten(s) == b.value)
    && (s.pc == Exited ==> !s.running)
  }

  // One step, with what it makes of the final swap.
  lemma EndingStep(s: Log, a: Action, b: Option<string>)
    requires Shape(s) && Ending(s, b)
    ensures Ending(Do(s, a), if FinalSwap(s, a) then Some(Everything(s)) else b)
  {
    match a
    case Append(line) =>
    case Stop =>
    case Backend =>
      if FinalSwap(s, a) {
        FinalStep(s);
      } else {
        OtherSteps(s);
      }
  }

  lemma {:induction false} EndInvariant(acts: seq<Action>)
    ensures Ending(Run(acts), BeforeFinalSwap(acts))
  {
    if acts != [] {
      var init, a := acts[..|acts| - 1], acts[|acts| - 1];
      EndInvariant(init);
      LogConservation(init);
      EndingStep(Run(init), a, BeforeFinalSwap(init));
    }
  }

  // When the thread has ended, the file holds exactly what was accepted before its final swap.
  lemma FileAtExit(acts: seq<Action>)
    requires Run(acts).pc == Exited
    ensures BeforeFinalSwap(acts) == Some(Run(acts).file)
  {
    EndInvariant(acts);
    var s := Run(acts);
    assert s.file + "" == s.file;
  }

  lemma StillRunning(s: Log, a: Action)
    requires s.running && !s.exit && a != Stop
    ensures Do(s, a).running && !Do(s, a).exit
  {
  }

  lemma {:induction false} NotStopped(acts: seq<Action>)
    requires Stop !in acts
    ensures Run(acts).running && !Run(acts).exit
  {
    if acts != [] {
      NotStopped(acts[..|acts| - 1]);
      StillRunning(Run(acts[..|acts| - 1]), acts[|acts| - 1]);
    }
  }

  predicate IsPrefix(a: string, b: string) { |a| <= |b| && b[..|a|] == a }

  lemma {:induction false} AcceptedGrows(acts: seq<Action>, k: nat)
    requires k <= |acts|
    ensures IsPrefix(Accepted(acts[..k]), Accepted(acts))
  {
    if k == |acts| {
      assert acts[..k] == acts;
    } else {
      var init := acts[..|acts| - 1];
      assert init[..k] == acts[..k];
      AcceptedGrows(init, k);
    }
  }

  lemma {:induction false} FinalSwapAfterStop(acts: seq<Action>, k: nat)
    requires k <= |acts| && Stop !in acts[..k] && BeforeFinalSwap(acts).Some?
    ensures IsPrefix(Accepted(acts[..k]), BeforeFinalSwap(acts).value)
  {
    var init := acts[..|acts| - 1];
    if k == |acts| {
      assert acts[..k] == acts;
      NotStopped(acts);
      EndInvariant(acts);
      assert false;
    } else {
      assert init[..k] == acts[..k];
      if FinalSwap(Run(init), acts[|acts| - 1]) {
        AcceptedGrows(init, k);
      } else {
        FinalSwapAfterStop(init, k);
      }
    }
  }

  // Everything logged before stop() was called is in the file when the thread has ended.
  lemma LoggedBeforeStop(acts: seq<Action>, k: nat)
    requires k <= |acts| && Stop !in acts[..k] && Run(acts).pc == Exited
    ensures IsPrefix(Accepted(acts[..k]), Run(acts).file)
  {
    FileAtExit(acts);
    FinalSwapAfterStop(acts, k);
  }

  // ---- the thread gets there ----

  // The counts of steps in a stretch of a run.
  function Backends(acts: seq<Action>): nat {
    if acts == [] then 0 else Backends(acts[..|acts| - 1]) + Has(acts[|acts| - 1] == Backend)
  }

  function Appends(acts: seq<Action>): nat {
    if acts == [] then 0 else Appends(acts[..|acts| - 1]) + Has(acts[|acts| - 1].Append?)
  }

  // How many buffers the thread still has to write in this round, with the step that recycles them.
  function RestOfRound(s: Log): int { if s.pc.Writing? then |s.local| - s.pc.k + 1 else 0 }

  // A full round with the buffers handed over so far: see exit_, find nothing, wait, take them, write
  // them and the current one, recycle.
  function FullRound(s: Log): nat { |s.buffers| + 5 }

  // From stop() on: the rest of this round, one full round if exit_ was not seen yet, and the last look
  // at running_.
  function StepsToExit(s: Log): int {
    match s.pc
    case Exited => 0
    case Top => if s.running then FullRound(s) + 1 else 1
    case Enter => |s.buffers| + (if s.running then 10 else 5)
    case Waiting => |s.buffers| + (if s.running then 9 else 4)
    case Writing(_) => RestOfRound(s) + if s.running then FullRound(s) + 1 else 1
  }

  lemma BackendNearsExit(s: Log)
    requires Shape(s) && s.exit && StepsToExit(s) > 0
    ensures StepsToExit(DoBackend(s)) < StepsToExit(s) && DoBackend(s).exit
  {
  }

  lemma ExitedStays(s: Log)
    requires Shape(s) && StepsToExit(s) <= 0
    ensures s.pc == Exited && DoBackend(s) == s
  {
  }

  lemma AppendAddsOne(s: Log, line: string)
    requires Shape(s)
    ensures StepsToExit(DoAppend(s, line)) <= StepsToExit(s) + 1 && DoAppend(s, line).exit == s.exit
    ensures s.pc == Exited ==> DoAppend(s, line).pc == Exited
  {
  }

  lemma CountsLast(acts: seq<Action>, k: nat)
    requires k < |acts|
    ensures var (n, a) := (|acts| - 1, acts[|acts| - 1]);
      && acts[..n][..k] == acts[..k]
      && Appends(acts[k..]) == Appends(acts[..n][k..]) + Has(a.Append?)
      && Backends(acts[k..]) == Backends(acts[..n][k..]) + Has(a == Backend)
  {
    var n, t := |acts| - 1, acts[k..];
    assert t[..|t| - 1] == acts[..n][k..];
    assert t[|t| - 1] == acts[n];
  }

  // At most n steps away from the end.
  predicate ExitsIn(s: Log, n: int) { s.exit && (s.pc == Exited || StepsToExit(s) <= n) }

  // What is left after some steps, each append having added one buffer at most.
  lemma {:induction false} NearsExit(acts: seq<Action>, k: nat, n: int)
    requires k <= |acts| && ExitsIn(Run(acts[..k]), n)
    ensures ExitsIn(Run(acts), n + Appends(acts[k..]) - Backends(acts[k..]))
  {
    if k == |acts| {
      assert acts[..k] == acts;
    } else {
      var init := acts[..|acts| - 1];
      CountsLast(acts, k);
      NearsExit(init, k, n);
      LogConservation(init);
      NearsExitStep(Run(init), acts[|acts| - 1], n + Appends(init[k..]) - Backends(init[k..]));
    }
  }

  lemma NearsExitStep(s: Log, a: Action, n: int)
    requires Shape(s) && ExitsIn(s, n)
    ensures ExitsIn(Do(s, a), n + Has(a.Append?) - Has(a == Backend))
  {
    match a
    case Append(line) => AppendAddsOne(s, line);
    case Stop =>
    case Backend =>
      if StepsToExit(s) > 0 {
        BackendNearsExit(s);
      } else {
        ExitedStays(s);
      }
  }

  // stop() ends the thread: whatever is appended meanwhile, after so many of its own steps the thread has
  // left its loop, and everything accepted before stop() is in the file.
  lemma StopEndsThread(acts: seq<Action>, k: nat)
    requires k < |acts| && acts[k] == Stop && Stop !in acts[..k]
    requires Backends(acts[k + 1..]) >= StepsToExit(Run(acts[..k + 1])) + Appends(acts[k + 1..])
    ensures Run(acts).pc == Exited && IsPrefix(Accepted(acts[..k]), Run(acts).file)
  {
    assert acts[..k + 1][..k] == acts[..k];
    NearsExit(acts, k + 1, StepsToExit(Run(acts[..k + 1])));
    LogConservation(acts);
    if StepsToExit(Run(acts)) <= 0 {
      ExitedStays(Run(acts));
    }
    LoggedBeforeStop(acts, k);
  }

  // Without stop() it never ends.
  lemma RunsUntilStopped(acts: seq<Action>)
    requires Stop !in acts
    ensures Run(acts).pc != Exited
  {
    NotStopped(acts);
    EndInvariant(acts);
  }

  // ---- what is accepted gets written ----

  // The thread's steps until all that is accepted by now is in the file.
  function StepsToFile(s: Log): int {
    match s.pc
    case Exited => 0
    case Top => |s.buffers| + 4
    case Enter => |s.buffers| + 3
    case Waiting => |s.buffers| + 2
    case Writing(_) => RestOfRound(s) + |s.buffers| + 4
  }

  // `text` is in the file, or among what is being written, or somewhere, and n steps are enough.
  predicate Owes(s: Log, text: string, n: int) {
    || IsPrefix(text, s.file)
    || (s.pc.Writing? && IsPrefix(text, s.file + Unwritten(s)) && n >= |s.local| - s.pc.k)
    || (IsPrefix(text, Everything(s)) && n >= StepsToFile(s))
  }

  lemma PrefixOf(text: string, a: string, b: string)
    requires IsPrefix(text, a)
    ensures IsPrefix(text, a + b)
  {
    assert (a + b)[..|text|] == a[..|text|];
  }

  lemma AppendOwes(s: Log, line: string, text: string, n: int)
    requires Shape(s) && Owes(s, text, n)
    ensures Owes(DoAppend(s, line), text, n + 1)
  {
    AppendKeeps(s, line);
    if IsPrefix(text, Everything(s)) {
      PrefixOf(text, Everything(s), if |line| <= BUFFER_SIZE then line else "");
    }
    AppendTouches(s, line);
  }

  lemma AppendTouches(s: Log, line: string)
    requires Shape(s)
    ensures var r := DoAppend(s, line);
      && r.file == s.file && r.pc == s.pc && r.local == s.local && |r.buffers| <= |s.buffers| + 1
      && Unwritten(r) == Unwritten(s) && StepsToFile(r) <= StepsToFile(s) + 1
  {
  }

  lemma WriteOwes(s: Log, text: string, n: int)
    requires Shape(s) && s.pc.Writing? && s.pc.k < |s.local| && Owes(s, text, n)
    ensures Owes(DoWrite(s), text, n - 1)
  {
    WriteShape(s);
    WriteKeeps(s);
    if IsPrefix(text, s.file) {
      PrefixOf(text, s.file, s.local[s.pc.k].value.data);
    }
  }

  lemma RecycleOwes(s: Log, text: string, n: int)
    requires Shape(s) && s.pc.Writing? && s.pc.k == |s.local| && Owes(s, text, n)
    ensures Owes(DoRecycle(s), text, n - 1)
  {
    BackendKeeps(s);
    assert s.local[s.pc.k..] == [] && s.file + "" == s.file;
    assert DoRecycle(s).file == s.file;
  }

  lemma SwapOwes(s: Log, text: string, n: int)
    requires Shape(s) && !s.pc.Writing? && Owes(s, text, n) && (s.pc == Waiting || s.pc == Enter)
    ensures Owes(DoSwap(s), text, n - 1)
  {
    SwapKeeps(s);
  }

  lemma BackendOwes(s: Log, text: string, n: int)
    requires Shape(s) && s.running && !s.exit && s.pc != Exited && Owes(s, text, n)
    ensures Owes(DoBackend(s), text, n - 1)
  {
    match s.pc
    case Top => BackendKeeps(s);
    case Enter => BackendKeeps(s); SwapOwes(s, text, n);
    case Waiting => SwapOwes(s, text, n);
    case Writing(k) =>
      if k < |s.local| {
        WriteOwes(s, text, n);
      } else {
        RecycleOwes(s, text, n);
      }
  }

  lemma OwesAll(acts: seq<Action>)
    ensures Owes(Run(acts), Accepted(acts), StepsToFile(Run(acts)))
  {
    LogConservation(acts);
    var all := Everything(Run(acts));
    assert all[..|all|] == all;
  }

  lemma LastStepOwes(acts: seq<Action>, text: string, n: int)
    requires acts != [] && Stop !in acts && Owes(Run(acts[..|acts| - 1]), text, n)
    ensures var a := acts[|acts| - 1]; Owes(Run(acts), text, n + Has(a.Append?) - Has(a == Backend))
  {
    var init := acts[..|acts| - 1];
    LogConservation(init);
    NotStopped(init);
    RunsUntilStopped(init);
    StepOwes(Run(init), acts[|acts| - 1], text, n);
  }

  // What is owed after the steps from k on, when it was n at k.
  ghost predicate OwesAfter(acts: seq<Action>, k: nat, text: string, n: int)
    requires k <= |acts|
  {
    Owes(Run(acts), text, n + Appends(acts[k..]) - Backends(acts[k..]))
  }

  lemma OwesAtOnce(acts: seq<Action>, text: string, n: int)
    requires Owes(Run(acts), text, n)
    ensures OwesAfter(acts, |acts|, text, n)
  {
    assert acts[|acts|..] == [];
  }

  lemma OwesOneMore(acts: seq<Action>, k: nat, text: string, n: int)
    requires k < |acts| && Stop !in acts && OwesAfter(acts[..|acts| - 1], k, text, n)
    ensures OwesAfter(acts, k, text, n)
  {
    CountsLast(acts, k);
    LastStepOwes(acts, text, n + Appends(acts[..|acts| - 1][k..]) - Backends(acts[..|acts| - 1][k..]));
  }

  lemma {:induction false} StaysOwed(acts: seq<Action>, k: nat, text: string, n: int)
    requires k <= |acts| && Stop !in acts && Owes(Run(acts[..k]), text, n)
    ensures OwesAfter(acts, k, text, n)
  {
    if k == |acts| {
      assert acts[..k] == acts;
      OwesAtOnce(acts, text, n);
    } else {
      assert acts[..|acts| - 1][..k] == acts[..k];
      StaysOwed(acts[..|acts| - 1], k, text, n);
      OwesOneMore(acts, k, text, n);
    }
  }

  lemma StepOwes(s: Log, a: Action, text: string, n: int)
    requires Shape(s) && s.running && !s.exit && s.pc != Exited && a != Stop && Owes(s, text, n)
    ensures Owes(Do(s, a), text, n + Has(a.Append?) - Has(a == Backend))
  {
    if a == Backend {
      BackendOwes(s, text, n);
    } else {
      AppendOwes(s, a.line, text, n);
    }
  }

  // While nobody stops the logger, whatever was accepted is in the file after so many steps of the
  // thread, one more for each line appended meanwhile.
  lemma EventuallyWritten(acts: seq<Action>, k: nat)
    requires k <= |acts| && Stop !in acts
    requires Backends(acts[k..]) >= StepsToFile(Run(acts[..k])) + Appends(acts[k..])
    ensures IsPrefix(Accepted(acts[..k]), Run(acts).file)
  {
    OwesAll(acts[..k]);
    StaysOwed(acts, k, Accepted(acts[..k]), StepsToFile(Run(acts[..k])));
    LogConservation(acts);
    RunsUntilStopped(acts);
    var s := Run(acts);
    if s.pc.Writing? && s.pc.k == |s.local| {
      assert s.local[s.pc.k..] == [] && s.file + "" == s.file;
    }
  }

  // The current buffer is handed over exactly when the line would fill it to its last byte or beyond.
  lemma HandedOver(s: Log, line: string)
    requires Shape(s)
    ensures DoAppend(s, line).buffers == s.buffers <==> |s.curr.value.data| + |line| < BUFFER_SIZE
    ensures |s.curr.value.data| + |line| >= BUFFER_SIZE ==> DoAppend(s, line).buffers == s.buffers + [s.curr]
  {
    assert |s.buffers + [s.curr]| == |s.buffers| + 1;
  }
}

module AsyncLogClass {
  import opened Prelude
  import opened AsyncLogs

  // reyao/fixedbuffer.h
  class FixedBuffer {
    const data: array<char>
    var pos: nat

    ghost predicate Valid()
      reads this
    {
      data.Length == BUFFER_SIZE && pos <= BUFFER_SIZE
    }

    ghost function Contents(): string
      reads this, data
      requires Valid()
    {
      data[..pos]
    }

    constructor ()
      ensures Valid() && Contents() == "" && fresh(data)
    {
      data := new char[BUFFER_SIZE];
      pos := 0;
    }

    function Avail(): nat
      reads this
      requires Valid()
    {
      BUFFER_SIZE - pos
    }

    method Append(line: string)
      requires Valid()
      modifies this`pos, data
      ensures Valid() && Contents() == Appended(old(Contents()), line)
    {
      if Avail() < |line| {
        return;
      }
      var i := 0;
      while i < |line|
        invariant i <= |line| && data[pos..pos + i] == line[..i] && data[..pos] == old(Contents())
        modifies data
      {
        data[pos + i] := line[i];
        i := i + 1;
      }
      pos := pos + |line|;
    }

    method Reset()
      requires Valid()
      modifies this`pos
      ensures Valid() && Contents() == ""
    {
      pos := 0;
    }
  }

  // The logger's fields and the locals of its thread. Each method is one critical section, or one
  // stretch of the thread between two of them.
  class AsyncLog {
    var curr: Option<Buffer>
    var backup: Option<Buffer>
    var buffers: seq<Option<Buffer>>
    var first: Option<Buffer>
    var second: Option<Buffer>
    var local: seq<Option<Buffer>>
    var running: bool
    var exit: bool
    var file: string
    var next: nat

    function View(pc: Pc): Log
      reads this
    {
      Log(curr, backup, buffers, first, second, local, pc, running, exit, file, next, false)
    }

    constructor ()
      ensures View(Top) == Init()
    {
      curr, backup := Some(Buffer(0, "")), Some(Buffer(1, ""));
      first, second := Some(Buffer(2, "")), Some(Buffer(3, ""));
      buffers, local, file := [], [], "";
      running, exit, next := true, false, 4;
    }

    method Append(line: string, ghost pc: Pc)
      requires Shape(View(pc))
      modifies this`curr, this`backup, this`buffers, this`next
      ensures View(pc) == DoAppend(old(View(pc)), line)
    {
      var b := curr.value;
      if BUFFER_SIZE - |b.data| > |line| {
        curr := Some(b.(data := Appended(b.data, line)));
        return;
      }
      buffers := buffers + [curr];
      if backup.Some? {
        curr := backup;
        backup := None;
      } else {
        curr := Some(Buffer(next, ""));
        next := next + 1;
      }
      curr := Some(curr.value.(data := Appended(curr.value.data, line)));
    }

    method Stop(ghost pc: Pc)
      modifies this`exit
      ensures View(pc) == Do(old(View(pc)), AsyncLogs.Stop)
    {
      exit := true;
    }

    // The head of the loop; false when it ends.
    method Begin() returns (go: bool)
      modifies this`running
      ensures go == old(running) && running == (old(running) && !exit)
      ensures View(if go then Enter else Exited) == DoBackend(old(View(Top)))
    {
      go := running;
      if running && exit {
        running := false;
      }
    }

    // With the lock held, after the wait if there was one.
    method Collect(ghost pc: Pc)
      requires pc == Waiting || (pc == Enter && buffers != [])
      modifies this
      ensures View(Writing(0)) == DoBackend(old(View(pc)))
    {
      buffers := buffers + [curr];
      curr := first;
      first := None;
      if backup.None? {
        backup := second;
        second := None;
      }
      local, buffers := buffers, local;
    }

    method WriteBuffers()
      requires Shape(View(Writing(0)))
      modifies this`file
      ensures View(Writing(|local|)) == Repeat(old(View(Writing(0))), |local|)
    {
      var k := 0;
      while k < |local|
        invariant k <= |local| && View(Writing(k)) == Repeat(old(View(Writing(0))), k)
        modifies this`file
      {
        file := file + local[k].value.data;
        k := k + 1;
      }
    }

    method Recycle()
      requires Shape(View(Writing(|local|)))
      modifies this
      ensures View(Top) == DoBackend(old(View(Writing(|local|))))
    {
      first := Some(local[0].value.(data := ""));
      if second.None? {
        if |local| >= 2 {
          second := Some(local[1].value.(data := ""));
        } else {
          second := Some(Buffer(next, ""));
          next := next + 1;
        }
      }
      local := [];
    }
  }

  // The thread's next n steps.
  ghost function Repeat(s: Log, n: nat): Log {
    if n == 0 then s else DoBackend(Repeat(s, n - 1))
  }
}
