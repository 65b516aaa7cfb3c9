// Typed values on a byte queue: what the typed writes put in front, the typed reads take out.
module TypedQueues {
  import opened Prelude
  import opened Wire

  // An integer of `width` bytes, or a string behind its length in `width` bytes.
  datatype Item =
    | IntItem(v: int, width: nat, signed: bool)
    | StrItem(s: seq<byte>, width: nat)

  datatype Shape = IntShape(width: nat, signed: bool) | StrShape(width: nat)

  function ShapeOf(it: Item): Shape {
    match it
    case IntItem(_, w, signed) => IntShape(w, signed)
    case StrItem(_, w) => StrShape(w)
  }

  predicate Fits(it: Item) {
    match it
    case IntItem(v, w, signed) => InRange(v, w, signed)
    case StrItem(s, w) => |s| < Pow256(w)
  }

  // The length of a string is cut to its prefix, its content is not.
  function ItemBytes(e: Endian, it: Item): seq<byte> {
    match it
    case IntItem(v, w, _) => IntBytes(e, v, w)
    case StrItem(s, w) => IntBytes(e, |s|, w) + s
  }

  // Short is the out_of_range exception; `rest` is what stays readable either way.
  datatype Outcome = Got(item: Item, rest: seq<byte>) | Short(rest: seq<byte>)

  function ReadItem(e: Endian, sh: Shape, q: seq<byte>): Outcome {
    if |q| < sh.width then Short(q)
    else
      var (head, tail) := (q[..sh.width], q[sh.width..]);
      match sh
      case IntShape(w, signed) => Got(IntItem(IntOf(e, head, signed), w, signed), tail)
      case StrShape(w) =>
        var n := Loaded(e, head);
        if |tail| < n then Short(tail) else Got(StrItem(tail[..n], w), tail[n..])
  }

  // One value comes back, and takes nothing else along, exactly when its format can express it.
  lemma ItemRoundTrip(e: Endian, it: Item, rest: seq<byte>)
    ensures ReadItem(e, ShapeOf(it), ItemBytes(e, it) + rest) == Got(it, rest) <==> Fits(it)
  {
    match it
    case IntItem(v, w, signed) =>
      Split(IntBytes(e, v, w), rest);
      IntRoundTrip(e, v, w, signed);
    case StrItem(s, w) =>
      StringRoundTrip(e, s, w, rest);
  }

  lemma StringRoundTrip(e: Endian, s: seq<byte>, w: nat, rest: seq<byte>)
    ensures ReadItem(e, StrShape(w), ItemBytes(e, StrItem(s, w)) + rest) == Got(StrItem(s, w), rest)
       <==> |s| < Pow256(w)
  {
    var head := IntBytes(e, |s|, w);
    Assoc(head, s, rest);
    Split(head, s + rest);
    Split(s, rest);
    LengthCut(e, |s|, w);
  }

  lemma LengthCut(e: Endian, n: nat, w: nat)
    ensures var r := Loaded(e, IntBytes(e, n, w));
         if n < Pow256(w) then r == n else r < n
  {
    StoredLoaded(e, Unsigned(n, w), w);
    ModIs(n, Pow256(w));
  }

  // ---- interleaved writes and reads ----

  datatype Op = Put(item: Item) | Get(shape: Shape)

  datatype Log = Log(q: seq<byte>, written: seq<Item>, read: seq<Item>)

  // A read asks for the kind of value that is next in line.
  predicate Can(s: Log, op: Op) {
    match op
    case Put(it) => Fits(it)
    case Get(sh) => |s.read| < |s.written| && sh == ShapeOf(s.written[|s.read|])
  }

  function Do(e: Endian, s: Log, op: Op): Log {
    match op
    case Put(it) => s.(q := s.q + ItemBytes(e, it), written := s.written + [it])
    case Get(sh) =>
      match ReadItem(e, sh, s.q)
      case Got(it, rest) => s.(q := rest, read := s.read + [it])
      case Short(rest) => s.(q := rest)
  }

  function Run(e: Endian, ops: seq<Op>): Log {
    if ops == [] then Log([], [], []) else Do(e, Run(e, ops[..|ops| - 1]), ops[|ops| - 1])
  }

  predicate Legal(e: Endian, ops: seq<Op>) {
    ops == [] || (Legal(e, ops[..|ops| - 1]) && Can(Run(e, ops[..|ops| - 1]), ops[|ops| - 1]))
  }

  function AllBytes(e: Endian, items: seq<Item>): seq<byte> {
    if items == [] then [] else ItemBytes(e, items[0]) + AllBytes(e, items[1..])
  }

  lemma {:induction false} AllBytesAppend(e: Endian, items: seq<Item>, it: Item)
    ensures AllBytes(e, items + [it]) == AllBytes(e, items) + ItemBytes(e, it)
  {
    if items == [] {
      assert [it][1..] == [];
    } else {
      assert (items + [it])[1..] == items[1..] + [it];
      AllBytesAppend(e, items[1..], it);
      Assoc(ItemBytes(e, items[0]), AllBytes(e, items[1..]), ItemBytes(e, it));
    }
  }

  ghost predicate InOrder(e: Endian, s: Log) {
    && |s.read| <= |s.written| && s.read == s.written[..|s.read|]
    && s.q == AllBytes(e, s.written[|s.read|..])
    && forall i | 0 <= i < |s.written| :: Fits(s.written[i])
  }

  lemma DoInOrder(e: Endian, s: Log, op: Op)
    requires InOrder(e, s) && Can(s, op)
    ensures InOrder(e, Do(e, s, op))
  {
    match op
    case Put(it) => PutInOrder(e, s, it);
    case Get(sh) => GetInOrder(e, s, sh);
  }

  lemma PutInOrder(e: Endian, s: Log, it: Item)
    requires InOrder(e, s) && Fits(it)
    ensures InOrder(e, Do(e, s, Put(it)))
  {
    var k, r := |s.read|, Do(e, s, Put(it));
    AllBytesAppend(e, s.written[k..], it);
    assert r.written[k..] == s.written[k..] + [it];
    assert r.written[..k] == s.written[..k];
  }

  lemma GetInOrder(e: Endian, s: Log, sh: Shape)
    requires InOrder(e, s) && Can(s, Get(sh))
    ensures InOrder(e, Do(e, s, Get(sh)))
  {
    var k := |s.read|;
    var it, tail := s.written[k], s.written[k + 1..];
    NextItem(e, s.written, k);
    ItemRoundTrip(e, it, AllBytes(e, tail));
    assert Do(e, s, Get(sh)) == s.(q := AllBytes(e, tail), read := s.read + [it]);
  }

  lemma NextItem(e: Endian, items: seq<Item>, k: nat)
    requires k < |items|
    ensures AllBytes(e, items[k..]) == ItemBytes(e, items[k]) + AllBytes(e, items[k + 1..])
    ensures items[..k] + [items[k]] == items[..k + 1]
  {
    assert items[k..][1..] == items[k + 1..];
  }

  // However reads are interleaved with writes, the values come back as written, in order, and the
  // queue holds exactly the bytes of those not read yet.
  lemma {:induction false} TypedFifo(e: Endian, ops: seq<Op>)
    requires Legal(e, ops)
    ensures InOrder(e, Run(e, ops))
  {
    if ops != [] {
      TypedFifo(e, ops[..|ops| - 1]);
      DoInOrder(e, Run(e, ops[..|ops| - 1]), ops[|ops| - 1]);
    }
  }
}
