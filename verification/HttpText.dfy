// Text functions the HTTP code is built on. A byte is a char.
module HttpText {
  import opened Prelude

  // std::find over a range: the first position of c, or the end.
  function Find(s: string, c: char): (i: nat)
    ensures i <= |s|
    ensures i < |s| ==> s[i] == c
    ensures forall j | 0 <= j < i :: s[j] != c
  {
    if s == "" || s[0] == c then 0 else 1 + Find(s[1..], c)
  }

  lemma FindIs(s: string, c: char, i: nat)
    requires i <= |s| && (i < |s| ==> s[i] == c) && forall j | 0 <= j < i :: s[j] != c
    ensures Find(s, c) == i
  {
  }

  const CRLF := "\r\n"

  predicate CrlfAt(s: string, i: int) {
    0 <= i < |s| - 1 && s[i] == '\r' && s[i + 1] == '\n'
  }

  // ByteArray::findCRLF, reyao/bytearray.cc:294-299
  function FindCRLF(s: string): (r: Option<nat>)
    ensures r.Some? ==> CrlfAt(s, r.value) && forall j | 0 <= j < r.value :: !CrlfAt(s, j)
    ensures r.None? ==> forall j :: !CrlfAt(s, j)
  {
    if |s| < 2 then None
    else if s[0] == '\r' && s[1] == '\n' then Some(0)
    else
      var r := FindCRLF(s[1..]);
      assert forall j | j > 0 :: CrlfAt(s, j) <==> CrlfAt(s[1..], j - 1);
      if r.Some? then Some(r.value + 1) else None
  }

  // More input never moves the first line end.
  lemma FindCRLFStable(s: string, t: string)
    requires FindCRLF(s).Some?
    ensures FindCRLF(s + t) == FindCRLF(s)
  {
    var i := FindCRLF(s).value;
    assert CrlfAt(s + t, i);
    assert forall j | 0 <= j < i :: CrlfAt(s + t, j) <==> CrlfAt(s, j);
  }

  ghost predicate NoCRLF(s: string) { forall j :: !CrlfAt(s, j) }

  lemma FindCRLFAfter(line: string, rest: string)
    requires NoCRLF(line)
    ensures FindCRLF(line + CRLF + rest) == Some(|line|)
  {
    var s := line + CRLF + rest;
    assert CrlfAt(s, |line|);
    forall j | 0 <= j < |line| ensures !CrlfAt(s, j) {
      if j + 1 < |line| {
        assert CrlfAt(s, j) <==> CrlfAt(line, j);
      }
    }
  }

  // What a C string function sees: everything before the first NUL.
  function CStr(s: string): (r: string)
    ensures r <= s && '\0' !in r && (r != s ==> s[|r|] == '\0')
  {
    s[..Find(s, '\0')]
  }

  function LowerChar(c: char): char {
    if 'A' <= c <= 'Z' then c + 32 as char else c
  }

  function Lower(s: string): (r: string)
    ensures |r| == |s| && forall i | 0 <= i < |s| :: r[i] == LowerChar(s[i])
  {
    seq(|s|, i requires 0 <= i < |s| => LowerChar(s[i]))
  }

  // strcasecmp tells two strings apart exactly when their keys differ.
  function Key(s: string): string { Lower(CStr(s)) }

  predicate IsSpace(c: char) {
    c == ' ' || c == '\t' || c == '\n' || c == '\r' || c == 11 as char || c == 12 as char
  }

  predicate IsDigit(c: char) { '0' <= c <= '9' }

  function SkipSpace(s: string): string {
    if s != "" && IsSpace(s[0]) then SkipSpace(s[1..]) else s
  }

  function Digits(s: string): (n: nat)
    ensures n <= |s| && forall i | 0 <= i < n :: IsDigit(s[i])
    ensures n < |s| ==> !IsDigit(s[n])
  {
    if s != "" && IsDigit(s[0]) then 1 + Digits(s[1..]) else 0
  }

  function DecValue(s: string): nat
    requires forall i | 0 <= i < |s| :: IsDigit(s[i])
  {
    if s == "" then 0
    else
      assert IsDigit(s[|s| - 1]);
      DecValue(s[..|s| - 1]) * 10 + (s[|s| - 1] as int - '0' as int)
  }

  // std::stoi; None when it throws (no digits, or out of the range of int).
  function Stoi(s: string): Option<int> {
    var t := SkipSpace(s);
    var negative := t != "" && t[0] == '-';
    var u := if t != "" && (t[0] == '-' || t[0] == '+') then t[1..] else t;
    var n := Digits(u);
    var d: int := DecValue(u[..n]);
    var v := if negative then -d else d;
    if n == 0 || v < -0x8000_0000 || 0x8000_0000 <= v then None else Some(v)
  }

  // Printing a size through an ostream.
  function Dec(n: nat): (s: string)
    ensures |s| > 0 && forall i | 0 <= i < |s| :: IsDigit(s[i])
  {
    var d := ['0' + (n % 10) as char];
    if n < 10 then d else Dec(n / 10) + d
  }

  lemma {:induction false} DecValueOfDec(n: nat)
    ensures DecValue(Dec(n)) == n
  {
    var s := Dec(n);
    if n >= 10 {
      DecValueOfDec(n / 10);
      assert s[..|s| - 1] == Dec(n / 10);
    } else {
      assert s[..|s| - 1] == "";
    }
  }

  lemma {:induction false} DigitsOfAll(s: string)
    requires forall i | 0 <= i < |s| :: IsDigit(s[i])
    ensures Digits(s) == |s|
  {
    if s != "" {
      DigitsOfAll(s[1..]);
    }
  }

  // Decimal round trip: what is printed is read back, exactly for the sizes an int can hold.
  lemma StoiOfDec(n: nat)
    ensures Stoi(Dec(n)) == if n < 0x8000_0000 then Some(n) else None
  {
    var s := Dec(n);
    assert IsDigit(s[0]);
    assert SkipSpace(s) == s;
    DigitsOfAll(s);
    assert s[..|s|] == s;
    DecValueOfDec(n);
  }

  predicate AllDigits(s: string) { forall i | 0 <= i < |s| :: IsDigit(s[i]) }

  lemma {:induction false} SkipsSpace(space: string, rest: string)
    requires (forall i | 0 <= i < |space| :: IsSpace(space[i])) && (rest == "" || !IsSpace(rest[0]))
    ensures SkipSpace(space + rest) == rest
  {
    if space == "" {
      assert space + rest == rest;
    } else {
      assert (space + rest)[1..] == space[1..] + rest;
      SkipsSpace(space[1..], rest);
    }
  }

  lemma {:induction false} DigitsThen(ds: string, rest: string)
    requires AllDigits(ds) && (rest == "" || !IsDigit(rest[0]))
    ensures Digits(ds + rest) == |ds|
  {
    if ds == "" {
      assert ds + rest == rest;
    } else {
      assert (ds + rest)[1..] == ds[1..] + rest;
      DigitsThen(ds[1..], rest);
    }
  }

  lemma UnsignedReads(ds: string, rest: string)
    requires AllDigits(ds) && (rest == "" || !IsDigit(rest[0]))
    ensures var u := ds + rest; Digits(u) == |ds| && u[..Digits(u)] == ds
  {
    DigitsThen(ds, rest);
  }

  lemma SignedReads(sign: string, ds: string, rest: string)
    requires sign == "" || sign == "+" || sign == "-"
    requires AllDigits(ds) && (rest == "" || !IsDigit(rest[0]))
    requires sign == "" && ds == "" ==> rest == "" || (!IsSpace(rest[0]) && rest[0] != '+' && rest[0] != '-')
    ensures var t := sign + (ds + rest);
      && (t == "" || !IsSpace(t[0]))
      && (t != "" && t[0] == '-' <==> sign == "-")
      && (if t != "" && (t[0] == '-' || t[0] == '+') then t[1..] else t) == ds + rest
  {
    var t, u := sign + (ds + rest), ds + rest;
    assert sign == "" ==> t == u;
    assert sign != "" ==> t[0] == sign[0] && t[1..] == u;
    assert ds != "" ==> u[0] == ds[0] && IsDigit(ds[0]);
    assert ds == "" ==> u == rest;
  }

  // std::stoi on any text, taken apart: blanks, a sign or none, digits, and whatever follows them. It
  // throws exactly when there is no digit or the number is out of the range of int.
  lemma StoiReads(space: string, sign: string, ds: string, rest: string)
    requires forall i | 0 <= i < |space| :: IsSpace(space[i])
    requires sign == "" || sign == "+" || sign == "-"
    requires AllDigits(ds) && (rest == "" || !IsDigit(rest[0]))
    requires sign == "" && ds == "" ==> rest == "" || (!IsSpace(rest[0]) && rest[0] != '+' && rest[0] != '-')
    ensures var n: int := DecValue(ds);
            var v := if sign == "-" then -n else n;
         Stoi(space + (sign + (ds + rest)))
         == if ds != "" && -0x8000_0000 <= v < 0x8000_0000 then Some(v) else None
  {
    SignedReads(sign, ds, rest);
    SkipsSpace(space, sign + (ds + rest));
    UnsignedReads(ds, rest);
  }

  // size_t
  const SIZE_MOD := 0x1_0000_0000_0000_0000

  function SizeT(x: int): nat { x % SIZE_MOD }

  function UpperChar(c: char): char {
    if 'a' <= c <= 'z' then c - 32 as char else c
  }

  predicate IsHex(c: char) { IsDigit(c) || 'A' <= UpperChar(c) <= 'F' }

  function HexDigit(c: char): nat
    requires IsHex(c)
  {
    if IsDigit(c) then c as int - '0' as int else UpperChar(c) as int - 'A' as int + 10
  }

  predicate AllHex(s: string) { forall i | 0 <= i < |s| :: IsHex(s[i]) }

  // The number a chunk-size line stands for (section 4.1 of RFC 7230).
  function HexValue(s: string): nat
    requires AllHex(s)
  {
    if s == "" then 0 else HexValue(s[..|s| - 1]) * 16 + HexDigit(s[|s| - 1])
  }

  // The loop of reyao/util.cc:16-30: a size_t accumulator, returned as int; -1 for a wrong digit.
  function HexToDec(s: string): int {
    if AllHex(s) then ToInt32(HexAcc(s)) else -1
  }

  function HexAcc(s: string): nat
    requires AllHex(s)
  {
    if s == "" then 0 else SizeT(HexAcc(s[..|s| - 1]) * 16 + HexDigit(s[|s| - 1]))
  }

  lemma {:induction false} HexAccIsValue(s: string)
    requires AllHex(s)
    ensures HexAcc(s) == SizeT(HexValue(s))
  {
    if s != "" {
      var t, d := s[..|s| - 1], HexDigit(s[|s| - 1]);
      HexAccIsValue(t);
      ModMulAdd(HexValue(t), d);
    }
  }

  lemma ModMulAdd(x: nat, d: nat)
    ensures SizeT(SizeT(x) * 16 + d) == SizeT(x * 16 + d)
  {
    var q := x / SIZE_MOD;
    assert x == q * SIZE_MOD + SizeT(x);
    assert x * 16 + d == (SizeT(x) * 16 + d) + (16 * q) * SIZE_MOD;
    ModAddMultiple(SizeT(x) * 16 + d, 16 * q);
  }

  lemma {:induction false} ModAddMultiple(a: nat, k: nat)
    ensures SizeT(a + k * SIZE_MOD) == SizeT(a)
  {
    if k > 0 {
      ModAddMultiple(a, k - 1);
      assert a + k * SIZE_MOD == (a + (k - 1) * SIZE_MOD) + SIZE_MOD;
    }
  }

  // The size a line announces: its number as `int` reads it, widened to size_t again.
  function AsSize(n: nat): nat {
    var low := n % 0x1_0000_0000;
    if low < 0x8000_0000 then low else SIZE_MOD - 0x1_0000_0000 + low
  }

  lemma AsSizeIs(n: nat)
    ensures SizeT(ToInt32(SizeT(n))) == AsSize(n)
    ensures ToInt32(SizeT(n)) == ToInt32(n) && (ToInt32(n) == -1 <==> n % 0x1_0000_0000 == 0xFFFF_FFFF)
  {
    var q := n / SIZE_MOD;
    assert n == q * SIZE_MOD + SizeT(n);
    LowSame(SizeT(n), q);
    var low := n % 0x1_0000_0000;
    if low >= 0x8000_0000 {
      WideNegative(low - 0x1_0000_0000);
    }
  }

  lemma {:induction false} LowSame(a: nat, q: nat)
    ensures (q * SIZE_MOD + a) % 0x1_0000_0000 == a % 0x1_0000_0000
  {
    if q > 0 {
      LowSame(a, q - 1);
      assert q * SIZE_MOD + a == ((q - 1) * SIZE_MOD + a) + 0x1_0000_0000 * 0x1_0000_0000;
    }
  }

  lemma WideNegative(x: int)
    requires -0x8000_0000 <= x < 0
    ensures SizeT(x) == x + SIZE_MOD
  {
    assert x == (-1) * SIZE_MOD + (x + SIZE_MOD);
  }

  // What `int` and back to size_t makes of a size.
  lemma NarrowWiden(v: nat)
    requires v < SIZE_MOD
    ensures SizeT(ToInt32(v)) == v <==> v < 0x8000_0000 || SIZE_MOD - 0x8000_0000 <= v
  {
    var q, low := v / 0x1_0000_0000, v % 0x1_0000_0000;
    assert v == q * 0x1_0000_0000 + low;
    if low < 0x8000_0000 {
      assert SizeT(low) == low;
    } else {
      var n := low - 0x1_0000_0000;
      assert n + SIZE_MOD == n % SIZE_MOD by {
        assert n == (-1) * SIZE_MOD + (n + SIZE_MOD);
      }
    }
  }

  // A chunk size survives the trip through int and back to size_t exactly when it is below 2^31, or
  // so close to 2^64 that the sign extension restores it.
  lemma ChunkSizeSurvives(s: string)
    requires AllHex(s) && HexValue(s) < SIZE_MOD
    ensures SizeT(HexToDec(s)) == HexValue(s)
       <==> HexValue(s) < 0x8000_0000 || SIZE_MOD - 0x8000_0000 <= HexValue(s)
  {
    HexAccIsValue(s);
    NarrowWiden(HexValue(s));
  }
}
