// What the parser makes of a stream, said without the parser: the stream throws, is wrong, is a whole
// message, or is not over yet.
module HttpVerdicts {
  import opened Prelude
  import opened HttpText
  import opened HttpParsing
  import opened HttpRoundTrip
  import opened HttpThrows

  datatype Verdict = Throws | Wrong | Whole | Unfinished

  function VerdictOf(p: Parser): Verdict {
    if p.threw then Throws else if p.error then Wrong else if p.finish then Whole else Unfinished
  }

  // ---- the reference ----

  // A size line is wrong when it holds anything but hexadecimal digits, or a number whose low 32 bits
  // are all ones.
  predicate SizeWrong(line: string) { !AllHex(line) || HexValue(line) % 0x1_0000_0000 == 0xFFFF_FFFF }

  function ChunksVerdict(text: string): Verdict
    decreases |text|
  {
    var e := FindCRLF(text);
    if e.None? then Unfinished
    else
      var (line, rest) := (text[..e.value], text[e.value + 2..]);
      if SizeWrong(line) then Wrong
      else
        var n := AsSize(HexValue(line));
        var needs := (n + 2) % SIZE_MOD;
        if n == 0 then Whole
        else if needs <= |rest| then ChunksVerdict(rest[needs..])
        else Unfinished
  }

  predicate EndsHeaders(line: string) { line == "" || line[0] == '\r' }

  // The content-length after a header line: the last one given before chunked framing is announced.
  function LengthAfter(chunked: bool, length: nat, line: string): nat
    requires HeaderPasses(chunked, line)
  {
    if !chunked && Key(Title(line)) == "content-length" then SizeT(Stoi(ValueOf(line)).value) else length
  }

  // A header line after which no other is read, and what follows it.
  function LastVerdict(chunked: bool, length: nat, line: string, rest: string): Verdict {
    if HeaderBreaks(chunked, line) then Throws
    else if !EndsHeaders(line) then Wrong
    else if chunked then ChunksVerdict(rest)
    else if length <= |rest| then Whole
    else Unfinished
  }

  function HeadersVerdict(chunked: bool, length: nat, text: string): Verdict
    decreases |text|
  {
    var e := FindCRLF(text);
    if e.None? then Unfinished
    else
      var (line, rest) := (text[..e.value], text[e.value + 2..]);
      if HeaderPasses(chunked, line)
      then HeadersVerdict(chunked || SaysChunkedLine(line), LengthAfter(chunked, length, line), rest)
      else LastVerdict(chunked, length, line, rest)
  }

  function StreamVerdict(kind: Kind, text: string): Verdict {
    var e := FindCRLF(text);
    if e.None? then Unfinished
    else
      var (line, rest) := (text[..e.value], text[e.value + 2..]);
      if kind == Response && StatusBreaks(line) then Throws
      else if FirstPasses(kind, line) then HeadersVerdict(false, 0, rest)
      else Wrong
  }

  // ---- chunks ----

  lemma SizeLineIs(p: Parser, line: string)
    requires !p.Stopped()
    ensures var r := ChunkLine(p, line);
         if SizeWrong(line) then r.error && !r.threw && !r.finish
         else var n := AsSize(HexValue(line));
           if n == 0 then r.finish && !r.error && !r.threw
           else r == p.(chunkSize := n, chunkState := CHUNK_CONTENT)
  {
    if AllHex(line) {
      HexAccIsValue(line);
      AsSizeIs(HexValue(line));
    }
  }

  lemma OneLineTaken(c: Conn, line: string, rest: string)
    requires !c.p.Stopped() && ByLine(c.p) && FindCRLF(c.input) == Some(|line|)
    requires line == c.input[..|line|] && rest == c.input[|line| + 2..]
    ensures Drain(c) == Drain(Conn(OnLine(c.p, line), rest))
  {
    LineTaken(c);
  }

  // A chunk was announced.
  lemma ContentIs(p: Parser, rest: string)
    requires p.state == BODY && p.chunked && p.chunkState == CHUNK_CONTENT && p.chunkSize != 0 && !p.Stopped()
    ensures var n := (p.chunkSize + 2) % SIZE_MOD;
         if n <= |rest| then Drain(Conn(p, rest)) == Drain(Conn(ChunkContent(p, rest[..n]), rest[n..]))
         else Drain(Conn(p, rest)).p == p
  {
    var c := Conn(p, rest);
    if CanStep(c) {
      StepConsumes(c);
    }
  }

  predicate BetweenChunks(p: Parser) {
    p.state == BODY && p.chunked && p.chunkSize == 0 && p.chunkState == CHUNK_SIZE && !p.Stopped()
  }

  function SizeOfLine(line: string): nat { if AllHex(line) then AsSize(HexValue(line)) else 0 }

  // What the content announced by the line takes.
  function NeedOf(line: string): nat { (SizeOfLine(line) + 2) % SIZE_MOD }

  // The size line ends the body.
  lemma SizeEnds(p: Parser, line: string, rest: string)
    requires BetweenChunks(p) && (SizeWrong(line) || SizeOfLine(line) == 0)
    ensures VerdictOf(Drain(Conn(ChunkLine(p, line), rest)).p) == if SizeWrong(line) then Wrong else Whole
  {
    SizeLineIs(p, line);
    StoppedDrains(Conn(ChunkLine(p, line), rest));
  }

  // Its content is not there yet, or is taken in one piece.
  lemma SizeGoesOn(p: Parser, line: string, rest: string) returns (q: Parser)
    requires BetweenChunks(p) && !SizeWrong(line) && SizeOfLine(line) != 0
    ensures var d := Drain(Conn(ChunkLine(p, line), rest));
         if |rest| < NeedOf(line) then VerdictOf(d.p) == Unfinished
         else BetweenChunks(q) && d == Drain(Conn(q, rest[NeedOf(line)..]))
  {
    var r := ChunkLine(p, line);
    SizeLineIs(p, line);
    ContentIs(r, rest);
    q := if NeedOf(line) <= |rest| then ChunkContent(r, rest[..NeedOf(line)]) else p;
  }

  lemma ChunkStep(c: Conn, line: string, rest: string) returns (q: Conn)
    requires BetweenChunks(c.p) && FindCRLF(c.input) == Some(|line|)
    requires line == c.input[..|line|] && rest == c.input[|line| + 2..]
    ensures if SizeWrong(line) then VerdictOf(Drain(c).p) == Wrong
         else if SizeOfLine(line) == 0 then VerdictOf(Drain(c).p) == Whole
         else if |rest| < NeedOf(line) then VerdictOf(Drain(c).p) == Unfinished
         else BetweenChunks(q.p) && q.input == rest[NeedOf(line)..] && Drain(c) == Drain(q)
  {
    OneLineTaken(c, line, rest);
    q := c;
    if SizeWrong(line) || SizeOfLine(line) == 0 {
      SizeEnds(c.p, line, rest);
    } else {
      var p := SizeGoesOn(c.p, line, rest);
      q := if NeedOf(line) <= |rest| then Conn(p, rest[NeedOf(line)..]) else c;
    }
  }

  lemma {:induction false} ChunksVerdictIs(c: Conn)
    requires BetweenChunks(c.p)
    ensures VerdictOf(Drain(c).p) == ChunksVerdict(c.input)
    decreases |c.input|
  {
    if FindCRLF(c.input).None? {
      NoLineYet(c);
    } else {
      var e := FindCRLF(c.input).value;
      var line, rest := c.input[..e], c.input[e + 2..];
      var q := ChunkStep(c, line, rest);
      if !SizeWrong(line) && SizeOfLine(line) != 0 && NeedOf(line) <= |rest| {
        ChunksVerdictIs(q);
      }
    }
  }

  // ---- headers ----

  lemma HeaderLineIs(p: Parser, line: string)
    requires !p.Stopped() && p.state == HEADER
    ensures var r := HeaderLine(p, line);
         && (!HeaderBreaks(p.chunked, line) && !HeaderPasses(p.chunked, line) && !EndsHeaders(line) ==> r.error)
         && (HeaderPasses(p.chunked, line) ==> r.contentLen == LengthAfter(p.chunked, p.contentLen, line))
         && (EndsHeaders(line) ==> r == p.(state := BODY))
         && r.chunkSize == p.chunkSize && r.chunkState == p.chunkState && !r.finish
  {
    if HeaderPasses(p.chunked, line) {
      LengthIs(p, Title(line), ValueOf(line));
    }
  }

  lemma LengthIs(p: Parser, title: string, value: string)
    requires p.chunked || Key(title) != "content-length" || Stoi(value).Some?
    ensures Header(p, title, value).contentLen
         == if !p.chunked && Key(title) == "content-length" then SizeT(Stoi(value).value) else p.contentLen
  {
    assert Key(title) == "content-length" ==> |Key(title)| == 14;
    assert |"transfer-encoding"| == 17;
  }

  lemma FixedBodyIs(p: Parser, rest: string)
    requires p.state == BODY && !p.chunked && !p.Stopped()
    ensures VerdictOf(Drain(Conn(p, rest)).p) == if p.contentLen <= |rest| then Whole else Unfinished
  {
    var c := Conn(p, rest);
    if CanStep(c) {
      StepConsumes(c);
      StoppedDrains(Step(c));
    }
  }

  predicate AtHeader(p: Parser) {
    p.state == HEADER && !p.Stopped() && p.chunkSize == 0 && p.chunkState == CHUNK_SIZE
  }

  lemma LastHeader(p: Parser, line: string, rest: string)
    requires AtHeader(p) && !HeaderPasses(p.chunked, line)
    ensures VerdictOf(Drain(Conn(HeaderLine(p, line), rest)).p) == LastVerdict(p.chunked, p.contentLen, line, rest)
  {
    var r := HeaderLine(p, line);
    HeaderLineThrows(p, line);
    HeaderLineIs(p, line);
    if r.Stopped() {
      StoppedDrains(Conn(r, rest));
    } else if p.chunked {
      ChunksVerdictIs(Conn(r, rest));
    } else {
      FixedBodyIs(r, rest);
    }
  }

  lemma NextHeader(p: Parser, line: string)
    requires AtHeader(p) && HeaderPasses(p.chunked, line)
    ensures var r := HeaderLine(p, line);
         AtHeader(r) && r.chunked == (p.chunked || SaysChunkedLine(line))
         && r.contentLen == LengthAfter(p.chunked, p.contentLen, line)
  {
    HeaderLineThrows(p, line);
    HeaderLineIs(p, line);
  }

  lemma NoLineYet(c: Conn)
    requires !c.p.Stopped() && ByLine(c.p) && FindCRLF(c.input).None?
    ensures VerdictOf(Drain(c).p) == Unfinished
  {
  }

  lemma HeaderStep(c: Conn, line: string, rest: string)
    requires AtHeader(c.p) && FindCRLF(c.input) == Some(|line|)
    requires line == c.input[..|line|] && rest == c.input[|line| + 2..]
    ensures VerdictOf(Drain(c).p)
         == if HeaderPasses(c.p.chunked, line) then VerdictOf(Drain(Conn(HeaderLine(c.p, line), rest)).p)
            else LastVerdict(c.p.chunked, c.p.contentLen, line, rest)
  {
    HeaderTaken(c, line, rest);
    if !HeaderPasses(c.p.chunked, line) {
      LastHeader(c.p, line, rest);
    }
  }

  lemma HeadersVerdictCons(chunked: bool, length: nat, text: string)
    requires FindCRLF(text).Some?
    ensures var e := FindCRLF(text).value;
            var (line, rest) := (text[..e], text[e + 2..]);
         HeadersVerdict(chunked, length, text)
         == if HeaderPasses(chunked, line)
            then HeadersVerdict(chunked || SaysChunkedLine(line), LengthAfter(chunked, length, line), rest)
            else LastVerdict(chunked, length, line, rest)
  {
  }

  lemma {:induction false} HeadersVerdictIs(c: Conn, chunked: bool, length: nat)
    requires AtHeader(c.p) && c.p.chunked == chunked && c.p.contentLen == length
    ensures VerdictOf(Drain(c).p) == HeadersVerdict(chunked, length, c.input)
    decreases |c.input|
  {
    if FindCRLF(c.input).None? {
      NoLineYet(c);
    } else {
      var e := FindCRLF(c.input).value;
      var line, rest := c.input[..e], c.input[e + 2..];
      HeaderStep(c, line, rest);
      HeadersVerdictCons(chunked, length, c.input);
      if HeaderPasses(chunked, line) {
        NextHeader(c.p, line);
        HeadersVerdictIs(Conn(HeaderLine(c.p, line), rest), chunked || SaysChunkedLine(line),
                         LengthAfter(chunked, length, line));
      }
    }
  }

  // ---- the stream ----

  lemma FirstLineIs(kind: Kind, line: string, rest: string)
    ensures VerdictOf(Drain(Conn(FirstLine(Start(kind).p, line), rest)).p)
         == if kind == Response && StatusBreaks(line) then Throws
            else if FirstPasses(kind, line) then HeadersVerdict(false, 0, rest)
            else Wrong
  {
    var p := Start(kind).p;
    var r := FirstLine(p, line);
    if kind == Request {
      RequestLineThrows(p, line);
    } else {
      StatusLineThrows(p, line);
    }
    FirstLineKeeps(p, line);
    if r.Stopped() {
      StoppedDrains(Conn(r, rest));
    } else {
      HeadersVerdictIs(Conn(r, rest), false, 0);
    }
  }

  predicate SameBody(p: Parser, r: Parser) {
    r.chunkSize == p.chunkSize && r.chunkState == p.chunkState && r.contentLen == p.contentLen
  }

  lemma RequestKeeps(p: Parser, line: string)
    ensures SameBody(p, RequestLine(p, line))
  {
    var a := Find(line, ' ');
    if a < |line| {
      VerbKeeps(p, StringToHttpMethod(line[..a]), line[a + 1..]);
      assert RequestLine(p, line) == FromVerb(p, line, a);
    }
  }

  lemma VerbKeeps(p: Parser, verb: Method, rest: string)
    ensures SameBody(p, TargetAndVersion(WithVerb(p, verb), rest))
  {
    TargetKeeps(WithVerb(p, verb), rest);
  }

  lemma TargetKeeps(p: Parser, rest: string)
    ensures SameBody(p, TargetAndVersion(p, rest))
  {
  }

  lemma StatusKeeps(p: Parser, line: string)
    ensures SameBody(p, StatusLine(p, line))
  {
  }

  lemma FirstLineKeeps(p: Parser, line: string)
    ensures SameBody(p, FirstLine(p, line))
  {
    if p.kind == Request {
      RequestKeeps(p, line);
    } else {
      StatusKeeps(p, line);
    }
  }

  lemma FirstTaken(kind: Kind, text: string)
    requires FindCRLF(text).Some?
    ensures VerdictOf(Drain(Conn(Start(kind).p, text)).p) == StreamVerdict(kind, text)
  {
    var e := FindCRLF(text).value;
    OneLineTaken(Conn(Start(kind).p, text), text[..e], text[e + 2..]);
    FirstLineIs(kind, text[..e], text[e + 2..]);
  }

  // Over any splitting into reads, the parser comes to the verdict of the reference: it says error for
  // exactly the wrong streams, throws for exactly those that throw, and finishes exactly the whole ones.
  lemma VerdictIs(kind: Kind, parts: seq<string>)
    ensures VerdictOf(Feed(Start(kind), parts).p) == StreamVerdict(kind, Concat(parts))
  {
    Fragmentation(kind, parts);
    var text := Concat(parts);
    var c := Conn(Start(kind).p, text);
    assert "" + text == text;
    if FindCRLF(text).None? {
      NoLineYet(c);
    } else {
      FirstTaken(kind, text);
    }
  }
}
