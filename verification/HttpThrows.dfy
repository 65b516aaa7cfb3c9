// When an exception leaves the parser: std::stoi without a number, and a string of negative length for
// a header line that ends at its colon (reyao/http/http_parser.cc:120-133, 282).
module HttpThrows {
  import opened Prelude
  import opened HttpText
  import opened HttpParsing
  import opened HttpRoundTrip

  // The complete lines of a stream.
  function LinesOf(text: string): seq<string>
    decreases |text|
  {
    var e := FindCRLF(text);
    if e.None? then [] else [text[..e.value]] + LinesOf(text[e.value + 2..])
  }

  predicate HasColon(line: string) { line != "" && line[0] != '\r' && Find(line, ':') < |line| }

  function Title(line: string): string { line[..Find(line, ':')] }

  function ValueOf(line: string): string
    requires HasColon(line) && Find(line, ':') + 2 <= |line|
  {
    line[Find(line, ':') + 2..]
  }

  predicate SaysChunkedLine(line: string) {
    && HasColon(line) && Find(line, ':') + 2 < |line|
    && Key(Title(line)) == "transfer-encoding" && Key(ValueOf(line)) == "chunked"
  }

  // A header line that throws: nothing follows its colon, or it gives a length that is no number while
  // no chunked framing was announced.
  predicate HeaderBreaks(chunked: bool, line: string) {
    && HasColon(line)
    && (Find(line, ':') + 1 == |line|
        || (Find(line, ':') + 2 < |line| && !chunked
            && Key(Title(line)) == "content-length" && Stoi(ValueOf(line)).None?))
  }

  // A header line after which the parser expects another.
  predicate HeaderPasses(chunked: bool, line: string) {
    HasColon(line) && Find(line, ':') + 2 < |line| && !HeaderBreaks(chunked, line)
  }

  predicate GoodVersion(s: string) { s == "HTTP/1.0" || s == "HTTP/1.1" }

  predicate KnownStatus(n: int) { n == 200 || n == 301 || n == 400 || n == 401 || n == 404 || n == 500 }

  predicate StatusFramed(line: string) {
    var a := Find(line, ' ');
    a < |line| && GoodVersion(line[..a]) && Find(line[a + 1..], ' ') < |line| - a - 1
  }

  function CodeOf(line: string): Option<int>
    requires StatusFramed(line)
  {
    var rest := line[Find(line, ' ') + 1..];
    Stoi(rest[..Find(rest, ' ')])
  }

  // A status line that throws: its code is no number.
  predicate StatusBreaks(line: string) { StatusFramed(line) && CodeOf(line).None? }

  predicate TargetPasses(rest: string) {
    var b := Find(rest, ' ');
    b < |rest| && GoodVersion(rest[b + 1..]) && '/' in rest[..b]
  }

  predicate RequestPasses(line: string) {
    var a := Find(line, ' ');
    a < |line| && TargetPasses(line[a + 1..])
  }

  predicate StatusPasses(line: string) { StatusFramed(line) && CodeOf(line).Some? && KnownStatus(CodeOf(line).value) }

  predicate FirstPasses(kind: Kind, line: string) { if kind == Request then RequestPasses(line) else StatusPasses(line) }

  // Among the header lines, the first that does not pass throws.
  predicate HeadersThrow(chunked: bool, lines: seq<string>)
    decreases lines
  {
    lines != []
    && (HeaderBreaks(chunked, lines[0])
        || (HeaderPasses(chunked, lines[0]) && HeadersThrow(chunked || SaysChunkedLine(lines[0]), lines[1..])))
  }

  predicate LinesThrow(kind: Kind, lines: seq<string>) {
    lines != []
    && ((kind == Response && StatusBreaks(lines[0])) || (FirstPasses(kind, lines[0]) && HeadersThrow(false, lines[1..])))
  }

  // ---- one line ----

  lemma HeaderLineThrows(p: Parser, line: string)
    requires !p.Stopped() && p.state == HEADER
    ensures var r := HeaderLine(p, line);
         && (r.threw <==> HeaderBreaks(p.chunked, line))
         && (!r.Stopped() && r.state == HEADER <==> HeaderPasses(p.chunked, line))
         && (HeaderPasses(p.chunked, line) ==> r.chunked == (p.chunked || SaysChunkedLine(line)))
         && (r.Stopped() || r.state != FIRST_LINE)
  {
    if HasColon(line) && Find(line, ':') + 2 < |line| {
      HeaderThrows(p, Title(line), ValueOf(line));
    }
  }

  lemma HeaderThrows(p: Parser, title: string, value: string)
    requires !p.Stopped() && p.state == HEADER
    ensures var r := Header(p, title, value);
         && (r.threw <==> !p.chunked && Key(title) == "content-length" && Stoi(value).None?)
         && !r.error && !r.finish && r.state == HEADER
         && (!r.threw ==> r.chunked == (p.chunked || (Key(title) == "transfer-encoding" && Key(value) == "chunked")))
  {
    assert Key(title) == "content-length" ==> |Key(title)| == 14;
    assert |"transfer-encoding"| == 17;
  }

  lemma SlashFound(s: string)
    ensures Find(s, '/') == |s| <==> '/' !in s
  {
  }

  lemma TargetThrows(p: Parser, rest: string)
    requires !p.Stopped() && p.state == FIRST_LINE
    ensures var r := TargetAndVersion(p, rest);
         && !r.threw && r.chunked == p.chunked && !r.finish
         && (!r.error <==> TargetPasses(rest))
         && (!r.error ==> r.state == HEADER)
  {
    SlashFound(rest[..Find(rest, ' ')]);
  }

  // What a first line does to the parser, as far as exceptions go.
  predicate FirstOutcome(p: Parser, r: Parser, passes: bool) {
    && !r.threw && r.chunked == p.chunked && !r.finish
    && (!r.error <==> passes)
    && (!r.error ==> r.state == HEADER)
  }

  lemma FromVerbThrows(p: Parser, line: string, space: nat)
    requires !p.Stopped() && p.state == FIRST_LINE && space < |line|
    ensures FirstOutcome(p, FromVerb(p, line, space), TargetPasses(line[space + 1..]))
  {
    var verb := StringToHttpMethod(line[..space]);
    VerbThrows(p, verb, line[space + 1..]);
  }

  lemma VerbThrows(p: Parser, verb: Method, rest: string)
    requires !p.Stopped() && p.state == FIRST_LINE
    ensures FirstOutcome(p, TargetAndVersion(WithVerb(p, verb), rest), TargetPasses(rest))
  {
    TargetThrows(WithVerb(p, verb), rest);
  }

  lemma RequestLineThrows(p: Parser, line: string)
    requires !p.Stopped() && p.state == FIRST_LINE
    ensures FirstOutcome(p, RequestLine(p, line), RequestPasses(line))
  {
    var a := Find(line, ' ');
    if a < |line| {
      FromVerbThrows(p, line, a);
      assert RequestLine(p, line) == FromVerb(p, line, a);
    }
  }

  lemma StatusLineThrows(p: Parser, line: string)
    requires !p.Stopped() && p.state == FIRST_LINE
    ensures var r := StatusLine(p, line);
         && (r.threw <==> StatusBreaks(line)) && r.chunked == p.chunked && !r.finish
         && (!r.threw && !r.error <==> StatusPasses(line))
         && (!r.threw && !r.error ==> r.state == HEADER)
  {
  }

  // ---- the stream ----

  lemma {:induction false} BodyNeverThrows(c: Conn)
    requires c.p.state == BODY && !c.p.threw
    ensures !Drain(c).p.threw
    decreases Work(c)
  {
    if CanStep(c) {
      StepConsumes(c);
      BodyNeverThrows(Step(c));
    }
  }

  lemma StoppedDrains(c: Conn)
    requires c.p.Stopped()
    ensures Drain(c) == c
  {
  }

  // Reading one line of the stream.
  lemma LineTaken(c: Conn)
    requires !c.p.Stopped() && ByLine(c.p) && FindCRLF(c.input).Some?
    ensures var e := FindCRLF(c.input).value;
         && Drain(c) == Drain(Conn(OnLine(c.p, c.input[..e]), c.input[e + 2..]))
         && LinesOf(c.input) == [c.input[..e]] + LinesOf(c.input[e + 2..])
  {
    StepConsumes(c);
  }

  lemma AfterHeader(c: Conn, line: string, rest: string)
    requires !c.p.Stopped() && c.p.state == HEADER
    ensures var d := Conn(HeaderLine(c.p, line), rest);
         && (Drain(d).p.threw <==> HeaderBreaks(c.p.chunked, line) || (HeaderPasses(c.p.chunked, line) && Drain(d).p.threw))
         && (HeaderPasses(c.p.chunked, line) ==>
               !d.p.Stopped() && d.p.state == HEADER && d.p.chunked == (c.p.chunked || SaysChunkedLine(line)))
  {
    var d := Conn(HeaderLine(c.p, line), rest);
    HeaderLineThrows(c.p, line);
    if d.p.Stopped() {
      StoppedDrains(d);
    } else if d.p.state == BODY {
      BodyNeverThrows(d);
    }
  }

  lemma HeadersThrowCons(chunked: bool, line: string, more: seq<string>)
    ensures HeadersThrow(chunked, [line] + more)
       <==> HeaderBreaks(chunked, line)
            || (HeaderPasses(chunked, line) && HeadersThrow(chunked || SaysChunkedLine(line), more))
  {
    assert ([line] + more)[1..] == more;
  }

  lemma NoMoreLines(c: Conn)
    requires !c.p.Stopped() && c.p.state == HEADER && FindCRLF(c.input).None?
    ensures !Drain(c).p.threw && !HeadersThrow(c.p.chunked, LinesOf(c.input))
  {
  }

  // The first header line of the stream.
  lemma HeaderTaken(c: Conn, line: string, rest: string)
    requires !c.p.Stopped() && c.p.state == HEADER && FindCRLF(c.input) == Some(|line|)
    requires line == c.input[..|line|] && rest == c.input[|line| + 2..]
    ensures Drain(c) == Drain(Conn(HeaderLine(c.p, line), rest)) && LinesOf(c.input) == [line] + LinesOf(rest)
  {
    LineTaken(c);
  }

  lemma {:induction false} HeadersThrowIff(c: Conn)
    requires !c.p.Stopped() && c.p.state == HEADER
    ensures Drain(c).p.threw <==> HeadersThrow(c.p.chunked, LinesOf(c.input))
    decreases |c.input|
  {
    if FindCRLF(c.input).None? {
      NoMoreLines(c);
    } else {
      var e := FindCRLF(c.input).value;
      var line, rest := c.input[..e], c.input[e + 2..];
      HeaderTaken(c, line, rest);
      AfterHeader(c, line, rest);
      HeadersThrowCons(c.p.chunked, line, LinesOf(rest));
      if HeaderPasses(c.p.chunked, line) {
        HeadersThrowIff(Conn(HeaderLine(c.p, line), rest));
      }
    }
  }

  // Over any splitting into reads: an exception leaves the parser exactly when the first line that does
  // not pass is a status line without a number, or a header line that breaks.
  lemma ThrowsIff(kind: Kind, parts: seq<string>)
    ensures Feed(Start(kind), parts).p.threw <==> LinesThrow(kind, LinesOf(Concat(parts)))
  {
    Fragmentation(kind, parts);
    var text := Concat(parts);
    var c := Conn(Start(kind).p, text);
    assert "" + text == text;
    if FindCRLF(text).Some? {
      FirstThrowsIff(c);
    }
  }

  lemma AfterFirst(p: Parser, line: string, rest: string)
    requires !p.Stopped() && p.state == FIRST_LINE && !p.chunked
    ensures var d := Conn(FirstLine(p, line), rest);
         Drain(d).p.threw <==> (p.kind == Response && StatusBreaks(line))
                               || (FirstPasses(p.kind, line) && HeadersThrow(false, LinesOf(rest)))
  {
    var d := Conn(FirstLine(p, line), rest);
    if p.kind == Request {
      RequestLineThrows(p, line);
    } else {
      StatusLineThrows(p, line);
    }
    if d.p.Stopped() {
      StoppedDrains(d);
    } else {
      HeadersThrowIff(d);
    }
  }

  lemma FirstThrowsIff(c: Conn)
    requires !c.p.Stopped() && c.p.state == FIRST_LINE && !c.p.chunked && FindCRLF(c.input).Some?
    ensures Drain(c).p.threw <==> LinesThrow(c.p.kind, LinesOf(c.input))
  {
    var e := FindCRLF(c.input).value;
    var line, rest := c.input[..e], c.input[e + 2..];
    LineTaken(c);
    AfterFirst(c.p, line, rest);
    assert ([line] + LinesOf(rest))[1..] == LinesOf(rest);
  }

  // The smallest kind of failing input: a good first line, then a header that ends at its colon.
  lemma ColonEndThrows(kind: Kind, m: Message, name: string, parts: seq<string>, rest: string)
    requires PlainFirst(kind, m) && Free(name, ':') && Free(name, '\r')
    requires Concat(parts) == FirstText(kind, m) + CRLF + (name + ":" + CRLF + rest)
    ensures Feed(Start(kind), parts).p.threw
  {
    Fragmentation(kind, parts);
    var line := name + ":";
    FirstRead(kind, m, line + CRLF + rest);
    var p := Start(kind).p.(msg := FirstMessage(kind, m), state := HEADER);
    FindMark(name, ':', "");
    assert line == name + [':'] + "" && line[0] != '\r';
    forall i ensures !CrlfAt(line, i) {
      if 0 <= i < |line| {
        assert line[i] != '\r';
      }
    }
    LineStep(p, line, rest);
    StoppedDrains(Conn(HeaderLine(p, line), rest));
    assert "" + Concat(parts) == Concat(parts);
  }

  lemma ShortestThrow()
    ensures Feed(Start(Request), ["GET / HTTP/1.1\r\nA:\r\n"]).p.threw
  {
    var text := "GET / HTTP/1.1\r\nA:\r\n";
    VersionRead(0x11);
    var first := RequestFirst(NO_MESSAGE);
    assert Dec(1) == "1";
    assert first == "GET / HTTP/1.1";
    assert forall i | 0 <= i < |first| :: first[i] != '\r';
    assert Concat([text]) == text by {
      assert [text][..0] == [];
      assert "" + text == text;
    }
    assert text == first + CRLF + ("A" + ":" + CRLF + "");
    ColonEndThrows(Request, NO_MESSAGE, "A", [text], "");
  }
}
