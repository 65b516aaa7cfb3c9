// HttpRequest::dump and HttpResponse::dump, and parsing what they print.
module HttpRoundTrip {
  import opened Prelude
  import opened HttpText
  import opened HttpParsing

  // reyao/http/http_request.cc:23-29
  function MethodText(verb: Method): string {
    match verb
    case GET => "GET"
    case HEAD => "HEAD"
    case POST => "POST"
    case INVALID_METHOD => "<unknown>"
  }

  // reyao/http/http_response.cc:6-16
  function StatusText(status: int): string {
    if status == 200 then "OK"
    else if status == 301 then "Moved Permanently"
    else if status == 400 then "Bad Request"
    else if status == 401 then "Unauthorized"
    else if status == 404 then "Not Found"
    else if status == 500 then "Internal Server Error"
    else "<unknown>"
  }

  function VersionText(version: nat): string { "HTTP/" + Dec(version / 16) + "." + Dec(version % 16) }

  function Target(m: Message): string {
    m.path + (if m.query == "" then "" else "?" + m.query) + (if m.fragment == "" then "" else "#" + m.fragment)
  }

  function RequestFirst(m: Message): string {
    MethodText(m.verb) + " " + (Target(m) + " " + VersionText(m.version))
  }

  function Reason(m: Message): string { if m.reason == "" then StatusText(m.status) else m.reason }

  function ResponseFirst(m: Message): string
    requires m.status >= 0
  {
    VersionText(m.version) + " " + (Dec(m.status) + " " + Reason(m))
  }

  function HeaderOf(name: string, value: string): string { name + ": " + value }

  function OneHeaderText(f: Field): string {
    if Key(f.name) == "connection" then "" else HeaderOf(f.name, f.value) + CRLF
  }

  // The map's own order is left open: any enumeration of the keys will do.
  function HeadersText(hs: map<string, Field>, order: seq<string>): string
    requires forall k | k in order :: k in hs
  {
    if order == [] then "" else OneHeaderText(hs[order[0]]) + HeadersText(hs, order[1..])
  }

  function BodyText(length: string, body: string): string {
    if body == "" then CRLF else HeaderOf(length, Dec(|body|)) + CRLF + CRLF + body
  }

  // The spelling of the two headers dump adds itself.
  datatype Style = Style(connection: string, keepAlive: string, close: string, length: string)

  const REQUEST_STYLE := Style("connection", "keep-alive", "close", "content-length")
  const RESPONSE_STYLE := Style("Connection", "Keep-Alive", "Close", "Content-Length")

  function StyleOf(kind: Kind): Style { if kind == Request then REQUEST_STYLE else RESPONSE_STYLE }

  function Connection(s: Style, keepAlive: bool): Field {
    Field(s.connection, if keepAlive then s.keepAlive else s.close)
  }

  function FirstText(kind: Kind, m: Message): string
    requires m.status >= 0
  {
    if kind == Request then RequestFirst(m) else ResponseFirst(m)
  }

  function FieldsText(style: Style, m: Message, keepAlive: bool, order: seq<string>): string
    requires forall k | k in order :: k in m.headers
  {
    var c := Connection(style, keepAlive);
    HeaderOf(c.name, c.value) + CRLF + (HeadersText(m.headers, order) + BodyText(style.length, m.body))
  }

  // HttpRequest::dump and HttpResponse::dump
  function Dumped(kind: Kind, m: Message, keepAlive: bool, order: seq<string>): string
    requires m.status >= 0 && forall k | k in order :: k in m.headers
  {
    FirstText(kind, m) + CRLF + FieldsText(StyleOf(kind), m, keepAlive, order)
  }

  lemma OneMore(os: string, hs: map<string, Field>, order: seq<string>, i: nat)
    requires i < |order| && forall k | k in order :: k in hs
    ensures os + HeadersText(hs, order[i..]) == os + OneHeaderText(hs[order[i]]) + HeadersText(hs, order[i + 1..])
  {
    assert order[i..][1..] == order[i + 1..];
  }

  method DumpHeaders(hs: map<string, Field>, order: seq<string>) returns (os: string)
    requires forall k | k in order :: k in hs
    ensures os == HeadersText(hs, order)
  {
    os := "";
    var i := 0;
    assert order[i..] == order;
    while i < |order|
      invariant i <= |order|
      invariant os + HeadersText(hs, order[i..]) == HeadersText(hs, order)
    {
      OneMore(os, hs, order, i);
      var f := hs[order[i]];
      i := i + 1;
      if Key(f.name) == "connection" {
        assert os + OneHeaderText(f) == os;
        continue;
      }
      os := os + (HeaderOf(f.name, f.value) + CRLF);
    }
  }

  method DumpFields(style: Style, m: Message, keepAlive: bool, order: seq<string>) returns (os: string)
    requires forall k | k in order :: k in m.headers
    ensures os == FieldsText(style, m, keepAlive, order)
  {
    os := HeaderOf(style.connection, if keepAlive then style.keepAlive else style.close) + CRLF;
    var headers := DumpHeaders(m.headers, order);
    if m.body == "" {
      os := os + (headers + CRLF);
    } else {
      os := os + (headers + (HeaderOf(style.length, Dec(|m.body|)) + CRLF + CRLF + m.body));
    }
  }

  method Dump(kind: Kind, m: Message, keepAlive: bool, order: seq<string>) returns (os: string)
    requires m.status >= 0 && forall k | k in order :: k in m.headers
    ensures os == Dumped(kind, m, keepAlive, order)
  {
    var fields := DumpFields(StyleOf(kind), m, keepAlive, order);
    os := FirstText(kind, m) + CRLF + fields;
  }

  // ---- what can be printed ----

  predicate Free(s: string, c: char) { forall i | 0 <= i < |s| :: s[i] != c }

  // A header whose line is one line, cut at the colon dump prints.
  ghost predicate PlainHeader(f: Field) {
    && Free(f.name, ':')
    && (f.name != "" ==> f.name[0] != '\r')
    && NoCRLF(HeaderOf(f.name, f.value))
  }

  ghost predicate PlainHeaders(hs: map<string, Field>) {
    forall k | k in hs :: Key(hs[k].name) == k && (k != "connection" ==> PlainHeader(hs[k]))
  }

  ghost predicate PlainTarget(m: Message) {
    && m.path != "" && m.path[0] == '/'
    && Free(m.path, ' ') && Free(m.path, '?') && Free(m.path, '#')
    && Free(m.query, ' ') && Free(m.query, '#')
    && Free(m.fragment, ' ')
  }

  ghost predicate PlainFirst(kind: Kind, m: Message) {
    && (m.version == 0x10 || m.version == 0x11)
    && (if kind == Request then PlainTarget(m) && m.status >= 0 else IsHttpStatus(m.status))
    && NoCRLF(FirstText(kind, m))
  }

  // A message that can be printed at all.
  ghost predicate Plain(kind: Kind, m: Message) { PlainFirst(kind, m) && PlainHeaders(m.headers) }

  // ---- what is read back ----

  // The parser takes the header for what it is: it has a value, does not announce chunks, which dump
  // never prints, and is a number if it gives a length.
  predicate Readable(k: string, f: Field) {
    && f.value != ""
    && !(k == "transfer-encoding" && Key(f.value) == "chunked")
    && (k == "content-length" ==> Stoi(f.value).Some?)
  }

  predicate AllReadable(hs: map<string, Field>) { forall k | k in hs && k != "connection" :: Readable(k, hs[k]) }

  // Without a body, no length or the length 0.
  predicate LengthAgrees(m: Message) {
    m.body == "" && "content-length" in m.headers ==> Stoi(m.headers["content-length"].value) == Some(0)
  }

  predicate Recoverable(m: Message) { AllReadable(m.headers) && LengthAgrees(m) && |m.body| < 0x8000_0000 }

  // ---- lines ----

  lemma FindMark(a: string, c: char, b: string)
    requires Free(a, c)
    ensures Find(a, c) == |a| && Find(a + [c] + b, c) == |a|
  {
    FindIs(a, c, |a|);
    FindIs(a + [c] + b, c, |a|);
  }

  lemma LineStep(p: Parser, line: string, rest: string)
    requires !p.Stopped() && ByLine(p) && NoCRLF(line)
    ensures Drain(Conn(p, line + CRLF + rest)) == Drain(Conn(OnLine(p, line), rest))
  {
    var c := Conn(p, line + CRLF + rest);
    FindCRLFAfter(line, rest);
    assert c.input[..|line|] == line && c.input[|line| + 2..] == rest;
    assert CanStep(c) && Step(c) == Conn(OnLine(p, line), rest);
    StepConsumes(c);
  }

  lemma HeaderLineIs(p: Parser, name: string, value: string)
    requires Free(name, ':') && (name != "" ==> name[0] != '\r')
    ensures HeaderLine(p, HeaderOf(name, value)) == if value == "" then p.(error := true) else Header(p, name, value)
  {
    var line := HeaderOf(name, value);
    assert line == name + [':'] + ([' '] + value);
    FindMark(name, ':', [' '] + value);
    assert line[0] == if name == "" then ':' else name[0];
    assert line[..|name|] == name && line[|name| + 2..] == value;
  }

  // The value starts two characters after the colon, whatever the one in between is.
  lemma HeaderSkipsOne(p: Parser, name: string, c: char, value: string)
    requires Free(name, ':') && (name != "" ==> name[0] != '\r') && value != ""
    ensures HeaderLine(p, name + ":" + [c] + value) == Header(p, name, value)
  {
    var line := name + ":" + [c] + value;
    assert line == name + [':'] + ([c] + value);
    FindMark(name, ':', [c] + value);
    assert line[0] == if name == "" then ':' else name[0];
    assert line[..|name|] == name && line[|name| + 2..] == value;
  }

  // ---- headers ----

  // The parser in the middle of the headers of hs: what it holds so far agrees with them.
  ghost predicate AtHeaders(p: Parser, hs: map<string, Field>) {
    var got := p.msg.headers;
    && p.state == HEADER && !p.Stopped() && !p.chunked
    && (forall k | k in got && k != "connection" :: k in hs && got[k] == hs[k])
    && if "content-length" in got then
         var n := Stoi(got["content-length"].value);
         n.Some? && p.contentLen == SizeT(n.value)
       else p.contentLen == 0
  }

  predicate OnlyHeadersDiffer(p: Parser, r: Parser) {
    r == p.(msg := p.msg.(headers := r.msg.headers), contentLen := r.contentLen)
  }

  function ReadOne(p: Parser, f: Field): Parser {
    if Key(f.name) == "connection" then p else Header(p, f.name, f.value)
  }

  function ReadAll(p: Parser, hs: map<string, Field>, order: seq<string>): Parser
    requires forall k | k in order :: k in hs
    decreases order
  {
    if order == [] then p else ReadAll(ReadOne(p, hs[order[0]]), hs, order[1..])
  }

  lemma ReadOneKeeps(p: Parser, hs: map<string, Field>, k: string)
    requires AtHeaders(p, hs) && PlainHeaders(hs) && k in hs && (k != "connection" ==> Readable(k, hs[k]))
    ensures var r := ReadOne(p, hs[k]);
      && AtHeaders(r, hs) && OnlyHeadersDiffer(p, r)
      && r.msg.headers == if k == "connection" then p.msg.headers else p.msg.headers[k := hs[k]]
  {
    if k != "connection" {
      assert PlainHeader(hs[k]);
      assert AddHeader(p.msg.headers, hs[k].name, hs[k].value) == p.msg.headers[k := hs[k]];
    }
  }

  lemma InHeadOrTail(order: seq<string>)
    requires order != []
    ensures forall k :: k in order <==> k == order[0] || k in order[1..]
  {
    assert order == [order[0]] + order[1..];
  }

  lemma {:induction false} ReadAllKeeps(p: Parser, hs: map<string, Field>, order: seq<string>)
    requires AtHeaders(p, hs) && PlainHeaders(hs)
    requires forall k | k in order :: k in hs && (k != "connection" ==> Readable(k, hs[k]))
    ensures var r := ReadAll(p, hs, order);
      && AtHeaders(r, hs) && OnlyHeadersDiffer(p, r)
      && (forall k :: k in r.msg.headers <==> k in p.msg.headers || (k in order && k != "connection"))
      && ("connection" in p.msg.headers ==> r.msg.headers["connection"] == p.msg.headers["connection"])
    decreases order
  {
    if order != [] {
      InHeadOrTail(order);
      ReadOneKeeps(p, hs, order[0]);
      ReadAllKeeps(ReadOne(p, hs[order[0]]), hs, order[1..]);
    }
  }

  lemma FirstHeader(hs: map<string, Field>, order: seq<string>, rest: string)
    requires order != [] && forall k | k in order :: k in hs
    ensures HeadersText(hs, order) + rest == OneHeaderText(hs[order[0]]) + (HeadersText(hs, order[1..]) + rest)
  {
    Assoc(OneHeaderText(hs[order[0]]), HeadersText(hs, order[1..]), rest);
  }

  // The printed headers are read one after the other, each line in full.
  lemma {:induction false} HeadersRead(p: Parser, hs: map<string, Field>, order: seq<string>, rest: string)
    requires AtHeaders(p, hs) && PlainHeaders(hs)
    requires forall k | k in order :: k in hs && (k != "connection" ==> Readable(k, hs[k]))
    ensures Drain(Conn(p, HeadersText(hs, order) + rest)) == Drain(Conn(ReadAll(p, hs, order), rest))
    decreases order
  {
    if order == [] {
      assert HeadersText(hs, order) + rest == rest;
    } else {
      var k := order[0];
      var more := HeadersText(hs, order[1..]) + rest;
      OneHeaderRead(p, hs, k, more);
      ReadOneKeeps(p, hs, k);
      HeadersRead(ReadOne(p, hs[k]), hs, order[1..], rest);
      FirstHeader(hs, order, rest);
    }
  }

  lemma OneHeaderRead(p: Parser, hs: map<string, Field>, k: string, rest: string)
    requires p.state == HEADER && !p.Stopped() && PlainHeaders(hs)
    requires k in hs && (k != "connection" ==> hs[k].value != "")
    ensures Drain(Conn(p, OneHeaderText(hs[k]) + rest)) == Drain(Conn(ReadOne(p, hs[k]), rest))
  {
    var f := hs[k];
    if k == "connection" {
      assert OneHeaderText(f) + rest == rest;
    } else {
      assert PlainHeader(f);
      HeaderLineIs(p, f.name, f.value);
      LineStep(p, HeaderOf(f.name, f.value), rest);
    }
  }

  // ---- body ----

  lemma EndOfHeaders(p: Parser, body: string, rest: string)
    requires p.state == HEADER && !p.Stopped() && !p.chunked && p.contentLen == |body|
    ensures Drain(Conn(p, CRLF + body + rest))
         == Conn(p.(state := BODY, finish := true, msg := p.msg.(body := if body == "" then p.msg.body else body)), rest)
  {
    LineStep(p, "", body + rest);
    assert CRLF + body + rest == "" + CRLF + (body + rest);
    var c := Conn(p.(state := BODY), body + rest);
    assert c.input[..|body|] == body && c.input[|body|..] == rest;
    assert CanStep(c) && Step(c) == Conn(FixedBody(c.p, body), rest);
    StepConsumes(c);
  }

  // dump's own content-length line: its length is read back as long as it fits an int, and throws otherwise.
  lemma LengthRead(p: Parser, name: string, n: nat, rest: string)
    requires p.state == HEADER && !p.Stopped() && !p.chunked && (name == "content-length" || name == "Content-Length")
    ensures Drain(Conn(p, HeaderOf(name, Dec(n)) + CRLF + rest))
         == if n < 0x8000_0000
            then Drain(Conn(p.(contentLen := n, msg := p.msg.(headers := AddHeader(p.msg.headers, name, Dec(n)))), rest))
            else Conn(p.(threw := true), rest)
  {
    var v := Dec(n);
    LengthKey(name);
    NoBreak(name, v);
    HeaderLineIs(p, name, v);
    LineStep(p, HeaderOf(name, v), rest);
    StoiOfDec(n);
    LengthHeader(p, name, v, n);
  }

  lemma LengthHeader(p: Parser, name: string, v: string, n: nat)
    requires !p.chunked && Key(name) == "content-length" && Stoi(v) == if n < 0x8000_0000 then Some(n) else None
    ensures Header(p, name, v)
         == if n < 0x8000_0000 then p.(contentLen := n, msg := p.msg.(headers := AddHeader(p.msg.headers, name, v)))
            else p.(threw := true)
  {
    ContentLength(p, name, v);
    assert n < 0x8000_0000 ==> SizeT(n) == n;
  }

  lemma ContentLength(p: Parser, name: string, value: string)
    requires !p.chunked && Key(name) == "content-length"
    ensures Header(p, name, value)
         == if Stoi(value).None? then p.(threw := true)
            else p.(contentLen := SizeT(Stoi(value).value), msg := p.msg.(headers := AddHeader(p.msg.headers, name, value)))
  {
    assert |Key(name)| == 14 != |"transfer-encoding"|;
  }

  predicate NameChar(c: char) { 'A' <= c <= 'Z' || 'a' <= c <= 'z' || c == '-' }

  predicate IsName(s: string) { s != "" && forall i | 0 <= i < |s| :: NameChar(s[i]) }

  lemma NameIs(s: string)
    requires IsName(s)
    ensures Key(s) == Lower(s) && Free(s, ':') && Free(s, '\n') && s[0] != '\r'
  {
    FindIs(s, '\0', |s|);
  }

  lemma LengthKey(name: string)
    requires name == "content-length" || name == "Content-Length"
    ensures Key(name) == "content-length"
    ensures Free(name, ':') && Free(name, '\n') && name[0] != '\r'
  {
    assert IsName("content-length") && LowersTo("content-length", "content-length");
    assert IsName("Content-Length") && LowersTo("Content-Length", "content-length");
    NameIs(name);
    LowerIs(name, "content-length");
  }

  predicate LowersTo(s: string, t: string) { |s| == |t| && forall i | 0 <= i < |s| :: LowerChar(s[i]) == t[i] }

  lemma LowerIs(s: string, t: string)
    requires LowersTo(s, t)
    ensures Lower(s) == t
  {
  }

  lemma NoBreak(name: string, value: string)
    requires Free(name, '\n') && Free(value, '\n')
    ensures NoCRLF(HeaderOf(name, value))
  {
  }

  lemma ConnectionKey(name: string)
    requires name == "connection" || name == "Connection"
    ensures Key(name) == "connection"
    ensures Free(name, ':') && Free(name, '\n') && name[0] != '\r'
  {
    assert IsName("connection") && LowersTo("connection", "connection");
    assert IsName("Connection") && LowersTo("Connection", "connection");
    NameIs(name);
    LowerIs(name, "connection");
  }

  lemma ConnectionIsName(kind: Kind, keepAlive: bool)
    ensures IsName(Connection(StyleOf(kind), keepAlive).value)
  {
    assert IsName("keep-alive");
    assert IsName("Keep-Alive");
    assert IsName("close");
    assert IsName("Close");
  }

  lemma FirstField(p: Parser, c: Field)
    requires Key(c.name) == "connection" && p.msg.headers == map[]
    ensures Header(p, c.name, c.value) == p.(msg := p.msg.(headers := map["connection" := c]))
  {
  }

  lemma ConnectionRead(p: Parser, kind: Kind, keepAlive: bool, rest: string)
    requires p.state == HEADER && !p.Stopped() && !p.chunked && p.msg.headers == map[]
    ensures var c := Connection(StyleOf(kind), keepAlive);
         Drain(Conn(p, HeaderOf(c.name, c.value) + CRLF + rest))
         == Drain(Conn(p.(msg := p.msg.(headers := map["connection" := c])), rest))
  {
    var c := Connection(StyleOf(kind), keepAlive);
    ConnectionKey(c.name);
    ConnectionIsName(kind, keepAlive);
    NameIs(c.value);
    NoBreak(c.name, c.value);
    HeaderLineIs(p, c.name, c.value);
    LineStep(p, HeaderOf(c.name, c.value), rest);
    FirstField(p, c);
  }

  // ---- after the first line ----

  // What dump says about the connection, word for word.
  lemma ConnectionTexts()
    ensures Connection(StyleOf(Request), true) == Field("connection", "keep-alive")
    ensures Connection(StyleOf(Request), false) == Field("connection", "close")
    ensures Connection(StyleOf(Response), true) == Field("Connection", "Keep-Alive")
    ensures Connection(StyleOf(Response), false) == Field("Connection", "Close")
    ensures StyleOf(Request).length == "content-length" && StyleOf(Response).length == "Content-Length"
  {
  }

  // What is read back: connection says what dump said, content-length what dump computed.
  function FinalHeaders(kind: Kind, m: Message, keepAlive: bool): map<string, Field> {
    var h := m.headers["connection" := Connection(StyleOf(kind), keepAlive)];
    if m.body == "" then h else AddHeader(h, StyleOf(kind).length, Dec(|m.body|))
  }

  ghost predicate Enumerates(order: seq<string>, hs: map<string, Field>) {
    forall k :: k in order <==> k in hs
  }

  // Where the parser is once it read everything of m but the first line.
  function Done(p: Parser, length: string, body: string): Parser {
    p.(state := BODY, finish := true, contentLen := |body|,
       msg := p.msg.(body := body,
                     headers := if body == "" then p.msg.headers else AddHeader(p.msg.headers, length, Dec(|body|))))
  }

  lemma NoBodyRead(p: Parser, length: string, rest: string)
    requires p.state == HEADER && !p.Stopped() && !p.chunked && p.contentLen == 0 && p.msg.body == ""
    ensures Drain(Conn(p, BodyText(length, "") + rest)) == Conn(Done(p, length, ""), rest)
  {
    EndOfHeaders(p, "", rest);
    assert CRLF + "" + rest == CRLF + rest;
  }

  lemma BodyTextIs(length: string, body: string, rest: string)
    requires body != ""
    ensures BodyText(length, body) + rest == HeaderOf(length, Dec(|body|)) + CRLF + (CRLF + body + rest)
  {
    var h := HeaderOf(length, Dec(|body|)) + CRLF;
    Assoc(h, CRLF, body);
    Assoc(h, CRLF + body, rest);
  }

  lemma BodyRead(p: Parser, length: string, body: string, rest: string)
    requires p.state == HEADER && !p.Stopped() && !p.chunked && body != ""
    requires length == "content-length" || length == "Content-Length"
    ensures Drain(Conn(p, BodyText(length, body) + rest))
         == if |body| < 0x8000_0000 then Conn(Done(p, length, body), rest)
            else Conn(p.(threw := true), CRLF + body + rest)
  {
    var n := |body|;
    LengthRead(p, length, n, CRLF + body + rest);
    BodyTextIs(length, body, rest);
    if n < 0x8000_0000 {
      EndOfHeaders(p.(contentLen := n, msg := p.msg.(headers := AddHeader(p.msg.headers, length, Dec(n)))), body, rest);
    }
  }

  // ---- the first line ----

  // What the first line carries; a response's reason comes back with the space in front of it.
  function FirstMessage(kind: Kind, m: Message): Message
    requires m.status >= 0
  {
    if kind == Request
    then NO_MESSAGE.(verb := m.verb, version := m.version, path := m.path, query := m.query, fragment := m.fragment)
    else NO_MESSAGE.(version := m.version, status := m.status, reason := " " + Reason(m))
  }

  lemma VersionRead(version: nat)
    requires version == 0x10 || version == 0x11
    ensures VersionOf(VersionText(version)) == Some(version)
    ensures Free(VersionText(version), ' ')
  {
    assert Dec(1) == "1" && Dec(0) == "0";
    assert VersionText(0x10) == "HTTP/1.0" && VersionText(0x11) == "HTTP/1.1";
  }

  lemma MethodRead(verb: Method)
    ensures StringToHttpMethod(MethodText(verb)) == verb && Free(MethodText(verb), ' ')
  {
    FindIs(MethodText(verb), '\0', |MethodText(verb)|);
  }

  // The methods by name; a text that is none of the three is no method.
  lemma MethodTexts(s: string)
    ensures StringToHttpMethod("GET") == GET && StringToHttpMethod("HEAD") == HEAD && StringToHttpMethod("POST") == POST
    ensures CStr(s) != "GET" && CStr(s) != "HEAD" && CStr(s) != "POST" ==> StringToHttpMethod(s) == INVALID_METHOD
  {
    MethodRead(GET);
    MethodRead(HEAD);
    MethodRead(POST);
  }

  // The reasons of responses that have none of their own, word for word.
  lemma StatusTexts()
    ensures StatusText(200) == "OK" && StatusText(301) == "Moved Permanently" && StatusText(400) == "Bad Request"
    ensures StatusText(401) == "Unauthorized" && StatusText(404) == "Not Found" && StatusText(500) == "Internal Server Error"
  {
  }

  // Whatever stands in front of the first '/' of the target, a scheme and a host say, is dropped.
  lemma AnyTargetRead(p: Parser, verb: string, before: string, m: Message, v: string, n: nat)
    requires Free(verb, ' ') && Free(before, ' ') && Free(before, '/') && PlainTarget(m) && VersionOf(v) == Some(n)
    requires p.msg.query == "" && p.msg.fragment == ""
    ensures RequestLine(p, verb + " " + (before + Target(m) + " " + v))
         == p.(msg := p.msg.(verb := StringToHttpMethod(verb), version := n,
                             path := m.path, query := m.query, fragment := m.fragment), state := HEADER)
  {
    var q := WithVerb(p, StringToHttpMethod(verb));
    RequestLineIs(p, verb, before + Target(m) + " " + v);
    TargetIsFree(m);
    FrontDropped(q, before, Target(m), v, n);
    TargetRead(q.msg.(version := n), m);
  }

  lemma FrontDropped(p: Parser, before: string, uri: string, v: string, n: nat)
    requires Free(before, ' ') && Free(before, '/') && uri != "" && uri[0] == '/' && Free(uri, ' ') && VersionOf(v) == Some(n)
    ensures TargetAndVersion(p, before + uri + " " + v) == p.(msg := ParseURI(p.msg.(version := n), uri), state := HEADER)
  {
    var target := before + uri;
    Word(target, v);
    FindIs(target, '/', |before|);
    assert target[|before|..] == uri;
  }

  // The other way round: what is read is printed as it was read, exactly for the four texts.
  lemma MethodPrinted(s: string)
    ensures MethodText(StringToHttpMethod(s)) == CStr(s)
       <==> CStr(s) == "GET" || CStr(s) == "HEAD" || CStr(s) == "POST" || CStr(s) == "<unknown>"
  {
  }

  // Cutting s at its first c.
  lemma Cut(a: string, c: char, b: string)
    requires Free(a, c)
    ensures var s := a + (if b == "" then "" else [c] + b);
            var i := Find(s, c);
         i == |a| && s[..i] == a && (b == "" <==> i == |s|) && (b != "" ==> s[i + 1..] == b)
  {
    FindMark(a, c, b);
    assert a + ([c] + b) == a + [c] + b;
    assert a + "" == a;
  }

  lemma TargetRead(base: Message, m: Message)
    requires PlainTarget(m) && base.query == "" && base.fragment == ""
    ensures ParseURI(base, Target(m)) == base.(path := m.path, query := m.query, fragment := m.fragment)
  {
    var uri := Target(m);
    var front := m.path + (if m.query == "" then "" else "?" + m.query);
    assert uri == front + (if m.fragment == "" then "" else "#" + m.fragment);
    Cut(front, '#', m.fragment);
    Cut(m.path, '?', m.query);
  }

  // The first word of a line.
  lemma Word(a: string, b: string)
    requires Free(a, ' ')
    ensures var s := a + " " + b; Find(s, ' ') == |a| && s[..|a|] == a && s[|a| + 1..] == b
  {
    FindMark(a, ' ', b);
    assert a + " " + b == a + [' '] + b;
  }

  lemma TargetAndVersionIs(p: Parser, uri: string, v: string, n: nat)
    requires uri != "" && uri[0] == '/' && Free(uri, ' ') && VersionOf(v) == Some(n)
    ensures TargetAndVersion(p, uri + " " + v) == p.(msg := ParseURI(p.msg.(version := n), uri), state := HEADER)
  {
    Word(uri, v);
    FindIs(uri, '/', 0);
    assert uri[0..] == uri;
  }

  lemma TargetIsFree(m: Message)
    requires PlainTarget(m)
    ensures Target(m) != "" && Target(m)[0] == '/' && Free(Target(m), ' ')
  {
  }

  lemma TargetAndVersionRead(p: Parser, m: Message)
    requires PlainTarget(m) && (m.version == 0x10 || m.version == 0x11)
    requires p.msg.query == "" && p.msg.fragment == ""
    ensures TargetAndVersion(p, Target(m) + " " + VersionText(m.version))
         == p.(msg := p.msg.(version := m.version, path := m.path, query := m.query, fragment := m.fragment), state := HEADER)
  {
    VersionRead(m.version);
    TargetIsFree(m);
    TargetAndVersionIs(p, Target(m), VersionText(m.version), m.version);
    TargetRead(p.msg.(version := m.version), m);
  }

  lemma RequestLineIs(p: Parser, verb: string, rest: string)
    requires Free(verb, ' ')
    ensures RequestLine(p, verb + " " + rest)
         == TargetAndVersion(p.(msg := p.msg.(verb := StringToHttpMethod(verb))), rest)
  {
    Word(verb, rest);
  }

  lemma RequestFirstRead(p: Parser, m: Message)
    requires p == Start(Request).p && PlainFirst(Request, m)
    ensures OnLine(p, RequestFirst(m)) == p.(msg := FirstMessage(Request, m), state := HEADER)
  {
    MethodRead(m.verb);
    RequestLineIs(p, MethodText(m.verb), Target(m) + " " + VersionText(m.version));
    TargetAndVersionRead(p.(msg := p.msg.(verb := m.verb)), m);
  }

  lemma StatusLineIs(p: Parser, v: string, n: nat, rest: string)
    requires Free(v, ' ') && VersionOf(v) == Some(n)
    ensures StatusLine(p, v + " " + rest) == StatusAndReason(p.(msg := p.msg.(version := n)), rest)
  {
    Word(v, rest);
  }

  lemma ResponseFirstRead(p: Parser, m: Message)
    requires p == Start(Response).p && PlainFirst(Response, m)
    ensures OnLine(p, ResponseFirst(m)) == p.(msg := FirstMessage(Response, m), state := HEADER)
  {
    VersionRead(m.version);
    StatusLineIs(p, VersionText(m.version), m.version, Dec(m.status) + " " + Reason(m));
    StatusRead(p.(msg := p.msg.(version := m.version)), m);
  }

  lemma StatusAndReasonIs(p: Parser, d: string, code: int, reason: string)
    requires Free(d, ' ') && Stoi(d) == Some(code) && IsHttpStatus(code)
    ensures StatusAndReason(p, d + " " + reason) == p.(msg := p.msg.(status := code, reason := " " + reason), state := HEADER)
  {
    Word(d, reason);
    assert (d + " " + reason)[|d|..] == " " + reason;
  }

  lemma StatusRead(p: Parser, m: Message)
    requires IsHttpStatus(m.status)
    ensures StatusAndReason(p, Dec(m.status) + " " + Reason(m))
         == p.(msg := p.msg.(status := m.status, reason := " " + Reason(m)), state := HEADER)
  {
    StoiOfDec(m.status);
    StatusAndReasonIs(p, Dec(m.status), m.status, Reason(m));
  }

  lemma AllHeaders(got: map<string, Field>, hs: map<string, Field>, order: seq<string>, c: Field)
    requires Enumerates(order, hs)
    requires forall k | k in got && k != "connection" :: k in hs && got[k] == hs[k]
    requires forall k :: k in got <==> k == "connection" || (k in order && k != "connection")
    requires got["connection"] == c
    ensures got == hs["connection" := c]
  {
  }

  lemma AllRead(p: Parser, kind: Kind, m: Message, keepAlive: bool, order: seq<string>)
    requires p.state == HEADER && !p.Stopped() && !p.chunked && p.contentLen == 0
    requires p.msg.headers == map["connection" := Connection(StyleOf(kind), keepAlive)]
    requires PlainHeaders(m.headers) && Enumerates(order, m.headers) && AllReadable(m.headers)
    ensures var r := ReadAll(p, m.headers, order);
      && AtHeaders(r, m.headers) && OnlyHeadersDiffer(p, r)
      && r.msg.headers == m.headers["connection" := Connection(StyleOf(kind), keepAlive)]
  {
    ReadAllKeeps(p, m.headers, order);
    AllHeaders(ReadAll(p, m.headers, order).msg.headers, m.headers, order, Connection(StyleOf(kind), keepAlive));
  }

  lemma LengthLeft(p: Parser, m: Message, r: Parser)
    requires AtHeaders(r, m.headers) && m.body == "" && forall k | k in m.headers && k != "connection" :: k in r.msg.headers
    ensures r.contentLen == 0 <==> LengthAgrees(m)
  {
    assert |"content-length"| != |"connection"|;
  }

  // ---- the round trip ----

  // The parser finished, found the message, and left what follows it alone.
  predicate Recovered(c: Conn, kind: Kind, m: Message, keepAlive: bool, rest: string)
    requires m.status >= 0
  {
    && c.p.finish && !c.p.error && !c.p.threw && c.input == rest
    && c.p.msg == FirstMessage(kind, m).(headers := FinalHeaders(kind, m, keepAlive), body := m.body)
  }

  // The parser did not finish with this body, leaving this rest alone.
  predicate Lost(c: Conn, body: string, rest: string) {
    c.p.error || c.p.threw || !c.p.finish || c.p.msg.body != body || c.input != rest
  }

  // ---- chunks where there are none ----

  // What a chunked body leaves is shorter than what it was given: the size lines are gone.
  lemma {:induction false} ChunksShrink(c: Conn)
    requires c.p.state == BODY && c.p.chunked && !c.p.Stopped()
    ensures var d := Drain(c); d.p.finish ==> |d.p.msg.body| + |d.input| + 2 <= |c.p.body| + |c.input|
    decreases Work(c)
  {
    if CanStep(c) {
      StepConsumes(c);
      var d := Step(c);
      if d.p.Stopped() {
        assert Drain(d) == d;
      } else {
        ChunksShrink(d);
      }
    }
  }

  lemma ChunkedBodyLost(p: Parser, length: string, body: string, rest: string)
    requires p.state == HEADER && !p.Stopped() && p.chunked && p.body == ""
    requires length == "content-length" || length == "Content-Length"
    ensures Lost(Drain(Conn(p, BodyText(length, body) + rest)), body, rest)
  {
    if body == "" {
      ChunkedEndLost(p, "", rest);
      assert CRLF + "" + rest == BodyText(length, "") + rest;
    } else {
      var v := Dec(|body|);
      LengthKey(length);
      NoBreak(length, v);
      HeaderLineIs(p, length, v);
      LineStep(p, HeaderOf(length, v), CRLF + body + rest);
      BodyTextIs(length, body, rest);
      ChunkedEndLost(Header(p, length, v), body, rest);
    }
  }

  lemma ChunkedEndLost(p: Parser, body: string, rest: string)
    requires p.state == HEADER && !p.Stopped() && p.chunked && p.body == ""
    ensures Lost(Drain(Conn(p, CRLF + body + rest)), body, rest)
  {
    LineStep(p, "", body + rest);
    assert CRLF + body + rest == "" + CRLF + (body + rest);
    ChunksShrink(Conn(p.(state := BODY), body + rest));
  }

  lemma {:induction false} ChunkedHeadersLost(p: Parser, hs: map<string, Field>, order: seq<string>,
                                              length: string, body: string, rest: string)
    requires p.state == HEADER && !p.Stopped() && p.chunked && p.body == "" && PlainHeaders(hs)
    requires forall k | k in order :: k in hs
    requires length == "content-length" || length == "Content-Length"
    ensures Lost(Drain(Conn(p, HeadersText(hs, order) + (BodyText(length, body) + rest))), body, rest)
    decreases order
  {
    if order == [] {
      assert HeadersText(hs, order) + (BodyText(length, body) + rest) == BodyText(length, body) + rest;
      ChunkedBodyLost(p, length, body, rest);
    } else {
      var k := order[0];
      var more := HeadersText(hs, order[1..]) + (BodyText(length, body) + rest);
      FirstHeader(hs, order, BodyText(length, body) + rest);
      if k != "connection" && hs[k].value == "" {
        NoValueFails(p, hs, k, more);
      } else {
        OneHeaderRead(p, hs, k, more);
        ChunkedHeadersLost(ReadOne(p, hs[k]), hs, order[1..], length, body, rest);
      }
    }
  }

  // A header without a value is printed but not read back: the parser stops at it with an error.
  lemma NoValueFails(p: Parser, hs: map<string, Field>, k: string, rest: string)
    requires p.state == HEADER && !p.Stopped() && PlainHeaders(hs) && k in hs && k != "connection" && hs[k].value == ""
    ensures Drain(Conn(p, OneHeaderText(hs[k]) + rest)).p.error
  {
    var f := hs[k];
    assert PlainHeader(f);
    HeaderLineIs(p, f.name, f.value);
    LineStep(p, HeaderOf(f.name, f.value), rest);
  }

  // A header that is not readable is in the way, wherever it is printed.
  lemma {:induction false} UnreadableLost(p: Parser, hs: map<string, Field>, order: seq<string>,
                                          length: string, body: string, rest: string)
    requires AtHeaders(p, hs) && p.body == "" && PlainHeaders(hs)
    requires forall k | k in order :: k in hs
    requires exists k :: k in order && k != "connection" && !Readable(k, hs[k])
    requires length == "content-length" || length == "Content-Length"
    ensures Lost(Drain(Conn(p, HeadersText(hs, order) + (BodyText(length, body) + rest))), body, rest)
    decreases order
  {
    var k := order[0];
    var more := HeadersText(hs, order[1..]) + (BodyText(length, body) + rest);
    FirstHeader(hs, order, BodyText(length, body) + rest);
    if k == "connection" || Readable(k, hs[k]) {
      OneHeaderRead(p, hs, k, more);
      ReadOneKeeps(p, hs, k);
      UnreadableLost(ReadOne(p, hs[k]), hs, order[1..], length, body, rest);
    } else if hs[k].value == "" {
      NoValueFails(p, hs, k, more);
    } else {
      OneHeaderRead(p, hs, k, more);
      UnreadableHeader(p, hs[k]);
      if !ReadOne(p, hs[k]).threw {
        ChunkedHeadersLost(ReadOne(p, hs[k]), hs, order[1..], length, body, rest);
      }
    }
  }

  lemma UnreadableHeader(p: Parser, f: Field)
    requires p.state == HEADER && !p.Stopped() && !p.chunked
    requires Key(f.name) != "connection" && f.value != "" && !Readable(Key(f.name), f)
    ensures var r := ReadOne(p, f);
      r.threw || (r.state == HEADER && !r.Stopped() && r.chunked && r.body == p.body)
  {
    assert |"content-length"| != |"transfer-encoding"|;
  }

  function AfterConnection(kind: Kind, m: Message, keepAlive: bool): Parser
    requires m.status >= 0
  {
    var c := Connection(StyleOf(kind), keepAlive);
    Start(kind).p.(msg := FirstMessage(kind, m).(headers := map["connection" := c]), state := HEADER)
  }

  lemma HeadersAndBodyRead(kind: Kind, m: Message, keepAlive: bool, order: seq<string>, rest: string)
    requires Plain(kind, m) && Enumerates(order, m.headers) && AllReadable(m.headers)
    ensures var body := BodyText(StyleOf(kind).length, m.body) + rest;
            var c := Drain(Conn(AfterConnection(kind, m, keepAlive), HeadersText(m.headers, order) + body));
         Recovered(c, kind, m, keepAlive, rest) <==> LengthAgrees(m) && |m.body| < 0x8000_0000
  {
    var q := AfterConnection(kind, m, keepAlive);
    var r := ReadAll(q, m.headers, order);
    HeadersRead(q, m.headers, order, BodyText(StyleOf(kind).length, m.body) + rest);
    AllRead(q, kind, m, keepAlive, order);
    if m.body == "" {
      LengthLeft(q, m, r);
    }
    LastRead(r, kind, m, keepAlive, rest);
  }

  lemma LastRead(p: Parser, kind: Kind, m: Message, keepAlive: bool, rest: string)
    requires m.status >= 0 && OnlyHeadersDiffer(AfterConnection(kind, m, keepAlive), p)
    requires m.body == "" ==> (p.contentLen == 0 <==> LengthAgrees(m))
    requires p.msg.headers == m.headers["connection" := Connection(StyleOf(kind), keepAlive)]
    ensures var c := Drain(Conn(p, BodyText(StyleOf(kind).length, m.body) + rest));
         Recovered(c, kind, m, keepAlive, rest) <==> LengthAgrees(m) && |m.body| < 0x8000_0000
  {
    var length := StyleOf(kind).length;
    DoneIsRecovered(p, kind, m, keepAlive, rest);
    if m.body != "" {
      BodyRead(p, length, m.body, rest);
      assert !Recovered(Conn(p.(threw := true), CRLF + m.body + rest), kind, m, keepAlive, rest);
    } else if p.contentLen == 0 {
      NoBodyRead(p, length, rest);
    } else {
      StrayLength(p, length, rest);
    }
  }

  // A length without a body makes the parser take its body from what follows the message.
  lemma StrayLength(p: Parser, length: string, rest: string)
    requires p.state == HEADER && !p.Stopped() && !p.chunked && p.contentLen != 0
    ensures Lost(Drain(Conn(p, BodyText(length, "") + rest)), "", rest)
  {
    LineStep(p, "", rest);
    assert BodyText(length, "") + rest == "" + CRLF + rest;
    var c := Conn(p.(state := BODY), rest);
    if CanStep(c) {
      StepConsumes(c);
      assert Step(c).p.finish && Step(c).p.msg.body == rest[..p.contentLen];
    }
  }

  lemma DoneIsRecovered(p: Parser, kind: Kind, m: Message, keepAlive: bool, rest: string)
    requires m.status >= 0 && OnlyHeadersDiffer(AfterConnection(kind, m, keepAlive), p)
    requires p.msg.headers == m.headers["connection" := Connection(StyleOf(kind), keepAlive)]
    ensures Recovered(Conn(Done(p, StyleOf(kind).length, m.body), rest), kind, m, keepAlive, rest)
  {
  }

  lemma FieldsRead(kind: Kind, m: Message, keepAlive: bool, order: seq<string>, rest: string)
    requires m.status >= 0 && Enumerates(order, m.headers)
    ensures var p := Start(kind).p.(msg := FirstMessage(kind, m), state := HEADER);
            var text := FieldsText(StyleOf(kind), m, keepAlive, order) + rest;
            var more := HeadersText(m.headers, order) + (BodyText(StyleOf(kind).length, m.body) + rest);
         Drain(Conn(p, text)) == Drain(Conn(AfterConnection(kind, m, keepAlive), more))
  {
    var more := HeadersText(m.headers, order) + (BodyText(StyleOf(kind).length, m.body) + rest);
    ConnectionRead(Start(kind).p.(msg := FirstMessage(kind, m), state := HEADER), kind, keepAlive, more);
    FieldsTextIs(StyleOf(kind), m, keepAlive, order, rest);
  }

  lemma FieldsTextIs(style: Style, m: Message, keepAlive: bool, order: seq<string>, rest: string)
    requires Enumerates(order, m.headers)
    ensures var c := Connection(style, keepAlive);
         FieldsText(style, m, keepAlive, order) + rest
         == HeaderOf(c.name, c.value) + CRLF + (HeadersText(m.headers, order) + (BodyText(style.length, m.body) + rest))
  {
    var c := Connection(style, keepAlive);
    var h, b := HeadersText(m.headers, order), BodyText(style.length, m.body);
    Assoc(HeaderOf(c.name, c.value) + CRLF, h + b, rest);
    Assoc(h, b, rest);
  }

  lemma FirstRead(kind: Kind, m: Message, rest: string)
    requires PlainFirst(kind, m)
    ensures Drain(Conn(Start(kind).p, FirstText(kind, m) + CRLF + rest))
         == Drain(Conn(Start(kind).p.(msg := FirstMessage(kind, m), state := HEADER), rest))
  {
    LineStep(Start(kind).p, FirstText(kind, m), rest);
    if kind == Request {
      RequestFirstRead(Start(kind).p, m);
    } else {
      ResponseFirstRead(Start(kind).p, m);
    }
  }

  lemma WholeRead(kind: Kind, m: Message, keepAlive: bool, order: seq<string>, rest: string)
    requires Plain(kind, m) && Enumerates(order, m.headers)
    ensures var fields := FieldsText(StyleOf(kind), m, keepAlive, order) + rest;
            var c := Drain(Conn(Start(kind).p, FirstText(kind, m) + CRLF + fields));
         Recovered(c, kind, m, keepAlive, rest) <==> Recoverable(m)
  {
    FirstRead(kind, m, FieldsText(StyleOf(kind), m, keepAlive, order) + rest);
    FieldsRead(kind, m, keepAlive, order, rest);
    if AllReadable(m.headers) {
      HeadersAndBodyRead(kind, m, keepAlive, order, rest);
    } else {
      UnreadableLost(AfterConnection(kind, m, keepAlive), m.headers, order, StyleOf(kind).length, m.body, rest);
    }
  }

  // Whatever order the headers are printed in, however the bytes are cut into reads and whatever
  // follows, parsing what dump printed recovers the message. It does so exactly when every header is
  // readable, a length agrees with a missing body, and the length of the body fits an int.
  lemma RoundTrip(kind: Kind, m: Message, keepAlive: bool, order: seq<string>, parts: seq<string>, rest: string)
    requires Plain(kind, m) && Enumerates(order, m.headers)
    requires Concat(parts) == Dumped(kind, m, keepAlive, order) + rest
    ensures Recovered(Feed(Start(kind), parts), kind, m, keepAlive, rest) <==> Recoverable(m)
  {
    Fragmentation(kind, parts);
    WholeRead(kind, m, keepAlive, order, rest);
    DumpedIs(kind, m, keepAlive, order, rest);
    assert "" + Concat(parts) == Concat(parts);
  }

  lemma DumpedIs(kind: Kind, m: Message, keepAlive: bool, order: seq<string>, rest: string)
    requires m.status >= 0 && Enumerates(order, m.headers)
    ensures Dumped(kind, m, keepAlive, order) + rest
         == FirstText(kind, m) + CRLF + (FieldsText(StyleOf(kind), m, keepAlive, order) + rest)
  {
    Assoc(FirstText(kind, m) + CRLF, FieldsText(StyleOf(kind), m, keepAlive, order), rest);
  }
}
