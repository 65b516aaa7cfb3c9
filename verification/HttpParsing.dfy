// The incremental parser of reyao/http/http_parser.cc as a machine that takes one line, one chunk
// or one body at a time. Requests and responses differ in their first line only.
module HttpParsing {
  import opened Prelude
  import opened HttpText

  datatype Method = INVALID_METHOD | GET | HEAD | POST

  datatype Field = Field(name: string, value: string)

  // HttpRequest and HttpResponse. Headers are kept by case-insensitive key, with the spelling under
  // which a key was first added.
  datatype Message = Message(verb: Method, version: nat, path: string, query: string, fragment: string,
                             status: int, reason: string, headers: map<string, Field>, body: string)

  datatype Kind = Request | Response
  datatype ParseState = FIRST_LINE | HEADER | BODY
  datatype ChunkState = CHUNK_SIZE | CHUNK_CONTENT

  // `threw` is an exception leaving the parser.
  datatype Parser = Parser(kind: Kind, state: ParseState,
                           error: bool, finish: bool, threw: bool,
                           body: string, contentLen: nat, chunked: bool, chunkSize: nat, chunkState: ChunkState,
                           msg: Message) {
    predicate Stopped() { error || finish || threw }
  }

  // A parser and what arrived that it did not consume yet.
  datatype Conn = Conn(p: Parser, input: string)

  const NO_MESSAGE := Message(GET, 0x11, "/", "", "", 200, "", map[], "")

  function Start(kind: Kind): Conn {
    Conn(Parser(kind, FIRST_LINE, false, false, false, "", 0, false, 0, CHUNK_SIZE, NO_MESSAGE), "")
  }

  // reyao/http/http_request.cc:6-15; strcmp stops at a NUL.
  function StringToHttpMethod(s: string): Method {
    var c := CStr(s);
    if c == "GET" then GET else if c == "HEAD" then HEAD else if c == "POST" then POST else INVALID_METHOD
  }

  // reyao/http/http_response.cc:18-26
  predicate IsHttpStatus(status: int) {
    status == 200 || status == 301 || status == 400 || status == 401 || status == 404 || status == 500
  }

  function VersionOf(s: string): Option<nat> {
    if s == "HTTP/1.0" then Some(0x10) else if s == "HTTP/1.1" then Some(0x11) else None
  }

  // headers_[key] = value on a map with case-insensitive keys
  function AddHeader(headers: map<string, Field>, name: string, value: string): map<string, Field> {
    var k := Key(name);
    headers[k := Field(if k in headers then headers[k].name else name, value)]
  }

  // reyao/http/http_parser.cc:107-110, 184-206: cut off the fragment, then the query; the rest, from
  // the first '/', is the path.
  function ParseURI(m: Message, uri: string): Message {
    var h := Find(uri, '#');
    var m1 := if h < |uri| then m.(fragment := uri[h + 1..]) else m;
    var front := uri[..h];
    var q := Find(front, '?');
    var m2 := if q < h then m1.(query := front[q + 1..]) else m1;
    m2.(path := front[..q])
  }

  // reyao/http/http_parser.cc:75-113
  function RequestLine(p: Parser, line: string): Parser {
    var space := Find(line, ' ');
    if space == |line| then p.(error := true)
    else FromVerb(p, line, space)
  }

  function WithVerb(p: Parser, verb: Method): Parser { p.(msg := p.msg.(verb := verb)) }

  function FromVerb(p: Parser, line: string, space: nat): Parser
    requires space < |line|
  {
    TargetAndVersion(WithVerb(p, StringToHttpMethod(line[..space])), line[space + 1..])
  }

  function TargetAndVersion(p: Parser, rest: string): Parser {
    var space := Find(rest, ' ');
    if space == |rest| then p.(error := true)
    else
      match VersionOf(rest[space + 1..])
      case None => p.(error := true)
      case Some(v) =>
        var m := p.msg.(version := v);
        var slash := Find(rest[..space], '/');
        if slash == space then p.(msg := m, error := true)
        else p.(msg := ParseURI(m, rest[slash..space]), state := HEADER)
  }

  // reyao/http/http_parser.cc:259-292; the reason keeps the space in front of it.
  function StatusLine(p: Parser, line: string): Parser {
    var space := Find(line, ' ');
    if space == |line| then p.(error := true)
    else
      match VersionOf(line[..space])
      case None => p.(error := true)
      case Some(v) => StatusAndReason(p.(msg := p.msg.(version := v)), line[space + 1..])
  }

  function StatusAndReason(p: Parser, rest: string): Parser {
    var space := Find(rest, ' ');
    if space == |rest| then p.(error := true)
    else
      match Stoi(rest[..space])
      case None => p.(threw := true)
      case Some(status) =>
        if !IsHttpStatus(status) then p.(error := true)
        else p.(msg := p.msg.(status := status, reason := rest[space..]), state := HEADER)
  }

  function FirstLine(p: Parser, line: string): Parser {
    if p.kind == Request then RequestLine(p, line) else StatusLine(p, line)
  }

  // reyao/http/http_parser.cc:115-137. The value starts two characters after the colon: a line that
  // ends right at the colon makes a string of negative length, which throws.
  function HeaderLine(p: Parser, line: string): Parser {
    if line == "" || line[0] == '\r' then p.(state := BODY)
    else
      var colon := Find(line, ':');
      if colon == |line| || colon + 2 == |line| then p.(error := true)
      else if colon + 1 == |line| then p.(threw := true)
      else
        Header(p, line[..colon], line[colon + 2..])
  }

  // Chunked framing wins over a content-length, whichever comes first.
  function Header(p: Parser, title: string, value: string): Parser {
    var chunked := p.chunked || (Key(title) == "transfer-encoding" && Key(value) == "chunked");
    var m := p.msg.(headers := AddHeader(p.msg.headers, title, value));
    if !chunked && Key(title) == "content-length" then
      match Stoi(value)
      case None => p.(threw := true)
      case Some(n) => p.(contentLen := SizeT(n), msg := m)
    else p.(chunked := chunked, msg := m)
  }

  // reyao/http/http_parser.cc:141-159
  function ChunkLine(p: Parser, line: string): Parser {
    var size := SizeT(HexToDec(line));
    if size == SIZE_MOD - 1 then p.(chunkSize := size, error := true)
    else if size == 0 then p.(chunkSize := 0, msg := p.msg.(body := p.body), finish := true)
    else p.(chunkSize := size, chunkState := CHUNK_CONTENT)
  }

  // What the content of a chunk takes from the input: its CRLF is kept in the body. The addition
  // wraps around.
  function ChunkNeeds(p: Parser): nat { SizeT(p.chunkSize + 2) }

  function OnLine(p: Parser, line: string): Parser {
    match p.state
    case FIRST_LINE => FirstLine(p, line)
    case HEADER => HeaderLine(p, line)
    case BODY => ChunkLine(p, line)
  }

  predicate ByLine(p: Parser) { p.state != BODY || (p.chunked && p.chunkSize == 0) }

  // Whether the parser can go on with the input it has.
  predicate CanStep(c: Conn) {
    && !c.p.Stopped()
    && if ByLine(c.p) then FindCRLF(c.input).Some?
       else if !c.p.chunked then c.p.contentLen <= |c.input|
       else c.p.chunkState == CHUNK_CONTENT && ChunkNeeds(c.p) <= |c.input|
  }

  // reyao/http/http_parser.cc:173-182
  function FixedBody(p: Parser, bytes: string): Parser {
    if p.contentLen == 0 then p.(finish := true) else p.(msg := p.msg.(body := bytes), finish := true)
  }

  // reyao/http/http_parser.cc:161-165
  function ChunkContent(p: Parser, bytes: string): Parser {
    p.(body := p.body + bytes, chunkSize := 0, chunkState := CHUNK_SIZE)
  }

  function Step(c: Conn): Conn
    requires CanStep(c)
  {
    var p := c.p;
    if ByLine(p) then
      var e := FindCRLF(c.input).value;
      Conn(OnLine(p, c.input[..e]), c.input[e + 2..])
    else if p.chunked then
      Conn(ChunkContent(p, c.input[..ChunkNeeds(p)]), c.input[ChunkNeeds(p)..])
    else
      Conn(FixedBody(p, c.input[..p.contentLen]), c.input[p.contentLen..])
  }

  // Every step consumes input, or ends a chunk, or stops.
  ghost function Work(c: Conn): nat {
    3 * |c.input| + (if c.p.chunkSize != 0 then 1 else 0) + (if c.p.Stopped() then 0 else 1)
  }

  lemma StepConsumes(c: Conn)
    requires CanStep(c)
    ensures Work(Step(c)) < Work(c)
  {
    if ByLine(c.p) {
      assert |Step(c).input| <= |c.input| - 2;
    }
  }

  // Everything the parser does before it needs more input.
  function Drain(c: Conn): Conn
    decreases Work(c)
  {
    if CanStep(c) then StepConsumes(c); Drain(Step(c)) else c
  }

  function More(c: Conn, bytes: string): Conn { Conn(c.p, c.input + bytes) }

  // One read after the other.
  function Feed(c: Conn, parts: seq<string>): Conn {
    if parts == [] then c else Drain(More(Feed(c, parts[..|parts| - 1]), parts[|parts| - 1]))
  }

  function Concat(parts: seq<string>): string {
    if parts == [] then "" else Concat(parts[..|parts| - 1]) + parts[|parts| - 1]
  }

  // A step does not depend on what comes later.
  lemma StepStable(c: Conn, bytes: string)
    requires CanStep(c)
    ensures CanStep(More(c, bytes)) && Step(More(c, bytes)) == More(Step(c), bytes)
  {
    var n := if c.p.chunked then ChunkNeeds(c.p) else c.p.contentLen;
    if ByLine(c.p) {
      FindCRLFStable(c.input, bytes);
      n := FindCRLF(c.input).value + 2;
      assert (c.input + bytes)[..n - 2] == c.input[..n - 2];
    }
    assert (c.input + bytes)[..n] == c.input[..n];
    assert (c.input + bytes)[n..] == c.input[n..] + bytes;
  }

  // Feeding two pieces is feeding them joined.
  lemma {:induction false} DrainMore(c: Conn, bytes: string)
    ensures Drain(More(Drain(c), bytes)) == Drain(More(c, bytes))
    decreases Work(c)
  {
    if CanStep(c) {
      StepStable(c, bytes);
      StepConsumes(c);
      DrainMore(Step(c), bytes);
    }
  }

  lemma NothingYet(kind: Kind)
    ensures Drain(More(Start(kind), "")) == Start(kind)
  {
    assert More(Start(kind), "") == Start(kind) && !CanStep(Start(kind));
  }

  // However a stream is cut into reads, the parser ends where feeding it whole ends.
  lemma {:induction false} Fragmentation(kind: Kind, parts: seq<string>)
    ensures Feed(Start(kind), parts) == Drain(More(Start(kind), Concat(parts)))
  {
    if parts == [] {
      NothingYet(kind);
    } else {
      var (init, last) := (parts[..|parts| - 1], parts[|parts| - 1]);
      Fragmentation(kind, init);
      DrainMore(More(Start(kind), Concat(init)), last);
      Assoc("", Concat(init), last);
    }
  }

  // Two splittings of one stream: same verdict, same message, same bytes left over.
  lemma FragmentationIndependence(kind: Kind, a: seq<string>, b: seq<string>)
    requires Concat(a) == Concat(b)
    ensures Feed(Start(kind), a) == Feed(Start(kind), b)
  {
    Fragmentation(kind, a);
    Fragmentation(kind, b);
  }

  // What every reachable parser state keeps: while nothing went wrong, a chunk size is stored exactly
  // between a size line and the content after it. This excludes the one combination in which the loop
  // of reyao/http/http_parser.cc:140-170 would spin without consuming anything.
  predicate Sound(p: Parser) {
    && (!p.error ==> (p.chunkSize == 0 <==> p.chunkState == CHUNK_SIZE))
    && (p.state != BODY ==> p.chunkSize == 0 && !p.finish)
    && (p.chunked || p.chunkSize == 0)
    && p.contentLen < SIZE_MOD && p.chunkSize < SIZE_MOD
  }

  lemma OnLineSound(p: Parser, line: string)
    requires ByLine(p) && Sound(p) && !p.Stopped()
    ensures Sound(OnLine(p, line))
  {
    match p.state
    case FIRST_LINE =>
      RequestLineSound(p, line);
      StatusLineSound(p, line);
    case HEADER => HeaderLineSound(p, line);
    case BODY =>
  }

  lemma RequestLineSound(p: Parser, line: string)
    requires Sound(p) && p.state == FIRST_LINE
    ensures Sound(RequestLine(p, line))
  {
  }

  lemma StatusLineSound(p: Parser, line: string)
    requires Sound(p) && p.state == FIRST_LINE
    ensures Sound(StatusLine(p, line))
  {
  }

  lemma HeaderLineSound(p: Parser, line: string)
    requires Sound(p) && p.state == HEADER
    ensures Sound(HeaderLine(p, line))
  {
  }

  lemma StepSound(c: Conn)
    requires CanStep(c) && Sound(c.p)
    ensures Sound(Step(c).p)
  {
    if ByLine(c.p) {
      OnLineSound(c.p, c.input[..FindCRLF(c.input).value]);
    }
  }

  lemma {:induction false} DrainSound(c: Conn)
    requires Sound(c.p)
    ensures Sound(Drain(c).p) && !CanStep(Drain(c))
    decreases Work(c)
  {
    if CanStep(c) {
      StepSound(c);
      StepConsumes(c);
      DrainSound(Step(c));
    }
  }

  lemma {:induction false} AlwaysSound(kind: Kind, parts: seq<string>)
    ensures Sound(Feed(Start(kind), parts).p)
  {
    if parts != [] {
      var (init, last) := (parts[..|parts| - 1], parts[|parts| - 1]);
      AlwaysSound(kind, init);
      DrainSound(More(Feed(Start(kind), init), last));
    }
  }
}
