// The parser objects of reyao/http/http_parser.cc, working in place. `ba` is the readable window of
// the ByteArray. Requests and responses run the same loops; only their first lines differ.
module HttpParsers {
  import opened Prelude
  import opened HttpText
  import opened HttpParsing

  // reyao/util.cc:16-30
  method HexToDecimal(hex: string) returns (r: int)
    ensures r == HexToDec(hex)
    ensures AllHex(hex) ==> r == ToInt32(HexValue(hex))
    ensures !AllHex(hex) ==> r == -1
  {
    var res: nat := 0;
    var i := 0;
    while i < |hex|
      invariant i <= |hex| && AllHex(hex[..i]) && res == HexAcc(hex[..i])
    {
      var c := hex[i];
      assert hex[..i + 1][..i] == hex[..i];
      if IsDigit(c) {
        res := SizeT(res * 16 + (c as int - '0' as int));
      } else if 'A' <= UpperChar(c) <= 'F' {
        res := SizeT(res * 16 + (UpperChar(c) as int - 'A' as int + 10));
      } else {
        return -1;
      }
      i := i + 1;
    }
    assert hex[..i] == hex;
    r := ToInt32(res);
    HexAccIsValue(hex);
    AsSizeIs(HexValue(hex));
  }

  lemma {:induction false} DrainOf(c: Conn)
    requires CanStep(c)
    ensures Drain(Step(c)) == Drain(c)
  {
    StepConsumes(c);
  }

  lemma Progress(c: Conn)
    requires Sound(c.p)
    ensures !CanStep(Drain(c)) && Sound(Drain(c).p) && Drain(Drain(c)) == Drain(c)
    ensures CanStep(c) ==> Drain(Step(c)) == Drain(c) && Sound(Step(c).p) && Work(Step(c)) < Work(c)
  {
    DrainSound(c);
    if CanStep(c) {
      DrainOf(c);
      StepSound(c);
      StepConsumes(c);
    }
  }

  class HttpParser {
    const kind: Kind
    var ba: string
    var parseState: ParseState
    var error: bool
    var finish: bool
    var threw: bool
    var body: string
    var contentLen: nat
    var chunked: bool
    var chunkSize: nat
    var chunkState: ChunkState
    var msg: Message

    function P(): Parser
      reads this
    {
      Parser(kind, parseState, error, finish, threw, body, contentLen, chunked, chunkSize, chunkState, msg)
    }

    function State(): Conn
      reads this
    {
      Conn(P(), ba)
    }

    constructor (kind: Kind)
      ensures this.kind == kind && State() == Start(kind)
    {
      this.kind := kind;
      ba, body := "", "";
      parseState, chunkState := FIRST_LINE, CHUNK_SIZE;
      error, finish, threw, chunked := false, false, false, false;
      contentLen, chunkSize := 0, 0;
      msg := NO_MESSAGE;
    }

    // Cuts what follows the mark off uri, and returns what is in front of it.
    method ParseURI(uri: string, des: char) returns (front: string)
      requires des == '#' || des == '?' || (des == '/' && uri != "" && uri[0] == '/')
      modifies this`msg
      ensures var at := Find(uri, des);
        && front == uri[..at]
        && msg == if at == |uri| then old(msg)
                  else if des == '#' then old(msg).(fragment := uri[at + 1..])
                  else if des == '?' then old(msg).(query := uri[at + 1..])
                  else old(msg).(path := uri)
    {
      var temp := Find(uri, des);
      if temp != |uri| {
        match des
        case '#' => msg := msg.(fragment := uri[temp + 1..]);
        case '?' => msg := msg.(query := uri[temp + 1..]);
        case _ => msg := msg.(path := uri[temp..]);
      }
      front := uri[..temp];
    }

    method ParseTarget(target: string)
      requires target != "" && target[0] == '/'
      modifies this`msg
      ensures msg == HttpParsing.ParseURI(old(msg), target)
    {
      var rest := ParseURI(target, '#');
      var path := ParseURI(rest, '?');
      var _ := ParseURI(path, '/');
    }

    method ParseRequestLine(line: string)
      modifies this`msg, this`error, this`parseState
      ensures P() == RequestLine(old(P()), line)
    {
      var space := Find(line, ' ');
      if space == |line| {
        error := true;
      } else {
        ParseFromVerb(line, space);
      }
    }

    method ParseFromVerb(line: string, space: nat)
      requires space < |line|
      modifies this`msg, this`error, this`parseState
      ensures P() == FromVerb(old(P()), line, space)
    {
      SetVerb(StringToHttpMethod(line[..space]));
      ParseTargetAndVersion(line[space + 1..]);
    }

    method SetVerb(verb: Method)
      modifies this`msg
      ensures P() == WithVerb(old(P()), verb)
    {
      msg := msg.(verb := verb);
    }

    method ParseTargetAndVersion(rest: string)
      modifies this`msg, this`error, this`parseState
      ensures P() == TargetAndVersion(old(P()), rest)
    {
      var space := Find(rest, ' ');
      if space == |rest| {
        error := true;
        return;
      }
      var version := VersionOf(rest[space + 1..]);
      if version.None? {
        error := true;
        return;
      }
      msg := msg.(version := version.value);
      var begin := Find(rest[..space], '/');
      if begin == space {
        error := true;
        return;
      }
      ParseTarget(rest[begin..space]);
      parseState := HEADER;
    }

    method ParseStatusLine(line: string)
      modifies this`msg, this`error, this`threw, this`parseState
      ensures P() == StatusLine(old(P()), line)
    {
      var space := Find(line, ' ');
      if space == |line| {
        error := true;
        return;
      }
      var version := VersionOf(line[..space]);
      if version.None? {
        error := true;
        return;
      }
      msg := msg.(version := version.value);
      ParseStatusAndReason(line[space + 1..]);
    }

    method ParseStatusAndReason(rest: string)
      modifies this`msg, this`error, this`threw, this`parseState
      ensures P() == StatusAndReason(old(P()), rest)
    {
      var space := Find(rest, ' ');
      if space == |rest| {
        error := true;
        return;
      }
      var code := Stoi(rest[..space]);
      if code.None? {
        threw := true;
        return;
      }
      if !IsHttpStatus(code.value) {
        error := true;
        return;
      }
      msg := msg.(status := code.value, reason := rest[space..]);
      parseState := HEADER;
    }

    method ParseFirstLine(line: string)
      modifies this`msg, this`error, this`threw, this`parseState
      ensures P() == FirstLine(old(P()), line)
    {
      if kind == Request {
        ParseRequestLine(line);
      } else {
        ParseStatusLine(line);
      }
    }

    method ParseHeader(line: string)
      modifies this`msg, this`error, this`threw, this`parseState, this`chunked, this`contentLen
      ensures P() == HeaderLine(old(P()), line)
    {
      if line == "" || line[0] == '\r' {
        parseState := BODY;
        return;
      }
      var temp := Find(line, ':');
      if temp == |line| || temp + 2 == |line| {
        error := true;
        return;
      }
      if temp + 1 == |line| {
        threw := true;
        return;
      }
      SetHeader(line[..temp], line[temp + 2..]);
    }

    method SetHeader(title: string, value: string)
      modifies this`msg, this`threw, this`chunked, this`contentLen
      ensures P() == Header(old(P()), title, value)
    {
      if Key(title) == "transfer-encoding" && Key(value) == "chunked" {
        chunked := true;
      }
      if !chunked && Key(title) == "content-length" {
        var n := Stoi(value);
        if n.None? {
          threw := true;
          return;
        }
        contentLen := SizeT(n.value);
      }
      msg := msg.(headers := AddHeader(msg.headers, title, value));
    }

    method ParseChunkSize(line: string)
      modifies this`msg, this`error, this`finish, this`chunkSize, this`chunkState
      ensures P() == ChunkLine(old(P()), line)
    {
      var size := HexToDecimal(line);
      chunkSize := SizeT(size);
      if chunkSize == SIZE_MOD - 1 {
        error := true;
      } else if chunkSize == 0 {
        msg := msg.(body := body);
        finish := true;
      } else {
        chunkState := CHUNK_CONTENT;
      }
    }

    method TakeChunk()
      requires ChunkNeeds(P()) <= |ba|
      modifies this`ba, this`body, this`chunkSize, this`chunkState
      ensures State() == Conn(ChunkContent(old(P()), old(ba)[..ChunkNeeds(old(P()))]), old(ba)[ChunkNeeds(old(P()))..])
    {
      var n := ChunkNeeds(P());
      body := body + ba[..n];
      ba := ba[n..];
      chunkSize := 0;
      chunkState := CHUNK_SIZE;
    }

    // One round of the loop at reyao/http/http_parser.cc:140-170; `go` is false for its breaks.
    method ParseChunk() returns (go: bool)
      requires P().state == BODY && P().chunked && !P().Stopped() && Sound(P())
      modifies this
      ensures go ==> CanStep(old(State())) && State() == Step(old(State())) && !P().Stopped()
      ensures !go ==> (if CanStep(old(State())) then State() == Step(old(State())) && P().Stopped()
                       else State() == old(State()))
    {
      if chunkSize == 0 {
        var end := FindCRLF(ba);
        if end.None? {
          return false;
        }
        var line := ba[..end.value];
        ba := ba[end.value + 2..];
        ParseChunkSize(line);
        return !error && !finish;
      }
      if ChunkNeeds(P()) <= |ba| {
        TakeChunk();
        return true;
      }
      return false;
    }

    method ParseChunkedBody()
      requires P().state == BODY && P().chunked && !P().Stopped() && Sound(P())
      modifies this
      ensures State() == Drain(old(State()))
    {
      var go := true;
      while go
        invariant P().state == BODY && P().chunked && Sound(P())
        invariant go ==> !P().Stopped()
        invariant !go ==> !CanStep(State())
        invariant Drain(State()) == Drain(old(State()))
        decreases Work(State()), go
      {
        ghost var before := State();
        go := ParseChunk();
        if CanStep(before) {
          DrainOf(before);
          StepSound(before);
          StepConsumes(before);
        }
      }
    }

    method ParseFixedBody()
      requires P().state == BODY && !P().chunked && !P().Stopped()
      modifies this`msg, this`finish, this`ba
      ensures State() == Drain(old(State()))
    {
      if contentLen == 0 {
        finish := true;
      } else if contentLen <= |ba| {
        msg := msg.(body := ba[..contentLen]);
        ba := ba[contentLen..];
        finish := true;
      }
      if CanStep(old(State())) {
        DrainOf(old(State()));
      }
    }

    // One round over a first line or a header line.
    method ParseLine() returns (go: bool)
      requires P().state != BODY && !P().Stopped()
      modifies this`ba, this`msg, this`error, this`threw, this`parseState, this`chunked, this`contentLen
      ensures go <==> CanStep(old(State()))
      ensures State() == if go then Step(old(State())) else old(State())
    {
      var end := FindCRLF(ba);
      if end.None? {
        return false;
      }
      var line := ba[..end.value];
      ba := ba[end.value + 2..];
      if parseState == FIRST_LINE {
        ParseFirstLine(line);
      } else {
        ParseHeader(line);
      }
      return true;
    }

    // One round of the loop at reyao/http/http_parser.cc:39-70; `go` is false for its breaks.
    method ParseRound() returns (go: bool)
      requires !P().Stopped() && Sound(P())
      modifies this
      ensures go ==> CanStep(old(State())) && State() == Step(old(State())) && !P().finish
      ensures !go ==> State() == Drain(old(State()))
    {
      if parseState != BODY {
        go := ParseLine();
      } else {
        if chunked {
          ParseChunkedBody();
        } else {
          ParseFixedBody();
        }
        go := false;
      }
    }

    method ParseBuffered()
      requires !P().Stopped() && Sound(P())
      modifies this
      ensures State() == Drain(old(State()))
    {
      var go := true;
      while go && !error && !threw
        invariant Sound(P()) && (go ==> !finish)
        invariant !go ==> !CanStep(State())
        invariant Drain(State()) == Drain(old(State()))
        decreases go, Work(State())
      {
        ghost var before := State();
        go := ParseRound();
        Progress(before);
      }
    }

    // parseRequest and parseResponse, over what the reads return until the peer closes. The verdict
    // is that of feeding everything, although a parser that stops leaves the rest unread.
    method Parse(parts: seq<string>) returns (ok: bool, used: nat)
      requires Sound(P()) && !CanStep(State())
      requires forall i | 0 <= i < |parts| :: parts[i] != ""
      modifies this
      ensures used <= |parts| && State() == Feed(old(State()), parts[..used])
      ensures P() == Feed(old(State()), parts).p
      ensures ok <==> finish && !error && !threw
      ensures !P().Stopped() ==> used == |parts|
    {
      used := 0;
      while !finish && !error && !threw
        invariant used <= |parts| && State() == Feed(old(State()), parts[..used])
        invariant Sound(P())
        decreases |parts| - used
      {
        if used == |parts| {
          assert parts[..used] == parts;
          return false, used;
        }
        ba := ba + parts[used];
        used := used + 1;
        assert parts[..used][..used - 1] == parts[..used - 1];
        ghost var before := State();
        ParseBuffered();
        DrainSound(before);
      }
      StoppedStays(old(State()), parts, used);
      ok := !error && !threw;
    }
  }

  // Once the parser stopped, nothing it is fed changes it.
  lemma {:induction false} StoppedStays(c: Conn, parts: seq<string>, k: nat)
    requires k <= |parts| && Feed(c, parts[..k]).p.Stopped()
    ensures Feed(c, parts).p == Feed(c, parts[..k]).p
  {
    if k == |parts| {
      assert parts[..k] == parts;
    } else {
      var init := parts[..|parts| - 1];
      assert init[..k] == parts[..k];
      StoppedStays(c, init, k);
    }
  }
}
