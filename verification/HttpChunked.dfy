// Chunked bodies (section 4.1 of RFC 7230) and their precedence over content-length (section 3.3.3).
module HttpChunked {
  import opened Prelude
  import opened HttpText
  import opened HttpParsing
  import opened HttpRoundTrip

  // A chunk and the hexadecimal line that announces it, in any case and with any leading zeros.
  datatype Chunk = Chunk(size: string, data: string) {
    predicate Valid() { AllHex(size) && HexValue(size) == |data| && 0 < |data| < 0x8000_0000 }
  }

  function ChunksText(chunks: seq<Chunk>): string {
    if chunks == [] then "" else chunks[0].size + CRLF + (chunks[0].data + CRLF) + ChunksText(chunks[1..])
  }

  // What the parser stores: the content of every chunk with the CRLF behind it.
  function Decoded(chunks: seq<Chunk>): string {
    if chunks == [] then "" else (chunks[0].data + CRLF) + Decoded(chunks[1..])
  }

  predicate BetweenChunks(p: Parser) {
    p.state == BODY && p.chunked && p.chunkSize == 0 && p.chunkState == CHUNK_SIZE && !p.Stopped()
  }

  lemma HexHasNoBreak(s: string)
    requires AllHex(s)
    ensures NoCRLF(s)
  {
    forall i ensures !CrlfAt(s, i) {
      if 0 <= i < |s| {
        assert IsHex(s[i]);
      }
    }
  }

  lemma SizeIs(line: string)
    requires AllHex(line) && HexValue(line) < 0x8000_0000
    ensures SizeT(HexToDec(line)) == HexValue(line)
  {
    HexAccIsValue(line);
    NarrowWiden(HexValue(line));
  }

  lemma SizeRead(p: Parser, line: string, n: nat)
    requires AllHex(line) && HexValue(line) == n < 0x8000_0000
    ensures ChunkLine(p, line) == if n == 0 then p.(chunkSize := 0, msg := p.msg.(body := p.body), finish := true)
                                  else p.(chunkSize := n, chunkState := CHUNK_CONTENT)
  {
    SizeIs(line);
  }

  lemma ContentRead(p: Parser, data: string, rest: string)
    requires p.state == BODY && p.chunked && p.chunkState == CHUNK_CONTENT && !p.Stopped()
    requires p.chunkSize == |data| && 0 < |data| < 0x8000_0000
    ensures Drain(Conn(p, data + CRLF + rest))
         == Drain(Conn(p.(body := p.body + (data + CRLF), chunkSize := 0, chunkState := CHUNK_SIZE), rest))
  {
    var c := Conn(p, data + CRLF + rest);
    var n := |data| + 2;
    assert ChunkNeeds(p) == n;
    assert c.input[..n] == data + CRLF && c.input[n..] == rest;
    assert CanStep(c) && Step(c) == Conn(ChunkContent(p, data + CRLF), rest);
    StepConsumes(c);
  }

  lemma ChunkRead(p: Parser, chunk: Chunk, rest: string)
    requires BetweenChunks(p) && chunk.Valid()
    ensures Drain(Conn(p, chunk.size + CRLF + (chunk.data + CRLF + rest)))
         == Drain(Conn(p.(body := p.body + (chunk.data + CRLF)), rest))
  {
    HexHasNoBreak(chunk.size);
    LineStep(p, chunk.size, chunk.data + CRLF + rest);
    SizeRead(p, chunk.size, |chunk.data|);
    ContentRead(p.(chunkSize := |chunk.data|, chunkState := CHUNK_CONTENT), chunk.data, rest);
  }

  lemma FirstChunk(chunks: seq<Chunk>, rest: string)
    requires chunks != []
    ensures ChunksText(chunks) + rest
         == chunks[0].size + CRLF + (chunks[0].data + CRLF + (ChunksText(chunks[1..]) + rest))
  {
    var (a, b, c) := (chunks[0].size + CRLF, chunks[0].data + CRLF, ChunksText(chunks[1..]));
    Assoc(a + b, c, rest);
    Assoc(a, b, c + rest);
  }

  // The parser finds exactly the chunk boundaries.
  lemma {:induction false} ChunksRead(p: Parser, chunks: seq<Chunk>, rest: string)
    requires BetweenChunks(p) && forall i | 0 <= i < |chunks| :: chunks[i].Valid()
    ensures Drain(Conn(p, ChunksText(chunks) + rest)) == Drain(Conn(p.(body := p.body + Decoded(chunks)), rest))
    decreases chunks
  {
    if chunks == [] {
      assert ChunksText(chunks) + rest == rest && p.body + Decoded(chunks) == p.body;
    } else {
      var (head, tail) := (chunks[0].data + CRLF, chunks[1..]);
      FirstChunk(chunks, rest);
      ChunkRead(p, chunks[0], ChunksText(tail) + rest);
      ChunksRead(p.(body := p.body + head), tail, rest);
      Assoc(p.body, head, Decoded(tail));
    }
  }

  lemma LastChunkRead(p: Parser, last: string, rest: string)
    requires BetweenChunks(p) && AllHex(last) && HexValue(last) == 0
    ensures Drain(Conn(p, last + CRLF + rest)) == Conn(p.(msg := p.msg.(body := p.body), finish := true), rest)
  {
    HexHasNoBreak(last);
    LineStep(p, last, rest);
    SizeRead(p, last, 0);
  }

  lemma ChunkedBodyRead(p: Parser, chunks: seq<Chunk>, last: string, rest: string)
    requires BetweenChunks(p) && p.body == ""
    requires forall i | 0 <= i < |chunks| :: chunks[i].Valid()
    requires AllHex(last) && HexValue(last) == 0
    ensures Drain(Conn(p, ChunksText(chunks) + (last + CRLF + rest)))
         == Conn(p.(body := Decoded(chunks), msg := p.msg.(body := Decoded(chunks)), finish := true), rest)
  {
    ChunksRead(p, chunks, last + CRLF + rest);
    assert "" + Decoded(chunks) == Decoded(chunks);
    LastChunkRead(p.(body := Decoded(chunks)), last, rest);
  }

  // ---- precedence ----

  function FieldsLines(fields: seq<Field>): string {
    if fields == [] then "" else HeaderOf(fields[0].name, fields[0].value) + CRLF + FieldsLines(fields[1..])
  }

  predicate SaysChunked(f: Field) { Key(f.name) == "transfer-encoding" && Key(f.value) == "chunked" }

  ghost predicate LineOk(f: Field) {
    && Free(f.name, ':') && (f.name != "" ==> f.name[0] != '\r')
    && f.value != "" && NoCRLF(HeaderOf(f.name, f.value))
  }

  // Content-lengths are looked at up to the first field that says chunked; there they must be numbers.
  predicate LengthsOk(fields: seq<Field>) {
    fields == [] || SaysChunked(fields[0])
    || ((Key(fields[0].name) == "content-length" ==> Stoi(fields[0].value).Some?) && LengthsOk(fields[1..]))
  }

  function AddAll(headers: map<string, Field>, fields: seq<Field>): map<string, Field>
    decreases fields
  {
    if fields == [] then headers else AddAll(AddHeader(headers, fields[0].name, fields[0].value), fields[1..])
  }

  function HeaderAll(p: Parser, fields: seq<Field>): Parser
    decreases fields
  {
    if fields == [] then p else HeaderAll(Header(p, fields[0].name, fields[0].value), fields[1..])
  }

  // The last field with key k, and the first.
  function LastOf(fields: seq<Field>, k: string): Option<Field> {
    if fields == [] then None
    else
      var f := fields[|fields| - 1];
      if Key(f.name) == k then Some(f) else LastOf(fields[..|fields| - 1], k)
  }

  function FirstOf(fields: seq<Field>, k: string): Option<Field> {
    if fields == [] then None else if Key(fields[0].name) == k then Some(fields[0]) else FirstOf(fields[1..], k)
  }

  lemma {:induction false} AddAllLast(h: map<string, Field>, fields: seq<Field>)
    requires fields != []
    ensures var (init, f) := (fields[..|fields| - 1], fields[|fields| - 1]);
         AddAll(h, fields) == AddHeader(AddAll(h, init), f.name, f.value)
    decreases fields
  {
    if |fields| > 1 {
      AddAllLast(AddHeader(h, fields[0].name, fields[0].value), fields[1..]);
      assert fields[1..][..|fields| - 2] == fields[..|fields| - 1][1..];
    }
  }

  lemma {:induction false} FirstOfInit(fields: seq<Field>, k: string)
    requires fields != []
    ensures var (init, f) := (fields[..|fields| - 1], fields[|fields| - 1]);
         FirstOf(fields, k) == if FirstOf(init, k).Some? then FirstOf(init, k)
                               else if Key(f.name) == k then Some(f) else None
  {
    if |fields| > 1 {
      assert fields[1..][..|fields| - 2] == fields[..|fields| - 1][1..];
      FirstOfInit(fields[1..], k);
    }
  }

  // Of fields whose names differ in case only, the header keeps the spelling of the first and the value
  // of the last.
  lemma {:induction false} LastValueWins(fields: seq<Field>, k: string)
    ensures var h := AddAll(map[], fields);
         && (k in h <==> LastOf(fields, k).Some?) && (LastOf(fields, k).Some? <==> FirstOf(fields, k).Some?)
         && (k in h ==> h[k] == Field(FirstOf(fields, k).value.name, LastOf(fields, k).value.value))
  {
    if fields != [] {
      LastValueWins(fields[..|fields| - 1], k);
      AddAllLast(map[], fields);
      FirstOfInit(fields, k);
    }
  }

  lemma HeaderKeeps(p: Parser, f: Field)
    requires p.chunked || SaysChunked(f) || (Key(f.name) == "content-length" ==> Stoi(f.value).Some?)
    ensures var r := Header(p, f.name, f.value);
         r == p.(chunked := p.chunked || SaysChunked(f), contentLen := r.contentLen,
                 msg := p.msg.(headers := AddHeader(p.msg.headers, f.name, f.value)))
  {
  }

  lemma {:induction false} HeaderAllIs(p: Parser, fields: seq<Field>)
    requires p.chunked || LengthsOk(fields)
    ensures var r := HeaderAll(p, fields);
         r == p.(chunked := p.chunked || (exists i | 0 <= i < |fields| :: SaysChunked(fields[i])),
                 contentLen := r.contentLen, msg := p.msg.(headers := AddAll(p.msg.headers, fields)))
    decreases fields
  {
    if fields != [] {
      var f, tail := fields[0], fields[1..];
      HeaderKeeps(p, f);
      HeaderAllIs(Header(p, f.name, f.value), tail);
      assert (exists i | 0 <= i < |fields| :: SaysChunked(fields[i]))
          <==> SaysChunked(f) || (exists i | 0 <= i < |tail| :: SaysChunked(tail[i])) by {
        assert forall i | 0 < i < |fields| :: fields[i] == tail[i - 1];
        assert forall i | 0 <= i < |tail| :: tail[i] == fields[i + 1];
      }
    }
  }

  lemma {:induction false} FieldsLinesRead(p: Parser, fields: seq<Field>, rest: string)
    requires p.state == HEADER && !p.Stopped() && (p.chunked || LengthsOk(fields))
    requires forall i | 0 <= i < |fields| :: LineOk(fields[i])
    ensures Drain(Conn(p, FieldsLines(fields) + rest)) == Drain(Conn(HeaderAll(p, fields), rest))
    decreases fields
  {
    if fields == [] {
      assert FieldsLines(fields) + rest == rest;
    } else {
      var f, tail := fields[0], fields[1..];
      HeaderKeeps(p, f);
      HeaderLineIs(p, f.name, f.value);
      LineStep(p, HeaderOf(f.name, f.value), FieldsLines(tail) + rest);
      Assoc(HeaderOf(f.name, f.value) + CRLF, FieldsLines(tail), rest);
      FieldsLinesRead(Header(p, f.name, f.value), tail, rest);
    }
  }

  function ChunkedText(kind: Kind, m: Message, fields: seq<Field>, chunks: seq<Chunk>, last: string): string
    requires m.status >= 0
  {
    FirstText(kind, m) + CRLF + (FieldsLines(fields) + (CRLF + (ChunksText(chunks) + (last + CRLF))))
  }

  lemma AfterFields(kind: Kind, m: Message, fields: seq<Field>, chunks: seq<Chunk>, last: string, rest: string)
    requires m.status >= 0 && (forall i | 0 <= i < |fields| :: LineOk(fields[i])) && LengthsOk(fields)
    requires exists i | 0 <= i < |fields| :: SaysChunked(fields[i])
    requires (forall i | 0 <= i < |chunks| :: chunks[i].Valid()) && AllHex(last) && HexValue(last) == 0
    ensures var p := Start(kind).p.(msg := FirstMessage(kind, m), state := HEADER);
            var c := Drain(Conn(p, FieldsLines(fields) + (CRLF + (ChunksText(chunks) + (last + CRLF + rest)))));
         && c.p.finish && !c.p.error && !c.p.threw && c.input == rest
         && c.p.msg == FirstMessage(kind, m).(headers := AddAll(map[], fields), body := Decoded(chunks))
  {
    var p := Start(kind).p.(msg := FirstMessage(kind, m), state := HEADER);
    var body := ChunksText(chunks) + (last + CRLF + rest);
    FieldsLinesRead(p, fields, CRLF + body);
    HeaderAllIs(p, fields);
    var q := HeaderAll(p, fields);
    LineStep(q, "", body);
    assert "" + CRLF + body == CRLF + body;
    ChunkedBodyRead(q.(state := BODY), chunks, last, rest);
  }

  // Whatever content-lengths a message carries and wherever its transfer-encoding stands among its
  // headers, the body is the chunks, however the stream is cut.
  lemma ChunkedWins(kind: Kind, m: Message, fields: seq<Field>, chunks: seq<Chunk>, last: string,
                    parts: seq<string>, rest: string)
    requires PlainFirst(kind, m) && (forall i | 0 <= i < |fields| :: LineOk(fields[i])) && LengthsOk(fields)
    requires exists i | 0 <= i < |fields| :: SaysChunked(fields[i])
    requires (forall i | 0 <= i < |chunks| :: chunks[i].Valid()) && AllHex(last) && HexValue(last) == 0
    requires Concat(parts) == ChunkedText(kind, m, fields, chunks, last) + rest
    ensures var c := Feed(Start(kind), parts);
         && c.p.finish && !c.p.error && !c.p.threw && c.input == rest
         && c.p.msg == FirstMessage(kind, m).(headers := AddAll(map[], fields), body := Decoded(chunks))
  {
    Fragmentation(kind, parts);
    var a, b, c, d := FirstText(kind, m) + CRLF, FieldsLines(fields), ChunksText(chunks), last + CRLF;
    Assoc(a, b + (CRLF + (c + d)), rest);
    Assoc(b, CRLF + (c + d), rest);
    Assoc(CRLF, c + d, rest);
    Assoc(c, d, rest);
    assert "" + Concat(parts) == Concat(parts);
    FirstRead(kind, m, b + (CRLF + (c + (d + rest))));
    AfterFields(kind, m, fields, chunks, last, rest);
  }
}
