// reyao/bytearray.cc: a growable buffer with a prepend area in front. The readable window
// buf[readPos..writePos] is a byte queue.
module ByteArrays {
  import opened Prelude
  import opened Wire
  import opened TypedQueues

  const INIT_SIZE: nat := 1024
  const CHEAP_PREPEND: nat := 8

  predicate LineEnd(s: seq<byte>, i: int) { 0 <= i < |s| - 1 && s[i] == 13 && s[i + 1] == 10 }

  class ByteArray {
    var buf: array<byte>
    var readPos: nat
    var writePos: nat
    var endian: Endian
    const host: Endian

    ghost predicate Valid()
      reads this
    {
      readPos <= writePos <= buf.Length
    }

    // Holds unless reset or writePrepend moved the window into the prepend area.
    ghost predicate Aligned()
      reads this
    {
      Valid() && CHEAP_PREPEND <= readPos
    }

    ghost function Content(): (s: seq<byte>)
      reads this, buf
      requires Valid()
      ensures |s| == writePos - readPos
    {
      buf[readPos..writePos]
    }

    constructor (initSize: nat, host: Endian)
      ensures Aligned() && Content() == [] && fresh(buf) && this.host == host && endian == Big
      ensures readPos == CHEAP_PREPEND && buf.Length == CHEAP_PREPEND + initSize
    {
      buf := new byte[CHEAP_PREPEND + initSize];
      readPos, writePos := CHEAP_PREPEND, CHEAP_PREPEND;
      this.host := host;
      endian := Big;
    }

    // vector::resize
    method Resize(size: nat)
      requires Valid()
      modifies this`buf
      ensures fresh(buf) && buf.Length == size
      ensures forall i | 0 <= i < size && i < old(buf.Length) :: buf[i] == old(buf[i])
    {
      var b := new byte[size](i => 0);
      var i := 0;
      while i < size && i < buf.Length
        invariant i <= size && i <= buf.Length
        invariant forall j | 0 <= j < i :: b[j] == buf[j]
        modifies b
      {
        b[i] := buf[i];
        i := i + 1;
      }
      buf := b;
    }

    // std::copy to the left; source and target may overlap.
    method CopyLeft()
      requires Aligned()
      modifies buf
      ensures Aligned()
      ensures buf[CHEAP_PREPEND..CHEAP_PREPEND + (writePos - readPos)] == old(Content())
    {
      var n := writePos - readPos;
      var i := 0;
      while i < n
        invariant i <= n
        invariant buf[CHEAP_PREPEND..CHEAP_PREPEND + i] == old(Content())[..i]
        invariant buf[readPos + i..writePos] == old(Content())[i..]
        modifies buf
      {
        assert buf[readPos + i] == buf[readPos + i..writePos][0];
        buf[CHEAP_PREPEND + i] := buf[readPos + i];
        i := i + 1;
      }
    }

    ghost predicate Grows(size: nat)
      reads this
    {
      buf.Length - writePos + readPos < size + CHEAP_PREPEND
    }

    // False is the failed assertion at reyao/bytearray.cc:305.
    method AddCapacity(size: nat) returns (ok: bool)
      requires Valid()
      modifies this`buf, this`readPos, this`writePos, buf
      ensures ok <==> old(Aligned() || Grows(size))
      ensures buf == old(buf) || fresh(buf)
      ensures Valid() && Content() == old(Content())
      ensures ok ==> writePos + size <= buf.Length
      ensures old(Aligned()) ==> Aligned() && old(buf.Length) <= buf.Length
      ensures buf.Length == if old(Grows(size)) then old(writePos) + size else old(buf.Length)
      ensures readPos == if ok && !old(Grows(size)) then CHEAP_PREPEND else old(readPos)
    {
      if buf.Length - writePos + readPos < size + CHEAP_PREPEND {
        Resize(writePos + size);
        return true;
      }
      if readPos < CHEAP_PREPEND {
        return false;
      }
      CopyLeft();
      writePos := CHEAP_PREPEND + (writePos - readPos);
      readPos := CHEAP_PREPEND;
      ok := true;
    }

    // memcpy to the write position
    method Store(data: seq<byte>)
      requires Valid() && writePos + |data| <= buf.Length
      modifies this`writePos, buf
      ensures Valid() && Content() == old(Content()) + data && writePos == old(writePos) + |data|
    {
      var i := 0;
      while i < |data|
        invariant i <= |data|
        invariant buf[writePos..writePos + i] == data[..i]
        invariant buf[readPos..writePos] == old(Content())
        modifies buf
      {
        buf[writePos + i] := data[i];
        i := i + 1;
      }
      writePos := writePos + |data|;
    }

    method Write(data: seq<byte>) returns (ok: bool)
      requires Valid()
      modifies this`buf, this`readPos, this`writePos, buf
      ensures ok <==> data == [] || old(Aligned() || Grows(|data|))
      ensures buf == old(buf) || fresh(buf)
      ensures Valid() && Content() == if ok then old(Content()) + data else old(Content())
      ensures old(Aligned()) ==> Aligned() && old(buf.Length) <= buf.Length
      ensures ok && data != [] && !old(Aligned()) ==> !Aligned() && writePos == buf.Length
    {
      if data == [] {
        return true;
      }
      ok := AddCapacity(|data|);
      if ok {
        Store(data);
      }
    }

    // None is the out_of_range exception.
    method Read(n: nat) returns (r: Option<seq<byte>>)
      requires Valid()
      modifies this`readPos
      ensures Valid() && readPos >= old(readPos)
      ensures if n <= |old(Content())| then r == Some(old(Content())[..n]) && Content() == old(Content())[n..]
              else r.None? && Content() == old(Content())
    {
      if writePos - readPos < n {
        return None;
      }
      r := Some(buf[readPos..readPos + n]);
      assert r.value == Content()[..n];
      readPos := readPos + n;
    }

    // std::string(peek(), n): nothing checks n against the write position.
    method Peek(n: nat) returns (r: seq<byte>)
      requires Valid() && n <= |Content()|
      ensures r == Content()[..n]
    {
      r := buf[readPos..readPos + n];
    }

    // setReadPos(getReadPos() + n)
    method Skip(n: nat)
      requires Valid() && n <= |Content()|
      modifies this`readPos
      ensures Valid() && readPos >= old(readPos) && Content() == old(Content())[n..]
    {
      readPos := readPos + n;
    }

    // SocketStream::read, reyao/socket_stream.cc:28-39: reserve room for `size` bytes, let the socket
    // fill in those it has, and commit them.
    method Receive(size: nat, bytes: seq<byte>) returns (ok: bool)
      requires Valid() && |bytes| <= size
      modifies this`buf, this`readPos, this`writePos, buf
      ensures ok <==> old(Aligned() || Grows(size))
      ensures buf == old(buf) || fresh(buf)
      ensures Valid() && Content() == if ok then old(Content()) + bytes else old(Content())
      ensures old(Aligned()) ==> Aligned() && old(buf.Length) <= buf.Length
    {
      ok := AddCapacity(size);
      if ok {
        Store(bytes);
      }
    }

    // False is the failed assertion at reyao/bytearray.cc:316.
    method WritePrepend(data: seq<byte>) returns (ok: bool)
      requires Valid()
      modifies this`readPos, buf
      ensures ok <==> |data| <= old(readPos)
      ensures Valid() && writePos == old(writePos)
      ensures readPos == if ok then old(readPos) - |data| else old(readPos)
      ensures Content() == if ok then data + old(Content()) else old(Content())
    {
      if readPos < |data| {
        return false;
      }
      var start := readPos - |data|;
      var i := 0;
      while i < |data|
        invariant i <= |data|
        invariant buf[start..start + i] == data[..i]
        invariant buf[readPos..writePos] == old(Content())
        modifies buf
      {
        buf[start + i] := data[i];
        i := i + 1;
      }
      readPos := start;
      ok := true;
    }

    method Reset()
      requires Valid()
      modifies this`buf, this`readPos, this`writePos
      ensures fresh(buf) && Valid() && Content() == [] && readPos == 0 && buf.Length == INIT_SIZE
      ensures forall n: nat :: Grows(n) <==> n > INIT_SIZE - CHEAP_PREPEND
    {
      Resize(INIT_SIZE);
      readPos, writePos := 0, 0;
    }

    // std::search for "\r\n" in the readable window
    method FindCRLF() returns (r: Option<nat>)
      requires Valid()
      ensures r.Some? ==> LineEnd(Content(), r.value) && forall j | 0 <= j < r.value :: !LineEnd(Content(), j)
      ensures r.None? ==> forall j :: !LineEnd(Content(), j)
    {
      ghost var c := Content();
      var i := readPos;
      while i + 1 < writePos
        invariant readPos <= i
        invariant forall j | j < i - readPos :: !LineEnd(c, j)
      {
        assert buf[i] == c[i - readPos] && buf[i + 1] == c[i - readPos + 1];
        if buf[i] == 13 && buf[i + 1] == 10 {
          return Some(i - readPos);
        }
        i := i + 1;
      }
      r := None;
    }

    // ---- typed writes and reads ----

    method WriteInt(v: int, n: nat) returns (ok: bool)
      requires Valid() && n > 0
      modifies this`buf, this`readPos, this`writePos, buf
      ensures ok <==> old(Aligned() || Grows(n))
      ensures buf == old(buf) || fresh(buf)
      ensures Valid() && Content() == old(Content()) + if ok then IntBytes(endian, v, n) else []
      ensures old(Aligned()) ==> Aligned()
      ensures ok && !old(Aligned()) ==> !Aligned() && writePos == buf.Length
    {
      var value := Unsigned(v, n);
      SwapThenStore(host, value, n);
      if endian != host {
        value := ByteSwap(value, n);
      }
      ok := Write(Stored(host, value, n));
    }

    method ReadInt(n: nat, signed: bool) returns (r: Option<int>)
      requires Valid()
      modifies this`readPos
      ensures Valid() && readPos >= old(readPos)
      ensures match ReadItem(endian, IntShape(n, signed), old(Content()))
              case Got(it, rest) => r == Some(it.v) && Content() == rest
              case Short(rest) => r.None? && Content() == rest
    {
      var b := Read(n);
      if b.None? {
        return None;
      }
      var value := Loaded(host, b.value);
      LoadThenSwap(host, b.value);
      if endian != host {
        value := ByteSwap(value, n);
      }
      r := Some(if signed then AsSigned(value, n) else value);
    }

    // Once the length was written, the string never fails: it goes where the length went, or behind the
    // end, where it needs growth.
    method WriteString(s: seq<byte>, n: nat) returns (ok: bool)
      requires Valid() && n > 0
      modifies this`buf, this`readPos, this`writePos, buf
      ensures ok <==> old(Aligned() || Grows(n))
      ensures buf == old(buf) || fresh(buf)
      ensures Valid() && Content() == old(Content()) + if ok then ItemBytes(endian, StrItem(s, n)) else []
      ensures old(Aligned()) ==> Aligned()
    {
      ok := WriteInt(|s|, n);
      if !ok {
        return;
      }
      ok := Write(s);
      Assoc(old(Content()), IntBytes(endian, |s|, n), s);
    }

    method ReadString(n: nat) returns (r: Option<seq<byte>>)
      requires Valid()
      modifies this`readPos
      ensures Valid() && readPos >= old(readPos)
      ensures match ReadItem(endian, StrShape(n), old(Content()))
              case Got(it, rest) => r == Some(it.s) && Content() == rest
              case Short(rest) => r.None? && Content() == rest
    {
      var len := ReadInt(n, false);
      if len.None? {
        return None;
      }
      r := Read(len.value);
    }
  }
}
