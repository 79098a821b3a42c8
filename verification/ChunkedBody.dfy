/**
 The incremental chunked decoder (section 7.1 of RFC 9112) over a transport that cuts the byte stream
 into reads as it likes, and the one-shot decoder it is proved equal to.
 */
module ChunkedBody {
  import opened Wrappers
  import opened Texts
  import opened ChunkSize

  const READ_SIZE := 8192
  const COMPACT_AT := 4096

  // ---------------------------------------------------------------- the transport

  /**
   A connection on which the peer sends `input` and then nothing more; `cut(k)` limits the k-th read. A read
   with nothing left to read would wait for a peer that keeps the connection open: `starved` records one.
   */
  class Transport {
    const input: string
    const cut: nat -> nat
    var consumed: nat
    var readCount: nat
    var starved: bool

    predicate Valid()
      reads this
    {
      consumed <= |input|
    }

    /** The bytes not yet read from the connection. */
    function Rest(): string
      reads this
      requires Valid()
    {
      input[consumed..]
    }

    /** From now on every read brings a single byte. */
    ghost predicate Slow()
      reads this
    {
      forall k | k >= readCount :: cut(k) <= 1
    }

    /** What the next read of at most `max` bytes will bring. */
    function NextRead(max: nat): string
      reads this
      requires Valid()
    {
      Rest()[..Min(Min(max, Max(1, cut(readCount))), |Rest()|)]
    }

    constructor (input: string, cut: nat -> nat)
      ensures Valid() && this.input == input && this.cut == cut && Rest() == input
      ensures readCount == 0 && !starved
    {
      this.input, this.cut := input, cut;
      consumed, readCount, starved := 0, 0, false;
    }

    /** At least one byte and at most `max`, or none when the stream has ended. */
    method ReadSome(max: nat) returns (data: string)
      requires Valid() && max > 0
      modifies this
      ensures Valid() && old(Rest()) == data + Rest() && data == old(NextRead(max))
      ensures |data| <= max && (data == "" <==> old(Rest()) == "")
      ensures starved <==> old(starved) || data == ""
      ensures readCount == old(readCount) + 1
    {
      var n := Min(Min(max, Max(1, cut(readCount))), |input| - consumed);
      data := input[consumed..consumed + n];
      consumed := consumed + n;
      readCount := readCount + 1;
      starved := starved || data == "";
    }
  }

  // ---------------------------------------------------------------- the one-shot decoder

  /** The body handler, told of every chunk so far: it may answer differently each time. */
  type Handler = seq<string> -> bool

  /** The handler that never stops. */
  predicate Always(chunks: seq<string>) {
    true
  }

  datatype Status = Complete | Stopped | ProtocolError

  /** `chunks` were handed to the handler in this order; `rest` is what follows the body. */
  datatype Decoded = Decoded(status: Status, chunks: seq<string>, rest: string)

  datatype Sized = Sized(size: nat, rest: string)

  datatype Framed = Framed(data: string, rest: string)

  /** Splits off the size line. */
  function SizeLine(s: string): (r: Option<Sized>)
    ensures r.Some? ==> |r.value.rest| < |s| && r.value.size <= SIZE_MAX
  {
    match Find(s, CRLF, 0)
    case None => None
    case Some(e) => match SizeOf(s[..e]) case None => None case Some(n) => Some(Sized(n, s[e + 2..]))
  }

  /** Splits off `n` bytes of data and the line end after them. */
  function Frame(s: string, n: nat): (r: Option<Framed>)
    ensures r.Some? ==> |r.value.rest| < |s| && |r.value.data| == n
  {
    if n + 2 > SIZE_MAX || |s| < n + 2 || s[n..n + 2] != CRLF then None
    else Some(Framed(s[..n], s[n + 2..]))
  }

  /** What follows the trailer section, which ends with the first empty line. */
  function Trailers(s: string): Option<string>
    decreases |s|
  {
    match Find(s, CRLF, 0)
    case None => None
    case Some(e) =>
      var rest := s[e + 2..];
      if e == 0 then Some(rest) else Trailers(rest)
  }

  function Decode(s: string, chunks: seq<string>, handler: Handler): Decoded
    decreases |s|
  {
    match SizeLine(s)
    case None => Decoded(ProtocolError, chunks, "")
    case Some(line) =>
      if line.size == 0 then
        match Trailers(line.rest)
        case None => Decoded(ProtocolError, chunks, "")
        case Some(rest) => Decoded(Complete, chunks, rest)
      else
        match Frame(line.rest, line.size)
        case None => Decoded(ProtocolError, chunks, "")
        case Some(f) =>
          if handler(chunks + [f.data]) then Decode(f.rest, chunks + [f.data], handler)
          else Decoded(Stopped, chunks + [f.data], f.rest)
  }

  function Concat(chunks: seq<string>): string {
    if chunks == [] then "" else chunks[0] + Concat(chunks[1..])
  }

  lemma {:induction false} ConcatSnoc(chunks: seq<string>, c: string)
    ensures Concat(chunks + [c]) == Concat(chunks) + c && Concat([]) == ""
  {
    if chunks == [] {
      assert chunks + [c] == [c] && [c][1..] == [];
    } else {
      assert (chunks + [c])[1..] == chunks[1..] + [c];
      ConcatSnoc(chunks[1..], c);
    }
  }

  // ---------------------------------------------------------------- reading ahead

  lemma Slices(buffer: string, pos: nat, rest: string, e: nat)
    requires pos + e + 2 <= |buffer|
    ensures (buffer[pos..] + rest)[..e] == buffer[pos..pos + e]
    ensures (buffer[pos..] + rest)[e + 2..] == buffer[pos + e + 2..] + rest
  {
  }

  /** A line end found in the buffer is the first one of everything still to come. */
  lemma FoundInBuffer(buffer: string, pos: nat, rest: string)
    requires pos <= |buffer| && Find(buffer, CRLF, pos).Some?
    ensures var e := Find(buffer, CRLF, pos).value - pos; var s := buffer[pos..] + rest;
            && Find(s, CRLF, 0) == Some(e) && pos + e + 2 <= |buffer|
            && s[..e] == buffer[pos..pos + e] && s[e + 2..] == buffer[pos + e + 2..] + rest
  {
    hide Find;
    FindShift(buffer, CRLF, pos);
    FindInPrefix(buffer[pos..], rest, CRLF, 0);
    Slices(buffer, pos, rest, Find(buffer, CRLF, pos).value - pos);
  }

  lemma NotFoundAtEnd(buffer: string, pos: nat)
    requires pos <= |buffer| && Find(buffer, CRLF, pos).None?
    ensures Find(buffer[pos..] + "", CRLF, 0) == None
  {
    FindShift(buffer, CRLF, pos);
    assert buffer[pos..] + "" == buffer[pos..];
  }

  lemma Grow(buffer: string, pos: nat, data: string, rest: string)
    requires pos <= |buffer|
    ensures (buffer + data)[pos..] + rest == buffer[pos..] + (data + rest)
  {
    assert (buffer + data)[pos..] == buffer[pos..] + data;
  }

  method EnsureLine(t: Transport, buffer: string, pos: nat) returns (buf: string, ok: bool)
    requires t.Valid() && pos <= |buffer|
    modifies t
    ensures t.Valid() && pos <= |buf|
    ensures buf[pos..] + t.Rest() == buffer[pos..] + old(t.Rest())
    ensures ok <==> Find(buf, CRLF, pos).Some?
    ensures !ok ==> t.Rest() == ""
    ensures t.starved <==> old(t.starved) || !ok
    ensures Find(buffer, CRLF, pos).Some? ==> buf == buffer && t.Rest() == old(t.Rest())
    ensures t.readCount >= old(t.readCount)
    ensures old(t.Slow()) && |buffer| == pos && ok ==> Find(buf, CRLF, pos).value + 2 == |buf|
  {
    buf := buffer;
    assert |buffer| == pos ==> Find(buf, CRLF, pos).None?;
    while Find(buf, CRLF, pos).None?
      invariant t.Valid() && pos <= |buf| && t.starved == old(t.starved) && t.readCount >= old(t.readCount)
      invariant old(t.Slow()) && |buffer| == pos && Find(buf, CRLF, pos).Some? ==>
                  Find(buf, CRLF, pos).value + 2 == |buf|
      invariant Find(buffer, CRLF, pos).Some? ==> buf == buffer && t.Rest() == old(t.Rest())
      invariant buf[pos..] + t.Rest() == buffer[pos..] + old(t.Rest())
      decreases |t.Rest()|
    {
      assert old(t.Slow()) ==> t.cut(t.readCount) <= 1;
      var data := t.ReadSome(READ_SIZE);
      if data == "" {
        return buf, false;
      }
      Grow(buf, pos, data, t.Rest());
      if |data| == 1 {
        assert data == [data[0]];
        FoundByLastByte(buf, pos, data[0]);
      }
      buf := buf + data;
    }
    ok := true;
  }

  /** The byte that completes the first line end is the last one. */
  lemma FoundByLastByte(buf: string, pos: nat, c: char)
    requires pos <= |buf| && Find(buf, CRLF, pos).None?
    ensures Find(buf + [c], CRLF, pos).Some? ==> Find(buf + [c], CRLF, pos).value + 2 == |buf + [c]|
  {
    var s := buf + [c];
    forall j: nat | pos <= j && j + 2 <= |buf|
      ensures !At(s, CRLF, j)
    {
      assert s[j..j + 2] == buf[j..j + 2];
      assert !At(buf, CRLF, j);
    }
  }

  method EnsureBuffer(t: Transport, buffer: string, pos: nat, needed: nat) returns (buf: string, ok: bool)
    requires t.Valid() && pos <= |buffer|
    modifies t
    ensures t.Valid() && pos <= |buf|
    ensures buf[pos..] + t.Rest() == buffer[pos..] + old(t.Rest())
    ensures ok <==> |buf| - pos >= needed
    ensures !ok ==> t.Rest() == ""
    ensures t.starved <==> old(t.starved) || !ok
    ensures |buffer| - pos >= needed ==> buf == buffer && t.Rest() == old(t.Rest())
    ensures t.readCount >= old(t.readCount)
    ensures |buffer| - pos <= needed && ok ==> |buf| == pos + needed
  {
    buf := buffer;
    while |buf| - pos < needed
      invariant t.readCount >= old(t.readCount)
      invariant |buffer| - pos <= needed ==> |buf| <= pos + needed
      invariant t.Valid() && pos <= |buf| && t.starved == old(t.starved)
      invariant |buffer| - pos >= needed ==> buf == buffer && t.Rest() == old(t.Rest())
      invariant buf[pos..] + t.Rest() == buffer[pos..] + old(t.Rest())
      decreases |t.Rest()|
    {
      var data := t.ReadSome(Min(READ_SIZE, needed - (|buf| - pos)));
      if data == "" {
        return buf, false;
      }
      Grow(buf, pos, data, t.Rest());
      buf := buf + data;
    }
    ok := true;
  }

  /** Everything still to come: what is buffered from `pos` on, then what is not yet read. */
  function Ahead(buffer: string, pos: nat, t: Transport): string
    requires t.Valid() && pos <= |buffer|
    reads t
  {
    buffer[pos..] + t.Rest()
  }

  /** A size line that is buffered as a whole. */
  lemma BufferedLine(buffer: string, pos: nat)
    requires pos <= |buffer|
    ensures SizeLine(buffer[pos..]).Some? ==>
              && Find(buffer, CRLF, pos).Some? && Find(buffer, CRLF, pos).value + 2 <= |buffer|
              && var e := Find(buffer, CRLF, pos).value;
                 SizeOf(buffer[pos..e]).Some?
                 && SizeLine(buffer[pos..]) == Some(Sized(SizeOf(buffer[pos..e]).value, buffer[e + 2..]))
  {
    hide SizeOf;
    FindShift(buffer, CRLF, pos);
    if Find(buffer, CRLF, pos).Some? {
      FoundInBuffer(buffer, pos, "");
      var e := Find(buffer, CRLF, pos).value;
      assert buffer[pos..] + "" == buffer[pos..] && buffer[e + 2..] + "" == buffer[e + 2..];
    }
  }

  method ReadSizeLine(t: Transport, buffer: string, pos: nat) returns (buf: string, next: nat, size: Option<nat>)
    requires t.Valid() && pos <= |buffer|
    modifies t
    ensures t.Valid() && next <= |buf|
    ensures size.Some? ==> SizeLine(old(Ahead(buffer, pos, t))) == Some(Sized(size.value, Ahead(buf, next, t)))
    ensures size.None? ==> SizeLine(old(Ahead(buffer, pos, t))) == None
    ensures size.Some? ==> t.starved == old(t.starved)
    ensures t.readCount >= old(t.readCount) && (old(t.Slow()) && |buffer| == pos && size.Some? ==> next == |buf|)
    ensures SizeLine(buffer[pos..]).Some? ==>
              t.Rest() == old(t.Rest()) && size.Some? && SizeLine(buffer[pos..]) == Some(Sized(size.value, buf[next..]))
  {
    hide Find, SizeOf;
    BufferedLine(buffer, pos);
    var ok;
    buf, ok := EnsureLine(t, buffer, pos);
    next, size := pos, None;
    if !ok {
      NotFoundAtEnd(buf, pos);
      return;
    }
    var lineEnd := Find(buf, CRLF, pos).value;
    FoundInBuffer(buf, pos, t.Rest());
    size := ParseChunkSize(buf[pos..lineEnd]);
    next := lineEnd + 2;
  }

  lemma NoTrailerEnd(s: string)
    requires Find(s, CRLF, 0).None?
    ensures Trailers(s) == None
  {
  }

  lemma TrailerStep(s: string, e: nat)
    requires Find(s, CRLF, 0) == Some(e) && e + 2 <= |s|
    ensures Trailers(s) == if e == 0 then Some(s[e + 2..]) else Trailers(s[e + 2..])
  {
    hide Find, At;
  }

  method ConsumeTrailers(t: Transport, buffer: string, pos: nat) returns (buf: string, next: nat, ok: bool)
    requires t.Valid() && pos <= |buffer|
    modifies t
    ensures t.Valid() && next <= |buf|
    ensures Trailers(old(Ahead(buffer, pos, t))) == if ok then Some(Ahead(buf, next, t)) else None
    ensures ok ==> t.starved == old(t.starved)
    ensures t.readCount >= old(t.readCount) && (old(t.Slow()) && |buffer| == pos && ok ==> next == |buf|)
  {
    hide Trailers, Find;
    buf, next := buffer, pos;
    while true
      invariant t.readCount >= old(t.readCount) && (old(t.Slow()) && |buffer| == pos ==> next == |buf|)
      invariant t.Valid() && next <= |buf| && t.starved == old(t.starved)
      invariant Trailers(old(Ahead(buffer, pos, t))) == Trailers(Ahead(buf, next, t))
      decreases |Ahead(buf, next, t)|
    {
      buf, ok := EnsureLine(t, buf, next);
      if !ok {
        NotFoundAtEnd(buf, next);
        NoTrailerEnd(Ahead(buf, next, t));
        return;
      }
      var lineEnd := Find(buf, CRLF, next).value;
      FoundInBuffer(buf, next, t.Rest());
      TrailerStep(Ahead(buf, next, t), lineEnd - next);
      if lineEnd == next {
        next := next + 2;
        return;
      }
      next := lineEnd + 2;
    }
  }

  lemma FrameInBuffer(buf: string, pos: nat, n: nat, rest: string)
    requires pos + n + 2 <= |buf| && n + 2 <= SIZE_MAX
    ensures var s := buf[pos..] + rest;
            Frame(s, n) == if buf[pos + n] == '\r' && buf[pos + n + 1] == '\n'
                           then Some(Framed(buf[pos..pos + n], buf[pos + n + 2..] + rest)) else None
  {
    var s := buf[pos..] + rest;
    assert s[n..n + 2] == [buf[pos + n], buf[pos + n + 1]];
    assert s[..n] == buf[pos..pos + n] && s[n + 2..] == buf[pos + n + 2..] + rest;
  }

  method ReadFrame(t: Transport, buffer: string, pos: nat, size: nat)
    returns (buf: string, next: nat, chunk: Option<string>)
    requires t.Valid() && pos <= |buffer| && size <= SIZE_MAX
    modifies t
    ensures t.Valid() && next <= |buf|
    ensures chunk.Some? ==> Frame(old(Ahead(buffer, pos, t)), size) == Some(Framed(chunk.value, Ahead(buf, next, t)))
    ensures chunk.None? ==> Frame(old(Ahead(buffer, pos, t)), size) == None
    ensures chunk.Some? ==> t.starved == old(t.starved)
    ensures t.readCount >= old(t.readCount)
    ensures Frame(buffer[pos..], size).Some? ==>
              t.Rest() == old(t.Rest()) && chunk.Some?
              && Frame(buffer[pos..], size) == Some(Framed(chunk.value, buf[next..]))
  {
    if pos + size + 2 <= |buffer| && size + 2 <= SIZE_MAX {
      FrameInBuffer(buffer, pos, size, "");
      assert buffer[pos..] + "" == buffer[pos..] && buffer[pos + size + 2..] + "" == buffer[pos + size + 2..];
    }
    buf, next, chunk := buffer, pos, None;
    var frameSize := (size + 2) % (SIZE_MAX + 1);
    if frameSize < size {
      return;
    }
    var ok;
    buf, ok := EnsureBuffer(t, buf, pos, frameSize);
    if !ok {
      return;
    }
    FrameInBuffer(buf, pos, size, t.Rest());
    if buf[pos + size] != '\r' || buf[pos + size + 1] != '\n' {
      return;
    }
    chunk := Some(buf[pos..pos + size]);
    next := pos + frameSize;
  }

  // ---------------------------------------------------------------- the incremental decoder

  /**
   However the transport cuts the stream into reads, and wherever the buffer is compacted, the status,
   the output and the chunks handed to the handler are those of the one-shot decoder, and what has not
   been used is still buffered or unread. Nothing is read while what is buffered will do, and nothing past
   the end of a body.
   */
  method ReadChunkedBody(t: Transport, initial: string, handler: Handler)
    returns (status: Status, output: string, chunks: seq<string>, ghost leftover: string)
    requires t.Valid()
    modifies t
    ensures t.Valid()
    ensures var d := Decode(initial + old(t.Rest()), [], handler);
            && status == d.status && chunks == d.chunks && output == Concat(d.chunks)
            && (status != ProtocolError ==> leftover + t.Rest() == d.rest)
    ensures status != ProtocolError ==> t.starved == old(t.starved)
    ensures var b := Decode(initial, [], handler);
            b.status == Stopped ==> status == Stopped && leftover == b.rest && t.Rest() == old(t.Rest())
    ensures t.readCount >= old(t.readCount)
  {
    var buffer, pos: nat := initial, 0;
    output, chunks, leftover := "", [], "";
    assert initial[0..] == initial;
    while true
      invariant t.Valid() && pos <= |buffer| && t.starved == old(t.starved) && t.readCount >= old(t.readCount)
      invariant Decode(initial, [], handler).status == Stopped ==>
                  Decode(initial, [], handler) == Decode(buffer[pos..], chunks, handler) && t.Rest() == old(t.Rest())
      invariant Decode(initial + old(t.Rest()), [], handler) == Decode(Ahead(buffer, pos, t), chunks, handler)
      invariant output == Concat(chunks)
      decreases |Ahead(buffer, pos, t)|
    {
      if pos > COMPACT_AT {
        buffer, pos := buffer[pos..], 0;
      }
      var size, chunk;
      buffer, pos, size := ReadSizeLine(t, buffer, pos);
      if size.None? {
        return ProtocolError, output, chunks, leftover;
      }
      if size.value == 0 {
        var ok;
        buffer, pos, ok := ConsumeTrailers(t, buffer, pos);
        leftover := buffer[pos..];
        return if ok then Complete else ProtocolError, output, chunks, leftover;
      }
      buffer, pos, chunk := ReadFrame(t, buffer, pos, size.value);
      if chunk.None? {
        return ProtocolError, output, chunks, leftover;
      }
      ConcatSnoc(chunks, chunk.value);
      output := output + chunk.value;
      chunks := chunks + [chunk.value];
      if !handler(chunks) {
        leftover := buffer[pos..];
        return Stopped, output, chunks, leftover;
      }
    }
  }

  // ---------------------------------------------------------------- draining after a stop

  /** Skips `n` bytes and a line end without looking at either; the frame size wraps at 64 bits. */
  function Skipped(s: string, n: nat): (r: Option<string>)
    ensures r.Some? ==> |r.value| <= |s|
  {
    var frameSize := (n + 2) % (SIZE_MAX + 1);
    if |s| < frameSize then None else Some(s[frameSize..])
  }

  /** What the drain accepts; the result is what follows the body. */
  function Drained(s: string): Option<string>
    decreases |s|
  {
    match SizeLine(s)
    case None => None
    case Some(line) =>
      if line.size == 0 then Trailers(line.rest)
      else match Skipped(line.rest, line.size) case None => None case Some(rest) => Drained(rest)
  }

  method SkipChunk(t: Transport, buffer: string, pos: nat, size: nat) returns (buf: string, next: nat, ok: bool)
    requires t.Valid() && pos <= |buffer|
    modifies t
    ensures t.Valid() && next <= |buf|
    ensures Skipped(old(Ahead(buffer, pos, t)), size) == if ok then Some(Ahead(buf, next, t)) else None
    ensures ok ==> t.starved == old(t.starved)
    ensures t.readCount >= old(t.readCount) && (|buffer| == pos && ok ==> next == |buf|)
  {
    var frameSize := (size + 2) % (SIZE_MAX + 1);
    next := pos;
    buf, ok := EnsureBuffer(t, buffer, pos, frameSize);
    if ok {
      assert Ahead(buf, pos, t)[frameSize..] == buf[pos + frameSize..] + t.Rest();
      next := pos + frameSize;
    }
    if next > COMPACT_AT {
      buf, next := buf[next..], 0;
    }
  }

  /**
   It starts with nothing buffered: what the decoder had read ahead when it was stopped is lost to it. What the
   drain reads ahead itself is `leftover`; there is none when the reads bring single bytes.
   */
  method DrainChunkedBody(t: Transport) returns (ok: bool, ghost leftover: string)
    requires t.Valid()
    modifies t
    ensures t.Valid()
    ensures ok ==> Drained(old(t.Rest())) == Some(leftover + t.Rest())
    ensures !ok ==> Drained(old(t.Rest())) == None
    ensures ok ==> t.starved == old(t.starved)
    ensures ok && old(t.Slow()) ==> leftover == ""
  {
    var buffer, pos: nat := "", 0;
    leftover := "";
    assert buffer[0..] + t.Rest() == t.Rest();
    while true
      invariant t.Valid() && pos <= |buffer| && t.starved == old(t.starved)
      invariant t.readCount >= old(t.readCount) && (old(t.Slow()) ==> pos == |buffer|)
      invariant Drained(old(t.Rest())) == Drained(Ahead(buffer, pos, t))
      decreases |Ahead(buffer, pos, t)|
    {
      var size;
      buffer, pos, size := ReadSizeLine(t, buffer, pos);
      if size.None? {
        return false, leftover;
      }
      if size.value == 0 {
        buffer, pos, ok := ConsumeTrailers(t, buffer, pos);
        leftover := buffer[pos..];
        return;
      }
      buffer, pos, ok := SkipChunk(t, buffer, pos, size.value);
      if !ok {
        return;
      }
    }
  }
}
