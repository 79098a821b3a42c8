/** The chunked transfer coding as an encoder's output (section 7.1 of RFC 9112): the decoder accepts exactly that. */
module ChunkedCoding {
  import opened Wrappers
  import opened Texts
  import opened ChunkSize
  import opened ChunkedBody
  import opened Sequences

  /** A chunk as sent: its size line, extensions and padding included, and its data. */
  datatype Chunk = Chunk(line: string, data: string)

  predicate CrlfFree(s: string) {
    Find(s, CRLF, 0) == None
  }

  predicate GoodChunk(c: Chunk) {
    CrlfFree(c.line) && SizeOf(c.line) == Some(|c.data|) && 0 < |c.data| <= SIZE_MAX - 2
  }

  predicate GoodChunks(chunks: seq<Chunk>) {
    forall i | 0 <= i < |chunks| :: GoodChunk(chunks[i])
  }

  predicate GoodTrailers(trailers: seq<string>) {
    forall i | 0 <= i < |trailers| :: trailers[i] != "" && CrlfFree(trailers[i])
  }

  predicate GoodLast(last: string) {
    CrlfFree(last) && SizeOf(last) == Some(0)
  }

  function EncodeTrailers(trailers: seq<string>): string {
    if trailers == [] then CRLF else trailers[0] + CRLF + EncodeTrailers(trailers[1..])
  }

  function Encode(chunks: seq<Chunk>, last: string, trailers: seq<string>): string {
    if chunks == [] then last + CRLF + EncodeTrailers(trailers)
    else chunks[0].line + CRLF + (chunks[0].data + CRLF + Encode(chunks[1..], last, trailers))
  }

  /** What the decoder should make of it: chunk by chunk until the handler stops or the list ends. */
  function Expected(chunks: seq<Chunk>, last: string, trailers: seq<string>, rest: string, soFar: seq<string>,
                    handler: Handler)
    : Decoded
    decreases |chunks|
  {
    if chunks == [] then Decoded(Complete, soFar, rest)
    else
      var more := soFar + [chunks[0].data];
      if handler(more) then Expected(chunks[1..], last, trailers, rest, more, handler)
      else Decoded(Stopped, more, Encode(chunks[1..], last, trailers) + rest)
  }

  // ---------------------------------------------------------------- decoding an encoding

  lemma FirstLine(line: string, rest: string)
    requires CrlfFree(line)
    ensures Find(line + CRLF + rest, CRLF, 0) == Some(|line|)
    ensures (line + CRLF + rest)[..|line|] == line && (line + CRLF + rest)[|line| + 2..] == rest
  {
    var s := line + CRLF + rest;
    assert s[|line|..|line| + 2] == CRLF;
    forall j: nat | j < |line|
      ensures !At(s, CRLF, j)
    {
      assert !At(line, CRLF, j);
      if j + 2 <= |line| {
        assert s[j..j + 2] == line[j..j + 2];
      } else {
        assert s[j..j + 2][1] == '\r';
      }
    }
    FindIs(s, CRLF, 0, |line|);
  }

  lemma {:induction false} TrailersDecode(trailers: seq<string>, rest: string)
    requires GoodTrailers(trailers)
    ensures Trailers(EncodeTrailers(trailers) + rest) == Some(rest)
  {
    var s := EncodeTrailers(trailers) + rest;
    if trailers == [] {
      FirstLine("", rest);
      assert s == "" + CRLF + rest;
    } else {
      var later := EncodeTrailers(trailers[1..]) + rest;
      assert s == trailers[0] + CRLF + later;
      FirstLine(trailers[0], later);
      TrailersDecode(trailers[1..], rest);
    }
  }

  lemma ChunkDecodes(c: Chunk, later: string)
    requires GoodChunk(c)
    ensures SizeLine(c.line + CRLF + (c.data + CRLF + later)) == Some(Sized(|c.data|, c.data + CRLF + later))
    ensures Frame(c.data + CRLF + later, |c.data|) == Some(Framed(c.data, later))
  {
    var s := c.data + CRLF + later;
    FirstLine(c.line, s);
    assert s[|c.data|..|c.data| + 2] == CRLF && s[..|c.data|] == c.data && s[|c.data| + 2..] == later;
  }

  /** Decoding an encoding delivers its chunks in order, stops where the handler stops, and uses no byte beyond it. */
  lemma {:induction false} DecodeEncode(chunks: seq<Chunk>, last: string, trailers: seq<string>, rest: string,
                                        soFar: seq<string>, handler: Handler)
    requires GoodChunks(chunks) && GoodLast(last) && GoodTrailers(trailers)
    ensures Decode(Encode(chunks, last, trailers) + rest, soFar, handler)
         == Expected(chunks, last, trailers, rest, soFar, handler)
    decreases |chunks|
  {
    var s := Encode(chunks, last, trailers) + rest;
    if chunks == [] {
      var tail := EncodeTrailers(trailers) + rest;
      assert s == last + CRLF + tail;
      FirstLine(last, tail);
      TrailersDecode(trailers, rest);
    } else {
      var later := Encode(chunks[1..], last, trailers) + rest;
      assert s == chunks[0].line + CRLF + (chunks[0].data + CRLF + later);
      ChunkDecodes(chunks[0], later);
      DecodeEncode(chunks[1..], last, trailers, rest, soFar + [chunks[0].data], handler);
    }
  }

  function Datas(chunks: seq<Chunk>): (r: seq<string>)
    ensures |r| == |chunks| && forall i | 0 <= i < |r| :: r[i] == chunks[i].data
  {
    seq(|chunks|, i requires 0 <= i < |chunks| => chunks[i].data)
  }

  predicate Willing(handler: Handler, soFar: seq<string>, datas: seq<string>) {
    forall k | 1 <= k <= |datas| :: handler(soFar + datas[..k])
  }

  lemma {:induction false} WillingCompletes(chunks: seq<Chunk>, last: string, trailers: seq<string>, rest: string,
                                            soFar: seq<string>, handler: Handler)
    requires Willing(handler, soFar, Datas(chunks))
    ensures Expected(chunks, last, trailers, rest, soFar, handler) == Decoded(Complete, soFar + Datas(chunks), rest)
    decreases |chunks|
  {
    hide Encode;
    var d := Datas(chunks);
    if chunks != [] {
      var more := soFar + [chunks[0].data];
      assert d[..1] == [chunks[0].data];
      forall k | 1 <= k <= |Datas(chunks[1..])|
        ensures handler(more + Datas(chunks[1..])[..k])
      {
        assert soFar + d[..k + 1] == more + Datas(chunks[1..])[..k];
      }
      WillingCompletes(chunks[1..], last, trailers, rest, more, handler);
      assert more + Datas(chunks[1..]) == soFar + d;
    }
  }

  /**
   The round trip: whatever the size-line spelling, the extensions, the trailers and the bytes that
   follow, decoding completes with the concatenated data and leaves exactly what follows.
   */
  lemma ChunkedRoundTrip(chunks: seq<Chunk>, last: string, trailers: seq<string>, rest: string, handler: Handler)
    requires GoodChunks(chunks) && GoodLast(last) && GoodTrailers(trailers) && Willing(handler, [], Datas(chunks))
    ensures Decode(Encode(chunks, last, trailers) + rest, [], handler) == Decoded(Complete, Datas(chunks), rest)
  {
    DecodeEncode(chunks, last, trailers, rest, [], handler);
    WillingCompletes(chunks, last, trailers, rest, [], handler);
    assert [] + Datas(chunks) == Datas(chunks);
  }

  /** The plainest encoder: lower-case sizes, no extensions, no trailers. */
  function Plain(datas: seq<string>): (r: seq<Chunk>)
    ensures |r| == |datas|
  {
    seq(|datas|, i requires 0 <= i < |datas| => Chunk(HexText(|datas[i]|), datas[i]))
  }

  lemma PlainIsGood(datas: seq<string>)
    requires forall i | 0 <= i < |datas| :: 0 < |datas[i]| <= SIZE_MAX - 2
    ensures GoodChunks(Plain(datas)) && GoodLast(HexText(0)) && Datas(Plain(datas)) == datas
  {
    forall n: nat
      ensures CrlfFree(HexText(n)) && SizeOf(HexText(n)) == if n <= SIZE_MAX then Some(n) else None
    {
      SizeRoundTrip(n);
      NoLineEnd(HexText(n));
    }
  }

  lemma NoLineEnd(s: string)
    requires forall c | c in s :: c != '\r'
    ensures CrlfFree(s)
  {
    forall j: nat
      ensures !At(s, CRLF, j)
    {
      if j + 2 <= |s| {
        assert s[j..j + 2][0] == s[j] && s[j] in s;
      }
    }
  }

  // ---------------------------------------------------------------- whatever decodes is an encoding

  lemma SplitAtLine(s: string, e: nat)
    requires Find(s, CRLF, 0) == Some(e)
    ensures s == s[..e] + CRLF + s[e + 2..] && CrlfFree(s[..e])
  {
    assert s == s[..e] + s[e..e + 2] + s[e + 2..];
    var line := s[..e];
    if Find(line, CRLF, 0).Some? {
      var j := Find(line, CRLF, 0).value;
      assert line[j..j + 2] == s[j..j + 2];
      assert At(s, CRLF, j);
    }
  }

  lemma {:induction false} TrailersEncode(s: string) returns (trailers: seq<string>)
    requires Trailers(s).Some?
    ensures GoodTrailers(trailers) && s == EncodeTrailers(trailers) + Trailers(s).value
    decreases |s|
  {
    var e := Find(s, CRLF, 0).value;
    SplitAtLine(s, e);
    if e == 0 {
      trailers := [];
      assert s == CRLF + s[2..];
    } else {
      var more := TrailersEncode(s[e + 2..]);
      trailers := [s[..e]] + more;
      assert trailers[1..] == more;
      Assoc(s[..e] + CRLF, EncodeTrailers(more), Trailers(s).value);
    }
  }

  /** The first chunk of a stream, put back together. */
  lemma ChunkEncodes(s: string) returns (c: Chunk)
    requires SizeLine(s).Some? && SizeLine(s).value.size > 0
    requires Frame(SizeLine(s).value.rest, SizeLine(s).value.size).Some?
    ensures var f := Frame(SizeLine(s).value.rest, SizeLine(s).value.size).value;
            GoodChunk(c) && c.data == f.data && s == c.line + CRLF + (c.data + CRLF + f.rest)
  {
    hide Find, SizeOf, CrlfFree;
    var e := Find(s, CRLF, 0).value;
    SplitAtLine(s, e);
    var tail, n := s[e + 2..], SizeOf(s[..e]).value;
    assert tail == tail[..n] + tail[n..n + 2] + tail[n + 2..];
    c := Chunk(s[..e], tail[..n]);
  }

  lemma ConsGood(c: Chunk, more: seq<Chunk>)
    requires GoodChunk(c) && GoodChunks(more)
    ensures GoodChunks([c] + more) && Datas([c] + more) == [c.data] + Datas(more)
  {
    var chunks := [c] + more;
    assert forall i | 0 <= i < |chunks| :: chunks[i] == if i == 0 then c else more[i - 1];
  }

  lemma ConsEncode(c: Chunk, more: seq<Chunk>, last: string, trailers: seq<string>, rest: string, s: string,
                   later: string)
    requires s == c.line + CRLF + (c.data + CRLF + later) && later == Encode(more, last, trailers) + rest
    ensures s == Encode([c] + more, last, trailers) + rest
  {
    assert ([c] + more)[1..] == more;
    var e := Encode(more, last, trailers);
    Assoc(c.data + CRLF, e, rest);
    Assoc(c.line + CRLF, c.data + CRLF + e, rest);
  }

  /** A completing stream either ends here or starts with a chunk the handler took. */
  lemma DecodeStep(s: string, soFar: seq<string>, handler: Handler)
    requires Decode(s, soFar, handler).status == Complete && SizeLine(s).Some? && SizeLine(s).value.size > 0
    ensures Frame(SizeLine(s).value.rest, SizeLine(s).value.size).Some?
    ensures var f := Frame(SizeLine(s).value.rest, SizeLine(s).value.size).value;
            |f.rest| < |s| && Decode(s, soFar, handler) == Decode(f.rest, soFar + [f.data], handler)
  {
  }

  lemma LastEncodes(s: string, soFar: seq<string>, handler: Handler) returns (last: string, trailers: seq<string>)
    requires Decode(s, soFar, handler).status == Complete && SizeLine(s).Some? && SizeLine(s).value.size == 0
    ensures GoodLast(last) && GoodTrailers(trailers) && Decode(s, soFar, handler).chunks == soFar
    ensures s == Encode([], last, trailers) + Decode(s, soFar, handler).rest
  {
    var e := Find(s, CRLF, 0).value;
    SplitAtLine(s, e);
    last := s[..e];
    trailers := TrailersEncode(s[e + 2..]);
    Assoc(s[..e] + CRLF, EncodeTrailers(trailers), Trailers(s[e + 2..]).value);
  }

  /** The decoder accepts nothing else: a stream it completes on is the encoding of the chunks it delivered. */
  lemma {:induction false} EncodeDecode(s: string, soFar: seq<string>, handler: Handler)
    returns (chunks: seq<Chunk>, last: string, trailers: seq<string>)
    requires Decode(s, soFar, handler).status == Complete
    ensures GoodChunks(chunks) && GoodLast(last) && GoodTrailers(trailers)
    ensures s == Encode(chunks, last, trailers) + Decode(s, soFar, handler).rest
    ensures Decode(s, soFar, handler).chunks == soFar + Datas(chunks)
    decreases |s|
  {
    var line := SizeLine(s).value;
    if line.size == 0 {
      chunks := [];
      last, trailers := LastEncodes(s, soFar, handler);
      assert soFar + Datas(chunks) == soFar;
    } else {
      DecodeStep(s, soFar, handler);
      var c := ChunkEncodes(s);
      var f := Frame(line.rest, line.size).value;
      var more;
      more, last, trailers := EncodeDecode(f.rest, soFar + [f.data], handler);
      chunks := [c] + more;
      ConsGood(c, more);
      ConsEncode(c, more, last, trailers, Decode(f.rest, soFar + [f.data], handler).rest, s, f.rest);
      Assoc(soFar, [f.data], Datas(more));
    }
  }
}
