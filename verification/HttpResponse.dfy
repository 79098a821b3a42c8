/** Reading one response and deciding whether its connection may be used again (section 6.3 of RFC 9112). */
module HttpResponse {
  import opened Wrappers
  import opened Texts
  import opened ChunkSize
  import opened ChunkedBody
  import opened ChunkedCoding
  import opened ChunkedDrain
  import opened Sequences

  datatype Length = Absent | Unreadable | Bytes(n: nat)

  /** What the framing decision reads of a header block; `close` is a Connection header that says so. */
  datatype Head = Head(status: int, chunked: bool, length: Length, close: bool)

  /** The header parser, left open: any interpretation of the block's text. */
  type HeaderParser = string -> Head

  datatype Response = Response(status: int, body: string, complete: bool, reusable: bool, stopped: bool)

  // ---------------------------------------------------------------- what a stream holds

  /** After the head: a body whose length the framing headers give, then `after`, on a connection kept open. */
  predicate FramesBody(head: Head, rest: string, after: string) {
    && !head.close
    && if head.chunked then Decode(rest, [], Always) == Decoded(Complete, Decode(rest, [], Always).chunks, after)
       else head.length.Bytes? && head.length.n <= |rest| && rest[head.length.n..] == after
  }

  /** `s` is one response whose length the framing headers give, followed by `after`, on a connection kept open. */
  predicate Frames(s: string, after: string, parse: HeaderParser) {
    match Find(s, BLANK, 0)
    case None => false
    case Some(e) => FramesBody(parse(s[..e]), s[e + 4..], after)
  }

  function FramedStatus(s: string, parse: HeaderParser): int {
    match Find(s, BLANK, 0) case None => 0 case Some(e) => parse(s[..e]).status
  }

  ghost predicate Obliging(handler: Handler) {
    forall chunks :: handler(chunks)
  }

  /** After the head: the response for a handler that never stops; without any delimiter the body is open-ended. */
  predicate HoldsBody(head: Head, rest: string, r: Response) {
    if head.chunked then
      var d := Decode(rest, [], Always);
      r == Response(head.status, Concat(d.chunks), d.status == Complete, d.status == Complete && !head.close, false)
    else match head.length
      case Unreadable => r == Response(head.status, "", false, false, false)
      case Bytes(n) =>
        r == if n <= |rest| then Response(head.status, rest[..n], true, !head.close, false)
             else Response(head.status, rest, false, false, false)
      case Absent =>
        if head.close then r == Response(head.status, rest, true, false, false)
        else r == Response(head.status, r.body, true, false, false) && r.body <= rest
  }

  /** The response a stream holds. */
  predicate Holds(s: string, parse: HeaderParser, r: Response) {
    match Find(s, BLANK, 0)
    case None => r == Response(0, s, false, false, false)
    case Some(e) => HoldsBody(parse(s[..e]), s[e + 4..], r)
  }

  /** What the decoder has not used when the handler stops a chunked body on a connection kept open. */
  function BodyAfterStop(head: Head, rest: string, handler: Handler): Option<string> {
    var d := Decode(rest, [], handler);
    if head.chunked && !head.close && d.status == Stopped then Some(d.rest) else None
  }

  function AfterStop(s: string, parse: HeaderParser, handler: Handler): Option<string> {
    match Find(s, BLANK, 0)
    case None => None
    case Some(e) => BodyAfterStop(parse(s[..e]), s[e + 4..], handler)
  }

  lemma AfterHead(s: string, e: nat, parse: HeaderParser, handler: Handler)
    requires Find(s, BLANK, 0) == Some(e)
    ensures AfterStop(s, parse, handler) == BodyAfterStop(parse(s[..e]), s[e + 4..], handler)
    ensures FramedStatus(s, parse) == parse(s[..e]).status
    ensures forall after :: Frames(s, after, parse) <==> FramesBody(parse(s[..e]), s[e + 4..], after)
    ensures forall r :: Holds(s, parse, r) <==> HoldsBody(parse(s[..e]), s[e + 4..], r)
  {
    hide FramesBody, HoldsBody, BodyAfterStop;
  }

  /** A framed response whose handler never stops it is declared reusable. */
  lemma FramedIsReusable(s: string, after: string, parse: HeaderParser, r: Response)
    requires Frames(s, after, parse) && Holds(s, parse, r)
    ensures r.reusable
  {
  }

  lemma {:induction false} CompleteWithoutStop(s: string, chunks: seq<string>, handler: Handler)
    requires Decode(s, chunks, handler).status == Complete || Obliging(handler)
    ensures Decode(s, chunks, handler) == Decode(s, chunks, Always)
    decreases |s|
  {
    if SizeLine(s).Some? && SizeLine(s).value.size > 0 {
      var f := Frame(SizeLine(s).value.rest, SizeLine(s).value.size);
      if f.Some? {
        CompleteWithoutStop(f.value.rest, chunks + [f.value.data], handler);
      }
    }
  }

  lemma {:induction false} ObligedNeverStops(s: string, chunks: seq<string>)
    ensures Decode(s, chunks, Always).status != Stopped
    decreases |s|
  {
    if SizeLine(s).Some? && SizeLine(s).value.size > 0 {
      var f := Frame(SizeLine(s).value.rest, SizeLine(s).value.size);
      if f.Some? {
        ObligedNeverStops(f.value.rest, chunks + [f.value.data]);
      }
    }
  }

  // ---------------------------------------------------------------- the header block

  method ReadHead(t: Transport) returns (buffer: string, headerEnd: Option<nat>)
    requires t.Valid()
    modifies t
    ensures t.Valid() && buffer + t.Rest() == old(t.Rest())
    ensures headerEnd == Find(buffer + t.Rest(), BLANK, 0)
    ensures headerEnd.Some? ==> headerEnd == Find(buffer, BLANK, 0)
    ensures headerEnd.None? ==> t.Rest() == ""
    ensures headerEnd.Some? ==> t.starved == old(t.starved) && t.readCount > old(t.readCount)
    ensures Find(old(t.NextRead(READ_SIZE)), BLANK, 0).Some? ==> buffer == old(t.NextRead(READ_SIZE))
  {
    buffer, headerEnd := "", None;
    assert Find(buffer, BLANK, 0) == None;
    hide Find;
    ghost var first := t.NextRead(READ_SIZE);
    while headerEnd.None?
      invariant t.Valid() && buffer + t.Rest() == old(t.Rest())
      invariant headerEnd == Find(buffer, BLANK, 0)
      invariant t.starved == old(t.starved) && t.readCount >= old(t.readCount)
      invariant headerEnd.Some? ==> t.readCount > old(t.readCount)
      invariant if t.readCount == old(t.readCount) then buffer == "" && t.Rest() == old(t.Rest())
                else Find(first, BLANK, 0).Some? ==> buffer == first && headerEnd.Some?
      decreases |t.Rest()|, headerEnd.None?
    {
      var data := t.ReadSome(READ_SIZE);
      if data == "" {
        Ends(buffer);
        return buffer, None;
      }
      Assoc(buffer, data, t.Rest());
      Ends(data);
      buffer := buffer + data;
      headerEnd := Find(buffer, BLANK, 0);
    }
    FindInPrefix(buffer, t.Rest(), BLANK, 0);
  }

  // ---------------------------------------------------------------- bodies of known length

  /** The pieces as the reads happen to deliver them go to the handler; `extra` is what was buffered beyond the body. */
  method ReadFixedBody(t: Transport, initial: string, total: nat, handler: Handler)
    returns (body: string, complete: bool, stopped: bool, ghost extra: string)
    requires t.Valid()
    modifies t
    ensures t.Valid()
    ensures complete ==> total <= |initial + old(t.Rest())|
    ensures complete ==> body == (initial + old(t.Rest()))[..total]
    ensures complete ==> extra + t.Rest() == (initial + old(t.Rest()))[total..]
    ensures !complete && !stopped ==> |initial + old(t.Rest())| < total && body == initial + old(t.Rest())
    ensures !(complete && stopped)
    ensures Obliging(handler) ==> !stopped
    ensures complete || stopped ==> t.starved == old(t.starved)
  {
    ghost var whole := initial + t.Rest();
    var pieces: seq<string> := [];
    var initialLen := Min(|initial|, total);
    body, extra := initial[..initialLen], initial[initialLen..];
    assert initial == body + extra;
    complete, stopped := false, false;
    if initialLen > 0 {
      pieces := [body];
      if !handler(pieces) {
        stopped := true;
        return;
      }
    }
    if |body| == total {
      complete := true;
      assert whole == body + (extra + t.Rest());
      return;
    }
    assert initial + t.Rest() == body + t.Rest();
    while |body| < total
      invariant t.Valid() && |body| <= total && whole == body + t.Rest() && extra == ""
      invariant t.starved == old(t.starved)
      decreases total - |body|
    {
      var data := t.ReadSome(Min(total - |body|, READ_SIZE));
      if data == "" {
        assert body + t.Rest() == body;
        return;
      }
      assert body + (data + t.Rest()) == body + data + t.Rest();
      body := body + data;
      pieces := pieces + [data];
      if !handler(pieces) {
        stopped := true;
        return;
      }
    }
    complete := true;
  }

  // ---------------------------------------------------------------- bodies without a length

  method ReadToEnd(t: Transport, initial: string, pieces: seq<string>, handler: Handler)
    returns (body: string, complete: bool)
    requires t.Valid()
    modifies t
    ensures t.Valid()
    ensures complete ==> body == initial + old(t.Rest())
    ensures Obliging(handler) ==> complete
  {
    body := initial;
    var seen := pieces;
    while true
      invariant t.Valid() && initial + old(t.Rest()) == body + t.Rest()
      decreases |t.Rest()|
    {
      var data := t.ReadSome(READ_SIZE);
      if data == "" {
        assert body + t.Rest() == body;
        return body, true;
      }
      assert body + (data + t.Rest()) == body + data + t.Rest();
      body := body + data;
      seen := seen + [data];
      if !handler(seen) {
        return body, false;
      }
    }
  }

  // ---------------------------------------------------------------- the response

  /**
   Without a stop the response is that of the one-shot decoder. After a stop on a connection kept open, the
   decoder's buffer is `dropped`, the drain runs on what is `unread`, and it alone decides about reuse.
   */
  method ReadChunkedResponse(t: Transport, head: Head, initial: string, handler: Handler)
    returns (r: Response, ghost leftover: string, ghost dropped: string, ghost unread: string)
    requires t.Valid() && head.chunked
    modifies t
    ensures t.Valid() && r.status == head.status
    ensures r.reusable ==> r.complete && !head.close && t.starved == old(t.starved)
    ensures var d := Decode(initial + old(t.Rest()), [], handler);
            && r.body == Concat(d.chunks) && r.complete == (d.status != ProtocolError)
            && r.stopped == (d.status == Stopped)
            && (!r.stopped ==> (r.reusable <==> d.status == Complete && !head.close))
            && (d.status == Complete ==> leftover + t.Rest() == d.rest)
            && (r.stopped && !head.close ==>
                  && d.rest == dropped + unread && (r.reusable <==> Drained(unread).Some?)
                  && (r.reusable ==> Drained(unread) == Some(leftover + t.Rest())))
    ensures var b := Decode(initial, [], handler);
            b.status == Stopped ==> dropped == b.rest && unread == old(t.Rest())
    ensures old(t.Slow()) && r.stopped && r.reusable ==> leftover == ""
  {
    var status, body, chunks;
    status, body, chunks, leftover := ReadChunkedBody(t, initial, handler);
    dropped, unread := leftover, t.Rest();
    var reusable := status == Complete && !head.close;
    if status == Stopped && !head.close {
      var drained;
      drained, leftover := DrainChunkedBody(t);
      reusable := drained;
    }
    r := Response(head.status, body, status != ProtocolError, reusable, status == Stopped);
  }

  method ReadFixedResponse(t: Transport, head: Head, initial: string, handler: Handler)
    returns (r: Response, ghost leftover: string)
    requires t.Valid() && head.length.Bytes?
    modifies t
    ensures t.Valid() && r.status == head.status
    ensures r.reusable <==> r.complete && !head.close
    ensures r.reusable ==> t.starved == old(t.starved)
    ensures r.complete ==> !r.stopped && head.length.n <= |initial + old(t.Rest())|
    ensures r.complete ==> r.body == (initial + old(t.Rest()))[..head.length.n]
    ensures r.complete ==> leftover + t.Rest() == (initial + old(t.Rest()))[head.length.n..]
    ensures !r.complete && !r.stopped ==> |initial + old(t.Rest())| < head.length.n && r.body == initial + old(t.Rest())
    ensures Obliging(handler) ==> !r.stopped
  {
    var body, complete, stopped;
    body, complete, stopped, leftover := ReadFixedBody(t, initial, head.length.n, handler);
    r := Response(head.status, body, complete, complete && !head.close, stopped);
  }

  method ReadOpenResponse(t: Transport, head: Head, initial: string, handler: Handler) returns (r: Response)
    requires t.Valid()
    modifies t
    ensures t.Valid() && r.status == head.status && !r.reusable
    ensures Obliging(handler) ==> r.complete && !r.stopped && r.body <= initial + old(t.Rest())
    ensures Obliging(handler) && head.close ==> r.body == initial + old(t.Rest())
  {
    if initial != "" && !handler([initial]) {
      return Response(head.status, initial, false, false, true);
    }
    if !head.close {
      return Response(head.status, initial, true, false, false);
    }
    var body, complete := ReadToEnd(t, initial, if initial == "" then [] else [initial], handler);
    r := Response(head.status, body, complete, false, false);
  }

  /** The body by the framing headers: chunked, of a length, or to the end. */
  method ReadBody(t: Transport, head: Head, initial: string, handler: Handler)
    returns (r: Response, ghost leftover: string, ghost dropped: string, ghost unread: string)
    requires t.Valid()
    modifies t
    ensures t.Valid()
    ensures Obliging(handler) ==> HoldsBody(head, initial + old(t.Rest()), r) && !r.stopped
    ensures r.reusable && !r.stopped ==> FramesBody(head, initial + old(t.Rest()), leftover + t.Rest())
    ensures r.reusable ==> t.starved == old(t.starved)
    ensures var rest := BodyAfterStop(head, initial + old(t.Rest()), handler);
            && (r.reusable && r.stopped ==> rest.Some?)
            && (rest.Some? ==>
                  && r.stopped && r.complete && r.status == head.status
                  && rest.value == dropped + unread && (r.reusable <==> Drained(unread).Some?)
                  && (r.reusable ==> Drained(unread) == Some(leftover + t.Rest())))
    ensures var b := BodyAfterStop(head, initial, handler);
            b.Some? ==>
              && dropped == b.value && unread == old(t.Rest())
              && (old(t.Slow()) && r.reusable ==> leftover == "")
  {
    hide Drained, Concat;
    leftover, dropped, unread := "", "", "";
    if head.chunked {
      ghost var rest := initial + t.Rest();
      if Decode(rest, [], handler).status == Complete || Obliging(handler) {
        CompleteWithoutStop(rest, [], handler);
      }
      ObligedNeverStops(rest, []);
      StopExtends(initial, [], handler, t.Rest());
      hide Decode;
      r, leftover, dropped, unread := ReadChunkedResponse(t, head, initial, handler);
      return;
    }
    hide Decode;
    match head.length {
      case Unreadable =>
        r := Response(head.status, "", false, false, false);
      case Bytes(n) =>
        r, leftover := ReadFixedResponse(t, head, initial, handler);
      case Absent =>
        r := ReadOpenResponse(t, head, initial, handler);
    }
  }

  /**
   Under every way the stream is cut into reads: a handler that never stops gets the response the stream holds;
   a response that is declared reusable was read without waiting for more than the peer sends; without a stop it
   has been read to its very end, and after a stop to where the drain took the end for.
   */
  method ReadResponse(t: Transport, parse: HeaderParser, handler: Handler)
    returns (r: Response, ghost leftover: string, ghost dropped: string, ghost unread: string)
    requires t.Valid()
    modifies t
    ensures t.Valid()
    ensures Obliging(handler) ==> Holds(old(t.Rest()), parse, r)
    ensures r.reusable && !r.stopped ==> Frames(old(t.Rest()), leftover + t.Rest(), parse)
    ensures Obliging(handler) ==> !r.stopped
    ensures r.reusable ==> t.starved == old(t.starved)
    ensures var rest := AfterStop(old(t.Rest()), parse, handler);
            && (r.reusable && r.stopped ==> rest.Some?)
            && (rest.Some? ==>
                  && r.stopped && r.complete && r.status == FramedStatus(old(t.Rest()), parse)
                  && rest.value == dropped + unread && (r.reusable <==> Drained(unread).Some?)
                  && (r.reusable ==> Drained(unread) == Some(leftover + t.Rest())))
    ensures var first := old(t.NextRead(READ_SIZE));
            && (AfterStop(first, parse, handler).Some? ==>
                  && dropped == AfterStop(first, parse, handler).value && unread == old(t.Rest())[|first|..]
                  && (old(SlowAfterFirst(t)) && r.reusable ==> leftover == ""))
  {
    hide FramesBody, HoldsBody, BodyAfterStop, Drained, FramedStatus;
    leftover, dropped, unread := "", "", "";
    ghost var first := t.NextRead(READ_SIZE);
    ghost var slow := SlowAfterFirst(t);
    var buffer, headerEnd := ReadHead(t);
    if headerEnd.None? {
      Ends(buffer);
      return Response(0, buffer, false, false, false), leftover, dropped, unread;
    }
    var e := headerEnd.value;
    ghost var whole := buffer + t.Rest();
    assert whole[..e] == buffer[..e] && whole[e + 4..] == buffer[e + 4..] + t.Rest();
    assert slow ==> t.Slow();
    AfterHead(whole, e, parse, handler);
    if Find(first, BLANK, 0).Some? {
      assert whole[|first|..] == t.Rest();
      AfterHead(first, e, parse, handler);
    }
    hide AfterStop, Frames, Holds;
    r, leftover, dropped, unread := ReadBody(t, parse(buffer[..e]), buffer[e + 4..], handler);
  }

  /** From the second read on every read brings a single byte. */
  ghost predicate SlowAfterFirst(t: Transport)
    reads t
  {
    forall k | k > t.readCount :: t.cut(k) <= 1
  }

  // ---------------------------------------------------------------- releasing the connection

  datatype Sent = Sent(response: Response, released: bool)

  /** The exception for a pooled TLS connection the server has closed. */
  datatype SendError = PooledConnectionClosed

  /**
   A released connection stands at the end of the response if the handler did not stop it, and after a stop if
   what was dropped then is no hazard; it never was read from for longer than the peer sent.
   */
  method SendWithTransport(t: Transport, parse: HeaderParser, handler: Handler, keepAlive: bool, reusedTls: bool)
    returns (r: Result<Sent, SendError>, ghost leftover: string, ghost dropped: string, ghost unread: string)
    requires t.Valid()
    modifies t
    ensures t.Valid()
    ensures r.Success? && r.value.released ==>
              && keepAlive && r.value.response.status > 0 && r.value.response.complete && t.starved == old(t.starved)
    ensures r.Success? && r.value.released && !r.value.response.stopped ==>
              Frames(old(t.Rest()), leftover + t.Rest(), parse)
    ensures r.Success? && r.value.released && Frames(old(t.Rest()), "", parse)
            && (r.value.response.stopped ==> !Hazard(dropped)) ==>
              leftover == "" && t.Rest() == ""
    ensures Obliging(handler) && keepAlive && Frames(old(t.Rest()), "", parse) ==>
              (r.Success? && r.value.released <==> FramedStatus(old(t.Rest()), parse) > 0)
    ensures var rest := AfterStop(old(t.Rest()), parse, handler);
            rest.Some? && FramedStatus(old(t.Rest()), parse) > 0 ==>
              && rest.value == dropped + unread && r.Success? && r.value.response.stopped
              && (r.value.released <==> keepAlive && Drained(unread).Some?)
              && (r.value.released ==> Drained(unread) == Some(leftover + t.Rest()))
    ensures var first := old(t.NextRead(READ_SIZE));
            AfterStop(first, parse, handler).Some? ==>
              && dropped == AfterStop(first, parse, handler).value && unread == old(t.Rest())[|first|..]
              && (old(SlowAfterFirst(t)) && r.Success? && r.value.released ==> leftover == "")
  {
    var response;
    response, leftover, dropped, unread := ReadResponse(t, parse, handler);
    if response.reusable && Frames(old(t.Rest()), "", parse) {
      if !response.stopped {
        FramesOnce(old(t.Rest()), leftover + t.Rest(), "", parse);
        assert leftover + t.Rest() == "";
      } else if !Hazard(dropped) {
        StoppedEndsRight(old(t.Rest()), parse, handler, dropped, unread);
        assert leftover + t.Rest() == "";
      }
    }
    if response.status == 0 && reusedTls {
      return Failure(PooledConnectionClosed), leftover, dropped, unread;
    }
    var release := keepAlive && response.complete && response.reusable && response.status > 0;
    return Success(Sent(response, release)), leftover, dropped, unread;
  }

  lemma StoppedEndsRight(s: string, parse: HeaderParser, handler: Handler, dropped: string, unread: string)
    requires Frames(s, "", parse) && AfterStop(s, parse, handler) == Some(dropped + unread)
    requires !Hazard(dropped) && Drained(unread).Some?
    ensures Drained(unread) == Some("")
  {
    var rest := s[Find(s, BLANK, 0).value + 4..];
    BodyEndIsDecoded(rest, []);
    StopKeepsEnd(rest, [], handler);
    HarmlessWithout(dropped, unread);
  }

  /** Where a framed response ends is determined by the stream. */
  lemma FramesOnce(s: string, a: string, b: string, parse: HeaderParser)
    requires Frames(s, a, parse) && Frames(s, b, parse)
    ensures a == b
  {
  }

  // ---------------------------------------------------------------- responses as a peer sends them

  lemma HeadEnds(block: string, body: string)
    requires Find(block + BLANK, BLANK, 0) == Some(|block|)
    ensures Find(block + BLANK + body, BLANK, 0) == Some(|block|)
    ensures (block + BLANK + body)[..|block|] == block && (block + BLANK + body)[|block| + 4..] == body
  {
    FindInPrefix(block + BLANK, body, BLANK, 0);
  }

  /** A chunked response sent with keep-alive is framed, whatever its chunking, extensions and trailers. */
  lemma ChunkedResponseFrames(block: string, chunks: seq<Chunk>, last: string, trailers: seq<string>, after: string,
                              parse: HeaderParser)
    requires Find(block + BLANK, BLANK, 0) == Some(|block|) && parse(block).chunked && !parse(block).close
    requires GoodChunks(chunks) && GoodLast(last) && GoodTrailers(trailers)
    ensures Frames(block + BLANK + (Encode(chunks, last, trailers) + after), after, parse)
  {
    HeadEnds(block, Encode(chunks, last, trailers) + after);
    ChunkedRoundTrip(chunks, last, trailers, after, Always);
  }

  /** So is one with a Content-Length. */
  lemma FixedResponseFrames(block: string, body: string, after: string, parse: HeaderParser)
    requires Find(block + BLANK, BLANK, 0) == Some(|block|) && !parse(block).chunked && !parse(block).close
    requires parse(block).length == Bytes(|body|)
    ensures Frames(block + BLANK + (body + after), after, parse)
  {
    HeadEnds(block, body + after);
    assert (body + after)[|body|..] == after;
  }

  /** Nothing else is framed: what is read as one response was sent as one. */
  lemma FramedIsAResponse(s: string, after: string, parse: HeaderParser)
    returns (block: string, body: string, chunks: seq<Chunk>, last: string, trailers: seq<string>)
    requires Frames(s, after, parse)
    ensures s == block + BLANK + (body + after) && !parse(block).close
    ensures if parse(block).chunked then
              GoodChunks(chunks) && GoodLast(last) && GoodTrailers(trailers) && body == Encode(chunks, last, trailers)
            else parse(block).length == Bytes(|body|)
  {
    var rest;
    block, rest := SplitAtHead(s, after, parse);
    hide Decode, Encode, Find, Frames;
    chunks, last, trailers := [], "", [];
    if parse(block).chunked {
      chunks, last, trailers := EncodeDecode(rest, [], Always);
      body := Encode(chunks, last, trailers);
    } else {
      body := rest[..parse(block).length.n];
      assert rest == body + after;
    }
  }

  lemma SplitAtHead(s: string, after: string, parse: HeaderParser) returns (block: string, rest: string)
    requires Frames(s, after, parse)
    ensures s == block + BLANK + rest && FramesBody(parse(block), rest, after)
  {
    hide Decode;
    var e := Find(s, BLANK, 0).value;
    block, rest := s[..e], s[e + 4..];
    assert s[e..e + 4] == BLANK;
  }

  /** What is read of a chunked response is the data of its chunks, whatever follows it. */
  lemma ChunkedResponseIsRead(block: string, chunks: seq<Chunk>, last: string, trailers: seq<string>, after: string,
                              parse: HeaderParser, r: Response)
    requires Find(block + BLANK, BLANK, 0) == Some(|block|) && parse(block).chunked
    requires GoodChunks(chunks) && GoodLast(last) && GoodTrailers(trailers)
    ensures Holds(block + BLANK + (Encode(chunks, last, trailers) + after), parse, r)
       <==> r == Response(parse(block).status, Concat(Datas(chunks)), true, !parse(block).close, false)
  {
    HeadEnds(block, Encode(chunks, last, trailers) + after);
    ChunkedRoundTrip(chunks, last, trailers, after, Always);
  }

  /** What is read of a body that is not chunked. */
  predicate ReadAs(head: Head, rest: string, r: Response) {
    && r.status == head.status && !r.stopped
    && match head.length
       case Bytes(n) =>
         if n <= |rest| then r.body == rest[..n] && r.complete && (r.reusable <==> !head.close)
         else r.body == rest && !r.complete && !r.reusable
       case Unreadable => r.body == "" && !r.complete && !r.reusable
       case Absent => r.body <= rest && r.complete && !r.reusable && (head.close ==> r.body == rest)
  }

  lemma HeldIsReadAs(head: Head, rest: string, r: Response)
    requires !head.chunked && HoldsBody(head, rest, r)
    ensures ReadAs(head, rest, r)
  {
    hide Decode, Concat;
  }

  /**
   What is read of a response that is not chunked: as many bytes as its Content-Length says, or what there is, and
   then it is incomplete; nothing if the length cannot be read; without a length and closed at its end, everything.
   */
  lemma ResponseIsRead(block: string, rest: string, parse: HeaderParser, r: Response)
    requires Find(block + BLANK, BLANK, 0) == Some(|block|) && !parse(block).chunked
    requires Holds(block + BLANK + rest, parse, r)
    ensures ReadAs(parse(block), rest, r)
  {
    hide Find, HoldsBody, ReadAs, Holds;
    var s := block + BLANK + rest;
    HeadEnds(block, rest);
    AfterHead(s, |block|, parse, Always);
    HeldIsReadAs(parse(block), rest, r);
  }

  /** A stream that ends inside its head is no response. */
  lemma HeadlessIsRead(s: string, parse: HeaderParser, r: Response)
    requires Holds(s, parse, r) && forall i: nat | i <= |s| :: !At(s, BLANK, i)
    ensures r.status == 0 && r.body == s && !r.complete && !r.reusable
  {
  }

  // ---------------------------------------------------------------- a connection released inside a response

  predicate Never(chunks: seq<string>) {
    false
  }

  /** A body of two chunks; the data of the second looks like the end of a body. */
  function Exposed(): string {
    Encode(Plain(["x", LastChunk()]), HexText(0), [])
  }

  /** What the first read brings: a chunk and the size line of the next. */
  function ReadAhead(): string {
    "1" + CRLF + ("x" + CRLF + ("5" + CRLF))
  }

  lemma PlainChunks()
    ensures Plain(["x", LastChunk()]) == [Chunk("1", "x"), Chunk("5", LastChunk())]
  {
    OneDigit(1);
    OneDigit(5);
    hide SizeOf;
    assert |LastChunk()| == 5;
    hide LastChunk;
    var datas := ["x", LastChunk()];
    assert datas[1..] == [LastChunk()] && [LastChunk()][1..] == [];
  }

  /** The body as the peer sends it, split where the first read ends. */
  lemma ExposedIs()
    ensures Exposed() == ReadAhead() + Unread() && |ReadAhead()| == 9
  {
    PlainChunks();
    OneDigit(0);
    hide SizeOf, Plain, LastChunk, HexText;
    var a, b := Chunk("1", "x"), Chunk("5", LastChunk());
    assert [a, b][1..] == [b] && [b][1..] == [];
    var e := Encode([], "0", []);
    assert e == "0" + CRLF + CRLF;
    LastChunkIs();
    Regrouped(LastChunk(), e);
  }

  lemma LastChunkIs()
    ensures LastChunk() == "0" + CRLF + CRLF
  {
  }

  lemma Regrouped(data: string, e: string)
    ensures "1" + CRLF + ("x" + CRLF + ("5" + CRLF + (data + CRLF + e))) == ReadAhead() + (data + (CRLF + e))
  {
  }

  lemma ExposedEnds()
    ensures BodyEnd(Exposed()) == Some("")
  {
    assert |LastChunk()| == 5;
    hide LastChunk;
    var datas := ["x", LastChunk()];
    PlainIsGood(datas);
    ChunkedRoundTrip(Plain(datas), HexText(0), [], "", Always);
    BodyEndIsDecoded(Exposed(), []);
    Ends(Exposed());
  }

  /** What is left on the connection: the data of the second chunk and the end of the body. */
  function Unread(): string {
    LastChunk() + (CRLF + LastChunk())
  }

  lemma ReadAheadStops()
    ensures Decode(ReadAhead(), [], Never) == Decoded(Stopped, ["x"], "5" + CRLF)
  {
    OneDigit(1);
    ChunkDecodes(Chunk("1", "x"), "5" + CRLF);
    hide SizeOf, SizeLine, Frame;
    assert [] + ["x"] == ["x"];
  }

  lemma LookalikeDrains()
    ensures Drained(Unread()) == Some(CRLF + LastChunk())
  {
    hide Drained, BodyEnd, SizeOf, Trailers;
    OneDigit(0);
    LastChunkIs();
    hide LastChunk, HexText;
    var t := CRLF + LastChunk();
    FirstLineDecides("0", CRLF + t);
    LastLine(t);
    Assoc("0" + CRLF, CRLF, t);
  }

  /** The head of a response and what `AfterStop` and `Frames` make of the body behind it. */
  lemma BehindHead(block: string, body: string, parse: HeaderParser, handler: Handler)
    requires Find(block + BLANK, BLANK, 0) == Some(|block|) && parse(block).chunked && !parse(block).close
    ensures var s, d := block + BLANK + body, Decode(body, [], handler);
            && AfterStop(s, parse, handler) == (if d.status == Stopped then Some(d.rest) else None)
            && FramedStatus(s, parse) == parse(block).status
            && (BodyEnd(body) == Some("") ==> Frames(s, "", parse))
  {
    HeadEnds(block, body);
    BodyEndIsDecoded(body, []);
    hide Decode, BodyEnd, Find;
  }

  lemma ExposedStops(block: string, parse: HeaderParser)
    requires Find(block + BLANK, BLANK, 0) == Some(|block|) && parse(block).chunked && !parse(block).close
    ensures Frames(block + BLANK + Exposed(), "", parse)
    ensures AfterStop(block + BLANK + ReadAhead(), parse, Never) == Some("5" + CRLF)
    ensures AfterStop(block + BLANK + Exposed(), parse, Never).Some?
    ensures FramedStatus(block + BLANK + Exposed(), parse) == parse(block).status
  {
    hide Decode, BodyEnd, Exposed, ReadAhead, Unread, Find, AfterStop, Frames, FramedStatus;
    ExposedIs();
    ExposedEnds();
    ReadAheadStops();
    StopExtends(ReadAhead(), [], Never, Unread());
    BehindHead(block, ReadAhead(), parse, Never);
    BehindHead(block, Exposed(), parse, Never);
  }

  /**
   A peer sends one keep-alive response of two chunks; the handler stops it after the first; the connection is
   released with the end of that response still to be read on it.
   */
  method ReleaseInsideAResponse(block: string, parse: HeaderParser)
    returns (t: Transport, r: Result<Sent, SendError>, ghost stream: string)
    requires Find(block + BLANK, BLANK, 0) == Some(|block|) && |block| <= 8000
    requires parse(block).chunked && !parse(block).close && parse(block).status > 0
    ensures Frames(stream, "", parse) && t.Valid() && t.input == stream
    ensures r.Success? && r.value.released && r.value.response.stopped && t.Rest() == CRLF + LastChunk()
  {
    hide Exposed, ReadAhead, Unread, Decode, Drained, BodyEnd, AfterStop, Frames, FramedStatus, LastChunk, Find, Hazard;
    var head := block + BLANK;
    var first := head + ReadAhead();
    stream := head + Exposed();
    ExposedStops(block, parse);
    ExposedIs();
    LookalikeDrains();
    Assoc(head, ReadAhead(), Unread());
    t := new Transport(head + Exposed(), k => if k == 0 then |first| else 1);
    PrefixOf(first, Unread());
    assert t.NextRead(READ_SIZE) == first;
    ghost var leftover, dropped, unread;
    r, leftover, dropped, unread := SendWithTransport(t, parse, Never, true, false);
    Ends(t.Rest());
  }

  lemma PrefixOf(a: string, b: string)
    ensures (a + b)[..|a|] == a && (a + b)[|a|..] == b
  {
  }
}
