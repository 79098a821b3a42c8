/**
 Draining a chunked body after the handler has stopped it. The decoder's buffer is dropped and the drain starts
 with what is still unread, so whether it ends where the body ends depends on what was dropped.
 */
module ChunkedDrain {
  import opened Wrappers
  import opened Texts
  import opened Sequences
  import opened ChunkSize
  import opened ChunkedBody
  import opened ChunkedCoding

  // ---------------------------------------------------------------- where a body ends

  /** What follows a complete body at the start of `s`. */
  function BodyEnd(s: string): Option<string>
    decreases |s|
  {
    match SizeLine(s)
    case None => None
    case Some(line) =>
      if line.size == 0 then Trailers(line.rest)
      else match Frame(line.rest, line.size) case None => None case Some(f) => BodyEnd(f.rest)
  }

  lemma {:induction false} BodyEndIsDecoded(s: string, chunks: seq<string>)
    ensures BodyEnd(s) == var d := Decode(s, chunks, Always); if d.status == Complete then Some(d.rest) else None
    decreases |s|
  {
    if SizeLine(s).Some? && SizeLine(s).value.size > 0 {
      var f := Frame(SizeLine(s).value.rest, SizeLine(s).value.size);
      if f.Some? {
        BodyEndIsDecoded(f.value.rest, chunks + [f.value.data]);
      }
    }
  }

  /** Stopping a decoder does not move the end of the body. */
  lemma {:induction false} StopKeepsEnd(s: string, chunks: seq<string>, handler: Handler)
    requires Decode(s, chunks, handler).status == Stopped
    ensures BodyEnd(s) == BodyEnd(Decode(s, chunks, handler).rest)
    decreases |s|
  {
    var f := Frame(SizeLine(s).value.rest, SizeLine(s).value.size).value;
    if handler(chunks + [f.data]) {
      StopKeepsEnd(f.rest, chunks + [f.data], handler);
    }
  }

  /** A drain that starts at a chunk boundary ends where the body ends. */
  lemma {:induction false} DrainFollowsDecoder(s: string)
    requires BodyEnd(s).Some?
    ensures Drained(s) == BodyEnd(s)
    decreases |s|
  {
    hide SizeLine, Frame, Skipped, Trailers;
    var line := SizeLine(s).value;
    if line.size > 0 {
      SkippedFrame(line.rest, line.size);
      DrainFollowsDecoder(Frame(line.rest, line.size).value.rest);
    }
  }

  /** How far the drain goes over a chunk: its length is added up in 64 bits, without the check the decoder makes. */
  lemma SkippedIs(s: string, n: nat)
    requires n <= SIZE_MAX
    ensures n <= SIZE_MAX - 2 ==> Skipped(s, n) == if |s| < n + 2 then None else Some(s[n + 2..])
    ensures n == SIZE_MAX - 1 ==> Skipped(s, n) == Some(s)
    ensures n == SIZE_MAX ==> Skipped(s, n) == if s == "" then None else Some(s[1..])
  {
  }

  /** So a chunk said to have 2^64 - 2 bytes, which the decoder refuses, is passed over as if it were not there. */
  lemma HugeChunkIsPassedOver(line: string, rest: string, handler: Handler)
    requires CrlfFree(line) && SizeOf(line) == Some(SIZE_MAX - 1)
    ensures Drained(line + CRLF + rest) == Drained(rest)
    ensures Decode(line + CRLF + rest, [], handler).status == ProtocolError
  {
    var s := line + CRLF + rest;
    FirstLine(line, rest);
    SkippedIs(rest, SIZE_MAX - 1);
    assert SizeLine(s) == Some(Sized(SIZE_MAX - 1, rest));
    hide Find, SizeOf, Skipped, SizeLine;
    assert Frame(rest, SIZE_MAX - 1) == None;
    assert Drained(s) == Drained(rest);
  }

  lemma SkippedFrame(s: string, n: nat)
    requires Frame(s, n).Some?
    ensures Skipped(s, n) == Some(Frame(s, n).value.rest)
  {
  }

  // ---------------------------------------------------------------- what is left of whole chunks

  /** What remains of `s` after the whole chunks at its start. */
  function Partial(s: string): string
    decreases |s|
  {
    match SizeLine(s)
    case None => s
    case Some(line) =>
      if line.size == 0 then s
      else match Frame(line.rest, line.size) case None => s case Some(f) => Partial(f.rest)
  }

  lemma LineExtends(b: string, u: string)
    requires Find(b, CRLF, 0).Some?
    ensures Find(b + u, CRLF, 0) == Find(b, CRLF, 0)
    ensures var e := Find(b, CRLF, 0).value; (b + u)[..e] == b[..e] && (b + u)[e + 2..] == b[e + 2..] + u
  {
    FindInPrefix(b, u, CRLF, 0);
  }

  lemma FrameExtends(b: string, n: nat, u: string)
    requires Frame(b, n).Some?
    ensures Frame(b + u, n) == Some(Framed(Frame(b, n).value.data, Frame(b, n).value.rest + u))
  {
    assert (b + u)[n..n + 2] == b[n..n + 2];
    assert (b + u)[..n] == b[..n] && (b + u)[n + 2..] == b[n + 2..] + u;
  }

  /** A decoder that stops within `b` does so whatever follows. */
  lemma {:induction false} StopExtends(b: string, chunks: seq<string>, handler: Handler, u: string)
    ensures var d := Decode(b, chunks, handler);
            d.status == Stopped ==> Decode(b + u, chunks, handler) == Decoded(Stopped, d.chunks, d.rest + u)
    decreases |b|
  {
    if SizeLine(b).Some? && SizeLine(b).value.size > 0 {
      var line := SizeLine(b).value;
      var f := Frame(line.rest, line.size);
      if f.Some? {
        LineExtends(b, u);
        FrameExtends(line.rest, line.size, u);
        StopExtends(f.value.rest, chunks + [f.value.data], handler, u);
      }
    }
  }

  lemma {:induction false} PartialEnds(b: string, u: string)
    ensures BodyEnd(b + u) == BodyEnd(Partial(b) + u)
    decreases |b|
  {
    if SizeLine(b).Some? && SizeLine(b).value.size > 0 {
      var line := SizeLine(b).value;
      var f := Frame(line.rest, line.size);
      if f.Some? {
        LineExtends(b, u);
        FrameExtends(line.rest, line.size, u);
        PartialEnds(f.value.rest, u);
      }
    }
  }

  lemma {:induction false} PartialIsPartial(b: string)
    ensures var r := Partial(b);
            SizeLine(r).Some? && SizeLine(r).value.size > 0 ==>
              Frame(SizeLine(r).value.rest, SizeLine(r).value.size).None?
    decreases |b|
  {
    if SizeLine(b).Some? && SizeLine(b).value.size > 0 {
      var f := Frame(SizeLine(b).value.rest, SizeLine(b).value.size);
      if f.Some? {
        PartialIsPartial(f.value.rest);
      }
    }
  }

  // ---------------------------------------------------------------- size lines cut in two

  lemma {:induction false} BeforeExtensionAppend(a: string, b: string)
    ensures BeforeExtension(a + b) == if ';' in a then BeforeExtension(a) else a + BeforeExtension(b)
  {
    if a == [] {
      Ends(b);
      Ends(BeforeExtension(b));
    } else {
      ConsAppend(a, b);
      BeforeExtensionAppend(a[1..], b);
      assert a == [a[0]] + a[1..];
    }
  }

  lemma {:induction false} TrimLeftAppend(a: string, b: string)
    ensures TrimLeft(a + b) == if TrimLeft(a) == "" then TrimLeft(b) else TrimLeft(a) + b
  {
    if a == [] {
      Ends(b);
    } else {
      ConsAppend(a, b);
      if IsSpace(a[0]) {
        TrimLeftAppend(a[1..], b);
      }
    }
  }

  lemma {:induction false} TrimRightAppend(a: string, b: string)
    ensures TrimRight(a + b) == if TrimRight(b) == "" then TrimRight(a) else a + TrimRight(b)
  {
    if b == [] {
      Ends(a);
    } else {
      assert (a + b)[..|a + b| - 1] == a + b[..|b| - 1];
      if IsSpace(b[|b| - 1]) {
        TrimRightAppend(a, b[..|b| - 1]);
      }
    }
  }

  lemma {:induction false} HexAppend(a: string, b: string)
    requires AllHex(a + b)
    ensures AllHex(a) && AllHex(b)
    ensures HexValue(a) == 0 ==> HexValue(a + b) == HexValue(b)
    ensures HexValue(a + b) >= HexValue(a) && (b != [] ==> HexValue(a + b) >= 16 * HexValue(a))
  {
    assert forall c | c in a :: c in a + b;
    assert forall c | c in b :: c in a + b;
    if b == [] {
      Ends(a);
    } else {
      var s := a + b;
      assert s[..|s| - 1] == a + b[..|b| - 1];
      HexAppend(a, b[..|b| - 1]);
    }
  }

  /** A line feed in front, the second half of a line end, is taken for a blank. */
  lemma NewlineInFront(line: string)
    ensures SizeOf("\n" + line) == SizeOf(line)
  {
    BeforeExtensionAppend("\n", line);
    TrimLeftAppend("\n", BeforeExtension(line));
    assert TrimLeft("\n") == "";
  }

  lemma ReturnIsBlank()
    ensures BeforeExtension("\r") == "\r" && BeforeExtension("") == "" && TrimLeft("\r") == "" && TrimRight("\r") == ""
    ensures TrimRight("") == ""
  {
    assert "\r"[1..] == "";
  }

  lemma ReturnBehind(line: string)
    ensures SizeOf(line + "\r") == SizeOf(line)
  {
    hide BeforeExtension, TrimLeft, TrimRight, HexValue, AllHex;
    ReturnIsBlank();
    BeforeExtensionAppend(line, "\r");
    BeforeExtensionAppend(line, "");
    Ends(line);
    TrimLeftAppend(line, "\r");
    TrimRightAppend(TrimLeft(line), "\r");
  }

  lemma {:induction false} ZerosAreZero(n: nat)
    ensures AllHex(Zeros(n)) && HexValue(Zeros(n)) == 0 && CrlfFree(Zeros(n)) && CrlfFree("\n" + Zeros(n))
    ensures n > 0 ==> SizeOf(Zeros(n)) == Some(0)
  {
    var z := Zeros(n);
    NoLineEnd(z);
    NoLineEnd("\n" + z);
    if n > 0 {
      assert z[..n - 1] == Zeros(n - 1);
      ZerosAreZero(n - 1);
      BeforeExtensionIs(z, n);
      assert z[..n] == z;
      assert TrimLeft(z) == z && TrimRight(z) == z;
    }
  }

  /** The line announces data that fits a frame. */
  predicate Sizable(line: string) {
    SizeOf(line).Some? && 0 < SizeOf(line).value <= SIZE_MAX - 2
  }

  /** A nonzero digit may still be moved: the first part of the line then means more than it does alone. */
  lemma SecondHalfAlone(first: string, second: string)
    requires Sizable(first + second) && !Sizable(first + "0") && SizeOf(second).Some?
    ensures SizeOf(second) == SizeOf(first + second)
  {
    hide BeforeExtension, TrimLeft, TrimRight, HexValue, AllHex;
    BeforeExtensionAppend(first, second);
    BeforeExtensionAppend(first, "0");
    if ';' !in first {
      var x := BeforeExtension(second);
      TrimLeftAppend(first, x);
      var a := TrimLeft(first);
      if a != "" {
        HalvesAreHex(a, x);
        ZeroBehind(first);
      }
    }
  }

  lemma ZeroBehind(first: string)
    requires ';' !in first && TrimLeft(first) != "" && AllHex(TrimLeft(first))
    ensures SizeField(first + "0") == TrimLeft(first) + "0" && AllHex(TrimLeft(first) + "0")
    ensures HexValue(TrimLeft(first) + "0") == 16 * HexValue(TrimLeft(first))
  {
    BeforeExtensionAppend(first, "0");
    assert BeforeExtension("0") == "0";
    TrimLeftAppend(first, "0");
    DigitBehind(TrimLeft(first));
  }

  /** Digits in both halves: nothing but digits in between. */
  lemma HalvesAreHex(a: string, x: string)
    requires AllHex(TrimRight(a + x)) && TrimRight(TrimLeft(x)) != "" && AllHex(TrimRight(TrimLeft(x)))
    ensures TrimRight(a + x) == a + TrimRight(TrimLeft(x)) && AllHex(a)
    ensures var h := TrimRight(TrimLeft(x));
            && (HexValue(a) == 0 ==> HexValue(a + h) == HexValue(h))
            && HexValue(a + h) >= 16 * HexValue(a)
  {
    TrimRightAppend(a, x);
    TrimNothing(x);
    var h := TrimRight(x);
    HexAppend(a, h);
    assert h[0] in h;
    assert TrimLeft(x) == x;
  }

  lemma {:induction false} TrimNothing(x: string)
    requires TrimRight(TrimLeft(x)) != ""
    ensures x != "" && TrimRight(x) != "" && TrimRight(x)[0] == x[0]
  {
    TrimLeftIsSuffix(x);
    var k := |x| - |TrimLeft(x)|;
    assert x == x[..k] + TrimLeft(x);
    TrimRightAppend(x[..k], TrimLeft(x));
    TrimRightIsPrefix(x);
  }

  lemma {:induction false} TrimLeftIsSuffix(x: string)
    ensures |TrimLeft(x)| <= |x| && x[|x| - |TrimLeft(x)|..] == TrimLeft(x)
  {
    if x != [] && IsSpace(x[0]) {
      TrimLeftIsSuffix(x[1..]);
    }
  }

  lemma {:induction false} TrimRightIsPrefix(x: string)
    ensures TrimRight(x) <= x
  {
    if x != [] && IsSpace(x[|x| - 1]) {
      TrimRightIsPrefix(x[..|x| - 1]);
    }
  }

  lemma DigitBehind(a: string)
    requires AllHex(a)
    ensures TrimRight(a + "0") == a + "0" && AllHex(a + "0") && HexValue(a + "0") == 16 * HexValue(a)
  {
    assert (a + "0")[..|a + "0"| - 1] == a;
  }

  // ---------------------------------------------------------------- blank lines

  ghost predicate BlankOnlyAtEnd(s: string) {
    forall j: nat :: At(s, BLANK, j) ==> j + 4 == |s|
  }

  lemma BlankIsTwoLineEnds(s: string, j: nat)
    requires At(s, BLANK, j)
    ensures At(s, CRLF, j) && At(s, CRLF, j + 2)
  {
    assert s[j..j + 2] == s[j..j + 4][..2] && s[j + 2..j + 4] == s[j..j + 4][2..];
  }

  lemma AtAfter(front: string, s: string, pat: string, j: nat)
    requires |front| <= j
    ensures At(front + s, pat, j) <==> At(s, pat, j - |front|)
  {
    AtShift(front + s, pat, |front|, j - |front|);
    assert (front + s)[|front|..] == s;
  }

  /** In front of a text whose blank line ends it, a line changes nothing. */
  lemma BlankAfterLine(line: string, t: string)
    requires CrlfFree(line) && BlankOnlyAtEnd(CRLF + t)
    ensures BlankOnlyAtEnd(line + CRLF + t)
  {
    var s := line + CRLF + t;
    Assoc(line, CRLF, t);
    FirstLine(line, t);
    forall j: nat | At(s, BLANK, j)
      ensures j + 4 == |s|
    {
      BlankIsTwoLineEnds(s, j);
      AtAfter(line, CRLF + t, BLANK, j);
    }
  }

  /** The trailers are a line and further ones, or end here. */
  lemma TrailersSplit(t: string) returns (line: string, later: string)
    requires Trailers(t).Some?
    ensures CrlfFree(line) && t == line + CRLF + later && |later| < |t|
    ensures Trailers(t) == if line == "" then Some(later) else Trailers(later)
  {
    hide Find;
    var e := Find(t, CRLF, 0).value;
    SplitAtLine(t, e);
    line, later := t[..e], t[e + 2..];
  }

  lemma BlankAt(front: string, v: string)
    ensures At(front + BLANK + v, BLANK, |front|)
  {
    var s := front + BLANK + v;
    assert s[|front|..|front| + 4] == BLANK;
  }

  lemma NoBlankAtLineFeed(t: string)
    ensures !At(CRLF + t, BLANK, 1)
  {
    var s := CRLF + t;
    if |s| >= 5 {
      assert s[1..5][0] == '\n';
    }
  }

  lemma LineEndsBlank(t: string, j: nat)
    requires At(CRLF + t, BLANK, j) && j < 2
    ensures At(t, CRLF, 0)
  {
    NoBlankAtLineFeed(t);
    if j == 0 {
      BlankIsTwoLineEnds(CRLF + t, 0);
      AtAfter(CRLF, t, CRLF, 2);
    }
  }

  lemma BlankAfterNonempty(line: string, later: string)
    requires line != "" && CrlfFree(line) && BlankOnlyAtEnd(line + CRLF + later)
    ensures BlankOnlyAtEnd(CRLF + (line + CRLF + later))
  {
    var t := line + CRLF + later;
    FirstLine(line, later);
    hide Find;
    forall j: nat | At(CRLF + t, BLANK, j)
      ensures j + 4 == |CRLF + t|
    {
      if j < 2 {
        LineEndsBlank(t, j);
      } else {
        AtAfter(CRLF, t, BLANK, j);
      }
    }
  }

  /** A trailer section that is all there is has its only blank line at its end. */
  lemma {:induction false} TrailersEndBlank(t: string)
    requires Trailers(t) == Some("")
    ensures BlankOnlyAtEnd(CRLF + t)
    decreases |t|
  {
    var line, later := TrailersSplit(t);
    if line == "" {
      assert t == CRLF;
    } else {
      TrailersEndBlank(later);
      BlankAfterLine(line, later);
      BlankAfterNonempty(line, later);
    }
  }

  /** Trailers end with a blank line. */
  lemma {:induction false} TrailersAfterBlank(t: string) returns (front: string)
    requires Trailers(t).Some?
    ensures CRLF + t == front + BLANK + Trailers(t).value
    decreases |t|
  {
    var line, later := TrailersSplit(t);
    if line == "" {
      front := "";
      assert CRLF + (line + CRLF + later) == BLANK + later;
    } else {
      var inner := TrailersAfterBlank(later);
      front := CRLF + line + inner;
      hide Trailers;
      var v := Trailers(t).value;
      Assoc(line, CRLF, later);
      Assoc(CRLF, line, CRLF + later);
      Assoc(inner, BLANK, v);
      Assoc(CRLF + line, inner, BLANK + v);
      Assoc(front, BLANK, v);
    }
  }

  /** One step of the drain, and of the decoder, over a text given by its first line. */
  lemma FirstLineDecides(line: string, t: string)
    requires CrlfFree(line)
    ensures var s := line + CRLF + t;
            match SizeOf(line)
            case None => SizeLine(s) == None && BodyEnd(s) == None && Drained(s) == None
            case Some(n) =>
              && SizeLine(s) == Some(Sized(n, t))
              && BodyEnd(s) == (if n == 0 then Trailers(t)
                                else match Frame(t, n) case None => None case Some(f) => BodyEnd(f.rest))
              && Drained(s) == (if n == 0 then Trailers(t)
                                else match Skipped(t, n) case None => None case Some(rest) => Drained(rest))
  {
    FirstLine(line, t);
    hide Find, SizeOf, Trailers, Frame, Skipped;
  }

  lemma HasLine(s: string) returns (line: string, t: string)
    requires SizeLine(s).Some?
    ensures CrlfFree(line) && s == line + CRLF + t
    ensures SizeOf(line).Some? && SizeLine(s) == Some(Sized(SizeOf(line).value, t))
  {
    hide Find, SizeOf;
    var e := Find(s, CRLF, 0).value;
    SplitAtLine(s, e);
    line, t := s[..e], s[e + 2..];
  }

  lemma BlankFurtherOn(a: string, front: string, v: string)
    ensures a + (front + BLANK + v) == a + front + BLANK + v
  {
  }

  lemma SkippedSuffix(t: string, n: nat) returns (later: string, gap: string)
    requires Skipped(t, n).Some?
    ensures Skipped(t, n) == Some(later) && t == gap + later
  {
    later := Skipped(t, n).value;
    gap := t[..|t| - |later|];
  }

  /** Whatever a drain takes for a body ends with a blank line. */
  lemma {:induction false} DrainedAfterBlank(u: string) returns (front: string)
    requires Drained(u).Some?
    ensures u == front + BLANK + Drained(u).value
    decreases |u|
  {
    var line, t := HasLine(u);
    FirstLineDecides(line, t);
    hide Drained, BodyEnd, SizeLine, SizeOf, Trailers, Frame;
    var v := Drained(u).value;
    if SizeOf(line) == Some(0) {
      var inner := TrailersAfterBlank(t);
      front := line + inner;
      Assoc(line, CRLF, t);
      BlankFurtherOn(line, inner, v);
    } else {
      var later, gap := SkippedSuffix(t, SizeOf(line).value);
      var inner := DrainedAfterBlank(later);
      front := line + CRLF + gap + inner;
      Assoc(line + CRLF, gap, later);
      BlankFurtherOn(line + CRLF + gap, inner, v);
    }
  }

  /** At the end of a text without another blank line a drain finds the end or none. */
  lemma NoBlankNoHarm(front: string, u: string)
    requires BlankOnlyAtEnd(front + u) && Drained(u).Some?
    ensures Drained(u) == Some("")
  {
    var inner := DrainedAfterBlank(u);
    hide Drained;
    var v := Drained(u).value;
    BlankFurtherOn(front, inner, v);
    BlankAt(front + inner, v);
  }

  // ---------------------------------------------------------------- when a drain may end too early

  /**
   The dropped bytes end where data can still follow that looks like the end of a body: inside the data of a
   chunk, or inside a size line that announces data once a zero digit or the line feed completes it.
   */
  predicate Hazard(dropped: string) {
    var r := Partial(dropped);
    match Find(r, CRLF, 0)
    case None => Sizable(r + "0") || (r != "" && r[|r| - 1] == '\r' && Sizable(r))
    case Some(e) => Sizable(r[..e]) && |r| < e + 2 + SizeOf(r[..e]).value
  }

  /**
   However a peer that sends one response completes the body whose beginning has been dropped: if the drain
   of the remainder succeeds, nothing is left.
   */
  ghost predicate EndsRight(dropped: string) {
    forall unread | BodyEnd(dropped + unread) == Some("") :: Drained(unread) == None || Drained(unread) == Some("")
  }

  // ---------------------------------------------------------------- no hazard, no harm

  /** The line cut in two ends in the second part, or right at the cut. */
  lemma LineAcross(r: string, u: string)
    requires CrlfFree(r) && Find(r + u, CRLF, 0).Some?
    ensures var e := Find(r + u, CRLF, 0).value;
            || (e + 1 == |r| && r[e] == '\r' && u != "" && u[0] == '\n')
            || (e >= |r| && Find(u, CRLF, 0) == Some(e - |r|))
  {
    hide Find;
    var s := r + u;
    var e := Find(s, CRLF, 0).value;
    forall j: nat | j + 2 <= |r|
      ensures !At(s, CRLF, j)
    {
      assert r[j..j + 2] == s[j..j + 2];
      assert !At(r, CRLF, j);
    }
    if e + 1 == |r| {
      assert s[e..e + 2][0] == r[e] && s[e..e + 2][1] == u[0];
    } else {
      AtAfter(r, u, CRLF, e);
      forall j: nat | j < e - |r|
        ensures !At(u, CRLF, j)
      {
        AtAfter(r, u, CRLF, |r| + j);
      }
      FindIs(u, CRLF, 0, e - |r|);
    }
  }

  /** Dropped: a size line of zero and perhaps some trailers. */
  lemma HarmlessTrailers(line: string, part: string, u: string)
    requires CrlfFree(line) && SizeOf(line) == Some(0)
    requires BodyEnd(line + CRLF + (part + u)) == Some("") && Drained(u).Some?
    ensures Drained(u) == Some("")
  {
    FirstLineDecides(line, part + u);
    hide Drained, BodyEnd, SizeLine, SizeOf;
    TrailersEndBlank(part + u);
    Assoc(CRLF, part, u);
    NoBlankNoHarm(CRLF + part, u);
  }

  /** Dropped: a chunk but for its line end, or for the second half of it. */
  lemma HarmlessLineEnd(part: string, n: nat, u: string)
    requires Frame(part, n).None? && |part| >= n && Frame(part + u, n).Some?
    requires BodyEnd(Frame(part + u, n).value.rest) == Some("") && Drained(u).Some?
    ensures Drained(u) == Some("")
  {
    hide Drained, BodyEnd;
    var s := part + u;
    assert s[n..n + 2] == CRLF;
    if |part| == n {
      assert u == CRLF + u[2..];
      EmptyLineFails(u[2..]);
      assert false;
    } else if |part| == n + 1 {
      var later := u[1..];
      assert u[0] == s[n..n + 2][1];
      assert s[n + 2..] == later && u == "\n" + later;
      NewlineThenBody(later);
    }
  }

  lemma EmptyLineFails(t: string)
    ensures Drained(CRLF + t) == None
  {
    assert "" + CRLF + t == CRLF + t;
    NoLineEnd("");
    FirstLineDecides("", t);
    ReturnIsBlank();
    hide Drained;
    assert SizeOf("") == None;
  }

  /** The drain takes the line feed for part of the next size line and is in step again. */
  lemma NewlineThenBody(later: string)
    requires BodyEnd(later).Some?
    ensures Drained("\n" + later) == BodyEnd(later)
  {
    BodyHasLine(later);
    hide Drained, BodyEnd, SizeLine, SizeOf, Trailers, Frame, Skipped, Find;
    var line, t := HasLine(later);
    NewlineInFront(line);
    NewlineKeepsCrlfFree(line);
    Assoc("\n", line + CRLF, t);
    Assoc("\n", line, CRLF);
    FirstLineDecides("\n" + line, t);
    FirstLineDecides(line, t);
    DrainFollowsDecoder(later);
  }

  lemma NewlineKeepsCrlfFree(line: string)
    requires CrlfFree(line)
    ensures CrlfFree("\n" + line)
  {
    var s := "\n" + line;
    forall j: nat | At(s, CRLF, j)
      ensures j > 0 && At(line, CRLF, j - 1)
    {
      assert s[j..j + 2][0] == '\r';
      AtAfter("\n", line, CRLF, j);
    }
  }

  /** Dropped: the start of a size line, up to its carriage return. */
  lemma HarmlessReturn(line: string, t: string)
    requires CrlfFree(line) && !Sizable(line + "\r")
    requires BodyEnd(line + CRLF + t) == Some("") && Drained("\n" + t).Some?
    ensures Drained("\n" + t) == Some("")
  {
    hide Drained, BodyEnd, SizeLine, SizeOf, Frame, Trailers, Find, BlankOnlyAtEnd;
    ReturnBehind(line);
    FirstLineDecides(line, t);
    FrameFits(t, SizeOf(line));
    TrailersEndBlank(t);
    assert CRLF + t == "\r" + ("\n" + t);
    NoBlankNoHarm("\r", "\n" + t);
  }

  lemma FrameFits(t: string, n: Option<nat>)
    ensures n.Some? && Frame(t, n.value).Some? ==> n.value <= SIZE_MAX - 2
  {
  }

  /** Dropped: the start of a size line, the rest of which is still to come. */
  lemma HarmlessHalf(first: string, second: string, t: string)
    requires CrlfFree(first + second) && CrlfFree(second) && !Sizable(first + "0")
    requires BodyEnd(first + second + CRLF + t) == Some("") && Drained(second + CRLF + t).Some?
    ensures Drained(second + CRLF + t) == Some("")
  {
    FirstLineDecides(first + second, t);
    FirstLineDecides(second, t);
    FrameFits(t, SizeOf(first + second));
    var u := second + CRLF + t;
    if SizeOf(first + second) == Some(0) {
      hide Drained, BodyEnd, SizeLine, SizeOf, Frame;
      TrailersEndBlank(t);
      BlankAfterLine(second, t);
      Ends(u);
      NoBlankNoHarm("", u);
    } else {
      hide Drained, BodyEnd, SizeLine, SizeOf, Frame;
      SecondHalfAlone(first, second);
      DrainFollowsDecoder(u);
    }
  }

  lemma BodyHasLine(s: string)
    requires BodyEnd(s).Some?
    ensures SizeLine(s).Some?
  {
  }

  lemma CutInLineEnd(r: string, u: string, line: string, t: string)
    requires r + u == line + CRLF + t && |line| + 1 == |r|
    ensures r == line + "\r" && u == "\n" + t
  {
    assert (r + u)[..|r|] == r && (r + u)[|r|..] == u;
    assert line + CRLF + t == (line + "\r") + ("\n" + t);
  }

  lemma CutInLine(r: string, u: string, line: string, t: string) returns (second: string)
    requires r + u == line + CRLF + t && |line| >= |r|
    ensures line == r + second && u == second + CRLF + t
  {
    second := line[|r|..];
    assert (r + u)[..|r|] == r && (r + u)[|r|..] == u;
    assert line + CRLF + t == line[..|r|] + (second + CRLF + t);
  }

  /** The first line of `r + u` when `r` holds none, by where the line ends. */
  lemma HarmlessLine(r: string, u: string)
    requires CrlfFree(r) && !Sizable(r + "0") && (r != "" && r[|r| - 1] == '\r' ==> !Sizable(r))
    requires BodyEnd(r + u) == Some("") && Drained(u).Some?
    ensures Drained(u) == Some("")
  {
    BodyHasLine(r + u);
    hide Drained, BodyEnd, SizeLine, Sizable, SizeOf, Trailers, Frame, Find;
    var line, t := HasLine(r + u);
    FirstLine(line, t);
    LineAcross(r, u);
    if |line| < |r| {
      CutInLineEnd(r, u, line, t);
      HarmlessReturn(line, t);
    } else {
      var second := CutInLine(r, u, line, t);
      LineFreeOf(u, second, t);
      HarmlessHalf(r, second, t);
    }
  }

  lemma LineFreeOf(u: string, second: string, t: string)
    requires u == second + CRLF + t && Find(u, CRLF, 0) == Some(|second|)
    ensures CrlfFree(second)
  {
    SplitAtLine(u, |second|);
    assert u[..|second|] == second;
  }

  lemma HarmlessWithout(dropped: string, u: string)
    requires !Hazard(dropped) && BodyEnd(dropped + u) == Some("") && Drained(u).Some?
    ensures Drained(u) == Some("")
  {
    hide Partial, Drained, Trailers;
    var r := Partial(dropped);
    PartialEnds(dropped, u);
    PartialIsPartial(dropped);
    if Find(r, CRLF, 0).None? {
      HarmlessLine(r, u);
    } else {
      var e := Find(r, CRLF, 0).value;
      SplitAtLine(r, e);
      hide BodyEnd, SizeLine, SizeOf, Frame, Find;
      var line, part := r[..e], r[e + 2..];
      Assoc(line + CRLF, part, u);
      FirstLineDecides(line, part + u);
      FirstLineDecides(line, part);
      FrameFits(part + u, SizeOf(line));
      if SizeOf(line) == Some(0) {
        HarmlessTrailers(line, part, u);
      } else {
        HarmlessLineEnd(part, SizeOf(line).value, u);
      }
    }
  }

  // ---------------------------------------------------------------- a hazard, and how a peer meets it

  /** Trailers as a drain sees them, an innocent chunk and the end of the body as the peer means it. */
  function Tail(): string {
    "2" + CRLF + (CRLF + (CRLF + LastChunk()))
  }

  lemma OneDigit(n: nat)
    requires n < 10
    ensures SizeOf(HexText(n)) == Some(n) && HexText(n) == ['0' + n as char] && CrlfFree(HexText(n))
  {
    SizeRoundTrip(n);
    NoLineEnd(HexText(n));
  }

  function LastChunk(): string {
    "0" + CRLF + CRLF
  }

  lemma LastChunkEnds()
    ensures BodyEnd(LastChunk()) == Some("")
  {
    OneDigit(0);
    LastLine("");
    FirstLineDecides("0", CRLF + "");
    hide BodyEnd, SizeOf, Trailers;
    assert LastChunk() == "0" + CRLF + (CRLF + "");
  }

  lemma BlankFrame(t: string)
    ensures Frame(CRLF + (CRLF + t), 2) == Some(Framed(CRLF, t))
  {
    var s := CRLF + (CRLF + t);
    assert s[..2] == CRLF && s[2..4] == CRLF && s[4..] == t;
  }

  lemma TailEnds()
    ensures BodyEnd(Tail()) == Some("") && Trailers(Tail()) == Some(CRLF + LastChunk())
  {
    OneDigit(2);
    LastChunkEnds();
    hide BodyEnd, SizeOf, Trailers, Frame, LastChunk, Find;
    var t := CRLF + (CRLF + LastChunk());
    FirstLineDecides("2", t);
    BlankFrame(LastChunk());
    LineThenTrailers("2", t);
    LastLine(CRLF + LastChunk());
  }

  lemma LineThenTrailers(line: string, t: string)
    requires line != "" && CrlfFree(line)
    ensures Trailers(line + CRLF + t) == Trailers(t)
  {
    FirstLine(line, t);
    hide Find;
  }

  lemma LastLine(t: string)
    ensures Trailers(CRLF + t) == Some(t)
  {
    FindIs(CRLF + t, CRLF, 0, 0);
  }

  /** A chunk of zeros, then the tail: the body ends with it. */
  lemma ZerosThenTail(line: string, data: string)
    requires CrlfFree(line) && SizeOf(line) == Some(|data|) && 0 < |data| <= SIZE_MAX - 2
    ensures BodyEnd(line + CRLF + (data + CRLF + Tail())) == Some("")
  {
    FirstLineDecides(line, data + CRLF + Tail());
    ChunkDecodes(Chunk(line, data), Tail());
    TailEnds();
  }

  /** A drain that meets a size line of zero, and perhaps a line of zeros after it, ends inside the tail. */
  lemma ZeroThenTail(line: string, more: string)
    requires CrlfFree(line) && SizeOf(line) == Some(0)
    requires more == "" || (more[|more| - 1] != '\r' && forall c | c in more :: c == '0')
    ensures var t := if more == "" then Tail() else more + CRLF + Tail();
            var v := Drained(line + CRLF + t);
            v.Some? && v.value != ""
  {
    TailEnds();
    if more == "" {
      FirstLineDecides(line, Tail());
    } else {
      NoLineEnd(more);
      FirstLine(more, Tail());
      FirstLineDecides(line, more + CRLF + Tail());
    }
  }

  lemma Joined(a: string, b: string, c: string, d: string)
    ensures a + (b + c + d) == a + b + c + d
  {
  }

  /** Dropped inside the data of a chunk. */
  lemma HarmInData(line: string, part: string) returns (u: string)
    requires CrlfFree(line) && Sizable(line) && |part| < SizeOf(line).value
    ensures BodyEnd(line + CRLF + part + u) == Some("") && Drained(u).Some? && Drained(u) != Some("")
  {
    hide SizeOf, BodyEnd, Drained, Find, Tail, AllHex, HexValue;
    var k := SizeOf(line).value - |part|;
    var z := Zeros(k);
    u := z + CRLF + Tail();
    ZerosAreZero(k);
    ZeroThenTail(z, "");
    ZerosThenTail(line, part + z);
    hide Zeros, Sizable;
    Joined(part, z, CRLF, Tail());
    Assoc(line + CRLF, part, u);
  }

  /** Dropped up to the carriage return of a size line. */
  lemma HarmAtReturn(line: string) returns (u: string)
    requires CrlfFree(line) && Sizable(line)
    ensures BodyEnd(line + "\r" + u) == Some("") && Drained(u).Some? && Drained(u) != Some("")
  {
    hide SizeOf, BodyEnd, Drained, Find, Tail, AllHex, HexValue;
    var n := SizeOf(line).value;
    var z := Zeros(n);
    u := "\n" + z + CRLF + Tail();
    ZerosAreZero(n);
    NewlineInFront(z);
    ZeroThenTail("\n" + z, "");
    ZerosThenTail(line, z);
    hide Zeros, Sizable;
    Joined("\n", z, CRLF, Tail());
    Assoc(line + "\r", "\n", z + CRLF + Tail());
    Assoc(line, "\r", "\n");
    assert "\r" + "\n" == CRLF;
  }

  /** Dropped inside a size line that a zero completes. */
  lemma HarmInLine(first: string) returns (u: string)
    requires CrlfFree(first) && Sizable(first + "0")
    ensures BodyEnd(first + u) == Some("") && Drained(u).Some? && Drained(u) != Some("")
  {
    hide SizeOf, BodyEnd, Drained, Find, Tail, AllHex, HexValue;
    var n := SizeOf(first + "0").value;
    var z := Zeros(n);
    u := "0" + CRLF + (z + CRLF + Tail());
    OneDigit(0);
    ZerosAreZero(n);
    DigitKeepsCrlfFree(first);
    ZeroThenTail("0", z);
    ZerosThenTail(first + "0", z);
    hide Zeros, Sizable;
    Assoc(first, "0" + CRLF, z + CRLF + Tail());
    Assoc(first, "0", CRLF);
  }

  lemma DigitKeepsCrlfFree(first: string)
    requires CrlfFree(first)
    ensures CrlfFree(first + "0")
  {
    var s := first + "0";
    forall j: nat | At(s, CRLF, j)
      ensures At(first, CRLF, j)
    {
      assert s[j..j + 2][1] == '\n';
      assert s[j..j + 2] == first[j..j + 2];
    }
  }

  lemma FrontKeepsCrlfFree(line: string)
    requires CrlfFree(line + "\r")
    ensures CrlfFree(line)
  {
    var s := line + "\r";
    forall j: nat | At(line, CRLF, j)
      ensures At(s, CRLF, j)
    {
      assert s[j..j + 2] == line[j..j + 2];
    }
  }

  lemma HarmWithHazard(dropped: string) returns (u: string)
    requires Hazard(dropped)
    ensures BodyEnd(dropped + u) == Some("") && Drained(u).Some? && Drained(u) != Some("")
  {
    hide Partial, SizeOf, BodyEnd, Drained;
    var r := Partial(dropped);
    if Find(r, CRLF, 0).Some? {
      var e := Find(r, CRLF, 0).value;
      SplitAtLine(r, e);
      u := HarmInData(r[..e], r[e + 2..]);
    } else if Sizable(r + "0") {
      u := HarmInLine(r);
    } else {
      var line := r[..|r| - 1];
      assert r == line + "\r";
      ReturnBehind(line);
      FrontKeepsCrlfFree(line);
      u := HarmAtReturn(line);
    }
    PartialEnds(dropped, u);
  }

  /**
   After a stop, a drain that succeeds has reached the end of the response, however the peer completes it, if and
   only if the bytes dropped with the decoder's buffer do not end in a hazard: inside chunk data or inside a size
   line that may still announce data.
   */
  lemma DropIsSafeIff(dropped: string)
    ensures EndsRight(dropped) <==> !Hazard(dropped)
  {
    if Hazard(dropped) {
      var u := HarmWithHazard(dropped);
      assert BodyEnd(dropped + u) == Some("");
    } else {
      forall u | BodyEnd(dropped + u) == Some("")
        ensures Drained(u) == None || Drained(u) == Some("")
      {
        if Drained(u).Some? {
          HarmlessWithout(dropped, u);
        }
      }
    }
  }

  /** Nothing dropped, or whole chunks: the drain then always succeeds, and ends where the body ends. */
  lemma WholeChunksAreSafe(dropped: string, unread: string)
    requires Partial(dropped) == "" && BodyEnd(dropped + unread).Some?
    ensures !Hazard(dropped) && Drained(unread) == BodyEnd(dropped + unread)
  {
    PartialEnds(dropped, unread);
    Ends(unread);
    DrainFollowsDecoder(unread);
    OneDigit(0);
    Ends("0");
    assert !Sizable("0");
  }
}
