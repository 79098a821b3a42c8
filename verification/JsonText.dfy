/** Finding the JSON value in a model's answer, and the texts on which that is exact (RFC 8259). */
module JsonText {
  import opened Wrappers
  import opened Sequences
  import opened Texts

  const FENCE := "```"
  const JSON_FENCE := "```json"

  // ---------------------------------------------------------------- the extractor as a function

  /** The scanner between two characters. */
  datatype Scanner = Scanner(depth: int, inString: bool, escaping: bool)

  /** One character: the next state, or None when the bracket opened first is closed. */
  function Feed(s: Scanner, ch: char, open: char, close: char): Option<Scanner> {
    if s.escaping then Some(s.(escaping := false))
    else if ch == '\\' && s.inString then Some(s.(escaping := true))
    else if ch == '"' then Some(s.(inString := !s.inString))
    else if s.inString then Some(s)
    else
      var up := if ch == open then s.depth + 1 else s.depth;
      if ch == close then (if up - 1 == 0 then None else Some(s.(depth := up - 1)))
      else Some(s.(depth := up))
  }

  /** How many characters it takes until the bracket opened first is closed. */
  function CloseAt(text: string, s: Scanner, open: char, close: char): Option<nat> {
    if text == [] then None
    else match Feed(s, text[0], open, close)
      case None => Some(1)
      case Some(next) => match CloseAt(text[1..], next, open, close) case None => None case Some(k) => Some(k + 1)
  }

  function FenceStart(text: string): Option<nat> {
    match Find(text, JSON_FENCE, 0) case Some(i) => Some(i) case None => Find(text, FENCE, 0)
  }

  /** The contents of the first fenced block, if it has a line of its own and an end. */
  function Fenced(text: string): Option<string> {
    match FenceStart(text)
    case None => None
    case Some(f) =>
      match Find(text, "\n", f)
      case None => None
      case Some(line) => match Find(text, FENCE, line + 1) case None => None case Some(end) => Some(text[line + 1..end])
  }

  function IsOpen(c: char): bool {
    c == '{' || c == '['
  }

  function FirstOpen(text: string): (r: Option<nat>)
    ensures r.Some? ==> r.value < |text| && IsOpen(text[r.value]) && forall j | 0 <= j < r.value :: !IsOpen(text[j])
    ensures r.None? ==> forall c | c in text :: !IsOpen(c)
  {
    if text == [] then None
    else if IsOpen(text[0]) then Some(0)
    else match FirstOpen(text[1..]) case None => None case Some(i) => Some(i + 1)
  }

  function CloseOf(open: char): char {
    if open == '{' then '}' else ']'
  }

  /** From the first bracket to the one that closes it, or to the end when none does. */
  function Bracketed(text: string): string {
    match FirstOpen(text)
    case None => text
    case Some(i) =>
      var open := text[i];
      match CloseAt(text[i..], Scanner(0, false, false), open, CloseOf(open))
      case None => text[i..]
      case Some(n) => if i + n <= |text| then text[i..i + n] else text[i..]
  }

  function Extract(text: string): string {
    match Fenced(text) case Some(body) => body case None => Bracketed(text)
  }

  // ---------------------------------------------------------------- the extractor

  lemma CloseStep(text: string, i: nat, s: Scanner, open: char, close: char)
    requires i < |text|
    ensures CloseAt(text[i..], s, open, close)
         == match Feed(s, text[i], open, close)
            case None => Some(1)
            case Some(next) =>
              match CloseAt(text[i + 1..], next, open, close) case None => None case Some(k) => Some(k + 1)
  {
    SuffixStep(text, i);
  }

  lemma NeverCloses(text: string, s: Scanner, open: char, close: char)
    ensures CloseAt(text[|text|..], s, open, close) == None
  {
    Ends(text);
  }

  lemma BracketedUpTo(text: string, start: nat, k: Option<nat>)
    requires FirstOpen(text) == Some(start)
    requires k == CloseAt(text[start..], Scanner(0, false, false), text[start], CloseOf(text[start]))
    ensures Bracketed(text) == match k
                               case None => text[start..]
                               case Some(n) => if start + n <= |text| then text[start..start + n] else text[start..]
  {
  }

  method FeedOne(before: Scanner, ch: char, open: char, close: char) returns (after: Scanner, closed: bool)
    ensures Feed(before, ch, open, close) == if closed then None else Some(after)
  {
    after, closed := before, false;
    if before.escaping {
      after := before.(escaping := false);
    } else if ch == '\\' && before.inString {
      after := before.(escaping := true);
    } else if ch == '"' {
      after := before.(inString := !before.inString);
    } else if !before.inString {
      var depth := before.depth;
      if ch == open {
        depth := depth + 1;
      }
      if ch == close {
        depth := depth - 1;
        closed := depth == 0;
      }
      after := before.(depth := depth);
    }
  }

  method ScanBrackets(text: string, start: nat) returns (r: string)
    requires FirstOpen(text) == Some(start)
    ensures r == Bracketed(text)
  {
    var open := text[start];
    var close := if open == '{' then '}' else ']';
    assert close == CloseOf(open);
    var scanner := Scanner(0, false, false);
    var i := start;
    ghost var whole := CloseAt(text[start..], scanner, open, close);
    hide CloseAt, Feed, FirstOpen, Bracketed;
    while i < |text|
      invariant start <= i <= |text|
      invariant whole == match CloseAt(text[i..], scanner, open, close)
                         case None => None
                         case Some(k) => Some(i - start + k)
    {
      CloseStep(text, i, scanner, open, close);
      var closed;
      scanner, closed := FeedOne(scanner, text[i], open, close);
      if closed {
        BracketedUpTo(text, start, Some(i + 1 - start));
        return text[start..i + 1];
      }
      i := i + 1;
    }
    NeverCloses(text, scanner, open, close);
    BracketedUpTo(text, start, None);
    r := text[start..];
  }

  method ExtractJsonText(text: string) returns (r: string)
    ensures r == Extract(text)
  {
    hide Find, FirstOpen, CloseAt;
    var fenced := Find(text, JSON_FENCE, 0);
    if fenced.None? {
      fenced := Find(text, FENCE, 0);
    }
    if fenced.Some? {
      var start := Find(text, "\n", fenced.value);
      if start.Some? {
        var end := Find(text, FENCE, start.value + 1);
        if end.Some? {
          return text[start.value + 1..end.value];
        }
      }
    }
    var start := FirstOpen(text);
    if start.None? {
      return text;
    }
    r := ScanBrackets(text, start.value);
  }

  // ---------------------------------------------------------------- JSON texts

  predicate IsHex(c: char) {
    '0' <= c <= '9' || 'a' <= c <= 'f' || 'A' <= c <= 'F'
  }

  /** The inside of a JSON string (section 7 of RFC 8259). */
  predicate StringBody(s: string) {
    if s == [] then true
    else if s[0] == '\\' then
      if |s| >= 2 && s[1] == 'u' then
        |s| >= 6 && IsHex(s[2]) && IsHex(s[3]) && IsHex(s[4]) && IsHex(s[5]) && StringBody(s[6..])
      else |s| >= 2 && s[1] in "\"\\/bfnrt" && StringBody(s[2..])
    else s[0] != '"' && s[0] >= ' ' && StringBody(s[1..])
  }

  predicate Blank(s: string) {
    forall c | c in s :: c in " \t\n\r"
  }

  /** A number or one of true, false, null (and, harmlessly, other words of these characters). */
  predicate Word(s: string) {
    s != "" && forall c | c in s :: '0' <= c <= '9' || 'a' <= c <= 'z' || 'A' <= c <= 'Z' || c in "+-."
  }

  /** A JSON value with the blanks it was printed with. */
  datatype Value =
    | Atom(word: string)
    | Str(body: string)
    | Arr(gap: string, items: seq<Item>)
    | Obj(gap: string, members: seq<Member>)

  datatype Item = Item(before: string, value: Value, after: string)

  datatype Member = Member(before: string, key: string, colon: string, value: Item)

  predicate WellFormed(v: Value) {
    match v
    case Atom(w) => Word(w)
    case Str(b) => StringBody(b)
    case Arr(gap, items) => Blank(gap) && WellFormedItems(items)
    case Obj(gap, members) => Blank(gap) && WellFormedMembers(members)
  }

  predicate WellFormedItem(i: Item) {
    Blank(i.before) && WellFormed(i.value) && Blank(i.after)
  }

  predicate WellFormedItems(items: seq<Item>) {
    items == [] || (WellFormedItem(items[0]) && WellFormedItems(items[1..]))
  }

  predicate WellFormedMembers(ms: seq<Member>) {
    ms == []
    || (Blank(ms[0].before) && StringBody(ms[0].key) && Blank(ms[0].colon) && WellFormedItem(ms[0].value)
        && WellFormedMembers(ms[1..]))
  }

  function Quoted(body: string): string {
    "\"" + body + "\""
  }

  /** The text of a value (section 2 of RFC 8259). */
  function Print(v: Value): string {
    match v
    case Atom(w) => w
    case Str(b) => Quoted(b)
    case Arr(gap, items) => "[" + (gap + PrintItems(items)) + "]"
    case Obj(gap, members) => "{" + (gap + PrintMembers(members)) + "}"
  }

  function PrintItem(i: Item): string {
    i.before + Print(i.value) + i.after
  }

  function PrintItems(items: seq<Item>): string {
    if items == [] then ""
    else if |items| == 1 then PrintItem(items[0])
    else PrintItem(items[0]) + "," + PrintItems(items[1..])
  }

  function PrintMember(m: Member): string {
    m.before + Quoted(m.key) + m.colon + ":" + PrintItem(m.value)
  }

  function PrintMembers(ms: seq<Member>): string {
    if ms == [] then ""
    else if |ms| == 1 then PrintMember(ms[0])
    else PrintMember(ms[0]) + "," + PrintMembers(ms[1..])
  }

  // ---------------------------------------------------------------- scanning leaves a value's depth alone

  /** The state after a text in which the first bracket is not closed; None when it is. */
  function Pass(text: string, s: Scanner, open: char, close: char): Option<Scanner> {
    if text == [] then Some(s)
    else match Feed(s, text[0], open, close)
      case None => None
      case Some(next) => Pass(text[1..], next, open, close)
  }

  lemma {:induction false} PassAppend(a: string, b: string, s: Scanner, open: char, close: char)
    ensures Pass(a + b, s, open, close)
         == match Pass(a, s, open, close) case None => None case Some(t) => Pass(b, t, open, close)
  {
    if a == [] {
      assert a + b == b;
    } else {
      assert (a + b)[1..] == a[1..] + b;
      if Feed(s, a[0], open, close).Some? {
        PassAppend(a[1..], b, Feed(s, a[0], open, close).value, open, close);
      }
    }
  }

  lemma {:induction false} PassThenClose(a: string, b: string, s: Scanner, open: char, close: char)
    requires Pass(a, s, open, close).Some?
    ensures CloseAt(a + b, s, open, close)
         == match CloseAt(b, Pass(a, s, open, close).value, open, close) case None => None case Some(k) => Some(|a| + k)
  {
    if a == [] {
      assert a + b == b;
    } else {
      assert (a + b)[1..] == a[1..] + b;
      PassThenClose(a[1..], b, Feed(s, a[0], open, close).value, open, close);
    }
  }

  predicate Brackets(open: char, close: char) {
    (open == '{' && close == '}') || (open == '[' && close == ']')
  }

  /** Between values, inside at least one bracket. */
  predicate Outside(s: Scanner) {
    s.depth >= 1 && !s.inString && !s.escaping
  }

  predicate Neutral(text: string, s: Scanner, open: char, close: char) {
    Pass(text, s, open, close) == Some(s)
  }

  lemma NeutralAppend(a: string, b: string, s: Scanner, open: char, close: char)
    requires Neutral(a, s, open, close) && Neutral(b, s, open, close)
    ensures Neutral(a + b, s, open, close)
  {
    PassAppend(a, b, s, open, close);
  }

  predicate Plain(c: char) {
    c != '"' && !(c in "{}[]")
  }

  lemma {:induction false} PlainIsNeutral(text: string, s: Scanner, open: char, close: char)
    requires Brackets(open, close) && Outside(s) && forall c | c in text :: Plain(c)
    ensures Neutral(text, s, open, close)
  {
    if text != [] {
      assert Plain(text[0]);
      PlainIsNeutral(text[1..], s, open, close);
    }
  }

  /** Inside a string the scanner reads escapes as the grammar does. */
  lemma {:induction false} BodyStaysInside(body: string, s: Scanner, open: char, close: char)
    requires StringBody(body) && s.inString && !s.escaping
    ensures Neutral(body, s, open, close)
  {
    if body != [] {
      if body[0] == '\\' {
        var e := s.(escaping := true);
        assert Pass(body, s, open, close) == Pass(body[1..], e, open, close);
        assert Pass(body[1..], e, open, close) == Pass(body[1..][1..], s, open, close);
        assert body[1..][1..] == body[2..];
        if body[1] == 'u' {
          HexInside(body[2..6], s, open, close);
          assert body[2..] == body[2..6] + body[6..];
          PassAppend(body[2..6], body[6..], s, open, close);
          BodyStaysInside(body[6..], s, open, close);
        } else {
          BodyStaysInside(body[2..], s, open, close);
        }
      } else {
        BodyStaysInside(body[1..], s, open, close);
      }
    }
  }

  lemma {:induction false} HexInside(text: string, s: Scanner, open: char, close: char)
    requires s.inString && !s.escaping && forall c | c in text :: IsHex(c)
    ensures Neutral(text, s, open, close)
  {
    if text != [] {
      assert IsHex(text[0]);
      HexInside(text[1..], s, open, close);
    }
  }

  lemma QuotedIsNeutral(body: string, s: Scanner, open: char, close: char)
    requires Brackets(open, close) && Outside(s) && StringBody(body)
    ensures Neutral(Quoted(body), s, open, close)
  {
    var t := s.(inString := true);
    QuoteToggles(s, open, close);
    QuoteToggles(t, open, close);
    BodyStaysInside(body, t, open, close);
    PassAppend("\"", body, s, open, close);
    PassAppend("\"" + body, "\"", s, open, close);
  }

  lemma QuoteToggles(s: Scanner, open: char, close: char)
    requires !s.escaping
    ensures Pass("\"", s, open, close) == Some(s.(inString := !s.inString))
  {
    assert "\""[1..] == "";
  }

  /** A bracketed text around something neutral one level deeper is neutral itself. */
  lemma BracketsAreNeutral(inner: string, s: Scanner, open: char, close: char, o: char, c: char)
    requires Brackets(open, close) && Brackets(o, c) && Outside(s)
    requires Neutral(inner, if o == open then s.(depth := s.depth + 1) else s, open, close)
    ensures Neutral([o] + inner + [c], s, open, close)
  {
    var t := if o == open then s.(depth := s.depth + 1) else s;
    assert [o][1..] == [] && [c][1..] == [];
    assert Feed(s, o, open, close) == Some(t) && Feed(t, c, open, close) == Some(s);
    assert Pass([o], s, open, close) == Pass([o][1..], t, open, close);
    assert Pass([c], t, open, close) == Pass([c][1..], s, open, close);
    PassAppend([o], inner, s, open, close);
    PassAppend([o] + inner, [c], s, open, close);
  }

  lemma {:induction false} PrintIsNeutral(v: Value, s: Scanner, open: char, close: char)
    requires Brackets(open, close) && Outside(s) && WellFormed(v)
    ensures Neutral(Print(v), s, open, close)
    decreases v, 0
  {
    match v {
      case Atom(w) => PlainIsNeutral(w, s, open, close);
      case Str(b) => QuotedIsNeutral(b, s, open, close);
      case Arr(gap, items) =>
        var t := if open == '[' then s.(depth := s.depth + 1) else s;
        PlainIsNeutral(gap, t, open, close);
        ItemsAreNeutral(items, t, open, close);
        NeutralAppend(gap, PrintItems(items), t, open, close);
        BracketsAreNeutral(gap + PrintItems(items), s, open, close, '[', ']');
      case Obj(gap, members) =>
        var t := if open == '{' then s.(depth := s.depth + 1) else s;
        PlainIsNeutral(gap, t, open, close);
        MembersAreNeutral(members, t, open, close);
        NeutralAppend(gap, PrintMembers(members), t, open, close);
        BracketsAreNeutral(gap + PrintMembers(members), s, open, close, '{', '}');
    }
  }

  lemma {:induction false} ItemIsNeutral(i: Item, s: Scanner, open: char, close: char)
    requires Brackets(open, close) && Outside(s) && WellFormedItem(i)
    ensures Neutral(PrintItem(i), s, open, close)
    decreases i, 1
  {
    PlainIsNeutral(i.before, s, open, close);
    PlainIsNeutral(i.after, s, open, close);
    PrintIsNeutral(i.value, s, open, close);
    NeutralAppend(i.before, Print(i.value), s, open, close);
    NeutralAppend(i.before + Print(i.value), i.after, s, open, close);
  }

  lemma {:induction false} ItemsAreNeutral(items: seq<Item>, s: Scanner, open: char, close: char)
    requires Brackets(open, close) && Outside(s) && WellFormedItems(items)
    ensures Neutral(PrintItems(items), s, open, close)
    decreases items, 2
  {
    if items != [] {
      ItemIsNeutral(items[0], s, open, close);
      if |items| > 1 {
        ItemsAreNeutral(items[1..], s, open, close);
        PlainIsNeutral(",", s, open, close);
        NeutralAppend(PrintItem(items[0]), ",", s, open, close);
        NeutralAppend(PrintItem(items[0]) + ",", PrintItems(items[1..]), s, open, close);
      }
    }
  }

  lemma {:induction false} MemberIsNeutral(m: Member, s: Scanner, open: char, close: char)
    requires Brackets(open, close) && Outside(s) && WellFormedMembers([m])
    ensures Neutral(PrintMember(m), s, open, close)
    decreases m, 2
  {
    PlainIsNeutral(m.before, s, open, close);
    PlainIsNeutral(m.colon, s, open, close);
    PlainIsNeutral(":", s, open, close);
    QuotedIsNeutral(m.key, s, open, close);
    ItemIsNeutral(m.value, s, open, close);
    NeutralAppend(m.before, Quoted(m.key), s, open, close);
    NeutralAppend(m.before + Quoted(m.key), m.colon, s, open, close);
    NeutralAppend(m.before + Quoted(m.key) + m.colon, ":", s, open, close);
    NeutralAppend(m.before + Quoted(m.key) + m.colon + ":", PrintItem(m.value), s, open, close);
  }

  lemma {:induction false} MembersAreNeutral(ms: seq<Member>, s: Scanner, open: char, close: char)
    requires Brackets(open, close) && Outside(s) && WellFormedMembers(ms)
    ensures Neutral(PrintMembers(ms), s, open, close)
    decreases ms, 3
  {
    if ms != [] {
      assert [ms[0]][1..] == [];
      MemberIsNeutral(ms[0], s, open, close);
      if |ms| > 1 {
        MembersAreNeutral(ms[1..], s, open, close);
        PlainIsNeutral(",", s, open, close);
        NeutralAppend(PrintMember(ms[0]), ",", s, open, close);
        NeutralAppend(PrintMember(ms[0]) + ",", PrintMembers(ms[1..]), s, open, close);
      }
    }
  }

  // ---------------------------------------------------------------- extraction undoes printing

  /** Scanning stops exactly at the end of the first bracketed text. */
  lemma BracketCloses(inner: string, suffix: string, open: char, close: char)
    requires Brackets(open, close) && Neutral(inner, Scanner(1, false, false), open, close)
    ensures CloseAt([open] + inner + [close] + suffix, Scanner(0, false, false), open, close) == Some(|inner| + 2)
  {
    var one := Scanner(1, false, false);
    assert [open][1..] == [];
    assert Pass([open], Scanner(0, false, false), open, close) == Some(one);
    PassAppend([open], inner, Scanner(0, false, false), open, close);
    PassThenClose([open] + inner, [close] + suffix, Scanner(0, false, false), open, close);
    assert [open] + inner + [close] + suffix == ([open] + inner) + ([close] + suffix);
    assert CloseAt([close] + suffix, one, open, close) == Some(1);
  }

  lemma PrintedCloses(v: Value, suffix: string)
    requires WellFormed(v) && (v.Arr? || v.Obj?)
    ensures var o := if v.Obj? then '{' else '[';
            Print(v) != "" && Print(v)[0] == o
            && CloseAt(Print(v) + suffix, Scanner(0, false, false), o, CloseOf(o)) == Some(|Print(v)|)
  {
    var one := Scanner(1, false, false);
    var o := if v.Obj? then '{' else '[';
    var body := if v.Obj? then PrintMembers(v.members) else PrintItems(v.items);
    PlainIsNeutral(v.gap, one, o, CloseOf(o));
    if v.Obj? {
      MembersAreNeutral(v.members, one, o, CloseOf(o));
    } else {
      ItemsAreNeutral(v.items, one, o, CloseOf(o));
    }
    NeutralAppend(v.gap, body, one, o, CloseOf(o));
    BracketCloses(v.gap + body, suffix, o, CloseOf(o));
    assert Print(v) == [o] + (v.gap + body) + [CloseOf(o)];
  }

  lemma {:induction false} FirstOpenIs(text: string, i: nat)
    requires i < |text| && IsOpen(text[i]) && forall j | 0 <= j < i :: !IsOpen(text[j])
    ensures FirstOpen(text) == Some(i)
  {
  }

  lemma BracketedIsPrinted(prefix: string, v: Value, suffix: string)
    requires WellFormed(v) && (v.Arr? || v.Obj?) && forall c | c in prefix :: !IsOpen(c)
    ensures Bracketed(prefix + Print(v) + suffix) == Print(v)
  {
    var p := Print(v);
    var text := prefix + p + suffix;
    PrintedCloses(v, suffix);
    assert forall j | 0 <= j < |prefix| :: text[j] == prefix[j] && prefix[j] in prefix;
    assert text[|prefix|] == p[0];
    FirstOpenIs(text, |prefix|);
    assert text[|prefix|..] == p + suffix;
    assert text[|prefix|..|prefix| + |p|] == p;
  }

  /** Without a fence there is no "```json" either. */
  lemma NoFence(text: string)
    requires Find(text, FENCE, 0) == None
    ensures Fenced(text) == None
  {
    if Find(text, JSON_FENCE, 0).Some? {
      var i := Find(text, JSON_FENCE, 0).value;
      assert text[i..i + 3] == text[i..i + 7][..3] == JSON_FENCE[..3] == FENCE;
      assert At(text, FENCE, i);
    }
  }

  /** Any object or array is extracted exactly, from any surrounding text without an earlier bracket or a fence. */
  lemma ExtractUndoesPrint(prefix: string, v: Value, suffix: string)
    requires WellFormed(v) && (v.Arr? || v.Obj?) && forall c | c in prefix :: !IsOpen(c)
    requires Find(prefix + Print(v) + suffix, FENCE, 0) == None
    ensures Extract(prefix + Print(v) + suffix) == Print(v)
  {
    NoFence(prefix + Print(v) + suffix);
    BracketedIsPrinted(prefix, v, suffix);
  }

  /** On a single line not even fences inside strings get in the way. */
  lemma ExtractFromOneLine(v: Value)
    requires WellFormed(v) && (v.Arr? || v.Obj?) && '\n' !in Print(v)
    ensures Extract(Print(v)) == Print(v)
  {
    var text := Print(v);
    forall j: nat
      ensures !At(text, "\n", j)
    {
      assert j + 1 <= |text| ==> text[j..j + 1][0] == text[j] && text[j] in text;
    }
    assert Fenced(text) == None;
    BracketedIsPrinted("", v, "");
    assert "" + text + "" == text;
  }

  // ---------------------------------------------------------------- fenced blocks and what has no value to find

  /** A search from inside a text finds the first occurrence in what follows. */
  lemma FoundBehind(a: string, rest: string, pat: string)
    requires Find(rest, pat, 0).Some?
    ensures Find(a + rest, pat, |a|) == Some(|a| + Find(rest, pat, 0).value)
  {
    hide Find, At;
    FindShift(a + rest, pat, |a|);
    assert (a + rest)[|a|..] == rest;
  }

  lemma FoundFirst(before: string, pat: string, rest: string)
    requires Find(before + pat, pat, 0) == Some(|before|)
    ensures Find(before + pat + rest, pat, 0) == Some(|before|)
  {
    hide Find, At;
    FindInPrefix(before + pat, rest, pat, 0);
  }

  lemma LineEndIs(line: string, tail: string)
    requires '\n' !in line
    ensures Find(line + "\n" + tail, "\n", 0) == Some(|line|)
  {
    hide Find;
    var s := line + "\n" + tail;
    forall j: nat | j < |line|
      ensures !At(s, "\n", j)
    {
      assert s[j] == line[j] && line[j] in line;
      NotAt(s, "\n", j);
    }
    assert s[|line|..|line| + 1] == "\n";
    FindIs(s, "\n", 0, |line|);
  }

  lemma NotAt(s: string, pat: string, j: nat)
    requires j < |s| && pat != "" && s[j] != pat[0]
    ensures !At(s, pat, j)
  {
    if j + |pat| <= |s| {
      assert s[j..j + |pat|][0] == s[j];
    }
  }

  lemma LineFound(before: string, line: string, tail: string)
    requires '\n' !in line
    ensures Find(before + (line + "\n" + tail), "\n", |before|) == Some(|before| + |line|)
  {
    hide Find, At;
    LineEndIs(line, tail);
    FoundBehind(before, line + "\n" + tail, "\n");
  }

  lemma EndFound(before: string, line: string, tail: string)
    requires Find(tail, FENCE, 0).Some?
    ensures Find(before + (line + "\n" + tail), FENCE, |before| + |line| + 1)
         == Some(|before| + |line| + 1 + Find(tail, FENCE, 0).value)
  {
    hide Find, At;
    var head := before + (line + "\n");
    Assoc(before, line + "\n", tail);
    FoundBehind(head, tail, FENCE);
  }

  lemma TailStarts(body: string, after: string)
    requires Find(body + FENCE, FENCE, 0) == Some(|body|)
    ensures var tail := body + FENCE + after;
            Find(tail, FENCE, 0) == Some(|body|) && |body| <= |tail| && tail[..|body|] == body
  {
    hide Find, At;
    FoundFirst(body, FENCE, after);
  }

  lemma FoundInside(s: string, pat: string)
    requires Find(s, pat, 0).Some?
    ensures Find(s, pat, 0).value + |pat| <= |s|
  {
    hide Find;
  }

  lemma TailCut(before: string, line: string, tail: string, n: nat)
    requires n <= |tail|
    ensures var i, text := |before| + |line| + 1, before + (line + "\n" + tail);
            i + n <= |text| && text[i..i + n] == tail[..n]
  {
  }

  /** Three cuts: the fence at the end of `before`, its line up to the newline, and the body up to the next fence. */
  lemma BlockIsCut(before: string, line: string, tail: string)
    requires FenceStart(before + (line + "\n" + tail)) == Some(|before|) && '\n' !in line
    requires Find(tail, FENCE, 0).Some?
    ensures Fenced(before + (line + "\n" + tail)) == Some(tail[..Find(tail, FENCE, 0).value])
  {
    hide Find, At, FenceStart, Fenced;
    var n := Find(tail, FENCE, 0).value;
    FoundInside(tail, FENCE);
    LineFound(before, line, tail);
    EndFound(before, line, tail);
    TailCut(before, line, tail, n);
    CutsAt(before + (line + "\n" + tail), |before|, |before| + |line|, |before| + |line| + 1 + n);
  }

  lemma CutsAt(text: string, f: nat, line: nat, end: nat)
    requires FenceStart(text) == Some(f) && f <= |text| && Find(text, "\n", f) == Some(line)
    requires line < |text| && Find(text, FENCE, line + 1) == Some(end)
    ensures line < end <= |text| && Fenced(text) == Some(text[line + 1..end])
  {
    hide Find, FenceStart;
  }

  /** The first fence that opens a block: the first that says json, or else the first of any kind. */
  predicate Opens(text: string, at: nat, fence: string) {
    && Find(text, fence, 0) == Some(at)
    && (fence == "```json" || (fence == "```" && Find(text, "```json", 0) == None))
  }

  /** Behind the fence that opens the block, everything from the next line up to the next fence is taken as it is. */
  lemma FencedIsExtracted(before: string, fence: string, info: string, body: string, after: string)
    requires Opens(before + (fence + info + "\n" + (body + "```" + after)), |before|, fence) && '\n' !in info
    requires Find(body + "```", "```", 0) == Some(|body|)
    ensures Extract(before + (fence + info + "\n" + (body + "```" + after))) == body
  {
    hide Find, At, Fenced, Bracketed;
    TailStarts(body, after);
    BlockIsCut(before, fence + info, body + "```" + after);
  }

  lemma NeverClosed(inner: string, s: Scanner, open: char, close: char)
    requires Pass(inner, s, open, close).Some?
    ensures CloseAt(inner, s, open, close) == None
  {
    PassThenClose(inner, "", s, open, close);
    assert inner + "" == inner;
  }

  /** A value that breaks off is taken to the end; a text without a bracket is taken whole. */
  lemma WhatIsNotClosed(prefix: string, open: char, inner: string)
    requires IsOpen(open) && Neutral(inner, Scanner(1, false, false), open, CloseOf(open))
    requires forall c | c in prefix :: !IsOpen(c)
    requires Find(prefix + ([open] + inner), FENCE, 0) == None
    ensures Extract(prefix + ([open] + inner)) == [open] + inner
  {
    var text := prefix + ([open] + inner);
    NoFence(text);
    assert forall j | 0 <= j < |prefix| :: text[j] == prefix[j] && prefix[j] in prefix;
    FirstOpenIs(text, |prefix|);
    assert text[|prefix|..] == [open] + inner && [open][1..] == [];
    var s, one := Scanner(0, false, false), Scanner(1, false, false);
    assert Pass([open], s, open, CloseOf(open)) == Pass([open][1..], one, open, CloseOf(open));
    PassAppend([open], inner, s, open, CloseOf(open));
    NeverClosed([open] + inner, s, open, CloseOf(open));
  }

  lemma WhatHasNoBracket(text: string)
    requires Find(text, FENCE, 0) == None && forall c | c in text :: c != '{' && c != '['
    ensures Extract(text) == text
  {
    NoFence(text);
    hide Find;
    forall j | 0 <= j < |text|
      ensures !IsOpen(text[j])
    {
      assert text[j] in text;
    }
  }
}
