/** Chunk size lines: hexadecimal with an overflow check in 64 bits (section 7.1 of RFC 9112). */
module ChunkSize {
  import opened Wrappers
  import opened Texts
  import opened Sequences

  const SIZE_MAX := 0xFFFF_FFFF_FFFF_FFFF

  predicate IsSpace(c: char) {
    c == ' ' || '\t' <= c <= '\r'
  }

  function HexDigit(c: char): Option<nat> {
    if '0' <= c <= '9' then Some((c - '0') as nat)
    else if 'a' <= c <= 'f' then Some((c - 'a') as nat + 10)
    else if 'A' <= c <= 'F' then Some((c - 'A') as nat + 10)
    else None
  }

  predicate AllHex(s: string) {
    forall c | c in s :: HexDigit(c).Some?
  }

  /** The number a string of hexadecimal digits denotes. */
  function HexValue(s: string): nat
    requires AllHex(s)
  {
    if s == [] then 0 else 16 * HexValue(s[..|s| - 1]) + HexDigit(s[|s| - 1]).value
  }

  /** The part before the first semicolon: chunk extensions are ignored. */
  function BeforeExtension(line: string): (r: string)
    ensures r <= line && ';' !in r
  {
    if line == [] || line[0] == ';' then []
    else
      var r := BeforeExtension(line[1..]);
      assert line == [line[0]] + line[1..];
      [line[0]] + r
  }

  function TrimLeft(s: string): string {
    if s != [] && IsSpace(s[0]) then TrimLeft(s[1..]) else s
  }

  function TrimRight(s: string): string {
    if s != [] && IsSpace(s[|s| - 1]) then TrimRight(s[..|s| - 1]) else s
  }

  function SizeField(line: string): string {
    TrimRight(TrimLeft(BeforeExtension(line)))
  }

  /** What a size line says: the exact value of its digits, if there are any, nothing else, and it fits. */
  function SizeOf(line: string): (r: Option<nat>)
    ensures r.Some? ==> r.value <= SIZE_MAX
  {
    var f := SizeField(line);
    if f != [] && AllHex(f) && HexValue(f) <= SIZE_MAX then Some(HexValue(f)) else None
  }

  lemma {:induction false} PrefixIsSmaller(s: string, k: nat)
    requires k <= |s| && AllHex(s)
    ensures AllHex(s[..k]) && HexValue(s[..k]) <= HexValue(s)
  {
    if k < |s| {
      var t := s[..|s| - 1];
      assert t[..k] == s[..k];
      PrefixIsSmaller(t, k);
    } else {
      assert s[..k] == s;
    }
  }

  /** The guard that keeps the 64-bit accumulator from wrapping is exact. */
  lemma GuardIsExact(value: nat, digit: nat)
    requires digit < 16
    ensures value > (SIZE_MAX - digit) / 16 <==> value * 16 + digit > SIZE_MAX
  {
  }

  method AccumulateHex(s: string) returns (r: Option<nat>)
    ensures r == if AllHex(s) && HexValue(s) <= SIZE_MAX then Some(HexValue(s)) else None
  {
    var value: nat := 0;
    var i := 0;
    while i < |s|
      invariant 0 <= i <= |s|
      invariant AllHex(s[..i]) && value == HexValue(s[..i]) <= SIZE_MAX
    {
      var digit := HexDigit(s[i]);
      assert s[..i + 1][..i] == s[..i];
      if digit.None? {
        assert s[i] in s;
        return None;
      }
      assert AllHex(s[..i + 1]) by {
        assert s[..i + 1] == s[..i] + [s[i]];
      }
      GuardIsExact(value, digit.value);
      if value > (SIZE_MAX - digit.value) / 16 {
        if AllHex(s) {
          PrefixIsSmaller(s, i + 1);
        }
        return None;
      }
      value := value * 16 + digit.value;
      i := i + 1;
    }
    assert s[..i] == s;
    r := Some(value);
  }

  lemma BeforeExtensionIs(line: string, i: nat)
    requires i <= |line| && (forall j | 0 <= j < i :: line[j] != ';') && (i < |line| ==> line[i] == ';')
    ensures BeforeExtension(line) == line[..i]
  {
    if i > 0 {
      var rest := line[1..];
      assert forall j | 0 <= j < i - 1 :: rest[j] == line[j + 1];
      BeforeExtensionIs(rest, i - 1);
      assert line[..i] == [line[0]] + rest[..i - 1];
    }
  }

  method ParseChunkSize(line: string) returns (size: Option<nat>)
    ensures size == SizeOf(line)
  {
    var end := 0;
    while end < |line| && line[end] != ';'
      invariant 0 <= end <= |line| && forall j | 0 <= j < end :: line[j] != ';'
    {
      end := end + 1;
    }
    BeforeExtensionIs(line, end);
    var text := line[..end];
    while text != [] && IsSpace(text[0])
      invariant TrimLeft(text) == TrimLeft(line[..end])
      decreases |text|
    {
      text := text[1..];
    }
    while text != [] && IsSpace(text[|text| - 1])
      invariant TrimRight(text) == SizeField(line)
      decreases |text|
    {
      text := text[..|text| - 1];
    }
    if text == [] {
      return None;
    }
    size := AccumulateHex(text);
  }

  // ---------------------------------------------------------------- writing sizes

  function HexText(n: nat): (r: string)
    ensures r != [] && AllHex(r)
  {
    if n < 16 then [HexChar(n)] else HexText(n / 16) + [HexChar(n % 16)]
  }

  function HexChar(n: nat): (c: char)
    requires n < 16
    ensures HexDigit(c) == Some(n) && !IsSpace(c) && c != ';'
  {
    if n < 10 then '0' + n as char else 'a' + (n - 10) as char
  }

  lemma {:induction false} HexTextValue(n: nat)
    ensures HexValue(HexText(n)) == n
    ensures forall c | c in HexText(n) :: !IsSpace(c) && c != ';'
  {
    var t := HexText(n);
    if n < 16 {
      assert t[..|t| - 1] == [];
    } else {
      HexTextValue(n / 16);
      assert t[..|t| - 1] == HexText(n / 16);
    }
  }

  /** A size in plain hexadecimal is read back exactly, up to and including the largest 64-bit number. */
  lemma SizeRoundTrip(n: nat)
    ensures SizeOf(HexText(n)) == if n <= SIZE_MAX then Some(n) else None
    ensures forall c | c in HexText(n) :: c != '\r' && c != '\n'
  {
    HexTextValue(n);
    var t := HexText(n);
    assert t[..|t|] == t;
    forall j | 0 <= j < |t|
      ensures t[j] != ';'
    {
      assert t[j] in t;
    }
    BeforeExtensionIs(t, |t|);
  }

  // ---------------------------------------------------------------- every spelling of a size

  const LOWER_DIGITS := "0123456789abcdef"
  const UPPER_DIGITS := "0123456789ABCDEF"

  /** The characters std::isspace accepts in the C locale. */
  predicate Blank(c: char) {
    c as int in {0x09, 0x0A, 0x0B, 0x0C, 0x0D, 0x20}
  }

  predicate Blanks(s: string) {
    forall i | 0 <= i < |s| :: Blank(s[i])
  }

  /** `n` in base sixteen without leading zeros; `upper` gives the case of each digit, the last digit's first. */
  function Spelled(n: nat, upper: seq<bool>): (s: string)
    ensures s != []
  {
    var digits := if upper != [] && upper[0] then UPPER_DIGITS else LOWER_DIGITS;
    (if n < 16 then [] else Spelled(n / 16, if upper == [] then [] else upper[1..])) + [digits[n % 16]]
  }

  function Zeros(n: nat): (r: string)
    ensures |r| == n && forall i | 0 <= i < n :: r[i] == '0'
  {
    seq(n, i => '0')
  }

  /** A size line: blanks, leading zeros, the number in any case, blanks, and an extension after a semicolon. */
  function Spelling(left: string, zeros: nat, n: nat, upper: seq<bool>, right: string, extension: string): string {
    left + (Zeros(zeros) + Spelled(n, upper)) + right + extension
  }

  predicate Extension(s: string) {
    s == [] || s[0] == ';'
  }

  lemma DigitsAre(v: nat)
    requires v < 16
    ensures HexDigit(LOWER_DIGITS[v]) == Some(v) == HexDigit(UPPER_DIGITS[v])
    ensures var l, u := LOWER_DIGITS[v], UPPER_DIGITS[v];
            l != ';' && u != ';' && !IsSpace(l) && !IsSpace(u)
  {
    match v {
      case 0 => case 1 => case 2 => case 3 => case 4 => case 5 => case 6 => case 7 =>
      case 8 => case 9 => case 10 => case 11 => case 12 => case 13 => case 14 => case _ =>
    }
  }

  /** A character is a digit if and only if it is one of these, and then it counts for its position among them. */
  lemma DigitIs(c: char)
    ensures match HexDigit(c)
            case Some(v) => v < 16 && (c == LOWER_DIGITS[v] || c == UPPER_DIGITS[v])
            case None => c !in LOWER_DIGITS && c !in UPPER_DIGITS
  {
    if HexDigit(c).None? {
      if c in LOWER_DIGITS {
        var v :| 0 <= v < |LOWER_DIGITS| && LOWER_DIGITS[v] == c;
        DigitsAre(v);
      }
      if c in UPPER_DIGITS {
        var v :| 0 <= v < |UPPER_DIGITS| && UPPER_DIGITS[v] == c;
        DigitsAre(v);
      }
    }
  }

  /** Appending a digit. */
  lemma HexSnoc(s: string, c: char)
    ensures AllHex(s + [c]) <==> AllHex(s) && HexDigit(c).Some?
    ensures AllHex(s + [c]) ==> HexValue(s + [c]) == 16 * HexValue(s) + HexDigit(c).value
  {
    assert (s + [c])[..|s|] == s && (s + [c])[|s|] == c;
    assert forall x | x in s :: x in s + [c];
  }

  predicate PlainDigits(s: string) {
    AllHex(s) && forall c | c in s :: !IsSpace(c) && c != ';'
  }

  lemma PlainSnoc(s: string, c: char)
    requires PlainDigits(s) && HexDigit(c).Some? && !IsSpace(c) && c != ';'
    ensures PlainDigits(s + [c])
  {
    HexSnoc(s, c);
  }

  lemma {:induction false} ZerosArePlain(k: nat)
    ensures PlainDigits(Zeros(k)) && HexValue(Zeros(k)) == 0
  {
    if k > 0 {
      ZerosArePlain(k - 1);
      assert Zeros(k) == Zeros(k - 1) + ['0'];
      PlainSnoc(Zeros(k - 1), '0');
      HexSnoc(Zeros(k - 1), '0');
    }
  }

  lemma SpelledUnfolds(n: nat, upper: seq<bool>) returns (c: char, rest: seq<bool>)
    ensures Spelled(n, upper) == (if n < 16 then [] else Spelled(n / 16, rest)) + [c]
    ensures HexDigit(c) == Some(n % 16) && !IsSpace(c) && c != ';'
  {
    DigitsAre(n % 16);
    c := (if upper != [] && upper[0] then UPPER_DIGITS else LOWER_DIGITS)[n % 16];
    rest := if upper == [] then [] else upper[1..];
  }

  lemma PlainValueSnoc(s: string, c: char, d: nat)
    requires PlainDigits(s) && HexDigit(c) == Some(d) && !IsSpace(c) && c != ';'
    ensures PlainDigits(s + [c]) && HexValue(s + [c]) == 16 * HexValue(s) + d
  {
    PlainSnoc(s, c);
    HexSnoc(s, c);
  }

  lemma {:induction false} SpelledValue(k: nat, n: nat, upper: seq<bool>)
    ensures PlainDigits(Zeros(k) + Spelled(n, upper)) && HexValue(Zeros(k) + Spelled(n, upper)) == n
    decreases n
  {
    var c, rest := SpelledUnfolds(n, upper);
    hide Spelled, PlainDigits, HexValue, HexDigit, Zeros;
    if n < 16 {
      ZerosArePlain(k);
      Ends([c]);
      PlainValueSnoc(Zeros(k), c, n);
    } else {
      SpelledValue(k, n / 16, rest);
      PlainValueSnoc(Zeros(k) + Spelled(n / 16, rest), c, n % 16);
      Assoc(Zeros(k), Spelled(n / 16, rest), [c]);
    }
  }

  lemma {:induction false} TrimLeftIs(left: string, s: string)
    requires Blanks(left) && s != [] && !IsSpace(s[0])
    ensures TrimLeft(left + s) == s
  {
    if left == [] {
      assert left + s == s;
    } else {
      assert Blank(left[0]) && (left + s)[1..] == left[1..] + s;
      TrimLeftIs(left[1..], s);
    }
  }

  lemma {:induction false} TrimRightIs(s: string, right: string)
    requires Blanks(right) && s != [] && !IsSpace(s[|s| - 1])
    ensures TrimRight(s + right) == s
  {
    if right == [] {
      assert s + right == s;
    } else {
      var t := s + right;
      assert Blank(right[|right| - 1]) && t[..|t| - 1] == s + right[..|right| - 1];
      TrimRightIs(s, right[..|right| - 1]);
    }
  }

  lemma FieldIs(left: string, s: string, right: string, extension: string)
    requires Blanks(left) && Blanks(right) && Extension(extension) && PlainDigits(s) && s != []
    ensures SizeField(left + s + right + extension) == s
  {
    var line, field := left + s + right + extension, left + s + right;
    forall j | 0 <= j < |field|
      ensures line[j] != ';'
    {
      assert line[j] == field[j] && (field[j] in left || field[j] in s || field[j] in right);
    }
    assert line[..|field|] == field;
    BeforeExtensionIs(line, |field|);
    assert s[0] in s && s[|s| - 1] in s;
    assert field == left + (s + right) && (s + right)[0] == s[0];
    TrimLeftIs(left, s + right);
    TrimRightIs(s, right);
  }

  /** Every spelling of a number is read as that number if it fits 64 bits, and refused otherwise. */
  lemma SpellingIsRead(left: string, zeros: nat, n: nat, upper: seq<bool>, right: string, extension: string)
    requires Blanks(left) && Blanks(right) && Extension(extension)
    ensures SizeOf(Spelling(left, zeros, n, upper, right, extension)) == if n <= SIZE_MAX then Some(n) else None
  {
    SpelledValue(zeros, n, upper);
    FieldIs(left, Zeros(zeros) + Spelled(n, upper), right, extension);
  }

  lemma SpelledSnoc(n: nat, c: char, upper: seq<bool>) returns (longer: seq<bool>)
    requires HexDigit(c).Some?
    ensures var v := HexDigit(c).value;
            Spelled(16 * n + v, longer) == (if n == 0 then [] else Spelled(n, upper)) + [c]
  {
    DigitIs(c);
    var v := HexDigit(c).value;
    hide HexDigit;
    longer := [c == UPPER_DIGITS[v]] + upper;
    assert (16 * n + v) / 16 == n && (16 * n + v) % 16 == v;
    SpelledStep(16 * n + v, c == UPPER_DIGITS[v], upper);
  }

  lemma SpelledStep(m: nat, up: bool, upper: seq<bool>)
    ensures Spelled(m, [up] + upper)
         == (if m < 16 then [] else Spelled(m / 16, upper)) + [(if up then UPPER_DIGITS else LOWER_DIGITS)[m % 16]]
  {
    assert ([up] + upper)[1..] == upper;
  }

  lemma ZerosSnoc(k: nat)
    ensures Zeros(k + 1) == Zeros(k) + ['0'] && Zeros(0) == [] && forall up :: Spelled(0, up) == ['0']
  {
    assert LOWER_DIGITS[0] == '0' && UPPER_DIGITS[0] == '0';
  }

  /** One more digit behind zeros and a spelling. */
  lemma OneMoreDigit(k: nat, n: nat, up: seq<bool>, c: char) returns (zeros: nat, upper: seq<bool>)
    requires HexDigit(c).Some?
    ensures Zeros(k) + Spelled(n, up) + [c] == Zeros(zeros) + Spelled(16 * n + HexDigit(c).value, upper)
  {
    upper := SpelledSnoc(n, c, up);
    ZerosSnoc(k);
    hide Zeros, Spelled, HexDigit;
    zeros := if n == 0 then k + 1 else k;
    Assoc(Zeros(k), Spelled(n, up), [c]);
    Ends([c]);
  }

  lemma FirstDigit(c: char) returns (upper: seq<bool>)
    requires HexDigit(c).Some?
    ensures [c] == Zeros(0) + Spelled(HexDigit(c).value, upper)
  {
    upper := SpelledSnoc(0, c, []);
    ZerosSnoc(0);
    hide Zeros, Spelled, HexDigit;
    Ends([c]);
  }

  /** Digits are zeros and a spelling of their value. */
  lemma {:induction false} DigitsSpell(s: string) returns (zeros: nat, upper: seq<bool>)
    requires s != [] && AllHex(s)
    ensures s == Zeros(zeros) + Spelled(HexValue(s), upper)
  {
    hide Zeros, Spelled, HexDigit, AllHex;
    var g, c := s[..|s| - 1], s[|s| - 1];
    assert s == g + [c];
    HexSnoc(g, c);
    if g == [] {
      zeros := 0;
      upper := FirstDigit(c);
      assert HexValue(g) == 0;
    } else {
      var k, up := DigitsSpell(g);
      zeros, upper := OneMoreDigit(k, HexValue(g), up, c);
    }
  }

  lemma {:induction false} CutAtExtension(line: string) returns (extension: string)
    ensures Extension(extension) && line == BeforeExtension(line) + extension
  {
    if line == [] || line[0] == ';' {
      extension := line;
      Ends(line);
    } else {
      extension := CutAtExtension(line[1..]);
      assert BeforeExtension(line) == [line[0]] + BeforeExtension(line[1..]);
      hide BeforeExtension;
      Assoc([line[0]], BeforeExtension(line[1..]), extension);
      assert line == [line[0]] + line[1..];
    }
  }

  lemma {:induction false} LeftBlanks(s: string) returns (left: string)
    ensures Blanks(left) && s == left + TrimLeft(s)
  {
    if s != [] && IsSpace(s[0]) {
      var rest := LeftBlanks(s[1..]);
      left := [s[0]] + rest;
    } else {
      left := [];
    }
  }

  lemma {:induction false} RightBlanks(s: string) returns (right: string)
    ensures Blanks(right) && s == TrimRight(s) + right
  {
    if s != [] && IsSpace(s[|s| - 1]) {
      var rest := RightBlanks(s[..|s| - 1]);
      right := rest + [s[|s| - 1]];
    } else {
      right := [];
    }
  }

  /** Nothing else is accepted: a line that is read as `n` is a spelling of `n`. */
  lemma OnlySpellingsAreRead(line: string)
    returns (left: string, zeros: nat, upper: seq<bool>, right: string, extension: string)
    requires SizeOf(line).Some?
    ensures Blanks(left) && Blanks(right) && Extension(extension)
    ensures line == Spelling(left, zeros, SizeOf(line).value, upper, right, extension)
  {
    var f := SizeField(line);
    extension := CutAtExtension(line);
    var field := BeforeExtension(line);
    left := LeftBlanks(field);
    right := RightBlanks(TrimLeft(field));
    zeros, upper := DigitsSpell(f);
    hide BeforeExtension, TrimLeft, TrimRight, Zeros, Spelled, HexValue, AllHex, Blanks;
    Assoc(left, f, right);
  }
}
