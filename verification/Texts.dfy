/**
 Byte strings: a string is a seq<char> in which every char stands for one byte.
 Holds the library searches (`find`, `to_string`) the modelled code calls.
 */
module Texts {
  import opened Wrappers

  const CRLF := "\r\n"
  const BLANK := "\r\n\r\n"

  function Min(a: int, b: int): int {
    if a <= b then a else b
  }

  function Max(a: int, b: int): int {
    if a >= b then a else b
  }

  // ---------------------------------------------------------------- substring search

  predicate At(s: string, pat: string, i: nat) {
    i + |pat| <= |s| && s[i..i + |pat|] == pat
  }

  /** std::string::find: the first index not below `from` at which `pat` occurs. */
  function Find(s: string, pat: string, from: nat): (r: Option<nat>)
    requires from <= |s|
    ensures r.Some? ==> from <= r.value && At(s, pat, r.value)
    ensures r.Some? ==> forall j: nat | from <= j < r.value :: !At(s, pat, j)
    ensures r.None? ==> forall j: nat | from <= j <= |s| :: !At(s, pat, j)
    decreases |s| - from
  {
    if At(s, pat, from) then Some(from)
    else if from == |s| then None
    else Find(s, pat, from + 1)
  }

  /** An occurrence with none before it is the one `Find` returns. */
  lemma FindIs(s: string, pat: string, from: nat, i: nat)
    requires from <= i && At(s, pat, i)
    requires forall j: nat | from <= j < i :: !At(s, pat, j)
    ensures Find(s, pat, from) == Some(i)
  {
  }

  /** A hit inside a prefix is the hit in any longer text: what makes re-searching a growing buffer sound. */
  lemma FindInPrefix(s: string, more: string, pat: string, from: nat)
    requires from <= |s|
    requires Find(s, pat, from).Some?
    ensures Find(s + more, pat, from) == Find(s, pat, from)
  {
    var i := Find(s, pat, from).value;
    assert (s + more)[i..i + |pat|] == s[i..i + |pat|];
    forall j: nat | from <= j < i
      ensures !At(s + more, pat, j)
    {
      assert !At(s, pat, j);
      if j + |pat| <= |s| {
        assert (s + more)[j..j + |pat|] == s[j..j + |pat|];
      }
    }
    FindIs(s + more, pat, from, i);
  }

  lemma AtShift(s: string, pat: string, from: nat, j: nat)
    requires from <= |s|
    ensures At(s[from..], pat, j) <==> At(s, pat, from + j)
  {
    if from + j + |pat| <= |s| {
      assert s[from..][j..j + |pat|] == s[from + j..from + j + |pat|];
    }
  }

  /** Searching a suffix from its start is searching the whole text from that offset. */
  lemma FindShift(s: string, pat: string, from: nat)
    requires from <= |s|
    ensures Find(s, pat, from) ==
            match Find(s[from..], pat, 0) { case None => None case Some(i) => Some(from + i) }
  {
    var t := s[from..];
    match Find(t, pat, 0) {
      case Some(i) =>
        AtShift(s, pat, from, i);
        forall j: nat | from <= j < from + i
          ensures !At(s, pat, j)
        {
          assert !At(t, pat, j - from);
          AtShift(s, pat, from, j - from);
        }
        FindIs(s, pat, from, from + i);
      case None =>
        if Find(s, pat, from).Some? {
          var j := Find(s, pat, from).value;
          AtShift(s, pat, from, j - from);
        }
    }
  }

  // ---------------------------------------------------------------- lines

  /** The lines of a text; a newline at the very end opens no further line. */
  function Lines(s: string): seq<string>
    decreases |s|
  {
    if s == [] then []
    else if '\n' !in s then [s]
    else
      var i := FirstNewline(s);
      [s[..i]] + Lines(s[i + 1..])
  }

  function FirstNewline(s: string): (i: nat)
    requires '\n' in s
    ensures i < |s| && s[i] == '\n' && '\n' !in s[..i]
  {
    if s[0] == '\n' then 0
    else
      assert '\n' in s[1..];
      var k := FirstNewline(s[1..]);
      assert s[..k + 1] == [s[0]] + s[1..][..k];
      k + 1
  }

  lemma {:induction false} LinesAreUnbroken(s: string)
    ensures forall i | 0 <= i < |Lines(s)| :: '\n' !in Lines(s)[i]
    decreases |s|
  {
    if '\n' in s {
      LinesAreUnbroken(s[FirstNewline(s) + 1..]);
    }
  }

  lemma FirstNewlineIs(s: string, i: nat)
    requires i < |s| && s[i] == '\n' && '\n' !in s[..i]
    ensures FirstNewline(s) == i
  {
    var k := FirstNewline(s);
    assert forall j | 0 <= j < i :: s[..i][j] == s[j];
    assert forall j | 0 <= j < k :: s[..k][j] == s[j];
  }

  /** Lines put together again, each but the last ended by a newline. */
  function Rejoined(lines: seq<string>): string {
    if lines == [] then "" else lines[0] + (if |lines| > 1 then "\n" else "") + Rejoined(lines[1..])
  }

  function LastNewline(s: string): string {
    if s != [] && s[|s| - 1] == '\n' then "\n" else ""
  }

  lemma RejoinStep(line: string, rest: string, ls: seq<string>)
    requires rest == Rejoined(ls) + LastNewline(rest) && (ls == [] <==> rest == "")
    ensures line + "\n" + rest == Rejoined([line] + ls) + LastNewline(line + "\n" + rest)
  {
    var all := [line] + ls;
    assert all[1..] == ls && all[0] == line;
    if rest == "" {
      assert Rejoined(all) == line + "" + Rejoined(ls);
      hide Rejoined, LastNewline;
      assert line + "\n" + rest == line + "\n";
      LastIs(line, "\n");
    } else {
      assert Rejoined(all) == line + "\n" + Rejoined(ls);
      LastIs(line + "\n", rest);
      hide Rejoined, LastNewline;
      assert line + "\n" + (Rejoined(ls) + LastNewline(rest)) == line + "\n" + Rejoined(ls) + LastNewline(rest);
    }
  }

  lemma LastIs(a: string, b: string)
    requires b != ""
    ensures LastNewline(a + b) == LastNewline(b)
  {
  }

  /** Cutting into lines loses nothing but the newline a text may end with. */
  lemma {:induction false} LinesRejoin(s: string)
    ensures s == Rejoined(Lines(s)) + LastNewline(s)
    decreases |s|
  {
    if s != [] {
      if '\n' in s {
        LinesUnfold(s);
        var i := FirstNewline(s);
        LinesRejoin(s[i + 1..]);
        assert s == s[..i] + "\n" + s[i + 1..];
        RejoinStep(s[..i], s[i + 1..], Lines(s[i + 1..]));
      } else {
        assert s[|s| - 1] in s && [s][1..] == [];
        assert Rejoined([s]) == s + "" + Rejoined([s][1..]);
      }
    }
  }

  lemma LinesUnfold(s: string)
    requires '\n' in s
    ensures Lines(s) == var i := FirstNewline(s); [s[..i]] + Lines(s[i + 1..])
  {
  }

  lemma LinesStep(s: string, i: nat)
    requires i < |s| && s[i] == '\n' && '\n' !in s[..i]
    ensures Lines(s) == [s[..i]] + Lines(s[i + 1..])
  {
    hide Lines, FirstNewline;
    assert '\n' in s;
    FirstNewlineIs(s, i);
    LinesUnfold(s);
  }

  // ---------------------------------------------------------------- C strings

  /** Up to the first NUL, where a C string ends. */
  function CString(s: string): (r: string)
    ensures '\0' !in s ==> r == s
  {
    if s == "" || s[0] == '\0' then "" else [s[0]] + CString(s[1..])
  }

  lemma {:induction false} CStringEnds(s: string)
    ensures CString(s) <= s && '\0' !in CString(s)
    ensures |CString(s)| < |s| ==> s[|CString(s)|] == '\0'
  {
    if s != "" && s[0] != '\0' {
      CStringEnds(s[1..]);
      assert s == [s[0]] + s[1..];
    }
  }

  // ---------------------------------------------------------------- decimal numbers

  function Digit(n: nat): char
    requires n < 10
  {
    ['0', '1', '2', '3', '4', '5', '6', '7', '8', '9'][n]
  }

  /** std::to_string of a non-negative number. */
  function NatText(n: nat): (r: string)
    ensures r != []
    ensures forall c | c in r :: '0' <= c <= '9'
  {
    if n < 10 then [Digit(n)] else NatText(n / 10) + [Digit(n % 10)]
  }

  /** The number a text of decimal digits denotes. */
  function Decimal(s: string): nat
    requires forall i | 0 <= i < |s| :: '0' <= s[i] <= '9'
  {
    if s == [] then 0 else 10 * Decimal(s[..|s| - 1]) + (s[|s| - 1] - '0') as nat
  }

  lemma DecimalSnoc(s: string, d: nat)
    requires d < 10 && forall i | 0 <= i < |s| :: '0' <= s[i] <= '9'
    ensures var t := s + [Digit(d)];
            (forall i | 0 <= i < |t| :: '0' <= t[i] <= '9') && Decimal(t) == 10 * Decimal(s) + d
  {
    var t := s + [Digit(d)];
    assert t[..|t| - 1] == s && t[|t| - 1] == Digit(d);
  }

  /** A number is written in its decimal digits, without leading zeros. */
  lemma {:induction false} NatTextDenotes(n: nat)
    ensures (forall i | 0 <= i < |NatText(n)| :: '0' <= NatText(n)[i] <= '9')
    ensures Decimal(NatText(n)) == n && (|NatText(n)| > 1 ==> NatText(n)[0] != '0')
  {
    if n < 10 {
      DecimalSnoc("", n);
      assert "" + [Digit(n)] == [Digit(n)];
    } else {
      NatTextDenotes(n / 10);
      DecimalSnoc(NatText(n / 10), n % 10);
    }
  }

  /** std::to_string of a signed number. */
  function IntText(n: int): (r: string)
    ensures forall c | c in r :: c == '-' || '0' <= c <= '9'
  {
    if n < 0 then "-" + NatText(-n) else NatText(n)
  }

  /** A sign for negative numbers only, and the digits of the rest. */
  lemma IntTextDenotes(n: int)
    ensures IntText(n) != "" && (IntText(n)[0] == '-' <==> n < 0)
    ensures var digits := if n < 0 then IntText(n)[1..] else IntText(n);
            && (forall i | 0 <= i < |digits| :: '0' <= digits[i] <= '9')
            && Decimal(digits) == if n < 0 then -n else n
  {
    if n < 0 {
      NatTextDenotes(-n);
    } else {
      NatTextDenotes(n);
    }
  }
}
