/** Merging markdown texts by "## " sections: the last body wins, the first position is kept. */
module SectionMerge {
  import opened Wrappers
  import opened Texts
  import opened Sequences

  // ---------------------------------------------------------------- cutting texts into segments

  /** A stretch of lines under one title; the empty title is a preamble. */
  datatype Segment = Segment(title: string, lines: seq<string>)

  predicate Heading(line: string) {
    |line| >= 3 && line[..3] == "## "
  }

  function TrimmedEnd(s: string): string {
    if s != "" && (s[|s| - 1] == ' ' || s[|s| - 1] == '\r') then TrimmedEnd(s[..|s| - 1]) else s
  }

  function TitleOf(line: string): string
    requires Heading(line)
  {
    TrimmedEnd(line[3..])
  }

  function Grown(segs: seq<Segment>, line: string): (r: seq<Segment>)
    requires segs != []
    ensures r != []
  {
    if Heading(line) then segs + [Segment(TitleOf(line), [line])]
    else segs[|segs| - 1 := Last(segs).(lines := Last(segs).lines + [line])]
  }

  /** The segments of a list of lines: a preamble, then one per heading. */
  function Cut(lines: seq<string>): (r: seq<Segment>)
    ensures r != []
  {
    if lines == [] then [Segment("", [])] else Grown(Cut(Front(lines)), Last(lines))
  }

  function Segments(texts: seq<string>): seq<Segment> {
    if texts == [] then []
    else Segments(Front(texts)) + if Last(texts) == "" then [] else Cut(Lines(Last(texts)))
  }

  /** The text of lines, each ended by a newline. */
  function Unlines(lines: seq<string>): string {
    if lines == [] then "" else Unlines(Front(lines)) + Last(lines) + "\n"
  }

  // ---------------------------------------------------------------- what merging means

  /** The distinct titles in order of first occurrence. */
  function Titles(segs: seq<Segment>): seq<string> {
    if segs == [] then []
    else
      var before, t := Titles(Front(segs)), Last(segs).title;
      if t == "" || t in before then before else before + [t]
  }

  /** They are exactly the titles that occur, each once. */
  lemma {:induction false} TitlesFacts(segs: seq<Segment>)
    ensures forall t :: t in Titles(segs) <==> t != "" && exists s :: s in segs && s.title == t
    ensures forall i, j | 0 <= i < j < |Titles(segs)| :: Titles(segs)[i] != Titles(segs)[j]
  {
    if segs != [] {
      TitlesFacts(Front(segs));
      assert segs == Front(segs) + [Last(segs)];
    }
  }

  /** The lines of the last segment with this title. */
  function LastUnder(segs: seq<Segment>, title: string): seq<string> {
    if segs == [] then [] else if Last(segs).title == title then Last(segs).lines else LastUnder(Front(segs), title)
  }

  /** The last preamble that is not empty. */
  function Header(segs: seq<Segment>): seq<string> {
    if segs == [] then []
    else if Last(segs).title == "" && Last(segs).lines != [] then Last(segs).lines
    else Header(Front(segs))
  }

  function Bodies(segs: seq<Segment>, titles: seq<string>): string {
    if titles == [] then "" else Bodies(segs, Front(titles)) + Unlines(LastUnder(segs, Last(titles))) + "\n"
  }

  function Stripped(s: string): string {
    if s != "" && Last(s) == '\n' then Stripped(Front(s)) else s
  }

  function Rendered(segs: seq<Segment>): string {
    (if Header(segs) != [] then Unlines(Header(segs)) + "\n" else "") + Bodies(segs, Titles(segs))
  }

  function EndedOnce(s: string): string {
    if Stripped(s) == "" then "" else Stripped(s) + "\n"
  }

  function Merged(texts: seq<string>): string {
    CString(EndedOnce(Rendered(Segments(texts))))
  }

  // ---------------------------------------------------------------- the one-pass loop

  datatype Section = Section(title: string, body: string)

  datatype Table = Table(sections: seq<Section>, index: map<string, nat>, header: string)

  predicate SectionIs(done: seq<Segment>, x: Section, title: string) {
    x == Section(title, Unlines(LastUnder(done, title)))
  }

  predicate IndexIs(titles: seq<string>, index: map<string, nat>, t: string) {
    && (t in index <==> t in titles)
    && (t in index ==> index[t] < |titles| && titles[index[t]] == t)
  }

  /** The state of the pass after the segments `done` have been saved. */
  ghost predicate Saved(done: seq<Segment>, x: Table) {
    var titles := Titles(done);
    && |x.sections| == |titles|
    && (forall i | 0 <= i < |titles| :: SectionIs(done, x.sections[i], titles[i]))
    && (forall t :: IndexIs(titles, x.index, t))
    && x.header == Unlines(Header(done))
  }

  lemma SnocFacts(done: seq<Segment>, s: Segment)
    ensures var more := done + [s];
            && Titles(more)
               == (if s.title == "" || s.title in Titles(done) then Titles(done) else Titles(done) + [s.title])
            && (forall t :: LastUnder(more, t) == if s.title == t then s.lines else LastUnder(done, t))
            && Header(more) == if s.title == "" && s.lines != [] then s.lines else Header(done)
  {
    assert Front(done + [s]) == done;
  }

  lemma {:induction false} UnlinesEmpty(lines: seq<string>)
    ensures Unlines(lines) == "" <==> lines == []
  {
  }

  method SaveCurrent(ghost done: seq<Segment>, title: string, body: string, ghost lines: seq<string>, x: Table)
    returns (y: Table)
    requires Saved(done, x) && body == Unlines(lines)
    ensures Saved(done + [Segment(title, lines)], y)
  {
    ghost var more, titles := done + [Segment(title, lines)], Titles(done);
    SnocFacts(done, Segment(title, lines));
    UnlinesEmpty(lines);
    TitlesFacts(done);
    y := x;
    if title != "" {
      assert IndexIs(titles, x.index, title);
      if title in x.index {
        y := x.(sections := x.sections[x.index[title] := Section(title, body)]);
      } else {
        y := x.(sections := x.sections + [Section(title, body)], index := x.index[title := |x.sections|]);
      }
    } else if body != "" {
      y := x.(header := body);
    }
    forall i | 0 <= i < |Titles(more)|
      ensures SectionIs(more, y.sections[i], Titles(more)[i])
    {
      if i < |titles| {
        assert SectionIs(done, x.sections[i], titles[i]) && titles[i] in titles;
        assert titles[i] == title ==> title in x.index && x.index[title] == i;
      }
    }
    forall t
      ensures IndexIs(Titles(more), y.index, t)
    {
      assert IndexIs(titles, x.index, t);
    }
  }

  lemma NoBreakBefore(text: string, pos: nat, end: nat)
    requires pos <= end <= |text| && forall j: nat | pos <= j < end :: !At(text, "\n", j)
    ensures '\n' !in text[pos..end]
  {
    forall j | pos <= j < end
      ensures text[j] != '\n'
    {
      assert text[j..j + 1] == [text[j]];
      assert !At(text, "\n", j);
    }
  }

  lemma LastLineAt(text: string, pos: nat)
    requires pos < |text| && Find(text, "\n", pos).None?
    ensures Lines(text[pos..]) == [text[pos..]] + Lines(text[|text|..])
  {
    NoBreakBefore(text, pos, |text|);
    assert text[pos..|text|] == text[pos..] && text[|text|..] == "";
    assert [text[pos..]] + [] == [text[pos..]];
  }

  lemma LineAt(text: string, pos: nat, i: nat)
    requires pos <= i < |text| && text[i] == '\n' && '\n' !in text[pos..i]
    ensures Lines(text[pos..]) == [text[pos..i]] + Lines(text[i + 1..])
  {
    hide Lines;
    var rest := text[pos..];
    assert rest[..i - pos] == text[pos..i] && rest[i - pos + 1..] == text[i + 1..] && rest[i - pos] == text[i];
    LinesStep(rest, i - pos);
  }

  lemma InnerLineAt(text: string, pos: nat, i: nat)
    requires pos < |text| && Find(text, "\n", pos) == Some(i)
    ensures pos <= i < |text| && Lines(text[pos..]) == [text[pos..i]] + Lines(text[i + 1..])
  {
    NoBreakBefore(text, pos, i);
    assert text[i..i + 1] == "\n";
    LineAt(text, pos, i);
  }

  /** The next line, without its newline, and where the one after it starts. */
  method NextLine(text: string, pos: nat) returns (line: string, next: nat)
    requires pos < |text|
    ensures pos < next <= |text| && Lines(text[pos..]) == [line] + Lines(text[next..])
  {
    var eol := Find(text, "\n", pos);
    if eol.None? {
      LastLineAt(text, pos);
      line, next := text[pos..], |text|;
    } else {
      InnerLineAt(text, pos, eol.value);
      line, next := text[pos..eol.value], eol.value + 1;
    }
  }

  method TrimTitle(line: string) returns (title: string)
    requires Heading(line)
    ensures title == TitleOf(line)
  {
    title := line[3..];
    while title != "" && (title[|title| - 1] == ' ' || title[|title| - 1] == '\r')
      invariant TrimmedEnd(title) == TitleOf(line)
      decreases |title|
    {
      title := title[..|title| - 1];
    }
  }

  /** The segments of `lines` before the one being collected, and that one. */
  lemma CutStep(lines: seq<string>, line: string)
    ensures var c, d := Cut(lines), Cut(lines + [line]);
            if Heading(line) then Front(d) == c && Last(d) == Segment(TitleOf(line), [line])
            else Front(d) == Front(c) && Last(d) == Segment(Last(c).title, Last(c).lines + [line])
  {
    assert Front(lines + [line]) == lines;
  }

  lemma UnlinesSnoc(lines: seq<string>, line: string)
    ensures Unlines(lines + [line]) == Unlines(lines) + line + "\n"
  {
    assert Front(lines + [line]) == lines;
  }

  /** Saves the segment that is being collected. */
  method SaveLast(ghost done: seq<Segment>, ghost cut: seq<Segment>, title: string, body: string, x: Table)
    returns (y: Table)
    requires cut != [] && Saved(done + Front(cut), x)
    requires Last(cut).title == title && body == Unlines(Last(cut).lines)
    ensures Saved(done + cut, y)
  {
    y := SaveCurrent(done + Front(cut), title, body, Last(cut).lines, x);
    assert done + Front(cut) + [Segment(title, Last(cut).lines)] == done + cut;
  }

  /** One line of a text: a heading saves what was collected and starts a new segment, any other line is collected. */
  method TakeLine(ghost done: seq<Segment>, ghost lines: seq<string>, line: string, title: string, body: string,
                  x: Table)
    returns (y: Table, title1: string, body1: string)
    requires Saved(done + Front(Cut(lines)), x)
    requires Last(Cut(lines)).title == title && body == Unlines(Last(Cut(lines)).lines)
    ensures Saved(done + Front(Cut(lines + [line])), y)
    ensures Last(Cut(lines + [line])).title == title1 && body1 == Unlines(Last(Cut(lines + [line])).lines)
  {
    ghost var cut := Cut(lines);
    CutStep(lines, line);
    y, title1, body1 := x, title, body;
    if Heading(line) {
      y := SaveLast(done, cut, title, body, x);
      title1 := TrimTitle(line);
      body1 := line;
      body1 := body1 + "\n";
      UnlinesSnoc([], line);
      assert [] + [line] == [line] && "" + line + "\n" == line + "\n";
    } else {
      UnlinesSnoc(Last(cut).lines, line);
      body1 := body1 + line;
      body1 := body1 + "\n";
    }
  }

  method MergeText(text: string, ghost done: seq<Segment>, x: Table) returns (y: Table)
    requires Saved(done, x)
    ensures Saved(done + Cut(Lines(text)), y)
  {
    y := x;
    var currentTitle, currentBody := "", "";
    ghost var lines: seq<string> := [];
    ghost var rest := Lines(text);
    var pos := 0;
    assert done + Front(Cut([])) == done;
    assert text[0..] == text && [] + rest == rest;
    while pos < |text|
      invariant 0 <= pos <= |text| && Lines(text) == lines + rest && rest == Lines(text[pos..])
      invariant Last(Cut(lines)).title == currentTitle && currentBody == Unlines(Last(Cut(lines)).lines)
      invariant Saved(done + Front(Cut(lines)), y)
    {
      var line;
      line, pos := NextLine(text, pos);
      y, currentTitle, currentBody := TakeLine(done, lines, line, currentTitle, currentBody, y);
      rest := Lines(text[pos..]);
      Assoc(lines, [line], rest);
      lines := lines + [line];
    }
    assert rest == [] && lines + [] == lines;
    y := SaveLast(done, Cut(lines), currentTitle, currentBody, y);
  }

  lemma SegmentsStep(texts: seq<string>, i: nat)
    requires i < |texts|
    ensures Segments(texts[..i + 1])
         == if texts[i] == "" then Segments(texts[..i]) else Segments(texts[..i]) + Cut(Lines(texts[i]))
  {
    assert Front(texts[..i + 1]) == texts[..i] && Last(texts[..i + 1]) == texts[i];
    assert Segments(texts[..i]) + [] == Segments(texts[..i]);
  }

  lemma NothingSaved()
    ensures Saved([], Table([], map[], ""))
  {
  }

  method Collect(texts: seq<string>) returns (x: Table)
    ensures Saved(Segments(texts), x)
  {
    x := Table([], map[], "");
    NothingSaved();
    var i := 0;
    while i < |texts|
      invariant 0 <= i <= |texts| && Saved(Segments(texts[..i]), x)
    {
      SegmentsStep(texts, i);
      if texts[i] != "" {
        x := MergeText(texts[i], Segments(texts[..i]), x);
      }
      i := i + 1;
    }
    assert texts[..i] == texts;
  }

  method StripAndEnd(s: string) returns (r: string)
    ensures r == EndedOnce(s)
  {
    r := s;
    while r != "" && r[|r| - 1] == '\n'
      invariant Stripped(r) == Stripped(s)
      decreases |r|
    {
      r := r[..|r| - 1];
    }
    if r != "" {
      r := r + "\n";
    }
  }

  lemma BodiesStep(segs: seq<Segment>, titles: seq<string>, i: nat, head: string)
    requires i < |titles|
    ensures head + Bodies(segs, titles[..i + 1])
         == head + Bodies(segs, titles[..i]) + Unlines(LastUnder(segs, titles[i])) + "\n"
  {
    assert Front(titles[..i + 1]) == titles[..i] && Last(titles[..i + 1]) == titles[i];
  }

  /** The loop with its index map computes: distinct titles in first-occurrence order, last body each, last preamble. */
  method MergeSections(texts: seq<string>) returns (result: string)
    ensures result == Merged(texts)
  {
    var table := Collect(texts);
    ghost var segs := Segments(texts);
    ghost var titles := Titles(segs);
    UnlinesEmpty(Header(segs));
    result := "";
    if table.header != "" {
      result := table.header;
      result := result + "\n";
    }
    ghost var head := result;
    var i := 0;
    assert head + "" == head;
    while i < |table.sections|
      invariant 0 <= i <= |table.sections| == |titles|
      invariant result == head + Bodies(segs, titles[..i])
    {
      BodiesStep(segs, titles, i, head);
      assert SectionIs(segs, table.sections[i], titles[i]);
      result := result + table.sections[i].body;
      result := result + "\n";
      i := i + 1;
    }
    assert titles[..i] == titles;
    result := StripAndEnd(result);
    result := CString(result);
  }
}
