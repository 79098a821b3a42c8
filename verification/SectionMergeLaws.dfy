/** Merging a merged text again changes nothing but blank lines at the ends of sections. */
module SectionMergeLaws {
  import opened Wrappers
  import opened Texts
  import opened SectionMerge
  import opened Sequences

  // ---------------------------------------------------------------- lines and text

  predicate NoBreak(lines: seq<string>) {
    forall i | 0 <= i < |lines| :: '\n' !in lines[i]
  }

  function TrimEmpty(lines: seq<string>): seq<string> {
    if lines != [] && Last(lines) == "" then TrimEmpty(Front(lines)) else lines
  }

  lemma {:induction false} UnlinesAppend(a: seq<string>, b: seq<string>)
    ensures Unlines(a + b) == Unlines(a) + Unlines(b)
  {
    if b == [] {
      assert a + b == a;
    } else {
      assert Front(a + b) == a + Front(b) && Last(a + b) == Last(b);
      UnlinesAppend(a, Front(b));
      var u, v, l := Unlines(a), Unlines(Front(b)), Last(b);
      assert u + v + l + "\n" == u + (v + l + "\n");
    }
  }

  lemma UnlinesOne(l: string)
    ensures Unlines([l]) == l + "\n"
  {
    assert Front([l]) == [] && "" + l + "\n" == l + "\n";
  }

  lemma {:induction false} LinesUnlines(lines: seq<string>)
    requires NoBreak(lines)
    ensures Lines(Unlines(lines)) == lines
  {
    if lines != [] {
      var l, rest := lines[0], lines[1..];
      assert lines == [l] + rest;
      UnlinesAppend([l], rest);
      UnlinesOne(l);
      var s := Unlines(lines);
      assert s == l + "\n" + Unlines(rest);
      assert s[..|l|] == l && s[|l|] == '\n' && s[|l| + 1..] == Unlines(rest);
      LinesStep(s, |l|);
      LinesUnlines(rest);
    }
  }

  /** Stripping newlines and ending once is dropping the empty lines at the end. */
  lemma {:induction false} EndedOnceIsTrim(lines: seq<string>)
    requires NoBreak(lines)
    ensures EndedOnce(Unlines(lines)) == Unlines(TrimEmpty(lines))
  {
    if lines != [] {
      var u, l := Unlines(Front(lines)), Last(lines);
      var s := u + l;
      assert Unlines(lines) == s + "\n" && Front(s + "\n") == s;
      assert Stripped(s + "\n") == Stripped(s);
      assert '\n' !in lines[|lines| - 1] && NoBreak(Front(lines));
      if l == "" {
        assert s == u;
        EndedOnceIsTrim(Front(lines));
      } else {
        assert Last(s) == Last(l) && Last(l) in l;
        assert Stripped(s) == s;
      }
    }
  }

  // ---------------------------------------------------------------- segments are whole

  /** Its heading, if it has one, comes first and gives the title. */
  predicate Whole(s: Segment) {
    && (forall i | 1 <= i < |s.lines| :: !Heading(s.lines[i]))
    && (if s.lines != [] && Heading(s.lines[0]) then s.title == TitleOf(s.lines[0]) else s.title == "")
    && NoBreak(s.lines)
  }

  predicate AllWhole(segs: seq<Segment>) {
    forall i | 0 <= i < |segs| :: Whole(segs[i])
  }

  lemma {:induction false} CutIsWhole(lines: seq<string>)
    requires NoBreak(lines)
    ensures AllWhole(Cut(lines))
  {
    if lines != [] {
      var c, l := Cut(Front(lines)), Last(lines);
      CutIsWhole(Front(lines));
      assert Whole(Last(c));
    }
  }

  lemma {:induction false} SegmentsAreWhole(texts: seq<string>)
    ensures AllWhole(Segments(texts))
  {
    if texts != [] {
      SegmentsAreWhole(Front(texts));
      var lines := Lines(Last(texts));
      LinesAreUnbroken(Last(texts));
      CutIsWhole(lines);
    }
  }

  lemma {:induction false} LastUnderIsWhole(segs: seq<Segment>, t: string)
    requires AllWhole(segs)
    ensures LastUnder(segs, t) != [] || t in Titles(segs) ==> Whole(Segment(t, LastUnder(segs, t)))
    ensures t in Titles(segs) ==> t != "" && LastUnder(segs, t) != [] && Heading(LastUnder(segs, t)[0])
  {
    TitlesFacts(segs);
    if segs != [] {
      assert Whole(Last(segs));
      if Last(segs).title != t {
        LastUnderIsWhole(Front(segs), t);
        TitlesFacts(Front(segs));
      }
    }
  }

  lemma {:induction false} HeaderIsWhole(segs: seq<Segment>)
    requires AllWhole(segs)
    ensures Whole(Segment("", Header(segs)))
  {
    if segs != [] {
      assert Whole(Last(segs));
      HeaderIsWhole(Front(segs));
    }
  }

  // ---------------------------------------------------------------- cutting what was joined

  lemma GrownPrefix(a: seq<Segment>, d: seq<Segment>, line: string)
    requires |d| >= 2
    ensures Grown(a + d[1..], line) == a + Grown(d, line)[1..] && |Grown(d, line)| >= 2
  {
  }

  lemma {:induction false} CutAppend(a: seq<string>, b: seq<string>)
    requires b != [] && Heading(b[0])
    ensures |Cut(b)| >= 2 && Cut(a + b) == Cut(a) + Cut(b)[1..]
  {
    var f, l := Front(b), Last(b);
    assert Front(a + b) == a + f && Last(a + b) == l;
    if f == [] {
      assert a + f == a;
      assert Cut(b) == [Segment("", [])] + [Segment(TitleOf(l), [l])];
    } else {
      CutAppend(a, f);
      GrownPrefix(Cut(a), Cut(f), l);
    }
  }

  lemma {:induction false} CutHeaded(lines: seq<string>)
    requires lines != [] && Heading(lines[0]) && forall i | 1 <= i < |lines| :: !Heading(lines[i])
    ensures Cut(lines) == [Segment("", []), Segment(TitleOf(lines[0]), lines)]
  {
    if |lines| == 1 {
      assert Front(lines) == [] && lines == [lines[0]];
    } else {
      CutHeaded(Front(lines));
      assert lines == Front(lines) + [Last(lines)];
    }
  }

  lemma {:induction false} CutPlain(lines: seq<string>)
    requires forall i | 0 <= i < |lines| :: !Heading(lines[i])
    ensures Cut(lines) == [Segment("", lines)]
  {
    if lines != [] {
      CutPlain(Front(lines));
      assert lines == Front(lines) + [Last(lines)];
    }
  }

  /** Dropping empty lines at the end touches the last segment only. */
  lemma {:induction false} CutTrim(lines: seq<string>)
    ensures var c := Cut(lines);
            Cut(TrimEmpty(lines)) == Front(c) + [Segment(Last(c).title, TrimEmpty(Last(c).lines))]
  {
    var c := Cut(lines);
    assert c == Front(c) + [Last(c)];
    if lines != [] {
      var f, l := Front(lines), Last(lines);
      assert lines == f + [l];
      if l == "" {
        CutTrim(f);
        BlankIsCollected(f);
      } else {
        LastLineIsKept(f, l);
      }
    }
  }

  /** A blank line goes to the segment being collected, and trimming takes it away again. */
  lemma BlankIsCollected(f: seq<string>)
    ensures var b, c := Cut(f), Cut(f + [""]);
            && Front(c) == Front(b) && Last(c).title == Last(b).title
            && TrimEmpty(Last(c).lines) == TrimEmpty(Last(b).lines)
    ensures TrimEmpty(f + [""]) == TrimEmpty(f)
  {
    CutStep(f, "");
    hide Cut;
    var last := Last(Cut(f)).lines;
    assert Front(last + [""]) == last && Last(last + [""]) == "";
    assert Front(f + [""]) == f && Last(f + [""]) == "";
  }

  lemma LastLineIsKept(f: seq<string>, l: string)
    requires l != ""
    ensures var c := Cut(f + [l]);
            && TrimEmpty(f + [l]) == f + [l] && TrimEmpty(Last(c).lines) == Last(c).lines
  {
    CutStep(f, l);
    hide Cut;
    assert Last(f + [l]) == l;
  }

  // ---------------------------------------------------------------- the merged text as segments

  /** The sections as rendered: each with the blank line after it. */
  function Sections(segs: seq<Segment>, titles: seq<string>): (r: seq<Segment>)
    ensures |r| == |titles|
  {
    if titles == [] then []
    else Sections(segs, Front(titles)) + [Segment(Last(titles), LastUnder(segs, Last(titles)) + [""])]
  }

  function Flat(segs: seq<Segment>): seq<string> {
    if segs == [] then [] else Flat(Front(segs)) + Last(segs).lines
  }

  function HeaderLines(segs: seq<Segment>): seq<string> {
    if Header(segs) != [] then Header(segs) + [""] else []
  }

  /** The lines of the merged text before trailing blank lines are dropped. */
  function AllLines(segs: seq<Segment>): seq<string> {
    HeaderLines(segs) + Flat(Sections(segs, Titles(segs)))
  }

  lemma UnlinesBlankAfter(lines: seq<string>)
    ensures Unlines(lines + [""]) == Unlines(lines) + "\n"
  {
    UnlinesSnoc(lines, "");
    assert Unlines(lines) + "" + "\n" == Unlines(lines) + "\n";
  }

  lemma {:induction false} BodiesAreFlat(segs: seq<Segment>, titles: seq<string>)
    ensures Bodies(segs, titles) == Unlines(Flat(Sections(segs, titles)))
  {
    if titles != [] {
      var before, last := Sections(segs, Front(titles)), LastUnder(segs, Last(titles));
      BodiesAreFlat(segs, Front(titles));
      assert Front(Sections(segs, titles)) == before;
      UnlinesAppend(Flat(before), last + [""]);
      UnlinesBlankAfter(last);
      var u, v := Unlines(Flat(before)), Unlines(last);
      assert u + v + "\n" == u + (v + "\n");
    }
  }

  lemma RenderedIsLines(segs: seq<Segment>)
    ensures Rendered(segs) == Unlines(AllLines(segs))
  {
    var s := Flat(Sections(segs, Titles(segs)));
    BodiesAreFlat(segs, Titles(segs));
    UnlinesAppend(HeaderLines(segs), s);
    if Header(segs) != [] {
      UnlinesBlankAfter(Header(segs));
    }
  }

  predicate HeadedSection(s: Segment) {
    Whole(s) && s.lines != [] && Heading(s.lines[0])
  }

  lemma {:induction false} SectionsAreHeaded(segs: seq<Segment>, titles: seq<string>)
    requires AllWhole(segs) && forall t | t in titles :: t in Titles(segs)
    ensures forall i | 0 <= i < |titles| :: HeadedSection(Sections(segs, titles)[i])
  {
    if titles != [] {
      assert titles == Front(titles) + [Last(titles)];
      SectionsAreHeaded(segs, Front(titles));
      LastUnderIsWhole(segs, Last(titles));
    }
  }

  lemma CutThenSection(lines: seq<string>, s: Segment)
    requires HeadedSection(s)
    ensures Cut(lines + s.lines) == Cut(lines) + [s]
  {
    CutHeaded(s.lines);
    CutAppend(lines, s.lines);
    assert Cut(s.lines)[1..] == [s];
  }

  lemma {:induction false} CutFlat(head: seq<string>, secs: seq<Segment>)
    requires forall i | 0 <= i < |secs| :: HeadedSection(secs[i])
    ensures Cut(head + Flat(secs)) == Cut(head) + secs
  {
    if secs == [] {
      assert head + [] == head && Cut(head) + [] == Cut(head);
    } else {
      var f, s := Front(secs), Last(secs);
      CutFlat(head, f);
      assert HeadedSection(secs[|secs| - 1]);
      CutThenSection(head + Flat(f), s);
      Assoc(head, Flat(f), s.lines);
      Assoc(Cut(head), f, [s]);
      assert f + [s] == secs;
    }
  }

  lemma {:induction false} FlatNoBreak(secs: seq<Segment>)
    requires AllWhole(secs)
    ensures NoBreak(Flat(secs))
  {
    if secs != [] {
      FlatNoBreak(Front(secs));
      assert Whole(Last(secs));
    }
  }

  // ---------------------------------------------------------------- reading the parts back

  predicate Untitled(segs: seq<Segment>) {
    forall i | 0 <= i < |segs| :: segs[i].title == ""
  }

  lemma {:induction false} UntitledView(head: seq<Segment>)
    requires Untitled(head)
    ensures Titles(head) == []
    ensures forall t | t != "" :: LastUnder(head, t) == []
  {
    if head != [] {
      UntitledView(Front(head));
    }
  }

  predicate DistinctTitles(titles: seq<string>) {
    && (forall i | 0 <= i < |titles| :: titles[i] != "")
    && forall i, j | 0 <= i < j < |titles| :: titles[i] != titles[j]
  }

  lemma {:induction false} SectionsView(head: seq<Segment>, segs: seq<Segment>, titles: seq<string>)
    requires Untitled(head) && DistinctTitles(titles)
    ensures var c := head + Sections(segs, titles);
            && Titles(c) == titles && Header(c) == Header(head)
            && forall i | 0 <= i < |titles| :: LastUnder(c, titles[i]) == LastUnder(segs, titles[i]) + [""]
  {
    var c := head + Sections(segs, titles);
    if titles == [] {
      assert c == head;
      UntitledView(head);
    } else {
      var f, t := Front(titles), Last(titles);
      SectionsView(head, segs, f);
      var b := head + Sections(segs, f);
      assert c == b + [Segment(t, LastUnder(segs, t) + [""])];
      SnocFacts(b, Segment(t, LastUnder(segs, t) + [""]));
      assert t !in f;
      assert titles == f + [t];
      forall i | 0 <= i < |titles|
        ensures LastUnder(c, titles[i]) == LastUnder(segs, titles[i]) + [""]
      {
        if i < |f| {
          assert f[i] == titles[i] && titles[i] != t;
        }
      }
    }
  }

  lemma TrimBlankAfter(lines: seq<string>)
    ensures TrimEmpty(lines + [""]) == TrimEmpty(lines)
  {
    assert Front(lines + [""]) == lines;
  }

  lemma {:induction false} TrimTwice(lines: seq<string>)
    ensures TrimEmpty(TrimEmpty(lines)) == TrimEmpty(lines)
  {
    if lines != [] && Last(lines) == "" {
      TrimTwice(Front(lines));
    }
  }

  /** Trimming the last segment changes nothing else. */
  lemma TrimmedView(c: seq<Segment>)
    requires c != []
    ensures var d := Front(c) + [Segment(Last(c).title, TrimEmpty(Last(c).lines))];
            && Titles(d) == Titles(c)
            && (forall t | t != "" :: TrimEmpty(LastUnder(d, t)) == TrimEmpty(LastUnder(c, t)))
            && (Last(c).title != "" || Header(Front(c)) == [] ==> TrimEmpty(Header(d)) == TrimEmpty(Header(c)))
  {
    hide Titles, LastUnder, Header, TrimEmpty;
    var s := Segment(Last(c).title, TrimEmpty(Last(c).lines));
    SnocFacts(Front(c), s);
    assert c == Front(c) + [Last(c)];
    SnocFacts(Front(c), Last(c));
    TrimTwice(Last(c).lines);
  }

  /** The preamble part of the merged text. */
  lemma HeaderView(segs: seq<Segment>)
    requires AllWhole(segs)
    ensures var head := Cut(HeaderLines(segs));
            Untitled(head) && Header(head) == HeaderLines(segs) && Header(Front(head)) == []
  {
    var h := Header(segs);
    HeaderIsWhole(segs);
    if h != [] {
      var lines := h + [""];
      if Heading(h[0]) {
        CutHeaded(lines);
        assert Front(Cut(lines)) == [Segment("", [])];
        assert Front([Segment("", [])]) == [];
      } else {
        CutPlain(lines);
        assert Front(Cut(lines)) == [];
      }
    } else {
      assert Front([Segment("", [])]) == [];
    }
  }

  lemma MergedCut(texts: seq<string>)
    requires '\0' !in EndedOnce(Rendered(Segments(texts)))
    ensures var a := Segments(texts);
            && Lines(Merged(texts)) == TrimEmpty(AllLines(a))
            && Cut(AllLines(a)) == Cut(HeaderLines(a)) + Sections(a, Titles(a))
  {
    var a := Segments(texts);
    var secs := Sections(a, Titles(a));
    SegmentsAreWhole(texts);
    SectionsAreHeaded(a, Titles(a));
    assert AllWhole(secs) by {
      assert forall i | 0 <= i < |secs| :: HeadedSection(secs[i]);
    }
    HeaderIsWhole(a);
    FlatNoBreak(secs);
    var all := AllLines(a);
    assert NoBreak(all);
    RenderedIsLines(a);
    EndedOnceIsTrim(all);
    TrimNoBreak(all);
    LinesUnlines(TrimEmpty(all));
    CutFlat(HeaderLines(a), secs);
  }

  lemma {:induction false} TrimNoBreak(lines: seq<string>)
    requires NoBreak(lines)
    ensures NoBreak(TrimEmpty(lines))
  {
    if lines != [] && Last(lines) == "" {
      TrimNoBreak(Front(lines));
    }
  }

  lemma OneText(text: string)
    ensures Titles(Segments([text])) == Titles(Cut(Lines(text)))
    ensures Header(Segments([text])) == Header(Cut(Lines(text)))
    ensures forall t :: LastUnder(Segments([text]), t) == LastUnder(Cut(Lines(text)), t)
  {
    assert Front([text]) == [];
    assert [] + Cut(Lines(text)) == Cut(Lines(text));
    if text == "" {
      SnocFacts([], Segment("", []));
      assert [] + [Segment("", [])] == Cut([]);
    }
  }

  lemma TitlesAreDistinct(a: seq<Segment>)
    ensures DistinctTitles(Titles(a))
  {
    TitlesFacts(a);
    assert forall i | 0 <= i < |Titles(a)| :: Titles(a)[i] in Titles(a);
  }

  /** The last part is a section, or else there is a preamble only. */
  lemma LastPart(head: seq<Segment>, a: seq<Segment>, titles: seq<string>)
    requires head != [] && Header(Front(head)) == [] && DistinctTitles(titles)
    ensures var c := head + Sections(a, titles); Last(c).title != "" || Header(Front(c)) == []
  {
    var secs := Sections(a, titles);
    if titles == [] {
      assert head + secs == head;
    } else {
      assert Last(head + secs) == Last(secs) && Last(secs).title == titles[|titles| - 1];
    }
  }

  /** The view of the rendered parts, trimmed at the end, is the view of what was merged. */
  lemma PartsView(a: seq<Segment>, c: seq<Segment>, d: seq<Segment>)
    requires AllWhole(a) && c == Cut(HeaderLines(a)) + Sections(a, Titles(a))
    requires d == Front(c) + [Segment(Last(c).title, TrimEmpty(Last(c).lines))]
    ensures Titles(d) == Titles(a) && TrimEmpty(Header(d)) == TrimEmpty(Header(a))
    ensures forall i | 0 <= i < |Titles(a)| ::
              TrimEmpty(LastUnder(d, Titles(a)[i])) == TrimEmpty(LastUnder(a, Titles(a)[i]))
  {
    HeaderView(a);
    TitlesAreDistinct(a);
    SectionsView(Cut(HeaderLines(a)), a, Titles(a));
    LastPart(Cut(HeaderLines(a)), a, Titles(a));
    TrimmedView(c);
    TrimBlankAfter(Header(a));
    forall i | 0 <= i < |Titles(a)|
      ensures TrimEmpty(LastUnder(d, Titles(a)[i])) == TrimEmpty(LastUnder(a, Titles(a)[i]))
    {
      TrimBlankAfter(LastUnder(a, Titles(a)[i]));
    }
  }

  /** Same titles in the same order, and the same bodies and header up to blank lines at their ends. */
  predicate SameSections(a: seq<Segment>, b: seq<Segment>) {
    && Titles(b) == Titles(a)
    && TrimEmpty(Header(b)) == TrimEmpty(Header(a))
    && forall i | 0 <= i < |Titles(a)| :: TrimEmpty(LastUnder(b, Titles(a)[i])) == TrimEmpty(LastUnder(a, Titles(a)[i]))
  }

  lemma RemergeKeepsSections(texts: seq<string>)
    requires '\0' !in EndedOnce(Rendered(Segments(texts)))
    ensures SameSections(Segments(texts), Segments([Merged(texts)]))
  {
    var a := Segments(texts);
    SegmentsAreWhole(texts);
    MergedCut(texts);
    OneText(Merged(texts));
    CutTrim(AllLines(a));
    PartsView(a, Cut(AllLines(a)), Cut(TrimEmpty(AllLines(a))));
  }

  // ---------------------------------------------------------------- NUL characters

  predicate NulFree(lines: seq<string>) {
    forall i | 0 <= i < |lines| :: '\0' !in lines[i]
  }

  predicate AllNulFree(segs: seq<Segment>) {
    forall i | 0 <= i < |segs| :: NulFree(segs[i].lines)
  }

  predicate BodiesNulFree(segs: seq<Segment>, titles: seq<string>) {
    forall i | 0 <= i < |titles| :: NulFree(LastUnder(segs, titles[i]))
  }

  /** No NUL in what merging keeps. */
  predicate KeptNulFree(segs: seq<Segment>) {
    NulFree(Header(segs)) && BodiesNulFree(segs, Titles(segs))
  }

  lemma {:induction false} UnlinesNul(lines: seq<string>)
    ensures '\0' !in Unlines(lines) <==> NulFree(lines)
  {
    if lines != [] {
      UnlinesNul(Front(lines));
      assert lines == Front(lines) + [Last(lines)];
    }
  }

  lemma {:induction false} StrippedNul(s: string)
    ensures '\0' !in Stripped(s) <==> '\0' !in s
  {
    if s != "" && Last(s) == '\n' {
      StrippedNul(Front(s));
      assert s == Front(s) + [Last(s)];
    }
  }

  lemma {:induction false} BodiesNul(segs: seq<Segment>, titles: seq<string>)
    ensures '\0' !in Bodies(segs, titles) <==> BodiesNulFree(segs, titles)
  {
    if titles != [] {
      BodiesNul(segs, Front(titles));
      UnlinesNul(LastUnder(segs, Last(titles)));
      assert titles == Front(titles) + [Last(titles)];
    }
  }

  lemma RenderedNul(segs: seq<Segment>)
    ensures '\0' !in EndedOnce(Rendered(segs)) <==> KeptNulFree(segs)
  {
    StrippedNul(Rendered(segs));
    BodiesNul(segs, Titles(segs));
    UnlinesNul(Header(segs));
  }

  lemma {:induction false} LinesNul(s: string)
    requires '\0' !in s
    ensures NulFree(Lines(s))
    decreases |s|
  {
    if '\n' in s {
      LinesNul(s[FirstNewline(s) + 1..]);
    }
  }

  lemma {:induction false} CutNul(lines: seq<string>)
    requires NulFree(lines)
    ensures AllNulFree(Cut(lines))
  {
    if lines != [] {
      CutNul(Front(lines));
      assert '\0' !in lines[|lines| - 1];
    }
  }

  lemma {:induction false} ViewNul(segs: seq<Segment>, title: string)
    requires AllNulFree(segs)
    ensures NulFree(LastUnder(segs, title)) && NulFree(Header(segs))
  {
    if segs != [] {
      assert NulFree(segs[|segs| - 1].lines);
      ViewNul(Front(segs), title);
    }
  }

  lemma {:induction false} TrimNul(lines: seq<string>)
    ensures NulFree(TrimEmpty(lines)) <==> NulFree(lines)
  {
    if lines != [] && Last(lines) == "" {
      TrimNul(Front(lines));
      assert lines == Front(lines) + [""];
    }
  }

  lemma MergedKeepsNoNul(texts: seq<string>)
    ensures AllNulFree(Cut(Lines(Merged(texts))))
  {
    CStringEnds(EndedOnce(Rendered(Segments(texts))));
    LinesNul(Merged(texts));
    CutNul(Lines(Merged(texts)));
  }

  lemma SameSectionsSameNul(a: seq<Segment>, b: seq<Segment>)
    requires SameSections(a, b) && NulFree(Header(b)) && BodiesNulFree(b, Titles(a))
    ensures KeptNulFree(a)
  {
    TrimNul(Header(a));
    TrimNul(Header(b));
    forall i | 0 <= i < |Titles(a)|
      ensures NulFree(LastUnder(a, Titles(a)[i]))
    {
      TrimNul(LastUnder(a, Titles(a)[i]));
      TrimNul(LastUnder(b, Titles(a)[i]));
    }
  }

  /**
   Merging the merged text again finds the same sections if and only if nothing that was kept holds a
   NUL: the merged text is returned as a C string, which ends there.
   */
  lemma RemergeIsStableIff(texts: seq<string>)
    ensures SameSections(Segments(texts), Segments([Merged(texts)])) <==> KeptNulFree(Segments(texts))
  {
    var a, b := Segments(texts), Segments([Merged(texts)]);
    RenderedNul(a);
    if KeptNulFree(a) {
      RemergeKeepsSections(texts);
    }
    if SameSections(a, b) {
      MergedKeepsNoNul(texts);
      OneText(Merged(texts));
      var cut := Cut(Lines(Merged(texts)));
      forall t
        ensures NulFree(LastUnder(cut, t)) && NulFree(Header(cut))
      {
        ViewNul(cut, t);
      }
      ViewNul(cut, "");
      SameSectionsSameNul(a, b);
    }
  }
}
