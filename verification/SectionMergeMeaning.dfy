/** What merging reads as a section and which section of a title it keeps. */
module SectionMergeMeaning {
  import opened Wrappers
  import opened Texts
  import opened Sequences
  import opened SectionMerge

  // ---------------------------------------------------------------- lines and titles

  predicate Padding(s: string) {
    forall i | 0 <= i < |s| :: s[i] == ' ' || s[i] == '\r'
  }

  lemma {:induction false} TrimmedIs(t: string, pad: string)
    requires Padding(pad) && (t != "" ==> !Padding([Last(t)]))
    ensures TrimmedEnd(t + pad) == t
    decreases |pad|
  {
    if pad == "" {
      assert t + pad == t;
      assert t != "" ==> Last(t) == [Last(t)][0];
    } else {
      var s := t + pad;
      assert s[..|s| - 1] == t + Front(pad) && s[|s| - 1] == Last(pad);
      TrimmedIs(t, Front(pad));
    }
  }

  /** A title is what follows the two hashes and the blank, without the blanks and returns at its end. */
  lemma TitleIs(t: string, pad: string)
    requires Padding(pad) && (t != "" ==> !Padding([Last(t)]))
    ensures Heading("## " + t + pad) && TitleOf("## " + t + pad) == t
  {
    var line := "## " + t + pad;
    assert line[..3] == "## " && line[3..] == t + pad;
    TrimmedIs(t, pad);
  }

  lemma HeadingsAre(line: string)
    ensures Heading(line) <==> |line| >= 3 && line[0] == '#' && line[1] == '#' && line[2] == ' '
  {
    if |line| >= 3 {
      assert line[..3] == [line[0], line[1], line[2]];
    }
  }

  // ---------------------------------------------------------------- segments

  function LinesOf(segs: seq<Segment>): seq<string> {
    if segs == [] then [] else LinesOf(Front(segs)) + Last(segs).lines
  }

  /** A heading and the lines up to the next one. */
  predicate Headed(s: Segment) {
    && s.lines != [] && Heading(s.lines[0]) && s.title == TitleOf(s.lines[0])
    && forall i | 1 <= i < |s.lines| :: !Heading(s.lines[i])
  }

  /** Lines before any heading. */
  predicate Unheaded(s: Segment) {
    s.title == "" && forall i | 0 <= i < |s.lines| :: !Heading(s.lines[i])
  }

  predicate Sectioned(segs: seq<Segment>) {
    segs != [] && Unheaded(segs[0]) && forall k | 1 <= k < |segs| :: Headed(segs[k])
  }

  lemma GrownSectioned(segs: seq<Segment>, line: string)
    requires Sectioned(segs)
    ensures Sectioned(Grown(segs, line)) && LinesOf(Grown(segs, line)) == LinesOf(segs) + [line]
  {
    var r := Grown(segs, line);
    var last := Last(segs);
    if Heading(line) {
      assert Front(r) == segs;
    } else {
      var more := last.(lines := last.lines + [line]);
      assert Front(r) == Front(segs) && Last(r) == more;
      Assoc(LinesOf(Front(segs)), last.lines, [line]);
      assert |segs| > 1 ==> Headed(last);
      assert |segs| == 1 ==> Unheaded(last);
    }
  }

  /** Cutting loses no line, and cuts exactly in front of every heading. */
  lemma {:induction false} CutIsFaithful(lines: seq<string>)
    ensures Sectioned(Cut(lines)) && LinesOf(Cut(lines)) == lines
  {
    hide Sectioned, LinesOf, Grown, Cut;
    if lines == [] {
      NothingCut();
    } else {
      CutIsFaithful(Front(lines));
      CutLast(lines);
      GrownSectioned(Cut(Front(lines)), Last(lines));
      assert lines == Front(lines) + [Last(lines)];
    }
  }

  lemma NothingCut()
    ensures Cut([]) == [Segment("", [])] && Sectioned(Cut([])) && LinesOf(Cut([])) == []
  {
    assert Front([Segment("", [])]) == [];
  }

  lemma CutLast(lines: seq<string>)
    requires lines != []
    ensures Cut(lines) == Grown(Cut(Front(lines)), Last(lines))
  {
  }

  // ---------------------------------------------------------------- what is kept

  predicate NotAfter(segs: seq<Segment>, i: int, title: string) {
    forall j | 0 <= j < |segs| && i < j :: segs[j].title != title
  }

  /** The body of a title is that of its last segment. */
  lemma {:induction false} LastUnderIs(segs: seq<Segment>, i: int, title: string)
    requires -1 <= i < |segs| && NotAfter(segs, i, title) && (i >= 0 ==> segs[i].title == title)
    ensures LastUnder(segs, title) == if i >= 0 then segs[i].lines else []
  {
    if segs != [] && i < |segs| - 1 {
      LastUnderIs(Front(segs), i, title);
    }
  }

  predicate NoHeaderAfter(segs: seq<Segment>, i: int) {
    forall j | 0 <= j < |segs| && i < j :: segs[j].title != "" || segs[j].lines == []
  }

  /** The header is the last preamble that has a line. */
  lemma {:induction false} HeaderIs(segs: seq<Segment>, i: int)
    requires -1 <= i < |segs| && NoHeaderAfter(segs, i) && (i >= 0 ==> segs[i].title == "" && segs[i].lines != [])
    ensures Header(segs) == if i >= 0 then segs[i].lines else []
  {
    if segs != [] && i < |segs| - 1 {
      HeaderIs(Front(segs), i);
    }
  }

  predicate FirstAt(segs: seq<Segment>, i: nat, title: string) {
    i < |segs| && segs[i].title == title && forall j | 0 <= j < i :: segs[j].title != title
  }

  predicate FirstPlaces(segs: seq<Segment>, titles: seq<string>, at: seq<nat>) {
    && |at| == |titles|
    && (forall k | 0 <= k < |at| :: FirstAt(segs, at[k], titles[k]))
    && forall j, k | 0 <= j < k < |at| :: at[j] < at[k]
  }

  lemma FirstPlacesStay(segs: seq<Segment>, titles: seq<string>, at: seq<nat>, s: Segment)
    requires FirstPlaces(segs, titles, at)
    ensures FirstPlaces(segs + [s], titles, at)
    ensures (forall i | 0 <= i < |segs| :: segs[i].title != s.title) ==>
              FirstPlaces(segs + [s], titles + [s.title], at + [|segs|])
  {
    var more := segs + [s];
    forall k | 0 <= k < |at|
      ensures FirstAt(more, at[k], titles[k])
    {
      assert FirstAt(segs, at[k], titles[k]);
    }
  }

  /** The titles come in the order of their first segments. */
  lemma {:induction false} TitlesInOrder(segs: seq<Segment>) returns (at: seq<nat>)
    ensures FirstPlaces(segs, Titles(segs), at)
  {
    at := [];
    if segs != [] {
      var f, s := Front(segs), Last(segs);
      assert segs == f + [s];
      at := TitlesInOrder(f);
      TitlesFacts(f);
      FirstPlacesStay(f, Titles(f), at, s);
      if s.title != "" && s.title !in Titles(f) {
        assert forall i | 0 <= i < |f| :: f[i] in f;
        at := at + [|f|];
      }
    }
  }

  // ---------------------------------------------------------------- the end of the text

  predicate Newlines(s: string) {
    forall i | 0 <= i < |s| :: s[i] == '\n'
  }

  lemma {:induction false} StrippedIs(text: string, ends: string)
    requires Newlines(ends) && (text != "" ==> Last(text) != '\n')
    ensures Stripped(text + ends) == text
    decreases |ends|
  {
    if ends == "" {
      assert text + ends == text;
    } else {
      assert Front(text + ends) == text + Front(ends) && Last(text + ends) == Last(ends);
      StrippedIs(text, Front(ends));
    }
  }

  /** The merged text ends with one newline, unless it is empty. */
  lemma EndedOnceIs(text: string, ends: string)
    requires Newlines(ends) && (text != "" ==> Last(text) != '\n')
    ensures EndedOnce(text + ends) == if text == "" then "" else text + "\n"
  {
    StrippedIs(text, ends);
  }
}
