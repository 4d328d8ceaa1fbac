/** Heading-driven chunking of Markdown text. */
module Sections {
  import opened Prelude
  import opened Text
  import opened Subsequence
  import opened Chunking

  datatype Piece = Piece(text: string, parentTitle: Option<string>)

  // ---- lines and headings ----

  /** The characters `str.splitlines()` breaks at; a carriage return and line feed count as one. */
  predicate IsBreak(c: char) {
    var n := c as int;
    0x0A <= n <= 0x0D || 0x1C <= n <= 0x1E || n == 0x85 || n == 0x2028 || n == 0x2029
  }

  function LineLength(s: string): (n: nat)
    ensures n <= |s| && (n < |s| ==> IsBreak(s[n]))
  {
    if s == "" || IsBreak(s[0]) then 0 else 1 + LineLength(s[1..])
  }

  /** How many characters the line break after the first `n` takes. */
  function BreakLength(s: string, n: nat): (k: nat)
    requires n <= |s| && (n < |s| ==> IsBreak(s[n]))
    ensures n + k <= |s| && AllBlank(s[n..n + k]) && (n < |s| ==> k > 0)
  {
    if n == |s| then 0 else if s[n] == '\r' && n + 1 < |s| && s[n + 1] == '\n' then 2 else 1
  }

  function SplitLines(s: string): seq<string>
    decreases |s|
  {
    if s == "" then []
    else
      var n := LineLength(s);
      [s[..n]] + SplitLines(s[n + BreakLength(s, n)..])
  }

  /** The ten line breaks. */
  lemma BreaksAre(c: char)
    ensures IsBreak(c)
            <==> c in ['\n', '\U{000B}', '\U{000C}', '\r', '\U{001C}', '\U{001D}', '\U{001E}', '\U{0085}', '\U{2028}', '\U{2029}']
  {
  }

  /** A line ends at its first break, and a carriage return with a line feed is one break. */
  lemma LineThenRest(line: string, gap: string, rest: string)
    requires forall c | c in line :: !IsBreak(c)
    requires gap == "\r\n" || (|gap| == 1 && IsBreak(gap[0]) && !(gap == "\r" && rest != "" && rest[0] == '\n'))
    ensures SplitLines(line + gap + rest) == [line] + SplitLines(rest)
    ensures line != "" ==> SplitLines(line) == [line]
  {
    var s := line + gap + rest;
    assert IsBreak(gap[0]);
    LengthOfLine(line, gap + rest);
    LengthOfLine(line, "");
    assert s == line + (gap + rest) && line + "" == line;
    assert s[|line|..] == gap + rest && s[|line| + |gap|..] == rest && s[..|line|] == line && line[..|line|] == line;
    assert s[|line|] == gap[0] && (|gap| == 1 && rest != "" ==> s[|line| + 1] == rest[0]) && (|gap| == 2 ==> s[|line| + 1] == gap[1]);
    assert BreakLength(s, |line|) == |gap|;
    assert line[|line| + BreakLength(line, |line|)..] == "";
    hide LineLength, BreakLength, IsBreak;
  }

  lemma {:induction false} LengthOfLine(line: string, rest: string)
    requires (forall c | c in line :: !IsBreak(c)) && (rest != "" ==> IsBreak(rest[0]))
    ensures LineLength(line + rest) == |line|
  {
    if line == "" {
      assert line + rest == rest;
    } else {
      assert (line + rest)[1..] == line[1..] + rest;
      assert line[0] in line;
      LengthOfLine(line[1..], rest);
    }
  }

  function LeadingHashes(s: string): (n: nat)
    ensures n <= |s|
  {
    if s == "" || s[0] != '#' then 0 else 1 + LeadingHashes(s[1..])
  }

  function Clip(s: string, n: nat): string {
    if |s| <= n then s else s[..n]
  }

  /** The title of a heading line: one to six hashes, a blank, and a title. */
  function Heading(line: string): (title: Option<string>) {
    var s := Strip(line);
    var h := LeadingHashes(s);
    if 1 <= h <= 6 && h < |s| && IsBlank(s[h]) then Some(Clip(Strip(s[h..]), TITLE_CHARS)) else None
  }

  /** A heading has a visible title of at most 200 characters, so the source's `or None` never applies. */
  lemma TitleIsVisible(line: string)
    ensures Heading(line).Some? ==> 0 < |Heading(line).value| <= TITLE_CHARS && !IsBlank(Heading(line).value[0])
  {
    hide Strip, LeadingHashes;
    var s := Strip(line);
    var h := LeadingHashes(s);
    if 1 <= h <= 6 && h < |s| && IsBlank(s[h]) {
      StripBlank(s[h..]);
      assert s[h..][|s| - h - 1] == s[|s| - 1];
      assert s[|s| - 1] in s[h..];
    }
  }

  /** Exactly which lines are headings: one to six hashes and a blank begin them, and the title is the rest. */
  lemma HeadingIff(line: string)
    ensures var s := Strip(line);
      Heading(line).Some?
      <==> exists n :: 1 <= n <= 6 && n < |s| && IsBlank(s[n]) && forall i | 0 <= i < n :: s[i] == '#'
    ensures var s := Strip(line);
      forall n | 1 <= n < |s| && IsBlank(s[n]) && forall i | 0 <= i < n :: s[i] == '#' ::
        Heading(line).Some? ==> Heading(line) == Some(Clip(Strip(s[n + 1..]), 200))
  {
    hide Strip, Clip;
    var s := Strip(line);
    var h := LeadingHashes(s);
    HashesLead(s);
    forall n | 1 <= n < |s| && IsBlank(s[n]) && forall i | 0 <= i < n :: s[i] == '#'
      ensures n == h && Strip(s[n..]) == Strip(s[n + 1..])
    {
      assert n == h;
      StripAfterBlank(s[n..]);
      assert s[n..][1..] == s[n + 1..];
    }
  }

  lemma {:induction false} HashesLead(s: string)
    ensures forall i | 0 <= i < LeadingHashes(s) :: s[i] == '#'
    ensures LeadingHashes(s) < |s| ==> s[LeadingHashes(s)] != '#'
  {
    if s != "" && s[0] == '#' {
      HashesLead(s[1..]);
    }
  }

  lemma StripAfterBlank(s: string)
    requires s != "" && IsBlank(s[0])
    ensures Strip(s) == Strip(s[1..])
  {
  }

  // ---- the specification: lines grouped by the last heading ----

  datatype Section = Section(title: Option<string>, body: seq<string>)

  /** The sections of `lines`, when `body` has been read since the heading `title`. */
  function Grouped(lines: seq<string>, title: Option<string>, body: seq<string>): (r: seq<Section>)
    ensures r != []
    decreases lines
  {
    if lines == [] then [Section(title, body)]
    else match Heading(lines[0])
      case Some(t) => [Section(title, body)] + Grouped(lines[1..], Some(t), [])
      case None => Grouped(lines[1..], title, body + [lines[0]])
  }

  /** The pieces of one section: its chunks, the first one headed by the title. */
  function SectionPieces(s: Section, size: int, overlap: int): seq<Piece> {
    Titled(Chunks(Join(s.body, "\n"), size, overlap), s.title, true)
  }

  function Titled(chunks: seq<string>, title: Option<string>, first: bool): (r: seq<Piece>)
    ensures |r| == |chunks|
    ensures forall i | 0 <= i < |r| ::
      r[i] == Piece(if i == 0 && title.Some? && first then title.value + "\n" + chunks[i] else chunks[i], title)
  {
    seq(|chunks|, i requires 0 <= i < |chunks| =>
      Piece(if i == 0 && title.Some? && first then title.value + "\n" + chunks[i] else chunks[i], title))
  }

  function AllPieces(ss: seq<Section>, size: int, overlap: int): seq<Piece> {
    if ss == [] then [] else SectionPieces(ss[0], size, overlap) + AllPieces(ss[1..], size, overlap)
  }

  predicate HasHeadings(lines: seq<string>) {
    exists i :: 0 <= i < |lines| && Heading(lines[i]).Some?
  }

  function StructuredPieces(text: string, size: int, overlap: int): seq<Piece> {
    if Strip(text) == "" then []
    else
      var t := Strip(text);
      var lines := SplitLines(t);
      if !HasHeadings(lines) then Titled(Chunks(t, size, overlap), None, true)
      else
        var pieces := AllPieces(Grouped(lines, None, []), size, overlap);
        if pieces == [] then [Piece(t, None)] else pieces
  }

  // ---- what the grouping means ----

  /** The nearest heading at or before the end of `lines`. */
  function LastHeading(lines: seq<string>): Option<string> {
    if lines == [] then None
    else
      var h := Heading(lines[|lines| - 1]);
      if h.Some? then h else LastHeading(lines[..|lines| - 1])
  }

  /** The lines that are not headings. */
  function BodyLines(lines: seq<string>): seq<string> {
    if lines == [] then []
    else (if Heading(lines[0]).None? then [lines[0]] else []) + BodyLines(lines[1..])
  }

  function Bodies(ss: seq<Section>): seq<string> {
    if ss == [] then [] else ss[0].body + Bodies(ss[1..])
  }

  lemma {:induction false} GroupedKeepsLines(lines: seq<string>, title: Option<string>, body: seq<string>)
    ensures Bodies(Grouped(lines, title, body)) == body + BodyLines(lines)
    decreases lines
  {
    hide Heading;
    if lines == [] {
      assert [Section(title, body)][1..] == [];
    } else {
      match Heading(lines[0])
      case Some(t) =>
        GroupedKeepsLines(lines[1..], Some(t), []);
        var rest := Grouped(lines[1..], Some(t), []);
        assert ([Section(title, body)] + rest)[1..] == rest;
      case None =>
        GroupedKeepsLines(lines[1..], title, body + [lines[0]]);
    }
  }

  function HeadingCount(lines: seq<string>): nat {
    if lines == [] then 0 else (if Heading(lines[0]).Some? then 1 else 0) + HeadingCount(lines[1..])
  }

  /** How many lines follow the last heading. */
  function SinceHeading(lines: seq<string>): nat {
    if lines == [] || Heading(lines[|lines| - 1]).Some? then 0 else 1 + SinceHeading(lines[..|lines| - 1])
  }

  /** One more line at the front counts only if no heading follows. */
  lemma {:induction false} SinceHeadingFront(first: string, lines: seq<string>)
    ensures SinceHeading([first] + lines)
            == SinceHeading(lines) + if HeadingCount(lines) == 0 && Heading(first).None? then 1 else 0
    ensures HeadingCount([first] + lines) == HeadingCount(lines) + if Heading(first).Some? then 1 else 0
  {
    hide Heading;
    var all := [first] + lines;
    assert all[1..] == lines;
    if lines != [] {
      var last := lines[|lines| - 1];
      assert all[..|all| - 1] == [first] + lines[..|lines| - 1];
      SinceHeadingFront(first, lines[..|lines| - 1]);
      HeadingCountBack(lines);
    }
  }

  lemma {:induction false} HeadingCountBack(lines: seq<string>)
    requires lines != []
    ensures HeadingCount(lines)
            == HeadingCount(lines[..|lines| - 1]) + if Heading(lines[|lines| - 1]).Some? then 1 else 0
  {
    hide Heading;
    if |lines| > 1 {
      HeadingCountBack(lines[1..]);
      assert lines[1..][..|lines| - 2] == lines[..|lines| - 1][1..];
    }
  }

  /**
   Every body line is in a section titled by the nearest heading before it: the section is the one of
   that heading, and the line's place in it is its distance from the heading. `before` are the lines
   already read: `title` is their last heading and `body` what followed it.
   */
  lemma {:induction false} LineInItsSection(before: seq<string>, lines: seq<string>, title: Option<string>, body: seq<string>, i: nat)
    requires i < |lines| && Heading(lines[i]).None? && LastHeading(before) == title
    ensures var ss := Grouped(lines, title, body); var k := HeadingCount(lines[..i]);
      var pos := SinceHeading(lines[..i]) + if k == 0 then |body| else 0;
      && k < |ss| && ss[k].title == LastHeading(before + lines[..i])
      && pos < |ss[k].body| && ss[k].body[pos] == lines[i]
    decreases lines
  {
    hide Heading, LastHeading, SinceHeading;
    var first, rest := lines[0], lines[1..];
    if i == 0 {
      assert before + lines[..0] == before && lines[..0] == [] && SinceHeading([]) == 0 by {
        NothingSince();
      }
      FirstSection(rest, title, body + [first]);
    } else {
      assert before + lines[..i] == (before + [first]) + rest[..i - 1];
      assert lines[..i] == [first] + rest[..i - 1];
      SinceHeadingFront(first, rest[..i - 1]);
      NextHeading(before, first);
      match Heading(first)
      case Some(t) => LineInItsSection(before + [first], rest, Some(t), [], i - 1);
      case None => LineInItsSection(before + [first], rest, title, body + [first], i - 1);
    }
  }

  lemma NothingSince()
    ensures SinceHeading([]) == 0
  {
  }

  lemma NextHeading(before: seq<string>, line: string)
    ensures LastHeading(before + [line]) == if Heading(line).Some? then Heading(line) else LastHeading(before)
  {
    assert (before + [line])[..|before|] == before;
  }

  lemma {:induction false} FirstSection(lines: seq<string>, title: Option<string>, body: seq<string>)
    ensures var s := Grouped(lines, title, body)[0]; s.title == title && body <= s.body
    decreases lines
  {
    hide Heading;
    if lines != [] && Heading(lines[0]).None? {
      FirstSection(lines[1..], title, body + [lines[0]]);
    }
  }

  /** `parent_title` of every piece of the section a body line is in is the nearest heading before the line. */
  lemma PieceTitleIsNearestHeading(lines: seq<string>, i: nat, size: int, overlap: int)
    requires i < |lines| && Heading(lines[i]).None?
    ensures var ss := Grouped(lines, None, []); var k := HeadingCount(lines[..i]);
      && k < |ss| && SinceHeading(lines[..i]) < |ss[k].body| && ss[k].body[SinceHeading(lines[..i])] == lines[i]
      && forall p :: p in SectionPieces(ss[k], size, overlap) ==> p.parentTitle == LastHeading(lines[..i])
  {
    hide Heading, LastHeading, Chunks, Join, Grouped;
    assert LastHeading([]) == None by { NoHeadingYet(); }
    LineInItsSection([], lines, None, [], i);
    assert [] + lines[..i] == lines[..i];
  }

  lemma NoHeadingYet()
    ensures LastHeading([]) == None
  {
  }

  lemma {:induction false} PiecesOfSection(ss: seq<Section>, k: nat, size: int, overlap: int)
    requires k < |ss|
    ensures AllPieces(ss, size, overlap)
            == AllPieces(ss[..k], size, overlap) + SectionPieces(ss[k], size, overlap) + AllPieces(ss[k + 1..], size, overlap)
  {
    hide SectionPieces;
    if k > 0 {
      PiecesOfSection(ss[1..], k - 1, size, overlap);
      assert ss[1..][..k - 1] == ss[..k][1..] && ss[1..][k..] == ss[k + 1..];
    }
  }

  lemma VisibleHasChunks(text: string, size: int, overlap: int)
    ensures Chunks(text, size, overlap) == [] <==> AllBlank(text)
  {
    StripBlank(text);
    hide Windows, Merge, Strip, AllBlank;
  }

  /** The chunks `cs` stand in `ps` from `at` on, the first of them, and no other, put under the title. */
  ghost predicate StandAt(ps: seq<Piece>, at: nat, cs: seq<string>, title: Option<string>) {
    && cs != [] && at + |cs| <= |ps|
    && ps[at] == Piece(if title.Some? then title.value + "\n" + cs[0] else cs[0], title)
    && forall i | 0 < i < |cs| :: ps[at + i] == Piece(cs[i], title)
  }

  lemma TitledStand(before: seq<Piece>, cs: seq<string>, title: Option<string>, after: seq<Piece>)
    requires cs != []
    ensures StandAt(before + Titled(cs, title, true) + after, |before|, cs, title)
  {
    var here := Titled(cs, title, true);
    var ps := before + here + after;
    assert forall i | 0 <= i < |here| :: ps[|before| + i] == here[i];
  }

  lemma SectionStands(ss: seq<Section>, k: nat, size: int, overlap: int)
    requires k < |ss| && !AllBlank(Join(ss[k].body, "\n"))
    ensures StandAt(AllPieces(ss, size, overlap), |AllPieces(ss[..k], size, overlap)|,
                    Chunks(Join(ss[k].body, "\n"), size, overlap), ss[k].title)
    ensures AllPieces(ss, size, overlap) != []
  {
    hide AllPieces, Chunks, Join, AllBlank, StandAt, Titled;
    VisibleHasChunks(Join(ss[k].body, "\n"), size, overlap);
    PiecesOfSection(ss, k, size, overlap);
    TitledStand(AllPieces(ss[..k], size, overlap), Chunks(Join(ss[k].body, "\n"), size, overlap), ss[k].title,
                AllPieces(ss[k + 1..], size, overlap));
  }

  lemma StructuredIsAll(text: string, size: int, overlap: int)
    requires HasHeadings(SplitLines(Strip(text)))
    ensures var ps := AllPieces(Grouped(SplitLines(Strip(text)), None, []), size, overlap);
      ps != [] ==> StructuredPieces(text, size, overlap) == ps
  {
    assert Strip(text) != "";
    hide Strip, SplitLines, HasHeadings, Grouped, AllPieces;
  }

  /**
   In the pieces of a text with headings, those of each section with a visible body follow all pieces of
   the sections before it: they are its chunks, and exactly the first is put under the section's title.
   */
  lemma OnlyFirstPieceHasTitle(text: string, size: int, overlap: int, k: nat)
    requires HasHeadings(SplitLines(Strip(text)))
    requires var ss := Grouped(SplitLines(Strip(text)), None, []); k < |ss| && !AllBlank(Join(ss[k].body, "\n"))
    ensures var ss := Grouped(SplitLines(Strip(text)), None, []);
      StandAt(StructuredPieces(text, size, overlap), |AllPieces(ss[..k], size, overlap)|,
              Chunks(Join(ss[k].body, "\n"), size, overlap), ss[k].title)
  {
    hide *;
    StructuredIsAll(text, size, overlap);
    SectionStands(Grouped(SplitLines(Strip(text)), None, []), k, size, overlap);
  }

  // ---- nothing visible is lost ----

  function Texts(ps: seq<Piece>): seq<string> {
    if ps == [] then [] else [ps[0].text] + Texts(ps[1..])
  }

  lemma {:induction false} TextsConcat(a: seq<Piece>, b: seq<Piece>)
    ensures Texts(a + b) == Texts(a) + Texts(b)
  {
    if a == [] {
      assert a + b == b;
    } else {
      TextsConcat(a[1..], b);
      assert (a + b)[1..] == a[1..] + b;
    }
  }

  lemma {:induction false} JoinKeepsVisible(cs: seq<string>)
    ensures Visible(Join(cs, "\n")) == Visible(Flatten(cs))
  {
    hide Visible;
    if |cs| == 1 {
      FlattenOne(cs[0]);
      assert cs == [cs[0]];
    } else if |cs| > 1 {
      JoinKeepsVisible(cs[1..]);
      VisibleConcat(cs[0], "\n" + Join(cs[1..], "\n"));
      VisibleConcat("\n", Join(cs[1..], "\n"));
      VisibleOfBlank("\n");
      VisibleConcat(cs[0], Flatten(cs[1..]));
      assert cs[0] + "\n" + Join(cs[1..], "\n") == cs[0] + ("\n" + Join(cs[1..], "\n"));
    }
  }

  lemma {:induction false} TitledKeeps(chunks: seq<string>, title: Option<string>)
    ensures Subseq(Flatten(chunks), Flatten(Texts(Titled(chunks, title, true))))
  {
    hide Subseq;
    if chunks == [] {
      SubseqRefl("");
    } else {
      var rest := Titled(chunks[1..], None, true);
      TitledKeeps(chunks[1..], None);
      var ps := Titled(chunks, title, true);
      TextsEqual(ps[1..], rest);
      var prefix := if title.Some? then title.value + "\n" else "";
      assert ps[0].text == prefix + chunks[0];
      SubseqRefl(chunks[0]);
      SubseqGrowsFront(chunks[0], prefix, chunks[0]);
      SubseqConcat(chunks[0], ps[0].text, Flatten(chunks[1..]), Flatten(Texts(rest)));
    }
  }

  lemma {:induction false} TextsEqual(a: seq<Piece>, b: seq<Piece>)
    requires |a| == |b| && forall i | 0 <= i < |a| :: a[i].text == b[i].text
    ensures Texts(a) == Texts(b)
  {
    if a != [] { TextsEqual(a[1..], b[1..]); }
  }

  lemma {:induction false} SectionsKeep(ss: seq<Section>, size: int, overlap: int)
    requires 1 <= size && 0 <= overlap
    ensures Subseq(Visible(Flatten(Bodies(ss))), Flatten(Texts(AllPieces(ss, size, overlap))))
  {
    hide Subseq, Visible, Chunks, Flatten, Join;
    if ss == [] {
      EmptyKept();
    } else {
      var s := ss[0];
      var here := SectionPieces(s, size, overlap);
      SectionsKeep(ss[1..], size, overlap);
      TextsConcat(here, AllPieces(ss[1..], size, overlap));
      FlattenConcat(Texts(here), Texts(AllPieces(ss[1..], size, overlap)));
      FlattenConcat(s.body, Bodies(ss[1..]));
      VisibleConcat(Flatten(s.body), Flatten(Bodies(ss[1..])));
      JoinKeepsVisible(s.body);
      var body := Join(s.body, "\n");
      ChunksKeepText(body, size, overlap);
      TitledKeeps(Chunks(body, size, overlap), s.title);
      SubseqTrans(Visible(body), Flatten(Chunks(body, size, overlap)), Flatten(Texts(here)));
      SubseqConcat(Visible(Flatten(s.body)), Flatten(Texts(here)),
                   Visible(Flatten(Bodies(ss[1..]))), Flatten(Texts(AllPieces(ss[1..], size, overlap))));
    }
  }

  lemma EmptyKept()
    ensures Subseq(Visible(Flatten([])), Flatten(Texts([])))
  {
  }

  lemma FlattenFirst(c: string, rest: seq<string>)
    ensures Flatten([c] + rest) == c + Flatten(rest)
  {
    assert ([c] + rest)[1..] == rest;
  }

  lemma {:induction false} SplitKeepsVisible(s: string)
    ensures Visible(Flatten(SplitLines(s))) == Visible(s)
    decreases |s|
  {
    hide Visible, LineLength, BreakLength, AllBlank, Flatten, SplitLines;
    if s == "" {
      LinesOfEmpty();
    } else {
      SplitStep(s);
      var n := LineLength(s);
      var k := BreakLength(s, n);
      var line, gap, rest := s[..n], s[n..n + k], s[n + k..];
      assert s == line + gap + rest && |rest| < |s|;
      SplitKeepsVisible(rest);
      VisibleParts(line, gap, rest);
      VisibleConcat(line, Flatten(SplitLines(rest)));
      FlattenFirst(line, SplitLines(rest));
    }
  }

  lemma SplitStep(s: string)
    requires s != ""
    ensures var n := LineLength(s); var k := BreakLength(s, n);
      n + k > 0 && SplitLines(s) == [s[..n]] + SplitLines(s[n + k..])
  {
    hide LineLength, BreakLength, AllBlank;
  }

  lemma VisibleParts(a: string, blank: string, b: string)
    requires AllBlank(blank)
    ensures Visible(a + blank + b) == Visible(a) + Visible(b)
  {
    hide Visible;
    VisibleConcat(a + blank, b);
    VisibleConcat(a, blank);
    VisibleOfBlank(blank);
  }

  lemma {:induction false} AllBodyLines(lines: seq<string>)
    requires !HasHeadings(lines)
    ensures BodyLines(lines) == lines
  {
    hide Heading;
    if lines != [] {
      assert Heading(lines[0]).None?;
      assert forall i | 0 <= i < |lines[1..]| :: lines[1..][i] == lines[i + 1];
      AllBodyLines(lines[1..]);
    }
  }

  lemma {:induction false} UntitledTexts(chunks: seq<string>)
    ensures Texts(Titled(chunks, None, true)) == chunks
  {
    if chunks != [] {
      UntitledTexts(chunks[1..]);
      assert Titled(chunks, None, true)[1..] == Titled(chunks[1..], None, true);
    }
  }

  /** Every visible character of a body line lands in some piece, in order. */
  lemma BodyTextKept(text: string, size: int, overlap: int)
    requires 1 <= size && 0 <= overlap
    ensures Subseq(Visible(Flatten(BodyLines(SplitLines(Strip(text))))),
                   Flatten(Texts(StructuredPieces(text, size, overlap))))
  {
    hide Strip, SplitLines, Subseq, Visible, Heading, Flatten, Chunks, AllPieces, HasHeadings;
    var t := Strip(text);
    var lines := SplitLines(t);
    if t == "" {
      LinesOfEmpty();
      EmptyKept();
    } else if HasHeadings(lines) {
      SectionedTextKept(text, size, overlap);
    } else {
      AllBodyLines(lines);
      SplitKeepsVisible(t);
      ChunksKeepText(t, size, overlap);
      UntitledTexts(Chunks(t, size, overlap));
    }
  }

  lemma SectionedTextKept(text: string, size: int, overlap: int)
    requires 1 <= size && 0 <= overlap && Strip(text) != "" && HasHeadings(SplitLines(Strip(text)))
    ensures Subseq(Visible(Flatten(BodyLines(SplitLines(Strip(text))))),
                   Flatten(Texts(StructuredPieces(text, size, overlap))))
  {
    hide Subseq, Visible, Flatten, AllPieces, Strip, SplitLines, Heading, Texts;
    var lines := SplitLines(Strip(text));
    var ss := Grouped(lines, None, []);
    GroupedKeepsLines(lines, None, []);
    assert [] + BodyLines(lines) == BodyLines(lines);
    SectionsKeep(ss, size, overlap);
    if AllPieces(ss, size, overlap) == [] {
      NothingVisible(Flatten(BodyLines(lines)), Flatten(Texts([Piece(Strip(text), None)])));
    }
  }

  lemma LinesOfEmpty()
    ensures SplitLines("") == [] && Flatten(SplitLines("")) == ""
  {
  }

  lemma NothingVisible(s: string, other: string)
    requires Subseq(Visible(s), Flatten(Texts([])))
    ensures Subseq(Visible(s), other)
  {
  }

  // ---- the heading loop ----

  method SplitIntoStructuredChunks(text: string, size: int, overlap: int) returns (pieces: seq<Piece>)
    ensures pieces == StructuredPieces(text, size, overlap)
  {
    hide Strip, Heading, Chunks;
    if Strip(text) == "" {
      return [];
    }
    var t := Strip(text);
    var lines := SplitLines(t);
    var hasHeadings := exists i :: 0 <= i < |lines| && Heading(lines[i]).Some?;
    if !hasHeadings {
      var chunks := SplitIntoChunks(t, size, overlap);
      return Titled(chunks, None, true);
    }
    pieces := HeadingLoop(lines, size, overlap);
    if pieces == [] {
      pieces := [Piece(t, None)];
    }
  }

  /** The inner `_flush` of the loop: the pieces of the buffered lines. */
  method Flush(buffer: seq<string>, title: Option<string>, firstOfSection: bool, size: int, overlap: int)
    returns (out: seq<Piece>, first: bool)
    ensures out == Titled(Chunks(Join(buffer, "\n"), size, overlap), title, firstOfSection)
    ensures first == (Strip(Join(buffer, "\n")) == "")
  {
    hide Strip, Chunks;
    var body := Strip(Join(buffer, "\n"));
    if body == "" {
      BlankBodyHasNoChunks(Join(buffer, "\n"), size, overlap);
      return [], true;
    }
    var chunks := SplitIntoChunks(body, size, overlap);
    StrippedBodySameChunks(Join(buffer, "\n"), size, overlap);
    out := [];
    for i := 0 to |chunks|
      invariant |out| == i
      invariant out == Titled(chunks, title, firstOfSection)[..i]
    {
      if i == 0 && title.Some? && firstOfSection {
        out := out + [Piece(title.value + "\n" + chunks[i], title)];
      } else {
        out := out + [Piece(chunks[i], title)];
      }
    }
    first := false;
  }

  lemma BlankBodyHasNoChunks(body: string, size: int, overlap: int)
    requires Strip(body) == ""
    ensures Chunks(body, size, overlap) == []
  {
  }

  lemma StrippedBodySameChunks(body: string, size: int, overlap: int)
    ensures Chunks(Strip(body), size, overlap) == Chunks(body, size, overlap)
  {
    StripIdempotent(body);
  }

  method HeadingLoop(lines: seq<string>, size: int, overlap: int) returns (pieces: seq<Piece>)
    ensures pieces == AllPieces(Grouped(lines, None, []), size, overlap)
  {
    hide Heading, Chunks, Titled, Strip, Join;
    pieces := [];
    var currentTitle: Option<string> := None;
    var buffer: seq<string> := [];
    var firstOfSection := true;
    var out: seq<Piece>;
    for i := 0 to |lines|
      invariant firstOfSection
      invariant AllPieces(Grouped(lines, None, []), size, overlap)
                == pieces + AllPieces(Grouped(lines[i..], currentTitle, buffer), size, overlap)
    {
      assert lines[i..][0] == lines[i] && lines[i..][1..] == lines[i + 1..];
      var title := Heading(lines[i]);
      if title.Some? {
        ghost var rest := Grouped(lines[i + 1..], title, []);
        assert ([Section(currentTitle, buffer)] + rest)[1..] == rest;
        out, firstOfSection := Flush(buffer, currentTitle, firstOfSection, size, overlap);
        assert pieces + (out + AllPieces(rest, size, overlap)) == pieces + out + AllPieces(rest, size, overlap);
        pieces := pieces + out;
        buffer := [];
        currentTitle := title;
        firstOfSection := true;
      } else {
        buffer := buffer + [lines[i]];
      }
    }
    assert lines[|lines|..] == [];
    assert [Section(currentTitle, buffer)][1..] == [];
    out, firstOfSection := Flush(buffer, currentTitle, firstOfSection, size, overlap);
    pieces := pieces + out;
  }
}
