/**
 * The exercises document: a `# Exercises` title and one `## title` section
 * per exercise definition, each holding a free-text body; reading maps each
 * title to its trimmed body, and loading completes the map with defaults and
 * strips legacy question lines.
 */
module Exercises {
  import opened Text
  import opened MarkdownTags
  import SimpleSection

  /** An exercise: its title, the body used when the document has none, and its legacy questions. */
  datatype SectionDef = SectionDef(title: String, defaultBody: String, questions: seq<String>)

  function Titles(defs: seq<SectionDef>): set<String>
  {
    set i | 0 <= i < |defs| :: defs[i].title
  }

  // ---------------------------------------------------------------------
  // reading

  /** The trimmed group of `^##\s+(.+)$`. */
  function TitleOf(line: String): Option<String>
  {
    match HeadingGroup(line, "##")
    case Some(g) => Some(Trim(g))
    case None => None
  }

  datatype LineKind = Heading(title: String) | Text(line: String)

  function Classify(line: String): LineKind
  {
    match TitleOf(line)
    case Some(t) => Heading(t)
    case None => Text(line)
  }

  function Kinds(lines: seq<String>): (r: seq<LineKind>)
    ensures |r| == |lines|
  {
    seq(|lines|, i requires 0 <= i < |lines| => Classify(lines[i]))
  }

  /** The reader: the current title (empty before the first heading), its body lines, and the sections stored so far. */
  datatype Scan = Scan(title: String, body: seq<String>, sections: map<String, String>)

  const Start: Scan := Scan([], [], map[])

  /** flush: a titled body is stored joined and trimmed, replacing an earlier body of the same title. */
  function Flush(s: Scan): map<String, String>
  {
    if s.title == [] then s.sections else s.sections[s.title := Trim(Join(s.body, "\n"))]
  }

  /** A heading flushes the current section and opens the next; other lines go to the open section, if any. */
  function Step(s: Scan, k: LineKind): Scan
  {
    match k
    case Heading(t) => Scan(t, [], Flush(s))
    case Text(line) => if s.title == [] then s else s.(body := s.body + [line])
  }

  function ScanLines(s: Scan, kinds: seq<LineKind>): Scan
  {
    if kinds == [] then s else Step(ScanLines(s, kinds[..|kinds| - 1]), kinds[|kinds| - 1])
  }

  /** parseSections */
  function ParseSections(content: String): map<String, String>
  {
    Flush(ScanLines(Start, Kinds(Split(content, '\n'))))
  }

  /** parseSections, line by line, with the final flush after the loop. */
  method ReadSections(content: String) returns (sections: map<String, String>)
    ensures sections == ParseSections(content)
  {
    var lines := Split(content, '\n');
    ghost var kinds := Kinds(lines);
    var title: String := [];
    var body: seq<String> := [];
    sections := map[];
    var i := 0;
    while i < |lines|
      invariant 0 <= i <= |lines|
      invariant ScanLines(Start, kinds[..i]) == Scan(title, body, sections)
    {
      assert kinds[..i + 1][..i] == kinds[..i];
      var heading := TitleOf(lines[i]);
      if heading.Some? {
        if title != [] {
          sections := sections[title := Trim(Join(body, "\n"))];
        }
        title := heading.value;
        body := [];
      } else if title != [] {
        body := body + [lines[i]];
      }
      i := i + 1;
    }
    assert kinds[..i] == kinds;
    if title != [] {
      sections := sections[title := Trim(Join(body, "\n"))];
    }
  }

  // ---------------------------------------------------------------------
  // writing

  /** `sections[title] ?? defaultBody`: a stored body, even an empty one, wins over the default. */
  function BodyOf(sections: map<String, String>, d: SectionDef): String
  {
    if d.title in sections then sections[d.title] else d.defaultBody
  }

  /** A heading, a blank line, the trimmed body (or the `- ` placeholder) and a blank line. */
  function SectionLines(d: SectionDef, sections: map<String, String>): seq<String>
  {
    ["## " + d.title, "", SimpleSection.BodyLine(BodyOf(sections, d)), ""]
  }

  function SectionsLines(defs: seq<SectionDef>, sections: map<String, String>): seq<String>
  {
    if defs == [] then []
    else SectionsLines(defs[..|defs| - 1], sections) + SectionLines(defs[|defs| - 1], sections)
  }

  function SerializeLines(defs: seq<SectionDef>, sections: map<String, String>): seq<String>
  {
    ["# Exercises", ""] + SectionsLines(defs, sections)
  }

  /** serializeSections */
  function Serialize(defs: seq<SectionDef>, sections: map<String, String>, tags: seq<String>): String
  {
    Join(PrependTagFrontmatter(SerializeLines(defs, sections), tags), "\n")
  }

  lemma SerializeLinesSnoc(defs: seq<SectionDef>, i: nat, sections: map<String, String>)
    requires i < |defs|
    ensures SerializeLines(defs[..i + 1], sections) == SerializeLines(defs[..i], sections) + SectionLines(defs[i], sections)
  {
    assert defs[..i + 1][..i] == defs[..i];
    ConcatAssoc(["# Exercises", ""], SectionsLines(defs[..i], sections), SectionLines(defs[i], sections));
  }

  /** serializeSections, pushing the lines of one definition after another. */
  method WriteSections(defs: seq<SectionDef>, sections: map<String, String>, tags: seq<String>) returns (content: String)
    ensures content == Serialize(defs, sections, tags)
  {
    var lines := ["# Exercises", ""];
    var i := 0;
    while i < |defs|
      invariant 0 <= i <= |defs|
      invariant lines == SerializeLines(defs[..i], sections)
    {
      var d := defs[i];
      var body := if d.title in sections then sections[d.title] else d.defaultBody;
      var line := if |Trim(body)| > 0 then Trim(body) else "- ";
      assert lines + ["## " + d.title, "", line, ""] == SerializeLines(defs[..i + 1], sections) by {
        assert ["## " + d.title, "", line, ""] == SectionLines(d, sections);
        SerializeLinesSnoc(defs, i, sections);
      }
      lines := lines + ["## " + d.title, "", line, ""];
      i := i + 1;
    }
    assert lines == SerializeLines(defs, sections) by {
      assert defs[..i] == defs;
    }
    content := Join(PrependTagFrontmatter(lines, tags), "\n");
  }

  // ---------------------------------------------------------------------
  // completing and cleaning the sections read

  /** buildSectionMap: each definition sets its title, a later definition of the same title overriding. */
  function SectionMap(defs: seq<SectionDef>, parsed: map<String, String>): (r: map<String, String>)
    ensures r.Keys == Titles(defs)
  {
    if defs == [] then map[]
    else
      var init := defs[..|defs| - 1];
      var d := defs[|defs| - 1];
      assert Titles(defs) == Titles(init) + {d.title} by {
        assert forall i :: 0 <= i < |init| ==> init[i] == defs[i];
      }
      SectionMap(init, parsed)[d.title := BodyOf(parsed, d)]
  }

  /** buildSectionMap */
  method BuildSectionMap(defs: seq<SectionDef>, parsed: map<String, String>) returns (result: map<String, String>)
    ensures result == SectionMap(defs, parsed)
  {
    result := map[];
    var i := 0;
    while i < |defs|
      invariant 0 <= i <= |defs|
      invariant result == SectionMap(defs[..i], parsed)
    {
      assert defs[..i + 1][..i] == defs[..i];
      var d := defs[i];
      result := result[d.title := if d.title in parsed then parsed[d.title] else d.defaultBody];
      i := i + 1;
    }
    assert defs[..i] == defs;
  }

  /** Every line trimmed, and the lines equal to a question dropped, in order. */
  function KeptLines(lines: seq<String>, questions: seq<String>): (r: seq<String>)
    ensures |r| <= |lines|
  {
    if lines == [] then []
    else
      var init := KeptLines(lines[..|lines| - 1], questions);
      var t := Trim(lines[|lines| - 1]);
      if t in questions then init else init + [t]
  }

  /** The answer text left once the question lines are gone, trimmed. */
  function CleanBody(raw: String, questions: seq<String>): String
  {
    Trim(Join(KeptLines(Split(raw, '\n'), questions), "\n"))
  }

  /** One definition of normalizeSections: with questions, it cleans the non-empty body of its title. */
  function NormalizeStep(n: map<String, String>, d: SectionDef): (r: map<String, String>)
    ensures r.Keys == n.Keys
    ensures forall t :: t in n && t != d.title ==> r[t] == n[t]
  {
    if d.questions == [] || d.title !in n || n[d.title] == [] then n
    else n[d.title := CleanBody(n[d.title], d.questions)]
  }

  /**
   * normalizeSections: the definitions clean their bodies one after the
   * other; a title no definition with questions names stays as read.
   */
  function Normalized(defs: seq<SectionDef>, parsed: map<String, String>): (r: map<String, String>)
    ensures r.Keys == parsed.Keys
  {
    if defs == [] then parsed
    else NormalizeStep(Normalized(defs[..|defs| - 1], parsed), defs[|defs| - 1])
  }

  /** normalizeSections */
  method NormalizeSections(defs: seq<SectionDef>, parsed: map<String, String>) returns (normalized: map<String, String>)
    ensures normalized == Normalized(defs, parsed)
  {
    normalized := parsed;
    var i := 0;
    while i < |defs|
      invariant 0 <= i <= |defs|
      invariant normalized == Normalized(defs[..i], parsed)
    {
      assert defs[..i + 1][..i] == defs[..i];
      var d := defs[i];
      if |d.questions| > 0 && d.title in normalized && normalized[d.title] != [] {
        normalized := normalized[d.title := CleanBody(normalized[d.title], d.questions)];
      }
      i := i + 1;
    }
    assert defs[..i] == defs;
  }

  /**
   * loadSections, for the document's text (empty when missing): an empty
   * document is replaced by the written defaults, which are returned;
   * otherwise the document's cleaned sections, completed with the defaults.
   * The second component is the text written back, if any.
   */
  function Load(content: String, defs: seq<SectionDef>, tags: seq<String>): (r: (map<String, String>, Option<String>))
    ensures r.0.Keys == Titles(defs)
    ensures content == [] ==> r == (SectionMap(defs, map[]), Some(Serialize(defs, map[], tags)))
    ensures content != [] ==> r == (SectionMap(defs, Normalized(defs, ParseSections(content))), None)
  {
    if content == [] then (SectionMap(defs, map[]), Some(Serialize(defs, map[], tags)))
    else (SectionMap(defs, Normalized(defs, ParseSections(content))), None)
  }

  // ---------------------------------------------------------------------
  // properties of the section map and the cleaning

  /** The last definition of a title decides that title's entry. */
  lemma {:induction false} SectionMapAt(defs: seq<SectionDef>, parsed: map<String, String>, i: nat)
    requires i < |defs| && forall j :: i < j < |defs| ==> defs[j].title != defs[i].title
    ensures SectionMap(defs, parsed)[defs[i].title] == BodyOf(parsed, defs[i])
  {
    var n := |defs| - 1;
    if i < n {
      var init := defs[..n];
      assert init[i] == defs[i];
      SectionMapAt(init, parsed, i);
    }
  }

  /** With nothing read, each title gets its (last) definition's default body. */
  lemma LoadEmpty(defs: seq<SectionDef>, tags: seq<String>, i: nat)
    requires i < |defs| && forall j :: i < j < |defs| ==> defs[j].title != defs[i].title
    ensures Load([], defs, tags).0[defs[i].title] == defs[i].defaultBody
  {
    SectionMapAt(defs, map[], i);
  }

  /** A kept line is the trim of an input line, and not a question. */
  lemma {:induction false} KeptLinesSound(lines: seq<String>, questions: seq<String>, k: nat)
    requires k < |KeptLines(lines, questions)|
    ensures KeptLines(lines, questions)[k] !in questions
    ensures exists j :: 0 <= j < |lines| && KeptLines(lines, questions)[k] == Trim(lines[j])
  {
    var n := |lines| - 1;
    var init := KeptLines(lines[..n], questions);
    if k < |init| {
      KeptLinesSound(lines[..n], questions, k);
      var j :| 0 <= j < n && init[k] == Trim(lines[..n][j]);
      assert lines[..n][j] == lines[j];
    } else {
      assert KeptLines(lines, questions)[k] == Trim(lines[n]);
    }
  }

  /** Every trimmed line that is not a question is kept. */
  lemma {:induction false} KeptLinesComplete(lines: seq<String>, questions: seq<String>, j: nat)
    requires j < |lines| && Trim(lines[j]) !in questions
    ensures Trim(lines[j]) in KeptLines(lines, questions)
  {
    var n := |lines| - 1;
    if j < n {
      assert lines[..n][j] == lines[j];
      KeptLinesComplete(lines[..n], questions, j);
    }
  }

  /** Normalizing with more definitions continues from the map the first ones left. */
  lemma {:induction false} NormalizedAppend(a: seq<SectionDef>, b: seq<SectionDef>, parsed: map<String, String>)
    ensures Normalized(a + b, parsed) == Normalized(b, Normalized(a, parsed))
    decreases |b|
  {
    if b == [] {
      assert a + b == a;
    } else {
      var n := |b| - 1;
      NormalizedAppend(a, b[..n], parsed);
      assert (a + b)[..|a + b| - 1] == a + b[..n];
    }
  }

  /** A title no definition with questions names keeps the body read. */
  lemma {:induction false} NormalizedUntouched(defs: seq<SectionDef>, parsed: map<String, String>, t: String)
    requires t in parsed && forall i :: 0 <= i < |defs| && defs[i].title == t ==> defs[i].questions == []
    ensures Normalized(defs, parsed)[t] == parsed[t]
  {
    if defs != [] {
      var n := |defs| - 1;
      assert forall i :: 0 <= i < n ==> defs[..n][i] == defs[i];
      NormalizedUntouched(defs[..n], parsed, t);
    }
  }

  /** A title defined once, with questions, has its non-empty body cleaned. */
  lemma NormalizedCleans(defs: seq<SectionDef>, parsed: map<String, String>, i: nat)
    requires i < |defs| && defs[i].questions != []
    requires forall j :: 0 <= j < |defs| && j != i ==> defs[j].title != defs[i].title
    requires defs[i].title in parsed && parsed[defs[i].title] != []
    ensures Normalized(defs, parsed)[defs[i].title] == CleanBody(parsed[defs[i].title], defs[i].questions)
  {
    var t := defs[i].title;
    var before, after := defs[..i], defs[i + 1..];
    var m := Normalized(before + [defs[i]], parsed);
    assert m[t] == CleanBody(parsed[t], defs[i].questions) by {
      assert forall j :: 0 <= j < |before| ==> before[j].title != t;
      NormalizedUntouched(before, parsed, t);
      assert (before + [defs[i]])[..i] == before;
    }
    assert Normalized(after, m)[t] == m[t] by {
      forall j | 0 <= j < |after| ensures after[j].title != t {
        assert after[j] == defs[i + 1 + j];
      }
      NormalizedUntouched(after, m, t);
    }
    assert Normalized(defs, parsed) == Normalized(after, m) by {
      assert defs == before + [defs[i]] + after;
      NormalizedAppend(before + [defs[i]], after, parsed);
    }
  }

  // ---------------------------------------------------------------------
  // the round trip

  /** A title written as a `## ` heading that reads back as itself. */
  predicate PlainTitle(t: String)
  {
    t != [] && Trimmed(t) && SingleLine(t)
  }

  /** A body none of whose lines, once trimmed as a whole, reads as a `##` heading. */
  predicate PlainBody(body: String)
  {
    forall p :: p in Split(Trim(body), '\n') ==> TitleOf(p) == None
  }

  /** What a body reads back as: trimmed, or `-` (the placeholder, trimmed) when blank. */
  function ReadBody(body: String): String
  {
    if Trim(body) != [] then Trim(body) else "-"
  }

  /** The sections a written document reads back as: each title with its body read back, the last definition of a title winning. */
  function Written(defs: seq<SectionDef>, sections: map<String, String>): map<String, String>
  {
    if defs == [] then map[]
    else
      var d := defs[|defs| - 1];
      Written(defs[..|defs| - 1], sections)[d.title := ReadBody(BodyOf(sections, d))]
  }

  /** The lines of a body once the document is split at line breaks. */
  function Pieces(d: SectionDef, sections: map<String, String>): seq<String>
  {
    Split(SimpleSection.BodyLine(BodyOf(sections, d)), '\n')
  }

  function FlatBlock(d: SectionDef, sections: map<String, String>): seq<String>
  {
    ["## " + d.title, ""] + Pieces(d, sections) + [""]
  }

  function FlatSections(defs: seq<SectionDef>, sections: map<String, String>): seq<String>
  {
    if defs == [] then []
    else FlatSections(defs[..|defs| - 1], sections) + FlatBlock(defs[|defs| - 1], sections)
  }

  lemma BlockJoin(d: SectionDef, sections: map<String, String>)
    ensures Join(SectionLines(d, sections), "\n") == Join(FlatBlock(d, sections), "\n")
  {
    var x := SimpleSection.BodyLine(BodyOf(sections, d));
    assert SectionLines(d, sections) == ["## " + d.title, ""] + [x] + [""];
    JoinFlatten(["## " + d.title, ""], x, [""], '\n');
  }

  /** Replacing each written body by its lines does not change the text. */
  lemma {:induction false} JoinFlat(a: seq<String>, defs: seq<SectionDef>, sections: map<String, String>)
    requires a != []
    ensures Join(a + SectionsLines(defs, sections), "\n") == Join(a + FlatSections(defs, sections), "\n")
  {
    if defs == [] {
      assert a + [] == a;
    } else {
      var n := |defs| - 1;
      var d := defs[n];
      JoinFlat(a, defs[..n], sections);
      var s0 := SectionsLines(defs[..n], sections);
      var f0 := FlatSections(defs[..n], sections);
      ConcatAssoc(a, s0, SectionLines(d, sections));
      ConcatAssoc(a, f0, FlatBlock(d, sections));
      JoinAppend(a + s0, SectionLines(d, sections), "\n");
      JoinAppend(a + f0, FlatBlock(d, sections), "\n");
      BlockJoin(d, sections);
    }
  }

  /** A line that does not start with `##` is not a heading. */
  lemma NotTitle(line: String)
    requires !StartsWith(line, "##")
    ensures Classify(line) == Text(line)
  {
  }

  lemma ClassifyTitle(t: String)
    requires PlainTitle(t)
    ensures Classify("## " + t) == Heading(t)
  {
    assert "## " + t == "##" + " " + t;
    HeadingOfText("##", t);
    TrimOfTrimmed(t);
  }

  /** Lines that are not headings add to the open section, or are skipped before the first one. */
  lemma {:induction false} ScanTexts(s: Scan, lines: seq<String>)
    requires forall i :: 0 <= i < |lines| ==> Classify(lines[i]) == Text(lines[i])
    ensures ScanLines(s, Kinds(lines)) == if s.title == [] then s else s.(body := s.body + lines)
  {
    if lines == [] {
      assert s.body + lines == s.body;
    } else {
      var n := |lines| - 1;
      assert Kinds(lines)[..n] == Kinds(lines[..n]);
      ScanTexts(s, lines[..n]);
      SnocParts(lines);
      ConcatAssoc(s.body, lines[..n], [lines[n]]);
    }
  }

  lemma PiecesPlain(d: SectionDef, sections: map<String, String>)
    requires PlainBody(BodyOf(sections, d))
    ensures forall i :: 0 <= i < |Pieces(d, sections)| ==> Classify(Pieces(d, sections)[i]) == Text(Pieces(d, sections)[i])
  {
    var body := BodyOf(sections, d);
    var ps := Pieces(d, sections);
    if Trim(body) == [] {
      SplitNoSep("- ", '\n');
      assert ps == ["- "];
      assert !StartsWith("- ", "##");
    }
    forall i | 0 <= i < |ps| ensures Classify(ps[i]) == Text(ps[i]) {
      assert ps[i] in ps;
    }
  }

  /** One written section: its heading flushes what came before, its lines become the open body. */
  lemma BlockRead(s: Scan, d: SectionDef, sections: map<String, String>)
    requires PlainTitle(d.title) && PlainBody(BodyOf(sections, d))
    ensures ScanLines(s, Kinds(FlatBlock(d, sections)))
            == Scan(d.title, [""] + Pieces(d, sections) + [""], Flush(s))
  {
    var ps := Pieces(d, sections);
    var rest := [""] + ps + [""];
    var open := Scan(d.title, [], Flush(s));
    assert ScanLines(s, Kinds(FlatBlock(d, sections))) == ScanLines(open, Kinds(rest)) by {
      assert FlatBlock(d, sections) == ["## " + d.title] + rest;
      KindsAppend(["## " + d.title], rest);
      ClassifyTitle(d.title);
      assert Kinds(["## " + d.title]) == [Heading(d.title)];
      ScanAppend(s, [Heading(d.title)], Kinds(rest));
      assert [Heading(d.title)][..0] == [];
    }
    assert forall i :: 0 <= i < |rest| ==> Classify(rest[i]) == Text(rest[i]) by {
      PiecesPlain(d, sections);
      NotTitle("");
      forall i | 0 <= i < |rest| ensures Classify(rest[i]) == Text(rest[i]) {
        if 0 < i < |rest| - 1 {
          assert rest[i] == ps[i - 1];
        }
      }
    }
    ScanTexts(open, rest);
    EmptyConcat(rest);
  }

  /** The reader's state after the written sections: the last one still open. */
  function Open(defs: seq<SectionDef>, sections: map<String, String>): Scan
  {
    if defs == [] then Start
    else
      var d := defs[|defs| - 1];
      Scan(d.title, [""] + Pieces(d, sections) + [""], Written(defs[..|defs| - 1], sections))
  }

  lemma FlushOpen(defs: seq<SectionDef>, sections: map<String, String>)
    requires forall i :: 0 <= i < |defs| ==> PlainTitle(defs[i].title)
    ensures Flush(Open(defs, sections)) == Written(defs, sections)
  {
    if defs != [] {
      var d := defs[|defs| - 1];
      var b := SimpleSection.BodyLine(BodyOf(sections, d));
      var ps := Pieces(d, sections);
      JoinBetweenBlanks(ps, "\n");
      JoinSplit(b, '\n');
      SimpleSection.BodyLineTrims(BodyOf(sections, d));
    }
  }

  lemma {:induction false} BlocksRead(defs: seq<SectionDef>, sections: map<String, String>)
    requires forall i :: 0 <= i < |defs| ==> PlainTitle(defs[i].title) && PlainBody(BodyOf(sections, defs[i]))
    ensures ScanLines(Start, Kinds(FlatSections(defs, sections))) == Open(defs, sections)
  {
    if defs != [] {
      var n := |defs| - 1;
      var init := defs[..n];
      assert forall i :: 0 <= i < n ==> init[i] == defs[i];
      BlocksRead(init, sections);
      KindsAppend(FlatSections(init, sections), FlatBlock(defs[n], sections));
      ScanAppend(Start, Kinds(FlatSections(init, sections)), Kinds(FlatBlock(defs[n], sections)));
      BlockRead(Open(init, sections), defs[n], sections);
      FlushOpen(init, sections);
    }
  }

  lemma KindsAppend(a: seq<String>, b: seq<String>)
    ensures Kinds(a + b) == Kinds(a) + Kinds(b)
  {
  }

  lemma {:induction false} ScanAppend(s: Scan, a: seq<LineKind>, b: seq<LineKind>)
    ensures ScanLines(s, a + b) == ScanLines(ScanLines(s, a), b)
    decreases |b|
  {
    if b == [] {
      assert a + b == a;
    } else {
      ScanAppend(s, a, b[..|b| - 1]);
      assert (a + b)[..|a + b| - 1] == a + b[..|b| - 1];
    }
  }

  /** The front matter and the `# Exercises` title come before any section. */
  lemma PreambleRead(tags: seq<String>)
    ensures ScanLines(Start, Kinds(Frontmatter(tags) + ["# Exercises", ""])) == Start
  {
    var pre := Frontmatter(tags) + ["# Exercises", ""];
    FrontmatterNoHeading(tags);
    forall i | 0 <= i < |pre| ensures Classify(pre[i]) == Text(pre[i]) {
      if i < |Frontmatter(tags)| {
        NotTitle(pre[i]);
      } else {
        assert pre[i] == "# Exercises" || pre[i] == "";
        assert !StartsWith("# Exercises", "##") by {
          assert "# Exercises"[..2][1] == ' ';
        }
        NotTitle(pre[i]);
      }
    }
    ScanTexts(Start, pre);
  }

  lemma FlatNoBreaks(defs: seq<SectionDef>, sections: map<String, String>)
    requires forall i :: 0 <= i < |defs| ==> PlainTitle(defs[i].title)
    ensures NoBreaks(FlatSections(defs, sections))
  {
    var f := FlatSections(defs, sections);
    forall k | 0 <= k < |f| ensures '\n' !in f[k] {
      FlatLineNoBreak(defs, sections, k);
    }
  }

  lemma {:induction false} FlatLineNoBreak(defs: seq<SectionDef>, sections: map<String, String>, k: nat)
    requires forall i :: 0 <= i < |defs| ==> PlainTitle(defs[i].title)
    requires k < |FlatSections(defs, sections)|
    ensures '\n' !in FlatSections(defs, sections)[k]
  {
    var n := |defs| - 1;
    var init := defs[..n];
    var f0 := FlatSections(init, sections);
    var b := FlatBlock(defs[n], sections);
    if k < |f0| {
      assert forall i :: 0 <= i < n ==> init[i] == defs[i];
      FlatLineNoBreak(init, sections, k);
    } else {
      assert FlatSections(defs, sections)[k] == b[k - |f0|];
      BlockNoBreaks(defs[n], sections);
    }
  }

  lemma BlockNoBreaks(d: SectionDef, sections: map<String, String>)
    requires PlainTitle(d.title)
    ensures NoBreaks(FlatBlock(d, sections))
  {
    var b := FlatBlock(d, sections);
    var ps := Pieces(d, sections);
    SingleLineConcat("## ", d.title);
    SingleLineNoBreak("## " + d.title);
    forall j | 0 <= j < |b| ensures '\n' !in b[j] {
      if 2 <= j < |b| - 1 {
        assert b[j] == ps[j - 2];
      }
    }
  }

  /**
   * The exercises written from plain titles and bodies read back as the
   * trimmed bodies (`-` for a blank one), whatever the tags.
   */
  lemma RoundTrip(defs: seq<SectionDef>, sections: map<String, String>, tags: seq<String>)
    requires forall i :: 0 <= i < |defs| ==> PlainTitle(defs[i].title) && PlainBody(BodyOf(sections, defs[i]))
    requires NoBreaks(tags)
    ensures ParseSections(Serialize(defs, sections, tags)) == Written(defs, sections)
  {
    var fm := Frontmatter(NormalizedTags(tags));
    var pre := fm + ["# Exercises", ""];
    var body := FlatSections(defs, sections);
    var flat := ["# Exercises", ""] + body;
    assert Split(Serialize(defs, sections, tags), '\n') == pre + body by {
      assert Serialize(defs, sections, tags) == Join(PrependTagFrontmatter(flat, tags), "\n") by {
        ConcatAssoc(fm, ["# Exercises", ""], SectionsLines(defs, sections));
        ConcatAssoc(fm, ["# Exercises", ""], body);
        JoinFlat(pre, defs, sections);
      }
      FlatNoBreaks(defs, sections);
      NoBreaksConcat(["# Exercises", ""], body);
      DocumentSplit(flat, tags);
      ConcatAssoc(fm, ["# Exercises", ""], body);
    }
    assert ScanLines(Start, Kinds(pre + body)) == Open(defs, sections) by {
      KindsAppend(pre, body);
      ScanAppend(Start, Kinds(pre), Kinds(body));
      PreambleRead(NormalizedTags(tags));
      BlocksRead(defs, sections);
    }
    FlushOpen(defs, sections);
  }
}
