/**
 * The weekly shared note: the routine table, the list of roles and the month
 * themes, kept in one Markdown document shared by every week.
 */
module WeeklyShared {
  import opened Text
  import opened MarkdownTags
  import opened Routines

  /**
   * The shared note. The month themes are the entries of a record from month
   * (`YYYY-MM`) to theme, in the record's insertion order.
   */
  datatype Shared = Shared(routines: seq<Routine>, roles: seq<String>, themes: seq<(String, String)>)

  const RoutineSection: String := "ルーティン行動"
  const RoleSection: String := "役割と重点タスク"
  const ThemeSection: String := "月間テーマ"

  /** The role written, and read back, when the note has none. */
  const DefaultRole: String := "役割1"

  // ---------------------------------------------------------------------
  // month themes as an insertion-ordered record

  /** The theme recorded for a month, if any. */
  function Lookup(ts: seq<(String, String)>, month: String): Option<String>
  {
    if ts == [] then None else if ts[0].0 == month then Some(ts[0].1) else Lookup(ts[1..], month)
  }

  predicate DistinctMonths(ts: seq<(String, String)>)
  {
    forall i, j :: 0 <= i < j < |ts| ==> ts[i].0 != ts[j].0
  }

  /** Assigning a month's theme: an existing entry keeps its place and takes the new theme, a new month goes last. */
  function Put(ts: seq<(String, String)>, month: String, theme: String): (r: seq<(String, String)>)
    ensures |r| == |ts| || r == ts + [(month, theme)]
  {
    if ts == [] then [(month, theme)]
    else if ts[0].0 == month then [(month, theme)] + ts[1..]
    else
      var rest := Put(ts[1..], month, theme);
      assert [ts[0]] + (ts[1..] + [(month, theme)]) == ts + [(month, theme)];
      [ts[0]] + rest
  }

  /** After assigning, the month reads the new theme and every other month what it read before. */
  lemma {:induction false} PutLookup(ts: seq<(String, String)>, month: String, theme: String, other: String)
    ensures Lookup(Put(ts, month, theme), month) == Some(theme)
    ensures other != month ==> Lookup(Put(ts, month, theme), other) == Lookup(ts, other)
  {
    if ts != [] && ts[0].0 != month {
      PutLookup(ts[1..], month, theme, other);
      var r := [ts[0]] + Put(ts[1..], month, theme);
      assert r[1..] == Put(ts[1..], month, theme);
    } else if ts != [] {
      assert ([(month, theme)] + ts[1..])[1..] == ts[1..];
    }
  }

  /** A month not yet recorded is appended. */
  lemma {:induction false} PutNew(ts: seq<(String, String)>, month: String, theme: String)
    requires !HasMonth(ts, month)
    ensures Put(ts, month, theme) == ts + [(month, theme)]
  {
    if ts != [] {
      assert ts[0].0 != month;
      forall k | 0 <= k < |ts[1..]| ensures ts[1..][k].0 != month {
        assert ts[1..][k] == ts[k + 1];
      }
      PutNew(ts[1..], month, theme);
      assert [ts[0]] + (ts[1..] + [(month, theme)]) == ts + [(month, theme)];
    }
  }

  /** A month already recorded keeps its place, so the record never holds a month twice. */
  lemma {:induction false} PutDistinct(ts: seq<(String, String)>, month: String, theme: String)
    requires DistinctMonths(ts)
    ensures DistinctMonths(Put(ts, month, theme))
    ensures HasMonth(ts, month) ==> |Put(ts, month, theme)| == |ts|
  {
    if ts != [] {
      var rest := ts[1..];
      assert DistinctMonths(rest) by {
        forall i, j | 0 <= i < j < |rest| ensures rest[i].0 != rest[j].0 {
          assert rest[i] == ts[i + 1] && rest[j] == ts[j + 1];
        }
      }
      if ts[0].0 == month {
        var r := [(month, theme)] + rest;
        forall i, j | 0 <= i < j < |r| ensures r[i].0 != r[j].0 {
          assert r[j] == ts[j];
          if i > 0 { assert r[i] == ts[i]; }
        }
      } else {
        PutDistinct(rest, month, theme);
        var p := Put(rest, month, theme);
        var r := [ts[0]] + p;
        forall i, j | 0 <= i < j < |r| ensures r[i].0 != r[j].0 {
          assert r[j] == p[j - 1];
          if i > 0 {
            assert r[i] == p[i - 1];
          } else {
            assert HasMonth(p, p[j - 1].0);
            PutMonths(rest, month, theme, p[j - 1].0);
          }
        }
        if HasMonth(ts, month) {
          var i :| 0 <= i < |ts| && ts[i].0 == month;
          assert rest[i - 1].0 == month;
        }
      }
    }
  }

  predicate HasMonth(ts: seq<(String, String)>, m: String)
  {
    exists i :: 0 <= i < |ts| && ts[i].0 == m
  }

  /** Every month of the record after assigning was recorded before, or is the one assigned. */
  lemma {:induction false} PutMonths(ts: seq<(String, String)>, month: String, theme: String, m: String)
    requires HasMonth(Put(ts, month, theme), m)
    ensures m == month || HasMonth(ts, m)
  {
    var r := Put(ts, month, theme);
    var i :| 0 <= i < |r| && r[i].0 == m;
    if ts != [] && ts[0].0 != month {
      var p := Put(ts[1..], month, theme);
      assert r == [ts[0]] + p;
      if i == 0 {
        assert ts[0].0 == m;
      } else {
        assert p[i - 1].0 == m;
        PutMonths(ts[1..], month, theme, m);
        if m != month {
          var k :| 0 <= k < |ts[1..]| && ts[1..][k].0 == m;
          assert ts[k + 1].0 == m;
        }
      }
    } else if ts != [] && i > 0 {
      assert ts[i].0 == m;
    }
  }

  // ---------------------------------------------------------------------
  // writing

  function RoleLinesOf(roles: seq<String>): seq<String>
  {
    if roles == [] then [] else RoleLinesOf(roles[..|roles| - 1]) + ["### " + roles[|roles| - 1], ""]
  }

  /** One heading per role; with no roles, the default heading `役割1`. */
  function RoleLines(roles: seq<String>): seq<String>
  {
    if roles == [] then ["### " + DefaultRole, ""] else RoleLinesOf(roles)
  }

  function ThemeLine(month: String, theme: String): String
  {
    "- " + month + ": " + theme
  }

  /** One bullet per month theme; with none, the empty bullet `- `. */
  function ThemeLines(ts: seq<(String, String)>): seq<String>
  {
    if ts == [] then ["- "] else seq(|ts|, i requires 0 <= i < |ts| => ThemeLine(ts[i].0, ts[i].1))
  }

  function SerializeLines(s: Shared): seq<String>
  {
    ["# 週間共有", "", "## " + RoutineSection, ""] + RoutineTable(s.routines)
    + ["", "## " + RoleSection, ""] + RoleLines(s.roles)
    + ["## " + ThemeSection, ""] + ThemeLines(s.themes)
  }

  /** serializeWeeklyShared */
  function Serialize(s: Shared, tags: seq<String>): String
  {
    Join(PrependTagFrontmatter(SerializeLines(s), tags), "\n")
  }

  /** Pushing the role headings after `lines`. */
  method AppendRoles(lines: seq<String>, roles: seq<String>) returns (r: seq<String>)
    ensures r == lines + RoleLines(roles)
  {
    if |roles| == 0 {
      r := lines + ["### " + DefaultRole, ""];
    } else {
      r := lines;
      var i := 0;
      while i < |roles|
        invariant 0 <= i <= |roles|
        invariant r == lines + RoleLinesOf(roles[..i])
      {
        assert roles[..i + 1][..i] == roles[..i];
        r := r + ["### " + roles[i], ""];
        i := i + 1;
      }
      assert roles[..i] == roles;
    }
  }

  /** Pushing the month theme bullets after `lines`. */
  method AppendThemes(lines: seq<String>, ts: seq<(String, String)>) returns (r: seq<String>)
    ensures r == lines + ThemeLines(ts)
  {
    if |ts| == 0 {
      r := lines + ["- "];
    } else {
      r := lines;
      var i := 0;
      while i < |ts|
        invariant 0 <= i <= |ts|
        invariant |r| == |lines| + i && r[..|lines|] == lines
        invariant forall k :: 0 <= k < i ==> r[|lines| + k] == ThemeLine(ts[k].0, ts[k].1)
      {
        r := r + [ThemeLine(ts[i].0, ts[i].1)];
        i := i + 1;
      }
      assert r == lines + ThemeLines(ts);
    }
  }

  /** serializeWeeklyShared, line by line. */
  method WriteShared(s: Shared, tags: seq<String>) returns (content: String)
    ensures content == Serialize(s, tags)
  {
    var lines := ["# 週間共有", "", "## " + RoutineSection, ""];
    lines := AppendRoutineTable(lines, s.routines);
    lines := lines + ["", "## " + RoleSection, ""];
    lines := AppendRoles(lines, s.roles);
    lines := lines + ["## " + ThemeSection, ""];
    lines := AppendThemes(lines, s.themes);
    content := Join(PrependTagFrontmatter(lines, tags), "\n");
  }

  // ---------------------------------------------------------------------
  // reading

  predicate IsMonthKey(k: String)
  {
    |k| == 7 && IsDigit(k[0]) && IsDigit(k[1]) && IsDigit(k[2]) && IsDigit(k[3]) && k[4] == '-'
    && IsDigit(k[5]) && IsDigit(k[6])
  }

  /** The group of `^###\s+(.+)$`, trimmed. */
  function RoleOf(line: String): Option<String>
  {
    match HeadingGroup(line, "###")
    case Some(g) => Some(Trim(g))
    case None => None
  }

  /** The month and the trimmed theme captured by `^\-\s*([0-9]{4}\-[0-9]{2})\s*:\s*(.+)$`. */
  function ThemeOf(line: String): (r: Option<(String, String)>)
    ensures r.Some? ==> IsMonthKey(r.value.0) && StartsWith(line, "-")
  {
    if !StartsWith(line, "-") then None
    else
      var t := TrimStart(line[1..]);
      if |t| < 7 || !IsMonthKey(t[..7]) then None
      else
        var u := TrimStart(t[7..]);
        if u == [] || u[0] != ':' then None
        else
          match SpacedRest(u[1..], false)
          case Some(g) => Some((t[..7], Trim(g)))
          case None => None
  }

  /** A `## ` line opens a section; every other line carries what each section would read from it. */
  datatype LineKind =
    | SectionLine(name: String)
    | Body(row: Option<Routine>, role: Option<String>, theme: Option<(String, String)>)

  const Blank: LineKind := Body(None, None, None)

  function Classify(line: String): LineKind
  {
    if StartsWith(line, "## ") then SectionLine(TrimStart(line[2..]))
    else Body(ReadRow(line), RoleOf(line), ThemeOf(line))
  }

  function Kinds(lines: seq<String>): (r: seq<LineKind>)
    ensures |r| == |lines|
  {
    seq(|lines|, i requires 0 <= i < |lines| => Classify(lines[i]))
  }

  datatype Scan = Scan(section: String, routines: seq<Routine>, roles: seq<String>, themes: seq<(String, String)>)

  const Start: Scan := Scan([], [], [], [])

  /** One line of parseWeeklyShared. */
  function Step(s: Scan, kind: LineKind): Scan
  {
    match kind
    case SectionLine(name) => s.(section := name)
    case Body(row, role, theme) =>
      if s.section == RoutineSection then (if row.Some? then s.(routines := s.routines + [row.value]) else s)
      else if s.section == RoleSection then (if role.Some? && role.value != [] then s.(roles := s.roles + [role.value]) else s)
      else if s.section == ThemeSection then (if theme.Some? then s.(themes := Put(s.themes, theme.value.0, theme.value.1)) else s)
      else s
  }

  function ScanLines(s: Scan, kinds: seq<LineKind>): Scan
  {
    if kinds == [] then s else Step(ScanLines(s, kinds[..|kinds| - 1]), kinds[|kinds| - 1])
  }

  /** parseWeeklyShared */
  function Parse(content: String): Shared
  {
    var f := ScanLines(Start, Kinds(Split(content, '\n')));
    Shared(f.routines, f.roles, f.themes)
  }

  /** parseWeeklyShared, line by line. */
  method ReadShared(content: String) returns (shared: Shared)
    ensures shared == Parse(content)
  {
    var lines := Split(content, '\n');
    ghost var kinds := Kinds(lines);
    var section: String := [];
    var routines: seq<Routine> := [];
    var roles: seq<String> := [];
    var themes: seq<(String, String)> := [];
    var i := 0;
    while i < |lines|
      invariant 0 <= i <= |lines|
      invariant ScanLines(Start, kinds[..i]) == Scan(section, routines, roles, themes)
    {
      assert kinds[..i + 1][..i] == kinds[..i];
      var line := lines[i];
      if StartsWith(line, "## ") {
        section := TrimStart(line[2..]);
      } else if section == RoutineSection {
        var row := ReadRow(line);
        if row.Some? {
          routines := routines + [row.value];
        }
      } else if section == RoleSection {
        var role := RoleOf(line);
        if role.Some? && role.value != [] {
          roles := roles + [role.value];
        }
      } else if section == ThemeSection {
        var theme := ThemeOf(line);
        if theme.Some? {
          themes := Put(themes, theme.value.0, theme.value.1);
        }
      }
      i := i + 1;
    }
    assert kinds[..i] == kinds;
    shared := Shared(routines, roles, themes);
  }

  // ---------------------------------------------------------------------
  // properties of one line

  /** The empty theme bullet sets no month. */
  lemma PlaceholderSetsNothing()
    ensures Classify("- ") == Blank
  {
    assert "- "[..1] == "-";
    assert TrimStart("- "[1..]) == [];
  }

  /** A later line for the same month replaces the earlier theme in place. */
  lemma ThemeOverwrites(s: Scan, month: String, theme: String)
    requires s.section == ThemeSection && DistinctMonths(s.themes)
    ensures var r := Step(s, Body(None, None, Some((month, theme))));
      Lookup(r.themes, month) == Some(theme)
      && (forall m :: m != month ==> Lookup(r.themes, m) == Lookup(s.themes, m))
      && DistinctMonths(r.themes)
  {
    var r := Step(s, Body(None, None, Some((month, theme))));
    PutLookup(s.themes, month, theme, month);
    forall m | m != month ensures Lookup(r.themes, m) == Lookup(s.themes, m) {
      PutLookup(s.themes, month, theme, m);
    }
    PutDistinct(s.themes, month, theme);
  }

  /** A blank line is read the same in every section: it changes nothing. */
  lemma StepBlank(s: Scan)
    ensures Step(s, Blank) == s
  {
  }

  lemma ClassifyEmpty()
    ensures Classify([]) == Blank
  {
  }

  lemma ClassifySection(name: String)
    requires name != [] && !IsSpace(name[0])
    ensures Classify("## " + name) == SectionLine(name)
  {
    var line := "## " + name;
    assert line[..3] == "## ";
    assert line[2..] == " " + name;
    TrimStartSkips(" ", name);
    TrimStartOfNonSpace(name);
  }

  lemma ClassifyRoutine(r: Routine)
    requires PlainTitle(r.title)
    ensures Classify(RoutineRow(r)) == Body(Some(Kept(r)), None, None)
  {
    RowReadBack(r);
    var line := RoutineRow(r);
    assert line[0] == '|';
    ClassifyBar(line);
  }

  /** A line that starts with none of `#`, `-` and `|` carries nothing. */
  lemma ClassifyOther(line: String)
    requires line == [] || (line[0] != '#' && line[0] != '-' && line[0] != '|')
    ensures Classify(line) == Blank
  {
    if line != [] {
      NotHeading(line);
      assert !StartsWith(line, "## ") && !StartsWith(line, "-") && !StartsWith(line, "|") by {
        assert line[..1][0] == line[0];
      }
    }
  }

  /** A line starting with `|` is neither a heading nor a bullet. */
  lemma ClassifyBar(line: String)
    requires line != [] && line[0] == '|'
    ensures Classify(line) == Body(ReadRow(line), None, None)
  {
    NotHeading(line);
    assert !StartsWith(line, "## ") && !StartsWith(line, "-") by {
      assert line[..1][0] == line[0];
    }
  }

  /** The title line `# 週間共有` carries nothing. */
  lemma ClassifyTitle()
    ensures Classify("# 週間共有") == Blank
  {
    var line := "# 週間共有";
    assert line[1] == ' ';
    assert !StartsWith(line, "## ") && !StartsWith(line, "###") by {
      assert line[..3][1] == ' ' && line[..2][1] == ' ';
    }
    assert !StartsWith(line, "-") && !StartsWith(line, "|") by {
      assert line[..1][0] == '#';
    }
  }

  /** A front matter fence `---` sets no month: it is too short to hold one. */
  lemma ClassifyFence()
    ensures Classify("---") == Blank
  {
    var line := "---";
    assert !StartsWith(line, "## ") && !StartsWith(line, "|") by {
      assert line[..1][0] == '-';
    }
    NotHeading(line);
    assert line[1..] == "--";
    TrimStartOfNonSpace("--");
  }

  lemma KindsOfTwo(a: String, b: String)
    ensures Kinds([a, b]) == [Classify(a), Classify(b)]
  {
  }

  lemma KindsOfThree(a: String, b: String, c: String)
    ensures Kinds([a, b, c]) == [Classify(a), Classify(b), Classify(c)]
  {
  }

  lemma ClassifyTableRow(line: String)
    requires line == HeaderRow || line == SeparatorRow || line == BlankRow
    ensures Classify(line) == Blank
  {
    if line == HeaderRow {
      HeaderRowSkipped();
    } else if line == SeparatorRow {
      SeparatorRowSkipped();
    } else {
      BlankRowSkipped();
    }
    assert line[0] == '|';
    ClassifyBar(line);
  }

  /** A role heading with a plain text reads back as that role. */
  lemma ClassifyRole(role: String)
    requires role != [] && Trimmed(role) && SingleLine(role)
    ensures Classify("### " + role) == Body(None, Some(role), None)
  {
    var line := "### " + role;
    assert line[0] == '#' && line[2] == '#';
    assert !StartsWith(line, "## ");
    assert RoleOf(line) == Some(role) by {
      HeadingOfText("###", role);
      TrimOfTrimmed(role);
    }
    assert ReadRow(line) == None && ThemeOf(line) == None by {
      assert !StartsWith(line, "-") && !StartsWith(line, "|");
    }
  }

  /** A written month theme reads back as its month and theme. */
  lemma ClassifyTheme(month: String, theme: String)
    requires IsMonthKey(month) && Trimmed(theme) && SingleLine(theme)
    ensures Classify(ThemeLine(month, theme)) == Body(None, None, Some((month, theme)))
  {
    var line := ThemeLine(month, theme);
    assert line == "-" + (" " + (month + (":" + (" " + theme))));
    assert line[..1] == "-" && line[1..] == " " + (month + (":" + (" " + theme)));
    var t := month + (":" + (" " + theme));
    TrimStartSkips(" ", t);
    TrimStartOfNonSpace(t);
    assert t[..7] == month && t[7..] == ":" + (" " + theme);
    TrimStartOfNonSpace(t[7..]);
    var u := t[7..];
    assert u[1..] == " " + theme;
    if theme == [] {
      SpacedRestOfBlank();
    } else {
      SpacedRestOfText(theme, false);
      TrimOfTrimmed(theme);
    }
    assert line[0] == '-';
    assert !StartsWith(line, "## ");
  }

  // ---------------------------------------------------------------------
  // round trip

  /** What reads back from a written note. */
  function ReadBack(s: Shared): Shared
  {
    Shared(KeptAll(s.routines), if s.roles == [] then [DefaultRole] else s.roles, s.themes)
  }

  predicate PlainRole(role: String)
  {
    role != [] && Trimmed(role) && SingleLine(role)
  }

  /** A note that reads back as written. */
  predicate PlainShared(s: Shared)
  {
    (forall i :: 0 <= i < |s.routines| ==> PlainTitle(s.routines[i].title))
    && (forall i :: 0 <= i < |s.roles| ==> PlainRole(s.roles[i]))
    && (forall i :: 0 <= i < |s.themes| ==> IsMonthKey(s.themes[i].0) && Trimmed(s.themes[i].1) && SingleLine(s.themes[i].1))
    && DistinctMonths(s.themes)
  }

  function Blanks(n: nat): seq<LineKind>
  {
    seq(n, _ => Blank)
  }

  function RowKindsOf(rs: seq<Routine>): seq<LineKind>
  {
    seq(|rs|, i requires 0 <= i < |rs| => Body(Some(Kept(rs[i])), None, None))
  }

  function RowKinds(rs: seq<Routine>): seq<LineKind>
  {
    if rs == [] then [Blank] else RowKindsOf(rs)
  }

  function RoleKindsOf(roles: seq<String>): seq<LineKind>
  {
    if roles == [] then [] else RoleKindsOf(roles[..|roles| - 1]) + [Body(None, Some(roles[|roles| - 1]), None), Blank]
  }

  function ThemeKinds(ts: seq<(String, String)>): seq<LineKind>
  {
    if ts == [] then [Blank] else seq(|ts|, i requires 0 <= i < |ts| => Body(None, None, Some(ts[i])))
  }

  lemma KindsAppend(a: seq<String>, b: seq<String>)
    ensures Kinds(a + b) == Kinds(a) + Kinds(b)
  {
  }

  lemma {:induction false} ScanAppend(s: Scan, a: seq<LineKind>, b: seq<LineKind>)
    ensures ScanLines(s, a + b) == ScanLines(ScanLines(s, a), b)
    decreases |b|
  {
    if b == [] {
      assert a + b == a;
    } else {
      ScanAppend(s, a, b[..|b| - 1]);
      assert (a + b)[..|a + b| - 1] == a + b[..|b| - 1];
      assert (a + b)[|a + b| - 1] == b[|b| - 1];
    }
  }

  /** Reading two runs of lines one after the other. */
  lemma ScanLinesAppend(s: Scan, a: seq<String>, b: seq<String>)
    ensures ScanLines(s, Kinds(a + b)) == ScanLines(ScanLines(s, Kinds(a)), Kinds(b))
  {
    KindsAppend(a, b);
    ScanAppend(s, Kinds(a), Kinds(b));
  }

  lemma ScanOne(s: Scan, x: LineKind)
    ensures ScanLines(s, [x]) == Step(s, x)
  {
    assert [x][..0] == [];
  }

  lemma ScanTwo(s: Scan, x: LineKind, y: LineKind)
    ensures ScanLines(s, [x, y]) == Step(Step(s, x), y)
  {
    assert [x][..0] == [];
    assert ScanLines(s, [x]) == Step(ScanLines(s, []), x);
    assert [x, y][..1] == [x];
  }

  lemma {:induction false} ScanBlanks(s: Scan, n: nat)
    ensures ScanLines(s, Blanks(n)) == s
  {
    if n > 0 {
      assert Blanks(n)[..n - 1] == Blanks(n - 1);
      ScanBlanks(s, n - 1);
    }
  }

  lemma {:induction false} ScanRowsOf(s: Scan, rs: seq<Routine>)
    requires s.section == RoutineSection
    ensures ScanLines(s, RowKindsOf(rs)) == s.(routines := s.routines + KeptAll(rs))
    decreases |rs|
  {
    if rs == [] {
      assert RowKindsOf(rs) == [];
      assert s.routines + KeptAll(rs) == s.routines;
    } else {
      var n := |rs| - 1;
      var init := rs[..n];
      var k := RowKindsOf(rs);
      assert k[..n] == RowKindsOf(init);
      ScanRowsOf(s, init);
      assert k[n] == Body(Some(Kept(rs[n])), None, None);
      KeptAllSnoc(rs);
      assert s.routines + KeptAll(init) + [Kept(rs[n])] == s.routines + KeptAll(rs);
    }
  }

  lemma ScanRows(s: Scan, rs: seq<Routine>)
    requires s.section == RoutineSection
    ensures ScanLines(s, RowKinds(rs)) == s.(routines := s.routines + KeptAll(rs))
  {
    if rs == [] {
      assert RowKinds(rs) == Blanks(1);
      ScanBlanks(s, 1);
      assert s.routines + KeptAll(rs) == s.routines;
    } else {
      ScanRowsOf(s, rs);
    }
  }

  lemma {:induction false} ScanRoles(s: Scan, roles: seq<String>)
    requires s.section == RoleSection
    requires forall i :: 0 <= i < |roles| ==> roles[i] != []
    ensures ScanLines(s, RoleKindsOf(roles)) == s.(roles := s.roles + roles)
    decreases |roles|
  {
    if roles == [] {
      assert s.roles + roles == s.roles;
    } else {
      var init := roles[..|roles| - 1];
      var last := roles[|roles| - 1];
      ScanRoles(s, init);
      ScanAppend(s, RoleKindsOf(init), [Body(None, Some(last), None), Blank]);
      ScanTwo(ScanLines(s, RoleKindsOf(init)), Body(None, Some(last), None), Blank);
      assert s.roles + init + [last] == s.roles + roles;
    }
  }

  /** The first months of distinct months are distinct and none is the last. */
  lemma DistinctInit(ts: seq<(String, String)>)
    requires ts != [] && DistinctMonths(ts)
    ensures DistinctMonths(ts[..|ts| - 1]) && !HasMonth(ts[..|ts| - 1], ts[|ts| - 1].0)
  {
    var init := ts[..|ts| - 1];
    forall i, j | 0 <= i < j < |init| ensures init[i].0 != init[j].0 {
      assert init[i] == ts[i] && init[j] == ts[j];
    }
    forall k | 0 <= k < |init| ensures init[k].0 != ts[|ts| - 1].0 {
      assert init[k] == ts[k];
    }
  }

  lemma {:induction false} ScanThemes(s: Scan, ts: seq<(String, String)>)
    requires s.section == ThemeSection && s.themes == []
    requires DistinctMonths(ts)
    ensures ScanLines(s, ThemeKinds(ts)) == s.(themes := ts)
    decreases |ts|
  {
    if |ts| == 1 {
      assert ThemeKinds(ts)[..0] == [];
    } else if |ts| > 1 {
      var init := ts[..|ts| - 1];
      var last := ts[|ts| - 1];
      assert ThemeKinds(ts)[..|ts| - 1] == ThemeKinds(init);
      DistinctInit(ts);
      ScanThemes(s, init);
      PutNew(init, last.0, last.1);
      SnocParts(ts);
    }
  }

  // Each written part of the note, read on its own.

  lemma HeadRead(tags: seq<String>)
    ensures ScanLines(Start, Kinds(Frontmatter(NormalizedTags(tags)))) == Start
    ensures ScanLines(Start, Kinds(["# 週間共有", "", "## " + RoutineSection, ""])) == Start.(section := RoutineSection)
  {
    FrontmatterKinds(NormalizedTags(tags));
    ScanBlanks(Start, |Frontmatter(NormalizedTags(tags))|);
    ClassifyEmpty();
    ClassifyTitle();
    ClassifySection(RoutineSection);
    ScanLinesAppend(Start, ["# 週間共有", ""], ["## " + RoutineSection, ""]);
    assert ["# 週間共有", ""] + ["## " + RoutineSection, ""] == ["# 週間共有", "", "## " + RoutineSection, ""];
    KindsOfTwo("# 週間共有", "");
    ScanTwo(Start, Blank, Blank);
    KindsOfTwo("## " + RoutineSection, "");
    ScanTwo(Start, SectionLine(RoutineSection), Blank);
  }

  lemma TableRead(s: Scan, rs: seq<Routine>)
    requires s.section == RoutineSection
    requires forall i :: 0 <= i < |rs| ==> PlainTitle(rs[i].title)
    ensures ScanLines(s, Kinds(RoutineTable(rs))) == s.(routines := s.routines + KeptAll(rs))
  {
    ClassifyTableRow(HeaderRow);
    ClassifyTableRow(SeparatorRow);
    KindsOfTwo(HeaderRow, SeparatorRow);
    ScanTwo(s, Blank, Blank);
    RowKindsOfLines(rs);
    ScanLinesAppend(s, [HeaderRow, SeparatorRow], RoutineRows(rs));
    ScanRows(s, rs);
  }

  lemma RoleHeadRead(s: Scan)
    ensures ScanLines(s, Kinds(["", "## " + RoleSection, ""])) == s.(section := RoleSection)
  {
    ClassifyEmpty();
    ClassifySection(RoleSection);
    KindsOfThree("", "## " + RoleSection, "");
    assert [Blank, SectionLine(RoleSection), Blank] == [Blank] + [SectionLine(RoleSection), Blank];
    ScanAppend(s, [Blank], [SectionLine(RoleSection), Blank]);
    ScanOne(s, Blank);
    ScanTwo(s, SectionLine(RoleSection), Blank);
  }

  lemma RolesRead(s: Scan, roles: seq<String>)
    requires s.section == RoleSection
    requires forall i :: 0 <= i < |roles| ==> PlainRole(roles[i])
    ensures ScanLines(s, Kinds(RoleLines(roles))) == s.(roles := s.roles + (if roles == [] then [DefaultRole] else roles))
  {
    RoleKindsOfAll(roles);
    if roles == [] {
      assert RoleKindsOf([DefaultRole]) == [Body(None, Some(DefaultRole), None), Blank] by {
        assert [DefaultRole][..0] == [];
      }
      ScanRoles(s, [DefaultRole]);
    } else {
      ScanRoles(s, roles);
    }
  }

  lemma ThemeHeadRead(s: Scan)
    ensures ScanLines(s, Kinds(["## " + ThemeSection, ""])) == s.(section := ThemeSection)
  {
    ClassifyEmpty();
    ClassifySection(ThemeSection);
    KindsOfTwo("## " + ThemeSection, "");
    ScanTwo(s, SectionLine(ThemeSection), Blank);
  }

  lemma ThemesRead(s: Scan, ts: seq<(String, String)>)
    requires s.section == ThemeSection && s.themes == []
    requires forall i :: 0 <= i < |ts| ==> IsMonthKey(ts[i].0) && Trimmed(ts[i].1) && SingleLine(ts[i].1)
    requires DistinctMonths(ts)
    ensures ScanLines(s, Kinds(ThemeLines(ts))) == s.(themes := ts)
  {
    ThemeKindsOfLines(ts);
    if ts == [] {
      assert [Blank] == Blanks(1);
      ScanBlanks(s, 1);
    } else {
      ScanThemes(s, ts);
    }
  }

  lemma ClassifyFrontmatterLine(line: String)
    requires FrontmatterLine(line)
    ensures Classify(line) == Blank
  {
    if line == "---" {
      ClassifyFence();
    } else if line == [] {
      ClassifyEmpty();
    } else if StartsWith(line, "  - ") {
      assert line[0] == ' ';
      ClassifyOther(line);
    } else {
      assert line[0] == 't';
      ClassifyOther(line);
    }
  }

  lemma FrontmatterKinds(tags: seq<String>)
    ensures Kinds(Frontmatter(tags)) == Blanks(|Frontmatter(tags)|)
  {
    var fm := Frontmatter(tags);
    FrontmatterShape(tags);
    forall k | 0 <= k < |fm| ensures Classify(fm[k]) == Blank {
      ClassifyFrontmatterLine(fm[k]);
    }
  }

  lemma RowKindsOfLines(rs: seq<Routine>)
    requires forall i :: 0 <= i < |rs| ==> PlainTitle(rs[i].title)
    ensures Kinds(RoutineRows(rs)) == RowKinds(rs)
  {
    if rs == [] {
      ClassifyTableRow(BlankRow);
    } else {
      forall i | 0 <= i < |rs| ensures Kinds(RoutineRows(rs))[i] == RowKinds(rs)[i] {
        ClassifyRoutine(rs[i]);
      }
    }
  }

  lemma {:induction false} RoleKindsOfLines(roles: seq<String>)
    requires forall i :: 0 <= i < |roles| ==> PlainRole(roles[i])
    ensures Kinds(RoleLinesOf(roles)) == RoleKindsOf(roles)
  {
    if roles != [] {
      var init := roles[..|roles| - 1];
      var last := roles[|roles| - 1];
      forall i | 0 <= i < |init| ensures PlainRole(init[i]) {
        assert init[i] == roles[i];
      }
      RoleKindsOfLines(init);
      ClassifyRole(last);
      ClassifyEmpty();
      KindsAppend(RoleLinesOf(init), ["### " + last, ""]);
    }
  }

  lemma DefaultRoleKinds()
    ensures Kinds(["### " + DefaultRole, ""]) == [Body(None, Some(DefaultRole), None), Blank]
  {
    assert Trimmed(DefaultRole) && SingleLine(DefaultRole) by {
      assert DefaultRole[0] == '役' && DefaultRole[2] == '1';
    }
    ClassifyRole(DefaultRole);
    ClassifyEmpty();
    KindsOfTwo("### " + DefaultRole, "");
  }

  lemma RoleKindsOfAll(roles: seq<String>)
    requires forall i :: 0 <= i < |roles| ==> PlainRole(roles[i])
    ensures Kinds(RoleLines(roles)) == if roles == [] then [Body(None, Some(DefaultRole), None), Blank] else RoleKindsOf(roles)
  {
    if roles == [] {
      DefaultRoleKinds();
    } else {
      RoleKindsOfLines(roles);
    }
  }

  lemma ThemeKindsOfLines(ts: seq<(String, String)>)
    requires forall i :: 0 <= i < |ts| ==> IsMonthKey(ts[i].0) && Trimmed(ts[i].1) && SingleLine(ts[i].1)
    ensures Kinds(ThemeLines(ts)) == ThemeKinds(ts)
  {
    if ts == [] {
      PlaceholderSetsNothing();
    } else {
      forall i | 0 <= i < |ts| ensures Kinds(ThemeLines(ts))[i] == ThemeKinds(ts)[i] {
        ClassifyTheme(ts[i].0, ts[i].1);
      }
    }
  }

  /** The title and the routine table. */
  lemma RoutinePartScan(s: Shared)
    requires PlainShared(s)
    ensures ScanLines(Start, Kinds(["# 週間共有", "", "## " + RoutineSection, ""] + RoutineTable(s.routines)))
            == Scan(RoutineSection, KeptAll(s.routines), [], [])
  {
    var a := Start.(section := RoutineSection);
    ScanLinesAppend(Start, ["# 週間共有", "", "## " + RoutineSection, ""], RoutineTable(s.routines));
    HeadRead([]);
    TableRead(a, s.routines);
    assert [] + KeptAll(s.routines) == KeptAll(s.routines);
  }

  /** Up to the end of the role section. */
  lemma RolePartScan(s: Shared)
    requires PlainShared(s)
    ensures ScanLines(Start, Kinds(["# 週間共有", "", "## " + RoutineSection, ""] + RoutineTable(s.routines)
              + ["", "## " + RoleSection, ""] + RoleLines(s.roles)))
            == Scan(RoleSection, KeptAll(s.routines), ReadBack(s).roles, [])
  {
    var p12 := ["# 週間共有", "", "## " + RoutineSection, ""] + RoutineTable(s.routines);
    var p3 := ["", "## " + RoleSection, ""];
    var b := Scan(RoutineSection, KeptAll(s.routines), [], []);
    ScanLinesAppend(Start, p12 + p3, RoleLines(s.roles));
    ScanLinesAppend(Start, p12, p3);
    RoutinePartScan(s);
    RoleHeadRead(b);
    RolesRead(b.(section := RoleSection), s.roles);
  }

  /** The scan of a written note, part by part. */
  lemma DocumentScan(s: Shared, tags: seq<String>)
    requires PlainShared(s)
    ensures ScanLines(Start, Kinds(PrependTagFrontmatter(SerializeLines(s), tags)))
            == Scan(ThemeSection, KeptAll(s.routines), ReadBack(s).roles, s.themes)
  {
    var fm := Frontmatter(NormalizedTags(tags));
    var p14 := ["# 週間共有", "", "## " + RoutineSection, ""] + RoutineTable(s.routines)
               + ["", "## " + RoleSection, ""] + RoleLines(s.roles);
    var p5 := ["## " + ThemeSection, ""];
    var p6 := ThemeLines(s.themes);
    assert SerializeLines(s) == p14 + p5 + p6;
    ScanLinesAppend(Start, fm, SerializeLines(s));
    HeadRead(tags);
    ScanLinesAppend(Start, p14 + p5, p6);
    ScanLinesAppend(Start, p14, p5);
    RolePartScan(s);
    var d := Scan(RoleSection, KeptAll(s.routines), ReadBack(s).roles, []);
    ThemeHeadRead(d);
    ThemesRead(d.(section := ThemeSection), s.themes);
  }

  lemma {:induction false} RolesNoBreaks(roles: seq<String>)
    requires forall i :: 0 <= i < |roles| ==> PlainRole(roles[i])
    ensures NoBreaks(RoleLinesOf(roles))
  {
    if roles != [] {
      var init := roles[..|roles| - 1];
      var last := roles[|roles| - 1];
      forall i | 0 <= i < |init| ensures PlainRole(init[i]) {
        assert init[i] == roles[i];
      }
      RolesNoBreaks(init);
      SingleLineConcat("### ", last);
      NoBreaksConcat(RoleLinesOf(init), ["### " + last, ""]);
    }
  }

  lemma ThemesNoBreaks(ts: seq<(String, String)>)
    requires forall i :: 0 <= i < |ts| ==> IsMonthKey(ts[i].0) && Trimmed(ts[i].1) && SingleLine(ts[i].1)
    ensures NoBreaks(ThemeLines(ts))
  {
    var t := ThemeLines(ts);
    forall k | 0 <= k < |t| ensures '\n' !in t[k] {
      if ts != [] {
        var m := ts[k].0;
        assert SingleLine(m) by {
          assert forall i :: 0 <= i < 7 ==> m[i] == '-' || IsDigit(m[i]);
        }
        SingleLineConcat(m, ": ");
        SingleLineConcat(m + ": ", ts[k].1);
        SingleLineConcat("- ", m + ": " + ts[k].1);
        assert t[k] == "- " + (m + ": " + ts[k].1);
      }
    }
  }

  /** The fixed lines of the note are single lines. */
  lemma FixedLinesNoBreaks()
    ensures NoBreaks(["# 週間共有", "", "## " + RoutineSection, ""])
    ensures NoBreaks(["", "## " + RoleSection, ""])
    ensures NoBreaks(["### " + DefaultRole, ""])
    ensures NoBreaks(["## " + ThemeSection, ""])
  {
  }

  lemma SerializedNoBreaks(s: Shared)
    requires PlainShared(s)
    ensures NoBreaks(SerializeLines(s))
  {
    var p1 := ["# 週間共有", "", "## " + RoutineSection, ""];
    var p4 := ["", "## " + RoleSection, ""];
    var p6 := ["## " + ThemeSection, ""];
    FixedLinesNoBreaks();
    TableNoBreaks(s.routines);
    if s.roles != [] {
      RolesNoBreaks(s.roles);
    }
    ThemesNoBreaks(s.themes);
    var q1 := p1 + RoutineTable(s.routines);
    NoBreaksConcat(p1, RoutineTable(s.routines));
    var q2 := q1 + p4;
    NoBreaksConcat(q1, p4);
    var q3 := q2 + RoleLines(s.roles);
    NoBreaksConcat(q2, RoleLines(s.roles));
    var q4 := q3 + p6;
    NoBreaksConcat(q3, p6);
    NoBreaksConcat(q4, ThemeLines(s.themes));
  }

  /**
   * A plain note reads back as written: each routine with its six day checks,
   * the roles (the default `役割1` when there were none) and the month themes
   * in their order.
   */
  lemma RoundTrip(s: Shared, tags: seq<String>)
    requires PlainShared(s) && NoBreaks(tags)
    ensures Parse(Serialize(s, tags)) == ReadBack(s)
  {
    SerializedNoBreaks(s);
    DocumentSplit(SerializeLines(s), tags);
    DocumentScan(s, tags);
  }
}
