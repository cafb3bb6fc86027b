/**
 * The weekly plan note: week label, month theme, routine table, roles with
 * their focus tasks, action plan, reflection and one memo list per weekday,
 * written to and read from one Markdown document.
 */
module WeeklyPlan {
  import opened Text
  import opened MarkdownTags
  import opened Routines
  import Tasks

  datatype RoleGoals = RoleGoals(role: String, goals: seq<String>)

  datatype ActionItem = ActionItem(title: String, done: bool)

  datatype Slot = Slot(day: String, entries: seq<String>, dateLabel: Option<String>)

  /** A weekly plan; `memos` maps a weekday to that day's one-line memos. */
  datatype Plan = Plan(
    id: String,
    weekStart: String,
    weekEnd: String,
    weeklyGoals: seq<String>,
    weekLabel: String,
    monthTheme: String,
    routines: seq<Routine>,
    roles: seq<RoleGoals>,
    actions: seq<ActionItem>,
    good: seq<String>,
    issues: seq<String>,
    memos: map<String, seq<String>>,
    slots: seq<Slot>,
    reviewNotes: Option<String>)

  /** The seven weekdays, Monday to Sunday. */
  const Days: seq<String> := ["月", "火", "水", "木", "金", "土", "日"]

  const ThemeSection: String := "今月のテーマ"
  const RoutineSection: String := "ルーティン行動"
  const RoleSection: String := "役割と重点タスク"
  const ActionSection: String := "アクションプラン"
  const ReflectionSection: String := "今週の振り返り"
  const MemoSection: String := "日付ごとの一言メモ欄"

  const LabelPrefix: String := "週表示:"
  const GoodHeading: String := "### 良かったこと"
  const IssueHeading: String := "### 課題"

  /** The role written, and read back, when the plan has none. */
  const DefaultRole: String := "役割1"

  /** A day without an entry in the memo record has no memos. */
  function MemosOf(memos: map<String, seq<String>>, day: String): seq<String>
  {
    if day in memos then memos[day] else []
  }

  // ---------------------------------------------------------------------
  // writing

  /** One bullet per entry; with none, the empty bullet `- `. */
  function BulletsOf(xs: seq<String>): (r: seq<String>)
    ensures |r| == |xs|
  {
    seq(|xs|, i requires 0 <= i < |xs| => "- " + xs[i])
  }

  function BulletLines(xs: seq<String>): seq<String>
  {
    if xs == [] then ["- "] else BulletsOf(xs)
  }

  /** A role heading followed by its focus tasks and a blank line. */
  function RoleBlock(r: RoleGoals): seq<String>
  {
    ["### " + r.role] + BulletLines(r.goals) + [""]
  }

  function RoleBlocksOf(roles: seq<RoleGoals>): seq<String>
  {
    if roles == [] then [] else RoleBlocksOf(roles[..|roles| - 1]) + RoleBlock(roles[|roles| - 1])
  }

  /** With no roles, the default heading `役割1` and an empty bullet. */
  function RoleBlocks(roles: seq<RoleGoals>): seq<String>
  {
    if roles == [] then RoleBlock(RoleGoals(DefaultRole, [])) else RoleBlocksOf(roles)
  }

  function ActionLine(a: ActionItem): String
  {
    "- " + Mark(a.done) + " " + a.title
  }

  function ActionsOf(actions: seq<ActionItem>): (r: seq<String>)
    ensures |r| == |actions|
  {
    seq(|actions|, i requires 0 <= i < |actions| => ActionLine(actions[i]))
  }

  /** One checkbox bullet per action; with none, the empty unchecked `- [ ] `. */
  function ActionLines(actions: seq<ActionItem>): seq<String>
  {
    if actions == [] then ["- [ ] "] else ActionsOf(actions)
  }

  function MemoBlock(day: String, memos: map<String, seq<String>>): seq<String>
  {
    ["### " + day] + BulletLines(MemosOf(memos, day)) + [""]
  }

  function MemoBlocksOf(days: seq<String>, memos: map<String, seq<String>>): seq<String>
  {
    if days == [] then [] else MemoBlocksOf(days[..|days| - 1], memos) + MemoBlock(days[|days| - 1], memos)
  }

  function ThemeLine(theme: String): String
  {
    if theme == [] then "- " else "- " + theme
  }

  /** Title, week label, month theme and the routine heading. */
  function HeadLines(p: Plan): seq<String>
  {
    ["# 週間計画", ""] + [LabelPrefix + " " + p.weekLabel, ""] + ["## " + ThemeSection, ""]
    + [ThemeLine(p.monthTheme), ""] + ["## " + RoutineSection, ""]
  }

  function RolePart(p: Plan): seq<String>
  {
    ["", "## " + RoleSection, ""] + RoleBlocks(p.roles)
  }

  /** The action plan; no blank line follows its last item. */
  function ActionPart(p: Plan): seq<String>
  {
    ["## " + ActionSection, ""] + ActionLines(p.actions)
  }

  function ReflectionPart(p: Plan): seq<String>
  {
    ["## " + ReflectionSection, "", GoodHeading] + BulletLines(p.good) + ["", IssueHeading]
    + BulletLines(p.issues) + [""]
  }

  function MemoPart(p: Plan): seq<String>
  {
    ["## " + MemoSection, ""] + MemoBlocksOf(Days, p.memos)
  }

  function FrontLines(p: Plan): seq<String>
  {
    HeadLines(p) + RoutineTable(p.routines) + RolePart(p)
  }

  function BackLines(p: Plan): seq<String>
  {
    ActionPart(p) + ReflectionPart(p) + MemoPart(p)
  }

  function SerializeLines(p: Plan): seq<String>
  {
    FrontLines(p) + BackLines(p)
  }

  /** serializeWeeklyPlan */
  function Serialize(p: Plan, tags: seq<String>): String
  {
    Join(PrependTagFrontmatter(SerializeLines(p), tags), "\n")
  }

  /** Pushing a bullet per entry, or the empty bullet, after `lines`. */
  method AppendBullets(lines: seq<String>, xs: seq<String>) returns (r: seq<String>)
    ensures r == lines + BulletLines(xs)
  {
    if |xs| == 0 {
      r := lines + ["- "];
    } else {
      r := lines;
      var i := 0;
      while i < |xs|
        invariant 0 <= i <= |xs|
        invariant |r| == |lines| + i && r[..|lines|] == lines
        invariant forall k :: 0 <= k < i ==> r[|lines| + k] == "- " + xs[k]
      {
        r := r + ["- " + xs[i]];
        i := i + 1;
      }
      assert r == lines + BulletsOf(xs);
    }
  }

  /** Pushing a heading, its bullets and a blank line after `lines`. */
  method AppendBlock(lines: seq<String>, heading: String, xs: seq<String>) returns (r: seq<String>)
    ensures r == lines + (["### " + heading] + BulletLines(xs) + [""])
  {
    r := lines + ["### " + heading];
    r := AppendBullets(r, xs);
    r := r + [""];
    ConcatAssoc(lines, ["### " + heading], BulletLines(xs));
    ConcatAssoc(lines, ["### " + heading] + BulletLines(xs), [""]);
  }

  /** Pushing the role blocks after `lines`. */
  method AppendRoles(lines: seq<String>, roles: seq<RoleGoals>) returns (r: seq<String>)
    ensures r == lines + RoleBlocks(roles)
  {
    if |roles| == 0 {
      r := lines + ["### " + DefaultRole, "- ", ""];
      assert RoleBlocks(roles) == ["### " + DefaultRole, "- ", ""];
    } else {
      r := lines;
      var i := 0;
      while i < |roles|
        invariant 0 <= i <= |roles|
        invariant r == lines + RoleBlocksOf(roles[..i])
      {
        assert roles[..i + 1][..i] == roles[..i];
        assert RoleBlocksOf(roles[..i + 1]) == RoleBlocksOf(roles[..i]) + RoleBlock(roles[i]);
        ConcatAssoc(lines, RoleBlocksOf(roles[..i]), RoleBlock(roles[i]));
        r := AppendBlock(r, roles[i].role, roles[i].goals);
        i := i + 1;
      }
      assert roles[..i] == roles;
    }
  }

  /** Pushing the action plan items after `lines`. */
  method AppendActions(lines: seq<String>, actions: seq<ActionItem>) returns (r: seq<String>)
    ensures r == lines + ActionLines(actions)
  {
    if |actions| == 0 {
      r := lines + ["- [ ] "];
    } else {
      r := lines;
      var i := 0;
      while i < |actions|
        invariant 0 <= i <= |actions|
        invariant |r| == |lines| + i && r[..|lines|] == lines
        invariant forall k :: 0 <= k < i ==> r[|lines| + k] == ActionLine(actions[k])
      {
        var checked := if actions[i].done then "[x]" else "[ ]";
        r := r + ["- " + checked + " " + actions[i].title];
        i := i + 1;
      }
      assert r == lines + ActionsOf(actions);
    }
  }

  /** Pushing one memo block per weekday after `lines`. */
  method AppendMemos(lines: seq<String>, memos: map<String, seq<String>>) returns (r: seq<String>)
    ensures r == lines + MemoBlocksOf(Days, memos)
  {
    r := lines;
    var i := 0;
    while i < |Days|
      invariant 0 <= i <= |Days|
      invariant r == lines + MemoBlocksOf(Days[..i], memos)
    {
      assert Days[..i + 1][..i] == Days[..i];
      assert MemoBlocksOf(Days[..i + 1], memos) == MemoBlocksOf(Days[..i], memos) + MemoBlock(Days[i], memos);
      ConcatAssoc(lines, MemoBlocksOf(Days[..i], memos), MemoBlock(Days[i], memos));
      var entries := if Days[i] in memos then memos[Days[i]] else [];
      r := AppendBlock(r, Days[i], entries);
      i := i + 1;
    }
    assert Days[..i] == Days;
  }

  /** Title, week label, month theme, routine table and roles. */
  method WriteFront(p: Plan) returns (lines: seq<String>)
    ensures lines == FrontLines(p)
  {
    lines := ["# 週間計画", "", LabelPrefix + " " + p.weekLabel, ""];
    lines := lines + ["## " + ThemeSection, ""];
    lines := lines + [if p.monthTheme != [] then "- " + p.monthTheme else "- ", ""];
    lines := lines + ["## " + RoutineSection, ""];
    assert lines == HeadLines(p);
    lines := AppendRoutineTable(lines, p.routines);
    ghost var table := lines;
    lines := lines + ["", "## " + RoleSection, ""];
    lines := AppendRoles(lines, p.roles);
    ConcatAssoc(table, ["", "## " + RoleSection, ""], RoleBlocks(p.roles));
  }

  /** Action plan, reflection and daily memos after `lines`. */
  method AppendBack(lines: seq<String>, p: Plan) returns (r: seq<String>)
    ensures r == lines + BackLines(p)
  {
    r := lines + ["## " + ActionSection, ""];
    r := AppendActions(r, p.actions);
    ConcatAssoc(lines, ["## " + ActionSection, ""], ActionLines(p.actions));
    ghost var a := r;
    r := r + ["## " + ReflectionSection, "", GoodHeading];
    r := AppendBullets(r, p.good);
    r := r + ["", IssueHeading];
    r := AppendBullets(r, p.issues);
    r := r + [""];
    ReflectionAssoc(a, p);
    ghost var b := r;
    r := r + ["## " + MemoSection, ""];
    r := AppendMemos(r, p.memos);
    ConcatAssoc(b, ["## " + MemoSection, ""], MemoBlocksOf(Days, p.memos));
    ConcatAssoc(lines, ActionPart(p), ReflectionPart(p));
    ConcatAssoc(lines, ActionPart(p) + ReflectionPart(p), MemoPart(p));
  }

  lemma ReflectionAssoc(a: seq<String>, p: Plan)
    ensures a + ["## " + ReflectionSection, "", GoodHeading] + BulletLines(p.good) + ["", IssueHeading]
            + BulletLines(p.issues) + [""] == a + ReflectionPart(p)
  {
    var x1 := ["## " + ReflectionSection, "", GoodHeading];
    var x2 := BulletLines(p.good);
    var x3 := ["", IssueHeading];
    var x4 := BulletLines(p.issues);
    ConcatAssoc(a, x1, x2);
    ConcatAssoc(a, x1 + x2, x3);
    ConcatAssoc(a, x1 + x2 + x3, x4);
    ConcatAssoc(a, x1 + x2 + x3 + x4, [""]);
  }

  /** serializeWeeklyPlan, line by line. */
  method WritePlan(p: Plan, tags: seq<String>) returns (content: String)
    ensures content == Serialize(p, tags)
  {
    var lines := WriteFront(p);
    lines := AppendBack(lines, p);
    content := Join(PrependTagFrontmatter(lines, tags), "\n");
  }

  // ---------------------------------------------------------------------
  // reading

  /** The trimmed group of `^\-\s*(.+)$`. */
  function BulletOf(line: String): Option<String>
  {
    match BulletGroup(line)
    case Some(g) => Some(Trim(g))
    case None => None
  }

  /** The trimmed group of `^###\s+(.+)$`. */
  function RoleOf(line: String): Option<String>
  {
    match HeadingGroup(line, "###")
    case Some(g) => Some(Trim(g))
    case None => None
  }

  /** `^\-\s*\[( |x)\]\s*(.+)$` with a non-blank title: the item, done when the box holds `x`. */
  function ActionOf(line: String): (r: Option<ActionItem>)
    ensures r.Some? ==> r.value.title != [] && StartsWith(line, "-")
  {
    if !StartsWith(line, "-") then None
    else
      var t := TrimStart(line[1..]);
      if |t| < 3 || t[0] != '[' || (t[1] != ' ' && t[1] != 'x') || t[2] != ']' then None
      else
        match SpacedRest(t[3..], false)
        case Some(g) => if Trim(g) != [] then Some(ActionItem(Trim(g), t[1] == 'x')) else None
        case None => None
  }

  predicate IsDayChar(c: char)
  {
    c == '月' || c == '火' || c == '水' || c == '木' || c == '金' || c == '土' || c == '日'
  }

  /** `^###\s+([月火水木金土日])$`: the weekday of a day heading. */
  function DayOf(line: String): (r: Option<String>)
    ensures r.Some? ==> StartsWith(line, "###") && |r.value| == 1 && IsDayChar(r.value[0])
  {
    if !StartsWith(line, "###") then None
    else
      var rest := line[3..];
      var t := TrimStart(rest);
      if |t| < |rest| && |t| == 1 && IsDayChar(t[0]) then Some(t) else None
  }

  /**
   * A `## ` line opens a section and a `週表示:` line sets the week label in
   * any section; every other line carries what each section reads from it.
   */
  datatype LineKind =
    | SectionLine(name: String)
    | LabelLine(text: String)
    | Body(bullet: Option<String>, row: Option<Routine>, role: Option<String>, action: Option<ActionItem>,
           good: bool, issue: bool, day: Option<String>)

  const Blank: LineKind := Body(None, None, None, None, false, false, None)

  function Classify(line: String): LineKind
  {
    if StartsWith(line, "## ") then SectionLine(TrimStart(line[2..]))
    else if StartsWith(line, LabelPrefix) then LabelLine(Trim(line[|LabelPrefix|..]))
    else Body(BulletOf(line), ReadRow(line), RoleOf(line), ActionOf(line),
              StartsWith(line, GoodHeading), StartsWith(line, IssueHeading), DayOf(line))
  }

  function Kinds(lines: seq<String>): (r: seq<LineKind>)
    ensures |r| == |lines|
  {
    seq(|lines|, i requires 0 <= i < |lines| => Classify(lines[i]))
  }

  /** Which list of the reflection or memo section a bullet goes to. */
  datatype Cursor = NoCursor | GoodCursor | IssueCursor | DayCursor(day: String)

  /** The reader's state: the section, the cursor, whether a role is open, and what was read so far. */
  datatype Scan = Scan(
    section: String,
    cursor: Cursor,
    roleOpen: bool,
    weekLabel: String,
    theme: String,
    routines: seq<Routine>,
    roles: seq<RoleGoals>,
    actions: seq<ActionItem>,
    good: seq<String>,
    issues: seq<String>,
    memos: map<String, seq<String>>)

  /** An empty memo list for each weekday. */
  const EmptyMemos: map<String, seq<String>> := map d | d in Days :: []

  const Start: Scan := Scan([], NoCursor, false, [], [], [], [], [], [], [], EmptyMemos)

  /** A focus task goes to the last role read. */
  function AddGoal(roles: seq<RoleGoals>, goal: String): (r: seq<RoleGoals>)
    ensures |r| == |roles|
    ensures roles != [] ==>
              && r[..|r| - 1] == roles[..|roles| - 1]
              && r[|r| - 1].role == roles[|roles| - 1].role
              && r[|r| - 1].goals == roles[|roles| - 1].goals + [goal]
    ensures roles == [] ==> r == []
  {
    if roles == [] then roles
    else
      var last := roles[|roles| - 1];
      roles[..|roles| - 1] + [RoleGoals(last.role, last.goals + [goal])]
  }

  /** What a non-blank bullet adds, by section and cursor. */
  function AddBullet(s: Scan, text: String): Scan
  {
    if s.section == ThemeSection then s.(theme := text)
    else if s.section == RoleSection then (if s.roleOpen then s.(roles := AddGoal(s.roles, text)) else s)
    else if s.section == ReflectionSection then
      (if s.cursor == GoodCursor then s.(good := s.good + [text])
       else if s.cursor == IssueCursor then s.(issues := s.issues + [text])
       else s)
    else if s.section == MemoSection && s.cursor.DayCursor? then
      s.(memos := s.memos[s.cursor.day := MemosOf(s.memos, s.cursor.day) + [text]])
    else s
  }

  /** One line of parseWeeklyPlan. */
  function Step(s: Scan, kind: LineKind): Scan
  {
    match kind
    case SectionLine(name) => s.(section := name, cursor := NoCursor, roleOpen := false)
    case LabelLine(text) => s.(weekLabel := text)
    case Body(bullet, row, role, action, good, issue, day) =>
      if s.section == RoutineSection then (if row.Some? then s.(routines := s.routines + [row.value]) else s)
      else if s.section == ActionSection then (if action.Some? then s.(actions := s.actions + [action.value]) else s)
      else if s.section == RoleSection && role.Some? then
        s.(roles := s.roles + [RoleGoals(role.value, [])], roleOpen := true)
      else if s.section == ReflectionSection && good then s.(cursor := GoodCursor)
      else if s.section == ReflectionSection && issue then s.(cursor := IssueCursor)
      else if s.section == MemoSection && day.Some? then s.(cursor := DayCursor(day.value))
      else if bullet.Some? && bullet.value != [] then AddBullet(s, bullet.value)
      else s
  }

  function ScanLines(s: Scan, kinds: seq<LineKind>): Scan
  {
    if kinds == [] then s else Step(ScanLines(s, kinds[..|kinds| - 1]), kinds[|kinds| - 1])
  }

  /** The seven slots of a freshly read plan, each without entries. */
  const EmptySlots: seq<Slot> :=
    [Slot("月", [], None), Slot("火", [], None), Slot("水", [], None), Slot("木", [], None),
     Slot("金", [], None), Slot("土", [], None), Slot("日", [], None)]

  /** parseWeeklyPlan */
  function Parse(content: String): Plan
  {
    var f := ScanLines(Start, Kinds(Split(content, '\n')));
    Plan("weekly", [], [], [], f.weekLabel, f.theme, f.routines, f.roles, f.actions, f.good, f.issues, f.memos,
         EmptySlots, None)
  }

  /** One line of parseWeeklyPlan, in the order the reader tries the patterns. */
  method ReadLine(s: Scan, line: String) returns (r: Scan)
    ensures r == Step(s, Classify(line))
  {
    r := s;
    if StartsWith(line, "## ") {
      r := r.(section := TrimStart(line[2..]), cursor := NoCursor, roleOpen := false);
    } else if StartsWith(line, LabelPrefix) {
      r := r.(weekLabel := Trim(line[|LabelPrefix|..]));
    } else if s.section == ThemeSection {
      var m := BulletOf(line);
      if m.Some? && m.value != [] {
        r := r.(theme := m.value);
      }
    } else if s.section == RoutineSection {
      var row := ReadRow(line);
      if row.Some? {
        r := r.(routines := r.routines + [row.value]);
      }
    } else if s.section == RoleSection {
      var role := RoleOf(line);
      if role.Some? {
        r := r.(roles := r.roles + [RoleGoals(role.value, [])], roleOpen := true);
      } else {
        var m := BulletOf(line);
        if m.Some? && s.roleOpen && m.value != [] {
          r := r.(roles := AddGoal(r.roles, m.value));
        }
      }
    } else if s.section == ActionSection {
      var item := ActionOf(line);
      if item.Some? {
        r := r.(actions := r.actions + [item.value]);
      }
    } else if s.section == ReflectionSection {
      if StartsWith(line, GoodHeading) {
        r := r.(cursor := GoodCursor);
      } else if StartsWith(line, IssueHeading) {
        r := r.(cursor := IssueCursor);
      } else {
        var m := BulletOf(line);
        if m.Some? && m.value != [] {
          if s.cursor == GoodCursor {
            r := r.(good := r.good + [m.value]);
          } else if s.cursor == IssueCursor {
            r := r.(issues := r.issues + [m.value]);
          }
        }
      }
    } else if s.section == MemoSection {
      var day := DayOf(line);
      if day.Some? {
        r := r.(cursor := DayCursor(day.value));
      } else {
        var m := BulletOf(line);
        if m.Some? && s.cursor.DayCursor? && m.value != [] {
          var d := s.cursor.day;
          r := r.(memos := r.memos[d := MemosOf(r.memos, d) + [m.value]]);
        }
      }
    }
  }

  /** parseWeeklyPlan, line by line. */
  method ReadPlan(content: String) returns (plan: Plan)
    ensures plan == Parse(content)
  {
    var lines := Split(content, '\n');
    ghost var kinds := Kinds(lines);
    var s := Start;
    var i := 0;
    while i < |lines|
      invariant 0 <= i <= |lines|
      invariant ScanLines(Start, kinds[..i]) == s
    {
      assert kinds[..i + 1][..i] == kinds[..i];
      s := ReadLine(s, lines[i]);
      i := i + 1;
    }
    assert kinds[..i] == kinds;
    plan := Plan("weekly", [], [], [], s.weekLabel, s.theme, s.routines, s.roles, s.actions, s.good, s.issues,
                 s.memos, EmptySlots, None);
  }

  // ---------------------------------------------------------------------
  // properties of one line

  /** A one-line entry that reads back as itself. */
  predicate PlainText(t: String)
  {
    t != [] && Trimmed(t) && SingleLine(t)
  }

  predicate AllPlain(xs: seq<String>)
  {
    forall i :: 0 <= i < |xs| ==> PlainText(xs[i])
  }

  predicate IsDay(d: String)
  {
    |d| == 1 && IsDayChar(d[0])
  }

  /** A bullet whose text trims to nothing. */
  const EmptyBullet: LineKind := Body(Some([]), None, None, None, false, false, None)

  lemma ClassifyEmpty()
    ensures Classify([]) == Blank
  {
  }

  /** A line that starts with a character other than `#`, `-`, `|` and `週` carries nothing. */
  lemma ClassifyOther(line: String)
    requires line != [] && line[0] != '#' && line[0] != '-' && line[0] != '|' && line[0] != '週'
    ensures Classify(line) == Blank
  {
    NotHeading(line);
    assert !StartsWith(line, "## ") && !StartsWith(line, LabelPrefix) && !StartsWith(line, "-")
      && !StartsWith(line, "###") && !StartsWith(line, GoodHeading) && !StartsWith(line, IssueHeading) by {
      assert line[..1][0] == line[0];
    }
  }

  /** A line starting with `#` but not `##` is read by no section. */
  lemma ClassifyTitle()
    ensures Classify("# 週間計画") == Blank
  {
    var line := "# 週間計画";
    assert !StartsWith(line, "## ") && !StartsWith(line, "###") && !StartsWith(line, GoodHeading)
      && !StartsWith(line, IssueHeading) by {
      assert line[..3][1] == ' ';
    }
    assert !StartsWith(line, "-") && !StartsWith(line, "|") && !StartsWith(line, LabelPrefix) by {
      assert line[..1][0] == '#';
    }
  }

  lemma SectionNames()
    ensures forall name :: name in {ThemeSection, RoutineSection, RoleSection, ActionSection, ReflectionSection, MemoSection}
              ==> name != [] && !IsSpace(name[0])
  {
    assert ThemeSection[0] == '今' && RoutineSection[0] == 'ル' && RoleSection[0] == '役';
    assert ActionSection[0] == 'ア' && ReflectionSection[0] == '今' && MemoSection[0] == '日';
  }

  /** The six section names are distinct, and none is the empty name of the part before the first section. */
  lemma SectionsDistinct()
    ensures ThemeSection != RoutineSection && ThemeSection != RoleSection && ThemeSection != ActionSection
    ensures ThemeSection != ReflectionSection && ThemeSection != MemoSection
    ensures RoutineSection != RoleSection && RoutineSection != ActionSection && RoutineSection != ReflectionSection
    ensures RoutineSection != MemoSection && RoleSection != ActionSection && RoleSection != ReflectionSection
    ensures RoleSection != MemoSection && ActionSection != ReflectionSection && ActionSection != MemoSection
    ensures ReflectionSection != MemoSection
    ensures [] !in {ThemeSection, RoutineSection, RoleSection, ActionSection, ReflectionSection, MemoSection}
  {
    assert ThemeSection[0] == '今' && RoutineSection[0] == 'ル' && RoleSection[0] == '役';
    assert ActionSection[0] == 'ア' && ReflectionSection[0] == '今' && MemoSection[0] == '日';
    assert ThemeSection[1] == '月' && ReflectionSection[1] == '週';
  }

  lemma DefaultRolePlain()
    ensures PlainText(DefaultRole)
  {
    assert DefaultRole[0] == '役' && DefaultRole[2] == '1';
  }

  lemma ClassifySection(name: String)
    requires name in {ThemeSection, RoutineSection, RoleSection, ActionSection, ReflectionSection, MemoSection}
    ensures Classify("## " + name) == SectionLine(name)
  {
    SectionNames();
    var line := "## " + name;
    assert line[..3] == "## ";
    assert line[2..] == " " + name;
    TrimStartSkips(" ", name);
    TrimStartOfNonSpace(name);
  }

  lemma ClassifyLabel(text: String)
    requires Trimmed(text)
    ensures Classify(LabelPrefix + " " + text) == LabelLine(text)
  {
    var line := LabelPrefix + " " + text;
    assert !StartsWith(line, "## ") by {
      assert line[0] == '週';
    }
    assert line[..4] == LabelPrefix;
    assert line[4..] == " " + text;
    AfterSpace(text);
  }

  /** A bullet with a plain text: neither a heading, nor a row, nor a label. */
  lemma ClassifyBullet(t: String)
    requires PlainText(t)
    ensures var k := Classify("- " + t);
      k.Body? && k.bullet == Some(t) && k.row == None && k.role == None && !k.good && !k.issue && k.day == None
  {
    var line := "- " + t;
    BulletOfText(t);
    TrimOfTrimmed(t);
    NotHeading(line);
    assert !StartsWith(line, "## ") && !StartsWith(line, LabelPrefix) && !StartsWith(line, "|")
      && !StartsWith(line, "###") && !StartsWith(line, GoodHeading) && !StartsWith(line, IssueHeading) by {
      assert line[..1][0] == '-';
    }
  }

  /** The empty bullet `- ` is read by no section. */
  lemma ClassifyEmptyBullet()
    ensures Classify("- ") == EmptyBullet
  {
    var line := "- ";
    BulletOfPlaceholder();
    assert !StartsWith(line, "## ") && !StartsWith(line, LabelPrefix) && !StartsWith(line, "|")
      && !StartsWith(line, "###") && !StartsWith(line, GoodHeading) && !StartsWith(line, IssueHeading) by {
      assert line[..1][0] == '-';
    }
    assert line[1..] == " " && TrimStart(" ") == [];
  }

  /** The empty action `- [ ] ` is not an action. */
  lemma ClassifyEmptyAction()
    ensures Classify("- [ ] ").Body? && Classify("- [ ] ").action == None
  {
    var line := "- [ ] ";
    assert !StartsWith(line, "## ") && !StartsWith(line, LabelPrefix) by {
      assert line[..1][0] == '-';
    }
    assert line[..1] == "-" && line[1..] == " [ ] ";
    TrimStartSkips(" ", "[ ] ");
    TrimStartOfNonSpace("[ ] ");
    assert "[ ] "[3..] == " ";
    SpacedRestOfBlank();
  }

  lemma ActionOfLine(a: ActionItem)
    requires PlainText(a.title)
    ensures ActionOf(ActionLine(a)) == Some(a)
  {
    var line := ActionLine(a);
    var m := Mark(a.done);
    var tail := " " + a.title;
    var rest := m + tail;
    assert line == "-" + (" " + rest);
    assert line[..1] == "-" && line[1..] == " " + rest;
    TrimStartSkips(" ", rest);
    TrimStartOfNonSpace(rest);
    assert |m| == 3 && rest[..3] == m;
    assert rest[0] == '[' && rest[1] == (if a.done then 'x' else ' ') && rest[2] == ']';
    assert rest[|m|..] == tail;
    SpacedRestOfText(a.title, false);
    TrimOfTrimmed(a.title);
  }

  lemma ClassifyAction(a: ActionItem)
    requires PlainText(a.title)
    ensures Classify(ActionLine(a)).Body? && Classify(ActionLine(a)).action == Some(a)
  {
    var line := ActionLine(a);
    assert !StartsWith(line, "## ") && !StartsWith(line, LabelPrefix) by {
      assert line[..1][0] == '-';
    }
    ActionOfLine(a);
  }

  lemma ClassifyRoleHeading(role: String)
    requires PlainText(role)
    ensures Classify("### " + role).Body? && Classify("### " + role).role == Some(role)
  {
    var line := "### " + role;
    assert "### " + role == "###" + " " + role;
    HeadingOfText("###", role);
    TrimOfTrimmed(role);
    assert !StartsWith(line, "## ") by {
      assert line[..3][2] == '#';
    }
    assert !StartsWith(line, LabelPrefix) by {
      assert line[..4][0] == '#';
    }
  }

  lemma ClassifyGood()
    ensures Classify(GoodHeading).Body? && Classify(GoodHeading).good
  {
    assert !StartsWith(GoodHeading, "## ") by {
      assert GoodHeading[..3][2] == '#';
    }
    assert !StartsWith(GoodHeading, LabelPrefix) by {
      assert GoodHeading[..4][0] == '#';
    }
  }

  lemma ClassifyIssue()
    ensures Classify(IssueHeading).Body? && !Classify(IssueHeading).good && Classify(IssueHeading).issue
  {
    assert !StartsWith(IssueHeading, "## ") by {
      assert IssueHeading[..3][2] == '#';
    }
    assert !StartsWith(IssueHeading, LabelPrefix) by {
      assert IssueHeading[..4][0] == '#';
    }
    assert !StartsWith(IssueHeading, GoodHeading) by {
      assert IssueHeading[4] != GoodHeading[4];
    }
  }

  lemma ClassifyDay(d: String)
    requires IsDay(d)
    ensures Classify("### " + d).Body? && Classify("### " + d).day == Some(d)
  {
    var line := "### " + d;
    assert !StartsWith(line, "## ") by {
      assert line[..3][2] == '#';
    }
    assert !StartsWith(line, LabelPrefix) by {
      assert line[..4][0] == '#';
    }
    assert line[..3] == "###" && line[3..] == " " + d;
    TrimStartSkips(" ", d);
    TrimStartOfNonSpace(d);
  }

  lemma ClassifyBar(line: String)
    requires line != [] && line[0] == '|'
    ensures Classify(line).Body? && Classify(line).row == ReadRow(line)
  {
    assert !StartsWith(line, "## ") && !StartsWith(line, LabelPrefix) by {
      assert line[..1][0] == '|';
    }
  }

  lemma ClassifyFrontmatterLine(line: String)
    requires FrontmatterLine(line)
    ensures Classify(line).Body?
  {
    if line != [] {
      assert !StartsWith(line, "## ") && !StartsWith(line, LabelPrefix) by {
        assert line[..1][0] == line[0];
        assert line[0] == '-' || line[0] == 't' || line[0] == ' ';
      }
    }
  }

  // ---------------------------------------------------------------------
  // properties of one step

  /** A body line outside the six sections changes nothing. */
  lemma StepOutside(s: Scan, k: LineKind)
    requires k.Body?
    requires s.section !in {ThemeSection, RoutineSection, RoleSection, ActionSection, ReflectionSection, MemoSection}
    ensures Step(s, k) == s
  {
  }

  lemma StepBlank(s: Scan)
    ensures Step(s, Blank) == s && Step(s, EmptyBullet) == s
  {
  }

  /** Several non-blank bullets, one after the other. */
  function AddBullets(s: Scan, xs: seq<String>): Scan
  {
    if xs == [] then s else AddBullet(AddBullets(s, xs[..|xs| - 1]), xs[|xs| - 1])
  }

  lemma {:induction false} AddBulletsKeeps(s: Scan, xs: seq<String>)
    ensures var r := AddBullets(s, xs); r.section == s.section && r.cursor == s.cursor && r.roleOpen == s.roleOpen
  {
    if xs != [] {
      AddBulletsKeeps(s, xs[..|xs| - 1]);
    }
  }

  lemma StepBullet(s: Scan, t: String)
    requires PlainText(t) && s.section != RoutineSection && s.section != ActionSection
    ensures Step(s, Classify("- " + t)) == AddBullet(s, t)
  {
    ClassifyBullet(t);
  }

  lemma {:induction false} ScanBulletsOf(s: Scan, xs: seq<String>)
    requires AllPlain(xs) && s.section != RoutineSection && s.section != ActionSection
    ensures ScanLines(s, Kinds(BulletsOf(xs))) == AddBullets(s, xs)
  {
    if xs != [] {
      var n := |xs| - 1;
      var k := Kinds(BulletsOf(xs));
      assert k[..n] == Kinds(BulletsOf(xs[..n]));
      assert AllPlain(xs[..n]) by {
        forall i | 0 <= i < n ensures PlainText(xs[..n][i]) {
          assert xs[..n][i] == xs[i];
        }
      }
      ScanBulletsOf(s, xs[..n]);
      AddBulletsKeeps(s, xs[..n]);
      assert k[n] == Classify("- " + xs[n]);
      StepBullet(AddBullets(s, xs[..n]), xs[n]);
    }
  }

  lemma ScanBulletLines(s: Scan, xs: seq<String>)
    requires AllPlain(xs) && s.section != RoutineSection && s.section != ActionSection
    ensures ScanLines(s, Kinds(BulletLines(xs))) == AddBullets(s, xs)
  {
    if xs == [] {
      ClassifyEmptyBullet();
      ScanOne(s, EmptyBullet);
    } else {
      ScanBulletsOf(s, xs);
    }
  }

  lemma {:induction false} AddBulletsGood(s: Scan, xs: seq<String>)
    requires s.section == ReflectionSection && s.cursor == GoodCursor
    ensures AddBullets(s, xs) == s.(good := s.good + xs)
  {
    if xs != [] {
      AddBulletsGood(s, xs[..|xs| - 1]);
      SnocParts(xs);
      ConcatAssoc(s.good, xs[..|xs| - 1], [xs[|xs| - 1]]);
    } else {
      assert s.good + xs == s.good;
    }
  }

  lemma {:induction false} AddBulletsIssue(s: Scan, xs: seq<String>)
    requires s.section == ReflectionSection && s.cursor == IssueCursor
    ensures AddBullets(s, xs) == s.(issues := s.issues + xs)
  {
    if xs != [] {
      AddBulletsIssue(s, xs[..|xs| - 1]);
      SnocParts(xs);
      ConcatAssoc(s.issues, xs[..|xs| - 1], [xs[|xs| - 1]]);
    } else {
      assert s.issues + xs == s.issues;
    }
  }

  lemma {:induction false} AddBulletsMemo(s: Scan, d: String, xs: seq<String>)
    requires s.section == MemoSection && s.cursor == DayCursor(d) && d in s.memos
    ensures AddBullets(s, xs) == s.(memos := s.memos[d := s.memos[d] + xs])
  {
    if xs != [] {
      AddBulletsMemo(s, d, xs[..|xs| - 1]);
      SnocParts(xs);
      ConcatAssoc(s.memos[d], xs[..|xs| - 1], [xs[|xs| - 1]]);
    } else {
      assert s.memos[d] + xs == s.memos[d];
      assert s.memos[d := s.memos[d]] == s.memos;
    }
  }

  lemma {:induction false} AddBulletsGoals(s: Scan, init: seq<RoleGoals>, role: String, goals: seq<String>, xs: seq<String>)
    requires s.section == RoleSection && s.roleOpen && s.roles == init + [RoleGoals(role, goals)]
    ensures AddBullets(s, xs) == s.(roles := init + [RoleGoals(role, goals + xs)])
  {
    if xs != [] {
      AddBulletsGoals(s, init, role, goals, xs[..|xs| - 1]);
      var rs := init + [RoleGoals(role, goals + xs[..|xs| - 1])];
      assert rs[..|rs| - 1] == init;
      SnocParts(xs);
      ConcatAssoc(goals, xs[..|xs| - 1], [xs[|xs| - 1]]);
    } else {
      assert goals + xs == goals;
    }
  }

  // ---------------------------------------------------------------------
  // scanning runs of lines

  lemma KindsAppend(a: seq<String>, b: seq<String>)
    ensures Kinds(a + b) == Kinds(a) + Kinds(b)
  {
  }

  lemma {:induction false} ScanAppend(s: Scan, a: seq<LineKind>, b: seq<LineKind>)
    ensures ScanLines(s, a + b) == ScanLines(ScanLines(s, a), b)
    decreases |b|
  {
    if b == [] {
      assert a + b == a;
    } else {
      ScanAppend(s, a, b[..|b| - 1]);
      assert (a + b)[..|a + b| - 1] == a + b[..|b| - 1];
      assert (a + b)[|a + b| - 1] == b[|b| - 1];
    }
  }

  /** Reading two runs of lines one after the other. */
  lemma ScanLinesAppend(s: Scan, a: seq<String>, b: seq<String>)
    ensures ScanLines(s, Kinds(a + b)) == ScanLines(ScanLines(s, Kinds(a)), Kinds(b))
  {
    KindsAppend(a, b);
    ScanAppend(s, Kinds(a), Kinds(b));
  }

  lemma ScanOne(s: Scan, x: LineKind)
    ensures ScanLines(s, [x]) == Step(s, x)
  {
    assert [x][..0] == [];
  }

  lemma ScanLineOne(s: Scan, a: String)
    ensures ScanLines(s, Kinds([a])) == Step(s, Classify(a))
  {
    assert Kinds([a]) == [Classify(a)];
    ScanOne(s, Classify(a));
  }

  lemma ScanLinePair(s: Scan, a: String, b: String)
    ensures ScanLines(s, Kinds([a, b])) == Step(Step(s, Classify(a)), Classify(b))
  {
    assert Kinds([a, b]) == [Classify(a), Classify(b)];
    assert [Classify(a), Classify(b)][..1] == [Classify(a)];
    ScanOne(s, Classify(a));
  }

  // ---------------------------------------------------------------------
  // reading each written part

  /** A plan that reads back as written. */
  predicate PlainPlan(p: Plan)
  {
    Trimmed(p.weekLabel) && SingleLine(p.weekLabel)
    && Trimmed(p.monthTheme) && SingleLine(p.monthTheme)
    && (forall i :: 0 <= i < |p.routines| ==> PlainTitle(p.routines[i].title))
    && (forall i :: 0 <= i < |p.roles| ==> PlainText(p.roles[i].role) && AllPlain(p.roles[i].goals))
    && (forall i :: 0 <= i < |p.actions| ==> PlainText(p.actions[i].title))
    && AllPlain(p.good) && AllPlain(p.issues)
    && (forall d :: d in Days ==> AllPlain(MemosOf(p.memos, d)))
  }

  /** A section heading and the blank line after it open the section. */
  lemma SectionRead(s: Scan, name: String)
    requires name in {ThemeSection, RoutineSection, RoleSection, ActionSection, ReflectionSection, MemoSection}
    ensures ScanLines(s, Kinds(["## " + name, ""])) == s.(section := name, cursor := NoCursor, roleOpen := false)
  {
    ClassifySection(name);
    ClassifyEmpty();
    ScanLinePair(s, "## " + name, "");
  }

  lemma TitleRead(s: Scan)
    requires s.section == []
    ensures ScanLines(s, Kinds(["# 週間計画", ""])) == s
  {
    SectionsDistinct();
    ClassifyTitle();
    ClassifyEmpty();
    ScanLinePair(s, "# 週間計画", "");
  }

  lemma LabelRead(s: Scan, text: String)
    requires s.section == [] && Trimmed(text)
    ensures ScanLines(s, Kinds([LabelPrefix + " " + text, ""])) == s.(weekLabel := text)
  {
    SectionsDistinct();
    ClassifyLabel(text);
    ClassifyEmpty();
    ScanLinePair(s, LabelPrefix + " " + text, "");
  }

  lemma ThemeRead(s: Scan, theme: String)
    requires s.section == ThemeSection && s.theme == [] && Trimmed(theme) && SingleLine(theme)
    ensures ScanLines(s, Kinds([ThemeLine(theme), ""])) == s.(theme := theme)
  {
    SectionsDistinct();
    if theme == [] {
      ClassifyEmptyBullet();
    } else {
      ClassifyBullet(theme);
    }
    ClassifyEmpty();
    ScanLinePair(s, ThemeLine(theme), "");
  }

  /** The title, the week label and the month theme. */
  lemma HeadRead(s: Scan, p: Plan)
    requires s.section == [] && s.theme == []
    requires Trimmed(p.weekLabel) && Trimmed(p.monthTheme) && SingleLine(p.monthTheme)
    ensures ScanLines(s, Kinds(HeadLines(p)))
            == s.(weekLabel := p.weekLabel, theme := p.monthTheme, section := RoutineSection, cursor := NoCursor,
                  roleOpen := false)
  {
    var a := ["# 週間計画", ""];
    var b := [LabelPrefix + " " + p.weekLabel, ""];
    var c := ["## " + ThemeSection, ""];
    var d := [ThemeLine(p.monthTheme), ""];
    var e := ["## " + RoutineSection, ""];
    ScanLinesAppend(s, a + b + c + d, e);
    ScanLinesAppend(s, a + b + c, d);
    ScanLinesAppend(s, a + b, c);
    ScanLinesAppend(s, a, b);
    TitleRead(s);
    LabelRead(s, p.weekLabel);
    var s1 := s.(weekLabel := p.weekLabel);
    SectionRead(s1, ThemeSection);
    var s2 := s1.(section := ThemeSection, cursor := NoCursor, roleOpen := false);
    ThemeRead(s2, p.monthTheme);
    SectionRead(s2.(theme := p.monthTheme), RoutineSection);
  }

  /** What a written routine row carries. */
  function RowKindsOf(rs: seq<Routine>): seq<LineKind>
  {
    seq(|rs|, i requires 0 <= i < |rs| => Body(None, Some(Kept(rs[i])), None, None, false, false, None))
  }

  /** A table line carries its row and nothing else. */
  lemma BarLine(line: String)
    requires line != [] && line[0] == '|'
    ensures Classify(line) == Body(None, ReadRow(line), None, None, false, false, None)
  {
    assert line[..1][0] == '|';
    assert !StartsWith(line, "## ") && !StartsWith(line, LabelPrefix) && !StartsWith(line, "-")
      && !StartsWith(line, "###") && !StartsWith(line, GoodHeading) && !StartsWith(line, IssueHeading);
  }

  lemma ClassifyRoutine(r: Routine)
    requires PlainTitle(r.title)
    ensures Classify(RoutineRow(r)) == Body(None, Some(Kept(r)), None, None, false, false, None)
  {
    var line := RoutineRow(r);
    assert line[0] == '|';
    BarLine(line);
    RowReadBack(r);
  }

  lemma RowsKinds(rs: seq<Routine>)
    requires forall i :: 0 <= i < |rs| ==> PlainTitle(rs[i].title)
    ensures Kinds(RowsOf(rs)) == RowKindsOf(rs)
  {
    forall i | 0 <= i < |rs| ensures Kinds(RowsOf(rs))[i] == RowKindsOf(rs)[i] {
      ClassifyRoutine(rs[i]);
    }
  }

  lemma {:induction false} ScanRowKinds(s: Scan, rs: seq<Routine>)
    requires s.section == RoutineSection
    ensures ScanLines(s, RowKindsOf(rs)) == s.(routines := s.routines + KeptAll(rs))
  {
    if rs == [] {
      assert RowKindsOf(rs) == [];
      assert s.routines + KeptAll(rs) == s.routines;
    } else {
      var n := |rs| - 1;
      var k := RowKindsOf(rs);
      assert k[..n] == RowKindsOf(rs[..n]);
      ScanRowKinds(s, rs[..n]);
      KeptAllSnoc(rs);
      assert s.routines + KeptAll(rs[..n]) + [Kept(rs[n])] == s.routines + KeptAll(rs);
    }
  }

  /** The header and separator rows carry no routine. */
  lemma HeaderRowsRead(s: Scan)
    requires s.section == RoutineSection
    ensures ScanLines(s, Kinds([HeaderRow, SeparatorRow])) == s
  {
    assert HeaderRow[0] == '|' && SeparatorRow[0] == '|';
    ClassifyBar(HeaderRow);
    ClassifyBar(SeparatorRow);
    HeaderRowSkipped();
    SeparatorRowSkipped();
    ScanLinePair(s, HeaderRow, SeparatorRow);
  }

  lemma BlankRowRead(s: Scan)
    requires s.section == RoutineSection
    ensures ScanLines(s, Kinds([BlankRow])) == s
  {
    assert BlankRow[0] == '|';
    ClassifyBar(BlankRow);
    BlankRowSkipped();
    ScanLineOne(s, BlankRow);
  }

  /** The routine table: header, separator and one routine per row. */
  lemma TableRead(s: Scan, rs: seq<Routine>)
    requires s.section == RoutineSection
    requires forall i :: 0 <= i < |rs| ==> PlainTitle(rs[i].title)
    ensures ScanLines(s, Kinds(RoutineTable(rs))) == s.(routines := s.routines + KeptAll(rs))
  {
    HeaderRowsRead(s);
    ScanLinesAppend(s, [HeaderRow, SeparatorRow], RoutineRows(rs));
    if rs == [] {
      BlankRowRead(s);
      assert s.routines + KeptAll(rs) == s.routines;
    } else {
      RowsKinds(rs);
      ScanRowKinds(s, rs);
    }
  }

  /** A role heading, its focus tasks and the blank line after them. */
  lemma RoleBlockRead(s: Scan, r: RoleGoals)
    requires s.section == RoleSection && PlainText(r.role) && AllPlain(r.goals)
    ensures ScanLines(s, Kinds(RoleBlock(r))) == s.(roles := s.roles + [r], roleOpen := true)
  {
    SectionsDistinct();
    var h := ["### " + r.role];
    ScanLinesAppend(s, h + BulletLines(r.goals), [""]);
    ScanLinesAppend(s, h, BulletLines(r.goals));
    ClassifyRoleHeading(r.role);
    ScanLineOne(s, "### " + r.role);
    var s1 := s.(roles := s.roles + [RoleGoals(r.role, [])], roleOpen := true);
    ScanBulletLines(s1, r.goals);
    AddBulletsGoals(s1, s.roles, r.role, [], r.goals);
    assert [] + r.goals == r.goals;
    ClassifyEmpty();
    ScanLineOne(s1.(roles := s.roles + [r]), "");
  }

  lemma {:induction false} RoleBlocksRead(s: Scan, roles: seq<RoleGoals>)
    requires s.section == RoleSection
    requires forall i :: 0 <= i < |roles| ==> PlainText(roles[i].role) && AllPlain(roles[i].goals)
    ensures ScanLines(s, Kinds(RoleBlocksOf(roles))) == s.(roles := s.roles + roles, roleOpen := s.roleOpen || roles != [])
  {
    if roles == [] {
      assert s.roles + roles == s.roles;
    } else {
      var n := |roles| - 1;
      RoleBlocksRead(s, roles[..n]);
      ScanLinesAppend(s, RoleBlocksOf(roles[..n]), RoleBlock(roles[n]));
      var s1 := s.(roles := s.roles + roles[..n], roleOpen := s.roleOpen || roles[..n] != []);
      RoleBlockRead(s1, roles[n]);
      SnocParts(roles);
      ConcatAssoc(s.roles, roles[..n], [roles[n]]);
    }
  }

  /** The roles read from a plan: the default `役割1` when it had none. */
  function ReadRoles(roles: seq<RoleGoals>): seq<RoleGoals>
  {
    if roles == [] then [RoleGoals(DefaultRole, [])] else roles
  }

  lemma RolePartRead(s: Scan, p: Plan)
    requires s.section == RoutineSection && s.roles == []
    requires forall i :: 0 <= i < |p.roles| ==> PlainText(p.roles[i].role) && AllPlain(p.roles[i].goals)
    ensures ScanLines(s, Kinds(RolePart(p)))
            == s.(section := RoleSection, cursor := NoCursor, roleOpen := true, roles := ReadRoles(p.roles))
  {
    SectionsDistinct();
    ScanLinesAppend(s, ["", "## " + RoleSection, ""], RoleBlocks(p.roles));
    assert ["", "## " + RoleSection, ""] == [""] + ["## " + RoleSection, ""];
    ScanLinesAppend(s, [""], ["## " + RoleSection, ""]);
    ClassifyEmpty();
    ScanLineOne(s, "");
    ClassifySection(RoleSection);
    ScanLinePair(s, "## " + RoleSection, "");
    var s1 := s.(section := RoleSection, cursor := NoCursor, roleOpen := false);
    if p.roles == [] {
      DefaultRolePlain();
      RoleBlockRead(s1, RoleGoals(DefaultRole, []));
    } else {
      RoleBlocksRead(s1, p.roles);
    }
  }

  lemma {:induction false} ScanActionsOf(s: Scan, actions: seq<ActionItem>)
    requires s.section == ActionSection
    requires forall i :: 0 <= i < |actions| ==> PlainText(actions[i].title)
    ensures ScanLines(s, Kinds(ActionsOf(actions))) == s.(actions := s.actions + actions)
  {
    if actions == [] {
      assert s.actions + actions == s.actions;
    } else {
      var n := |actions| - 1;
      var k := Kinds(ActionsOf(actions));
      assert k[..n] == Kinds(ActionsOf(actions[..n]));
      ScanActionsOf(s, actions[..n]);
      assert k[n] == Classify(ActionLine(actions[n]));
      ClassifyAction(actions[n]);
      SnocParts(actions);
      ConcatAssoc(s.actions, actions[..n], [actions[n]]);
    }
  }

  /** The action plan: each item with its check, in order. */
  lemma ActionPartRead(s: Scan, p: Plan)
    requires forall i :: 0 <= i < |p.actions| ==> PlainText(p.actions[i].title)
    ensures ScanLines(s, Kinds(ActionPart(p)))
            == s.(section := ActionSection, cursor := NoCursor, roleOpen := false, actions := s.actions + p.actions)
  {
    SectionsDistinct();
    ScanLinesAppend(s, ["## " + ActionSection, ""], ActionLines(p.actions));
    SectionRead(s, ActionSection);
    var s1 := s.(section := ActionSection, cursor := NoCursor, roleOpen := false);
    if p.actions == [] {
      ClassifyEmptyAction();
      ScanLineOne(s1, "- [ ] ");
      assert s.actions + p.actions == s.actions;
    } else {
      ScanActionsOf(s1, p.actions);
    }
  }

  lemma GoodRead(s: Scan)
    requires s.section == ReflectionSection
    ensures ScanLines(s, Kinds([GoodHeading])) == s.(cursor := GoodCursor)
  {
    SectionsDistinct();
    ClassifyGood();
    ScanLineOne(s, GoodHeading);
  }

  lemma IssueRead(s: Scan)
    requires s.section == ReflectionSection
    ensures ScanLines(s, Kinds(["", IssueHeading])) == s.(cursor := IssueCursor)
  {
    SectionsDistinct();
    ClassifyEmpty();
    ClassifyIssue();
    ScanLinePair(s, "", IssueHeading);
  }

  lemma BlankRead(s: Scan)
    ensures ScanLines(s, Kinds([""])) == s
  {
    ClassifyEmpty();
    ScanLineOne(s, "");
  }

  /** The reflection: what went well under its heading, then the issues under theirs. */
  lemma ReflectionPartRead(s: Scan, p: Plan)
    requires AllPlain(p.good) && AllPlain(p.issues)
    ensures ScanLines(s, Kinds(ReflectionPart(p)))
            == s.(section := ReflectionSection, cursor := IssueCursor, roleOpen := false,
                  good := s.good + p.good, issues := s.issues + p.issues)
  {
    SectionsDistinct();
    var a := ["## " + ReflectionSection, ""];
    var b := [GoodHeading];
    var c := BulletLines(p.good);
    var d := ["", IssueHeading];
    var e := BulletLines(p.issues);
    assert ["## " + ReflectionSection, "", GoodHeading] == a + b;
    ScanLinesAppend(s, a + b + c + d + e, [""]);
    ScanLinesAppend(s, a + b + c + d, e);
    ScanLinesAppend(s, a + b + c, d);
    ScanLinesAppend(s, a + b, c);
    ScanLinesAppend(s, a, b);
    SectionRead(s, ReflectionSection);
    var s1 := s.(section := ReflectionSection, cursor := NoCursor, roleOpen := false);
    GoodRead(s1);
    var s2 := s1.(cursor := GoodCursor);
    ScanBulletLines(s2, p.good);
    AddBulletsGood(s2, p.good);
    var s3 := s2.(good := s.good + p.good);
    IssueRead(s3);
    var s4 := s3.(cursor := IssueCursor);
    ScanBulletLines(s4, p.issues);
    AddBulletsIssue(s4, p.issues);
    BlankRead(s4.(issues := s.issues + p.issues));
  }

  /** The memos of the days in `days`, each appended to that day's list in `mm`. */
  function Filled(mm: map<String, seq<String>>, days: seq<String>, memos: map<String, seq<String>>)
    : map<String, seq<String>>
  {
    if days == [] then mm
    else
      var f := Filled(mm, days[..|days| - 1], memos);
      var d := days[|days| - 1];
      f[d := MemosOf(f, d) + MemosOf(memos, d)]
  }

  lemma DayRead(s: Scan, d: String)
    requires s.section == MemoSection && IsDay(d)
    ensures ScanLines(s, Kinds(["### " + d])) == s.(cursor := DayCursor(d))
  {
    SectionsDistinct();
    ClassifyDay(d);
    ScanLineOne(s, "### " + d);
  }

  lemma MemoBulletsRead(s: Scan, d: String, xs: seq<String>)
    requires s.section == MemoSection && s.cursor == DayCursor(d) && d in s.memos && AllPlain(xs)
    ensures ScanLines(s, Kinds(BulletLines(xs) + [""])) == s.(memos := s.memos[d := s.memos[d] + xs])
  {
    SectionsDistinct();
    ScanLinesAppend(s, BulletLines(xs), [""]);
    ScanBulletLines(s, xs);
    AddBulletsMemo(s, d, xs);
    BlankRead(s.(memos := s.memos[d := s.memos[d] + xs]));
  }

  lemma MemoBlockRead(s: Scan, d: String, memos: map<String, seq<String>>)
    requires s.section == MemoSection && IsDay(d) && d in s.memos && AllPlain(MemosOf(memos, d))
    ensures ScanLines(s, Kinds(MemoBlock(d, memos)))
            == s.(cursor := DayCursor(d), memos := s.memos[d := s.memos[d] + MemosOf(memos, d)])
  {
    var h := ["### " + d];
    var xs := MemosOf(memos, d);
    assert MemoBlock(d, memos) == h + (BulletLines(xs) + [""]);
    ScanLinesAppend(s, h, BulletLines(xs) + [""]);
    DayRead(s, d);
    MemoBulletsRead(s.(cursor := DayCursor(d)), d, xs);
  }

  /** What a plain weekday memo block leaves in the memo record, day after day. */
  lemma {:induction false} MemoBlocksRead(s: Scan, days: seq<String>, memos: map<String, seq<String>>)
    requires s.section == MemoSection
    requires forall i :: 0 <= i < |days| ==> IsDay(days[i]) && days[i] in s.memos && AllPlain(MemosOf(memos, days[i]))
    ensures ScanLines(s, Kinds(MemoBlocksOf(days, memos)))
            == s.(cursor := if days == [] then s.cursor else DayCursor(days[|days| - 1]),
                  memos := Filled(s.memos, days, memos))
  {
    if days != [] {
      var n := |days| - 1;
      var d := days[n];
      MemoBlocksRead(s, days[..n], memos);
      ScanLinesAppend(s, MemoBlocksOf(days[..n], memos), MemoBlock(d, memos));
      var f := Filled(s.memos, days[..n], memos);
      FilledKeys(s.memos, days[..n], memos);
      var s1 := s.(cursor := if n == 0 then s.cursor else DayCursor(days[n - 1]), memos := f);
      MemoBlockRead(s1, d, memos);
    }
  }

  lemma {:induction false} FilledKeys(mm: map<String, seq<String>>, days: seq<String>, memos: map<String, seq<String>>)
    requires forall i :: 0 <= i < |days| ==> days[i] in mm
    ensures Filled(mm, days, memos).Keys == mm.Keys
  {
    if days != [] {
      FilledKeys(mm, days[..|days| - 1], memos);
    }
  }

  predicate Distinct(days: seq<String>)
  {
    forall i, j :: 0 <= i < j < |days| ==> days[i] != days[j]
  }

  lemma MemosOfUpdate(f: map<String, seq<String>>, x: String, v: seq<String>, d: String)
    ensures MemosOf(f[x := v], d) == if d == x then v else MemosOf(f, d)
  {
  }

  /** Filling one more day changes that day's list only. */
  lemma FilledStep(mm: map<String, seq<String>>, days: seq<String>, memos: map<String, seq<String>>, d: String)
    requires days != []
    ensures var f := Filled(mm, days[..|days| - 1], memos);
      MemosOf(Filled(mm, days, memos), d)
      == if d == days[|days| - 1] then MemosOf(f, d) + MemosOf(memos, d) else MemosOf(f, d)
  {
    var n := |days| - 1;
    var f := Filled(mm, days[..n], memos);
    MemosOfUpdate(f, days[n], MemosOf(f, days[n]) + MemosOf(memos, days[n]), d);
  }

  /** A day not listed keeps its memos. */
  lemma {:induction false} FilledOther(mm: map<String, seq<String>>, days: seq<String>, memos: map<String, seq<String>>, d: String)
    requires forall i :: 0 <= i < |days| ==> days[i] != d
    ensures MemosOf(Filled(mm, days, memos), d) == MemosOf(mm, d)
  {
    if days != [] {
      FilledOther(mm, days[..|days| - 1], memos, d);
      FilledStep(mm, days, memos, d);
    }
  }

  /** A day listed once gains that day's memos after its own. */
  lemma {:induction false} FilledAt(mm: map<String, seq<String>>, days: seq<String>, memos: map<String, seq<String>>, k: nat)
    requires k < |days| && forall j :: 0 <= j < |days| && j != k ==> days[j] != days[k]
    ensures MemosOf(Filled(mm, days, memos), days[k]) == MemosOf(mm, days[k]) + MemosOf(memos, days[k])
  {
    var n := |days| - 1;
    var init := days[..n];
    FilledStep(mm, days, memos, days[k]);
    if k == n {
      FilledOther(mm, init, memos, days[k]);
    } else {
      FilledAt(mm, init, memos, k);
    }
  }

  lemma DaysDistinct()
    ensures Distinct(Days) && forall i :: 0 <= i < |Days| ==> IsDay(Days[i])
  {
    assert forall i :: 0 <= i < |Days| ==> |Days[i]| == 1;
    assert Days[0][0] == '月' && Days[1][0] == '火' && Days[2][0] == '水' && Days[3][0] == '木';
    assert Days[4][0] == '金' && Days[5][0] == '土' && Days[6][0] == '日';
  }

  /** The freshly read memo record has an empty list for each weekday and nothing else. */
  lemma EmptyMemosDays()
    ensures forall d :: d in Days ==> d in EmptyMemos && EmptyMemos[d] == []
    ensures EmptyMemos.Keys == set d | d in Days
  {
  }

  /** The memo record read back: one list per weekday, that day's memos or none. */
  function DayMemos(memos: map<String, seq<String>>): (r: map<String, seq<String>>)
    ensures r.Keys == set d | d in Days
  {
    map d | d in Days :: MemosOf(memos, d)
  }

  lemma FilledDays(memos: map<String, seq<String>>)
    ensures Filled(EmptyMemos, Days, memos) == DayMemos(memos)
  {
    var f := Filled(EmptyMemos, Days, memos);
    var g := DayMemos(memos);
    assert f.Keys == g.Keys by {
      EmptyMemosDays();
      FilledKeys(EmptyMemos, Days, memos);
    }
    forall d | d in f ensures f[d] == g[d] {
      var k :| 0 <= k < |Days| && Days[k] == d;
      assert f[d] == MemosOf(memos, d) by {
        DaysDistinct();
        EmptyMemosDays();
        FilledAt(EmptyMemos, Days, memos, k);
        assert MemosOf(EmptyMemos, d) == [];
      }
    }
  }

  /** The daily memos: each weekday heading and its memo bullets. */
  lemma MemoPartRead(s: Scan, p: Plan)
    requires forall d :: d in Days ==> d in s.memos && AllPlain(MemosOf(p.memos, d))
    ensures ScanLines(s, Kinds(MemoPart(p)))
            == s.(section := MemoSection, cursor := DayCursor("日"), roleOpen := false,
                  memos := Filled(s.memos, Days, p.memos))
  {
    DaysDistinct();
    ScanLinesAppend(s, ["## " + MemoSection, ""], MemoBlocksOf(Days, p.memos));
    SectionRead(s, MemoSection);
    var s1 := s.(section := MemoSection, cursor := NoCursor, roleOpen := false);
    MemoBlocksRead(s1, Days, p.memos);
  }

  /** Before the first section, body lines change nothing. */
  lemma {:induction false} ScanBodies(s: Scan, ks: seq<LineKind>)
    requires s.section == [] && forall i :: 0 <= i < |ks| ==> ks[i].Body?
    ensures ScanLines(s, ks) == s
  {
    if ks != [] {
      SectionsDistinct();
      ScanBodies(s, ks[..|ks| - 1]);
      StepOutside(s, ks[|ks| - 1]);
    }
  }

  /** The front matter sets neither a section nor the week label. */
  lemma FrontmatterRead(s: Scan, tags: seq<String>)
    requires s.section == []
    ensures ScanLines(s, Kinds(Frontmatter(tags))) == s
  {
    var fm := Frontmatter(tags);
    FrontmatterShape(tags);
    forall i | 0 <= i < |fm| ensures Kinds(fm)[i].Body? {
      ClassifyFrontmatterLine(fm[i]);
    }
    ScanBodies(s, Kinds(fm));
  }

  /** The state after the routine table and the roles. */
  function FrontScan(p: Plan): Scan
  {
    Start.(weekLabel := p.weekLabel, theme := p.monthTheme, section := RoleSection, roleOpen := true,
           routines := KeptAll(p.routines), roles := ReadRoles(p.roles))
  }

  lemma FrontRead(p: Plan)
    requires PlainPlan(p)
    ensures ScanLines(Start, Kinds(FrontLines(p))) == FrontScan(p)
  {
    var h := HeadLines(p);
    var t := RoutineTable(p.routines);
    ScanLinesAppend(Start, h + t, RolePart(p));
    ScanLinesAppend(Start, h, t);
    HeadRead(Start, p);
    var s1 := Start.(weekLabel := p.weekLabel, theme := p.monthTheme, section := RoutineSection);
    TableRead(s1, p.routines);
    assert [] + KeptAll(p.routines) == KeptAll(p.routines);
    RolePartRead(s1.(routines := KeptAll(p.routines)), p);
  }

  lemma BackRead(s: Scan, p: Plan)
    requires PlainPlan(p)
    requires forall d :: d in Days ==> d in s.memos
    ensures ScanLines(s, Kinds(BackLines(p)))
            == s.(section := MemoSection, cursor := DayCursor("日"), roleOpen := false, actions := s.actions + p.actions,
                  good := s.good + p.good, issues := s.issues + p.issues, memos := Filled(s.memos, Days, p.memos))
  {
    var a := ActionPart(p);
    var r := ReflectionPart(p);
    ScanLinesAppend(s, a + r, MemoPart(p));
    ScanLinesAppend(s, a, r);
    ActionPartRead(s, p);
    var s1 := s.(section := ActionSection, cursor := NoCursor, roleOpen := false, actions := s.actions + p.actions);
    ReflectionPartRead(s1, p);
    MemoPartRead(s1.(section := ReflectionSection, cursor := IssueCursor, good := s.good + p.good,
                     issues := s.issues + p.issues), p);
  }

  /**
   * What a plain plan reads back as: the week label, the month theme, the
   * routines with their six day checks, the roles (the default `役割1` when
   * there were none), the actions, the reflection and one memo list per
   * weekday; the week dates, the weekly goals and the slots are not written,
   * so they come back empty.
   */
  function ReadBack(p: Plan): Plan
  {
    Plan("weekly", [], [], [], p.weekLabel, p.monthTheme, KeptAll(p.routines), ReadRoles(p.roles), p.actions, p.good,
         p.issues, DayMemos(p.memos), EmptySlots, None)
  }

  /** The reader's state at the end of a plain plan's lines. */
  function EndScan(p: Plan): Scan
  {
    Scan(MemoSection, DayCursor("日"), false, p.weekLabel, p.monthTheme, KeptAll(p.routines), ReadRoles(p.roles),
         p.actions, p.good, p.issues, DayMemos(p.memos))
  }

  lemma LinesRead(p: Plan)
    requires PlainPlan(p)
    ensures ScanLines(Start, Kinds(SerializeLines(p))) == EndScan(p)
  {
    ScanLinesAppend(Start, FrontLines(p), BackLines(p));
    FrontRead(p);
    EmptyMemosDays();
    var f := FrontScan(p);
    assert f.memos == EmptyMemos;
    BackRead(f, p);
    EmptyConcat(p.actions);
    EmptyConcat(p.good);
    EmptyConcat(p.issues);
    FilledDays(p.memos);
  }

  /** The front matter leaves the reader's starting state as it was. */
  lemma AfterFrontmatter(lines: seq<String>, tags: seq<String>)
    ensures ScanLines(Start, Kinds(PrependTagFrontmatter(lines, tags))) == ScanLines(Start, Kinds(lines))
  {
    var fm := Frontmatter(NormalizedTags(tags));
    ScanLinesAppend(Start, fm, lines);
    FrontmatterRead(Start, NormalizedTags(tags));
  }

  lemma DocumentScan(p: Plan, tags: seq<String>)
    requires PlainPlan(p)
    ensures ScanLines(Start, Kinds(PrependTagFrontmatter(SerializeLines(p), tags))) == EndScan(p)
  {
    AfterFrontmatter(SerializeLines(p), tags);
    LinesRead(p);
  }

  // ---------------------------------------------------------------------
  // one entry per line

  lemma PrefixedNoBreak(prefix: String, t: String)
    requires SingleLine(prefix) && SingleLine(t)
    ensures '\n' !in prefix + t
  {
    SingleLineConcat(prefix, t);
    SingleLineNoBreak(prefix + t);
  }

  lemma BulletLinesNoBreaks(xs: seq<String>)
    requires AllPlain(xs)
    ensures NoBreaks(BulletLines(xs))
  {
    forall k | 0 <= k < |xs| ensures '\n' !in "- " + xs[k] {
      PrefixedNoBreak("- ", xs[k]);
    }
  }

  lemma BlockNoBreaks(heading: String, xs: seq<String>)
    requires SingleLine(heading) && AllPlain(xs)
    ensures NoBreaks(["### " + heading] + BulletLines(xs) + [""])
  {
    PrefixedNoBreak("### ", heading);
    BulletLinesNoBreaks(xs);
    NoBreaksConcat(["### " + heading], BulletLines(xs));
    NoBreaksConcat(["### " + heading] + BulletLines(xs), [""]);
  }

  lemma {:induction false} RoleBlocksNoBreaks(roles: seq<RoleGoals>)
    requires forall i :: 0 <= i < |roles| ==> PlainText(roles[i].role) && AllPlain(roles[i].goals)
    ensures NoBreaks(RoleBlocksOf(roles))
  {
    if roles != [] {
      var n := |roles| - 1;
      RoleBlocksNoBreaks(roles[..n]);
      BlockNoBreaks(roles[n].role, roles[n].goals);
      NoBreaksConcat(RoleBlocksOf(roles[..n]), RoleBlock(roles[n]));
    }
  }

  lemma ActionLinesNoBreaks(actions: seq<ActionItem>)
    requires forall i :: 0 <= i < |actions| ==> PlainText(actions[i].title)
    ensures NoBreaks(ActionLines(actions))
  {
    forall k | 0 <= k < |actions| ensures '\n' !in ActionLine(actions[k]) {
      var a := actions[k];
      assert SingleLine("- " + Mark(a.done) + " ");
      PrefixedNoBreak("- " + Mark(a.done) + " ", a.title);
    }
  }

  lemma {:induction false} MemoBlocksNoBreaks(days: seq<String>, memos: map<String, seq<String>>)
    requires forall i :: 0 <= i < |days| ==> IsDay(days[i]) && AllPlain(MemosOf(memos, days[i]))
    ensures NoBreaks(MemoBlocksOf(days, memos))
  {
    if days != [] {
      var n := |days| - 1;
      MemoBlocksNoBreaks(days[..n], memos);
      assert !IsLineTerminator(days[n][0]);
      BlockNoBreaks(days[n], MemosOf(memos, days[n]));
      NoBreaksConcat(MemoBlocksOf(days[..n], memos), MemoBlock(days[n], memos));
    }
  }

  lemma HeadNoBreaks(p: Plan)
    requires PlainPlan(p)
    ensures NoBreaks(HeadLines(p))
  {
    PrefixedNoBreak(LabelPrefix + " ", p.weekLabel);
    PrefixedNoBreak("- ", p.monthTheme);
  }

  lemma RolePartNoBreaks(p: Plan)
    requires forall i :: 0 <= i < |p.roles| ==> PlainText(p.roles[i].role) && AllPlain(p.roles[i].goals)
    ensures NoBreaks(RolePart(p))
  {
    if p.roles == [] {
      DefaultRolePlain();
      BlockNoBreaks(DefaultRole, []);
    } else {
      RoleBlocksNoBreaks(p.roles);
    }
    NoBreaksConcat(["", "## " + RoleSection, ""], RoleBlocks(p.roles));
  }

  lemma FrontNoBreaks(p: Plan)
    requires PlainPlan(p)
    ensures NoBreaks(FrontLines(p))
  {
    HeadNoBreaks(p);
    TableNoBreaks(p.routines);
    RolePartNoBreaks(p);
    NoBreaksConcat(HeadLines(p), RoutineTable(p.routines));
    NoBreaksConcat(HeadLines(p) + RoutineTable(p.routines), RolePart(p));
  }

  lemma BackNoBreaks(p: Plan)
    requires PlainPlan(p)
    ensures NoBreaks(BackLines(p))
  {
    ActionLinesNoBreaks(p.actions);
    NoBreaksConcat(["## " + ActionSection, ""], ActionLines(p.actions));
    var r1 := ["## " + ReflectionSection, "", GoodHeading];
    BulletLinesNoBreaks(p.good);
    BulletLinesNoBreaks(p.issues);
    NoBreaksConcat(r1, BulletLines(p.good));
    NoBreaksConcat(r1 + BulletLines(p.good), ["", IssueHeading]);
    NoBreaksConcat(r1 + BulletLines(p.good) + ["", IssueHeading], BulletLines(p.issues));
    NoBreaksConcat(r1 + BulletLines(p.good) + ["", IssueHeading] + BulletLines(p.issues), [""]);
    DaysDistinct();
    MemoBlocksNoBreaks(Days, p.memos);
    NoBreaksConcat(["## " + MemoSection, ""], MemoBlocksOf(Days, p.memos));
    NoBreaksConcat(ActionPart(p), ReflectionPart(p));
    NoBreaksConcat(ActionPart(p) + ReflectionPart(p), MemoPart(p));
  }

  /**
   * A plain plan reads back as written, whatever its tags: the week label,
   * the month theme, each routine with its six day checks, the roles (the
   * default `役割1` when there were none), the actions with their checks,
   * the reflection, and the memos of each weekday.
   */
  lemma RoundTrip(p: Plan, tags: seq<String>)
    requires PlainPlan(p) && NoBreaks(tags)
    ensures Parse(Serialize(p, tags)) == ReadBack(p)
  {
    FrontNoBreaks(p);
    BackNoBreaks(p);
    NoBreaksConcat(FrontLines(p), BackLines(p));
    DocumentSplit(SerializeLines(p), tags);
    DocumentScan(p, tags);
  }

  // ---------------------------------------------------------------------
  // the memo record of any document

  /** The reader's memo record keeps the seven weekdays, and a day cursor names one of them. */
  predicate MemoKeysKept(s: Scan)
  {
    s.memos.Keys == EmptyMemos.Keys && (s.cursor.DayCursor? ==> s.cursor.day in s.memos)
  }

  lemma IsDayKey(d: String)
    requires IsDay(d)
    ensures d in EmptyMemos
  {
    assert d == [d[0]];
  }

  /** A day heading names a weekday. */
  predicate DayNamed(k: LineKind)
  {
    k.Body? && k.day.Some? ==> IsDay(k.day.value)
  }

  lemma ClassifyDayNamed(line: String)
    ensures DayNamed(Classify(line))
  {
  }

  lemma StepKeepsKind(s: Scan, k: LineKind)
    requires MemoKeysKept(s) && DayNamed(k)
    ensures MemoKeysKept(Step(s, k))
  {
    if k.Body? && k.day.Some? {
      IsDayKey(k.day.value);
    }
  }

  lemma StepKeeps(s: Scan, line: String)
    requires MemoKeysKept(s)
    ensures MemoKeysKept(Step(s, Classify(line)))
  {
    ClassifyDayNamed(line);
    StepKeepsKind(s, Classify(line));
  }

  lemma {:induction false} ScanKeeps(s: Scan, lines: seq<String>)
    requires MemoKeysKept(s)
    ensures MemoKeysKept(ScanLines(s, Kinds(lines)))
  {
    if lines != [] {
      var n := |lines| - 1;
      assert Kinds(lines)[..n] == Kinds(lines[..n]);
      ScanKeeps(s, lines[..n]);
      StepKeeps(ScanLines(s, Kinds(lines[..n])), lines[n]);
    }
  }

  /**
   * Whatever the document, the memo record read has exactly the seven
   * weekdays as keys: a memo is only ever pushed to a day the record holds.
   */
  lemma ParseMemoKeys(content: String)
    ensures Parse(content).memos.Keys == set d | d in Days
  {
    ScanKeeps(Start, Split(content, '\n'));
  }

  /** tasksToWeeklyEntries: one entry per task, its title, in order. */
  function WeeklyEntries(tasks: seq<Tasks.Task>): (r: seq<String>)
    ensures |r| == |tasks| && forall i :: 0 <= i < |tasks| ==> r[i] == tasks[i].title
  {
    seq(|tasks|, i requires 0 <= i < |tasks| => tasks[i].title)
  }
}

