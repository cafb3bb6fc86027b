/**
 * The task checklist document: a fixed header, a `## 目標` section holding a
 * placeholder and a `## タスク` section of lines `- [c] [goal] title`.
 */
module Tasks {
  import opened Text
  import opened MarkdownTags

  datatype TaskStatus = Todo | Doing | Done

  datatype Task = Task(
    id: String,
    title: String,
    goalId: String,
    status: TaskStatus,
    weeklySlot: Option<String>,
    notes: Option<String>)

  // ---------------------------------------------------------------------
  // the task line pattern `^- \[(.| )\] \[(.+)\]\s*(.+)$`

  /** The groups of a matched task line: the mark, the goal and the text after the goal's `]`. */
  datatype TaskMatch = TaskMatch(mark: char, goal: String, rest: String)

  /** `]` at `k` can close the goal group: the goal before it is one line and the title after it matches. */
  predicate GoalEndAt(s: String, k: nat)
    requires k < |s|
  {
    s[k] == ']' && SingleLine(s[..k]) && SpacedRest(s[k + 1..], false).Some?
  }

  /** The greedy goal group: the last position below `n` (and above 0) that can close it. */
  function LastGoalEnd(s: String, n: nat): (r: Option<nat>)
    requires n <= |s|
    ensures r.Some? ==> 1 <= r.value < n && GoalEndAt(s, r.value)
    decreases n
  {
    if n <= 1 then None
    else if GoalEndAt(s, n - 1) then Some(n - 1)
    else LastGoalEnd(s, n - 1)
  }

  lemma {:induction false} LastGoalEndIsLast(s: String, n: nat, k: nat)
    requires n <= |s| && 1 <= k < n && GoalEndAt(s, k)
    ensures LastGoalEnd(s, n).Some? && k <= LastGoalEnd(s, n).value
    decreases n
  {
    if k < n - 1 && !GoalEndAt(s, n - 1) {
      LastGoalEndIsLast(s, n - 1, k);
    }
  }

  lemma {:induction false} LastGoalEndSkips(s: String, n: nat, m: nat)
    requires n <= |s| && 1 <= m < n && GoalEndAt(s, m)
    requires forall k :: m < k < n ==> s[k] != ']'
    ensures LastGoalEnd(s, n) == Some(m)
    decreases n
  {
    if m < n - 1 {
      LastGoalEndSkips(s, n - 1, m);
    }
  }

  function MatchTask(line: String): (r: Option<TaskMatch>)
    ensures r.Some? ==> r.value.goal != [] && SingleLine(r.value.goal) && SingleLine(r.value.rest)
  {
    if |line| >= 7 && line[..3] == "- [" && !IsLineTerminator(line[3]) && line[4..7] == "] [" then
      MatchGoal(line[3], line[7..])
    else None
  }

  /** The goal and title groups, in the text after `- [c] [`. */
  function MatchGoal(mark: char, s: String): (r: Option<TaskMatch>)
    ensures r.Some? ==> r.value.goal != [] && SingleLine(r.value.goal) && SingleLine(r.value.rest)
  {
    match LastGoalEnd(s, |s|)
    case None => None
    case Some(k) => Some(TaskMatch(mark, s[..k], SpacedRest(s[k + 1..], false).value))
  }

  // ---------------------------------------------------------------------
  // reading

  /** What a line means to the reader. */
  datatype LineKind = OpensSection | ClosesSection | Item(m: TaskMatch) | Other

  /** `## タスク` opens the task section, any other `## ` line closes it, and a task line is an item. */
  function Classify(line: String): (r: LineKind)
    ensures r.Item? ==> r.m.goal != [] && SingleLine(r.m.goal)
  {
    if StartsWith(line, "## タスク") then OpensSection
    else if StartsWith(line, "## ") then ClosesSection
    else match MatchTask(line)
      case Some(m) => Item(m)
      case None => Other
  }

  function Kinds(lines: seq<String>): (r: seq<LineKind>)
    ensures |r| == |lines| && forall i :: 0 <= i < |lines| ==> r[i] == Classify(lines[i])
  {
    seq(|lines|, i requires 0 <= i < |lines| => Classify(lines[i]))
  }

  /** Reader state: inside the task section or not, and the task lines matched so far. */
  datatype Scan = Scan(inSection: bool, items: seq<TaskMatch>)

  /** Items are read only inside the task section. */
  function Step(s: Scan, kind: LineKind): Scan
  {
    match kind
    case OpensSection => Scan(true, s.items)
    case ClosesSection => Scan(false, s.items)
    case Item(m) => if s.inSection then Scan(true, s.items + [m]) else s
    case Other => s
  }

  function ScanLines(s: Scan, kinds: seq<LineKind>): Scan
  {
    if kinds == [] then s else Step(ScanLines(s, kinds[..|kinds| - 1]), kinds[|kinds| - 1])
  }

  /** The task read from the `index`-th matched line: its id names the goal and the position. */
  function ReadTask(m: TaskMatch, index: nat): Task
  {
    Task(m.goal + "-" + IntToString(index), Trim(m.rest), m.goal,
      if m.mark == 'x' || m.mark == 'X' then Done else Todo, None, None)
  }

  function ReadAll(items: seq<TaskMatch>): (r: seq<Task>)
    ensures |r| == |items|
  {
    seq(|items|, k requires 0 <= k < |items| => ReadTask(items[k], k))
  }

  function ParseTasks(content: String): seq<Task>
  {
    ReadAll(ScanLines(Scan(false, []), Kinds(Split(content, '\n'))).items)
  }

  /** parseTasks: the loop over the document's lines. */
  method ReadTasks(content: String) returns (tasks: seq<Task>)
    ensures tasks == ParseTasks(content)
  {
    var lines := Split(content, '\n');
    ghost var kinds := Kinds(lines);
    ghost var items: seq<TaskMatch> := [];
    tasks := [];
    var inTaskSection := false;
    var i := 0;
    while i < |lines|
      invariant 0 <= i <= |lines|
      invariant Scan(inTaskSection, items) == ScanLines(Scan(false, []), kinds[..i])
      invariant tasks == ReadAll(items)
    {
      assert kinds[..i + 1][..i] == kinds[..i];
      inTaskSection, tasks, items := ReadLine(lines[i], inTaskSection, tasks, items);
      i := i + 1;
    }
    assert kinds[..i] == kinds;
  }

  /** One pass of parseTasks's loop: the section flag and the task list after `line`. */
  method ReadLine(line: String, inTaskSection: bool, tasks: seq<Task>, ghost items: seq<TaskMatch>)
    returns (inTaskSection': bool, tasks': seq<Task>, ghost items': seq<TaskMatch>)
    requires tasks == ReadAll(items)
    ensures Scan(inTaskSection', items') == Step(Scan(inTaskSection, items), Classify(line))
    ensures tasks' == ReadAll(items')
  {
    inTaskSection', tasks', items' := inTaskSection, tasks, items;
    if StartsWith(line, "## タスク") {
      inTaskSection' := true;
    } else {
      if StartsWith(line, "## ") {
        inTaskSection' := false;
      }
      if inTaskSection' {
        var m := MatchTask(line);
        if m.Some? {
          tasks' := tasks + [ReadTask(m.value, |tasks|)];
          items' := items + [m.value];
          ReadAllSnoc(items, m.value);
        }
      }
    }
  }

  lemma ReadAllSnoc(items: seq<TaskMatch>, m: TaskMatch)
    ensures ReadAll(items + [m]) == ReadAll(items) + [ReadTask(m, |items|)]
  {
    var l := ReadAll(items + [m]);
    var r := ReadAll(items) + [ReadTask(m, |items|)];
    forall k | 0 <= k < |l| ensures l[k] == r[k] {
      if k < |items| {
        assert (items + [m])[k] == items[k];
      }
    }
  }

  /** Every line matched has a non-empty one-line goal. */
  lemma {:induction false} ScanShape(s: Scan, kinds: seq<LineKind>)
    requires forall k :: 0 <= k < |kinds| && kinds[k].Item? ==> kinds[k].m.goal != [] && SingleLine(kinds[k].m.goal)
    requires forall m :: m in s.items ==> m.goal != [] && SingleLine(m.goal)
    ensures forall m :: m in ScanLines(s, kinds).items ==> m.goal != [] && SingleLine(m.goal)
    decreases |kinds|
  {
    if kinds != [] {
      ScanShape(s, kinds[..|kinds| - 1]);
    }
  }

  /** Every task read has a non-empty one-line goal, a trimmed title, an id naming its goal and position, and is never `doing`. */
  lemma ParsedShape(content: String)
    ensures var r := ParseTasks(content);
      forall k :: 0 <= k < |r| ==>
        r[k].id == r[k].goalId + "-" + IntToString(k) && r[k].goalId != [] && SingleLine(r[k].goalId)
        && Trimmed(r[k].title) && r[k].status != Doing
  {
    var items := ScanLines(Scan(false, []), Kinds(Split(content, '\n'))).items;
    ScanShape(Scan(false, []), Kinds(Split(content, '\n')));
    assert forall k :: 0 <= k < |items| ==> items[k] in items;
  }

  /** listTasks: an empty (or missing) document holds no tasks. */
  function ListTasks(content: String): (r: seq<Task>)
    ensures content == [] ==> r == []
  {
    if content == [] then [] else ParseTasks(content)
  }

  // ---------------------------------------------------------------------
  // writing

  function HeaderLines(): seq<String>
  {
    ["# 目標からタスク切り出し", "", "## 目標", "- ", "", "## タスク"]
  }

  function TaskLine(t: Task): String
  {
    "- " + (if t.status == Done then "[x]" else "[ ]") + " [" + t.goalId + "] " + t.title
  }

  /** The lines of the task section: one per task, or the empty checkbox placeholder. */
  function TaskSection(tasks: seq<Task>): (r: seq<String>)
    ensures |r| == if tasks == [] then 1 else |tasks|
  {
    if tasks == [] then ["- [ ] "] else seq(|tasks|, i requires 0 <= i < |tasks| => TaskLine(tasks[i]))
  }

  function SerializeLines(tasks: seq<Task>): seq<String>
  {
    HeaderLines() + TaskSection(tasks) + [""]
  }

  function Serialize(tasks: seq<Task>, tags: seq<String>): String
  {
    Join(PrependTagFrontmatter(SerializeLines(tasks), tags), "\n")
  }

  /** serializeTasks: the loop pushing the document's lines. */
  method WriteTasks(tasks: seq<Task>, tags: seq<String>) returns (content: String)
    ensures content == Serialize(tasks, tags)
  {
    var lines := HeaderLines();
    if |tasks| == 0 {
      lines := lines + ["- [ ] "];
    } else {
      var i := 0;
      while i < |tasks|
        invariant 0 <= i <= |tasks|
        invariant lines == HeaderLines() + TaskSection(tasks)[..i]
      {
        assert TaskSection(tasks)[..i + 1] == TaskSection(tasks)[..i] + [TaskLine(tasks[i])];
        lines := lines + [TaskLine(tasks[i])];
        i := i + 1;
      }
      assert TaskSection(tasks)[..i] == TaskSection(tasks);
    }
    lines := lines + [""];
    content := Join(PrependTagFrontmatter(lines, tags), "\n");
  }

  /** addTask: the listed tasks with one new `todo` task for the goal appended, written back. */
  function AddTask(content: String, goalTitle: String, title: String, now: int, tags: seq<String>): (r: (Task, String))
    ensures r.0.goalId == goalTitle && r.0.title == title && r.0.status == Todo
    ensures r.1 == Serialize(ListTasks(content) + [r.0], tags)
  {
    var task := Task(goalTitle + "-" + IntToString(now), title, goalTitle, Todo, None, None);
    (task, Serialize(ListTasks(content) + [task], tags))
  }

  // ---------------------------------------------------------------------
  // round trip

  /** A task that reads back as itself: a non-empty one-line goal and a trimmed one-line title without `]`. */
  predicate PlainTask(t: Task)
  {
    t.goalId != [] && SingleLine(t.goalId) && Trimmed(t.title) && SingleLine(t.title) && ']' !in t.title
  }

  /** What reading back a written task gives: the positional id, `doing` as `todo`, no slot or notes. */
  function ReadBack(t: Task, index: nat): Task
  {
    Task(t.goalId + "-" + IntToString(index), t.title, t.goalId, if t.status == Done then Done else Todo, None, None)
  }

  function ReadBackAll(tasks: seq<Task>): (r: seq<Task>)
    ensures |r| == |tasks|
  {
    seq(|tasks|, i requires 0 <= i < |tasks| => ReadBack(tasks[i], i))
  }

  lemma TitleRest(title: String)
    requires Trimmed(title) && SingleLine(title)
    ensures SpacedRest(" " + title, false).Some?
    ensures Trim(SpacedRest(" " + title, false).value) == title
  {
    if title == [] {
      assert " " + title == " ";
      SpacedRestOfBlank();
    } else {
      TitleRestOfText(title);
    }
  }

  lemma TitleRestOfText(title: String)
    requires title != [] && Trimmed(title) && SingleLine(title)
    ensures SpacedRest(" " + title, false) == Some(title) && Trim(title) == title
  {
    SpacedRestOfText(title, false);
    TrimOfTrimmed(title);
  }

  /** In `goal] title` with no `]` in the title, the goal group ends at the goal's `]`. */
  lemma GoalSplit(g: String, title: String)
    requires g != [] && SingleLine(g) && Trimmed(title) && SingleLine(title) && ']' !in title
    ensures var s := g + "] " + title;
      LastGoalEnd(s, |s|) == Some(|g|) && s[..|g|] == g && s[|g| + 1..] == " " + title
  {
    var s := g + "] " + title;
    var n := |g|;
    assert s[..n] == g && s[n + 1..] == " " + title && s[n] == ']';
    TitleRest(title);
    assert GoalEndAt(s, n);
    forall k | n < k < |s| ensures s[k] != ']' {
      if k > n + 1 {
        assert s[k] == title[k - n - 2];
      }
    }
    LastGoalEndSkips(s, |s|, n);
  }

  lemma TaskLineParts(t: Task)
    ensures var line := TaskLine(t);
      |line| >= 7 && line[..3] == "- [" && line[4..7] == "] ["
      && line[3] == (if t.status == Done then 'x' else ' ') && line[7..] == t.goalId + "] " + t.title
  {
    var mark := if t.status == Done then 'x' else ' ';
    assert TaskLine(t) == "- [" + [mark] + "] [" + (t.goalId + "] " + t.title);
  }

  lemma MatchTaskLine(t: Task)
    requires PlainTask(t)
    ensures MatchTask(TaskLine(t)).Some?
    ensures var m := MatchTask(TaskLine(t)).value;
      m.goal == t.goalId && Trim(m.rest) == t.title && m.mark == (if t.status == Done then 'x' else ' ')
  {
    var line := TaskLine(t);
    TaskLineParts(t);
    var mark := if t.status == Done then 'x' else ' ';
    assert MatchTask(line) == MatchGoal(mark, t.goalId + "] " + t.title);
    TitleRest(t.title);
    MatchGoalOfPlain(mark, t.goalId, t.title);
  }

  lemma MatchGoalOfPlain(mark: char, g: String, title: String)
    requires g != [] && SingleLine(g) && Trimmed(title) && SingleLine(title) && ']' !in title
    requires SpacedRest(" " + title, false).Some?
    ensures MatchGoal(mark, g + "] " + title) == Some(TaskMatch(mark, g, SpacedRest(" " + title, false).value))
  {
    var s := g + "] " + title;
    GoalSplit(g, title);
    assert MatchGoal(mark, s) == Some(TaskMatch(mark, s[..|g|], SpacedRest(s[|g| + 1..], false).value));
  }

  lemma {:induction false} ScanAppend(s: Scan, a: seq<LineKind>, b: seq<LineKind>)
    ensures ScanLines(s, a + b) == ScanLines(ScanLines(s, a), b)
    decreases |b|
  {
    if b == [] {
      assert a + b == a;
    } else {
      assert (a + b)[..|a + b| - 1] == a + b[..|b| - 1];
      ScanAppend(s, a, b[..|b| - 1]);
    }
  }

  lemma KindsAppend(a: seq<String>, b: seq<String>)
    ensures Kinds(a + b) == Kinds(a) + Kinds(b)
  {
  }

  /** Outside the section, lines that do not open it change nothing. */
  lemma {:induction false} ScanIdle(kinds: seq<LineKind>)
    requires forall k :: 0 <= k < |kinds| ==> kinds[k] != OpensSection
    ensures ScanLines(Scan(false, []), kinds) == Scan(false, [])
    decreases |kinds|
  {
    if kinds != [] {
      ScanIdle(kinds[..|kinds| - 1]);
    }
  }

  /** Inside the section, every item is collected. */
  lemma {:induction false} ScanItems(kinds: seq<LineKind>)
    requires forall k :: 0 <= k < |kinds| ==> kinds[k].Item?
    ensures ScanLines(Scan(true, []), kinds) == Scan(true, seq(|kinds|, k requires 0 <= k < |kinds| => kinds[k].m))
    decreases |kinds|
  {
    if kinds != [] {
      ScanItems(kinds[..|kinds| - 1]);
    }
  }

  lemma ClassifyTaskLine(t: Task, k: nat)
    requires PlainTask(t)
    ensures Classify(TaskLine(t)).Item? && ReadTask(Classify(TaskLine(t)).m, k) == ReadBack(t, k)
  {
    var line := TaskLine(t);
    TaskLineParts(t);
    assert !StartsWith(line, "## タスク") && !StartsWith(line, "## ");
    MatchTaskLine(t);
  }

  /** With no `]` past the first position, no position can close the goal group. */
  lemma {:induction false} NoGoalEnd(s: String, n: nat)
    requires n <= |s| && forall k :: 1 <= k < n ==> s[k] != ']'
    ensures LastGoalEnd(s, n).None?
    decreases n
  {
    if n > 1 {
      NoGoalEnd(s, n - 1);
    }
  }

  /**
   * A task with an empty goal is written as `- [ ] [] title`, which the
   * reader does not take for a task line: the task is dropped on reading.
   */
  lemma EmptyGoalNotRead(t: Task)
    requires t.goalId == [] && ']' !in t.title
    ensures Classify(TaskLine(t)) == Other
  {
    var line := TaskLine(t);
    TaskLineParts(t);
    assert !StartsWith(line, "## タスク") && !StartsWith(line, "## ");
    var s := line[7..];
    assert s == "] " + t.title;
    forall k | 1 <= k < |s| ensures s[k] != ']' {
      if k >= 2 {
        assert s[k] == t.title[k - 2];
      }
    }
    NoGoalEnd(s, |s|);
  }

  lemma KindsOfSection(tasks: seq<Task>)
    requires forall k :: 0 <= k < |tasks| ==> PlainTask(tasks[k])
    ensures ReadAll(ScanLines(Scan(true, []), Kinds(TaskSection(tasks))).items) == ReadBackAll(tasks)
    ensures ScanLines(Scan(true, []), Kinds(TaskSection(tasks))).inSection
  {
    var kinds := Kinds(TaskSection(tasks));
    if tasks == [] {
      assert "- [ ] "[..3] == "- [" && "- [ ] "[3] == ' ';
      assert !StartsWith("- [ ] ", "## タスク") && !StartsWith("- [ ] ", "## ");
      assert MatchTask("- [ ] ") == None;
      assert kinds == [Other];
      assert kinds[..0] == [];
    } else {
      forall k | 0 <= k < |kinds| ensures kinds[k].Item? && ReadTask(kinds[k].m, k) == ReadBack(tasks[k], k) {
        ClassifyTaskLine(tasks[k], k);
      }
      ScanItems(kinds);
    }
  }

  /** A line that cannot open the task section. */
  lemma NotOpening(line: String)
    requires |line| < 6 || line[0] != '#' || line[1] != '#'
    ensures !StartsWith(line, "## タスク")
  {
    if |line| >= 6 {
      assert line[..6][0] == line[0] && line[..6][1] == line[1];
    }
  }

  lemma HeaderIdle(tags: seq<String>)
    ensures ScanLines(Scan(false, []), Kinds(Frontmatter(NormalizedTags(tags)) + HeaderLines()[..5])) == Scan(false, [])
  {
    var f := Frontmatter(NormalizedTags(tags));
    var lines := f + HeaderLines()[..5];
    FrontmatterShape(NormalizedTags(tags));
    forall k | 0 <= k < |lines| ensures !StartsWith(lines[k], "## タスク") {
      if k < |f| {
        assert FrontmatterLine(f[k]);
        if StartsWith(f[k], "  - ") {
          assert f[k][0] == f[k][..4][0] == ' ';
        }
        NotOpening(f[k]);
      } else {
        var j := k - |f|;
        assert lines[k] == HeaderLines()[j];
        if j == 0 {
          assert lines[k][1] == ' ';
        }
        NotOpening(lines[k]);
      }
    }
    ScanIdle(Kinds(lines));
  }

  lemma TaskLineNoBreak(t: Task)
    requires PlainTask(t)
    ensures '\n' !in TaskLine(t)
  {
    SingleLineNoBreak(t.goalId);
    SingleLineNoBreak(t.title);
    var mark := if t.status == Done then "[x]" else "[ ]";
    assert TaskLine(t) == "- " + mark + " [" + t.goalId + "] " + t.title;
  }

  lemma SectionNoBreaks(tasks: seq<Task>)
    requires forall k :: 0 <= k < |tasks| ==> PlainTask(tasks[k])
    ensures NoBreaks(TaskSection(tasks))
  {
    var section := TaskSection(tasks);
    forall k | 0 <= k < |section| ensures '\n' !in section[k] {
      if tasks != [] {
        TaskLineNoBreak(tasks[k]);
      }
    }
  }

  lemma DocumentLines(tasks: seq<Task>, tags: seq<String>)
    requires forall k :: 0 <= k < |tasks| ==> PlainTask(tasks[k])
    requires NoBreaks(tags)
    ensures Split(Serialize(tasks, tags), '\n') == PrependTagFrontmatter(SerializeLines(tasks), tags)
  {
    assert NoBreaks(HeaderLines());
    SectionNoBreaks(tasks);
    NoBreaksConcat(HeaderLines(), TaskSection(tasks));
    NoBreaksConcat(HeaderLines() + TaskSection(tasks), [""]);
    DocumentSplit(SerializeLines(tasks), tags);
  }

  lemma KindsOfDocument(tasks: seq<Task>, tags: seq<String>)
    ensures var head := Frontmatter(NormalizedTags(tags)) + HeaderLines()[..5];
      Kinds(PrependTagFrontmatter(SerializeLines(tasks), tags))
        == Kinds(head) + [OpensSection] + Kinds(TaskSection(tasks)) + [Other]
  {
    var head := Frontmatter(NormalizedTags(tags)) + HeaderLines()[..5];
    var section := TaskSection(tasks);
    var lines := PrependTagFrontmatter(SerializeLines(tasks), tags);
    assert lines == head + ["## タスク"] + section + [""];
    KindsAppend(head + ["## タスク"] + section, [""]);
    KindsAppend(head + ["## タスク"], section);
    KindsAppend(head, ["## タスク"]);
    assert Kinds(["## タスク"]) == [OpensSection] by {
      assert StartsWith("## タスク", "## タスク");
    }
    assert Kinds([""]) == [Other] by {
      assert MatchTask("") == None;
    }
  }

  /**
   * Reading back written tasks gives them in order with positional ids, with
   * `doing` read as `todo`; no tasks read back as none.
   */
  lemma RoundTrip(tasks: seq<Task>, tags: seq<String>)
    requires forall k :: 0 <= k < |tasks| ==> PlainTask(tasks[k])
    requires NoBreaks(tags)
    ensures ParseTasks(Serialize(tasks, tags)) == ReadBackAll(tasks)
  {
    DocumentLines(tasks, tags);
    KindsOfDocument(tasks, tags);
    var kh := Kinds(Frontmatter(NormalizedTags(tags)) + HeaderLines()[..5]);
    var ks := Kinds(TaskSection(tasks));
    HeaderIdle(tags);
    KindsOfSection(tasks);
    ScanDocument(kh, ks);
  }

  /** Idle lines, the section heading, the section and a closing blank line. */
  lemma ScanDocument(kh: seq<LineKind>, ks: seq<LineKind>)
    requires ScanLines(Scan(false, []), kh) == Scan(false, [])
    ensures ScanLines(Scan(false, []), kh + [OpensSection] + ks + [Other]).items
      == ScanLines(Scan(true, []), ks).items
  {
    ScanAppend(Scan(false, []), kh + [OpensSection] + ks, [Other]);
    ScanAppend(Scan(false, []), kh + [OpensSection], ks);
    ScanAppend(Scan(false, []), kh, [OpensSection]);
    assert ScanLines(Scan(false, []), [OpensSection]) == Scan(true, []) by {
      assert [OpensSection][..0] == [];
    }
    var after := ScanLines(Scan(true, []), ks);
    assert ScanLines(after, [Other]) == after by {
      assert [Other][..0] == [];
    }
  }

  /** After addTask, the list read back ends with the new task, behind the earlier ones. */
  lemma AddTaskReadsBack(content: String, goalTitle: String, title: String, now: int, tags: seq<String>)
    requires forall k :: 0 <= k < |ListTasks(content)| ==> PlainTask(ListTasks(content)[k])
    requires goalTitle != [] && SingleLine(goalTitle) && Trimmed(title) && SingleLine(title) && ']' !in title
    requires NoBreaks(tags)
    ensures var r := AddTask(content, goalTitle, title, now, tags);
      ListTasks(r.1) == ReadBackAll(ListTasks(content) + [r.0])
  {
    var r := AddTask(content, goalTitle, title, now, tags);
    var all := ListTasks(content) + [r.0];
    assert forall k :: 0 <= k < |all| ==> PlainTask(all[k]);
    RoundTrip(all, tags);
    assert r.1 != [] by {
      DocumentLines(all, tags);
      assert Split([], '\n') == [[]];
    }
  }
}
