/**
 * The issues document: `## status` group headings, each followed by `### title`
 * records carrying `ID:`, `Goal:`, `Tags:`, `Due:` and `Priority:` lines and a
 * free-text body.
 */
module Issues {
  import opened Text
  import opened MarkdownTags

  datatype Issue = Issue(
    id: String,
    title: String,
    status: String,
    body: String,
    linkedGoalId: Option<String>,
    tags: Option<seq<String>>,
    dueDate: Option<String>,
    priority: Option<String>)

  /** The status of a record that comes before any group heading. */
  const DefaultStatus: String := "Backlog"

  // ---------------------------------------------------------------------
  // reading

  datatype Field = IdField | GoalField | TagsField | DueField | PriorityField

  /** What a line means to the reader; field values are already trimmed. */
  datatype LineKind =
    | StatusLine(text: String)
    | TitleLine(text: String)
    | FieldLine(field: Field, value: String)
    | BodyLine(line: String)

  /**
   * `^##\s+(.+)$` opens a group, `^###\s+(.+)$` a record; a field line is
   * recognised by its prefix, which `replace` then removes (the prefix is the
   * first occurrence); everything else is body text.
   */
  function Classify(line: String): LineKind
  {
    match HeadingGroup(line, "##")
    case Some(g) => StatusLine(Trim(g))
    case None =>
      match HeadingGroup(line, "###")
      case Some(g) => TitleLine(Trim(g))
      case None =>
        match FieldOf(line)
        case Some(f) => FieldLine(f, Trim(line[|FieldPrefix(f)|..]))
        case None => BodyLine(line)
  }

  /** The marker that opens a field line. */
  function FieldPrefix(f: Field): String
  {
    match f
    case IdField => "ID:"
    case GoalField => "Goal:"
    case TagsField => "Tags:"
    case DueField => "Due:"
    case PriorityField => "Priority:"
  }

  /** The field a line names: the first marker, in the order ID, Goal, Tags, Due, Priority, that starts it. */
  function FieldOf(line: String): (r: Option<Field>)
    ensures r.Some? ==> StartsWith(line, FieldPrefix(r.value))
    ensures r.None? ==> forall f: Field :: !StartsWith(line, FieldPrefix(f))
  {
    if StartsWith(line, "ID:") then Some(IdField)
    else if StartsWith(line, "Goal:") then Some(GoalField)
    else if StartsWith(line, "Tags:") then Some(TagsField)
    else if StartsWith(line, "Due:") then Some(DueField)
    else if StartsWith(line, "Priority:") then Some(PriorityField)
    else None
  }

  function Kinds(lines: seq<String>): (r: seq<LineKind>)
    ensures |r| == |lines| && forall i :: 0 <= i < |lines| ==> r[i] == Classify(lines[i])
  {
    seq(|lines|, i requires 0 <= i < |lines| => Classify(lines[i]))
  }

  /** The pieces kept after trimming, in order. */
  function NonBlank(parts: seq<String>): (r: seq<String>)
    ensures forall k :: 0 <= k < |r| ==> r[k] != [] && Trimmed(r[k])
  {
    if parts == [] then []
    else (if Trim(parts[0]) == [] then [] else [Trim(parts[0])]) + NonBlank(parts[1..])
  }

  lemma NonBlankCons(p: String, ps: seq<String>)
    ensures NonBlank([p] + ps) == (if Trim(p) == [] then [] else [Trim(p)]) + NonBlank(ps)
  {
    assert ([p] + ps)[1..] == ps;
  }

  /** The comma-separated tags, each trimmed, the empty ones dropped. */
  function TagList(raw: String): seq<String>
  {
    NonBlank(Split(raw, ','))
  }

  /** A record being read: the issue so far and its body lines. */
  datatype Pending = Pending(issue: Issue, body: seq<String>)

  /** Reader state: the current group's status, the open record, the records closed so far. */
  datatype Scan = Scan(status: String, current: Option<Pending>, done: seq<Pending>)

  /** Closes the open record, if any. */
  function Flush(s: Scan): (r: Scan)
    ensures r.current == None && r.status == s.status
  {
    if s.current.None? then s else Scan(s.status, None, s.done + [s.current.value])
  }

  /** An empty value clears an optional field; an empty `ID:` keeps the id given at the heading. */
  function SetField(x: Issue, f: Field, v: String): Issue
  {
    match f
    case IdField => if v == [] then x else x.(id := v)
    case GoalField => x.(linkedGoalId := if v == [] then None else Some(v))
    case TagsField => x.(tags := if v == [] then None else Some(TagList(v)))
    case DueField => x.(dueDate := if v == [] then None else Some(v))
    case PriorityField => x.(priority := if v == [] then None else Some(v))
  }

  /** The record a heading opens, with the id `newId` and the group's status, or `Backlog` when there is none. */
  function Opened(newId: String, status: String, title: String): Issue
  {
    Issue(newId, title, if status == [] then DefaultStatus else status, [], None, None, None, None)
  }

  /** Lines outside any record are ignored. */
  function Step(newId: String, s: Scan, kind: LineKind): Scan
  {
    match kind
    case StatusLine(t) => Flush(s).(status := t)
    case TitleLine(t) => Scan(s.status, Some(Pending(Opened(newId, s.status, t), [])), Flush(s).done)
    case FieldLine(f, v) =>
      if s.current.None? then s
      else s.(current := Some(s.current.value.(issue := SetField(s.current.value.issue, f, v))))
    case BodyLine(line) =>
      if s.current.None? then s
      else s.(current := Some(s.current.value.(body := s.current.value.body + [line])))
  }

  function ScanLines(newId: String, s: Scan, kinds: seq<LineKind>): Scan
  {
    if kinds == [] then s else Step(newId, ScanLines(newId, s, kinds[..|kinds| - 1]), kinds[|kinds| - 1])
  }

  /** A closed record: its body is its body lines joined and trimmed. */
  function Finish(p: Pending): Issue
  {
    p.issue.(body := Trim(Join(p.body, "\n")))
  }

  function FinishAll(ps: seq<Pending>): (r: seq<Issue>)
    ensures |r| == |ps|
  {
    seq(|ps|, k requires 0 <= k < |ps| => Finish(ps[k]))
  }

  const Start: Scan := Scan([], None, [])

  /** The id every record gets at its heading: the clock's reading `now`. */
  function FreshId(now: int): String
  {
    "issue-" + IntToString(now)
  }

  function ParseIssues(content: String, now: int): seq<Issue>
  {
    FinishAll(Flush(ScanLines(FreshId(now), Start, Kinds(Split(content, '\n')))).done)
  }

  function Open(current: Option<Issue>, bodyLines: seq<String>): Option<Pending>
  {
    if current.Some? then Some(Pending(current.value, bodyLines)) else None
  }

  lemma FinishAllAppend(done: seq<Pending>, p: Pending)
    ensures FinishAll(done + [p]) == FinishAll(done) + [Finish(p)]
  {
    assert FinishAll(done + [p])[..|done|] == FinishAll(done);
  }

  /** flush: the open record, with its body joined and trimmed, is added to the issues read. */
  method FlushRecord(current: Option<Issue>, bodyLines: seq<String>, ghost done: seq<Pending>, issues: seq<Issue>)
    returns (issues': seq<Issue>, ghost done': seq<Pending>)
    requires issues == FinishAll(done)
    ensures Flush(Scan([], Open(current, bodyLines), done)).done == done'
    ensures issues' == FinishAll(done')
  {
    if current.None? {
      return issues, done;
    }
    done' := done + [Pending(current.value, bodyLines)];
    issues' := issues + [current.value.(body := Trim(Join(bodyLines, "\n")))];
    FinishAllAppend(done, Pending(current.value, bodyLines));
  }

  /** One line of the loop in parseIssues: a status heading closes the record and sets the group's status, a title heading closes it and opens the next, fields and body lines fill the open record. */
  method StepRecord(newId: String, kind: LineKind, status: String, current: Option<Issue>, bodyLines: seq<String>,
                    ghost done: seq<Pending>, issues: seq<Issue>)
    returns (status': String, current': Option<Issue>, bodyLines': seq<String>, ghost done': seq<Pending>, issues': seq<Issue>)
    requires issues == FinishAll(done)
    ensures Scan(status', Open(current', bodyLines'), done') == Step(newId, Scan(status, Open(current, bodyLines), done), kind)
    ensures issues' == FinishAll(done')
  {
    status', current', bodyLines', done', issues' := status, current, bodyLines, done, issues;
    match kind {
      case StatusLine(t) =>
        issues', done' := FlushRecord(current, bodyLines, done, issues);
        current', bodyLines' := None, [];
        status' := t;
      case TitleLine(t) =>
        issues', done' := FlushRecord(current, bodyLines, done, issues);
        current', bodyLines' := Some(Opened(newId, status, t)), [];
      case FieldLine(f, v) =>
        if current.Some? {
          current' := Some(SetField(current.value, f, v));
        }
      case BodyLine(line) =>
        if current.Some? {
          bodyLines' := bodyLines + [line];
        }
    }
  }

  /** The loop of parseIssues over the classified lines, with `flush` closing the last record. */
  method ScanRecords(newId: String, kinds: seq<LineKind>) returns (issues: seq<Issue>)
    ensures issues == FinishAll(Flush(ScanLines(newId, Start, kinds)).done)
  {
    ghost var done: seq<Pending> := [];
    var currentStatus: String := [];
    var current: Option<Issue> := None;
    var bodyLines: seq<String> := [];
    issues := [];
    var i := 0;
    while i < |kinds|
      invariant 0 <= i <= |kinds|
      invariant ScanLines(newId, Start, kinds[..i]) == Scan(currentStatus, Open(current, bodyLines), done)
      invariant issues == FinishAll(done)
    {
      assert kinds[..i + 1][..i] == kinds[..i];
      currentStatus, current, bodyLines, done, issues := StepRecord(newId, kinds[i], currentStatus, current, bodyLines, done, issues);
      i := i + 1;
    }
    assert kinds[..i] == kinds;
    issues, done := FlushRecord(current, bodyLines, done, issues);
  }

  /** parseIssues: every line is classified and the records are read from the classified lines. */
  method ReadIssues(content: String, now: int) returns (issues: seq<Issue>)
    ensures issues == ParseIssues(content, now)
  {
    issues := ScanRecords(FreshId(now), Kinds(Split(content, '\n')));
  }

  /** listIssues: a missing or empty document is seeded with an empty one. */
  datatype Listed = Listed(issues: seq<Issue>, write: Option<String>)

  // ---------------------------------------------------------------------
  // writing

  /** The distinct statuses, in the order they first occur. */
  function Statuses(xs: seq<Issue>): (r: seq<String>)
  {
    if xs == [] then []
    else
      var p := Statuses(xs[..|xs| - 1]);
      if xs[|xs| - 1].status in p then p else p + [xs[|xs| - 1].status]
  }

  /** The issues with status `st`, in input order. */
  function GroupOf(xs: seq<Issue>, st: String): (r: seq<Issue>)
    ensures |r| <= |xs|
    ensures forall k :: 0 <= k < |r| ==> r[k].status == st && r[k] in xs
  {
    if xs == [] then []
    else GroupOf(xs[..|xs| - 1], st) + (if xs[|xs| - 1].status == st then [xs[|xs| - 1]] else [])
  }

  /** The issues in the order they are written: group by group. */
  function Grouped(sts: seq<String>, xs: seq<Issue>): (r: seq<Issue>)
    ensures forall k :: 0 <= k < |r| ==> r[k] in xs
  {
    if sts == [] then [] else Grouped(sts[..|sts| - 1], xs) + GroupOf(xs, sts[|sts| - 1])
  }

  function Regroup(xs: seq<Issue>): seq<Issue>
  {
    Grouped(Statuses(xs), xs)
  }

  predicate Present(o: Option<String>)
  {
    o.Some? && o.value != []
  }

  /** The line a record's body takes: the body, or `- ` when it is empty. */
  function BodyText(x: Issue): String
  {
    if x.body != [] then x.body else "- "
  }

  /** The optional lines of a record, written only when set. */
  function GoalLine(x: Issue): seq<String>
  {
    if Present(x.linkedGoalId) then ["Goal: " + x.linkedGoalId.value] else []
  }

  function TagsLine(x: Issue): seq<String>
  {
    if x.tags.Some? && |x.tags.value| > 0 then ["Tags: " + Join(x.tags.value, ", ")] else []
  }

  function DueLine(x: Issue): seq<String>
  {
    if Present(x.dueDate) then ["Due: " + x.dueDate.value] else []
  }

  function PriorityLine(x: Issue): seq<String>
  {
    if Present(x.priority) then ["Priority: " + x.priority.value] else []
  }

  function RecordLines(x: Issue): seq<String>
  {
    ["### " + x.title, "ID: " + x.id] + GoalLine(x) + TagsLine(x) + DueLine(x) + PriorityLine(x)
    + [""] + [BodyText(x)] + [""]
  }

  function Records(xs: seq<Issue>): seq<String>
  {
    if xs == [] then [] else Records(xs[..|xs| - 1]) + RecordLines(xs[|xs| - 1])
  }

  function GroupLines(st: String, items: seq<Issue>): seq<String>
  {
    ["## " + st, ""] + Records(items)
  }

  function Sections(sts: seq<String>, xs: seq<Issue>): seq<String>
  {
    if sts == [] then [] else Sections(sts[..|sts| - 1], xs) + GroupLines(sts[|sts| - 1], GroupOf(xs, sts[|sts| - 1]))
  }

  function SerializeLines(xs: seq<Issue>): seq<String>
  {
    ["# Issues", ""] + Sections(Statuses(xs), xs)
  }

  function Serialize(xs: seq<Issue>, tags: seq<String>): String
  {
    Join(PrependTagFrontmatter(SerializeLines(xs), tags), "\n")
  }

  /** A status not seen yet has no issues. */
  lemma {:induction false} GroupOfAbsent(xs: seq<Issue>, st: String)
    requires st !in Statuses(xs)
    ensures GroupOf(xs, st) == []
  {
    if xs != [] {
      GroupOfAbsent(xs[..|xs| - 1], st);
    }
  }

  /** The grouping loop: a map from status to its issues, and the statuses in insertion order. */
  method GroupByStatus(xs: seq<Issue>) returns (order: seq<String>, grouped: map<String, seq<Issue>>)
    ensures order == Statuses(xs)
    ensures forall st :: st in grouped <==> st in order
    ensures forall st :: st in grouped ==> grouped[st] == GroupOf(xs, st)
  {
    order, grouped := [], map[];
    var i := 0;
    while i < |xs|
      invariant 0 <= i <= |xs|
      invariant order == Statuses(xs[..i])
      invariant forall st :: st in grouped <==> st in order
      invariant forall st :: st in grouped ==> grouped[st] == GroupOf(xs[..i], st)
    {
      var x := xs[i];
      assert xs[..i + 1][..i] == xs[..i] && xs[..i + 1][i] == x;
      if x.status !in grouped {
        GroupOfAbsent(xs[..i], x.status);
      }
      var list := if x.status in grouped then grouped[x.status] else [];
      list := list + [x];
      if x.status !in grouped {
        order := order + [x.status];
      }
      grouped := grouped[x.status := list];
      i := i + 1;
    }
    assert xs[..i] == xs;
  }

  /** The lines pushed for one record. */
  method PushRecord(lines: seq<String>, x: Issue) returns (lines': seq<String>)
    ensures lines' == lines + RecordLines(x)
  {
    var record := ["### " + x.title, "ID: " + x.id];
    if Present(x.linkedGoalId) {
      record := record + ["Goal: " + x.linkedGoalId.value];
    } else {
      assert record + GoalLine(x) == record;
    }
    if x.tags.Some? && |x.tags.value| > 0 {
      record := record + ["Tags: " + Join(x.tags.value, ", ")];
    } else {
      assert record + TagsLine(x) == record;
    }
    if Present(x.dueDate) {
      record := record + ["Due: " + x.dueDate.value];
    } else {
      assert record + DueLine(x) == record;
    }
    if Present(x.priority) {
      record := record + ["Priority: " + x.priority.value];
    } else {
      assert record + PriorityLine(x) == record;
    }
    record := record + [""];
    if x.body != [] {
      record := record + [x.body];
    } else {
      record := record + ["- "];
    }
    record := record + [""];
    lines' := lines + record;
  }

  /** The lines pushed for one status group: its heading, then its records in order. */
  method PushGroup(lines: seq<String>, st: String, items: seq<Issue>) returns (lines': seq<String>)
    ensures lines' == lines + GroupLines(st, items)
  {
    lines' := lines + ["## " + st, ""];
    ghost var written := ["## " + st, ""];
    var k := 0;
    while k < |items|
      invariant 0 <= k <= |items|
      invariant lines' == lines + written && written == GroupLines(st, items[..k])
    {
      assert items[..k + 1][..k] == items[..k];
      ConcatAssoc(lines, written, RecordLines(items[k]));
      ConcatAssoc(["## " + st, ""], Records(items[..k]), RecordLines(items[k]));
      lines' := PushRecord(lines', items[k]);
      written := written + RecordLines(items[k]);
      k := k + 1;
    }
    assert items[..k] == items;
  }

  /** serializeIssues: the groups written in insertion order, each issue in input order. */
  method WriteIssues(xs: seq<Issue>, tags: seq<String>) returns (content: String)
    ensures content == Serialize(xs, tags)
  {
    var order, grouped := GroupByStatus(xs);
    var lines := ["# Issues", ""];
    var j := 0;
    while j < |order|
      invariant 0 <= j <= |order|
      invariant lines == ["# Issues", ""] + Sections(order[..j], xs)
    {
      assert order[..j + 1][..j] == order[..j];
      ConcatAssoc(["# Issues", ""], Sections(order[..j], xs), GroupLines(order[j], GroupOf(xs, order[j])));
      lines := PushGroup(lines, order[j], grouped[order[j]]);
      j := j + 1;
    }
    assert order[..j] == order;
    content := Join(PrependTagFrontmatter(lines, tags), "\n");
  }

  // ---------------------------------------------------------------------
  // round trip

  /** An optional field as read back: an empty value is not written, so it reads back unset. */
  function KeepSet(o: Option<String>): Option<String>
  {
    if Present(o) then o else None
  }

  /** The fields a written record reads back with, before its body. */
  function ReadFields(x: Issue): Issue
  {
    Issue(x.id, x.title, x.status, [], KeepSet(x.linkedGoalId),
      if x.tags.Some? && |x.tags.value| > 0 then x.tags else None,
      KeepSet(x.dueDate), KeepSet(x.priority))
  }

  /** What reading back a written issue gives: an empty body comes back as `-`. */
  function ReadBack(x: Issue): Issue
  {
    ReadFields(x).(body := if x.body == [] then "-" else x.body)
  }

  function ReadBackAll(xs: seq<Issue>): (r: seq<Issue>)
    ensures |r| == |xs|
  {
    seq(|xs|, k requires 0 <= k < |xs| => ReadBack(xs[k]))
  }

  /** A value written after a field prefix. */
  predicate FieldText(v: String)
  {
    Trimmed(v) && '\n' !in v
  }

  predicate PlainTag(t: String)
  {
    t != [] && Trimmed(t) && ',' !in t && '\n' !in t
  }

  /** What reading a record's fields relies on: a status and an id, and tags that read back one by one. */
  predicate FieldsPlain(x: Issue)
  {
    x.status != [] && x.id != []
    && (x.tags.Some? ==> forall k :: 0 <= k < |x.tags.value| ==> PlainTag(x.tags.value[k]))
  }

  /**
   * An issue that reads back as itself: one-line non-blank title and status,
   * a non-empty id, trimmed one-line fields, tags without commas, and a body
   * that is empty or one trimmed line read as body text.
   */
  predicate PlainIssue(x: Issue)
  {
    FieldsPlain(x)
    && x.title != [] && Trimmed(x.title) && SingleLine(x.title)
    && Trimmed(x.status) && SingleLine(x.status) && FieldText(x.id)
    && (x.linkedGoalId.Some? ==> FieldText(x.linkedGoalId.value))
    && (x.tags.Some? ==> forall k :: 0 <= k < |x.tags.value| ==> PlainTag(x.tags.value[k]))
    && (x.dueDate.Some? ==> FieldText(x.dueDate.value))
    && (x.priority.Some? ==> FieldText(x.priority.value))
    && (x.body != [] ==> Trimmed(x.body) && '\n' !in x.body && Classify(x.body) == BodyLine(x.body))
  }

  // --- the tags line

  /** A tag after white space has no comma and trims to itself. */
  lemma PaddedTag(w: String, t: String)
    requires AllSpace(w) && PlainTag(t)
    ensures ',' !in w + t && Trim(w + t) == t
  {
    assert forall i :: 0 <= i < |w + t| ==> (w + t)[i] == (if i < |w| then w[i] else t[i - |w|]);
    TrimPadded(w, t, []);
    assert w + t + [] == w + t;
  }

  lemma CommaStep(w: String, ts: seq<String>)
    requires |ts| >= 2
    ensures w + Join(ts, ", ") == (w + ts[0]) + [','] + (" " + Join(ts[1..], ", "))
  {
    var rest := Join(ts[1..], ", ");
    ConcatAssoc(ts[0], ", ", rest);
    assert ", " == [','] + " ";
    ConcatAssoc([','], " ", rest);
    ConcatAssoc(w, ts[0], ", " + rest);
    ConcatAssoc(w + ts[0], [','], " " + rest);
  }

  lemma {:induction false} TagListOfJoin(w: String, ts: seq<String>)
    requires AllSpace(w) && |ts| >= 1 && forall k :: 0 <= k < |ts| ==> PlainTag(ts[k])
    ensures NonBlank(Split(w + Join(ts, ", "), ',')) == ts
    decreases |ts|
  {
    var first := w + ts[0];
    PaddedTag(w, ts[0]);
    if |ts| == 1 {
      SplitNoSep(first, ',');
      assert NonBlank([first])[1..] == [];
    } else {
      var rest := Join(ts[1..], ", ");
      CommaStep(w, ts);
      SplitAtSep(first, ',', " " + rest);
      NonBlankCons(first, Split(" " + rest, ','));
      TagListOfJoin(" ", ts[1..]);
      HeadTail(ts);
    }
  }

  lemma {:induction false} JoinTrimmed(ts: seq<String>)
    requires |ts| >= 1 && forall k :: 0 <= k < |ts| ==> PlainTag(ts[k])
    ensures Join(ts, ", ") != [] && Trimmed(Join(ts, ", "))
  {
    if |ts| > 1 {
      JoinTrimmed(ts[1..]);
      var j := Join(ts, ", ");
      assert j == ts[0] + ", " + Join(ts[1..], ", ");
      assert j[|j| - 1] == Join(ts[1..], ", ")[|Join(ts[1..], ", ")| - 1];
    }
  }

  /** The written tags line reads back as the tags. */
  lemma TagsReadBack(ts: seq<String>)
    requires |ts| >= 1 && forall k :: 0 <= k < |ts| ==> PlainTag(ts[k])
    ensures TagList(Join(ts, ", ")) == ts
  {
    TagListOfJoin([], ts);
    assert [] + Join(ts, ", ") == Join(ts, ", ");
  }

  // --- classifying written lines

  /** A line that is not a heading and names field `f`, followed by one space and a trimmed value, reads as that value. */
  lemma FieldClassified(line: String, f: Field, v: String)
    requires line != [] && line[0] != '#' && Trimmed(v)
    requires FieldOf(line) == Some(f) && line[|FieldPrefix(f)|..] == " " + v
    ensures Classify(line) == FieldLine(f, v)
  {
    NotHeading(line);
    AfterSpace(v);
  }

  lemma ClassifyId(v: String)
    requires Trimmed(v)
    ensures Classify("ID: " + v) == FieldLine(IdField, v)
  {
    var line := "ID: " + v;
    assert line[..3] == "ID:" && line[3..] == " " + v;
    FieldClassified(line, IdField, v);
  }

  lemma ClassifyGoal(v: String)
    requires Trimmed(v)
    ensures Classify("Goal: " + v) == FieldLine(GoalField, v)
  {
    var line := "Goal: " + v;
    assert !StartsWith(line, "ID:") by { assert line[..3][0] == line[0] == 'G'; }
    assert line[..5] == "Goal:" && line[5..] == " " + v;
    FieldClassified(line, GoalField, v);
  }

  lemma ClassifyTags(v: String)
    requires Trimmed(v)
    ensures Classify("Tags: " + v) == FieldLine(TagsField, v)
  {
    var line := "Tags: " + v;
    assert !StartsWith(line, "ID:") by { assert line[..3][0] == line[0] == 'T'; }
    assert !StartsWith(line, "Goal:") by { assert line[..5][0] == line[0]; }
    assert line[..5] == "Tags:" && line[5..] == " " + v;
    FieldClassified(line, TagsField, v);
  }

  lemma ClassifyDue(v: String)
    requires Trimmed(v)
    ensures Classify("Due: " + v) == FieldLine(DueField, v)
  {
    var line := "Due: " + v;
    assert !StartsWith(line, "ID:") by { assert line[..3][0] == line[0] == 'D'; }
    assert !StartsWith(line, "Goal:") by { assert line[..5][0] == line[0]; }
    assert !StartsWith(line, "Tags:") by { assert line[..5][0] == line[0]; }
    assert line[..4] == "Due:" && line[4..] == " " + v;
    FieldClassified(line, DueField, v);
  }

  lemma ClassifyPriority(v: String)
    requires Trimmed(v)
    ensures Classify("Priority: " + v) == FieldLine(PriorityField, v)
  {
    var line := "Priority: " + v;
    assert !StartsWith(line, "ID:") by { assert line[..3][0] == line[0] == 'P'; }
    assert !StartsWith(line, "Goal:") by { assert line[..5][0] == line[0]; }
    assert !StartsWith(line, "Tags:") by { assert line[..5][0] == line[0]; }
    assert !StartsWith(line, "Due:") by { assert line[..4][0] == line[0]; }
    assert "Priority: " == "Priority:" + " ";
    ConcatAssoc("Priority:", " ", v);
    assert line[..9] == "Priority:" && line[9..] == " " + v;
    FieldClassified(line, PriorityField, v);
  }

  lemma ClassifyTitle(t: String)
    requires t != [] && Trimmed(t) && SingleLine(t)
    ensures Classify("### " + t) == TitleLine(t)
  {
    var line := "### " + t;
    assert line[..2] == "##" && line[2..] == "# " + t;
    TrimStartOfNonSpace("# " + t);
    HeadingOfText("###", t);
    assert "###" + " " + t == line;
    TrimOfTrimmed(t);
  }

  lemma ClassifyStatus(st: String)
    requires st != [] && Trimmed(st) && SingleLine(st)
    ensures Classify("## " + st) == StatusLine(st)
  {
    HeadingOfText("##", st);
    assert "##" + " " + st == "## " + st;
    TrimOfTrimmed(st);
  }

  lemma ClassifyPlaceholders()
    ensures Classify("") == BodyLine("") && Classify("- ") == BodyLine("- ")
  {
    NotHeading("- ");
  }

  // --- the fold over written lines

  lemma KindsAppend(a: seq<String>, b: seq<String>)
    ensures Kinds(a + b) == Kinds(a) + Kinds(b)
  {
  }

  lemma {:induction false} ScanAppend(newId: String, s: Scan, a: seq<LineKind>, b: seq<LineKind>)
    ensures ScanLines(newId, s, a + b) == ScanLines(newId, ScanLines(newId, s, a), b)
    decreases |b|
  {
    if b == [] {
      assert a + b == a;
    } else {
      assert (a + b)[..|a + b| - 1] == a + b[..|b| - 1];
      ScanAppend(newId, s, a, b[..|b| - 1]);
    }
  }

  /** Outside a record, lines that are neither group nor record headings change nothing. */
  lemma {:induction false} ScanIdle(newId: String, s: Scan, ks: seq<LineKind>)
    requires s.current == None
    requires forall k :: 0 <= k < |ks| ==> !ks[k].StatusLine? && !ks[k].TitleLine?
    ensures ScanLines(newId, s, ks) == s
  {
    if ks != [] {
      ScanIdle(newId, s, ks[..|ks| - 1]);
    }
  }

  /** The record a written issue leaves open: its fields, and its body between two blank lines. */
  function Pend(x: Issue): Pending
  {
    Pending(ReadFields(x), ["", BodyText(x), ""])
  }

  function Pends(xs: seq<Issue>): (r: seq<Pending>)
    ensures |r| == |xs|
  {
    seq(|xs|, k requires 0 <= k < |xs| => Pend(xs[k]))
  }

  function OptKind(present: bool, f: Field, v: String): seq<LineKind>
  {
    if present then [FieldLine(f, v)] else []
  }

  function TagsText(x: Issue): String
  {
    if x.tags.Some? then Join(x.tags.value, ", ") else []
  }

  function HasTags(x: Issue): bool
  {
    x.tags.Some? && |x.tags.value| > 0
  }

  function Val(o: Option<String>): String
  {
    if o.Some? then o.value else []
  }

  /** The kinds of a written record's lines. */
  function RecordKinds(x: Issue): seq<LineKind>
  {
    [TitleLine(x.title), FieldLine(IdField, x.id)]
    + OptKind(Present(x.linkedGoalId), GoalField, Val(x.linkedGoalId))
    + OptKind(HasTags(x), TagsField, TagsText(x))
    + OptKind(Present(x.dueDate), DueField, Val(x.dueDate))
    + OptKind(Present(x.priority), PriorityField, Val(x.priority))
    + [BodyLine("")] + [BodyLine(BodyText(x))] + [BodyLine("")]
  }

  lemma KindsOne(line: String)
    ensures Kinds([line]) == [Classify(line)]
  {
  }

  lemma RecordHeadKinds(x: Issue)
    requires PlainIssue(x)
    ensures Kinds(["### " + x.title, "ID: " + x.id]) == [TitleLine(x.title), FieldLine(IdField, x.id)]
  {
    ClassifyTitle(x.title);
    ClassifyId(x.id);
  }

  lemma RecordOptKinds(x: Issue)
    requires PlainIssue(x)
    ensures Kinds(GoalLine(x)) == OptKind(Present(x.linkedGoalId), GoalField, Val(x.linkedGoalId))
    ensures Kinds(TagsLine(x)) == OptKind(HasTags(x), TagsField, TagsText(x))
    ensures Kinds(DueLine(x)) == OptKind(Present(x.dueDate), DueField, Val(x.dueDate))
    ensures Kinds(PriorityLine(x)) == OptKind(Present(x.priority), PriorityField, Val(x.priority))
  {
    GoalKinds(x);
    TagsKinds(x);
    DueKinds(x);
    PriorityKinds(x);
  }

  lemma OptLineKinds(present: bool, line: String, f: Field, v: String)
    requires present ==> Classify(line) == FieldLine(f, v)
    ensures Kinds(if present then [line] else []) == OptKind(present, f, v)
  {
  }

  lemma GoalKinds(x: Issue)
    requires PlainIssue(x)
    ensures Kinds(GoalLine(x)) == OptKind(Present(x.linkedGoalId), GoalField, Val(x.linkedGoalId))
  {
    if Present(x.linkedGoalId) { ClassifyGoal(x.linkedGoalId.value); }
    OptLineKinds(Present(x.linkedGoalId), "Goal: " + Val(x.linkedGoalId), GoalField, Val(x.linkedGoalId));
  }

  lemma TagsKinds(x: Issue)
    requires PlainIssue(x)
    ensures Kinds(TagsLine(x)) == OptKind(HasTags(x), TagsField, TagsText(x))
  {
    if HasTags(x) {
      JoinTrimmed(x.tags.value);
      ClassifyTags(TagsText(x));
    }
    OptLineKinds(HasTags(x), "Tags: " + TagsText(x), TagsField, TagsText(x));
  }

  lemma DueKinds(x: Issue)
    requires PlainIssue(x)
    ensures Kinds(DueLine(x)) == OptKind(Present(x.dueDate), DueField, Val(x.dueDate))
  {
    if Present(x.dueDate) { ClassifyDue(x.dueDate.value); }
    OptLineKinds(Present(x.dueDate), "Due: " + Val(x.dueDate), DueField, Val(x.dueDate));
  }

  lemma PriorityKinds(x: Issue)
    requires PlainIssue(x)
    ensures Kinds(PriorityLine(x)) == OptKind(Present(x.priority), PriorityField, Val(x.priority))
  {
    if Present(x.priority) { ClassifyPriority(x.priority.value); }
    OptLineKinds(Present(x.priority), "Priority: " + Val(x.priority), PriorityField, Val(x.priority));
  }

  lemma RecordTailKinds(x: Issue)
    requires PlainIssue(x)
    ensures Kinds([""]) == [BodyLine("")] && Kinds([BodyText(x)]) == [BodyLine(BodyText(x))]
  {
    ClassifyPlaceholders();
  }

  lemma RecordClassify(x: Issue)
    requires PlainIssue(x)
    ensures Kinds(RecordLines(x)) == RecordKinds(x)
  {
    RecordHeadKinds(x);
    RecordOptKinds(x);
    RecordTailKinds(x);
    var h := ["### " + x.title, "ID: " + x.id];
    var a1 := h + GoalLine(x);
    var a2 := a1 + TagsLine(x);
    var a3 := a2 + DueLine(x);
    var a4 := a3 + PriorityLine(x);
    var a5 := a4 + [""];
    var a6 := a5 + [BodyText(x)];
    KindsAppend(h, GoalLine(x));
    KindsAppend(a1, TagsLine(x));
    KindsAppend(a2, DueLine(x));
    KindsAppend(a3, PriorityLine(x));
    KindsAppend(a4, [""]);
    KindsAppend(a5, [BodyText(x)]);
    KindsAppend(a6, [""]);
  }

  lemma ScanOpt(newId: String, s: Scan, present: bool, f: Field, v: String)
    ensures ScanLines(newId, s, OptKind(present, f, v)) == if present then Step(newId, s, FieldLine(f, v)) else s
  {
    if present {
      assert OptKind(present, f, v)[..0] == [];
    }
  }

  lemma ScanSingle(newId: String, s: Scan, k: LineKind)
    ensures ScanLines(newId, s, [k]) == Step(newId, s, k)
  {
    assert [k][..0] == [];
  }

  /** The fields a record's heading and field lines leave. */
  lemma RecordHeadScan(newId: String, s: Scan, x: Issue)
    requires FieldsPlain(x) && s.status == x.status
    ensures var a := [TitleLine(x.title), FieldLine(IdField, x.id)]
      + OptKind(Present(x.linkedGoalId), GoalField, Val(x.linkedGoalId))
      + OptKind(HasTags(x), TagsField, TagsText(x))
      + OptKind(Present(x.dueDate), DueField, Val(x.dueDate))
      + OptKind(Present(x.priority), PriorityField, Val(x.priority));
      ScanLines(newId, s, a) == Scan(s.status, Some(Pending(ReadFields(x), [])), Flush(s).done)
  {
    var h := [TitleLine(x.title), FieldLine(IdField, x.id)];
    var g := OptKind(Present(x.linkedGoalId), GoalField, Val(x.linkedGoalId));
    var t := OptKind(HasTags(x), TagsField, TagsText(x));
    var d := OptKind(Present(x.dueDate), DueField, Val(x.dueDate));
    var p := OptKind(Present(x.priority), PriorityField, Val(x.priority));
    assert h == [TitleLine(x.title)] + [FieldLine(IdField, x.id)];
    ScanAppend(newId, s, [TitleLine(x.title)], [FieldLine(IdField, x.id)]);
    ScanSingle(newId, s, TitleLine(x.title));
    ScanSingle(newId, Step(newId, s, TitleLine(x.title)), FieldLine(IdField, x.id));
    var s0 := ScanLines(newId, s, h);
    var base := Issue(x.id, x.title, x.status, [], None, None, None, None);
    assert s0 == Scan(s.status, Some(Pending(base, [])), Flush(s).done);
    ScanAppend(newId, s, h, g);
    ScanOpt(newId, s0, Present(x.linkedGoalId), GoalField, Val(x.linkedGoalId));
    var s1 := ScanLines(newId, s, h + g);
    var i1 := base.(linkedGoalId := KeepSet(x.linkedGoalId));
    assert s1 == Scan(s.status, Some(Pending(i1, [])), Flush(s).done);
    ScanAppend(newId, s, h + g, t);
    ScanOpt(newId, s1, HasTags(x), TagsField, TagsText(x));
    if HasTags(x) {
      JoinTrimmed(x.tags.value);
      TagsReadBack(x.tags.value);
    }
    var s2 := ScanLines(newId, s, h + g + t);
    var i2 := i1.(tags := if HasTags(x) then x.tags else None);
    assert s2 == Scan(s.status, Some(Pending(i2, [])), Flush(s).done);
    ScanAppend(newId, s, h + g + t, d);
    ScanOpt(newId, s2, Present(x.dueDate), DueField, Val(x.dueDate));
    var s3 := ScanLines(newId, s, h + g + t + d);
    var i3 := i2.(dueDate := KeepSet(x.dueDate));
    assert s3 == Scan(s.status, Some(Pending(i3, [])), Flush(s).done);
    ScanAppend(newId, s, h + g + t + d, p);
    ScanOpt(newId, s3, Present(x.priority), PriorityField, Val(x.priority));
  }

  /** Three body lines after an open record are kept as its body lines. */
  lemma BodyScan(newId: String, s: Scan, a: seq<LineKind>, p: Pending, bt: String)
    requires ScanLines(newId, s, a).current == Some(p) && p.body == []
    ensures var b := a + [BodyLine("")] + [BodyLine(bt)] + [BodyLine("")];
      ScanLines(newId, s, b) == ScanLines(newId, s, a).(current := Some(p.(body := ["", bt, ""])))
  {
    var b1 := a + [BodyLine("")];
    var b2 := b1 + [BodyLine(bt)];
    ScanAppend(newId, s, a, [BodyLine("")]);
    ScanSingle(newId, ScanLines(newId, s, a), BodyLine(""));
    ScanAppend(newId, s, b1, [BodyLine(bt)]);
    ScanSingle(newId, ScanLines(newId, s, b1), BodyLine(bt));
    ScanAppend(newId, s, b2, [BodyLine("")]);
    ScanSingle(newId, ScanLines(newId, s, b2), BodyLine(""));
    assert [] + [""] == [""];
    assert [""] + [bt] + [""] == ["", bt, ""];
  }

  /** A written record, read in its group, leaves itself open with its fields and body lines. */
  lemma RecordScan(newId: String, s: Scan, x: Issue)
    requires FieldsPlain(x) && s.status == x.status
    ensures ScanLines(newId, s, RecordKinds(x)) == Scan(s.status, Some(Pend(x)), Flush(s).done)
  {
    var a := [TitleLine(x.title), FieldLine(IdField, x.id)]
      + OptKind(Present(x.linkedGoalId), GoalField, Val(x.linkedGoalId))
      + OptKind(HasTags(x), TagsField, TagsText(x))
      + OptKind(Present(x.dueDate), DueField, Val(x.dueDate))
      + OptKind(Present(x.priority), PriorityField, Val(x.priority));
    RecordHeadScan(newId, s, x);
    assert RecordKinds(x) == a + [BodyLine("")] + [BodyLine(BodyText(x))] + [BodyLine("")];
    BodyScan(newId, s, a, Pending(ReadFields(x), []), BodyText(x));
  }

  /** The kinds of the lines of a group's records. */
  function RecordsKinds(xs: seq<Issue>): seq<LineKind>
  {
    if xs == [] then [] else RecordsKinds(xs[..|xs| - 1]) + RecordKinds(xs[|xs| - 1])
  }

  /** The kinds of the lines of the groups written. */
  function SectionsKinds(sts: seq<String>, xs: seq<Issue>): seq<LineKind>
  {
    if sts == [] then []
    else SectionsKinds(sts[..|sts| - 1], xs) + [StatusLine(sts[|sts| - 1]), BodyLine("")] + RecordsKinds(GroupOf(xs, sts[|sts| - 1]))
  }

  lemma {:induction false} RecordsClassify(xs: seq<Issue>)
    requires forall k :: 0 <= k < |xs| ==> PlainIssue(xs[k])
    ensures Kinds(Records(xs)) == RecordsKinds(xs)
    decreases |xs|
  {
    if xs != [] {
      var init := xs[..|xs| - 1];
      RecordsClassify(init);
      RecordClassify(xs[|xs| - 1]);
      KindsAppend(Records(init), RecordLines(xs[|xs| - 1]));
    }
  }

  lemma GroupHeadKinds(st: String)
    requires st != [] && Trimmed(st) && SingleLine(st)
    ensures Kinds(["## " + st, ""]) == [StatusLine(st), BodyLine("")]
  {
    ClassifyStatus(st);
    ClassifyPlaceholders();
  }

  lemma GroupClassify(st: String, g: seq<Issue>)
    requires st != [] && Trimmed(st) && SingleLine(st)
    requires forall k :: 0 <= k < |g| ==> PlainIssue(g[k])
    ensures Kinds(GroupLines(st, g)) == [StatusLine(st), BodyLine("")] + RecordsKinds(g)
  {
    var h := ["## " + st, ""];
    assert GroupLines(st, g) == h + Records(g);
    KindsAppend(h, Records(g));
    GroupHeadKinds(st);
    RecordsClassify(g);
  }

  /** A status with an issue is one-line and trimmed, and so are that group's issues. */
  lemma GroupPlain(xs: seq<Issue>, st: String)
    requires forall k :: 0 <= k < |xs| ==> PlainIssue(xs[k])
    requires GroupOf(xs, st) != []
    ensures st != [] && Trimmed(st) && SingleLine(st)
    ensures forall k :: 0 <= k < |GroupOf(xs, st)| ==> PlainIssue(GroupOf(xs, st)[k]) && GroupOf(xs, st)[k].status == st
  {
    var g := GroupOf(xs, st);
    assert g[0] in xs;
    forall k | 0 <= k < |g| ensures PlainIssue(g[k]) {
      assert g[k] in xs;
    }
  }

  lemma {:induction false} SectionsClassify(sts: seq<String>, xs: seq<Issue>)
    requires forall k :: 0 <= k < |xs| ==> PlainIssue(xs[k])
    requires forall k :: 0 <= k < |sts| ==> GroupOf(xs, sts[k]) != []
    ensures Kinds(Sections(sts, xs)) == SectionsKinds(sts, xs)
    decreases |sts|
  {
    if sts != [] {
      var init := sts[..|sts| - 1];
      var st := sts[|sts| - 1];
      var g := GroupOf(xs, st);
      assert forall k :: 0 <= k < |init| ==> GroupOf(xs, init[k]) != [] by {
        assert forall k :: 0 <= k < |init| ==> init[k] == sts[k];
      }
      SectionsClassify(init, xs);
      GroupKinds(xs, st);
      KindsAppend(Sections(init, xs), GroupLines(st, g));
    }
  }

  /** The lines of a status that has issues classify as its heading, the blank line and its records. */
  lemma GroupKinds(xs: seq<Issue>, st: String)
    requires forall k :: 0 <= k < |xs| ==> PlainIssue(xs[k])
    requires GroupOf(xs, st) != []
    ensures Kinds(GroupLines(st, GroupOf(xs, st))) == [StatusLine(st), BodyLine("")] + RecordsKinds(GroupOf(xs, st))
  {
    GroupPlain(xs, st);
    GroupClassify(st, GroupOf(xs, st));
  }

  lemma PendsAppend(xs: seq<Issue>, ys: seq<Issue>)
    ensures Pends(xs + ys) == Pends(xs) + Pends(ys)
  {
  }

  /** The records of one group, read in that group, are all closed with their own fields and bodies. */
  lemma {:induction false} RecordsScan(newId: String, s: Scan, xs: seq<Issue>)
    requires forall k :: 0 <= k < |xs| ==> FieldsPlain(xs[k]) && xs[k].status == s.status
    ensures Flush(ScanLines(newId, s, RecordsKinds(xs))) == Scan(s.status, None, Flush(s).done + Pends(xs))
    decreases |xs|
  {
    if xs == [] {
      assert Flush(s).done + Pends(xs) == Flush(s).done;
    } else {
      var init := xs[..|xs| - 1];
      var x := xs[|xs| - 1];
      RecordsScan(newId, s, init);
      var s1 := ScanLines(newId, s, RecordsKinds(init));
      ScanAppend(newId, s, RecordsKinds(init), RecordKinds(x));
      RecordScan(newId, s1, x);
      assert Flush(ScanLines(newId, s, RecordsKinds(xs))).done == Flush(s1).done + [Pend(x)];
      assert Pends(xs) == Pends(init) + [Pend(x)] by {
        SnocParts(xs);
        PendsAppend(init, [x]);
        assert Pends([x]) == [Pend(x)];
      }
      ConcatAssoc(Flush(s).done, Pends(init), [Pend(x)]);
    }
  }

  /** A group heading closes what is open and sets the status its records take. */
  lemma GroupScan(newId: String, s: Scan, st: String, xs: seq<Issue>)
    requires forall k :: 0 <= k < |xs| ==> FieldsPlain(xs[k]) && xs[k].status == st
    ensures Flush(ScanLines(newId, s, [StatusLine(st), BodyLine("")] + RecordsKinds(xs)))
      == Scan(st, None, Flush(s).done + Pends(xs))
  {
    ScanAppend(newId, s, [StatusLine(st), BodyLine("")], RecordsKinds(xs));
    assert [StatusLine(st), BodyLine("")] == [StatusLine(st)] + [BodyLine("")];
    ScanAppend(newId, s, [StatusLine(st)], [BodyLine("")]);
    ScanSingle(newId, s, StatusLine(st));
    var s1 := Flush(s).(status := st);
    ScanSingle(newId, s1, BodyLine(""));
    RecordsScan(newId, s1, xs);
  }

  /** Every status written has at least one issue. */
  lemma {:induction false} StatusesGroups(xs: seq<Issue>)
    ensures forall k :: 0 <= k < |Statuses(xs)| ==> GroupOf(xs, Statuses(xs)[k]) != []
  {
    if xs != [] {
      var init := xs[..|xs| - 1];
      StatusesGroups(init);
      forall k | 0 <= k < |Statuses(xs)| ensures GroupOf(xs, Statuses(xs)[k]) != [] {
        var st := Statuses(xs)[k];
        if k < |Statuses(init)| {
          assert GroupOf(init, st) != [];
        }
      }
    }
  }

  /** A status is written at most once. */
  lemma {:induction false} StatusesDistinct(xs: seq<Issue>)
    ensures forall i, j :: 0 <= i < j < |Statuses(xs)| ==> Statuses(xs)[i] != Statuses(xs)[j]
  {
    if xs != [] {
      StatusesDistinct(xs[..|xs| - 1]);
    }
  }

  /** Every status of the input is written. */
  lemma {:induction false} StatusesCover(xs: seq<Issue>)
    ensures forall k :: 0 <= k < |xs| ==> xs[k].status in Statuses(xs)
  {
    if xs != [] {
      StatusesCover(xs[..|xs| - 1]);
    }
  }

  /** The groups written, read back one after the other. */
  lemma {:induction false} SectionsScan(newId: String, s: Scan, sts: seq<String>, xs: seq<Issue>)
    requires forall k :: 0 <= k < |xs| ==> FieldsPlain(xs[k])
    ensures Flush(ScanLines(newId, s, SectionsKinds(sts, xs))).done == Flush(s).done + Pends(Grouped(sts, xs))
    decreases |sts|
  {
    if sts == [] {
      assert Flush(s).done + Pends([]) == Flush(s).done;
    } else {
      var init := sts[..|sts| - 1];
      var st := sts[|sts| - 1];
      var g := GroupOf(xs, st);
      SectionsScan(newId, s, init, xs);
      var s1 := ScanLines(newId, s, SectionsKinds(init, xs));
      var gk := [StatusLine(st), BodyLine("")] + RecordsKinds(g);
      ScanAppend(newId, s, SectionsKinds(init, xs), gk);
      assert SectionsKinds(sts, xs) == SectionsKinds(init, xs) + gk;
      forall k | 0 <= k < |g| ensures FieldsPlain(g[k]) && g[k].status == st {
        assert g[k] in xs;
      }
      GroupScan(newId, s1, st, g);
      assert Flush(ScanLines(newId, s, SectionsKinds(sts, xs))).done == Flush(s1).done + Pends(g);
      assert Grouped(sts, xs) == Grouped(init, xs) + g;
      PendsAppend(Grouped(init, xs), g);
      ConcatAssoc(Flush(s).done, Pends(Grouped(init, xs)), Pends(g));
    }
  }

  /** A record's body lines, joined and trimmed, give back its body, or `-` for an empty one. */
  lemma FinishPend(x: Issue)
    requires x.body == [] || Trimmed(x.body)
    ensures Finish(Pend(x)) == ReadBack(x)
  {
    var bt := BodyText(x);
    assert ["", bt, ""] == [[]] + [bt] + [[]];
    JoinBetweenBlanks([bt], "\n");
    JoinTwo(bt, bt, "\n");
    if x.body == [] {
      assert "\n" + bt + "\n" == "\n" + "-" + " \n";
      TrimPadded("\n", "-", " \n");
    } else {
      TrimPadded("\n", bt, "\n");
    }
  }

  lemma FinishPends(xs: seq<Issue>)
    requires forall k :: 0 <= k < |xs| ==> xs[k].body == [] || Trimmed(xs[k].body)
    ensures FinishAll(Pends(xs)) == ReadBackAll(xs)
  {
    forall k | 0 <= k < |xs| ensures FinishAll(Pends(xs))[k] == ReadBackAll(xs)[k] {
      FinishPend(xs[k]);
    }
  }

  // --- the written lines are single lines

  lemma RecordNoBreaks(x: Issue)
    requires PlainIssue(x)
    ensures NoBreaks(RecordLines(x))
  {
    SingleLineNoBreak(x.title);
    assert NoBreaks(["### " + x.title, "ID: " + x.id]);
    if x.tags.Some? && |x.tags.value| > 0 {
      JoinAvoids(x.tags.value, ", ", '\n');
    }
    NoBreaksConcat(["### " + x.title, "ID: " + x.id], GoalLine(x));
    NoBreaksConcat(["### " + x.title, "ID: " + x.id] + GoalLine(x), TagsLine(x));
    NoBreaksConcat(["### " + x.title, "ID: " + x.id] + GoalLine(x) + TagsLine(x), DueLine(x));
    NoBreaksConcat(["### " + x.title, "ID: " + x.id] + GoalLine(x) + TagsLine(x) + DueLine(x), PriorityLine(x));
    var a := ["### " + x.title, "ID: " + x.id] + GoalLine(x) + TagsLine(x) + DueLine(x) + PriorityLine(x);
    NoBreaksConcat(a, [""]);
    NoBreaksConcat(a + [""], [BodyText(x)]);
    NoBreaksConcat(a + [""] + [BodyText(x)], [""]);
  }

  lemma {:induction false} RecordsNoBreaks(xs: seq<Issue>)
    requires forall k :: 0 <= k < |xs| ==> PlainIssue(xs[k])
    ensures NoBreaks(Records(xs))
    decreases |xs|
  {
    if xs != [] {
      RecordsNoBreaks(xs[..|xs| - 1]);
      RecordNoBreaks(xs[|xs| - 1]);
      NoBreaksConcat(Records(xs[..|xs| - 1]), RecordLines(xs[|xs| - 1]));
    }
  }

  lemma {:induction false} SectionsNoBreaks(sts: seq<String>, xs: seq<Issue>)
    requires forall k :: 0 <= k < |xs| ==> PlainIssue(xs[k])
    requires forall k :: 0 <= k < |sts| ==> GroupOf(xs, sts[k]) != []
    ensures NoBreaks(Sections(sts, xs))
    decreases |sts|
  {
    if sts != [] {
      var st := sts[|sts| - 1];
      var init := sts[..|sts| - 1];
      forall k | 0 <= k < |init| ensures GroupOf(xs, init[k]) != [] {
        assert init[k] == sts[k];
      }
      SectionsNoBreaks(init, xs);
      GroupLinesNoBreaks(xs, st);
      NoBreaksConcat(Sections(init, xs), GroupLines(st, GroupOf(xs, st)));
    }
  }

  lemma GroupLinesNoBreaks(xs: seq<Issue>, st: String)
    requires forall k :: 0 <= k < |xs| ==> PlainIssue(xs[k])
    requires GroupOf(xs, st) != []
    ensures NoBreaks(GroupLines(st, GroupOf(xs, st)))
  {
    GroupPlain(xs, st);
    SingleLineNoBreak(st);
    RecordsNoBreaks(GroupOf(xs, st));
    assert NoBreaks(["## " + st, ""]);
    NoBreaksConcat(["## " + st, ""], Records(GroupOf(xs, st)));
  }

  lemma SerializeNoBreaks(xs: seq<Issue>)
    requires forall k :: 0 <= k < |xs| ==> PlainIssue(xs[k])
    ensures NoBreaks(SerializeLines(xs))
  {
    StatusesGroups(xs);
    SectionsNoBreaks(Statuses(xs), xs);
    assert NoBreaks(["# Issues", ""]);
    NoBreaksConcat(["# Issues", ""], Sections(Statuses(xs), xs));
  }

  // --- the lines before the first group

  /** A line that does not start with `##` opens neither a group nor a record. */
  lemma ClassifyIdle(line: String)
    requires !StartsWith(line, "##")
    ensures !Classify(line).StatusLine? && !Classify(line).TitleLine?
  {
    assert !StartsWith(line, "###") by {
      if |line| >= 3 {
        assert line[..3][..2] == line[..2];
      }
    }
  }

  /** Outside a record, lines none of which starts with `##` change nothing. */
  lemma LinesIdle(newId: String, s: Scan, lines: seq<String>)
    requires s.current == None
    requires forall k :: 0 <= k < |lines| ==> !StartsWith(lines[k], "##")
    ensures ScanLines(newId, s, Kinds(lines)) == s
  {
    var ks := Kinds(lines);
    forall k | 0 <= k < |ks| ensures !ks[k].StatusLine? && !ks[k].TitleLine? {
      ClassifyIdle(lines[k]);
    }
    ScanIdle(newId, s, ks);
  }

  /** The front matter and the document title change nothing. */
  lemma HeadIdle(newId: String, tags: seq<String>)
    ensures ScanLines(newId, Start, Kinds(Frontmatter(tags) + ["# Issues", ""])) == Start
  {
    var head := Frontmatter(tags) + ["# Issues", ""];
    FrontmatterNoHeading(tags);
    assert "# Issues"[..2][1] == ' ';
    NoHashStart("");
    LinesIdle(newId, Start, head);
  }

  /**
   * Round trip: reading back a written document gives the issues grouped by
   * status in first-seen order, each with its own fields, `-` for an empty body.
   */
  lemma RoundTrip(xs: seq<Issue>, tags: seq<String>, now: int)
    requires forall k :: 0 <= k < |xs| ==> PlainIssue(xs[k])
    requires NoBreaks(tags)
    ensures ParseIssues(Serialize(xs, tags), now) == ReadBackAll(Regroup(xs))
  {
    DocumentScan(xs, tags, FreshId(now));
    forall k | 0 <= k < |Regroup(xs)| ensures Regroup(xs)[k].body == [] || Trimmed(Regroup(xs)[k].body) {
      assert Regroup(xs)[k] in xs;
    }
    FinishPends(Regroup(xs));
  }

  /** Scanning a written document collects one pending record per issue, group by group. */
  lemma DocumentScan(xs: seq<Issue>, tags: seq<String>, newId: String)
    requires forall k :: 0 <= k < |xs| ==> PlainIssue(xs[k])
    requires NoBreaks(tags)
    ensures Flush(ScanLines(newId, Start, Kinds(Split(Serialize(xs, tags), '\n')))).done == Pends(Regroup(xs))
  {
    var sts := Statuses(xs);
    var head := Frontmatter(NormalizedTags(tags)) + ["# Issues", ""];
    DocumentLinesOf(xs, tags);
    StatusesGroups(xs);
    KindsAppend(head, Sections(sts, xs));
    SectionsClassify(sts, xs);
    HeadIdle(newId, NormalizedTags(tags));
    ScanAppend(newId, Start, Kinds(head), SectionsKinds(sts, xs));
    SectionsScan(newId, Start, sts, xs);
    assert [] + Pends(Regroup(xs)) == Pends(Regroup(xs));
  }

  /** The lines of a written document: front matter, title, then the groups. */
  lemma DocumentLinesOf(xs: seq<Issue>, tags: seq<String>)
    requires forall k :: 0 <= k < |xs| ==> PlainIssue(xs[k])
    requires NoBreaks(tags)
    ensures Split(Serialize(xs, tags), '\n') == Frontmatter(NormalizedTags(tags)) + ["# Issues", ""] + Sections(Statuses(xs), xs)
  {
    var lines := SerializeLines(xs);
    SerializeNoBreaks(xs);
    DocumentSplit(lines, tags);
    ConcatAssoc(Frontmatter(NormalizedTags(tags)), ["# Issues", ""], Sections(Statuses(xs), xs));
  }

  // --- regrouping loses and adds nothing

  lemma GroupOfSnoc(xs: seq<Issue>, x: Issue, st: String)
    ensures GroupOf(xs + [x], st) == GroupOf(xs, st) + (if x.status == st then [x] else [])
  {
    assert (xs + [x])[..|xs|] == xs;
  }

  /** The issues of an optional one-issue tail, counted. */
  function Opt(b: bool, x: Issue): multiset<Issue>
  {
    if b then multiset{x} else multiset{}
  }

  lemma MultisetSnocOpt(g: seq<Issue>, x: Issue, b: bool)
    ensures multiset(g + (if b then [x] else [])) == multiset(g) + Opt(b, x)
  {
  }

  lemma MultisetStep(ma: multiset<Issue>, ma': multiset<Issue>, mg: multiset<Issue>, mg': multiset<Issue>, x: Issue, inInit: bool, isSt: bool)
    requires ma' == ma + Opt(inInit, x) && mg' == mg + Opt(isSt, x) && !(inInit && isSt)
    ensures ma' + mg' == ma + mg + Opt(inInit || isSt, x)
  {
  }

  lemma {:induction false} GroupedSnoc(sts: seq<String>, xs: seq<Issue>, x: Issue)
    requires forall i, j :: 0 <= i < j < |sts| ==> sts[i] != sts[j]
    ensures multiset(Grouped(sts, xs + [x])) == multiset(Grouped(sts, xs)) + Opt(x.status in sts, x)
    decreases |sts|
  {
    if sts != [] {
      var init := sts[..|sts| - 1];
      var st := sts[|sts| - 1];
      GroupedSnoc(init, xs, x);
      GroupOfSnoc(xs, x, st);
      var a, a' := Grouped(init, xs), Grouped(init, xs + [x]);
      var g := GroupOf(xs, st);
      MultisetSnocOpt(g, x, x.status == st);
      assert st !in init;
      MultisetStep(multiset(a), multiset(a'), multiset(g), multiset(GroupOf(xs + [x], st)), x, x.status in init, x.status == st);
      assert x.status in sts <==> x.status in init || x.status == st;
    }
  }

  /** Writing regroups the issues without losing, duplicating or inventing any. */
  lemma {:induction false} RegroupPermutation(xs: seq<Issue>)
    ensures multiset(Regroup(xs)) == multiset(xs)
  {
    if xs != [] {
      var init := xs[..|xs| - 1];
      var x := xs[|xs| - 1];
      var p := Statuses(init);
      assert init + [x] == xs;
      RegroupPermutation(init);
      assert multiset(Grouped(p, xs)) == multiset(Grouped(p, init)) + Opt(x.status in p, x) by {
        StatusesDistinct(init);
        GroupedSnoc(p, init, x);
      }
      if x.status !in p {
        assert Grouped(p + [x.status], xs) == Grouped(p, xs) + GroupOf(xs, x.status) by {
          assert (p + [x.status])[..|p|] == p;
        }
        assert GroupOf(xs, x.status) == [x] by {
          GroupOfAbsent(init, x.status);
        }
      }
    }
  }

  // ---------------------------------------------------------------------
  // the service

  /** listIssues: a missing or empty document is replaced by an empty one. */
  function ListIssues(content: String, tags: seq<String>, now: int): (r: Listed)
    ensures content == [] ==> r.issues == [] && r.write == Some(Serialize([], tags))
    ensures content != [] ==> r.write == None && r.issues == ParseIssues(content, now)
  {
    if content == [] then Listed([], Some(Serialize([], tags))) else Listed(ParseIssues(content, now), None)
  }

  lemma SerializeNonEmpty(xs: seq<Issue>, tags: seq<String>)
    ensures Serialize(xs, tags) != []
  {
    var all := PrependTagFrontmatter(SerializeLines(xs), tags);
    assert |all| >= 2;
    assert Join(all, "\n") == all[0] + "\n" + Join(all[1..], "\n");
  }

  /** Once seeded, the document lists no issues and is left as it is. */
  lemma ListAfterSeed(tags: seq<String>, now: int, later: int)
    requires NoBreaks(tags)
    ensures ListIssues(ListIssues([], tags, now).write.value, tags, later) == Listed([], None)
  {
    RoundTrip([], tags, later);
    SerializeNonEmpty([], tags);
  }

  /** saveIssues then listIssues gives the saved issues back, regrouped by status. */
  lemma ListAfterSave(xs: seq<Issue>, tags: seq<String>, now: int)
    requires forall k :: 0 <= k < |xs| ==> PlainIssue(xs[k])
    requires NoBreaks(tags)
    ensures ListIssues(Serialize(xs, tags), tags, now) == Listed(ReadBackAll(Regroup(xs)), None)
  {
    RoundTrip(xs, tags, now);
    SerializeNonEmpty(xs, tags);
  }
}
