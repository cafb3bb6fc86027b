/**
 * The goals document: one `## <level>目標` heading per level of the seven-level
 * hierarchy, each followed by `### title` records carrying `ID:`, `親:` (parent),
 * `期限:` (due date), `展開:` (expanded) and `順序:` (order) lines and a
 * description; parent references are resolved once the whole document is read.
 */
module Goals {
  import opened Text
  import opened MarkdownTags
  import opened Sorting

  /** 人生, 長期, 中期, 年間, 四半期, 月間, 週間: life, long-term, mid-term, yearly, quarterly, monthly, weekly. */
  datatype Level = Life | LongTerm | MidTerm | Yearly | Quarterly | Monthly | Weekly

  /** LEVEL_ORDER: from the broadest level to the narrowest. */
  const LevelOrder: seq<Level> := [Life, LongTerm, MidTerm, Yearly, Quarterly, Monthly, Weekly]

  function LevelName(l: Level): (r: String)
    ensures r != [] && Trimmed(r) && SingleLine(r)
  {
    match l
    case Life => "人生"
    case LongTerm => "長期"
    case MidTerm => "中期"
    case Yearly => "年間"
    case Quarterly => "四半期"
    case Monthly => "月間"
    case Weekly => "週間"
  }

  /** The position of a level in LEVEL_ORDER (`indexOf`, never -1 for a level). */
  function LevelIndex(l: Level): (r: nat)
    ensures r < |LevelOrder| && LevelOrder[r] == l
  {
    match l
    case Life => 0
    case LongTerm => 1
    case MidTerm => 2
    case Yearly => 3
    case Quarterly => 4
    case Monthly => 5
    case Weekly => 6
  }

  /** `LEVEL_ORDER.includes(name)`, giving the level so named. */
  function LevelNamed(name: String): (r: Option<Level>)
    ensures r.Some? ==> LevelName(r.value) == name
  {
    if name == "人生" then Some(Life)
    else if name == "長期" then Some(LongTerm)
    else if name == "中期" then Some(MidTerm)
    else if name == "年間" then Some(Yearly)
    else if name == "四半期" then Some(Quarterly)
    else if name == "月間" then Some(Monthly)
    else if name == "週間" then Some(Weekly)
    else None
  }

  /** Every level is recognised by its own name, and only names of levels are recognised. */
  lemma LevelNamedName(l: Level, name: String)
    ensures LevelNamed(LevelName(l)) == Some(l)
    ensures LevelNamed(name).None? ==> LevelName(l) != name
  {
  }

  datatype Status = Active | Paused | Completed

  /** A goal; the optional fields are the ones the plugin may leave undefined. */
  datatype Goal = Goal(
    id: String,
    title: String,
    level: Level,
    description: Option<String>,
    order: Option<int>,
    dueDate: Option<String>,
    expanded: Option<bool>,
    parentGoalId: Option<String>,
    status: Status)

  predicate Present(o: Option<String>)
  {
    o.Some? && o.value != []
  }

  function Val(o: Option<String>): String
  {
    if o.Some? then o.value else []
  }

  function Ids(gs: seq<Goal>): set<String>
  {
    set g | g in gs :: g.id
  }

  predicate DistinctIds(gs: seq<Goal>)
  {
    forall i, j :: 0 <= i < j < |gs| ==> gs[i].id != gs[j].id
  }

  // ---------------------------------------------------------------------
  // reading

  datatype Field = ParentField | DueField | ExpandField | IdField | OrderField

  /**
   * What a line means to the reader, apart from the reader's state. A `###`
   * heading or a `-` bullet outside a recognised level is description text,
   * so both keep the trimmed line as well.
   */
  datatype LineKind =
    | LevelLine(level: Option<Level>)
    | HeadingLine(title: String, text: String)
    | LegacyLine(title: String, text: String)
    | FieldLine(field: Field, value: String)
    | TextLine(text: String)

  /** `raw.replace(/目標$/, "")`: one trailing 目標 removed. */
  function StripGoalSuffix(raw: String): (r: String)
    ensures |r| <= |raw|
  {
    if |raw| >= 2 && raw[|raw| - 2..] == "目標" then raw[..|raw| - 2] else raw
  }

  /**
   * `^##\s+(.+)$` is a level heading (a recognised one or not), `^###\s+(.+)$`
   * a goal heading and `^\-\s*(.+)$` a legacy one-line goal; the five field
   * lines are recognised by their prefix, which `replace` removes; anything
   * else is description text, trimmed.
   */
  function Classify(line: String): LineKind
  {
    match HeadingGroup(line, "##")
    case Some(g) => LevelLine(LevelNamed(StripGoalSuffix(Trim(g))))
    case None =>
      match HeadingGroup(line, "###")
      case Some(g) => HeadingLine(Trim(g), Trim(line))
      case None =>
        match BulletGroup(line)
        case Some(g) => LegacyLine(Trim(g), Trim(line))
        case None =>
          match FieldOf(line)
          case Some(f) => FieldLine(f, Trim(line[|FieldPrefix(f)|..]))
          case None => TextLine(Trim(line))
  }

  /** The marker that opens a field line. */
  function FieldPrefix(f: Field): String
  {
    match f
    case ParentField => "親:"
    case DueField => "期限:"
    case ExpandField => "展開:"
    case IdField => "ID:"
    case OrderField => "順序:"
  }

  /** The field a line names: the first marker, in the order 親, 期限, 展開, ID, 順序, that starts it. */
  function FieldOf(line: String): (r: Option<Field>)
    ensures r.Some? ==> StartsWith(line, FieldPrefix(r.value))
    ensures r.None? ==> forall f: Field :: !StartsWith(line, FieldPrefix(f))
  {
    if StartsWith(line, "親:") then Some(ParentField)
    else if StartsWith(line, "期限:") then Some(DueField)
    else if StartsWith(line, "展開:") then Some(ExpandField)
    else if StartsWith(line, "ID:") then Some(IdField)
    else if StartsWith(line, "順序:") then Some(OrderField)
    else None
  }

  function Kinds(lines: seq<String>): (r: seq<LineKind>)
    ensures |r| == |lines| && forall i :: 0 <= i < |lines| ==> r[i] == Classify(lines[i])
  {
    seq(|lines|, i requires 0 <= i < |lines| => Classify(lines[i]))
  }

  /**
   * Reader state: the current level, the open goal, the goals closed so far,
   * the parent references keyed by goal id, and how many temporary ids have
   * been drawn.
   */
  datatype Scan = Scan(level: Option<Level>, current: Option<Goal>, done: seq<Goal>, refs: map<String, String>, drawn: nat)

  const Start: Scan := Scan(None, None, [], map[], 0)

  /** Closes the open goal, if any. */
  function Flush(s: Scan): (r: Scan)
    ensures r.current == None && r.level == s.level && r.refs == s.refs && r.drawn == s.drawn
  {
    if s.current.None? then s else s.(current := None, done := s.done + [s.current.value])
  }

  /** The goal a heading opens: a temporary id, an empty description, status active. */
  function Opened(id: String, title: String, level: Level): Goal
  {
    Goal(id, title, level, Some([]), None, None, None, None, Active)
  }

  /** A legacy `- title` goal, whose id is `<level>-<title>`. */
  function LegacyGoal(level: Level, title: String): Goal
  {
    Goal(LevelName(level) + "-" + title, title, level, None, None, None, None, None, Active)
  }

  /** A line of text joins the description on a new line; an empty description is replaced. */
  function Describe(g: Goal, text: String): Goal
  {
    g.(description := Some(if g.description.Some? && g.description.value != [] then g.description.value + "\n" + text else text))
  }

  /** A non-blank line of text goes to the open goal's description. */
  function AddText(s: Scan, text: String): Scan
  {
    if s.current.Some? && text != [] then s.(current := Some(Describe(s.current.value, text))) else s
  }

  /** An `ID:` line moves a pending parent reference from the old id to the new one. */
  function Rekey(refs: map<String, String>, from: String, to: String): map<String, String>
  {
    if from in refs then
      var rest := refs - {from};
      if refs[from] != [] then rest[to := refs[from]] else rest
    else refs
  }

  /** A field line on the open goal `g`. */
  function SetField(s: Scan, g: Goal, f: Field, v: String): Scan
  {
    match f
    case ParentField => if v == [] then s else s.(refs := s.refs[g.id := v])
    case DueField => s.(current := Some(g.(dueDate := if v == [] then None else Some(v))))
    case ExpandField => s.(current := Some(g.(expanded := Some(Lower(v) == "true"))))
    case IdField => if v == [] then s else s.(refs := Rekey(s.refs, g.id, v), current := Some(g.(id := v)))
    case OrderField => s.(current := Some(g.(order := ParseInt(v))))
  }

  /**
   * One line: `draw(n)` is the n-th temporary id, made from the clock and a
   * random number when a heading is read.
   */
  function Step(draw: nat -> String, s: Scan, kind: LineKind): Scan
  {
    match kind
    case LevelLine(l) => s.(level := l)
    case HeadingLine(t, text) =>
      if s.level.Some? then Flush(s).(current := Some(Opened(draw(s.drawn), t, s.level.value)), drawn := s.drawn + 1)
      else AddText(s, text)
    case LegacyLine(t, text) =>
      if s.level.Some? then (if t == [] then s else s.(done := s.done + [LegacyGoal(s.level.value, t)]))
      else AddText(s, text)
    case FieldLine(f, v) => if s.current.None? then s else SetField(s, s.current.value, f, v)
    case TextLine(text) => AddText(s, text)
  }

  function ScanLines(draw: nat -> String, s: Scan, kinds: seq<LineKind>): Scan
  {
    if kinds == [] then s else Step(draw, ScanLines(draw, s, kinds[..|kinds| - 1]), kinds[|kinds| - 1])
  }

  /** The id of the last goal titled `t`, as a map from titles to goals keeps it. */
  function LastTitled(gs: seq<Goal>, t: String): (r: Option<String>)
    ensures r.None? ==> forall k :: 0 <= k < |gs| ==> gs[k].title != t
    ensures r.Some? ==>
      exists k :: 0 <= k < |gs| && gs[k].title == t && gs[k].id == r.value && forall j :: k < j < |gs| ==> gs[j].title != t
  {
    if gs == [] then None
    else if gs[|gs| - 1].title == t then Some(gs[|gs| - 1].id)
    else
      var r := LastTitled(gs[..|gs| - 1], t);
      assert forall k :: 0 <= k < |gs| - 1 ==> gs[..|gs| - 1][k] == gs[k];
      r
  }

  /** A parent reference names a goal by id, or else by title. */
  function ResolveRef(gs: seq<Goal>, ref: String): (r: Option<String>)
  {
    if ref in Ids(gs) then Some(ref) else LastTitled(gs, ref)
  }

  function ResolveOne(gs: seq<Goal>, refs: map<String, String>, g: Goal): Goal
  {
    if g.id in refs && refs[g.id] != [] then g.(parentGoalId := ResolveRef(gs, refs[g.id])) else g
  }

  /** The second pass: every goal with a pending reference gets its resolved parent. */
  function Resolve(gs: seq<Goal>, refs: map<String, String>): (r: seq<Goal>)
    ensures |r| == |gs|
    ensures forall k :: 0 <= k < |gs| ==> r[k] == gs[k].(parentGoalId := r[k].parentGoalId)
    ensures forall k :: 0 <= k < |gs| && gs[k].id in refs && refs[gs[k].id] != [] ==>
      r[k].parentGoalId == ResolveRef(gs, refs[gs[k].id])
    ensures forall k :: 0 <= k < |gs| && !(gs[k].id in refs && refs[gs[k].id] != []) ==> r[k] == gs[k]
  {
    if |refs| == 0 then gs else seq(|gs|, k requires 0 <= k < |gs| => ResolveOne(gs, refs, gs[k]))
  }

  function ParseGoals(content: String, draw: nat -> String): seq<Goal>
  {
    var f := Flush(ScanLines(draw, Start, Kinds(Split(content, '\n'))));
    Resolve(f.done, f.refs)
  }

  /** parseGoals, first pass: the loop over the lines with the level, the open goal and the references. */
  method ReadLines(content: String, draw: nat -> String)
    returns (goals: seq<Goal>, parentRefs: map<String, String>)
    ensures var f := Flush(ScanLines(draw, Start, Kinds(Split(content, '\n'))));
      goals == f.done && parentRefs == f.refs
  {
    var lines := Split(content, '\n');
    ghost var kinds := Kinds(lines);
    goals, parentRefs := [], map[];
    var currentLevel: Option<Level> := None;
    var currentGoal: Option<Goal> := None;
    var drawn: nat := 0;
    var i := 0;
    while i < |lines|
      invariant 0 <= i <= |lines|
      invariant ScanLines(draw, Start, kinds[..i]) == Scan(currentLevel, currentGoal, goals, parentRefs, drawn)
    {
      assert kinds[..i + 1][..i] == kinds[..i];
      var kind := Classify(lines[i]);
      assert kind == kinds[i];
      currentLevel, currentGoal, goals, parentRefs, drawn := ReadLine(draw, currentLevel, currentGoal, goals, parentRefs, drawn, kind);
      i := i + 1;
    }
    assert kinds[..i] == kinds;
    if currentGoal.Some? {
      goals := goals + [currentGoal.value];
    }
  }

  /** The body of the first pass for one classified line. */
  method ReadLine(draw: nat -> String, level: Option<Level>, current: Option<Goal>, goals: seq<Goal>,
                  refs: map<String, String>, drawn: nat, kind: LineKind)
    returns (level': Option<Level>, current': Option<Goal>, goals': seq<Goal>, refs': map<String, String>, drawn': nat)
    ensures Scan(level', current', goals', refs', drawn') == Step(draw, Scan(level, current, goals, refs, drawn), kind)
  {
    level', current', goals', refs', drawn' := level, current, goals, refs, drawn;
    match kind {
      case LevelLine(l) =>
        level' := l;
      case HeadingLine(t, text) =>
        if level.Some? {
          if current.Some? {
            goals' := goals + [current.value];
          }
          current' := Some(Opened(draw(drawn), t, level.value));
          drawn' := drawn + 1;
        } else if current.Some? && text != [] {
          current' := Some(Describe(current.value, text));
        }
      case LegacyLine(t, text) =>
        if level.Some? {
          if t != [] {
            goals' := goals + [LegacyGoal(level.value, t)];
          }
        } else if current.Some? && text != [] {
          current' := Some(Describe(current.value, text));
        }
      case FieldLine(f, v) =>
        if current.Some? {
          current', refs' := ReadField(current.value, f, v, refs);
          ghost var s := Scan(level, current, goals, refs, drawn);
          assert Scan(level', current', goals', refs', drawn') == SetField(s, current.value, f, v);
        }
      case TextLine(text) =>
        if current.Some? && text != [] {
          current' := Some(Describe(current.value, text));
        }
    }
  }

  /** A field line on the open goal `g`: the goal and the references afterwards. */
  method ReadField(g: Goal, f: Field, v: String, refs: map<String, String>)
    returns (current': Option<Goal>, refs': map<String, String>)
    ensures var s := SetField(Scan(None, Some(g), [], refs, 0), g, f, v);
      current' == s.current && refs' == s.refs
  {
    current', refs' := Some(g), refs;
    match f {
      case ParentField =>
        if v != [] {
          refs' := refs[g.id := v];
        }
      case DueField =>
        current' := Some(g.(dueDate := if v == [] then None else Some(v)));
      case ExpandField =>
        current' := Some(g.(expanded := Some(Lower(v) == "true")));
      case IdField =>
        if v != [] {
          if g.id in refs {
            var parentRef := refs[g.id];
            refs' := refs - {g.id};
            if parentRef != [] {
              refs' := refs'[v := parentRef];
            }
          }
          current' := Some(g.(id := v));
        }
      case OrderField =>
        current' := Some(g.(order := ParseInt(v)));
    }
  }

  /** The maps from id and from title to goal that the second pass looks references up in. */
  method IndexGoals(gs: seq<Goal>) returns (byId: map<String, Goal>, byTitle: map<String, Goal>)
    ensures forall x :: x in byId <==> x in Ids(gs)
    ensures forall x :: x in byId ==> byId[x].id == x
    ensures forall t :: t in byTitle ==> LastTitled(gs, t) == Some(byTitle[t].id)
    ensures forall t :: t !in byTitle ==> LastTitled(gs, t) == None
  {
    byId, byTitle := map[], map[];
    var i := 0;
    while i < |gs|
      invariant 0 <= i <= |gs|
      invariant forall x :: x in byId <==> x in Ids(gs[..i])
      invariant forall x :: x in byId ==> byId[x].id == x
      invariant forall t :: t in byTitle ==> LastTitled(gs[..i], t) == Some(byTitle[t].id)
      invariant forall t :: t !in byTitle ==> LastTitled(gs[..i], t) == None
    {
      var g := gs[i];
      IndexStep(gs, i);
      byId := byId[g.id := g];
      byTitle := byTitle[g.title := g];
      i := i + 1;
    }
    assert gs[..i] == gs;
  }

  /** Adding the goal at `i` to the indexes: its id joins the ids and it is the last goal with its title. */
  lemma IndexStep(gs: seq<Goal>, i: nat)
    requires i < |gs|
    ensures Ids(gs[..i + 1]) == Ids(gs[..i]) + {gs[i].id}
    ensures forall t :: LastTitled(gs[..i + 1], t) == if gs[i].title == t then Some(gs[i].id) else LastTitled(gs[..i], t)
  {
    var p := gs[..i + 1];
    assert p[..i] == gs[..i] && p[i] == gs[i];
    assert p == gs[..i] + [gs[i]];
    forall t
      ensures LastTitled(p, t) == if gs[i].title == t then Some(gs[i].id) else LastTitled(gs[..i], t)
    {
      assert p[..|p| - 1] == gs[..i];
    }
  }

  /** parseGoals, second pass: each goal with a pending reference gets the goal it names. */
  method ResolveParents(gs: seq<Goal>, parentRefs: map<String, String>) returns (r: seq<Goal>)
    ensures r == Resolve(gs, parentRefs)
  {
    r := gs;
    if |parentRefs| > 0 {
      var byId, byTitle := IndexGoals(gs);
      var i := 0;
      while i < |gs|
        invariant 0 <= i <= |gs| && |r| == |gs|
        invariant forall k :: 0 <= k < i ==> r[k] == Resolve(gs, parentRefs)[k]
        invariant forall k :: i <= k < |gs| ==> r[k] == gs[k]
      {
        var g := gs[i];
        if g.id in parentRefs && parentRefs[g.id] != [] {
          var parentRef := parentRefs[g.id];
          var parent: Option<String> :=
            if parentRef in byId then Some(byId[parentRef].id)
            else if parentRef in byTitle then Some(byTitle[parentRef].id)
            else None;
          r := r[i := g.(parentGoalId := parent)];
        }
        i := i + 1;
      }
    }
  }

  /** parseGoals. */
  method ReadGoals(content: String, draw: nat -> String) returns (goals: seq<Goal>)
    ensures goals == ParseGoals(content, draw)
  {
    var read, parentRefs := ReadLines(content, draw);
    goals := ResolveParents(read, parentRefs);
  }

  // ---------------------------------------------------------------------
  // writing

  /** Number.MAX_SAFE_INTEGER, the rank of a goal without an order. */
  const MaxSafeInteger: int := 9007199254740991

  /** The writer's comparator: parent id (or ""), order (missing last), title. */
  function WriteKey(g: Goal): SortKey
  {
    SortKey(Val(g.parentGoalId), if g.order.Some? then g.order.value else MaxSafeInteger, g.title)
  }

  /** The goals at level `l`, in input order. */
  function AtLevel(gs: seq<Goal>, l: Level): (r: seq<Goal>)
    ensures |r| <= |gs|
    ensures forall k :: 0 <= k < |r| ==> r[k].level == l && r[k] in gs
  {
    if gs == [] then []
    else AtLevel(gs[..|gs| - 1], l) + (if gs[|gs| - 1].level == l then [gs[|gs| - 1]] else [])
  }

  /** The goals of level `l` in the order they are written. */
  function LevelGoals(gs: seq<Goal>, l: Level): seq<Goal>
  {
    Sort(AtLevel(gs, l), WriteKey)
  }

  function ParentLine(g: Goal): seq<String>
  {
    if Present(g.parentGoalId) then ["親: " + g.parentGoalId.value] else []
  }

  function DueLine(g: Goal): seq<String>
  {
    if Present(g.dueDate) then ["期限: " + g.dueDate.value] else []
  }

  function ExpandText(b: bool): String
  {
    if b then "true" else "false"
  }

  function ExpandLine(g: Goal): seq<String>
  {
    if g.expanded.Some? then ["展開: " + ExpandText(g.expanded.value)] else []
  }

  function OrderLine(g: Goal): seq<String>
  {
    if g.order.Some? then ["順序: " + IntToString(g.order.value)] else []
  }

  /** The description, or the `- ` placeholder when there is none. */
  function DescriptionText(g: Goal): String
  {
    if Present(g.description) then g.description.value else "- "
  }

  function GoalLines(g: Goal): seq<String>
  {
    ["### " + g.title, "ID: " + g.id] + ParentLine(g) + DueLine(g) + ExpandLine(g) + OrderLine(g)
    + [DescriptionText(g)] + [""]
  }

  function Records(gs: seq<Goal>): seq<String>
  {
    if gs == [] then [] else Records(gs[..|gs| - 1]) + GoalLines(gs[|gs| - 1])
  }

  function LevelHeading(l: Level): String
  {
    "## " + LevelName(l) + "目標"
  }

  /** A level's heading, its records or one blank line when it has none, and a blank line. */
  function LevelBlock(gs: seq<Goal>, l: Level): seq<String>
  {
    [LevelHeading(l)] + (if AtLevel(gs, l) == [] then [""] else Records(LevelGoals(gs, l))) + [""]
  }

  function Blocks(ls: seq<Level>, gs: seq<Goal>): seq<String>
  {
    if ls == [] then [] else Blocks(ls[..|ls| - 1], gs) + LevelBlock(gs, ls[|ls| - 1])
  }

  lemma BlocksStep(ls: seq<Level>, j: nat, gs: seq<Goal>)
    requires j < |ls|
    ensures Blocks(ls[..j + 1], gs) == Blocks(ls[..j], gs) + LevelBlock(gs, ls[j])
  {
    assert ls[..j + 1][..j] == ls[..j];
  }

  const Title: String := "# 目標ゴール"

  function SerializeLines(gs: seq<Goal>): seq<String>
  {
    [Title, ""] + Blocks(LevelOrder, gs)
  }

  function Serialize(gs: seq<Goal>, tags: seq<String>): String
  {
    Join(PrependTagFrontmatter(SerializeLines(gs), tags), "\n")
  }

  /** The goals in the order they are written: level by level, each level sorted. */
  function ArrangedOver(ls: seq<Level>, gs: seq<Goal>): (r: seq<Goal>)
    ensures forall k :: 0 <= k < |r| ==> r[k] in gs
  {
    if ls == [] then []
    else
      var p := ArrangedOver(ls[..|ls| - 1], gs);
      var q := LevelGoals(gs, ls[|ls| - 1]);
      assert forall k :: 0 <= k < |q| ==> q[k] in multiset(AtLevel(gs, ls[|ls| - 1]));
      p + q
  }

  function Arranged(gs: seq<Goal>): seq<Goal>
  {
    ArrangedOver(LevelOrder, gs)
  }

  /** The lines pushed for one goal. */
  method PushGoal(lines: seq<String>, g: Goal) returns (lines': seq<String>)
    ensures lines' == lines + GoalLines(g)
  {
    var record := ["### " + g.title, "ID: " + g.id];
    if Present(g.parentGoalId) {
      record := record + ["親: " + g.parentGoalId.value];
    } else {
      assert record + ParentLine(g) == record;
    }
    if Present(g.dueDate) {
      record := record + ["期限: " + g.dueDate.value];
    } else {
      assert record + DueLine(g) == record;
    }
    if g.expanded.Some? {
      record := record + ["展開: " + (if g.expanded.value then "true" else "false")];
    } else {
      assert record + ExpandLine(g) == record;
    }
    if g.order.Some? {
      record := record + ["順序: " + IntToString(g.order.value)];
    } else {
      assert record + OrderLine(g) == record;
    }
    if Present(g.description) {
      record := record + [g.description.value];
    } else {
      record := record + ["- "];
    }
    record := record + [""];
    lines' := lines + record;
  }

  /** One level: its heading, then its goals in the writer's order, or a blank line. */
  method PushLevel(lines: seq<String>, gs: seq<Goal>, level: Level) returns (lines': seq<String>)
    ensures lines' == lines + LevelBlock(gs, level)
  {
    var body: seq<String> := [];
    var levelGoals := AtLevel(gs, level);
    if levelGoals == [] {
      body := [""];
    } else {
      var sorted := Sort(levelGoals, WriteKey);
      var k := 0;
      while k < |sorted|
        invariant 0 <= k <= |sorted|
        invariant body == Records(sorted[..k])
      {
        assert sorted[..k + 1][..k] == sorted[..k];
        body := PushGoal(body, sorted[k]);
        k := k + 1;
      }
      assert sorted[..k] == sorted;
    }
    lines' := lines + ([LevelHeading(level)] + body + [""]);
  }

  /** serializeGoals: the seven levels in rank order, each level's goals sorted by the writer's comparator. */
  method WriteGoals(gs: seq<Goal>, tags: seq<String>) returns (content: String)
    ensures content == Serialize(gs, tags)
  {
    var lines := [Title, ""];
    var j := 0;
    while j < |LevelOrder|
      invariant 0 <= j <= |LevelOrder|
      invariant lines == [Title, ""] + Blocks(LevelOrder[..j], gs)
    {
      lines := PushLevel(lines, gs, LevelOrder[j]);
      BlocksStep(LevelOrder, j, gs);
      ConcatAssoc([Title, ""], Blocks(LevelOrder[..j], gs), LevelBlock(gs, LevelOrder[j]));
      j := j + 1;
    }
    assert LevelOrder[..j] == LevelOrder;
    content := Join(PrependTagFrontmatter(lines, tags), "\n");
  }

  // ---------------------------------------------------------------------
  // round trip

  /** An optional text as read back: an empty one is not written, so it reads back unset. */
  function KeepSet(o: Option<String>): Option<String>
  {
    if Present(o) then o else None
  }

  /** A written goal as its record reads back, before parent references are resolved. */
  function Bare(g: Goal): Goal
  {
    Goal(g.id, g.title, g.level, Some(if Present(g.description) then g.description.value else []),
      g.order, KeepSet(g.dueDate), g.expanded, None, Active)
  }

  function BareAll(gs: seq<Goal>): (r: seq<Goal>)
    ensures |r| == |gs|
  {
    seq(|gs|, k requires 0 <= k < |gs| => Bare(gs[k]))
  }

  /** The parent references that writing `gs` in order leaves: the last one per id. */
  function RefsOf(gs: seq<Goal>): map<String, String>
  {
    if gs == [] then map[]
    else
      var m := RefsOf(gs[..|gs| - 1]);
      var g := gs[|gs| - 1];
      if Present(g.parentGoalId) then m[g.id := g.parentGoalId.value] else m
  }

  /** What reading back a written goal gives, among the goals `all` written with it. */
  function ReadBack(g: Goal, all: seq<Goal>): Goal
  {
    Bare(g).(parentGoalId := if Present(g.parentGoalId) then ResolveRef(all, g.parentGoalId.value) else None)
  }

  function ReadBackAll(gs: seq<Goal>): (r: seq<Goal>)
    ensures |r| == |gs|
  {
    seq(|gs|, k requires 0 <= k < |gs| => ReadBack(gs[k], gs))
  }

  /** A description line that reads back as description text. */
  predicate Prose(d: String)
  {
    '\n' !in d && Classify(d) == TextLine(d)
  }

  /** A value written after a field prefix. */
  predicate FieldText(v: String)
  {
    Trimmed(v) && '\n' !in v
  }

  /**
   * A goal that reads back as itself: a non-empty one-line id, a non-blank
   * one-line title, trimmed one-line fields, and a description that is one
   * line read as description text.
   */
  predicate PlainGoal(g: Goal)
  {
    g.id != [] && FieldText(g.id)
    && g.title != [] && Trimmed(g.title) && SingleLine(g.title)
    && (Present(g.parentGoalId) ==> FieldText(g.parentGoalId.value))
    && (Present(g.dueDate) ==> FieldText(g.dueDate.value))
    && (Present(g.description) ==> Prose(g.description.value))
  }

  // --- classifying written lines

  lemma ClassifyHeading(t: String)
    requires t != [] && Trimmed(t) && SingleLine(t)
    ensures Classify("### " + t) == HeadingLine(t, "### " + t)
  {
    var line := "### " + t;
    assert line[..2] == "##" && line[2..] == "# " + t;
    TrimStartOfNonSpace("# " + t);
    HeadingOfText("###", t);
    assert "###" + " " + t == line;
    TrimOfTrimmed(t);
    assert line[|line| - 1] == t[|t| - 1];
    TrimOfTrimmed(line);
  }

  lemma LevelGroup(l: Level)
    ensures HeadingGroup(LevelHeading(l), "##") == Some(LevelName(l) + "目標")
  {
    var name := LevelName(l) + "目標";
    assert name[|name| - 1] == '標';
    assert SingleLine(name) by { SingleLineConcat(LevelName(l), "目標"); }
    HeadingOfText("##", name);
    assert "##" + " " + name == LevelHeading(l);
  }

  lemma StripSuffix(n: String)
    ensures StripGoalSuffix(n + "目標") == n
  {
    var name := n + "目標";
    assert name[|name| - 2..] == "目標" && name[..|name| - 2] == n;
  }

  lemma LevelTrimmed(l: Level)
    ensures Trim(LevelName(l) + "目標") == LevelName(l) + "目標"
  {
    var name := LevelName(l) + "目標";
    assert name[|name| - 1] == '標';
    TrimOfTrimmed(name);
  }

  lemma LevelStrip(l: Level)
    ensures LevelNamed(StripGoalSuffix(Trim(LevelName(l) + "目標"))) == Some(l)
  {
    LevelTrimmed(l);
    StripSuffix(LevelName(l));
    LevelNamedName(l, []);
  }

  lemma ClassifyLevel(l: Level)
    ensures Classify(LevelHeading(l)) == LevelLine(Some(l))
  {
    LevelGroup(l);
    LevelStrip(l);
  }

  /** A line that is neither a heading nor a bullet, naming field `f` followed by a space and `v`. */
  lemma FieldClassified(line: String, f: Field, v: String)
    requires line != [] && line[0] != '#' && line[0] != '-' && Trimmed(v)
    requires FieldOf(line) == Some(f) && line[|FieldPrefix(f)|..] == " " + v
    ensures Classify(line) == FieldLine(f, v)
  {
    NotHeading(line);
    assert line[..1] != "-";
    AfterSpace(v);
  }

  lemma ClassifyParent(v: String)
    requires Trimmed(v)
    ensures Classify("親: " + v) == FieldLine(ParentField, v)
  {
    var line := "親: " + v;
    assert line[..2] == "親:" && line[2..] == " " + v;
    FieldClassified(line, ParentField, v);
  }

  lemma ClassifyDue(v: String)
    requires Trimmed(v)
    ensures Classify("期限: " + v) == FieldLine(DueField, v)
  {
    var line := "期限: " + v;
    assert !StartsWith(line, "親:") by { assert line[..2][0] == line[0] == '期'; }
    assert line[..3] == "期限:" && line[3..] == " " + v;
    FieldClassified(line, DueField, v);
  }

  lemma ClassifyExpand(v: String)
    requires Trimmed(v)
    ensures Classify("展開: " + v) == FieldLine(ExpandField, v)
  {
    var line := "展開: " + v;
    assert !StartsWith(line, "親:") by { assert line[..2][0] == line[0] == '展'; }
    assert !StartsWith(line, "期限:") by { assert line[..3][0] == line[0] == '展'; }
    assert line[..3] == "展開:" && line[3..] == " " + v;
    FieldClassified(line, ExpandField, v);
  }

  lemma ClassifyId(v: String)
    requires Trimmed(v)
    ensures Classify("ID: " + v) == FieldLine(IdField, v)
  {
    var line := "ID: " + v;
    assert !StartsWith(line, "親:") by { assert line[..2][0] == line[0] == 'I'; }
    assert !StartsWith(line, "期限:") by { assert line[..3][0] == line[0] == 'I'; }
    assert !StartsWith(line, "展開:") by { assert line[..3][0] == line[0] == 'I'; }
    assert line[..3] == "ID:" && line[3..] == " " + v;
    FieldClassified(line, IdField, v);
  }

  lemma ClassifyOrder(v: String)
    requires Trimmed(v)
    ensures Classify("順序: " + v) == FieldLine(OrderField, v)
  {
    var line := "順序: " + v;
    assert !StartsWith(line, "親:") by { assert line[..2][0] == line[0] == '順'; }
    assert !StartsWith(line, "期限:") by { assert line[..3][0] == line[0] == '順'; }
    assert !StartsWith(line, "展開:") by { assert line[..3][0] == line[0] == '順'; }
    assert !StartsWith(line, "ID:") by { assert line[..3][0] == line[0] == '順'; }
    assert line[..3] == "順序:" && line[3..] == " " + v;
    FieldClassified(line, OrderField, v);
  }

  lemma ClassifyPlaceholders()
    ensures Classify("- ") == LegacyLine([], "-") && Classify("") == TextLine([])
  {
    NotHeading("- ");
    BulletOfPlaceholder();
    assert TrimStart("- ") == "- ";
  }

  // --- what the reader does with particular lines

  /** A `- title` line under a recognised level adds a goal whose id is `<level>-<title>`. */
  lemma LegacyRead(draw: nat -> String, s: Scan, t: String)
    requires s.level.Some? && t != [] && Trimmed(t) && SingleLine(t)
    ensures Step(draw, s, Classify("- " + t)) == s.(done := s.done + [LegacyGoal(s.level.value, t)])
    ensures LegacyGoal(s.level.value, t).id == LevelName(s.level.value) + "-" + t
  {
    NotHeading("- " + t);
    BulletOfText(t);
    TrimOfTrimmed(t);
  }

  /** The `- ` placeholder under a recognised level adds nothing. */
  lemma PlaceholderSkipped(draw: nat -> String, s: Scan)
    requires s.level.Some?
    ensures Step(draw, s, Classify("- ")) == s
  {
    ClassifyPlaceholders();
  }

  /** A `##` heading that names no level turns goal recognition off. */
  lemma UnknownLevel(draw: nat -> String, s: Scan, name: String)
    requires name != [] && Trimmed(name) && SingleLine(name) && LevelNamed(StripGoalSuffix(name)).None?
    ensures Step(draw, s, Classify("## " + name)) == s.(level := None)
  {
    ClassifyUnknown(name);
  }

  lemma ClassifyUnknown(name: String)
    requires name != [] && Trimmed(name) && SingleLine(name) && LevelNamed(StripGoalSuffix(name)).None?
    ensures Classify("## " + name) == LevelLine(None)
  {
    HeadingOfText("##", name);
    TrimOfTrimmed(name);
  }

  /** Until the next level heading, no goal is opened or closed and no temporary id is drawn. */
  lemma {:induction false} Disabled(draw: nat -> String, s: Scan, ks: seq<LineKind>)
    requires s.level.None?
    requires forall i :: 0 <= i < |ks| ==> !ks[i].LevelLine?
    ensures var r := ScanLines(draw, s, ks);
      r.level.None? && r.done == s.done && r.drawn == s.drawn && r.current.Some? == s.current.Some?
  {
    if ks != [] {
      Disabled(draw, s, ks[..|ks| - 1]);
    }
  }

  /**
   * Whether `親:` comes before or after `ID:`, the pending reference ends up
   * under the id the `ID:` line gives.
   */
  lemma ParentIdOrder(draw: nat -> String, s: Scan, p: String, v: String)
    requires s.current.Some? && s.current.value.id !in s.refs && p != [] && v != []
    ensures ScanLines(draw, s, [FieldLine(ParentField, p), FieldLine(IdField, v)])
      == ScanLines(draw, s, [FieldLine(IdField, v), FieldLine(ParentField, p)])
    ensures ScanLines(draw, s, [FieldLine(ParentField, p), FieldLine(IdField, v)])
      == s.(current := Some(s.current.value.(id := v)), refs := s.refs[v := p])
  {
    var g := s.current.value;
    var a := FieldLine(ParentField, p);
    var b := FieldLine(IdField, v);
    assert [a, b][..1] == [a] && [b, a][..1] == [b] && [a][..0] == [] && [b][..0] == [];
    var s1 := Step(draw, s, a);
    assert s1 == s.(refs := s.refs[g.id := p]);
    assert Rekey(s1.refs, g.id, v) == s.refs[v := p] by {
      assert s1.refs - {g.id} == s.refs;
    }
    var t1 := Step(draw, s, b);
    assert t1 == s.(current := Some(g.(id := v)));
    assert ScanLines(draw, s, [a]) == s1;
    assert ScanLines(draw, s, [b]) == t1;
    assert ScanLines(draw, s, [a, b]) == Step(draw, s1, b);
    assert ScanLines(draw, s, [b, a]) == Step(draw, t1, a);
    assert Step(draw, s1, b) == s.(current := Some(g.(id := v)), refs := s.refs[v := p]);
    assert Step(draw, t1, a) == s.(current := Some(g.(id := v)), refs := s.refs[v := p]);
  }

  // --- status

  predicate AllActive(gs: seq<Goal>)
  {
    forall k :: 0 <= k < |gs| ==> gs[k].status == Active
  }

  predicate ActiveScan(s: Scan)
  {
    AllActive(s.done) && (s.current.Some? ==> s.current.value.status == Active)
  }

  lemma StepActive(draw: nat -> String, s: Scan, k: LineKind)
    requires ActiveScan(s)
    ensures ActiveScan(Step(draw, s, k))
  {
    match k
    case FieldLine(f, v) =>
    case _ =>
  }

  lemma {:induction false} ScanActive(draw: nat -> String, ks: seq<LineKind>)
    ensures ActiveScan(ScanLines(draw, Start, ks))
  {
    if ks != [] {
      ScanActive(draw, ks[..|ks| - 1]);
      StepActive(draw, ScanLines(draw, Start, ks[..|ks| - 1]), ks[|ks| - 1]);
    }
  }

  /** No status is written to the goals file: every goal read back is active. */
  lemma ParsedActive(content: String, draw: nat -> String)
    ensures AllActive(ParseGoals(content, draw))
  {
    var f := Flush(ScanLines(draw, Start, Kinds(Split(content, '\n'))));
    ScanActive(draw, Kinds(Split(content, '\n')));
    assert AllActive(f.done);
  }
}
