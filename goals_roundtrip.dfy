/**
 * The goals file round trip: the lines `Serialize` writes are read back by
 * `ParseGoals` as the written goals, in the order they were written, with
 * their parent references resolved against the goals written with them.
 *
 * The written lines are described as kinds of line (`LineKind`): `Render`
 * gives the line written for a kind, and `Classify` reads every written kind
 * back (`RenderClassify`). The fold of `Step` over the kinds of one record
 * then opens one goal with the record's fields (`RecordScan`).
 */
module GoalsRoundTrip {
  import opened Text
  import opened MarkdownTags
  import opened Sorting
  import opened Goals

  // ---------------------------------------------------------------------
  // written lines as kinds of line

  function FieldPrefix(f: Field): String
  {
    match f
    case ParentField => "親: "
    case DueField => "期限: "
    case ExpandField => "展開: "
    case IdField => "ID: "
    case OrderField => "順序: "
  }

  /** The line written for a kind of line. */
  function Render(k: LineKind): String
  {
    match k
    case LevelLine(l) => if l.Some? then LevelHeading(l.value) else []
    case HeadingLine(t, _) => "### " + t
    case LegacyLine(t, _) => "- " + t
    case FieldLine(f, v) => FieldPrefix(f) + v
    case TextLine(text) => text
  }

  /** The kinds of line a goals file is written with. */
  predicate Written(k: LineKind)
  {
    match k
    case LevelLine(l) => l.Some?
    case HeadingLine(t, text) => t != [] && Trimmed(t) && SingleLine(t) && text == "### " + t
    case LegacyLine(t, text) => t == [] && text == "-"
    case FieldLine(_, v) => FieldText(v)
    case TextLine(text) => text == [] || Prose(text)
  }

  predicate AllWritten(ks: seq<LineKind>)
  {
    forall i :: 0 <= i < |ks| ==> Written(ks[i])
  }

  lemma {:induction false} LevelUnbroken(l: Level)
    ensures '\n' !in LevelHeading(l)
  {
    var h := LevelHeading(l);
    SingleLineConcat("## ", LevelName(l));
    SingleLineConcat("## " + LevelName(l), "目標");
    assert forall i :: 0 <= i < |h| ==> h[i] != '\n';
  }

  lemma {:induction false} LevelRead(l: Level)
    ensures Classify(Render(LevelLine(Some(l)))) == LevelLine(Some(l)) && '\n' !in Render(LevelLine(Some(l)))
  {
    ClassifyLevel(l);
    LevelUnbroken(l);
  }

  lemma {:induction false} HeadingUnbroken(t: String)
    requires SingleLine(t)
    ensures '\n' !in "### " + t
  {
    var h := "### " + t;
    SingleLineConcat("### ", t);
    assert forall i :: 0 <= i < |h| ==> h[i] != '\n';
  }

  lemma {:induction false} HeadingRead(t: String)
    requires t != [] && Trimmed(t) && SingleLine(t)
    ensures Classify(Render(HeadingLine(t, "### " + t))) == HeadingLine(t, "### " + t)
    ensures '\n' !in Render(HeadingLine(t, "### " + t))
  {
    ClassifyHeading(t);
    HeadingUnbroken(t);
  }

  lemma {:induction false} FieldRead(f: Field, v: String)
    requires FieldText(v)
    ensures Classify(Render(FieldLine(f, v))) == FieldLine(f, v) && '\n' !in Render(FieldLine(f, v))
  {
    match f {
      case ParentField => ClassifyParent(v);
      case DueField => ClassifyDue(v);
      case ExpandField => ClassifyExpand(v);
      case IdField => ClassifyId(v);
      case OrderField => ClassifyOrder(v);
    }
  }

  lemma {:induction false} PlaceholderRead()
    ensures Classify(Render(LegacyLine([], "-"))) == LegacyLine([], "-") && '\n' !in Render(LegacyLine([], "-"))
    ensures Classify(Render(TextLine([]))) == TextLine([]) && '\n' !in Render(TextLine([]))
  {
    ClassifyPlaceholders();
    assert Render(LegacyLine([], "-")) == "- ";
  }

  /** Every written kind is read back as itself, from a line without a line break. */
  lemma {:induction false} RenderClassify(k: LineKind)
    requires Written(k)
    ensures Classify(Render(k)) == k && '\n' !in Render(k)
  {
    match k
    case LevelLine(l) => LevelRead(l.value);
    case HeadingLine(t, _) => HeadingRead(t);
    case LegacyLine(_, _) => PlaceholderRead();
    case FieldLine(f, v) => FieldRead(f, v);
    case TextLine(text) =>
      if text == [] {
        PlaceholderRead();
      }
  }

  function RenderAll(ks: seq<LineKind>): (r: seq<String>)
    ensures |r| == |ks|
  {
    if ks == [] then [] else RenderAll(ks[..|ks| - 1]) + [Render(ks[|ks| - 1])]
  }

  lemma {:induction false} RenderAllAppend(a: seq<LineKind>, b: seq<LineKind>)
    ensures RenderAll(a + b) == RenderAll(a) + RenderAll(b)
    decreases |b|
  {
    if b == [] {
      assert a + b == a;
    } else {
      assert (a + b)[..|a + b| - 1] == a + b[..|b| - 1];
      RenderAllAppend(a, b[..|b| - 1]);
    }
  }

  lemma {:induction false} RenderOne(k: LineKind)
    ensures RenderAll([k]) == [Render(k)]
  {
    assert [k][..0] == [];
  }

  lemma {:induction false} AllWrittenAppend(a: seq<LineKind>, b: seq<LineKind>)
    requires AllWritten(a) && AllWritten(b)
    ensures AllWritten(a + b)
  {
    forall i | 0 <= i < |a + b| ensures Written((a + b)[i]) {
      if i >= |a| {
        assert (a + b)[i] == b[i - |a|];
      }
    }
  }

  lemma {:induction false} KindsOne(k: LineKind)
    requires Written(k)
    ensures Kinds([Render(k)]) == [k] && '\n' !in Render(k)
  {
    RenderClassify(k);
  }

  lemma {:induction false} KindsSnoc(a: seq<String>, line: String, k: LineKind)
    requires Kinds([line]) == [k]
    ensures Kinds(a + [line]) == Kinds(a) + [k]
  {
    KindsAppend(a, [line]);
  }

  lemma {:induction false} AllWrittenInit(ks: seq<LineKind>)
    requires ks != [] && AllWritten(ks)
    ensures AllWritten(ks[..|ks| - 1]) && Written(ks[|ks| - 1])
  {
    var init := ks[..|ks| - 1];
    forall i | 0 <= i < |init| ensures Written(init[i]) {
      assert init[i] == ks[i];
    }
  }

  lemma {:induction false} KindsRenderSnoc(init: seq<LineKind>, last: LineKind)
    requires Kinds(RenderAll(init)) == init && Written(last)
    ensures Kinds(RenderAll(init + [last])) == init + [last]
  {
    assert (init + [last])[..|init|] == init;
    assert RenderAll(init + [last]) == RenderAll(init) + [Render(last)];
    KindsOne(last);
    KindsSnoc(RenderAll(init), Render(last), last);
  }

  /** Written kinds are read back from their lines. */
  lemma {:induction false} KindsRender(ks: seq<LineKind>)
    requires AllWritten(ks)
    ensures Kinds(RenderAll(ks)) == ks
  {
    if ks != [] {
      var init := ks[..|ks| - 1];
      AllWrittenInit(ks);
      KindsRender(init);
      KindsRenderSnoc(init, ks[|ks| - 1]);
      SnocParts(ks);
    }
  }

  /** The lines of written kinds hold no line break. */
  lemma {:induction false} RenderUnbroken(ks: seq<LineKind>)
    requires AllWritten(ks)
    ensures NoBreaks(RenderAll(ks))
  {
    if ks != [] {
      var init := ks[..|ks| - 1];
      var last := ks[|ks| - 1];
      AllWrittenInit(ks);
      RenderUnbroken(init);
      KindsOne(last);
      NoBreaksConcat(RenderAll(init), [Render(last)]);
    }
  }

  lemma {:induction false} KindsAppend(a: seq<String>, b: seq<String>)
    ensures Kinds(a + b) == Kinds(a) + Kinds(b)
  {
    var l := Kinds(a + b);
    var r := Kinds(a) + Kinds(b);
    forall i | 0 <= i < |l| ensures l[i] == r[i] {
      if i >= |a| {
        KindAt(a + b, i, b[i - |a|]);
        KindAt(b, i - |a|, b[i - |a|]);
      } else {
        KindAt(a + b, i, a[i]);
        KindAt(a, i, a[i]);
      }
    }
  }

  lemma {:induction false} KindAt(lines: seq<String>, i: nat, line: String)
    requires i < |lines| && lines[i] == line
    ensures Kinds(lines)[i] == Classify(line)
  {
  }

  // ---------------------------------------------------------------------
  // the kinds a goal is written with

  function OptKind(present: bool, f: Field, v: String): seq<LineKind>
  {
    if present then [FieldLine(f, v)] else []
  }

  function OrderText(g: Goal): String
  {
    if g.order.Some? then IntToString(g.order.value) else []
  }

  function DescriptionKind(g: Goal): LineKind
  {
    if Present(g.description) then TextLine(g.description.value) else LegacyLine([], "-")
  }

  /** The optional field lines of a written goal. */
  function OptKinds(g: Goal): seq<LineKind>
  {
    OptKind(Present(g.parentGoalId), ParentField, Val(g.parentGoalId))
    + OptKind(Present(g.dueDate), DueField, Val(g.dueDate))
    + OptKind(g.expanded.Some?, ExpandField, ExpandText(g.expanded == Some(true)))
    + OptKind(g.order.Some?, OrderField, OrderText(g))
  }

  function HeadKinds(g: Goal): seq<LineKind>
  {
    [HeadingLine(g.title, "### " + g.title), FieldLine(IdField, g.id)]
  }

  function GoalKinds(g: Goal): seq<LineKind>
  {
    HeadKinds(g) + OptKinds(g) + [DescriptionKind(g)] + [TextLine([])]
  }

  function RecordsKinds(gs: seq<Goal>): seq<LineKind>
  {
    if gs == [] then [] else RecordsKinds(gs[..|gs| - 1]) + GoalKinds(gs[|gs| - 1])
  }

  function BlockBody(gs: seq<Goal>, l: Level): seq<LineKind>
  {
    if AtLevel(gs, l) == [] then [TextLine([])] else RecordsKinds(LevelGoals(gs, l))
  }

  function BlockKinds(gs: seq<Goal>, l: Level): seq<LineKind>
  {
    [LevelLine(Some(l))] + BlockBody(gs, l) + [TextLine([])]
  }

  function BlocksKinds(ls: seq<Level>, gs: seq<Goal>): seq<LineKind>
  {
    if ls == [] then [] else BlocksKinds(ls[..|ls| - 1], gs) + BlockKinds(gs, ls[|ls| - 1])
  }

  lemma {:induction false} RenderOpt(present: bool, f: Field, v: String)
    ensures RenderAll(OptKind(present, f, v)) == if present then [FieldPrefix(f) + v] else []
  {
    if present {
      RenderOne(FieldLine(f, v));
    }
  }

  lemma {:induction false} OptRender(g: Goal)
    ensures RenderAll(OptKinds(g)) == ParentLine(g) + DueLine(g) + ExpandLine(g) + OrderLine(g)
  {
    var p := OptKind(Present(g.parentGoalId), ParentField, Val(g.parentGoalId));
    var d := OptKind(Present(g.dueDate), DueField, Val(g.dueDate));
    var e := OptKind(g.expanded.Some?, ExpandField, ExpandText(g.expanded == Some(true)));
    var o := OptKind(g.order.Some?, OrderField, OrderText(g));
    ParentRender(g);
    DueRender(g);
    ExpandRender(g);
    OrderRender(g);
    RenderAllAppend(p, d);
    RenderAllAppend(p + d, e);
    RenderAllAppend(p + d + e, o);
  }

  lemma ParentRender(g: Goal)
    ensures RenderAll(OptKind(Present(g.parentGoalId), ParentField, Val(g.parentGoalId))) == ParentLine(g)
  {
    RenderOpt(Present(g.parentGoalId), ParentField, Val(g.parentGoalId));
  }

  lemma DueRender(g: Goal)
    ensures RenderAll(OptKind(Present(g.dueDate), DueField, Val(g.dueDate))) == DueLine(g)
  {
    RenderOpt(Present(g.dueDate), DueField, Val(g.dueDate));
  }

  lemma ExpandRender(g: Goal)
    ensures RenderAll(OptKind(g.expanded.Some?, ExpandField, ExpandText(g.expanded == Some(true)))) == ExpandLine(g)
  {
    RenderOpt(g.expanded.Some?, ExpandField, ExpandText(g.expanded == Some(true)));
    if g.expanded.Some? {
      assert ExpandText(g.expanded == Some(true)) == ExpandText(g.expanded.value);
    }
  }

  lemma OrderRender(g: Goal)
    ensures RenderAll(OptKind(g.order.Some?, OrderField, OrderText(g))) == OrderLine(g)
  {
    RenderOpt(g.order.Some?, OrderField, OrderText(g));
  }

  lemma {:induction false} HeadRender(g: Goal)
    ensures RenderAll(HeadKinds(g)) == ["### " + g.title, "ID: " + g.id]
  {
    var h := HeadingLine(g.title, "### " + g.title);
    RenderOne(h);
    assert HeadKinds(g)[..1] == [h];
  }

  /** A goal's record is the rendering of its kinds. */
  lemma {:induction false} GoalRender(g: Goal)
    ensures GoalLines(g) == RenderAll(GoalKinds(g))
  {
    var h := HeadKinds(g);
    var o := OptKinds(g);
    HeadRender(g);
    OptRender(g);
    RenderOne(DescriptionKind(g));
    RenderOne(TextLine([]));
    RenderAllAppend(h, o);
    RenderAllAppend(h + o, [DescriptionKind(g)]);
    RenderAllAppend(h + o + [DescriptionKind(g)], [TextLine([])]);
    assert Render(DescriptionKind(g)) == DescriptionText(g);
    var hl := ["### " + g.title, "ID: " + g.id];
    ConcatAssoc(hl, ParentLine(g) + DueLine(g) + ExpandLine(g), OrderLine(g));
    ConcatAssoc(hl, ParentLine(g) + DueLine(g), ExpandLine(g));
    ConcatAssoc(hl, ParentLine(g), DueLine(g));
  }

  lemma {:induction false} OrderWritten(g: Goal)
    ensures FieldText(OrderText(g))
  {
    if g.order.Some? {
      IntToStringPlain(g.order.value);
      assert forall i :: 0 <= i < |OrderText(g)| ==> OrderText(g)[i] != '\n';
    }
  }

  lemma OptKindWritten(present: bool, f: Field, v: String)
    requires present ==> FieldText(v)
    ensures AllWritten(OptKind(present, f, v))
  {
  }

  lemma {:induction false} OptWritten(g: Goal)
    requires PlainGoal(g)
    ensures AllWritten(OptKinds(g))
  {
    var p := OptKind(Present(g.parentGoalId), ParentField, Val(g.parentGoalId));
    var d := OptKind(Present(g.dueDate), DueField, Val(g.dueDate));
    var e := OptKind(g.expanded.Some?, ExpandField, ExpandText(g.expanded == Some(true)));
    var o := OptKind(g.order.Some?, OrderField, OrderText(g));
    OptKindWritten(Present(g.parentGoalId), ParentField, Val(g.parentGoalId));
    OptKindWritten(Present(g.dueDate), DueField, Val(g.dueDate));
    OptKindWritten(g.expanded.Some?, ExpandField, ExpandText(g.expanded == Some(true)));
    OrderWritten(g);
    OptKindWritten(g.order.Some?, OrderField, OrderText(g));
    AllWrittenAppend(p, d);
    AllWrittenAppend(p + d, e);
    AllWrittenAppend(p + d + e, o);
  }

  /** A plain goal is written with kinds that are read back as themselves. */
  lemma {:induction false} GoalWritten(g: Goal)
    requires PlainGoal(g)
    ensures AllWritten(GoalKinds(g))
  {
    var h := HeadKinds(g);
    assert AllWritten(h);
    OptWritten(g);
    assert Written(DescriptionKind(g));
    AllWrittenAppend(h, OptKinds(g));
    AllWrittenAppend(h + OptKinds(g), [DescriptionKind(g)]);
    AllWrittenAppend(h + OptKinds(g) + [DescriptionKind(g)], [TextLine([])]);
  }

  lemma {:induction false} RecordsRender(gs: seq<Goal>)
    ensures Records(gs) == RenderAll(RecordsKinds(gs))
  {
    if gs != [] {
      RecordsRender(gs[..|gs| - 1]);
      GoalRender(gs[|gs| - 1]);
      RenderAllAppend(RecordsKinds(gs[..|gs| - 1]), GoalKinds(gs[|gs| - 1]));
    }
  }

  lemma {:induction false} RecordsWritten(gs: seq<Goal>)
    requires forall k :: 0 <= k < |gs| ==> PlainGoal(gs[k])
    ensures AllWritten(RecordsKinds(gs))
  {
    if gs != [] {
      RecordsWritten(gs[..|gs| - 1]);
      GoalWritten(gs[|gs| - 1]);
      AllWrittenAppend(RecordsKinds(gs[..|gs| - 1]), GoalKinds(gs[|gs| - 1]));
    }
  }

  /** The goals written under level `l` are goals of `gs` at that level. */
  lemma {:induction false} LevelGoalsFrom(gs: seq<Goal>, l: Level)
    ensures forall k :: 0 <= k < |LevelGoals(gs, l)| ==> LevelGoals(gs, l)[k].level == l && LevelGoals(gs, l)[k] in gs
  {
    var q := LevelGoals(gs, l);
    forall k | 0 <= k < |q| ensures q[k].level == l && q[k] in gs {
      assert q[k] in multiset(AtLevel(gs, l));
    }
  }

  lemma {:induction false} BlockRender(gs: seq<Goal>, l: Level)
    ensures LevelBlock(gs, l) == RenderAll(BlockKinds(gs, l))
  {
    var mid := BlockBody(gs, l);
    var body := if AtLevel(gs, l) == [] then [""] else Records(LevelGoals(gs, l));
    assert RenderAll(mid) == body by {
      if AtLevel(gs, l) == [] { RenderOne(TextLine([])); } else { RecordsRender(LevelGoals(gs, l)); }
    }
    assert RenderAll([LevelLine(Some(l))]) == [LevelHeading(l)] by { RenderOne(LevelLine(Some(l))); }
    assert RenderAll([TextLine([])]) == [""] by { RenderOne(TextLine([])); }
    RenderAllAppend([LevelLine(Some(l))], mid);
    RenderAllAppend([LevelLine(Some(l))] + mid, [TextLine([])]);
  }

  lemma {:induction false} BlockWritten(gs: seq<Goal>, l: Level)
    requires forall x :: x in gs ==> PlainGoal(x)
    ensures AllWritten(BlockKinds(gs, l))
  {
    var mid := BlockBody(gs, l);
    if AtLevel(gs, l) != [] {
      LevelGoalsFrom(gs, l);
      RecordsWritten(LevelGoals(gs, l));
    }
    assert AllWritten(mid);
    AllWrittenAppend([LevelLine(Some(l))], mid);
    AllWrittenAppend([LevelLine(Some(l))] + mid, [TextLine([])]);
  }

  lemma {:induction false} BlocksRender(ls: seq<Level>, gs: seq<Goal>)
    ensures Blocks(ls, gs) == RenderAll(BlocksKinds(ls, gs))
  {
    if ls != [] {
      BlocksRender(ls[..|ls| - 1], gs);
      BlockRender(gs, ls[|ls| - 1]);
      RenderAllAppend(BlocksKinds(ls[..|ls| - 1], gs), BlockKinds(gs, ls[|ls| - 1]));
    }
  }

  lemma {:induction false} BlocksWritten(ls: seq<Level>, gs: seq<Goal>)
    requires forall x :: x in gs ==> PlainGoal(x)
    ensures AllWritten(BlocksKinds(ls, gs))
  {
    if ls != [] {
      BlocksWritten(ls[..|ls| - 1], gs);
      BlockWritten(gs, ls[|ls| - 1]);
      AllWrittenAppend(BlocksKinds(ls[..|ls| - 1], gs), BlockKinds(gs, ls[|ls| - 1]));
    }
  }

  /** The level blocks of plain goals are read back as the kinds they were written from. */
  lemma {:induction false} BodyKinds(gs: seq<Goal>)
    requires forall x :: x in gs ==> PlainGoal(x)
    ensures Kinds(Blocks(LevelOrder, gs)) == BlocksKinds(LevelOrder, gs)
    ensures NoBreaks(Blocks(LevelOrder, gs))
  {
    BlocksRender(LevelOrder, gs);
    BlocksWritten(LevelOrder, gs);
    KindsRender(BlocksKinds(LevelOrder, gs));
    RenderUnbroken(BlocksKinds(LevelOrder, gs));
  }

  // ---------------------------------------------------------------------
  // reading the kinds back

  lemma {:induction false} ScanAppend(draw: nat -> String, s: Scan, a: seq<LineKind>, b: seq<LineKind>)
    ensures ScanLines(draw, s, a + b) == ScanLines(draw, ScanLines(draw, s, a), b)
    decreases |b|
  {
    if b == [] {
      assert a + b == a;
    } else {
      assert (a + b)[..|a + b| - 1] == a + b[..|b| - 1];
      ScanAppend(draw, s, a, b[..|b| - 1]);
    }
  }

  lemma {:induction false} ScanOne(draw: nat -> String, s: Scan, k: LineKind)
    ensures ScanLines(draw, s, [k]) == Step(draw, s, k)
  {
    assert [k][..0] == [];
  }

  /**
   * The reader's state once the records of `w` are read, at level `lv`: every
   * record but the last closed as its bare goal, the last one still open,
   * their parent references pending and one temporary id drawn per record.
   */
  function After(lv: Option<Level>, w: seq<Goal>): Scan
  {
    if w == [] then Scan(lv, None, [], map[], 0)
    else Scan(lv, Some(Bare(w[|w| - 1])), BareAll(w[..|w| - 1]), RefsOf(w), |w|)
  }

  lemma {:induction false} BareAllSnoc(w: seq<Goal>, g: Goal)
    ensures BareAll(w + [g]) == BareAll(w) + [Bare(g)]
  {
    assert forall k :: 0 <= k < |w| ==> (w + [g])[k] == w[k];
  }

  /** Closing the open record leaves every record of `w` read. */
  lemma {:induction false} FlushAfter(lv: Option<Level>, w: seq<Goal>)
    ensures Flush(After(lv, w)) == Scan(lv, None, BareAll(w), RefsOf(w), |w|)
  {
    if w != [] {
      BareAllSnoc(w[..|w| - 1], w[|w| - 1]);
      assert w[..|w| - 1] + [w[|w| - 1]] == w;
    }
  }

  lemma {:induction false} RefsOfSnoc(w: seq<Goal>, g: Goal)
    ensures RefsOf(w + [g]) == if Present(g.parentGoalId) then RefsOf(w)[g.id := g.parentGoalId.value] else RefsOf(w)
  {
    assert (w + [g])[..|w|] == w;
  }

  /** The goal a record leaves open before its description is read. */
  function Fields(g: Goal): Goal
  {
    Opened(g.id, g.title, g.level).(dueDate := KeepSet(g.dueDate), expanded := g.expanded, order := g.order)
  }

  /** The heading opens a goal under a fresh temporary id, which the `ID:` line replaces. */
  lemma {:induction false} HeadScan(draw: nat -> String, w: seq<Goal>, g: Goal)
    requires g.id != [] && draw(|w|) !in RefsOf(w)
    ensures ScanLines(draw, After(Some(g.level), w), HeadKinds(g))
      == Scan(Some(g.level), Some(Opened(g.id, g.title, g.level)), BareAll(w), RefsOf(w), |w| + 1)
  {
    var s := After(Some(g.level), w);
    var h := HeadingLine(g.title, "### " + g.title);
    FlushAfter(Some(g.level), w);
    var s1 := Step(draw, s, h);
    assert s1 == Scan(Some(g.level), Some(Opened(draw(|w|), g.title, g.level)), BareAll(w), RefsOf(w), |w| + 1);
    ScanOne(draw, s, h);
    ScanOne(draw, s1, FieldLine(IdField, g.id));
    ScanAppend(draw, s, [h], [FieldLine(IdField, g.id)]);
    assert [h] + [FieldLine(IdField, g.id)] == HeadKinds(g);
  }

  lemma {:induction false} ParentScan(draw: nat -> String, s: Scan, p: Option<String>)
    requires s.current.Some?
    ensures ScanLines(draw, s, OptKind(Present(p), ParentField, Val(p)))
      == if Present(p) then s.(refs := s.refs[s.current.value.id := p.value]) else s
  {
    if Present(p) {
      ScanOne(draw, s, FieldLine(ParentField, p.value));
    }
  }

  lemma {:induction false} DueScan(draw: nat -> String, s: Scan, d: Option<String>)
    requires s.current.Some?
    ensures ScanLines(draw, s, OptKind(Present(d), DueField, Val(d)))
      == if Present(d) then s.(current := Some(s.current.value.(dueDate := d))) else s
  {
    if Present(d) {
      ScanOne(draw, s, FieldLine(DueField, d.value));
    }
  }

  /** `展開:` reads back the flag it was written from. */
  lemma {:induction false} ExpandRead(b: bool)
    ensures (Lower(ExpandText(b)) == "true") == b
  {
    if b {
      assert Lower("true") == "true";
    } else {
      assert |Lower("false")| == 5;
    }
  }

  lemma {:induction false} ExpandScan(draw: nat -> String, s: Scan, e: Option<bool>)
    requires s.current.Some?
    ensures ScanLines(draw, s, OptKind(e.Some?, ExpandField, ExpandText(e == Some(true))))
      == if e.Some? then s.(current := Some(s.current.value.(expanded := e))) else s
  {
    if e.Some? {
      ExpandRead(e.value);
      ScanOne(draw, s, FieldLine(ExpandField, ExpandText(e.value)));
    }
  }

  lemma {:induction false} OrderScan(draw: nat -> String, s: Scan, g: Goal)
    requires s.current.Some?
    ensures ScanLines(draw, s, OptKind(g.order.Some?, OrderField, OrderText(g)))
      == if g.order.Some? then s.(current := Some(s.current.value.(order := g.order))) else s
  {
    if g.order.Some? {
      ParseIntOfString(g.order.value);
      ScanOne(draw, s, FieldLine(OrderField, OrderText(g)));
    }
  }

  /** The optional field lines set the due date, the flag and the order, and leave the parent pending. */
  lemma {:induction false} OptScan(draw: nat -> String, w: seq<Goal>, g: Goal)
    ensures ScanLines(draw, Scan(Some(g.level), Some(Opened(g.id, g.title, g.level)), BareAll(w), RefsOf(w), |w| + 1), OptKinds(g))
      == Scan(Some(g.level), Some(Fields(g)), BareAll(w), RefsOf(w + [g]), |w| + 1)
  {
    var s0 := Scan(Some(g.level), Some(Opened(g.id, g.title, g.level)), BareAll(w), RefsOf(w), |w| + 1);
    var p := OptKind(Present(g.parentGoalId), ParentField, Val(g.parentGoalId));
    var d := OptKind(Present(g.dueDate), DueField, Val(g.dueDate));
    var e := OptKind(g.expanded.Some?, ExpandField, ExpandText(g.expanded == Some(true)));
    var o := OptKind(g.order.Some?, OrderField, OrderText(g));
    ParentScan(draw, s0, g.parentGoalId);
    RefsOfSnoc(w, g);
    var s1 := s0.(refs := RefsOf(w + [g]));
    DueScan(draw, s1, g.dueDate);
    var s2 := s1.(current := Some(Opened(g.id, g.title, g.level).(dueDate := KeepSet(g.dueDate))));
    ExpandScan(draw, s2, g.expanded);
    var s3 := s2.(current := Some(Opened(g.id, g.title, g.level).(dueDate := KeepSet(g.dueDate), expanded := g.expanded)));
    OrderScan(draw, s3, g);
    ScanAppend(draw, s0, p, d);
    ScanAppend(draw, s0, p + d, e);
    ScanAppend(draw, s0, p + d + e, o);
  }

  /** The description line completes the record's goal; the blank line after it changes nothing. */
  lemma {:induction false} TailScan(draw: nat -> String, lv: Level, g: Goal, done: seq<Goal>, refs: map<String, String>, n: nat)
    requires Present(g.description) ==> g.description.value != []
    ensures ScanLines(draw, Scan(Some(lv), Some(Fields(g)), done, refs, n), [DescriptionKind(g), TextLine([])])
      == Scan(Some(lv), Some(Bare(g)), done, refs, n)
  {
    var s := Scan(Some(lv), Some(Fields(g)), done, refs, n);
    var s1 := Scan(Some(lv), Some(Bare(g)), done, refs, n);
    assert Step(draw, s, DescriptionKind(g)) == s1;
    ScanOne(draw, s, DescriptionKind(g));
    ScanOne(draw, s1, TextLine([]));
    ScanAppend(draw, s, [DescriptionKind(g)], [TextLine([])]);
  }

  /** Reading a plain goal's record after the records of `w` leaves the records of `w + [g]` read. */
  lemma {:induction false} RecordScan(draw: nat -> String, w: seq<Goal>, g: Goal)
    requires PlainGoal(g) && draw(|w|) !in RefsOf(w)
    ensures ScanLines(draw, After(Some(g.level), w), GoalKinds(g)) == After(Some(g.level), w + [g])
  {
    var s := After(Some(g.level), w);
    var h := HeadKinds(g);
    var o := OptKinds(g);
    var t := [DescriptionKind(g), TextLine([])];
    HeadScan(draw, w, g);
    OptScan(draw, w, g);
    TailScan(draw, g.level, g, BareAll(w), RefsOf(w + [g]), |w| + 1);
    ScanAppend(draw, s, h, o);
    ScanAppend(draw, s, h + o, t);
    assert GoalKinds(g) == h + o + t;
    assert (w + [g])[..|w|] == w;
  }

  /** Every goal of `w` has its id in `avoid`. */
  predicate IdsIn(w: seq<Goal>, avoid: set<String>)
  {
    forall k :: 0 <= k < |w| ==> w[k].id in avoid
  }

  /** Pending references are keyed by ids of the records read. */
  lemma {:induction false} RefsAvoid(w: seq<Goal>, avoid: set<String>)
    requires IdsIn(w, avoid)
    ensures forall x :: x in RefsOf(w) ==> x in avoid
  {
    if w != [] {
      RefsAvoid(w[..|w| - 1], avoid);
    }
  }

  lemma {:induction false} IdsInAppend(a: seq<Goal>, b: seq<Goal>, avoid: set<String>)
    requires IdsIn(a, avoid) && IdsIn(b, avoid)
    ensures IdsIn(a + b, avoid)
  {
    forall k | 0 <= k < |a + b| ensures (a + b)[k].id in avoid {
      if k >= |a| {
        assert (a + b)[k] == b[k - |a|];
      }
    }
  }

  /** The next temporary id is not an id with a pending reference. */
  lemma {:induction false} FreshDraw(draw: nat -> String, w: seq<Goal>, init: seq<Goal>, avoid: set<String>)
    requires IdsIn(w, avoid) && IdsIn(init, avoid)
    requires forall n: nat :: draw(n) !in avoid
    ensures draw(|w + init|) !in RefsOf(w + init)
  {
    IdsInAppend(w, init, avoid);
    RefsAvoid(w + init, avoid);
  }

  lemma {:induction false} RecordsStep(draw: nat -> String, w: seq<Goal>, init: seq<Goal>, g: Goal)
    requires ScanLines(draw, After(Some(g.level), w), RecordsKinds(init)) == After(Some(g.level), w + init)
    requires PlainGoal(g) && draw(|w + init|) !in RefsOf(w + init)
    ensures ScanLines(draw, After(Some(g.level), w), RecordsKinds(init + [g])) == After(Some(g.level), w + init + [g])
  {
    assert (init + [g])[..|init|] == init;
    RecordScan(draw, w + init, g);
    ScanAppend(draw, After(Some(g.level), w), RecordsKinds(init), GoalKinds(g));
  }

  /** The records of one level, read in turn, each with a temporary id none of them has. */
  lemma {:induction false} RecordsScan(draw: nat -> String, l: Level, w: seq<Goal>, q: seq<Goal>, avoid: set<String>)
    requires forall k :: 0 <= k < |q| ==> PlainGoal(q[k]) && q[k].level == l
    requires IdsIn(w, avoid) && IdsIn(q, avoid)
    requires forall n: nat :: draw(n) !in avoid
    ensures ScanLines(draw, After(Some(l), w), RecordsKinds(q)) == After(Some(l), w + q)
  {
    if q == [] {
      assert w + q == w;
    } else {
      var init := q[..|q| - 1];
      var last := q[|q| - 1];
      assert IdsIn(init, avoid);
      RecordsScan(draw, l, w, init, avoid);
      FreshDraw(draw, w, init, avoid);
      RecordsStep(draw, w, init, last);
      SnocParts(q);
      ConcatAssoc(w, init, [last]);
    }
  }

  lemma {:induction false} BlankScan(draw: nat -> String, s: Scan)
    ensures ScanLines(draw, s, [TextLine([])]) == s
  {
    ScanOne(draw, s, TextLine([]));
  }

  /** A level block: its heading sets the level, then its records are read. */
  lemma {:induction false} BlockScan(draw: nat -> String, l: Level, lv: Option<Level>, w: seq<Goal>, gs: seq<Goal>, avoid: set<String>)
    requires forall x :: x in gs ==> PlainGoal(x) && x.id in avoid
    requires IdsIn(w, avoid)
    requires forall n: nat :: draw(n) !in avoid
    ensures ScanLines(draw, After(lv, w), BlockKinds(gs, l)) == After(Some(l), w + LevelGoals(gs, l))
  {
    var s := After(lv, w);
    var s1 := After(Some(l), w);
    var head := [LevelLine(Some(l))];
    var mid := BlockBody(gs, l);
    var q := LevelGoals(gs, l);
    ScanOne(draw, s, LevelLine(Some(l)));
    if AtLevel(gs, l) == [] {
      assert q == [] && w + q == w;
      BlankScan(draw, s1);
    } else {
      LevelGoalsFrom(gs, l);
      RecordsScan(draw, l, w, q, avoid);
    }
    BlankScan(draw, After(Some(l), w + q));
    ScanAppend(draw, s, head, mid);
    ScanAppend(draw, s, head + mid, [TextLine([])]);
  }

  function LastLevel(ls: seq<Level>): Option<Level>
  {
    if ls == [] then None else Some(ls[|ls| - 1])
  }

  /** The level blocks of `ls` leave the goals read in the order they were written. */
  lemma {:induction false} BlocksScan(draw: nat -> String, ls: seq<Level>, gs: seq<Goal>, avoid: set<String>)
    requires forall x :: x in gs ==> PlainGoal(x) && x.id in avoid
    requires forall n: nat :: draw(n) !in avoid
    ensures ScanLines(draw, Start, BlocksKinds(ls, gs)) == After(LastLevel(ls), ArrangedOver(ls, gs))
  {
    if ls != [] {
      var init := ls[..|ls| - 1];
      var w := ArrangedOver(init, gs);
      BlocksScan(draw, init, gs, avoid);
      assert IdsIn(w, avoid);
      BlockScan(draw, ls[|ls| - 1], LastLevel(init), w, gs, avoid);
      ScanAppend(draw, Start, BlocksKinds(init, gs), BlockKinds(gs, ls[|ls| - 1]));
    }
  }

  // ---------------------------------------------------------------------
  // the lines before the first level heading

  lemma NotLevel(line: String)
    requires !StartsWith(line, "##")
    ensures !Classify(line).LevelLine?
  {
  }

  /** Lines that are not level headings leave the initial state as it is. */
  lemma {:induction false} IdleScan(draw: nat -> String, ks: seq<LineKind>)
    requires forall i :: 0 <= i < |ks| ==> !ks[i].LevelLine?
    ensures ScanLines(draw, Start, ks) == Start
  {
    if ks != [] {
      IdleScan(draw, ks[..|ks| - 1]);
    }
  }

  /** The front matter, the title and the blank line after it open nothing. */
  lemma {:induction false} HeadIdle(draw: nat -> String, tags: seq<String>)
    ensures ScanLines(draw, Start, Kinds(Frontmatter(tags) + [Title, ""])) == Start
  {
    var head := Frontmatter(tags) + [Title, ""];
    var ks := Kinds(head);
    FrontmatterNoHeading(tags);
    forall i | 0 <= i < |ks| ensures !ks[i].LevelLine? {
      if i < |Frontmatter(tags)| {
        assert head[i] == Frontmatter(tags)[i];
      } else {
        assert head[i] == Title || head[i] == "";
        assert Title[..2] == "# ";
      }
      NotLevel(head[i]);
    }
    IdleScan(draw, ks);
  }

  // ---------------------------------------------------------------------
  // resolving the references read back

  /** Two goal lists that agree on every position's id and title. */
  predicate SameNames(a: seq<Goal>, b: seq<Goal>)
  {
    |a| == |b| && forall k :: 0 <= k < |a| ==> a[k].id == b[k].id && a[k].title == b[k].title
  }

  lemma {:induction false} LastTitledSame(a: seq<Goal>, b: seq<Goal>, t: String)
    requires SameNames(a, b)
    ensures LastTitled(a, t) == LastTitled(b, t)
  {
    if a != [] {
      var n := |a| - 1;
      assert SameNames(a[..n], b[..n]);
      LastTitledSame(a[..n], b[..n], t);
    }
  }

  lemma IdsSame(a: seq<Goal>, b: seq<Goal>)
    requires SameNames(a, b)
    ensures Ids(a) == Ids(b)
  {
    forall x | x in Ids(a) ensures x in Ids(b) {
      var g :| g in a && g.id == x;
      var k :| 0 <= k < |a| && a[k] == g;
      assert b[k] in b;
    }
    forall x | x in Ids(b) ensures x in Ids(a) {
      var g :| g in b && g.id == x;
      var k :| 0 <= k < |b| && b[k] == g;
      assert a[k] in a;
    }
  }

  /** References resolve the same way among the bare goals as among the written ones. */
  lemma ResolveBare(a: seq<Goal>, r: String)
    ensures ResolveRef(BareAll(a), r) == ResolveRef(a, r)
  {
    assert SameNames(BareAll(a), a);
    IdsSame(BareAll(a), a);
    LastTitledSame(BareAll(a), a, r);
  }

  lemma {:induction false} IdsOfIn(w: seq<Goal>)
    ensures IdsIn(w, Ids(w))
  {
    forall k | 0 <= k < |w| ensures w[k].id in Ids(w) {
      assert w[k] in w;
    }
  }

  /** Among goals with distinct ids, each goal's pending reference is its own parent. */
  lemma {:induction false} RefsOfAt(a: seq<Goal>)
    requires DistinctIds(a)
    ensures forall k :: 0 <= k < |a| ==> (a[k].id in RefsOf(a) <==> Present(a[k].parentGoalId))
    ensures forall k :: 0 <= k < |a| && Present(a[k].parentGoalId) ==> RefsOf(a)[a[k].id] == a[k].parentGoalId.value
  {
    if a != [] {
      var n := |a| - 1;
      var init := a[..n];
      var last := a[n];
      assert DistinctIds(init);
      RefsOfAt(init);
      IdsOfIn(init);
      RefsAvoid(init, Ids(init));
      assert forall j :: 0 <= j < n ==> init[j].id != last.id;
      assert last.id !in Ids(init);
      forall k | 0 <= k < n ensures a[k] == init[k] && a[k].id != last.id {
      }
    }
  }

  lemma MapNotEmpty(m: map<String, String>, x: String)
    requires x in m
    ensures |m| != 0
  {
    assert x in m.Keys;
  }

  /** Resolving the references read back gives each written goal its parent, as resolved among them. */
  lemma ResolveWritten(a: seq<Goal>)
    requires DistinctIds(a)
    ensures Resolve(BareAll(a), RefsOf(a)) == ReadBackAll(a)
  {
    var refs := RefsOf(a);
    var b := BareAll(a);
    RefsOfAt(a);
    var r := Resolve(b, refs);
    forall k | 0 <= k < |a| ensures r[k] == ReadBack(a[k], a) {
      if Present(a[k].parentGoalId) {
        MapNotEmpty(refs, a[k].id);
        ResolveBare(a, a[k].parentGoalId.value);
      } else if |refs| != 0 {
        assert r[k] == ResolveOne(b, refs, b[k]);
      }
    }
  }

  // ---------------------------------------------------------------------
  // the written order is a permutation

  /** The goals of `gs` whose level is one of `ls`, in input order. */
  function Among(gs: seq<Goal>, ls: seq<Level>): seq<Goal>
  {
    if gs == [] then []
    else Among(gs[..|gs| - 1], ls) + (if gs[|gs| - 1].level in ls then [gs[|gs| - 1]] else [])
  }

  lemma {:induction false} AmongSnoc(gs: seq<Goal>, ls: seq<Level>, l: Level)
    requires l !in ls
    ensures multiset(Among(gs, ls + [l])) == multiset(Among(gs, ls)) + multiset(AtLevel(gs, l))
  {
    if gs != [] {
      AmongSnoc(gs[..|gs| - 1], ls, l);
    }
  }

  lemma {:induction false} AmongNone(gs: seq<Goal>)
    ensures Among(gs, []) == []
  {
    if gs != [] {
      AmongNone(gs[..|gs| - 1]);
    }
  }

  lemma {:induction false} AmongAll(gs: seq<Goal>)
    ensures Among(gs, LevelOrder) == gs
  {
    if gs != [] {
      AmongAll(gs[..|gs| - 1]);
      var l := gs[|gs| - 1].level;
      assert LevelOrder[LevelIndex(l)] == l;
      assert gs[..|gs| - 1] + [gs[|gs| - 1]] == gs;
    }
  }

  predicate DistinctLevels(ls: seq<Level>)
  {
    forall i, j :: 0 <= i < j < |ls| ==> ls[i] != ls[j]
  }

  lemma LevelOrderDistinct()
    ensures DistinctLevels(LevelOrder)
  {
    forall i, j | 0 <= i < j < |LevelOrder| ensures LevelOrder[i] != LevelOrder[j] {
      assert LevelIndex(LevelOrder[i]) == i && LevelIndex(LevelOrder[j]) == j;
    }
  }

  lemma {:induction false} ArrangedAmong(ls: seq<Level>, gs: seq<Goal>)
    requires DistinctLevels(ls)
    ensures multiset(ArrangedOver(ls, gs)) == multiset(Among(gs, ls))
  {
    if ls != [] {
      var init := ls[..|ls| - 1];
      var l := ls[|ls| - 1];
      assert DistinctLevels(init);
      ArrangedAmong(init, gs);
      assert l !in init by {
        assert forall i :: 0 <= i < |init| ==> init[i] == ls[i];
      }
      AmongSnoc(gs, init, l);
      assert init + [l] == ls;
      var p := ArrangedOver(init, gs);
      var q := LevelGoals(gs, l);
      assert ArrangedOver(ls, gs) == p + q;
      assert multiset(p + q) == multiset(p) + multiset(AtLevel(gs, l));
    } else {
      AmongNone(gs);
    }
  }

  /** The goals are written each exactly once: the written order is a permutation. */
  lemma ArrangedPermutation(gs: seq<Goal>)
    ensures multiset(Arranged(gs)) == multiset(gs)
  {
    LevelOrderDistinct();
    ArrangedAmong(LevelOrder, gs);
    AmongAll(gs);
  }

  lemma CountTwo(s: seq<Goal>, i: nat, j: nat)
    requires i < j < |s| && s[i] == s[j]
    ensures multiset(s)[s[i]] >= 2
  {
    assert s == s[..j] + s[j..];
    assert s[..j][i] == s[i] && s[j..][0] == s[j];
    assert multiset(s) == multiset(s[..j]) + multiset(s[j..]);
  }

  lemma {:induction false} CountOne(gs: seq<Goal>, x: Goal)
    requires DistinctIds(gs)
    ensures multiset(gs)[x] <= 1
  {
    if gs != [] {
      var n := |gs| - 1;
      var init := gs[..n];
      assert DistinctIds(init);
      CountOne(init, x);
      assert gs == init + [gs[n]];
      if x == gs[n] {
        assert forall k :: 0 <= k < n ==> init[k] != x;
        assert x !in multiset(init);
      }
    }
  }

  /** Goals with distinct ids are written with distinct ids. */
  lemma DistinctArranged(gs: seq<Goal>)
    requires DistinctIds(gs)
    ensures DistinctIds(Arranged(gs))
  {
    var a := Arranged(gs);
    ArrangedPermutation(gs);
    forall i, j | 0 <= i < j < |a| ensures a[i].id != a[j].id {
      if a[i] == a[j] {
        CountTwo(a, i, j);
        CountOne(gs, a[i]);
        assert false;
      }
      assert a[i] in multiset(gs) && a[j] in multiset(gs);
      var p :| 0 <= p < |gs| && gs[p] == a[i];
      var q :| 0 <= q < |gs| && gs[q] == a[j];
      assert p != q;
    }
  }

  // ---------------------------------------------------------------------
  // the round trip

  /** The written file splits into its head and the kinds of its level blocks. */
  /** The lines of a written document: front matter, title, then the level blocks. */
  lemma WrittenLines(gs: seq<Goal>, tags: seq<String>)
    requires NoBreaks(Blocks(LevelOrder, gs))
    requires NoBreaks(tags)
    ensures Split(Serialize(gs, tags), '\n') == Frontmatter(NormalizedTags(tags)) + [Title, ""] + Blocks(LevelOrder, gs)
  {
    var body := Blocks(LevelOrder, gs);
    assert NoBreaks([Title, ""]);
    NoBreaksConcat([Title, ""], body);
    DocumentSplit(SerializeLines(gs), tags);
    ConcatAssoc(Frontmatter(NormalizedTags(tags)), [Title, ""], body);
  }

  lemma WrittenKinds(gs: seq<Goal>, tags: seq<String>)
    requires forall x :: x in gs ==> PlainGoal(x)
    requires NoBreaks(tags)
    ensures Kinds(Split(Serialize(gs, tags), '\n'))
      == Kinds(Frontmatter(NormalizedTags(tags)) + [Title, ""]) + BlocksKinds(LevelOrder, gs)
  {
    BodyKinds(gs);
    WrittenLines(gs, tags);
    KindsAppend(Frontmatter(NormalizedTags(tags)) + [Title, ""], Blocks(LevelOrder, gs));
  }

  /**
   * Reading back what `Serialize` wrote gives the written goals in the order
   * they were written (level by level, each level in the writer's order),
   * each with its parent reference resolved among them.
   */
  lemma RoundTrip(gs: seq<Goal>, tags: seq<String>, draw: nat -> String)
    requires forall x :: x in gs ==> PlainGoal(x)
    requires DistinctIds(gs)
    requires forall n: nat :: draw(n) !in Ids(gs)
    requires NoBreaks(tags)
    ensures ParseGoals(Serialize(gs, tags), draw) == ReadBackAll(Arranged(gs))
  {
    var head := Kinds(Frontmatter(NormalizedTags(tags)) + [Title, ""]);
    var body := BlocksKinds(LevelOrder, gs);
    WrittenKinds(gs, tags);
    HeadIdle(draw, NormalizedTags(tags));
    ScanAppend(draw, Start, head, body);
    forall x | x in gs ensures PlainGoal(x) && x.id in Ids(gs) {
    }
    BlocksScan(draw, LevelOrder, gs, Ids(gs));
    FlushAfter(Some(Weekly), Arranged(gs));
    DistinctArranged(gs);
    ResolveWritten(Arranged(gs));
  }
}
