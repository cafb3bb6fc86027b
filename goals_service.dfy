/**
 * GoalsService over an abstract store: each operation takes the goals
 * document as read (the empty string when there is none) and gives what it
 * returns and the document it writes. Temporary ids drawn while parsing and
 * the ids drawn for new goals are oracle parameters.
 */
module GoalsService {
  import opened Text
  import opened MarkdownTags
  import opened Sorting
  import opened Goals
  import opened GoalsRoundTrip

  // ---------------------------------------------------------------------
  // listGoals

  /** Position `p` starts a line, as `^` does under the `m` flag. */
  predicate AtLineStart(s: String, p: nat)
    requires p <= |s|
  {
    p == 0 || IsLineTerminator(s[p - 1])
  }

  /** The matches of `/^ID:/gm` at or after position `p`. */
  function IdLinesFrom(s: String, p: nat): nat
    decreases |s| - p
  {
    if p >= |s| then 0
    else (if AtLineStart(s, p) && StartsWith(s[p..], "ID:") then 1 else 0) + IdLinesFrom(s, p + 1)
  }

  /** `content.match(/^ID:/gm)?.length ?? 0`. */
  function IdLines(s: String): nat
  {
    IdLinesFrom(s, 0)
  }

  datatype Listed = Listed(goals: seq<Goal>, write: Option<String>)

  /**
   * listGoals: an empty document is seeded with the serialization of no
   * goals; otherwise the document is rewritten when it has goals and fewer
   * `ID:` lines than goals (the self-heal that gives legacy goals their ids).
   */
  function ListGoals(content: String, tags: seq<String>, draw: nat -> String): (r: Listed)
    ensures content == [] ==> r == Listed([], Some(Serialize([], tags)))
    ensures content != [] ==> r.goals == ParseGoals(content, draw)
    ensures content != [] ==> (r.write.Some? <==> |r.goals| > 0 && IdLines(content) < |r.goals|)
    ensures r.write.Some? ==> r.write.value == Serialize(r.goals, tags)
  {
    if content == [] then Listed([], Some(Serialize([], tags)))
    else
      var goals := ParseGoals(content, draw);
      Listed(goals, if |goals| > 0 && IdLines(content) < |goals| then Some(Serialize(goals, tags)) else None)
  }

  // --- counting the `ID:` lines of a written document

  lemma {:induction false} IdLinesMonotone(s: String, p: nat, q: nat)
    requires p <= q
    ensures IdLinesFrom(s, p) >= IdLinesFrom(s, q)
    decreases q - p
  {
    if p < q {
      IdLinesMonotone(s, p + 1, q);
    }
  }

  /** After a line break, positions count as they do in the text that follows it. */
  lemma {:induction false} IdLinesShift(a: String, y: String, i: nat)
    requires a != [] && a[|a| - 1] == '\n' && i <= |y|
    ensures IdLinesFrom(a + y, |a| + i) == IdLinesFrom(y, i)
    decreases |y| - i
  {
    if i < |y| {
      var s := a + y;
      assert s[|a| + i..] == y[i..];
      if i > 0 {
        assert s[|a| + i - 1] == y[i - 1];
      }
      IdLinesShift(a, y, i + 1);
    }
  }

  /** The lines of `lines` that start with `ID:`. */
  function IdStarts(lines: seq<String>): nat
  {
    if lines == [] then 0
    else IdStarts(lines[..|lines| - 1]) + (if StartsWith(lines[|lines| - 1], "ID:") then 1 else 0)
  }

  lemma {:induction false} IdStartsAppend(a: seq<String>, b: seq<String>)
    ensures IdStarts(a + b) == IdStarts(a) + IdStarts(b)
    decreases |b|
  {
    if b == [] {
      assert a + b == a;
    } else {
      assert (a + b)[..|a + b| - 1] == a + b[..|b| - 1];
      IdStartsAppend(a, b[..|b| - 1]);
    }
  }

  lemma IdStartsFirst(x: String, rest: seq<String>)
    ensures IdStarts([x] + rest) == (if StartsWith(x, "ID:") then 1 else 0) + IdStarts(rest)
  {
    IdStartsAppend([x], rest);
    assert [x][..0] == [];
  }

  /** Every line of a document joined with line breaks that starts with `ID:` is matched. */
  lemma {:induction false} IdLinesJoin(lines: seq<String>)
    ensures IdLines(Join(lines, "\n")) >= IdStarts(lines)
  {
    if |lines| == 1 {
      IdStartsFirst(lines[0], []);
      assert [lines[0]] + [] == lines;
    } else if |lines| > 1 {
      var x := lines[0];
      var rest := lines[1..];
      var y := Join(rest, "\n");
      var a := x + "\n";
      var s := Join(lines, "\n");
      assert s == a + y;
      IdLinesJoin(rest);
      IdLinesShift(a, y, 0);
      IdLinesMonotone(s, 1, |a|);
      if StartsWith(x, "ID:") {
        assert s[..3] == x[..3];
      }
      IdStartsFirst(x, rest);
      assert [x] + rest == lines;
    }
  }

  /** The kinds that are `ID:` lines. */
  function IdKinds(ks: seq<LineKind>): nat
  {
    if ks == [] then 0
    else IdKinds(ks[..|ks| - 1]) + (if ks[|ks| - 1].FieldLine? && ks[|ks| - 1].field == IdField then 1 else 0)
  }

  lemma {:induction false} IdKindsAppend(a: seq<LineKind>, b: seq<LineKind>)
    ensures IdKinds(a + b) == IdKinds(a) + IdKinds(b)
    decreases |b|
  {
    if b == [] {
      assert a + b == a;
    } else {
      assert (a + b)[..|a + b| - 1] == a + b[..|b| - 1];
      IdKindsAppend(a, b[..|b| - 1]);
    }
  }

  lemma {:induction false} IdStartsRender(ks: seq<LineKind>)
    ensures IdStarts(RenderAll(ks)) >= IdKinds(ks)
  {
    if ks != [] {
      var init := ks[..|ks| - 1];
      var k := ks[|ks| - 1];
      IdStartsRender(init);
      IdStartsAppend(RenderAll(init), [Render(k)]);
      assert [Render(k)][..0] == [];
      if k.FieldLine? && k.field == IdField {
        assert Render(k)[..3] == "ID:";
      }
    }
  }

  lemma GoalIdKind(g: Goal)
    ensures IdKinds(GoalKinds(g)) >= 1
  {
    var h := HeadKinds(g);
    assert h[..|h| - 1] == [h[0]];
    assert [h[0]][..0] == [];
    assert IdKinds([h[0]]) == 0;
    assert IdKinds(h) == 1;
    IdKindsAppend(h, OptKinds(g));
    IdKindsAppend(h + OptKinds(g), [DescriptionKind(g)]);
    IdKindsAppend(h + OptKinds(g) + [DescriptionKind(g)], [TextLine([])]);
  }

  lemma {:induction false} RecordsIdKinds(q: seq<Goal>)
    ensures IdKinds(RecordsKinds(q)) >= |q|
  {
    if q != [] {
      RecordsIdKinds(q[..|q| - 1]);
      GoalIdKind(q[|q| - 1]);
      IdKindsAppend(RecordsKinds(q[..|q| - 1]), GoalKinds(q[|q| - 1]));
    }
  }

  lemma BlockIdKinds(gs: seq<Goal>, l: Level)
    ensures IdKinds(BlockKinds(gs, l)) >= |LevelGoals(gs, l)|
  {
    var mid := BlockBody(gs, l);
    if AtLevel(gs, l) != [] {
      RecordsIdKinds(LevelGoals(gs, l));
    }
    IdKindsAppend([LevelLine(Some(l))], mid);
    IdKindsAppend([LevelLine(Some(l))] + mid, [TextLine([])]);
  }

  lemma {:induction false} BlocksIdKinds(ls: seq<Level>, gs: seq<Goal>)
    ensures IdKinds(BlocksKinds(ls, gs)) >= |ArrangedOver(ls, gs)|
  {
    if ls != [] {
      BlocksIdKinds(ls[..|ls| - 1], gs);
      BlockIdKinds(gs, ls[|ls| - 1]);
      IdKindsAppend(BlocksKinds(ls[..|ls| - 1], gs), BlockKinds(gs, ls[|ls| - 1]));
    }
  }

  /** A written goals file has an `ID:` line per goal. */
  lemma WrittenIdLines(gs: seq<Goal>, tags: seq<String>)
    ensures IdLines(Serialize(gs, tags)) >= |gs|
  {
    var head := Frontmatter(NormalizedTags(tags)) + [Title, ""];
    var body := Blocks(LevelOrder, gs);
    BlocksRender(LevelOrder, gs);
    IdStartsRender(BlocksKinds(LevelOrder, gs));
    BlocksIdKinds(LevelOrder, gs);
    ArrangedPermutation(gs);
    assert |Arranged(gs)| == |multiset(gs)| == |gs|;
    ConcatAssoc(Frontmatter(NormalizedTags(tags)), [Title, ""], body);
    IdStartsAppend(head, body);
    IdLinesJoin(head + body);
  }

  lemma SerializeNonEmpty(gs: seq<Goal>, tags: seq<String>)
    ensures Serialize(gs, tags) != []
  {
    var all := PrependTagFrontmatter(SerializeLines(gs), tags);
    assert |all| >= 2;
    assert Join(all, "\n") == all[0] + "\n" + Join(all[1..], "\n");
  }

  /** Once seeded, the document lists no goals and is left as it is. */
  lemma ListAfterSeed(tags: seq<String>, draw: nat -> String, again: nat -> String)
    requires NoBreaks(tags)
    ensures ListGoals(ListGoals([], tags, draw).write.value, tags, again) == Listed([], None)
  {
    RoundTrip([], tags, again);
    SerializeNonEmpty([], tags);
    ArrangedPermutation([]);
  }

  /** Listing what a save wrote gives the saved goals back and rewrites nothing. */
  lemma ListAfterSave(gs: seq<Goal>, tags: seq<String>, draw: nat -> String)
    requires forall x :: x in gs ==> PlainGoal(x)
    requires DistinctIds(gs)
    requires forall n: nat :: draw(n) !in Ids(gs)
    requires NoBreaks(tags)
    ensures ListGoals(Serialize(gs, tags), tags, draw) == Listed(ReadBackAll(Arranged(gs)), None)
  {
    RoundTrip(gs, tags, draw);
    SerializeNonEmpty(gs, tags);
    WrittenIdLines(gs, tags);
    ArrangedPermutation(gs);
    assert |Arranged(gs)| == |multiset(gs)| == |gs|;
  }

  // ---------------------------------------------------------------------
  // addGoal

  /** `goal.order ?? 0`. */
  function OrderOr0(g: Goal): int
  {
    if g.order.Some? then g.order.value else 0
  }

  predicate Sibling(g: Goal, level: Level, parentGoalId: Option<String>)
  {
    g.level == level && g.parentGoalId == parentGoalId
  }

  /** The orders of the goals at `level` under the same parent (both unset counts as the same). */
  function SiblingOrders(goals: seq<Goal>, level: Level, parentGoalId: Option<String>): seq<int>
  {
    if goals == [] then []
    else
      var g := goals[|goals| - 1];
      SiblingOrders(goals[..|goals| - 1], level, parentGoalId) + (if Sibling(g, level, parentGoalId) then [OrderOr0(g)] else [])
  }

  /** Every collected order is some sibling's order, and every sibling's order is collected. */
  lemma {:induction false} SiblingOrdersSpec(goals: seq<Goal>, level: Level, parentGoalId: Option<String>)
    ensures forall v :: v in SiblingOrders(goals, level, parentGoalId) ==>
      exists j :: 0 <= j < |goals| && Sibling(goals[j], level, parentGoalId) && OrderOr0(goals[j]) == v
    ensures forall j :: 0 <= j < |goals| && Sibling(goals[j], level, parentGoalId) ==> OrderOr0(goals[j]) in SiblingOrders(goals, level, parentGoalId)
  {
    if goals != [] {
      var init := goals[..|goals| - 1];
      var g := goals[|goals| - 1];
      SiblingOrdersSpec(init, level, parentGoalId);
      SiblingOrdersSnoc(init, g, level, parentGoalId, SiblingOrders(init, level, parentGoalId));
      SnocParts(goals);
    }
  }

  /** Each order collected is a sibling's, and each sibling's order is collected, after one more goal. */
  lemma SiblingOrdersSnoc(init: seq<Goal>, g: Goal, level: Level, parentGoalId: Option<String>, p: seq<int>)
    requires forall v :: v in p ==> exists j :: 0 <= j < |init| && Sibling(init[j], level, parentGoalId) && OrderOr0(init[j]) == v
    requires forall j :: 0 <= j < |init| && Sibling(init[j], level, parentGoalId) ==> OrderOr0(init[j]) in p
    ensures var goals := init + [g];
      var r := p + (if Sibling(g, level, parentGoalId) then [OrderOr0(g)] else []);
      (forall v :: v in r ==> exists j :: 0 <= j < |goals| && Sibling(goals[j], level, parentGoalId) && OrderOr0(goals[j]) == v)
      && (forall j :: 0 <= j < |goals| && Sibling(goals[j], level, parentGoalId) ==> OrderOr0(goals[j]) in r)
  {
    var goals := init + [g];
    var r := p + (if Sibling(g, level, parentGoalId) then [OrderOr0(g)] else []);
    forall v | v in r
      ensures exists j :: 0 <= j < |goals| && Sibling(goals[j], level, parentGoalId) && OrderOr0(goals[j]) == v
    {
      if v in p {
        var j :| 0 <= j < |init| && Sibling(init[j], level, parentGoalId) && OrderOr0(init[j]) == v;
        assert goals[j] == init[j];
      } else {
        assert goals[|init|] == g && v == OrderOr0(g);
      }
    }
    forall j | 0 <= j < |goals| && Sibling(goals[j], level, parentGoalId)
      ensures OrderOr0(goals[j]) in r
    {
      if j < |init| {
        assert goals[j] == init[j];
      } else {
        assert goals[j] == g && r[|p|] == OrderOr0(g);
      }
    }
  }

  function MaxOf(xs: seq<int>): (m: int)
    requires xs != []
    ensures m in xs && forall k :: 0 <= k < |xs| ==> xs[k] <= m
  {
    if |xs| == 1 then xs[0]
    else
      var m := MaxOf(xs[1..]);
      assert forall k :: 1 <= k < |xs| ==> xs[k] == xs[1..][k - 1];
      if xs[0] >= m then xs[0] else m
  }

  /** One more than the largest sibling order (a missing order counts as 0), or 1 without siblings. */
  function NextOrder(goals: seq<Goal>, level: Level, parentGoalId: Option<String>): int
  {
    var orders := SiblingOrders(goals, level, parentGoalId);
    if |orders| > 0 then MaxOf(orders) + 1 else 1
  }

  /** The new goal's order is above every sibling's and one more than some sibling's, or 1 alone. */
  lemma NextOrderSpec(goals: seq<Goal>, level: Level, parentGoalId: Option<String>)
    ensures forall j :: 0 <= j < |goals| && Sibling(goals[j], level, parentGoalId) ==>
      OrderOr0(goals[j]) < NextOrder(goals, level, parentGoalId)
    ensures (forall j :: 0 <= j < |goals| ==> !Sibling(goals[j], level, parentGoalId)) ==>
      NextOrder(goals, level, parentGoalId) == 1
    ensures (exists j :: 0 <= j < |goals| && Sibling(goals[j], level, parentGoalId)) ==>
      exists j :: 0 <= j < |goals| && Sibling(goals[j], level, parentGoalId) && OrderOr0(goals[j]) == NextOrder(goals, level, parentGoalId) - 1
  {
    var orders := SiblingOrders(goals, level, parentGoalId);
    SiblingOrdersSpec(goals, level, parentGoalId);
    if |orders| > 0 {
      var m := MaxOf(orders);
      forall j | 0 <= j < |goals| && Sibling(goals[j], level, parentGoalId)
        ensures OrderOr0(goals[j]) < m + 1
      {
        assert OrderOr0(goals[j]) in orders;
      }
      assert m in orders;
    } else {
      assert forall j :: 0 <= j < |goals| ==> !Sibling(goals[j], level, parentGoalId);
    }
  }

  /**
   * The id loop of addGoal: ids `next(0)`, `next(1)`, ... (made from the
   * clock and a random number) are drawn until one is not taken.
   */
  method FreshGoalId(taken: set<String>, next: nat -> String) returns (id: String, k: nat)
    requires exists n: nat :: next(n) !in taken
    ensures id == next(k) && id !in taken
    ensures forall j :: 0 <= j < k ==> next(j) in taken
  {
    ghost var bound: nat :| next(bound) !in taken;
    k := 0;
    id := next(0);
    while id in taken
      invariant id == next(k) && k <= bound
      invariant forall j :: 0 <= j < k ==> next(j) in taken
      decreases bound - k
    {
      k := k + 1;
      id := next(k);
    }
  }

  /** The goal addGoal appends: active, with the next sibling order and nothing expanded. */
  function NewGoal(goals: seq<Goal>, id: String, level: Level, title: String, description: Option<String>,
                   parentGoalId: Option<String>, dueDate: Option<String>): Goal
  {
    Goal(id, title, level, description, Some(NextOrder(goals, level, parentGoalId)), dueDate, None, parentGoalId, Active)
  }

  /** addGoal: the listed goals with one new goal at the end, saved; returns the new goal. */
  method AddGoal(content: String, tags: seq<String>, draw: nat -> String, next: nat -> String,
                 level: Level, title: String, description: Option<String>, parentGoalId: Option<String>,
                 dueDate: Option<String>)
    returns (goal: Goal, written: String)
    requires exists n: nat :: next(n) !in Ids(ListGoals(content, tags, draw).goals)
    ensures var goals := ListGoals(content, tags, draw).goals;
      goal == NewGoal(goals, goal.id, level, title, description, parentGoalId, dueDate)
      && goal.id !in Ids(goals)
      && written == Serialize(goals + [goal], tags)
  {
    var goals := ListGoals(content, tags, draw).goals;
    var id, _ := FreshGoalId(Ids(goals), next);
    goal := NewGoal(goals, id, level, title, description, parentGoalId, dueDate);
    written := Serialize(goals + [goal], tags);
  }

  /** Adding a goal keeps the others as they are and gives the new one an id none of them has. */
  lemma AddedFresh(goals: seq<Goal>, goal: Goal)
    requires goal.id !in Ids(goals)
    ensures (goals + [goal])[..|goals|] == goals
    ensures forall k :: 0 <= k < |goals| ==> goals[k].id != goal.id
    ensures DistinctIds(goals) ==> DistinctIds(goals + [goal])
  {
    forall k | 0 <= k < |goals| ensures goals[k].id != goal.id {
      assert goals[k] in goals;
    }
  }

  // ---------------------------------------------------------------------
  // updateGoal

  /**
   * A `Partial<Goal>`: an absent key is `None`; for an optional field,
   * `Some(None)` is a key present with the value undefined. The patch's id is
   * never used, so it is not part of the patch.
   */
  datatype GoalPatch = GoalPatch(
    title: Option<String>,
    level: Option<Level>,
    status: Option<Status>,
    description: Option<Option<String>>,
    order: Option<Option<int>>,
    dueDate: Option<Option<String>>,
    expanded: Option<Option<bool>>,
    parentGoalId: Option<Option<String>>)

  const NoChange: GoalPatch := GoalPatch(None, None, None, None, None, None, None, None)

  function Pick<T>(o: Option<T>, old_: T): T
  {
    if o.Some? then o.value else old_
  }

  /** `{ ...goal, ...update, id: goal.id }`. */
  function Apply(g: Goal, p: GoalPatch): (r: Goal)
    ensures r.id == g.id
  {
    Goal(g.id, Pick(p.title, g.title), Pick(p.level, g.level), Pick(p.description, g.description),
      Pick(p.order, g.order), Pick(p.dueDate, g.dueDate), Pick(p.expanded, g.expanded),
      Pick(p.parentGoalId, g.parentGoalId), Pick(p.status, g.status))
  }

  /** The goals with the patch applied to the ones with `id`. */
  function UpdateList(goals: seq<Goal>, id: String, p: GoalPatch): (r: seq<Goal>)
    ensures |r| == |goals|
    ensures forall k :: 0 <= k < |goals| ==> r[k].id == goals[k].id
    ensures forall k :: 0 <= k < |goals| && goals[k].id != id ==> r[k] == goals[k]
  {
    seq(|goals|, k requires 0 <= k < |goals| => if goals[k].id == id then Apply(goals[k], p) else goals[k])
  }

  /** updateGoal: always saved, even when no goal has the id. */
  function UpdateGoal(content: String, tags: seq<String>, draw: nat -> String, id: String, p: GoalPatch): (r: String)
    ensures r == Serialize(UpdateList(ListGoals(content, tags, draw).goals, id, p), tags)
  {
    Serialize(UpdateList(ListGoals(content, tags, draw).goals, id, p), tags)
  }

  /** Applying the same patch twice changes nothing more; an empty patch changes nothing. */
  lemma UpdateIdempotent(goals: seq<Goal>, id: String, p: GoalPatch)
    ensures UpdateList(UpdateList(goals, id, p), id, p) == UpdateList(goals, id, p)
    ensures UpdateList(goals, id, NoChange) == goals
  {
  }

  /** The goals with `id` get exactly the fields the patch gives; the ids never change. */
  lemma UpdateFields(goals: seq<Goal>, id: String, p: GoalPatch, k: nat)
    requires k < |goals| && goals[k].id == id
    ensures var g := UpdateList(goals, id, p)[k];
      g.id == id
      && (p.title.Some? ==> g.title == p.title.value) && (p.title.None? ==> g.title == goals[k].title)
      && (p.parentGoalId.Some? ==> g.parentGoalId == p.parentGoalId.value)
      && (p.parentGoalId.None? ==> g.parentGoalId == goals[k].parentGoalId)
      && (p.order.Some? ==> g.order == p.order.value) && (p.order.None? ==> g.order == goals[k].order)
  {
  }

  // ---------------------------------------------------------------------
  // deleteGoal

  /** A direct child of `id` loses its parent; any other goal is kept as it is. */
  function Unlink(g: Goal, id: String): Goal
  {
    if g.parentGoalId == Some(id) then g.(parentGoalId := None) else g
  }

  /** The goals other than `id`, in order, with the direct children of `id` unlinked. */
  function DeleteList(goals: seq<Goal>, id: String): (r: seq<Goal>)
    ensures |r| <= |goals|
    ensures forall k :: 0 <= k < |r| ==> r[k].id != id && r[k].parentGoalId != Some(id)
  {
    if goals == [] then []
    else
      DeleteList(goals[..|goals| - 1], id)
      + (if goals[|goals| - 1].id == id then [] else [Unlink(goals[|goals| - 1], id)])
  }

  /** Every other goal stays, unlinked when it was a direct child; grandchildren keep their parent. */
  lemma {:induction false} DeleteKeeps(goals: seq<Goal>, id: String)
    ensures forall x :: x in goals && x.id != id ==> Unlink(x, id) in DeleteList(goals, id)
  {
    if goals != [] {
      var init := goals[..|goals| - 1];
      var g := goals[|goals| - 1];
      DeleteKeeps(init, id);
      assert goals == init + [g];
      forall x | x in goals && x.id != id ensures Unlink(x, id) in DeleteList(goals, id) {
        if x != g {
          assert x in init;
        }
      }
    }
  }

  /** Nothing is added: every remaining goal is another goal, possibly unlinked. */
  lemma {:induction false} DeleteOnly(goals: seq<Goal>, id: String)
    ensures forall y :: y in DeleteList(goals, id) ==> exists x :: x in goals && x.id != id && y == Unlink(x, id)
  {
    if goals != [] {
      var init := goals[..|goals| - 1];
      var g := goals[|goals| - 1];
      DeleteOnly(init, id);
      assert goals == init + [g];
      forall y | y in DeleteList(goals, id) ensures exists x :: x in goals && x.id != id && y == Unlink(x, id) {
        if y in DeleteList(init, id) {
          var x :| x in init && x.id != id && y == Unlink(x, id);
          assert x in goals;
        } else {
          assert g in goals;
        }
      }
    }
  }

  /** With no goal `id` and no child of it, deleting changes nothing. */
  lemma {:induction false} DeleteAbsent(goals: seq<Goal>, id: String)
    requires forall k :: 0 <= k < |goals| ==> goals[k].id != id && goals[k].parentGoalId != Some(id)
    ensures DeleteList(goals, id) == goals
  {
    if goals != [] {
      var init := goals[..|goals| - 1];
      DeleteAbsent(init, id);
      assert goals == init + [goals[|goals| - 1]];
    }
  }

  /** The whole effect of a delete: other goals stay, direct children are unlinked, nothing cascades or appears. */
  lemma DeleteListSpec(goals: seq<Goal>, id: String)
    ensures forall x :: x in goals && x.id != id ==> Unlink(x, id) in DeleteList(goals, id)
    ensures forall x :: x in goals && x.id != id && x.parentGoalId != Some(id) ==> x in DeleteList(goals, id)
    ensures forall y :: y in DeleteList(goals, id) ==> exists x :: x in goals && x.id != id && y == Unlink(x, id)
  {
    DeleteKeeps(goals, id);
    DeleteOnly(goals, id);
  }

  /** deleteGoal: always saved. */
  function DeleteGoal(content: String, tags: seq<String>, draw: nat -> String, id: String): (r: String)
    ensures r == Serialize(DeleteList(ListGoals(content, tags, draw).goals, id), tags)
  {
    Serialize(DeleteList(ListGoals(content, tags, draw).goals, id), tags)
  }
}
