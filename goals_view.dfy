/**
 * The logic of the goals view with the DOM taken away: the ancestor walk and
 * the drag-and-drop reparenting with sibling renumbering (handleMove), the
 * move to the root (handleMoveToRoot), the tree the view draws
 * (buildGoalTree) and the level helpers of the edit form.
 */
module GoalsView {
  import opened Text
  import opened Sorting
  import opened Goals
  import opened GoalsRoundTrip

  // ---------------------------------------------------------------------
  // lookups

  /** `findIndex((goal) => goal.id === id)`: the first position holding the id, or -1. */
  function IndexOfId(s: seq<Goal>, id: String): (r: int)
    ensures -1 <= r < |s|
    ensures r >= 0 ==> s[r].id == id && forall k :: 0 <= k < r ==> s[k].id != id
    ensures r == -1 ==> forall k :: 0 <= k < |s| ==> s[k].id != id
  {
    if s == [] then -1
    else if s[0].id == id then 0
    else
      var r := IndexOfId(s[1..], id);
      assert forall k :: 1 <= k < |s| ==> s[k] == s[1..][k - 1];
      if r < 0 then -1 else r + 1
  }

  /** `goals.find((goal) => goal.id === id)`: the first goal with the id. */
  function FindGoal(goals: seq<Goal>, id: String): (r: Option<Goal>)
    ensures r.Some? ==> r.value in goals && r.value.id == id
    ensures r.None? <==> id !in Ids(goals)
  {
    var k := IndexOfId(goals, id);
    if k < 0 then None else Some(goals[k])
  }

  /** `new Map(goals.map((goal) => [goal.id, goal])).get(id)`: a later goal with the id replaces an earlier one. */
  function LastGoal(goals: seq<Goal>, id: String): (r: Option<Goal>)
    ensures r.Some? ==> r.value in goals && r.value.id == id
    ensures r.None? <==> id !in Ids(goals)
  {
    if goals == [] then None
    else if goals[|goals| - 1].id == id then Some(goals[|goals| - 1])
    else
      var init := goals[..|goals| - 1];
      assert goals == init + [goals[|goals| - 1]];
      LastGoal(init, id)
  }

  /** With distinct ids the map lookup and `find` agree. */
  lemma {:induction false} LastIsFirst(goals: seq<Goal>, id: String)
    requires DistinctIds(goals)
    ensures LastGoal(goals, id) == FindGoal(goals, id)
  {
    var a := LastGoal(goals, id);
    var b := FindGoal(goals, id);
    if a.Some? {
      var i :| 0 <= i < |goals| && goals[i] == a.value;
      var j := IndexOfId(goals, id);
      assert goals[j].id == goals[i].id;
    }
  }

  // ---------------------------------------------------------------------
  // the ancestor walk (isDescendant)

  /** The parent id the walk follows from the goal the map gives for `id`; an empty parent ends the walk. */
  function ParentOf(goals: seq<Goal>, id: String): Option<String>
  {
    var g := LastGoal(goals, id);
    if g.Some? && Present(g.value.parentGoalId) then Some(g.value.parentGoalId.value) else None
  }

  /** The `n`-th id up the parent chain from `id`, while there is one. */
  function Up(goals: seq<Goal>, id: String, n: nat): Option<String>
  {
    if n == 0 then Some(id)
    else
      var p := Up(goals, id, n - 1);
      if p.Some? then ParentOf(goals, p.value) else None
  }

  /** `ancestorId` is somewhere on the parent chain above `childId`. */
  ghost predicate Descends(goals: seq<Goal>, childId: String, ancestorId: String)
  {
    exists n: nat :: 1 <= n && Up(goals, childId, n) == Some(ancestorId)
  }

  /** The ids a parent chain can pass through. */
  function ParentIds(goals: seq<Goal>): set<String>
  {
    set g | g in goals && Present(g.parentGoalId) :: g.parentGoalId.value
  }

  lemma {:induction false} UpNone(goals: seq<Goal>, id: String, m: nat, n: nat)
    requires m <= n && Up(goals, id, m).None?
    ensures Up(goals, id, n).None?
    decreases n - m
  {
    if m < n {
      UpNone(goals, id, m + 1, n);
    }
  }

  /** Two places where the chain stands at the same id are followed by the same id. */
  lemma UpSame(goals: seq<Goal>, id: String, i: nat, j: nat)
    requires Up(goals, id, i) == Up(goals, id, j)
    ensures Up(goals, id, i + 1) == Up(goals, id, j + 1)
  {
    UpStep(goals, id, i);
    UpStep(goals, id, j);
  }

  /** One step up the chain. */
  lemma UpStep(goals: seq<Goal>, id: String, n: nat)
    ensures Up(goals, id, n + 1) == if Up(goals, id, n).Some? then ParentOf(goals, Up(goals, id, n).value) else None
  {
  }

  /** Once the chain comes back to an id it has passed, it goes round the same ids for ever. */
  lemma {:induction false} UpCycle(goals: seq<Goal>, id: String, j: nat, k: nat, n: nat)
    requires 1 <= j <= k && Up(goals, id, k + 1) == Up(goals, id, j) && 1 <= n
    ensures Up(goals, id, n).None? || exists i :: 1 <= i <= k && Up(goals, id, n) == Up(goals, id, i)
    decreases n
  {
    if n > k {
      UpCycle(goals, id, j, k, n - 1);
      if Up(goals, id, n - 1).None? {
        UpNone(goals, id, n - 1, n);
      } else {
        var i :| 1 <= i <= k && Up(goals, id, n - 1) == Up(goals, id, i);
        UpSame(goals, id, n - 1, i);
      }
    }
  }

  /** The ids of the first `k` steps up the chain (all of them there, as the walk has made them). */
  function UpSet(goals: seq<Goal>, id: String, k: nat): set<String>
  {
    if k == 0 then {}
    else UpSet(goals, id, k - 1) + (if Up(goals, id, k).Some? then {Up(goals, id, k).value} else {})
  }

  /** None of the first `k` steps up the chain is `ancestorId`. */
  predicate Avoids(goals: seq<Goal>, id: String, ancestorId: String, k: nat)
  {
    k == 0 || (Avoids(goals, id, ancestorId, k - 1) && Up(goals, id, k) != Some(ancestorId))
  }

  lemma {:induction false} AvoidsAll(goals: seq<Goal>, id: String, ancestorId: String, k: nat)
    requires Avoids(goals, id, ancestorId, k)
    ensures forall i :: 1 <= i <= k ==> Up(goals, id, i) != Some(ancestorId)
  {
    if k > 0 {
      AvoidsAll(goals, id, ancestorId, k - 1);
    }
  }

  lemma {:induction false} UpSetMember(goals: seq<Goal>, id: String, k: nat, p: String)
    requires p in UpSet(goals, id, k)
    ensures exists j :: 1 <= j <= k && Up(goals, id, j) == Some(p)
  {
    if p !in UpSet(goals, id, k - 1) {
      assert Up(goals, id, k) == Some(p);
    } else {
      UpSetMember(goals, id, k - 1, p);
    }
  }

  /** A chain that has come back to an id it passed never reaches an id it has not passed. */
  lemma ChainClosed(goals: seq<Goal>, id: String, ancestorId: String, k: nat, p: String)
    requires Avoids(goals, id, ancestorId, k) && p in UpSet(goals, id, k) && Up(goals, id, k + 1) == Some(p)
    ensures !Descends(goals, id, ancestorId)
  {
    AvoidsAll(goals, id, ancestorId, k);
    UpSetMember(goals, id, k, p);
    var j :| 1 <= j <= k && Up(goals, id, j) == Some(p);
    forall n: nat | 1 <= n ensures Up(goals, id, n) != Some(ancestorId) {
      UpCycle(goals, id, j, k, n);
    }
  }

  /** A chain that has ended reaches nothing after its end. */
  lemma ChainEnded(goals: seq<Goal>, id: String, ancestorId: String, k: nat)
    requires Up(goals, id, k + 1).None? && Avoids(goals, id, ancestorId, k)
    ensures !Descends(goals, id, ancestorId)
  {
    AvoidsAll(goals, id, ancestorId, k);
    forall n: nat | 1 <= n ensures Up(goals, id, n) != Some(ancestorId) {
      if n > k {
        UpNone(goals, id, k + 1, n);
      }
    }
  }

  /** What the walk knows after `k` steps: where it stands, what it has visited, that it has not met the ancestor. */
  predicate WalkInv(goals: seq<Goal>, childId: String, ancestorId: String, k: nat, current: Option<Goal>, visited: set<String>)
  {
    Up(goals, childId, k).Some? && current == LastGoal(goals, Up(goals, childId, k).value)
    && visited <= ParentIds(goals) && visited == UpSet(goals, childId, k) && Avoids(goals, childId, ancestorId, k)
  }

  /** The next id up the chain is the parent of the goal the map gives for the current one. */
  lemma UpNext(goals: seq<Goal>, childId: String, k: nat, current: Option<Goal>)
    requires Up(goals, childId, k).Some? && current == LastGoal(goals, Up(goals, childId, k).value)
    ensures Up(goals, childId, k + 1) ==
      if current.Some? && Present(current.value.parentGoalId) then Some(current.value.parentGoalId.value) else None
  {
  }

  /** The walk ends: on the ancestor (found), on a visited id (a cycle) or at a goal without a parent. */
  lemma WalkEnds(goals: seq<Goal>, childId: String, ancestorId: String, k: nat, current: Option<Goal>, visited: set<String>)
    requires WalkInv(goals, childId, ancestorId, k, current, visited)
    ensures current.Some? && Present(current.value.parentGoalId) && current.value.parentGoalId.value == ancestorId ==>
      Descends(goals, childId, ancestorId)
    ensures (current.Some? && Present(current.value.parentGoalId) && current.value.parentGoalId.value in visited
      && current.value.parentGoalId.value != ancestorId) ==> !Descends(goals, childId, ancestorId)
    ensures !(current.Some? && Present(current.value.parentGoalId)) ==> !Descends(goals, childId, ancestorId)
  {
    UpNext(goals, childId, k, current);
    if current.Some? && Present(current.value.parentGoalId) {
      var p := current.value.parentGoalId.value;
      if p == ancestorId {
        assert Up(goals, childId, k + 1) == Some(ancestorId);
      } else if p in visited {
        ChainClosed(goals, childId, ancestorId, k, p);
      }
    } else {
      ChainEnded(goals, childId, ancestorId, k);
    }
  }

  /** One step of the walk keeps its invariant and shrinks the ids left to visit. */
  lemma WalkStep(goals: seq<Goal>, childId: String, ancestorId: String, k: nat, current: Option<Goal>, visited: set<String>)
    requires WalkInv(goals, childId, ancestorId, k, current, visited)
    requires current.Some? && Present(current.value.parentGoalId)
    requires current.value.parentGoalId.value !in visited && current.value.parentGoalId.value != ancestorId
    ensures var p := current.value.parentGoalId.value;
      WalkInv(goals, childId, ancestorId, k + 1, LastGoal(goals, p), visited + {p})
      && |ParentIds(goals) - (visited + {p})| < |ParentIds(goals) - visited|
  {
    var p := current.value.parentGoalId.value;
    UpNext(goals, childId, k, current);
    assert current.value in goals;
    assert p in ParentIds(goals) - visited;
    assert ParentIds(goals) - (visited + {p}) == (ParentIds(goals) - visited) - {p};
  }

  /**
   * isDescendant: climbs from `childId` through the parents; the set of
   * visited parent ids stops it on a parent cycle.
   */
  method IsDescendant(goals: seq<Goal>, childId: String, ancestorId: String) returns (r: bool)
    ensures r <==> Descends(goals, childId, ancestorId)
  {
    var current := LastGoal(goals, childId);
    var visited: set<String> := {};
    ghost var k: nat := 0;
    while current.Some? && Present(current.value.parentGoalId)
      invariant WalkInv(goals, childId, ancestorId, k, current, visited)
      decreases |ParentIds(goals) - visited|
    {
      var p := current.value.parentGoalId.value;
      WalkEnds(goals, childId, ancestorId, k, current, visited);
      if p == ancestorId {
        return true;
      }
      if p in visited {
        return false;
      }
      WalkStep(goals, childId, ancestorId, k, current, visited);
      visited := visited + {p};
      k := k + 1;
      current := LastGoal(goals, p);
    }
    WalkEnds(goals, childId, ancestorId, k, current, visited);
    return false;
  }

  // ---------------------------------------------------------------------
  // sibling groups and reorderGroup

  /** The view's comparator: order (missing last), then title. */
  function ViewKey(g: Goal): SortKey
  {
    SortKey([], if g.order.Some? then g.order.value else MaxSafeInteger, g.title)
  }

  /** A member of the group at `level` under `parentId`; an unset parent and an empty one are the same. */
  predicate InGroup(g: Goal, level: Level, parentId: Option<String>)
  {
    g.level == level && Val(g.parentGoalId) == Val(parentId)
  }

  /** buildGroupFrom: the members of the group, in list order. */
  function GroupOf(goals: seq<Goal>, level: Level, parentId: Option<String>): (r: seq<Goal>)
    ensures multiset(r) <= multiset(goals)
    ensures forall k :: 0 <= k < |r| ==> InGroup(r[k], level, parentId)
    ensures forall g :: g in goals && InGroup(g, level, parentId) ==> g in r
  {
    if goals == [] then []
    else
      var init := goals[..|goals| - 1];
      var g := goals[|goals| - 1];
      assert goals == init + [g];
      GroupOf(init, level, parentId) + (if InGroup(g, level, parentId) then [g] else [])
  }

  /** `x` brought into `0..hi`. */
  function Clamp(x: int, hi: nat): (r: nat)
    ensures r <= hi
    ensures 0 <= x <= hi ==> r == x
  {
    if x < 0 then 0 else if x > hi then hi else x
  }

  /** Where the moved goal goes back in: after or before the insert target when it is found, else at the end. */
  function InsertAt(rest: seq<Goal>, insertTarget: Option<String>, after: bool): (r: nat)
    ensures r <= |rest|
  {
    var t := if Present(insertTarget) then IndexOfId(rest, insertTarget.value) else -1;
    var at := if t >= 0 then (if after then t + 1 else t) else |rest|;
    Clamp(at, |rest|)
  }

  /** Taking an element out and putting it back elsewhere keeps the multiset. */
  lemma SpliceMultiset<T>(g: seq<T>, e: nat, at: nat)
    requires e < |g| && at <= |g| - 1
    ensures var rest := g[..e] + g[e + 1..];
      multiset(rest[..at] + [g[e]] + rest[at..]) == multiset(g)
  {
    var rest := g[..e] + g[e + 1..];
    var x := g[e];
    assert g == g[..e] + [x] + g[e + 1..];
    assert multiset(g) == multiset(g[..e]) + multiset([x]) + multiset(g[e + 1..]);
    assert multiset(rest) == multiset(g[..e]) + multiset(g[e + 1..]);
    assert rest == rest[..at] + rest[at..];
    assert multiset(rest) == multiset(rest[..at]) + multiset(rest[at..]);
    assert multiset(rest[..at] + [x] + rest[at..]) == multiset(rest[..at]) + multiset([x]) + multiset(rest[at..]);
    assert multiset(rest[..at] + [x] + rest[at..]) == multiset(rest) + multiset([x]);
  }

  /** An element of a sub-multiset is an element of the whole, at some position. */
  lemma SubMember<T>(a: seq<T>, b: seq<T>, x: T)
    requires multiset(a) <= multiset(b) && x in a
    ensures x in b
  {
    assert x in multiset(a);
  }

  /** The sorted group with the source spliced out and reinserted. */
  function Working(group: seq<Goal>, sourceId: String, insertTarget: Option<String>, after: bool): (r: seq<Goal>)
    ensures multiset(r) == multiset(group)
  {
    var e := IndexOfId(group, sourceId);
    if e < 0 then group
    else
      var rest := group[..e] + group[e + 1..];
      var at := InsertAt(rest, insertTarget, after);
      SpliceMultiset(group, e, at);
      rest[..at] + [group[e]] + rest[at..]
  }

  /** The new sequence of a group, as reorderGroup builds it from the goals. */
  function WorkingOf(goals: seq<Goal>, level: Level, parentId: Option<String>, sourceId: String,
                     insertTarget: Option<String>, after: bool): (r: seq<Goal>)
    ensures multiset(r) == multiset(GroupOf(goals, level, parentId))
  {
    Working(Sort(GroupOf(goals, level, parentId), ViewKey), sourceId, insertTarget, after)
  }

  /** The working sequence holds exactly the members of the group. */
  lemma WorkingMembers(goals: seq<Goal>, level: Level, parentId: Option<String>, sourceId: String,
                       insertTarget: Option<String>, after: bool)
    ensures var w := WorkingOf(goals, level, parentId, sourceId, insertTarget, after);
      multiset(w) <= multiset(goals)
      && (forall k :: 0 <= k < |w| ==> InGroup(w[k], level, parentId) && w[k] in goals)
      && (forall g :: g in goals && InGroup(g, level, parentId) ==> g in w)
  {
    var group := GroupOf(goals, level, parentId);
    var w := WorkingOf(goals, level, parentId, sourceId, insertTarget, after);
    forall k | 0 <= k < |w| ensures InGroup(w[k], level, parentId) && w[k] in goals {
      SubMember(w, group, w[k]);
      SubMember(group, goals, w[k]);
    }
    forall g | g in goals && InGroup(g, level, parentId) ensures g in w {
      SubMember(group, w, g);
    }
  }

  /** `working.forEach((goal, index) => orders.set(goal.id, index + 1))`. */
  function OrdersMap(w: seq<Goal>): (r: map<String, int>)
    ensures r.Keys == set g | g in w :: g.id
    ensures forall id :: id in r ==> 1 <= r[id] <= |w|
  {
    if w == [] then map[]
    else
      var init := w[..|w| - 1];
      assert w == init + [w[|w| - 1]];
      OrdersMap(init)[w[|w| - 1].id := |w|]
  }

  /** With distinct ids every goal of the working list gets its 1-based position. */
  lemma {:induction false} OrdersAt(w: seq<Goal>, k: nat)
    requires DistinctIds(w) && k < |w|
    ensures OrdersMap(w)[w[k].id] == k + 1
    decreases |w|
  {
    if k < |w| - 1 {
      var init := w[..|w| - 1];
      assert init[k] == w[k];
      assert DistinctIds(init);
      OrdersAt(init, k);
    }
  }

  /** A member of a working list with distinct ids is numbered by its first position. */
  lemma OrdersIndex(w: seq<Goal>, g: Goal)
    requires DistinctIds(w) && g in w
    ensures 0 <= IndexOfId(w, g.id) && g.id in OrdersMap(w) && OrdersMap(w)[g.id] == IndexOfId(w, g.id) + 1
  {
    var k :| 0 <= k < |w| && w[k] == g;
    OrdersAt(w, k);
    assert IndexOfId(w, g.id) == k;
  }

  /** In a list with distinct ids every goal is found at its own position. */
  lemma IndexOfDistinct(w: seq<Goal>)
    requires DistinctIds(w)
    ensures forall k :: 0 <= k < |w| ==> IndexOfId(w, w[k].id) == k
  {
    forall k | 0 <= k < |w| ensures IndexOfId(w, w[k].id) == k {
      assert IndexOfId(w, w[k].id) <= k;
    }
  }

  /** The loop over updatedGoals: a member of the group whose id has an order takes it; nothing else changes. */
  function RenumberOne(g: Goal, level: Level, parentId: Option<String>, orders: map<String, int>): Goal
  {
    if InGroup(g, level, parentId) && g.id in orders then g.(order := Some(orders[g.id])) else g
  }

  function Renumber(goals: seq<Goal>, level: Level, parentId: Option<String>, orders: map<String, int>): (r: seq<Goal>)
    ensures |r| == |goals|
    ensures forall i :: 0 <= i < |goals| ==> r[i] == RenumberOne(goals[i], level, parentId, orders)
    ensures forall i :: 0 <= i < |goals| ==> r[i] == goals[i].(order := r[i].order)
    ensures forall i :: 0 <= i < |goals| && r[i] != goals[i] ==> InGroup(goals[i], level, parentId)
  {
    seq(|goals|, i requires 0 <= i < |goals| => RenumberOne(goals[i], level, parentId, orders))
  }

  /** reorderGroup as a function of the goals it starts from. */
  lemma {:induction false} RenumberSnoc(goals: seq<Goal>, i: nat, level: Level, parentId: Option<String>, orders: map<String, int>)
    requires i < |goals|
    ensures Renumber(goals[..i + 1], level, parentId, orders)
         == Renumber(goals[..i], level, parentId, orders) + [RenumberOne(goals[i], level, parentId, orders)]
  {
    var a := Renumber(goals[..i + 1], level, parentId, orders);
    var b := Renumber(goals[..i], level, parentId, orders) + [RenumberOne(goals[i], level, parentId, orders)];
    assert |a| == |b|;
    forall j | 0 <= j < |a| ensures a[j] == b[j] { }
  }

  function Reordered(goals: seq<Goal>, level: Level, parentId: Option<String>, sourceId: String,
                     insertTarget: Option<String>, after: bool): (r: seq<Goal>)
    ensures |r| == |goals|
    ensures forall i :: 0 <= i < |goals| ==> r[i] == goals[i].(order := r[i].order)
    ensures forall i :: 0 <= i < |goals| && r[i] != goals[i] ==> InGroup(goals[i], level, parentId)
  {
    Renumber(goals, level, parentId, OrdersMap(WorkingOf(goals, level, parentId, sourceId, insertTarget, after)))
  }

  /** Writes the new order of every group member found in `orders` into `updated`. */
  method RenumberInPlace(updated: array<Goal>, level: Level, parentId: Option<String>, orders: map<String, int>)
    modifies updated
    ensures updated[..] == Renumber(old(updated[..]), level, parentId, orders)
  {
    ghost var before := updated[..];
    for i := 0 to updated.Length
      invariant updated[..i] == Renumber(before[..i], level, parentId, orders)
      invariant updated[i..] == before[i..]
    {
      updated[i] := RenumberOne(updated[i], level, parentId, orders);
      RenumberSnoc(before, i, level, parentId, orders);
    }
  }

  /** reorderGroup: renumbers the group in `updated` in place. */
  method ReorderGroup(updated: array<Goal>, level: Level, parentId: Option<String>, sourceId: String,
                      insertTarget: Option<String>, after: bool)
    modifies updated
    ensures updated[..] == Reordered(old(updated[..]), level, parentId, sourceId, insertTarget, after)
  {
    var orders := OrdersMap(WorkingOf(updated[..], level, parentId, sourceId, insertTarget, after));
    RenumberInPlace(updated, level, parentId, orders);
  }


  /** A part of a list with distinct ids has distinct ids. */
  lemma DistinctPart(a: seq<Goal>, b: seq<Goal>)
    requires DistinctIds(a) && multiset(b) <= multiset(a)
    ensures DistinctIds(b)
  {
    forall i, j | 0 <= i < j < |b| ensures b[i].id != b[j].id {
      if b[i] == b[j] {
        CountTwo(b, i, j);
        CountOne(a, b[i]);
        assert false;
      }
      assert b[i] in multiset(a) && b[j] in multiset(a);
      var p :| 0 <= p < |a| && a[p] == b[i];
      var q :| 0 <= q < |a| && a[q] == b[j];
      assert p != q;
    }
  }

  /**
   * `r` numbers a group 1..n by the working list `w`: each member of the
   * group takes its 1-based position in `w`, and each position is taken.
   */
  predicate NumberedBy(r: seq<Goal>, w: seq<Goal>, level: Level, parentId: Option<String>)
  {
    MembersPlaced(r, w, level, parentId) && PlacesTaken(r, w)
  }

  /** Each member of the group in `r` has its 1-based position in `w` as its order. */
  predicate MembersPlaced(r: seq<Goal>, w: seq<Goal>, level: Level, parentId: Option<String>)
  {
    forall i :: 0 <= i < |r| && InGroup(r[i], level, parentId) ==>
      0 <= IndexOfId(w, r[i].id) && r[i].order == Some(IndexOfId(w, r[i].id) + 1)
  }

  /** Each position of `w` is the order of the goal of `r` with that id. */
  predicate PlacesTaken(r: seq<Goal>, w: seq<Goal>)
  {
    forall k :: 0 <= k < |w| ==> 0 <= IndexOfId(r, w[k].id) && r[IndexOfId(r, w[k].id)].order == Some(k + 1)
  }

  /** Each position of the working list is the order of the goal with that id in the renumbered list. */
  lemma PositionsTaken(f: seq<Goal>, out: seq<Goal>, w: seq<Goal>, level: Level, parentId: Option<String>)
    requires |out| == |f| && DistinctIds(out)
    requires forall i :: 0 <= i < |f| ==> out[i] == f[i].(order := out[i].order)
    requires forall k :: 0 <= k < |w| ==> InGroup(w[k], level, parentId) && w[k] in f && IndexOfId(w, w[k].id) == k
    requires MembersPlaced(out, w, level, parentId)
    ensures PlacesTaken(out, w)
  {
    forall k | 0 <= k < |w| ensures 0 <= IndexOfId(out, w[k].id) && out[IndexOfId(out, w[k].id)].order == Some(k + 1) {
      var j :| 0 <= j < |f| && f[j] == w[k];
      assert out[j].id == w[k].id && InGroup(out[j], level, parentId);
      TakenAt(out, w, level, parentId, j, k);
    }
  }

  /** The goal of `out` placed at position `k` of `w` is the one found for that id. */
  lemma TakenAt(out: seq<Goal>, w: seq<Goal>, level: Level, parentId: Option<String>, j: nat, k: nat)
    requires DistinctIds(out) && j < |out| && k < |w|
    requires out[j].id == w[k].id && InGroup(out[j], level, parentId) && IndexOfId(w, w[k].id) == k
    requires MembersPlaced(out, w, level, parentId)
    ensures 0 <= IndexOfId(out, w[k].id) && out[IndexOfId(out, w[k].id)].order == Some(k + 1)
  {
    assert IndexOfId(out, out[j].id) == j;
  }

  /**
   * With distinct ids reorderGroup numbers the group 1..n: the working
   * sequence holds goals of the list with distinct ids, and each member of
   * the group takes its 1-based position in it.
   */
  lemma ReorderedNumbers(goals: seq<Goal>, level: Level, parentId: Option<String>, sourceId: String,
                         insertTarget: Option<String>, after: bool)
    requires DistinctIds(goals)
    ensures var w := WorkingOf(goals, level, parentId, sourceId, insertTarget, after);
      DistinctIds(w) && NumberedBy(Reordered(goals, level, parentId, sourceId, insertTarget, after), w, level, parentId)
  {
    var w := WorkingOf(goals, level, parentId, sourceId, insertTarget, after);
    WorkingMembers(goals, level, parentId, sourceId, insertTarget, after);
    DistinctPart(goals, w);
    RenumberNumbers(goals, level, parentId, w);
    assert Reordered(goals, level, parentId, sourceId, insertTarget, after) == Renumber(goals, level, parentId, OrdersMap(w));
  }

  /** Renumbering by a working list with distinct ids that holds exactly the group's members. */
  lemma RenumberNumbers(goals: seq<Goal>, level: Level, parentId: Option<String>, w: seq<Goal>)
    requires DistinctIds(goals) && DistinctIds(w)
    requires forall k :: 0 <= k < |w| ==> InGroup(w[k], level, parentId) && w[k] in goals
    requires forall g :: g in goals && InGroup(g, level, parentId) ==> g in w
    ensures NumberedBy(Renumber(goals, level, parentId, OrdersMap(w)), w, level, parentId)
  {
    var r := Renumber(goals, level, parentId, OrdersMap(w));
    RenumberPositions(goals, level, parentId, w);
    IndexOfDistinct(w);
    assert DistinctIds(r) by {
      assert forall i :: 0 <= i < |goals| ==> r[i].id == goals[i].id;
    }
    PositionsTaken(goals, r, w, level, parentId);
  }

  /** Every group member in the list takes its 1-based position in the working list. */
  lemma RenumberPositions(goals: seq<Goal>, level: Level, parentId: Option<String>, w: seq<Goal>)
    requires DistinctIds(w)
    requires forall g :: g in goals && InGroup(g, level, parentId) ==> g in w
    ensures MembersPlaced(Renumber(goals, level, parentId, OrdersMap(w)), w, level, parentId)
  {
    var orders := OrdersMap(w);
    forall g | g in w ensures g.id in orders && 0 <= IndexOfId(w, g.id) && orders[g.id] == IndexOfId(w, g.id) + 1 {
      OrdersIndex(w, g);
    }
    PlacedBy(goals, Renumber(goals, level, parentId, orders), level, parentId, w, orders);
  }

  /** Renumbering by orders that give each member of `w` its 1-based position there places every group member. */
  lemma PlacedBy(goals: seq<Goal>, r: seq<Goal>, level: Level, parentId: Option<String>, w: seq<Goal>,
                 orders: map<String, int>)
    requires |r| == |goals|
    requires forall i :: 0 <= i < |goals| ==> r[i] == RenumberOne(goals[i], level, parentId, orders)
    requires forall g :: g in goals && InGroup(g, level, parentId) ==> g in w
    requires forall g :: g in w ==> g.id in orders && 0 <= IndexOfId(w, g.id) && orders[g.id] == IndexOfId(w, g.id) + 1
    ensures MembersPlaced(r, w, level, parentId)
  {
    forall i | 0 <= i < |r| && InGroup(r[i], level, parentId)
      ensures 0 <= IndexOfId(w, r[i].id) && r[i].order == Some(IndexOfId(w, r[i].id) + 1)
    {
      assert InGroup(goals[i], level, parentId);
      assert goals[i] in w;
    }
  }

  /** Without an insert target the source goes to the end of its group; the others keep their sorted order. */
  lemma WorkingAppends(group: seq<Goal>, sourceId: String, after: bool)
    requires IndexOfId(group, sourceId) >= 0
    ensures var e := IndexOfId(group, sourceId);
      Working(group, sourceId, None, after) == group[..e] + group[e + 1..] + [group[e]]
  {
    var e := IndexOfId(group, sourceId);
    var rest := group[..e] + group[e + 1..];
    assert rest[..|rest|] == rest && rest[|rest|..] == [];
  }

  /** With an insert target found among the others the source lands right after or right before it. */
  lemma WorkingBeside(group: seq<Goal>, sourceId: String, targetId: String, after: bool)
    requires IndexOfId(group, sourceId) >= 0 && targetId != []
    requires var e := IndexOfId(group, sourceId); IndexOfId(group[..e] + group[e + 1..], targetId) >= 0
    ensures var e := IndexOfId(group, sourceId);
      var w := Working(group, sourceId, Some(targetId), after);
      var t := IndexOfId(group[..e] + group[e + 1..], targetId);
      |w| == |group| && t + 1 < |w|
      && (after ==> w[t].id == targetId && w[t + 1] == group[e])
      && (!after ==> w[t] == group[e] && w[t + 1].id == targetId)
  {
    var e := IndexOfId(group, sourceId);
    var rest := group[..e] + group[e + 1..];
    var t := IndexOfId(rest, targetId);
    var at := InsertAt(rest, Some(targetId), after);
    assert at == if after then t + 1 else t;
    assert Working(group, sourceId, Some(targetId), after) == rest[..at] + [group[e]] + rest[at..];
    assert rest[t].id == targetId;
    SpliceBeside(rest, group[e], t, at, after);
  }

  /** Splicing `x` in right after or right before position t. */
  lemma SpliceBeside(rest: seq<Goal>, x: Goal, t: nat, at: nat, after: bool)
    requires t < |rest| && at == if after then t + 1 else t
    ensures var w := rest[..at] + [x] + rest[at..];
      |w| == |rest| + 1
      && (after ==> w[t] == rest[t] && w[t + 1] == x)
      && (!after ==> w[t] == x && w[t + 1] == rest[t])
  {
  }

  // ---------------------------------------------------------------------
  // handleMove

  /** A broader target becomes the parent; otherwise the source joins the target's parent. */
  function NewParent(source: Goal, target: Goal): Option<String>
  {
    if LevelIndex(target.level) < LevelIndex(source.level) then Some(target.id) else target.parentGoalId
  }

  /** The new parent exists and is not broader than the source. */
  predicate ParentTooNarrow(goals: seq<Goal>, newParent: Option<String>, source: Goal)
  {
    Present(newParent) && FindGoal(goals, newParent.value).Some?
    && LevelIndex(FindGoal(goals, newParent.value).value.level) >= LevelIndex(source.level)
  }

  /** `goals.map((goal) => goal.id === id ? { ...goal, parentGoalId } : goal)`. */
  function Relink(goals: seq<Goal>, id: String, parentGoalId: Option<String>): (r: seq<Goal>)
    ensures |r| == |goals|
    ensures forall i :: 0 <= i < |goals| ==> r[i] == goals[i].(parentGoalId := r[i].parentGoalId)
    ensures forall i :: 0 <= i < |goals| ==> r[i].parentGoalId == (if goals[i].id == id then parentGoalId else goals[i].parentGoalId)
  {
    seq(|goals|, i requires 0 <= i < |goals| => if goals[i].id == id then goals[i].(parentGoalId := parentGoalId) else goals[i])
  }

  /** The goals after relinking the source and renumbering its old group when the parent changed. */
  function FirstPass(goals: seq<Goal>, source: Goal, newParent: Option<String>, after: bool): seq<Goal>
  {
    var updated := Relink(goals, source.id, newParent);
    if newParent != source.parentGoalId then Reordered(updated, source.level, source.parentGoalId, source.id, None, after)
    else updated
  }

  /** The insert target of the new group: the target itself when it is a sibling in that group. */
  function InsertTarget(source: Goal, target: Goal, newParent: Option<String>): Option<String>
  {
    if newParent == Some(target.id) then None
    else if source.level == target.level && Val(target.parentGoalId) == Val(newParent) then Some(target.id)
    else None
  }

  /** The goals handleMove saves once the move is allowed. */
  function Rearranged(goals: seq<Goal>, source: Goal, target: Goal, newParent: Option<String>, after: bool): seq<Goal>
  {
    Reordered(FirstPass(goals, source, newParent, after), source.level, newParent, source.id,
      InsertTarget(source, target, newParent), after)
  }

  /** What handleMove saves, or None when it writes nothing. */
  ghost function MoveResult(goals: seq<Goal>, sourceId: String, targetId: String, after: bool): Option<seq<Goal>>
  {
    if sourceId == targetId then None
    else
      var source := FindGoal(goals, sourceId);
      var target := FindGoal(goals, targetId);
      if source.None? || target.None? then None
      else if Descends(goals, target.value.id, source.value.id) then None
      else
        var newParent := NewParent(source.value, target.value);
        if newParent == Some(sourceId) || ParentTooNarrow(goals, newParent, source.value) then None
        else Some(Rearranged(goals, source.value, target.value, newParent, after))
  }

  /** handleMove without the DOM: the goal list to save, or None for a rejected move. */
  method Move(goals: seq<Goal>, sourceId: String, targetId: String, after: bool) returns (r: Option<seq<Goal>>)
    ensures r == MoveResult(goals, sourceId, targetId, after)
  {
    if sourceId == targetId {
      return None;
    }
    var source := FindGoal(goals, sourceId);
    var target := FindGoal(goals, targetId);
    if source.None? || target.None? {
      return None;
    }
    var s := source.value;
    var t := target.value;
    var descends := IsDescendant(goals, t.id, s.id);
    if descends {
      return None;
    }
    var newParent := NewParent(s, t);
    if newParent == Some(s.id) || ParentTooNarrow(goals, newParent, s) {
      return None;
    }
    var moved := RearrangeGroups(goals, s, t, newParent, after);
    return Some(moved);
  }

  /** The two renumbering passes of an accepted move, on an array of the goals. */
  method RearrangeGroups(goals: seq<Goal>, s: Goal, t: Goal, newParent: Option<String>, after: bool) returns (r: seq<Goal>)
    ensures r == Rearranged(goals, s, t, newParent, after)
  {
    var relinked := Relink(goals, s.id, newParent);
    var updated := new Goal[|relinked|](i requires 0 <= i < |relinked| => relinked[i]);
    assert updated[..] == relinked;
    if newParent != s.parentGoalId {
      ReorderGroup(updated, s.level, s.parentGoalId, s.id, None, after);
    }
    assert updated[..] == FirstPass(goals, s, newParent, after);
    if newParent == Some(t.id) {
      ReorderGroup(updated, s.level, newParent, s.id, None, after);
    } else if s.level == t.level && Val(t.parentGoalId) == Val(newParent) {
      ReorderGroup(updated, s.level, newParent, s.id, Some(t.id), after);
    } else {
      ReorderGroup(updated, s.level, newParent, s.id, None, after);
    }
    return updated[..];
  }

  /** The three cases that write nothing: the same goal, an unknown goal, a target below the source. */
  lemma MoveRefused(goals: seq<Goal>, sourceId: String, targetId: String, after: bool)
    ensures sourceId == targetId ==> MoveResult(goals, sourceId, targetId, after).None?
    ensures sourceId !in Ids(goals) || targetId !in Ids(goals) ==> MoveResult(goals, sourceId, targetId, after).None?
    ensures Descends(goals, targetId, sourceId) ==> MoveResult(goals, sourceId, targetId, after).None?
  {
  }

  /** What an accepted move looked up and decided. */
  lemma MoveAccepted(goals: seq<Goal>, sourceId: String, targetId: String, after: bool)
    requires MoveResult(goals, sourceId, targetId, after).Some?
    ensures sourceId != targetId && FindGoal(goals, sourceId).Some? && FindGoal(goals, targetId).Some?
    ensures var s := FindGoal(goals, sourceId).value;
      var t := FindGoal(goals, targetId).value;
      var np := NewParent(s, t);
      s.id == sourceId && t.id == targetId
      && np != Some(sourceId) && !ParentTooNarrow(goals, np, s)
      && MoveResult(goals, sourceId, targetId, after).value == Rearranged(goals, s, t, np, after)
  {
  }

  /** The first pass relinks the source and renumbers at most its old group. */
  lemma FirstPassKeeps(goals: seq<Goal>, s: Goal, np: Option<String>, after: bool)
    ensures var f := FirstPass(goals, s, np, after);
      var rel := Relink(goals, s.id, np);
      |f| == |goals|
      && (forall i :: 0 <= i < |goals| ==> f[i] == rel[i].(order := f[i].order))
      && (forall i :: 0 <= i < |goals| && f[i] != rel[i] ==> InGroup(rel[i], s.level, s.parentGoalId))
  {
  }

  /** The second pass renumbers at most the new group. */
  lemma RearrangedKeeps(goals: seq<Goal>, s: Goal, t: Goal, np: Option<String>, after: bool)
    ensures var out := Rearranged(goals, s, t, np, after);
      var f := FirstPass(goals, s, np, after);
      |out| == |f|
      && (forall i :: 0 <= i < |f| ==> out[i] == f[i].(order := out[i].order))
      && (forall i :: 0 <= i < |f| && out[i] != f[i] ==> InGroup(f[i], s.level, np))
  {
  }

  /** Only the source's parent changes, and only goals of the source's level in its old or new group are renumbered. */
  lemma RearrangedFrame(goals: seq<Goal>, s: Goal, t: Goal, np: Option<String>, after: bool)
    ensures var out := Rearranged(goals, s, t, np, after);
      |out| == |goals|
      && (forall i :: 0 <= i < |goals| ==>
            out[i] == goals[i].(parentGoalId := out[i].parentGoalId, order := out[i].order))
      && (forall i :: 0 <= i < |goals| ==>
            out[i].parentGoalId == (if goals[i].id == s.id then np else goals[i].parentGoalId))
      && (forall i :: 0 <= i < |goals| && out[i].order != goals[i].order ==>
            out[i].level == s.level && (Val(out[i].parentGoalId) == Val(s.parentGoalId) || Val(out[i].parentGoalId) == Val(np)))
  {
    var out := Rearranged(goals, s, t, np, after);
    var f := FirstPass(goals, s, np, after);
    var rel := Relink(goals, s.id, np);
    FirstPassKeeps(goals, s, np, after);
    RearrangedKeeps(goals, s, t, np, after);
    forall i | 0 <= i < |goals|
      ensures out[i] == goals[i].(parentGoalId := out[i].parentGoalId, order := out[i].order)
      ensures out[i].parentGoalId == (if goals[i].id == s.id then np else goals[i].parentGoalId)
    {
      assert out[i].parentGoalId == rel[i].parentGoalId;
    }
    forall i | 0 <= i < |goals| && out[i].order != goals[i].order
      ensures out[i].level == s.level && (Val(out[i].parentGoalId) == Val(s.parentGoalId) || Val(out[i].parentGoalId) == Val(np))
    {
      assert out[i].parentGoalId == rel[i].parentGoalId && out[i].level == rel[i].level;
      if out[i] == f[i] {
        assert f[i] != rel[i];
      }
    }
  }

  /**
   * An accepted move gives the source the target (when broader) or the
   * target's parent, and that parent, when it exists, is broader than the
   * source; nothing is ever made its own parent.
   */
  lemma MoveParent(goals: seq<Goal>, sourceId: String, targetId: String, after: bool)
    requires MoveResult(goals, sourceId, targetId, after).Some?
    ensures var out := MoveResult(goals, sourceId, targetId, after).value;
      var s := FindGoal(goals, sourceId).value;
      var t := FindGoal(goals, targetId).value;
      var p := if LevelIndex(t.level) < LevelIndex(s.level) then Some(targetId) else t.parentGoalId;
      |out| == |goals|
      && (forall i :: 0 <= i < |goals| && goals[i].id == sourceId ==> out[i].parentGoalId == p)
      && p != Some(sourceId)
      && (Present(p) && p.value in Ids(goals) ==> LevelIndex(FindGoal(goals, p.value).value.level) < LevelIndex(s.level))
  {
    MoveAccepted(goals, sourceId, targetId, after);
    var s := FindGoal(goals, sourceId).value;
    var t := FindGoal(goals, targetId).value;
    RearrangedFrame(goals, s, t, NewParent(s, t), after);
  }

  /**
   * An accepted move changes nothing but the source's parent and the order
   * of goals at the source's level in the old or the new group.
   */
  lemma MoveFrame(goals: seq<Goal>, sourceId: String, targetId: String, after: bool)
    requires MoveResult(goals, sourceId, targetId, after).Some?
    ensures var out := MoveResult(goals, sourceId, targetId, after).value;
      var s := FindGoal(goals, sourceId).value;
      var np := NewParent(s, FindGoal(goals, targetId).value);
      |out| == |goals|
      && (forall i :: 0 <= i < |goals| ==>
            out[i] == goals[i].(parentGoalId := out[i].parentGoalId, order := out[i].order))
      && (forall i :: 0 <= i < |goals| && out[i].parentGoalId != goals[i].parentGoalId ==> goals[i].id == sourceId)
      && (forall i :: 0 <= i < |goals| && out[i].order != goals[i].order ==>
            out[i].level == s.level && (Val(out[i].parentGoalId) == Val(s.parentGoalId) || Val(out[i].parentGoalId) == Val(np)))
  {
    MoveAccepted(goals, sourceId, targetId, after);
    var s := FindGoal(goals, sourceId).value;
    var t := FindGoal(goals, targetId).value;
    RearrangedFrame(goals, s, t, NewParent(s, t), after);
  }

  /** With distinct ids the second pass numbers the new group 1..n in its working order. */
  lemma RearrangedNumbers(goals: seq<Goal>, s: Goal, t: Goal, np: Option<String>, after: bool)
    requires DistinctIds(goals)
    ensures var w := WorkingOf(FirstPass(goals, s, np, after), s.level, np, s.id, InsertTarget(s, t, np), after);
      DistinctIds(w) && NumberedBy(Rearranged(goals, s, t, np, after), w, s.level, np)
  {
    var f := FirstPass(goals, s, np, after);
    FirstPassKeeps(goals, s, np, after);
    assert DistinctIds(f) by {
      assert forall i :: 0 <= i < |goals| ==> f[i].id == goals[i].id;
    }
    ReorderedNumbers(f, s.level, np, s.id, InsertTarget(s, t, np), after);
  }

  /**
   * With distinct ids the new group is numbered 1..n in its working order
   * (the source's new siblings, sorted, with the source reinserted): each
   * member takes its position there, and each position is taken.
   */
  lemma MoveNumbers(goals: seq<Goal>, sourceId: String, targetId: String, after: bool)
    requires DistinctIds(goals)
    requires MoveResult(goals, sourceId, targetId, after).Some?
    ensures var out := MoveResult(goals, sourceId, targetId, after).value;
      var s := FindGoal(goals, sourceId).value;
      var t := FindGoal(goals, targetId).value;
      var np := NewParent(s, t);
      var w := WorkingOf(FirstPass(goals, s, np, after), s.level, np, sourceId, InsertTarget(s, t, np), after);
      DistinctIds(w) && NumberedBy(out, w, s.level, np)
  {
    MoveAccepted(goals, sourceId, targetId, after);
    var s := FindGoal(goals, sourceId).value;
    var t := FindGoal(goals, targetId).value;
    RearrangedNumbers(goals, s, t, NewParent(s, t), after);
  }

  /**
   * With distinct ids, a move that changes the source's group leaves its old
   * group numbered 1..n in that group's working order (the old siblings,
   * sorted; the moved goal is no longer among them): the second pass renumbers only the
   * new group, which shares no goal with the old one.
   */
  lemma RearrangedOldNumbers(goals: seq<Goal>, s: Goal, t: Goal, np: Option<String>, after: bool)
    requires DistinctIds(goals) && Val(np) != Val(s.parentGoalId)
    ensures var w := WorkingOf(Relink(goals, s.id, np), s.level, s.parentGoalId, s.id, None, after);
      DistinctIds(w) && NumberedBy(Rearranged(goals, s, t, np, after), w, s.level, s.parentGoalId)
  {
    var rel := Relink(goals, s.id, np);
    var f := FirstPass(goals, s, np, after);
    var w := WorkingOf(rel, s.level, s.parentGoalId, s.id, None, after);
    assert DistinctIds(rel) by {
      assert forall i :: 0 <= i < |goals| ==> rel[i].id == goals[i].id;
    }
    ReorderedNumbers(rel, s.level, s.parentGoalId, s.id, None, after);
    assert f == Reordered(rel, s.level, s.parentGoalId, s.id, None, after);
    RearrangedKeeps(goals, s, t, np, after);
    WorkingMembers(rel, s.level, s.parentGoalId, s.id, None, after);
    OldGroupKept(rel, f, Rearranged(goals, s, t, np, after), w, s.level, s.parentGoalId, np);
  }

  /** A second pass over another group keeps the numbering of the first pass's group. */
  lemma OldGroupKept(rel: seq<Goal>, f: seq<Goal>, out: seq<Goal>, w: seq<Goal>,
                     level: Level, p: Option<String>, np: Option<String>)
    requires DistinctIds(rel) && |f| == |rel| && |out| == |f| && Val(np) != Val(p)
    requires forall i :: 0 <= i < |rel| ==> f[i] == rel[i].(order := f[i].order)
    requires forall i :: 0 <= i < |f| ==> out[i] == f[i].(order := out[i].order)
    requires forall i :: 0 <= i < |f| && out[i] != f[i] ==> InGroup(f[i], level, np)
    requires forall k :: 0 <= k < |w| ==> InGroup(w[k], level, p) && w[k] in rel
    requires NumberedBy(f, w, level, p)
    ensures NumberedBy(out, w, level, p)
  {
    MembersKept(f, out, w, level, p, np);
    PlacesKept(rel, f, out, w, level, p, np);
  }

  /** Members of the group under `p` keep their numbers. */
  lemma MembersKept(f: seq<Goal>, out: seq<Goal>, w: seq<Goal>, level: Level, p: Option<String>, np: Option<String>)
    requires |out| == |f| && Val(np) != Val(p)
    requires forall i :: 0 <= i < |f| ==> out[i] == f[i].(order := out[i].order)
    requires forall i :: 0 <= i < |f| && out[i] != f[i] ==> InGroup(f[i], level, np)
    requires MembersPlaced(f, w, level, p)
    ensures MembersPlaced(out, w, level, p)
  {
    forall i | 0 <= i < |out| && InGroup(out[i], level, p)
      ensures 0 <= IndexOfId(w, out[i].id) && out[i].order == Some(IndexOfId(w, out[i].id) + 1)
    {
      KeptGoal(f[i], out[i], level, p, np);
    }
  }

  /** Each position of the working list keeps the goal that takes it. */
  lemma PlacesKept(rel: seq<Goal>, f: seq<Goal>, out: seq<Goal>, w: seq<Goal>,
                   level: Level, p: Option<String>, np: Option<String>)
    requires DistinctIds(rel) && |f| == |rel| && |out| == |f| && Val(np) != Val(p)
    requires forall i :: 0 <= i < |rel| ==> f[i] == rel[i].(order := f[i].order)
    requires forall i :: 0 <= i < |f| ==> out[i] == f[i].(order := out[i].order)
    requires forall i :: 0 <= i < |f| && out[i] != f[i] ==> InGroup(f[i], level, np)
    requires forall k :: 0 <= k < |w| ==> InGroup(w[k], level, p) && w[k] in rel
    requires PlacesTaken(f, w)
    ensures PlacesTaken(out, w)
  {
    forall k | 0 <= k < |w|
      ensures 0 <= IndexOfId(out, w[k].id) && out[IndexOfId(out, w[k].id)].order == Some(k + 1)
    {
      var j := IndexOfId(f, w[k].id);
      IndexOfSameIds(f, out, w[k].id);
      var m :| 0 <= m < |rel| && rel[m] == w[k];
      assert j == m by {
        assert f[m].id == w[k].id;
        assert rel[j].id == rel[m].id;
      }
      KeptGoal(f[j], out[j], level, p, np);
    }
  }

  /** A goal of the group under `p` is left alone by a pass that may change only the group under `np`. */
  lemma KeptGoal(x: Goal, y: Goal, level: Level, p: Option<String>, np: Option<String>)
    requires y == x.(order := y.order) && (y != x ==> InGroup(x, level, np)) && Val(np) != Val(p)
    requires InGroup(x, level, p) || InGroup(y, level, p)
    ensures y == x
  {
  }

  /** Lists with the same ids position by position find an id at the same place. */
  lemma IndexOfSameIds(a: seq<Goal>, b: seq<Goal>, id: String)
    requires |a| == |b| && forall i :: 0 <= i < |a| ==> a[i].id == b[i].id
    ensures IndexOfId(a, id) == IndexOfId(b, id)
  {
    var x, y := IndexOfId(a, id), IndexOfId(b, id);
    if x >= 0 && y >= 0 {
      assert a[y].id == id && b[x].id == id;
    }
  }

  /**
   * reorderGroup(oldParentId): when a move changes the source's parent, its
   * old sibling group is numbered 1..n in its working order (the remaining
   * old siblings, sorted; the moved goal is no longer among them).
   */
  lemma MoveOldNumbers(goals: seq<Goal>, sourceId: String, targetId: String, after: bool)
    requires DistinctIds(goals)
    requires MoveResult(goals, sourceId, targetId, after).Some?
    requires var s := FindGoal(goals, sourceId).value;
      Val(NewParent(s, FindGoal(goals, targetId).value)) != Val(s.parentGoalId)
    ensures var out := MoveResult(goals, sourceId, targetId, after).value;
      var s := FindGoal(goals, sourceId).value;
      var np := NewParent(s, FindGoal(goals, targetId).value);
      var w := WorkingOf(Relink(goals, sourceId, np), s.level, s.parentGoalId, sourceId, None, after);
      && DistinctIds(w) && NumberedBy(out, w, s.level, s.parentGoalId)
      && (forall k :: 0 <= k < |w| ==> w[k].id != sourceId)
  {
    MoveAccepted(goals, sourceId, targetId, after);
    var s := FindGoal(goals, sourceId).value;
    var t := FindGoal(goals, targetId).value;
    RearrangedOldNumbers(goals, s, t, NewParent(s, t), after);
    LeftOldGroup(goals, sourceId, NewParent(s, t), s.level, s.parentGoalId, after);
  }

  /** Once relinked to another parent, a goal is not in its old group's working order. */
  lemma LeftOldGroup(goals: seq<Goal>, id: String, np: Option<String>, level: Level, p: Option<String>, after: bool)
    requires Val(np) != Val(p)
    ensures var w := WorkingOf(Relink(goals, id, np), level, p, id, None, after);
      forall k :: 0 <= k < |w| ==> w[k].id != id
  {
    var rel := Relink(goals, id, np);
    var w := WorkingOf(rel, level, p, id, None, after);
    WorkingMembers(rel, level, p, id, None, after);
    NoneWithId(rel, w, id, np, level, p);
  }

  /** Members of a group drawn from `rel`, where the goal with `id` belongs to another group, never have that id. */
  lemma NoneWithId(rel: seq<Goal>, w: seq<Goal>, id: String, np: Option<String>, level: Level, p: Option<String>)
    requires Val(np) != Val(p)
    requires forall i :: 0 <= i < |rel| && rel[i].id == id ==> rel[i].parentGoalId == np
    requires forall k :: 0 <= k < |w| ==> InGroup(w[k], level, p) && w[k] in rel
    ensures forall k :: 0 <= k < |w| ==> w[k].id != id
  {
    forall k | 0 <= k < |w| ensures w[k].id != id {
      var i :| 0 <= i < |rel| && rel[i] == w[k];
    }
  }

  /** A member of a group is in the sorted group. */
  lemma InSortedGroup(goals: seq<Goal>, level: Level, parentId: Option<String>, x: Goal)
    requires x in goals && InGroup(x, level, parentId)
    ensures x in Sort(GroupOf(goals, level, parentId), ViewKey)
  {
    assert x in multiset(GroupOf(goals, level, parentId));
  }

  /**
   * Where a working order puts the source `sid`: last when there is no insert
   * target, else right after (or right before) the target.
   */
  predicate SourcePlaced(w: seq<Goal>, sid: String, ins: Option<String>, after: bool)
  {
    |w| > 0
    && (ins.None? ==> w[|w| - 1].id == sid)
    && (ins.Some? && ins.value != [] ==>
          exists k :: 0 <= k < |w| - 1 && (after ==> w[k].id == ins.value && w[k + 1].id == sid)
                                      && (!after ==> w[k].id == sid && w[k + 1].id == ins.value))
  }

  /** Where splicing puts the source, given the source and the insert target as members of the sorted group. */
  lemma SplicePlacement(group: seq<Goal>, ins: Option<String>, after: bool, x: Goal, y: Goal)
    requires x in group
    requires ins.Some? && ins.value != [] ==> ins == Some(y.id) && y in group && y.id != x.id
    ensures SourcePlaced(Working(group, x.id, ins, after), x.id, ins, after)
  {
    var e := IndexOfId(group, x.id);
    assert e >= 0;
    if ins.None? {
      WorkingAppends(group, x.id, after);
    } else if ins.value != [] {
      FoundInRest(group, e, y);
      BesidePlaced(group, x.id, y.id, after);
    }
  }

  /** A member other than the one at `e` is still found once that one is taken out. */
  lemma FoundInRest(group: seq<Goal>, e: nat, y: Goal)
    requires e < |group| && y in group && y.id != group[e].id
    ensures IndexOfId(group[..e] + group[e + 1..], y.id) >= 0
  {
    var rest := group[..e] + group[e + 1..];
    var q :| 0 <= q < |group| && group[q] == y;
    if q < e { assert rest[q] == group[q]; } else { assert rest[q - 1] == group[q]; }
  }

  lemma BesidePlaced(group: seq<Goal>, sid: String, tid: String, after: bool)
    requires IndexOfId(group, sid) >= 0 && tid != []
    requires var e := IndexOfId(group, sid); IndexOfId(group[..e] + group[e + 1..], tid) >= 0
    ensures SourcePlaced(Working(group, sid, Some(tid), after), sid, Some(tid), after)
  {
    WorkingBeside(group, sid, tid, after);
    var e := IndexOfId(group, sid);
    PlacedBeside(Working(group, sid, Some(tid), after), group[e], tid, after, IndexOfId(group[..e] + group[e + 1..], tid));
  }

  lemma PlacedBeside(w: seq<Goal>, src: Goal, tid: String, after: bool, t: int)
    requires 0 <= t && t + 1 < |w| && tid != []
    requires after ==> w[t].id == tid && w[t + 1] == src
    requires !after ==> w[t] == src && w[t + 1].id == tid
    ensures SourcePlaced(w, src.id, Some(tid), after)
  {
  }

  /** Where the working order of a group puts the source, given the source and the insert target as members. */
  lemma WorkingPlacement(f: seq<Goal>, level: Level, np: Option<String>, sid: String, ins: Option<String>, after: bool,
                         x: Goal, y: Goal)
    requires x in f && x.id == sid && InGroup(x, level, np)
    requires ins.Some? && ins.value != [] ==> ins == Some(y.id) && y in f && y.id != sid && InGroup(y, level, np)
    ensures SourcePlaced(WorkingOf(f, level, np, sid, ins, after), sid, ins, after)
  {
    var group := Sort(GroupOf(f, level, np), ViewKey);
    InSortedGroup(f, level, np, x);
    if ins.Some? && ins.value != [] {
      InSortedGroup(f, level, np, y);
    }
    SplicePlacement(group, ins, after, x, y);
    assert WorkingOf(f, level, np, sid, ins, after) == Working(group, sid, ins, after);
  }

  /** Where the working order puts the source in a list where only the source was relinked. */
  lemma RelinkedPlacement(goals: seq<Goal>, f: seq<Goal>, s: Goal, t: Goal, np: Option<String>, after: bool)
    requires FindGoal(goals, s.id) == Some(s) && FindGoal(goals, t.id) == Some(t) && s.id != t.id
    requires |f| == |goals|
    requires forall i :: 0 <= i < |goals| ==>
               (f[i].id == goals[i].id && f[i].level == goals[i].level
                && f[i].parentGoalId == (if goals[i].id == s.id then np else goals[i].parentGoalId))
    ensures var w := WorkingOf(f, s.level, np, s.id, InsertTarget(s, t, np), after);
      |w| > 0
      && (InsertTarget(s, t, np).None? ==> w[|w| - 1].id == s.id)
      && (InsertTarget(s, t, np).Some? && t.id != [] ==>
            exists k :: 0 <= k < |w| - 1 && (after ==> w[k].id == t.id && w[k + 1].id == s.id)
                                        && (!after ==> w[k].id == s.id && w[k + 1].id == t.id))
  {
    var ins := InsertTarget(s, t, np);
    var i := IndexOfId(goals, s.id);
    var j := IndexOfId(goals, t.id);
    assert f[i] in f && f[i].id == s.id && InGroup(f[i], s.level, np);
    assert ins.Some? ==> ins == Some(t.id);
    assert ins.Some? && ins.value != [] ==> f[j] in f && f[j].id == t.id && InGroup(f[j], s.level, np);
    WorkingPlacement(f, s.level, np, s.id, ins, after, f[i], f[j]);
  }

  /** The first pass keeps each goal's id and level and relinks exactly the goals with the source's id. */
  lemma FirstPassAll(goals: seq<Goal>, s: Goal, np: Option<String>, after: bool)
    ensures var f := FirstPass(goals, s, np, after);
      |f| == |goals|
      && forall i :: 0 <= i < |goals| ==>
           (f[i].id == goals[i].id && f[i].level == goals[i].level
            && f[i].parentGoalId == (if goals[i].id == s.id then np else goals[i].parentGoalId))
  {
    FirstPassKeeps(goals, s, np, after);
  }

  /** Where the second pass puts the source in its new group's working order. */
  lemma RearrangedPlacement(goals: seq<Goal>, s: Goal, t: Goal, np: Option<String>, after: bool)
    requires FindGoal(goals, s.id) == Some(s) && FindGoal(goals, t.id) == Some(t) && s.id != t.id
    ensures var w := WorkingOf(FirstPass(goals, s, np, after), s.level, np, s.id, InsertTarget(s, t, np), after);
      |w| > 0
      && (InsertTarget(s, t, np).None? ==> w[|w| - 1].id == s.id)
      && (InsertTarget(s, t, np).Some? && t.id != [] ==>
            exists k :: 0 <= k < |w| - 1 && (after ==> w[k].id == t.id && w[k + 1].id == s.id)
                                        && (!after ==> w[k].id == s.id && w[k + 1].id == t.id))
  {
    FirstPassAll(goals, s, np, after);
    RelinkedPlacement(goals, FirstPass(goals, s, np, after), s, t, np, after);
  }

  /** The source, now in the new group, goes right beside a sibling target, else to the end. */
  lemma MovePlacement(goals: seq<Goal>, sourceId: String, targetId: String, after: bool)
    requires MoveResult(goals, sourceId, targetId, after).Some?
    ensures var s := FindGoal(goals, sourceId).value;
      var t := FindGoal(goals, targetId).value;
      var np := NewParent(s, t);
      var w := WorkingOf(FirstPass(goals, s, np, after), s.level, np, sourceId, InsertTarget(s, t, np), after);
      |w| > 0
      && (InsertTarget(s, t, np).None? ==> w[|w| - 1].id == sourceId)
      && (InsertTarget(s, t, np).Some? && targetId != [] ==>
            exists k :: 0 <= k < |w| - 1 && (after ==> w[k].id == targetId && w[k + 1].id == sourceId)
                                        && (!after ==> w[k].id == sourceId && w[k + 1].id == targetId))
  {
    MoveAccepted(goals, sourceId, targetId, after);
    var s := FindGoal(goals, sourceId).value;
    var t := FindGoal(goals, targetId).value;
    RearrangedPlacement(goals, s, t, NewParent(s, t), after);
  }

  // ---------------------------------------------------------------------
  // handleMoveToRoot

  /** `updatedGoals.map((goal) => orders.has(goal.id) ? { ...goal, order } : goal)`. */
  function RenumberIds(goals: seq<Goal>, orders: map<String, int>): (r: seq<Goal>)
    ensures |r| == |goals|
    ensures forall i :: 0 <= i < |goals| ==> r[i] == goals[i].(order := r[i].order)
    ensures forall i :: 0 <= i < |goals| ==> r[i].order == (if goals[i].id in orders then Some(orders[goals[i].id]) else goals[i].order)
  {
    seq(|goals|, i requires 0 <= i < |goals| =>
      if goals[i].id in orders then goals[i].(order := Some(orders[goals[i].id])) else goals[i])
  }

  /** The root group of the source's level with the source moved to its end. */
  function RootWorking(goals: seq<Goal>, source: Goal): seq<Goal>
  {
    WorkingOf(Relink(goals, source.id, None), source.level, None, source.id, None, false)
  }

  /** handleMoveToRoot: the goals to save, or None for an unknown source. */
  function MoveToRoot(goals: seq<Goal>, sourceId: String): (r: Option<seq<Goal>>)
    ensures r.None? <==> sourceId !in Ids(goals)
  {
    var source := FindGoal(goals, sourceId);
    if source.None? then None
    else Some(RenumberIds(Relink(goals, sourceId, None), OrdersMap(RootWorking(goals, source.value))))
  }

  /** With distinct ids renumbering by id touches only the group, so it agrees with reorderGroup's renumbering. */
  lemma RenumberIdsAgree(goals: seq<Goal>, level: Level, parentId: Option<String>, w: seq<Goal>)
    requires DistinctIds(goals)
    requires forall k :: 0 <= k < |w| ==> InGroup(w[k], level, parentId) && w[k] in goals
    ensures RenumberIds(goals, OrdersMap(w)) == Renumber(goals, level, parentId, OrdersMap(w))
  {
    var orders := OrdersMap(w);
    var a := RenumberIds(goals, orders);
    var b := Renumber(goals, level, parentId, orders);
    forall i | 0 <= i < |goals| ensures a[i] == b[i] {
      if goals[i].id in orders {
        var k :| 0 <= k < |w| && w[k].id == goals[i].id;
        var j :| 0 <= j < |goals| && goals[j] == w[k];
        assert j == i;
      }
    }
  }

  /** The relinked list and the root working order of a known source, with distinct ids. */
  lemma RootRenumber(goals: seq<Goal>, s: Goal)
    requires DistinctIds(goals) && FindGoal(goals, s.id) == Some(s)
    ensures var updated := Relink(goals, s.id, None);
      var w := RootWorking(goals, s);
      DistinctIds(updated) && DistinctIds(w)
      && (forall k :: 0 <= k < |w| ==> InGroup(w[k], s.level, None) && w[k] in updated)
      && (forall g :: g in updated && InGroup(g, s.level, None) ==> g in w)
      && RenumberIds(updated, OrdersMap(w)) == Renumber(updated, s.level, None, OrdersMap(w))
  {
    var updated := Relink(goals, s.id, None);
    var w := RootWorking(goals, s);
    assert DistinctIds(updated) by {
      assert forall i :: 0 <= i < |goals| ==> updated[i].id == goals[i].id;
    }
    WorkingMembers(updated, s.level, None, s.id, None, false);
    DistinctPart(updated, w);
    RenumberIdsAgree(updated, s.level, None, w);
  }

  /** The source is the last of the root working order. */
  lemma RootLast(goals: seq<Goal>, s: Goal)
    requires FindGoal(goals, s.id) == Some(s)
    ensures var w := RootWorking(goals, s);
      |w| > 0 && w[|w| - 1].id == s.id
  {
    var updated := Relink(goals, s.id, None);
    var i := IndexOfId(goals, s.id);
    assert updated[i] in updated && updated[i].id == s.id && InGroup(updated[i], s.level, None);
    WorkingPlacement(updated, s.level, None, s.id, None, false, updated[i], updated[i]);
  }

  /** The root move changes the source's parent and, besides that, only orders within the root group. */
  lemma RootMovedFrame(goals: seq<Goal>, s: Goal)
    requires DistinctIds(goals) && FindGoal(goals, s.id) == Some(s)
    ensures var out := RenumberIds(Relink(goals, s.id, None), OrdersMap(RootWorking(goals, s)));
      |out| == |goals|
      && (forall i :: 0 <= i < |goals| && goals[i].id == s.id ==> out[i].parentGoalId == None)
      && (forall i :: 0 <= i < |goals| && goals[i].id != s.id ==> out[i] == goals[i].(order := out[i].order))
      && (forall i :: 0 <= i < |goals| && out[i].order != goals[i].order ==> InGroup(out[i], s.level, None))
  {
    var updated := Relink(goals, s.id, None);
    var out := RenumberIds(updated, OrdersMap(RootWorking(goals, s)));
    forall i | 0 <= i < |goals| && out[i].order != goals[i].order ensures InGroup(out[i], s.level, None) {
      assert out[i] != updated[i];
      assert InGroup(out[i], s.level, None) by {
        RootRenumber(goals, s);
      }
    }
  }

  /** The root group is numbered 1..n in its working order, the source last. */
  lemma RootMovedNumbers(goals: seq<Goal>, s: Goal)
    requires DistinctIds(goals) && FindGoal(goals, s.id) == Some(s)
    ensures var out := RenumberIds(Relink(goals, s.id, None), OrdersMap(RootWorking(goals, s)));
      var w := RootWorking(goals, s);
      |out| == |goals| && DistinctIds(w) && |w| > 0 && w[|w| - 1].id == s.id
      && (forall i :: 0 <= i < |goals| && goals[i].id == s.id ==> out[i].order == Some(|w|))
      && (forall k :: 0 <= k < |w| ==> 0 <= IndexOfId(out, w[k].id) && out[IndexOfId(out, w[k].id)].order == Some(k + 1))
  {
    var updated := Relink(goals, s.id, None);
    var w := RootWorking(goals, s);
    var out := RenumberIds(updated, OrdersMap(w));
    RootRenumber(goals, s);
    RootLast(goals, s);
    RenumberNumbers(updated, s.level, None, w);
    IndexOfDistinct(w);
    forall i | 0 <= i < |goals| && goals[i].id == s.id ensures out[i].order == Some(|w|) {
      assert InGroup(out[i], s.level, None) && out[i].id == w[|w| - 1].id;
    }
  }

  /**
   * With distinct ids the source loses its parent and becomes the last of its
   * level's root group, which is numbered 1..n in its working order; no other
   * goal changes but by taking its position in that group as its order.
   */
  lemma MoveToRootSpec(goals: seq<Goal>, sourceId: String)
    requires DistinctIds(goals) && sourceId in Ids(goals)
    ensures var out := MoveToRoot(goals, sourceId).value;
      var s := FindGoal(goals, sourceId).value;
      var w := RootWorking(goals, s);
      |out| == |goals| && DistinctIds(w) && |w| > 0 && w[|w| - 1].id == sourceId
      && (forall i :: 0 <= i < |goals| && goals[i].id == sourceId ==> out[i].parentGoalId == None && out[i].order == Some(|w|))
      && (forall i :: 0 <= i < |goals| && goals[i].id != sourceId ==> out[i] == goals[i].(order := out[i].order))
      && (forall i :: 0 <= i < |goals| && out[i].order != goals[i].order ==> InGroup(out[i], s.level, None))
      && (forall k :: 0 <= k < |w| ==> 0 <= IndexOfId(out, w[k].id) && out[IndexOfId(out, w[k].id)].order == Some(k + 1))
  {
    var s := FindGoal(goals, sourceId).value;
    RootMovedFrame(goals, s);
    RootMovedNumbers(goals, s);
  }

  // ---------------------------------------------------------------------
  // buildGoalTree

  /**
   * The node objects of buildGoalTree as values: the roots and, per goal id,
   * the children pushed onto that goal's node, each list sorted as sortNodes
   * sorts it. The node of a goal is the one the id map holds for its id.
   */
  datatype Tree = Tree(roots: seq<Goal>, children: map<String, seq<Goal>>)

  /** The node a goal is placed under: its parent, when it is set and names a goal. */
  function PlacedUnder(goals: seq<Goal>, g: Goal): Option<String>
  {
    if Present(g.parentGoalId) && g.parentGoalId.value in Ids(goals) then Some(g.parentGoalId.value) else None
  }

  /** The nodes pushed, in goal order, onto the list of `under` (None: the roots). */
  function Placed(goals: seq<Goal>, all: seq<Goal>, under: Option<String>): (r: seq<Goal>)
    ensures |r| <= |goals|
  {
    if goals == [] then []
    else
      var g := goals[|goals| - 1];
      Placed(goals[..|goals| - 1], all, under) + (if PlacedUnder(all, g) == under && LastGoal(all, g.id).Some? then [LastGoal(all, g.id).value] else [])
  }

  function BuildGoalTree(goals: seq<Goal>): Tree
  {
    Tree(Sort(Placed(goals, goals, None), ViewKey),
      map id | id in Ids(goals) :: Sort(Placed(goals, goals, Some(id)), ViewKey))
  }

  /** Every list of the tree is sorted by (order, missing last, title). */
  lemma TreeSorted(goals: seq<Goal>)
    ensures SortedBy(BuildGoalTree(goals).roots, ViewKey)
    ensures forall id :: id in BuildGoalTree(goals).children ==> SortedBy(BuildGoalTree(goals).children[id], ViewKey)
  {
    SortSorted(Placed(goals, goals, None), ViewKey);
    forall id | id in BuildGoalTree(goals).children ensures SortedBy(BuildGoalTree(goals).children[id], ViewKey) {
      SortSorted(Placed(goals, goals, Some(id)), ViewKey);
    }
  }

  /** With distinct ids the id map gives back each goal of the list. */
  lemma LastOfDistinct(all: seq<Goal>, g: Goal)
    requires DistinctIds(all) && g in all
    ensures LastGoal(all, g.id) == Some(g)
  {
    LastIsFirst(all, g.id);
    var p :| 0 <= p < |all| && all[p] == g;
    assert all[IndexOfId(all, g.id)].id == all[p].id;
  }

  /** With distinct ids the last goal of a list is not among the ones before it. */
  lemma LastNotBefore(goals: seq<Goal>)
    requires DistinctIds(goals) && goals != []
    ensures goals[|goals| - 1] !in goals[..|goals| - 1]
  {
  }

  /** With distinct ids a placed list holds each goal placed there once, and no other goal. */
  lemma {:induction false} PlacedCount(goals: seq<Goal>, all: seq<Goal>, under: Option<String>, x: Goal)
    requires DistinctIds(all) && multiset(goals) <= multiset(all) && DistinctIds(goals)
    ensures multiset(Placed(goals, all, under))[x] == if x in goals && PlacedUnder(all, x) == under then 1 else 0
  {
    if goals != [] {
      var init := goals[..|goals| - 1];
      var g := goals[|goals| - 1];
      assert goals == init + [g];
      assert multiset(init) <= multiset(goals);
      assert DistinctIds(init);
      PlacedCount(init, all, under, x);
      assert g in multiset(all);
      LastOfDistinct(all, g);
      LastNotBefore(goals);
    }
  }

  /**
   * With distinct ids buildGoalTree places every goal exactly once: among the
   * roots when its parent is unset, empty or names no goal, and otherwise in
   * its parent's children only.
   */
  lemma TreePlacesOnce(goals: seq<Goal>, x: Goal)
    requires DistinctIds(goals)
    ensures var t := BuildGoalTree(goals);
      (multiset(t.roots)[x] == if x in goals && PlacedUnder(goals, x).None? then 1 else 0)
      && (forall id :: id in t.children ==>
            multiset(t.children[id])[x] == if x in goals && PlacedUnder(goals, x) == Some(id) then 1 else 0)
  {
    PlacedCount(goals, goals, None, x);
    forall id | id in BuildGoalTree(goals).children
      ensures multiset(BuildGoalTree(goals).children[id])[x] == if x in goals && PlacedUnder(goals, x) == Some(id) then 1 else 0
    {
      PlacedCount(goals, goals, Some(id), x);
    }
  }

  // ---------------------------------------------------------------------
  // the level helpers

  /** levelsBelow: the strictly narrower levels, or the level itself for the narrowest. */
  function LevelsBelow(current: Level): (r: seq<Level>)
  {
    var index := LevelIndex(current);
    if index + 1 >= |LevelOrder| then [current] else LevelOrder[index + 1..]
  }

  /** nextLevel: the next narrower level, or the level itself for the narrowest. */
  function NextLevel(current: Level): Level
  {
    var index := LevelIndex(current);
    if index + 1 >= |LevelOrder| then current else LevelOrder[index + 1]
  }

  /** Each level stands once in LEVEL_ORDER: at its own index. */
  lemma LevelAt(k: nat)
    requires k < |LevelOrder|
    ensures LevelIndex(LevelOrder[k]) == k
  {
    if k == 0 {} else if k == 1 {} else if k == 2 {} else if k == 3 {} else if k == 4 {} else if k == 5 {} else {}
  }

  /** Below any level but the narrowest, the i-th offered level stands right after the current one at distance i + 1. */
  lemma LevelsBelowIndex(current: Level)
    requires current != Weekly
    ensures |LevelsBelow(current)| == |LevelOrder| - 1 - LevelIndex(current)
    ensures forall i :: 0 <= i < |LevelsBelow(current)| ==> LevelIndex(LevelsBelow(current)[i]) == LevelIndex(current) + 1 + i
  {
    var index := LevelIndex(current);
    assert index + 1 < |LevelOrder|;
    forall i | 0 <= i < |LevelsBelow(current)| ensures LevelIndex(LevelsBelow(current)[i]) == index + 1 + i {
      LevelAt(index + 1 + i);
    }
  }

  /** The levels offered below a parent are exactly the narrower ones, broadest first; nextLevel is the first. */
  lemma LevelsBelowSpec(current: Level)
    ensures current != Weekly ==> forall l :: l in LevelsBelow(current) <==> LevelIndex(l) > LevelIndex(current)
    ensures current == Weekly ==> LevelsBelow(current) == [Weekly]
    ensures forall i, j :: 0 <= i < j < |LevelsBelow(current)| ==> LevelIndex(LevelsBelow(current)[i]) < LevelIndex(LevelsBelow(current)[j])
    ensures |LevelsBelow(current)| > 0 && NextLevel(current) == LevelsBelow(current)[0]
  {
    if current != Weekly {
      var index := LevelIndex(current);
      var below := LevelsBelow(current);
      LevelsBelowIndex(current);
      forall l ensures l in below <==> LevelIndex(l) > index {
        if LevelIndex(l) > index {
          assert below[LevelIndex(l) - index - 1] == l;
        }
      }
    }
  }
}
