/**
 * The weekly plan screen's own rules: the order of the days, the week's
 * label and month key, which inbox memos show under which day and in what
 * order, and what saving the screen collects and when it writes.
 */
module WeeklyPlanView {
  import opened Text
  import opened Dates
  import MarkdownTags
  import WeeklyPlan
  import Routines
  import Inbox

  // ---------------------------------------------------------------------
  // days and dates

  /** The name of weekday `w` (0 for Sunday): `Days` runs from Monday to Sunday. */
  function DayName(w: nat): String
    requires w < 7
  {
    WeeklyPlan.Days[(w + 6) % 7]
  }

  /** The index into `Days` of the k-th day of a week starting on `ws`. */
  function DayIndex(ws: WeekStart, k: nat): (d: nat)
    requires k < 7
    ensures d < 7
  {
    if ws == Monday then k else if k == 0 then 6 else k - 1
  }

  /** dayOrder: the seven day names in the order the week runs, Sunday moved first for a week starting on Sunday. */
  function DayOrder(ws: WeekStart): (r: seq<String>)
    ensures |r| == 7
    ensures forall k :: 0 <= k < 7 ==> r[k] == WeeklyPlan.Days[DayIndex(ws, k)]
  {
    var days := WeeklyPlan.Days;
    if ws == Sunday then [days[6]] + days[..6] else days
  }

  /** Either order holds the seven day names, each once. */
  lemma DayOrderPermutes(ws: WeekStart)
    ensures multiset(DayOrder(ws)) == multiset(WeeklyPlan.Days)
    ensures forall d :: d in DayOrder(ws) <==> d in WeeklyPlan.Days
    ensures WeeklyPlan.Distinct(DayOrder(ws))
  {
    DayOrderMultiset(ws);
    DayOrderNames(ws);
    DayOrderDistinct(ws);
  }

  lemma DayOrderMultiset(ws: WeekStart)
    ensures multiset(DayOrder(ws)) == multiset(WeeklyPlan.Days)
  {
    var days := WeeklyPlan.Days;
    if ws == Sunday {
      calc {
        multiset(DayOrder(ws));
        multiset([days[6]]) + multiset(days[..6]);
        { assert days == days[..6] + [days[6]]; }
        multiset(days);
      }
    }
  }

  lemma DayOrderNames(ws: WeekStart)
    ensures forall d :: d in DayOrder(ws) <==> d in WeeklyPlan.Days
  {
    var days := WeeklyPlan.Days;
    var r := DayOrder(ws);
    forall d | d in days ensures d in r {
      var j :| 0 <= j < 7 && days[j] == d;
      var k := if ws == Monday then j else if j == 6 then 0 else j + 1;
      assert r[k] == d;
    }
  }

  lemma DayOrderDistinct(ws: WeekStart)
    ensures WeeklyPlan.Distinct(DayOrder(ws))
  {
    var days := WeeklyPlan.Days;
    var r := DayOrder(ws);
    assert WeeklyPlan.Distinct(days) by {
      WeeklyPlan.DaysDistinct();
    }
    forall i, j | 0 <= i < j < |r| ensures r[i] != r[j] {
      var a := DayIndex(ws, i);
      var b := DayIndex(ws, j);
      if a < b {
        assert days[a] != days[b];
      } else {
        assert days[b] != days[a];
      }
    }
  }

  /** The k-th name of the day order names the weekday of the k-th day of any week. */
  lemma DayOrderNamesWeekdays(start: int, ws: WeekStart, k: nat)
    requires Weekday(start) == StartIndex(ws) && k < 7
    ensures DayOrder(ws)[k] == DayName(Weekday(start + k))
  {
    assert Weekday(start + k) == (StartIndex(ws) + k) % 7 by {
      assert (start + k + 4) % 7 == ((start + 4) % 7 + k) % 7;
    }
    assert ((StartIndex(ws) + k) % 7 + 6) % 7 == DayIndex(ws, k);
  }

  /**
   * weekOfMonth: the week of the month day `n` lies in, counted from 1 for
   * the week holding the first of the month.
   */
  function WeekOfMonth(n: int, ws: WeekStart): (r: int)
    ensures 1 <= r <= 6
    ensures var w := ComputeWeekStart(FirstOfMonth(n), 0, ws);
            (r - 1) * 7 <= n - w < r * 7
  {
    var first := FirstOfMonth(n);
    var offset := (Weekday(first) - StartIndex(ws) + 7) % 7;
    var firstWeekStart := first - offset;
    (n - firstWeekStart) / 7 + 1
  }

  /** formatWeekLabel: `<year>年 <month>月 第<week>週`. */
  function FormatWeekLabel(start: int, ws: WeekStart): String
  {
    var c := CivilOf(start);
    IntToString(c.year) + "年 " + NatToString(c.month) + "月 第" + NatToString(WeekOfMonth(start, ws)) + "週"
  }

  /** getMonthKey: `YYYY-MM`. */
  function GetMonthKey(n: int): String
  {
    var c := CivilOf(n);
    IntToString(c.year) + "-" + Pad2(c.month)
  }

  /** formatFullDate: `YYYY/MM/DD`. */
  function FormatFullDate(n: int): String
  {
    var c := CivilOf(n);
    IntToString(c.year) + "/" + Pad2(c.month) + "/" + Pad2(c.day)
  }

  lemma DigitsAvoid(s: String, c: char)
    requires AllDigits(s) && !IsDigit(c)
    ensures c !in s
  {
    forall i | 0 <= i < |s| ensures s[i] != c {
      assert IsDigit(s[i]);
    }
  }

  /** A month key splits on `-` into the year and two digits that read back as the month. */
  lemma MonthKeyFields(n: int)
    requires CivilOf(n).year >= 0
    ensures var c := CivilOf(n);
            Split(GetMonthKey(n), '-') == [NatToString(c.year), Pad2(c.month)]
            && |Pad2(c.month)| == 2 && DigitsValue(Pad2(c.month)) == c.month
  {
    var c := CivilOf(n);
    var y := NatToString(c.year);
    DigitsAvoid(y, '-');
    DigitsAvoid(Pad2(c.month), '-');
    Pad2Value(c.month);
    SplitNoSep(Pad2(c.month), '-');
    SplitAtSep(y, '-', Pad2(c.month));
    assert GetMonthKey(n) == y + ['-'] + Pad2(c.month);
  }

  /** A full date splits on `/` into the year and two two-digit fields that read back as month and day. */
  lemma FullDateFields(n: int)
    requires CivilOf(n).year >= 0
    ensures var c := CivilOf(n);
            Split(FormatFullDate(n), '/') == [NatToString(c.year), Pad2(c.month), Pad2(c.day)]
            && DigitsValue(Pad2(c.month)) == c.month && DigitsValue(Pad2(c.day)) == c.day
  {
    var c := CivilOf(n);
    var y := NatToString(c.year);
    DigitsAvoid(y, '/');
    DigitsAvoid(Pad2(c.month), '/');
    DigitsAvoid(Pad2(c.day), '/');
    Pad2Value(c.month);
    Pad2Value(c.day);
    SplitNoSep(Pad2(c.day), '/');
    SplitAtSep(Pad2(c.month), '/', Pad2(c.day));
    SplitAtSep(y, '/', Pad2(c.month) + "/" + Pad2(c.day));
    assert FormatFullDate(n) == y + ['/'] + (Pad2(c.month) + ['/'] + Pad2(c.day));
  }

  // ---------------------------------------------------------------------
  // memos by day

  /** Milliseconds in a day: inbox timestamps are milliseconds from 1970-01-01. */
  const DayMs: int := 86400000

  /**
   * The day of the week starting on day `weekStart` a memo created at
   * `createdAt` falls on: none for a memo without a time or outside that week.
   */
  function MemoDay(createdAt: Option<int>, weekStart: int): (k: Option<nat>)
    ensures k.Some? <==> createdAt.Some? && weekStart * DayMs <= createdAt.value < (weekStart + 7) * DayMs
    ensures k.Some? ==> k.value < 7 && (weekStart + k.value) * DayMs <= createdAt.value < (weekStart + k.value + 1) * DayMs
  {
    if createdAt.None? then None
    else if createdAt.value < weekStart * DayMs || createdAt.value >= (weekStart + 7) * DayMs then None
    else
      var t := createdAt.value;
      assert t / DayMs * DayMs <= t < t / DayMs * DayMs + DayMs;
      Some(t / DayMs - weekStart)
  }

  /** The memos shown under the k-th day of the week, in inbox order. */
  function MemosOn(items: seq<Inbox.InboxItem>, weekStart: int, k: nat): (r: seq<Inbox.InboxItem>)
    ensures forall j :: 0 <= j < |r| ==> r[j] in items && MemoDay(r[j].createdAt, weekStart) == Some(k)
  {
    if items == [] then []
    else
      var x := items[|items| - 1];
      MemosOn(items[..|items| - 1], weekStart, k) + (if MemoDay(x.createdAt, weekStart) == Some(k) then [x] else [])
  }

  /** Every memo with a time in the week is shown under exactly the day it was created on. */
  lemma {:induction false} MemoShownOnItsDay(items: seq<Inbox.InboxItem>, weekStart: int, k: nat, x: Inbox.InboxItem)
    requires x in items
    ensures x in MemosOn(items, weekStart, k) <==> MemoDay(x.createdAt, weekStart) == Some(k)
  {
    var n := |items| - 1;
    if x != items[n] {
      assert x in items[..n] by {
        var i :| 0 <= i < |items| && items[i] == x;
        assert items[..n][i] == x;
      }
      MemoShownOnItsDay(items[..n], weekStart, k, x);
    }
  }

  /** The memo lists by day, for the first memos placed: one list per day of `order`. */
  predicate Buckets(byDay: map<String, seq<Inbox.InboxItem>>, order: seq<String>, placed: seq<Inbox.InboxItem>, weekStart: int)
    requires |order| == 7
  {
    forall k :: 0 <= k < 7 ==> order[k] in byDay && byDay[order[k]] == MemosOn(placed, weekStart, k)
  }

  /** The lists by day after placing memo `x`: appended to its day's list, or left out. */
  function Place(byDay: map<String, seq<Inbox.InboxItem>>, order: seq<String>, x: Inbox.InboxItem, weekStart: int): map<String, seq<Inbox.InboxItem>>
    requires |order| == 7 && forall k :: 0 <= k < 7 ==> order[k] in byDay
  {
    var day := MemoDay(x.createdAt, weekStart);
    if day.Some? then byDay[order[day.value] := byDay[order[day.value]] + [x]] else byDay
  }

  /** Placing one more memo under its day keeps the lists by day. */
  lemma PlaceMemo(byDay: map<String, seq<Inbox.InboxItem>>, order: seq<String>, placed: seq<Inbox.InboxItem>,
                  x: Inbox.InboxItem, weekStart: int)
    requires |order| == 7 && WeeklyPlan.Distinct(order) && Buckets(byDay, order, placed, weekStart)
    ensures Buckets(Place(byDay, order, x, weekStart), order, placed + [x], weekStart)
    ensures Place(byDay, order, x, weekStart).Keys == byDay.Keys
  {
    var day := MemoDay(x.createdAt, weekStart);
    var next := Place(byDay, order, x, weekStart);
    var all := placed + [x];
    assert all[..|all| - 1] == placed;
    forall k | 0 <= k < 7 ensures order[k] in next && next[order[k]] == MemosOn(all, weekStart, k) {
      if day.Some? && k != day.value {
        assert order[k] != order[day.value] by {
          if k < day.value {
            assert order[k] != order[day.value];
          } else {
            assert order[day.value] != order[k];
          }
        }
      }
    }
  }

  /** The memo lists by day name, as the screen fills them. */
  method BucketMemos(items: seq<Inbox.InboxItem>, weekStart: int, ws: WeekStart) returns (byDay: map<String, seq<Inbox.InboxItem>>)
    ensures forall d :: d in byDay <==> d in WeeklyPlan.Days
    ensures forall k :: 0 <= k < 7 ==> byDay[DayOrder(ws)[k]] == MemosOn(items, weekStart, k)
  {
    var order := DayOrder(ws);
    var empty := map d | d in order :: [];
    assert Buckets(empty, order, [], weekStart) && WeeklyPlan.Distinct(order) by {
      DayOrderPermutes(ws);
      EmptyBuckets(order, weekStart);
    }
    byDay := FillBuckets(items, weekStart, order, empty);
    assert forall d :: d in byDay <==> d in WeeklyPlan.Days by {
      DayOrderPermutes(ws);
    }
  }

  /** Before any memo is placed, every day of `order` has an empty list. */
  lemma EmptyBuckets(order: seq<String>, weekStart: int)
    requires |order| == 7
    ensures Buckets(map d | d in order :: [], order, [], weekStart)
  {
  }

  /** The loop placing the memos one by one under their days. */
  method FillBuckets(items: seq<Inbox.InboxItem>, weekStart: int, order: seq<String>, empty: map<String, seq<Inbox.InboxItem>>)
    returns (byDay: map<String, seq<Inbox.InboxItem>>)
    requires |order| == 7 && WeeklyPlan.Distinct(order) && Buckets(empty, order, [], weekStart)
    ensures byDay.Keys == empty.Keys && Buckets(byDay, order, items, weekStart)
  {
    byDay := empty;
    var i := 0;
    while i < |items|
      invariant 0 <= i <= |items|
      invariant byDay.Keys == empty.Keys
      invariant Buckets(byDay, order, items[..i], weekStart)
    {
      var item := items[i];
      ghost var before := byDay;
      PlaceMemo(byDay, order, items[..i], item, weekStart);
      var day := MemoDay(item.createdAt, weekStart);
      if day.Some? {
        var d := order[day.value];
        byDay := byDay[d := byDay[d] + [item]];
      }
      assert byDay == Place(before, order, item, weekStart);
      assert items[..i + 1] == items[..i] + [item];
      i := i + 1;
    }
    assert items[..i] == items;
  }

  // ---------------------------------------------------------------------
  // memo rows in time order

  /** The time a memo row is ordered by: `createdAt ?? 0`. */
  function RowTime(x: Inbox.InboxItem): int
  {
    if x.createdAt.Some? then x.createdAt.value else 0
  }

  predicate InTimeOrder(rows: seq<Inbox.InboxItem>)
  {
    forall i, j :: 0 <= i < j < |rows| ==> RowTime(rows[i]) <= RowTime(rows[j])
  }

  /** The position a row for time `t` goes to: before the first row with a strictly later time, else at the end. */
  function InsertPosition(rows: seq<Inbox.InboxItem>, t: int): (i: nat)
    ensures i <= |rows|
    ensures forall j :: 0 <= j < i ==> RowTime(rows[j]) <= t
    ensures i < |rows| ==> RowTime(rows[i]) > t
  {
    if rows == [] then 0
    else if RowTime(rows[0]) > t then 0
    else 1 + InsertPosition(rows[1..], t)
  }

  /** insertMemoRow: the row placed before the first later row. */
  method InsertMemoRow(rows: seq<Inbox.InboxItem>, x: Inbox.InboxItem) returns (r: seq<Inbox.InboxItem>)
    ensures var i := InsertPosition(rows, RowTime(x));
            r == rows[..i] + [x] + rows[i..]
  {
    var i := 0;
    while i < |rows| && RowTime(rows[i]) <= RowTime(x)
      invariant 0 <= i <= |rows|
      invariant InsertPosition(rows, RowTime(x)) == i + InsertPosition(rows[i..], RowTime(x))
    {
      assert rows[i..][1..] == rows[i + 1..];
      i := i + 1;
    }
    r := rows[..i] + [x] + rows[i..];
  }

  /** Rows kept in time order stay in time order after an insertion, and hold one more row. */
  lemma InsertKeepsOrder(rows: seq<Inbox.InboxItem>, x: Inbox.InboxItem)
    requires InTimeOrder(rows)
    ensures var i := InsertPosition(rows, RowTime(x));
            InTimeOrder(rows[..i] + [x] + rows[i..])
            && multiset(rows[..i] + [x] + rows[i..]) == multiset(rows) + multiset{x}
  {
    var i := InsertPosition(rows, RowTime(x));
    var r := rows[..i] + [x] + rows[i..];
    assert InTimeOrder(r) by {
      forall a, b | 0 <= a < b < |r| ensures RowTime(r[a]) <= RowTime(r[b]) {
        if b < i {
          assert r[a] == rows[a] && r[b] == rows[b];
        } else if b == i {
          assert r[a] == rows[a];
        } else if a < i {
          assert r[a] == rows[a] && r[b] == rows[b - 1];
        } else if a == i {
          assert r[b] == rows[b - 1];
          assert RowTime(rows[i]) > RowTime(x);
        } else {
          assert r[a] == rows[a - 1] && r[b] == rows[b - 1];
        }
      }
    }
    assert multiset(r) == multiset(rows) + multiset{x} by {
      assert rows == rows[..i] + rows[i..];
    }
  }

  // ---------------------------------------------------------------------
  // saving

  /** `values.map(trim).filter(nonempty)`: the entries of a list of inputs. */
  function TrimmedValues(values: seq<String>): (r: seq<String>)
    ensures |r| <= |values|
    ensures forall i :: 0 <= i < |r| ==> r[i] != [] && Trimmed(r[i])
  {
    if values == [] then []
    else
      var t := Trim(values[|values| - 1]);
      TrimmedValues(values[..|values| - 1]) + (if t != [] then [t] else [])
  }

  /** An entry is kept exactly when some input trims to it and it is not empty. */
  lemma {:induction false} TrimmedValuesExact(values: seq<String>, x: String)
    ensures x in TrimmedValues(values) <==> x != [] && exists j :: 0 <= j < |values| && Trim(values[j]) == x
  {
    if values != [] {
      var n := |values| - 1;
      var t := Trim(values[n]);
      var last := if t != [] then [t] else [];
      assert TrimmedValues(values) == TrimmedValues(values[..n]) + last;
      TrimmedValuesExact(values[..n], x);
      assert x in TrimmedValues(values) <==> x in TrimmedValues(values[..n]) || x in last;
      assert values == values[..n] + [values[n]];
      SomeTrimSnoc(values[..n], values[n], x);
    }
  }

  /** Some input trims to `x` exactly when some earlier one does or the last one does. */
  lemma SomeTrimSnoc(init: seq<String>, last: String, x: String)
    ensures (exists j :: 0 <= j < |init + [last]| && Trim((init + [last])[j]) == x)
        <==> (exists j :: 0 <= j < |init| && Trim(init[j]) == x) || Trim(last) == x
  {
    var values := init + [last];
    if exists j :: 0 <= j < |values| && Trim(values[j]) == x {
      var j :| 0 <= j < |values| && Trim(values[j]) == x;
      if j < |init| {
        assert values[j] == init[j];
      }
    }
    if exists j :: 0 <= j < |init| && Trim(init[j]) == x {
      var j :| 0 <= j < |init| && Trim(init[j]) == x;
      assert values[j] == init[j];
    }
    if Trim(last) == x {
      assert values[|init|] == last;
    }
  }

  /** Entries typed into one-line inputs are plain entries of the plan. */
  lemma {:induction false} TrimmedValuesPlain(values: seq<String>)
    requires forall i :: 0 <= i < |values| ==> SingleLine(values[i])
    ensures WeeklyPlan.AllPlain(TrimmedValues(values))
  {
    if values != [] {
      var n := |values| - 1;
      TrimmedValuesPlain(values[..n]);
      TrimSingleLine(values[n]);
    }
  }

  /** The routine rows kept: titles trimmed, rows without a title dropped. */
  function CollectRoutines(rows: seq<Routines.Routine>): (r: seq<Routines.Routine>)
    ensures |r| <= |rows|
    ensures forall i :: 0 <= i < |r| ==> r[i].title != [] && Trimmed(r[i].title)
  {
    if rows == [] then []
    else
      var x := rows[|rows| - 1];
      var t := Trim(x.title);
      CollectRoutines(rows[..|rows| - 1]) + (if t != [] then [Routines.Routine(t, x.checks)] else [])
  }

  /** The role sections kept: role and goals trimmed, empty goals and roles without a name dropped. */
  function CollectRoles(roles: seq<WeeklyPlan.RoleGoals>): (r: seq<WeeklyPlan.RoleGoals>)
    ensures |r| <= |roles|
    ensures forall i :: 0 <= i < |r| ==> r[i].role != [] && Trimmed(r[i].role)
  {
    if roles == [] then []
    else
      var x := roles[|roles| - 1];
      var t := Trim(x.role);
      CollectRoles(roles[..|roles| - 1]) + (if t != [] then [WeeklyPlan.RoleGoals(t, TrimmedValues(x.goals))] else [])
  }

  /** The action rows kept: titles trimmed, rows without a title dropped, the checkbox kept. */
  function CollectActions(actions: seq<WeeklyPlan.ActionItem>): (r: seq<WeeklyPlan.ActionItem>)
    ensures |r| <= |actions|
    ensures forall i :: 0 <= i < |r| ==> r[i].title != [] && Trimmed(r[i].title)
  {
    if actions == [] then []
    else
      var x := actions[|actions| - 1];
      var t := Trim(x.title);
      CollectActions(actions[..|actions| - 1]) + (if t != [] then [WeeklyPlan.ActionItem(t, x.done)] else [])
  }

  /**
   * What the screen holds when it is saved: the raw text of each input, the
   * routine rows with their day checkboxes, the role sections with their
   * goal inputs, the action rows with their checkbox, and the date shown
   * above each day.
   */
  datatype Form = Form(
    weekLabel: String,
    monthTheme: String,
    routines: seq<Routines.Routine>,
    roles: seq<WeeklyPlan.RoleGoals>,
    actions: seq<WeeklyPlan.ActionItem>,
    good: seq<String>,
    issues: seq<String>,
    dateLabels: map<String, String>)

  /** buildEmptyPlan: no entries, the seven empty memo lists and the seven empty slots. */
  function BuildEmptyPlan(): (p: WeeklyPlan.Plan)
    ensures p.weekLabel == [] && p.monthTheme == [] && p.routines == [] && p.roles == [] && p.actions == []
    ensures p.good == [] && p.issues == [] && |p.slots| == 7 && p.reviewNotes.None?
    ensures forall d :: d in p.memos <==> d in WeeklyPlan.Days
    ensures forall d :: d in p.memos ==> p.memos[d] == []
  {
    WeeklyPlan.EmptyMemosDays();
    WeeklyPlan.Plan("weekly", [], [], [], [], [], [], [], [], [], [], WeeklyPlan.EmptyMemos, WeeklyPlan.EmptySlots, None)
  }

  /** The plan a save starts from: a copy of the loaded plan, or the empty plan, with slots for the seven days if it has none. */
  function Base(loaded: Option<WeeklyPlan.Plan>): (p: WeeklyPlan.Plan)
    ensures p.slots != []
    ensures loaded.Some? ==> p == loaded.value.(slots := p.slots)
    ensures loaded.Some? && loaded.value.slots != [] ==> p == loaded.value
  {
    var p := if loaded.Some? then loaded.value else BuildEmptyPlan();
    if p.slots == [] then p.(slots := WeeklyPlan.EmptySlots) else p
  }

  /** The text shown above a day: empty when the day has no date label. */
  function LabelOf(labels: map<String, String>, day: String): String
  {
    if day in labels then labels[day] else []
  }

  /** Slot `i` is the first slot for its day. */
  predicate FirstOfDay(slots: seq<WeeklyPlan.Slot>, i: nat)
    requires i < |slots|
  {
    forall j :: 0 <= j < i ==> slots[j].day != slots[i].day
  }

  /** The slots after labelling each of `days`: the first slot of each of those days gets its date label. */
  function LabelledFor(slots: seq<WeeklyPlan.Slot>, days: seq<String>, labels: map<String, String>): (r: seq<WeeklyPlan.Slot>)
    ensures |r| == |slots|
    ensures forall i :: 0 <= i < |r| ==> r[i].day == slots[i].day && r[i].entries == slots[i].entries
  {
    seq(|slots|, i requires 0 <= i < |slots| =>
      if slots[i].day in days && FirstOfDay(slots, i) then slots[i].(dateLabel := Some(LabelOf(labels, slots[i].day)))
      else slots[i])
  }

  /** Labelling twice with the same labels is labelling once. */
  lemma LabelledTwice(slots: seq<WeeklyPlan.Slot>, days: seq<String>, labels: map<String, String>)
    ensures LabelledFor(LabelledFor(slots, days, labels), days, labels) == LabelledFor(slots, days, labels)
  {
    var once := LabelledFor(slots, days, labels);
    forall i | 0 <= i < |slots| ensures FirstOfDay(once, i) == FirstOfDay(slots, i) {
    }
  }

  /** `plan.slots.find((entry) => entry.day === day)`. */
  method FindSlot(slots: seq<WeeklyPlan.Slot>, day: String) returns (i: Option<nat>)
    ensures i.Some? ==> i.value < |slots| && slots[i.value].day == day && FirstOfDay(slots, i.value)
    ensures i.None? ==> forall j :: 0 <= j < |slots| ==> slots[j].day != day
  {
    var k := 0;
    while k < |slots|
      invariant 0 <= k <= |slots|
      invariant forall j :: 0 <= j < k ==> slots[j].day != day
    {
      if slots[k].day == day {
        return Some(k);
      }
      k := k + 1;
    }
    return None;
  }

  /** Labelling the next day, from the slot `find` returns for it. */
  lemma LabelNextDay(slots: seq<WeeklyPlan.Slot>, cur: seq<WeeklyPlan.Slot>, k: nat, labels: map<String, String>, found: Option<nat>)
    requires k < 7 && cur == LabelledFor(slots, WeeklyPlan.Days[..k], labels)
    requires found.Some? ==> found.value < |cur| && cur[found.value].day == WeeklyPlan.Days[k] && FirstOfDay(cur, found.value)
    requires found.None? ==> forall j :: 0 <= j < |cur| ==> cur[j].day != WeeklyPlan.Days[k]
    ensures found.Some? ==>
              cur[found.value := cur[found.value].(dateLabel := Some(LabelOf(labels, WeeklyPlan.Days[k])))]
              == LabelledFor(slots, WeeklyPlan.Days[..k + 1], labels)
    ensures found.None? ==> cur == LabelledFor(slots, WeeklyPlan.Days[..k + 1], labels)
  {
    var d := WeeklyPlan.Days[k];
    var before := WeeklyPlan.Days[..k];
    var upto := WeeklyPlan.Days[..k + 1];
    assert d !in before by {
      WeeklyPlan.DaysDistinct();
    }
    assert forall x :: x in upto <==> x in before || x == d by {
      assert upto == before + [d];
    }
    var next := LabelledFor(slots, upto, labels);
    forall j | 0 <= j < |slots| ensures FirstOfDay(cur, j) == FirstOfDay(slots, j) {
    }
    if found.Some? {
      var i := found.value;
      var after := cur[i := cur[i].(dateLabel := Some(LabelOf(labels, d)))];
      forall j | 0 <= j < |slots| ensures after[j] == next[j] {
      }
    } else {
      forall j | 0 <= j < |slots| ensures cur[j] == next[j] {
        assert cur[j].day != d;
      }
    }
  }

  /** The loop of savePlan that gives each day's first slot its date label. */
  method LabelSlots(unlabelled: seq<WeeklyPlan.Slot>, labels: map<String, String>) returns (slots: seq<WeeklyPlan.Slot>)
    ensures slots == LabelledFor(unlabelled, WeeklyPlan.Days, labels)
  {
    slots := unlabelled;
    for k := 0 to 7
      invariant slots == LabelledFor(unlabelled, WeeklyPlan.Days[..k], labels)
    {
      var day := WeeklyPlan.Days[k];
      var found := FindSlot(slots, day);
      LabelNextDay(unlabelled, slots, k, labels, found);
      if found.Some? {
        var i := found.value;
        slots := slots[i := slots[i].(dateLabel := Some(LabelOf(labels, day)))];
      }
    }
    assert WeeklyPlan.Days[..7] == WeeklyPlan.Days;
  }

  /** What a save collects: the inputs trimmed, empty entries dropped, the weekly goals cleared and each day's first slot labelled. */
  function Collected(base: WeeklyPlan.Plan, form: Form): WeeklyPlan.Plan
  {
    base.(weeklyGoals := [], weekLabel := Trim(form.weekLabel), monthTheme := Trim(form.monthTheme),
          routines := CollectRoutines(form.routines), roles := CollectRoles(form.roles),
          actions := CollectActions(form.actions), good := TrimmedValues(form.good),
          issues := TrimmedValues(form.issues), slots := LabelledFor(base.slots, WeeklyPlan.Days, form.dateLabels))
  }

  /**
   * The screen's state between saves: the text last written (or read) for
   * the shown week, and the plan it was read as or saved from.
   */
  class WeeklyPlanEditor {
    var lastSavedContent: String
    var loadedPlan: Option<WeeklyPlan.Plan>
    const tags: seq<String>

    constructor(tags: seq<String>)
      ensures this.tags == tags && lastSavedContent == [] && loadedPlan == None
    {
      this.tags := tags;
      lastSavedContent := [];
      loadedPlan := None;
    }

    /**
     * savePlan: the plan collected from the screen is written when its text
     * differs from the text last saved, and then becomes the loaded plan;
     * otherwise nothing is written, but the loaded plan's slots, which the
     * copy shares, still receive the date labels.
     */
    method SavePlan(form: Form) returns (written: Option<String>)
      modifies this
      ensures var plan := Collected(Base(old(loadedPlan)), form);
              var text := WeeklyPlan.Serialize(plan, tags);
              (written.None? <==> text == old(lastSavedContent))
              && (written.Some? ==> written.value == text && lastSavedContent == text && loadedPlan == Some(plan))
              && (written.None? ==>
                    lastSavedContent == old(lastSavedContent)
                    && loadedPlan == (if old(loadedPlan).Some? && old(loadedPlan).value.slots != []
                                      then Some(old(loadedPlan).value.(slots := plan.slots)) else old(loadedPlan)))
    {
      var plan := Base(loadedPlan);
      plan := plan.(weeklyGoals := [], weekLabel := Trim(form.weekLabel), monthTheme := Trim(form.monthTheme));
      plan := plan.(routines := CollectRoutines(form.routines), roles := CollectRoles(form.roles),
                    actions := CollectActions(form.actions));
      plan := plan.(good := TrimmedValues(form.good), issues := TrimmedValues(form.issues));
      var slots := LabelSlots(plan.slots, form.dateLabels);
      plan := plan.(slots := slots);
      assert plan == Collected(Base(old(loadedPlan)), form);
      var serialized := WeeklyPlan.Serialize(plan, tags);
      if serialized == lastSavedContent {
        if loadedPlan.Some? && loadedPlan.value.slots != [] {
          loadedPlan := Some(loadedPlan.value.(slots := slots));
        }
        return None;
      }
      lastSavedContent := serialized;
      loadedPlan := Some(plan);
      written := Some(serialized);
    }
  }

  /** Saving the same screen again after a save that wrote collects the same plan, so it writes nothing. */
  lemma SaveAgainWritesNothing(loaded: Option<WeeklyPlan.Plan>, form: Form)
    ensures var plan := Collected(Base(loaded), form);
            Collected(Base(Some(plan)), form) == plan
  {
    var base := Base(loaded);
    var plan := Collected(base, form);
    assert Base(Some(plan)) == plan;
    LabelledTwice(base.slots, WeeklyPlan.Days, form.dateLabels);
  }

  /** Inputs as a text input holds them: one line each; routine titles also free of `|` and of the table's own header words. */
  predicate Typed(form: Form)
  {
    SingleLine(form.weekLabel) && SingleLine(form.monthTheme)
    && (forall i :: 0 <= i < |form.routines| ==>
          var t := form.routines[i].title;
          SingleLine(t) && '|' !in t && Trim(t) != "行動" && Trim(t) != "---")
    && (forall i :: 0 <= i < |form.roles| ==>
          SingleLine(form.roles[i].role) && forall j :: 0 <= j < |form.roles[i].goals| ==> SingleLine(form.roles[i].goals[j]))
    && (forall i :: 0 <= i < |form.actions| ==> SingleLine(form.actions[i].title))
    && (forall i :: 0 <= i < |form.good| ==> SingleLine(form.good[i]))
    && (forall i :: 0 <= i < |form.issues| ==> SingleLine(form.issues[i]))
  }

  lemma {:induction false} CollectRoutinesPlain(rows: seq<Routines.Routine>)
    requires forall i :: 0 <= i < |rows| ==>
               var t := rows[i].title;
               SingleLine(t) && '|' !in t && Trim(t) != "行動" && Trim(t) != "---"
    ensures forall i :: 0 <= i < |CollectRoutines(rows)| ==> Routines.PlainTitle(CollectRoutines(rows)[i].title)
  {
    if rows != [] {
      var n := |rows| - 1;
      CollectRoutinesPlain(rows[..n]);
      var t := rows[n].title;
      TrimSingleLine(t);
      SingleLineNoBreak(Trim(t));
      TrimChars(t);
    }
  }

  lemma {:induction false} CollectRolesPlain(roles: seq<WeeklyPlan.RoleGoals>)
    requires forall i :: 0 <= i < |roles| ==>
               SingleLine(roles[i].role) && forall j :: 0 <= j < |roles[i].goals| ==> SingleLine(roles[i].goals[j])
    ensures forall i :: 0 <= i < |CollectRoles(roles)| ==>
              WeeklyPlan.PlainText(CollectRoles(roles)[i].role) && WeeklyPlan.AllPlain(CollectRoles(roles)[i].goals)
  {
    if roles != [] {
      var n := |roles| - 1;
      CollectRolesPlain(roles[..n]);
      TrimSingleLine(roles[n].role);
      TrimmedValuesPlain(roles[n].goals);
    }
  }

  lemma {:induction false} CollectActionsPlain(actions: seq<WeeklyPlan.ActionItem>)
    requires forall i :: 0 <= i < |actions| ==> SingleLine(actions[i].title)
    ensures forall i :: 0 <= i < |CollectActions(actions)| ==> WeeklyPlan.PlainText(CollectActions(actions)[i].title)
  {
    if actions != [] {
      var n := |actions| - 1;
      CollectActionsPlain(actions[..n]);
      TrimSingleLine(actions[n].title);
    }
  }

  /**
   * Reopening the week after a save reads back the plan collected from the
   * screen: its label, theme, routines, roles, actions and reflection as
   * saved, and the memos of the plan it started from.
   */
  lemma SaveReadsBack(base: WeeklyPlan.Plan, form: Form, tags: seq<String>)
    requires Typed(form) && MarkdownTags.NoBreaks(tags)
    requires forall d :: d in WeeklyPlan.Days ==> WeeklyPlan.AllPlain(WeeklyPlan.MemosOf(base.memos, d))
    ensures var plan := Collected(base, form);
            WeeklyPlan.Parse(WeeklyPlan.Serialize(plan, tags)) == WeeklyPlan.ReadBack(plan)
  {
    var plan := Collected(base, form);
    assert WeeklyPlan.PlainPlan(plan) by {
      TrimSingleLine(form.weekLabel);
      TrimSingleLine(form.monthTheme);
      CollectRoutinesPlain(form.routines);
      CollectRolesPlain(form.roles);
      CollectActionsPlain(form.actions);
      TrimmedValuesPlain(form.good);
      TrimmedValuesPlain(form.issues);
    }
    WeeklyPlan.RoundTrip(plan, tags);
  }
}
