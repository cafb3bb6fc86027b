/**
 * The issue board: the columns it shows, which column each issue is shown
 * in, and what moving, deleting and saving an issue from its dialog do to
 * the list of issues that is then written.
 */
module IssuesView {
  import opened Text
  import Issues

  // ---------------------------------------------------------------------
  // columns

  /** The configured columns, or `Backlog` alone when none is configured. */
  function Columns(setting: seq<String>): (r: seq<String>)
    ensures r != []
    ensures setting != [] ==> r == setting
    ensures setting == [] ==> r == [Issues.DefaultStatus]
  {
    if |setting| > 0 then setting else ["Backlog"]
  }

  /** The column an issue is shown in: its status when that is a column, the first column otherwise. */
  function ColumnOf(columns: seq<String>, status: String): (c: String)
    requires columns != []
    ensures c in columns
    ensures status in columns ==> c == status
    ensures status !in columns ==> c == columns[0]
  {
    if status in columns then status else columns[0]
  }

  /** The issues shown in column `c`, in list order. */
  function InColumn(issues: seq<Issues.Issue>, columns: seq<String>, c: String): (r: seq<Issues.Issue>)
    requires columns != []
    ensures forall k :: 0 <= k < |r| ==> ColumnOf(columns, r[k].status) == c
  {
    if issues == [] then []
    else
      var x := issues[|issues| - 1];
      InColumn(issues[..|issues| - 1], columns, c) + (if ColumnOf(columns, x.status) == c then [x] else [])
  }

  /** Each issue is shown in exactly one column, as often as it is listed. */
  lemma {:induction false} InColumnCounts(issues: seq<Issues.Issue>, columns: seq<String>, c: String, x: Issues.Issue)
    requires columns != []
    ensures multiset(InColumn(issues, columns, c))[x]
            == if ColumnOf(columns, x.status) == c then multiset(issues)[x] else 0
  {
    if issues != [] {
      var n := |issues| - 1;
      InColumnCounts(issues[..n], columns, c, x);
      assert issues == issues[..n] + [issues[n]];
    }
  }

  /** The lists by column, for the issues placed so far: one list per configured column. */
  function ColumnLists(placed: seq<Issues.Issue>, columns: seq<String>): (m: map<String, seq<Issues.Issue>>)
    requires columns != []
    ensures m.Keys == set c | c in columns
  {
    map c | c in columns :: InColumn(placed, columns, c)
  }

  /** Placing one more issue in its column keeps the lists by column. */
  lemma PlaceIssue(columns: seq<String>, issues: seq<Issues.Issue>, i: nat)
    requires columns != [] && i < |issues|
    ensures var m := ColumnLists(issues[..i], columns);
            var c := ColumnOf(columns, issues[i].status);
            c in m && m[c := m[c] + [issues[i]]] == ColumnLists(issues[..i + 1], columns)
  {
    var m := ColumnLists(issues[..i], columns);
    var c := ColumnOf(columns, issues[i].status);
    var all := issues[..i + 1];
    assert all[..|all| - 1] == issues[..i];
    var next := ColumnLists(all, columns);
    forall d | d in columns ensures m[c := m[c] + [issues[i]]][d] == next[d] {
    }
  }

  /** The grouping loop of renderBoard. */
  method GroupIssues(issues: seq<Issues.Issue>, columns: seq<String>) returns (grouped: map<String, seq<Issues.Issue>>)
    requires columns != []
    ensures grouped.Keys == set c | c in columns
    ensures forall c :: c in columns ==> grouped[c] == InColumn(issues, columns, c)
  {
    grouped := map c | c in columns :: [];
    assert grouped == ColumnLists(issues[..0], columns);
    var i := 0;
    while i < |issues|
      invariant 0 <= i <= |issues|
      invariant grouped == ColumnLists(issues[..i], columns)
    {
      PlaceIssue(columns, issues, i);
      grouped := PushIssue(grouped, columns, issues[i]);
      i := i + 1;
    }
    assert issues[..i] == issues;
  }

  /** One pass of the loop: the issue goes to the end of its status's column, or of the first column. */
  method PushIssue(grouped: map<String, seq<Issues.Issue>>, columns: seq<String>, issue: Issues.Issue)
    returns (grouped': map<String, seq<Issues.Issue>>)
    requires columns != [] && columns[0] in grouped && (issue.status in grouped <==> issue.status in columns)
    ensures grouped'.Keys == grouped.Keys
    ensures var c := ColumnOf(columns, issue.status); grouped' == grouped[c := grouped[c] + [issue]]
  {
    var status := if issue.status in grouped then issue.status else columns[0];
    assert status == ColumnOf(columns, issue.status);
    grouped' := grouped[status := grouped[status] + [issue]];
  }

  // ---------------------------------------------------------------------
  // changing the list

  /** moveIssue: the issues with that id take the new status; nothing else changes. */
  function MoveIssue(issues: seq<Issues.Issue>, id: String, status: String): (r: seq<Issues.Issue>)
    ensures |r| == |issues|
    ensures forall k :: 0 <= k < |r| ==> r[k] == issues[k].(status := r[k].status)
    ensures forall k :: 0 <= k < |r| ==> r[k].status == if issues[k].id == id then status else issues[k].status
  {
    seq(|issues|, k requires 0 <= k < |issues| => if issues[k].id == id then issues[k].(status := status) else issues[k])
  }

  /** A moved issue is shown in the column it was dropped on; moving it there again changes nothing. */
  lemma MovedIntoColumn(issues: seq<Issues.Issue>, id: String, column: String, columns: seq<String>)
    requires column in columns
    ensures forall k :: 0 <= k < |issues| && issues[k].id == id ==>
              ColumnOf(columns, MoveIssue(issues, id, column)[k].status) == column
    ensures MoveIssue(MoveIssue(issues, id, column), id, column) == MoveIssue(issues, id, column)
  {
  }

  /** `issues.filter((item) => item.id !== id)`. */
  function Without(issues: seq<Issues.Issue>, id: String): (r: seq<Issues.Issue>)
    ensures |r| <= |issues|
    ensures forall k :: 0 <= k < |r| ==> r[k].id != id
  {
    if issues == [] then []
    else
      var x := issues[|issues| - 1];
      Without(issues[..|issues| - 1], id) + (if x.id != id then [x] else [])
  }

  /** Every issue with another id is kept, as often as it was listed. */
  lemma {:induction false} WithoutCounts(issues: seq<Issues.Issue>, id: String, x: Issues.Issue)
    ensures multiset(Without(issues, id))[x] == if x.id == id then 0 else multiset(issues)[x]
  {
    if issues != [] {
      var n := |issues| - 1;
      var init := issues[..n];
      var last := issues[n];
      var kept := Without(init, id);
      WithoutCounts(init, id, x);
      assert issues == init + [last];
      CountSnoc(init, last, x);
      if last.id != id {
        assert Without(issues, id) == kept + [last];
        CountSnoc(kept, last, x);
      } else {
        assert Without(issues, id) == kept + [];
        assert kept + [] == kept;
      }
    }
  }

  /** Appending one element adds one to its count and nothing to the others'. */
  lemma CountSnoc<T>(a: seq<T>, b: T, x: T)
    ensures multiset(a + [b])[x] == multiset(a)[x] + if b == x then 1 else 0
  {
    assert multiset(a + [b]) == multiset(a) + multiset{b};
  }

  /** The issues kept stay in their order. */
  lemma {:induction false} WithoutInOrder(issues: seq<Issues.Issue>, id: String)
    ensures Subsequence(Without(issues, id), issues)
  {
    if issues != [] {
      var n := |issues| - 1;
      WithoutInOrder(issues[..n], id);
      var r := Without(issues, id);
      if issues[n].id != id {
        assert r[..|r| - 1] == Without(issues[..n], id);
      } else {
        assert r == Without(issues[..n], id);
      }
    }
  }

  /** deleteIssue: every issue with the deleted issue's id removed. */
  function DeleteIssue(issues: seq<Issues.Issue>, issue: Issues.Issue): (r: seq<Issues.Issue>)
    ensures forall k :: 0 <= k < |r| ==> r[k].id != issue.id
  {
    Without(issues, issue.id)
  }

  /** Saving from the dialog: any issue with the same id removed and the saved one appended, new or not. */
  function Upsert(issues: seq<Issues.Issue>, updated: Issues.Issue): (r: seq<Issues.Issue>)
    ensures r != [] && r[|r| - 1] == updated
    ensures forall k :: 0 <= k < |r| - 1 ==> r[k].id != updated.id
  {
    Without(issues, updated.id) + [updated]
  }

  /** After a save the list holds the saved issue once, and every issue with another id as before. */
  lemma UpsertCounts(issues: seq<Issues.Issue>, updated: Issues.Issue, x: Issues.Issue)
    ensures multiset(Upsert(issues, updated))[x]
            == if x == updated then 1 else if x.id == updated.id then 0 else multiset(issues)[x]
  {
    WithoutCounts(issues, updated.id, x);
  }

  // ---------------------------------------------------------------------
  // the dialog

  /** The card the add button opens: `issue-<now>`, no title, in the column it belongs to, no body. */
  function NewIssue(now: int, column: String): (x: Issues.Issue)
    ensures x.title == [] && x.status == column && x.body == []
    ensures x.linkedGoalId.None? && x.tags.None? && x.dueDate.None? && x.priority.None?
  {
    Issues.Issue("issue-" + IntToString(now), [], column, [], None, None, None, None)
  }

  /** What the dialog holds when saved: the raw text of each input and the value of each select. */
  datatype IssueForm = IssueForm(title: String, status: String, goal: String, tags: String, dueDate: String,
                                 priority: String, body: String)

  /** `value || undefined`. */
  function OrUnset(value: String): (r: Option<String>)
    ensures r.Some? <==> value != []
    ensures r.Some? ==> r.value == value
  {
    if value != [] then Some(value) else None
  }

  /**
   * The dialog's save button: nothing when the title trims to nothing;
   * otherwise the issue with the trimmed title, the chosen column or the
   * first column, the chosen goal, due date and priority or none, the
   * comma-separated tags trimmed (none when no tag is left), and the body
   * trimmed. The id is kept.
   */
  function SaveForm(issue: Issues.Issue, columns: seq<String>, form: IssueForm): (r: Option<Issues.Issue>)
    requires columns != []
    ensures r.None? <==> Trim(form.title) == []
    ensures r.Some? ==> r.value.id == issue.id && r.value.title == Trim(form.title) && Trimmed(r.value.body)
    ensures r.Some? ==> r.value.body == Trim(form.body)
    ensures r.Some? ==> r.value.status == if form.status != [] then form.status else columns[0]
    ensures r.Some? ==>
              && r.value.linkedGoalId == OrUnset(form.goal)
              && r.value.dueDate == OrUnset(form.dueDate)
              && r.value.priority == OrUnset(form.priority)
    ensures r.Some? ==>
              r.value.tags == if Issues.TagList(form.tags) != [] then Some(Issues.TagList(form.tags)) else None
    ensures r.Some? && r.value.tags.Some? ==>
              r.value.tags.value != [] && forall k :: 0 <= k < |r.value.tags.value| ==>
                r.value.tags.value[k] != [] && Trimmed(r.value.tags.value[k])
  {
    var title := Trim(form.title);
    if title == [] then None
    else
      var tags := Issues.TagList(form.tags);
      Some(issue.(title := title, status := if form.status != [] then form.status else columns[0],
                  linkedGoalId := OrUnset(form.goal), tags := if |tags| > 0 then Some(tags) else None,
                  dueDate := OrUnset(form.dueDate), priority := OrUnset(form.priority), body := Trim(form.body)))
  }

  /** No optional field the dialog saves is set but empty, so writing the issue keeps every field it sets. */
  lemma SavedFieldsKept(issue: Issues.Issue, columns: seq<String>, form: IssueForm)
    requires columns != [] && Trim(form.title) != []
    ensures var x := SaveForm(issue, columns, form).value;
            Issues.ReadFields(x) == x.(body := [])
  {
  }
}
