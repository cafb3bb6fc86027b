/**
 * Sending an inbox item on: to the current week's action items, or to the
 * issue board as a new `Backlog` issue. (Sending it to the goals or to the
 * tasks is `GoalsService.AddGoal` and `Tasks.AddTask`.)
 */
module InboxTriage {
  import opened Text
  import opened Dates
  import MarkdownTags
  import WeeklyPlan
  import Issues
  import Paths

  // ---------------------------------------------------------------------
  // to the week

  /** emptyPlan: the plan of a week with no document yet. */
  function EmptyPlan(): (p: WeeklyPlan.Plan)
    ensures p.id == "weekly" && p.weekStart == [] && p.weekEnd == [] && p.weekLabel == [] && p.monthTheme == []
    ensures p.weeklyGoals == [] && p.routines == [] && p.roles == [] && p.actions == [] && p.good == [] && p.issues == []
    ensures |p.slots| == 7 && p.memos.Keys == set d | d in WeeklyPlan.Days
    ensures forall d :: d in p.memos ==> p.memos[d] == []
  {
    WeeklyPlan.EmptyMemosDays();
    WeeklyPlan.Plan("weekly", [], [], [], [], [], [], [], [], [], [], WeeklyPlan.EmptyMemos,
      WeeklyPlan.EmptySlots, Some([]))
  }

  /** The plan `toWeekly` adds to: the stored week's plan, or the empty plan for a missing or empty document. */
  function CurrentPlan(content: String): WeeklyPlan.Plan
  {
    if content != [] then WeeklyPlan.Parse(content) else EmptyPlan()
  }

  /** The plan with the item appended to its action items, not done. */
  function WithAction(p: WeeklyPlan.Plan, item: String): (r: WeeklyPlan.Plan)
    ensures r.actions == p.actions + [WeeklyPlan.ActionItem(item, false)]
    ensures r == p.(actions := r.actions)
  {
    p.(actions := p.actions + [WeeklyPlan.ActionItem(item, false)])
  }

  /** toWeekly: the document written back for the week. */
  function ToWeekly(content: String, item: String, tags: seq<String>): String
  {
    WeeklyPlan.Serialize(WithAction(CurrentPlan(content), item), tags)
  }

  /** The document `toWeekly` reads and writes: the plan of the week holding `today`. */
  function WeeklyTarget(today: int, ws: WeekStart, baseDir: String): (path: String)
    ensures path != [] && path[0] != '/'
  {
    var c := CivilOf(ComputeWeekStart(today, 0, ws));
    Paths.ResolveWeeklyPath(c.year, c.month, c.day, baseDir)
  }

  /**
   * Reading back the week after `toWeekly` gives what the week read back as
   * before, with the item as one more action item at the end, not done.
   */
  lemma ToWeeklyReadsBack(content: String, item: String, tags: seq<String>)
    requires WeeklyPlan.PlainPlan(CurrentPlan(content)) && WeeklyPlan.PlainText(item)
    requires MarkdownTags.NoBreaks(tags)
    ensures var before := WeeklyPlan.ReadBack(CurrentPlan(content));
            WeeklyPlan.Parse(ToWeekly(content, item, tags))
            == before.(actions := before.actions + [WeeklyPlan.ActionItem(item, false)])
  {
    var p := CurrentPlan(content);
    var q := WithAction(p, item);
    assert WeeklyPlan.PlainPlan(q) by {
      assert forall i :: 0 <= i < |q.actions| ==> WeeklyPlan.PlainText(q.actions[i].title) by {
        forall i | 0 <= i < |q.actions| ensures WeeklyPlan.PlainText(q.actions[i].title) {
          if i < |p.actions| {
            assert q.actions[i] == p.actions[i];
          }
        }
      }
    }
    WeeklyPlan.RoundTrip(q, tags);
  }

  /** The empty plan is plain, so a new week's first item reads back as its only action item. */
  lemma EmptyPlanPlain()
    ensures WeeklyPlan.PlainPlan(EmptyPlan())
  {
    var p := EmptyPlan();
    forall d | d in WeeklyPlan.Days ensures WeeklyPlan.AllPlain(WeeklyPlan.MemosOf(p.memos, d)) {
      assert d in p.memos;
    }
  }

  // ---------------------------------------------------------------------
  // to the issue board

  /** The id `toIssue` gives: `issue-<now>-<r>` for the clock reading `now` and the random draw `r`. */
  function TriageIssueId(now: int, r: nat): (id: String)
    ensures |id| > 6 && id[..6] == "issue-"
  {
    "issue-" + IntToString(now) + "-" + NatToString(r)
  }

  /** The issue `toIssue` adds: titled with the item, status `Backlog`, empty body, no other field. */
  function TriageIssue(item: String, now: int, r: nat): (x: Issues.Issue)
    ensures x.id == TriageIssueId(now, r) && x.title == item && x.status == "Backlog" && x.body == []
    ensures x.linkedGoalId.None? && x.tags.None? && x.dueDate.None? && x.priority.None?
  {
    Issues.Issue(TriageIssueId(now, r), item, Issues.DefaultStatus, [], None, None, None, None)
  }

  /** toIssue: the listed issues with the new one appended. */
  function ToIssue(listed: seq<Issues.Issue>, item: String, now: int, r: nat): (xs: seq<Issues.Issue>)
    ensures |xs| == |listed| + 1 && xs[..|listed|] == listed
    ensures xs[|listed|].title == item && xs[|listed|].status == "Backlog" && xs[|listed|].body == []
  {
    listed + [TriageIssue(item, now, r)]
  }

  /** The new issue is written and read back as it is: its id and title are one trimmed line. */
  lemma TriageIssuePlain(item: String, now: int, r: nat)
    requires item != [] && Trimmed(item) && SingleLine(item)
    ensures Issues.PlainIssue(TriageIssue(item, now, r))
  {
    var x := TriageIssue(item, now, r);
    var id := TriageIssueId(now, r);
    assert Issues.FieldText(id) by {
      assert Trimmed(id) by {
        assert id[0] == 'i' && id[|id| - 1] == NatToString(r)[|NatToString(r)| - 1];
        assert IsDigit(id[|id| - 1]);
      }
      assert '\n' !in id by {
        IntToStringPlain(now);
        SingleLineNoBreak(IntToString(now));
        assert forall i :: 0 <= i < |NatToString(r)| ==> IsDigit(NatToString(r)[i]);
      }
    }
    assert x.status != [] && Trimmed(x.status) && SingleLine(x.status) by {
      BacklogPlain();
    }
    PlainBare(x);
  }

  /** An issue with no body and no optional field is plain once its title, status and id are. */
  lemma PlainBare(x: Issues.Issue)
    requires x.body == [] && x.linkedGoalId.None? && x.tags.None? && x.dueDate.None? && x.priority.None?
    requires x.title != [] && Trimmed(x.title) && SingleLine(x.title)
    requires x.status != [] && Trimmed(x.status) && SingleLine(x.status) && x.id != [] && Issues.FieldText(x.id)
    ensures Issues.PlainIssue(x)
  {
  }

  lemma BacklogPlain()
    ensures Issues.DefaultStatus != [] && Trimmed(Issues.DefaultStatus) && SingleLine(Issues.DefaultStatus)
  {
  }

  /**
   * After `toIssue`, listing the board again gives the issues that were
   * listed and the new one, regrouped by status as they are written; the
   * new issue's empty body reads back as `-`.
   */
  lemma ToIssueReadsBack(listed: seq<Issues.Issue>, item: String, now: int, r: nat, tags: seq<String>, later: int)
    requires forall k :: 0 <= k < |listed| ==> Issues.PlainIssue(listed[k])
    requires item != [] && Trimmed(item) && SingleLine(item)
    requires MarkdownTags.NoBreaks(tags)
    ensures var xs := ToIssue(listed, item, now, r);
            Issues.ParseIssues(Issues.Serialize(xs, tags), later) == Issues.ReadBackAll(Issues.Regroup(xs))
    ensures Issues.ReadBack(TriageIssue(item, now, r)).body == "-"
  {
    var x := TriageIssue(item, now, r);
    var xs := ToIssue(listed, item, now, r);
    assert Issues.PlainIssue(x) by {
      TriageIssuePlain(item, now, r);
    }
    assert forall k :: 0 <= k < |xs| ==> Issues.PlainIssue(xs[k]) by {
      forall k | 0 <= k < |xs| ensures Issues.PlainIssue(xs[k]) {
        if k < |listed| {
          assert xs[k] == listed[k];
        }
      }
    }
    Issues.RoundTrip(xs, tags, later);
  }
}
