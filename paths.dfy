/**
 * Where the planner keeps its documents: `<dir>/LifePlanner - <type>.md`,
 * with the base folder setting trimmed and stripped of slashes, and the weekly
 * plans named after the date their week starts.
 */
module Paths {
  import opened Text

  const TemplatePrefix: String := "LifePlanner"

  /** The planner documents, one per type. */
  datatype PlannerType =
    | Weekly | WeeklyShared | IssuesDoc | Mission | Values | HaveDoBe
    | Promise | Quotes | GoalsDoc | TasksDoc | InboxDoc | ExercisesDoc

  function TypeName(t: PlannerType): (r: String)
    ensures r != [] && '/' !in r && '.' !in r
  {
    match t
    case Weekly => "Weekly"
    case WeeklyShared => "Weekly Shared"
    case IssuesDoc => "Issues"
    case Mission => "Mission"
    case Values => "Values"
    case HaveDoBe => "Have Do Be"
    case Promise => "Promise"
    case Quotes => "Quotes"
    case GoalsDoc => "Goals"
    case TasksDoc => "Tasks"
    case InboxDoc => "Inbox"
    case ExercisesDoc => "Exercises"
  }

  /** The slashes at the start removed: what is left is a suffix after a run of slashes. */
  function StripLeadingSlashes(s: String): (r: String)
    ensures |r| <= |s|
    ensures r == [] || r[0] != '/'
    ensures forall i :: 0 <= i < |s| - |r| ==> s[i] == '/'
  {
    if s != [] && s[0] == '/' then StripLeadingSlashes(s[1..]) else s
  }

  /** What StripLeadingSlashes keeps is a suffix of its input. */
  lemma {:induction false} StripLeadingSuffix(s: String)
    ensures StripLeadingSlashes(s) == s[|s| - |StripLeadingSlashes(s)|..]
    decreases |s|
  {
    if s != [] && s[0] == '/' {
      StripLeadingSuffix(s[1..]);
    }
  }

  /** The slashes at the end removed: what is left is a prefix before a run of slashes. */
  function StripTrailingSlashes(s: String): (r: String)
    ensures |r| <= |s| && r == s[..|r|]
    ensures r == [] || r[|r| - 1] != '/'
    ensures forall i :: |r| <= i < |s| ==> s[i] == '/'
  {
    if s != [] && s[|s| - 1] == '/' then StripTrailingSlashes(s[..|s| - 1]) else s
  }

  /** Every leading and trailing slash removed. */
  function StripSlashes(t: String): (r: String)
    ensures r == [] || (r[0] != '/' && r[|r| - 1] != '/')
  {
    var u := StripLeadingSlashes(t);
    var r := StripTrailingSlashes(u);
    assert r == [] || r[0] != '/' by {
      if r != [] { assert r[0] == u[0]; }
    }
    r
  }

  /** normalizeBaseDir: trimmed, then every leading and trailing slash removed. */
  function NormalizeBaseDir(value: String): (r: String)
    ensures r == [] || (r[0] != '/' && r[|r| - 1] != '/')
  {
    StripSlashes(Trim(value))
  }

  lemma SliceOfSlice(v: String, a: nat, b: nat, c: nat, d: nat)
    requires a <= b <= |v| && c <= d <= b - a
    ensures v[a..b][c..d] == v[a + c..a + d]
  {
    assert forall k :: 0 <= k < d - c ==> v[a..b][c..d][k] == v[a + c + k];
  }

  lemma TrimSlice(v: String) returns (i: nat, j: nat)
    ensures i <= j <= |v| && Trim(v) == v[i..j]
  {
    var t0 := TrimStart(v);
    var t1 := TrimEnd(t0);
    i := |v| - |t0|;
    j := i + |t1|;
    TrimStartSuffix(v);
    forall k | 0 <= k < |t1| ensures t1[k] == v[i + k] {
      assert t1[k] == t0[k];
    }
    assert t1 == v[i..j];
  }

  lemma StripSlice(t: String) returns (i: nat, j: nat)
    ensures i <= j <= |t| && StripSlashes(t) == t[i..j]
  {
    var u := StripLeadingSlashes(t);
    var r := StripTrailingSlashes(u);
    i := |t| - |u|;
    j := i + |r|;
    StripLeadingSuffix(t);
    forall k | 0 <= k < |r| ensures r[k] == t[i + k] {
      assert r[k] == u[k];
    }
    assert r == t[i..j];
  }

  /** The base folder is a piece of the setting, cut out in one piece. */
  lemma NormalizeBaseDirSlice(value: String) returns (i: nat, j: nat)
    ensures i <= j <= |value| && NormalizeBaseDir(value) == value[i..j]
  {
    var a, b := TrimSlice(value);
    var c, d := StripSlice(Trim(value));
    SliceOfSlice(value, a, b, c, d);
    i, j := a + c, a + d;
  }

  /** The path `<dir>/<filename>`, or the file name alone when the folder is empty. */
  function InFolder(dir: String, filename: String): String
  {
    if dir != [] then dir + "/" + filename else filename
  }

  function FileName(t: PlannerType): (r: String)
    ensures '/' !in r
  {
    var r := TemplatePrefix + " - " + TypeName(t) + ".md";
    assert '/' !in TemplatePrefix + " - " && '/' !in ".md";
    r
  }

  /** resolveLifePlannerPath. */
  function ResolvePath(t: PlannerType, baseDir: String): (r: String)
    ensures r != [] && r[0] != '/'
  {
    InFolder(NormalizeBaseDir(baseDir), FileName(t))
  }

  /** formatDate: the year, then the 1-based month and the day each padded to two digits. */
  function FormatDate(year: int, month: nat, day: nat): String
  {
    IntToString(year) + "-" + Pad2(month) + "-" + Pad2(day)
  }

  /** resolveWeeklyPlanPath, for the calendar date the week starts on. */
  function ResolveWeeklyPath(year: int, month: nat, day: nat, baseDir: String): (r: String)
    ensures r != [] && r[0] != '/'
  {
    var f := TemplatePrefix + " - Weekly - " + FormatDate(year, month, day) + ".md";
    assert f[0] == 'L';
    InFolder(NormalizeBaseDir(baseDir), f)
  }

  // ---------------------------------------------------------------------
  // properties

  lemma DigitsNoDash(s: String)
    requires AllDigits(s)
    ensures '-' !in s
  {
    forall i | 0 <= i < |s| ensures s[i] != '-' {
      assert IsDigit(s[i]);
    }
  }

  /** A formatted date splits on `-` into the year and two two-digit fields that read back as month and day. */
  lemma FormatDateFields(year: nat, month: nat, day: nat)
    requires 1 <= month <= 12 && 1 <= day <= 31
    ensures Split(FormatDate(year, month, day), '-') == [NatToString(year), Pad2(month), Pad2(day)]
    ensures |Pad2(month)| == 2 && DigitsValue(Pad2(month)) == month
    ensures |Pad2(day)| == 2 && DigitsValue(Pad2(day)) == day
  {
    var y := NatToString(year);
    DigitsNoDash(y);
    DigitsNoDash(Pad2(month));
    DigitsNoDash(Pad2(day));
    Pad2Value(month);
    Pad2Value(day);
    SplitNoSep(Pad2(day), '-');
    SplitAtSep(Pad2(month), '-', Pad2(day));
    SplitAtSep(y, '-', Pad2(month) + "-" + Pad2(day));
    assert FormatDate(year, month, day) == y + ['-'] + (Pad2(month) + ['-'] + Pad2(day));
  }

  /** A resolved path splits into the folder's own segments followed by the file name. */
  lemma ResolvedSegments(t: PlannerType, baseDir: String)
    ensures var dir := NormalizeBaseDir(baseDir);
      Split(ResolvePath(t, baseDir), '/') == (if dir == [] then [] else Split(dir, '/')) + [FileName(t)]
  {
    var dir := NormalizeBaseDir(baseDir);
    var f := FileName(t);
    SplitNoSep(f, '/');
    if dir != [] {
      SplitAppend(dir, f);
    }
  }

  lemma DigitsNoSlash(s: String)
    requires AllDigits(s)
    ensures '/' !in s
  {
    forall i | 0 <= i < |s| ensures s[i] != '/' {
      assert IsDigit(s[i]);
    }
  }

  /** A formatted date holds no `/`, so it never adds a folder level. */
  lemma FormatDateNoSlash(year: int, month: nat, day: nat)
    ensures '/' !in FormatDate(year, month, day)
  {
    var y := IntToString(year);
    DigitsNoSlash(NatToString(if year < 0 then -year else year));
    assert '/' !in y;
    DigitsNoSlash(Pad2(month));
    DigitsNoSlash(Pad2(day));
    assert FormatDate(year, month, day) == y + "-" + Pad2(month) + "-" + Pad2(day);
  }

  /**
   * A weekly plan's path splits into the folder's own segments followed by
   * `LifePlanner - Weekly - <date>.md`, the date being the week's first day.
   */
  lemma WeeklySegments(year: int, month: nat, day: nat, baseDir: String)
    ensures var dir := NormalizeBaseDir(baseDir);
      Split(ResolveWeeklyPath(year, month, day, baseDir), '/')
      == (if dir == [] then [] else Split(dir, '/')) + [TemplatePrefix + " - Weekly - " + FormatDate(year, month, day) + ".md"]
  {
    var date := FormatDate(year, month, day);
    var lead := TemplatePrefix + " - Weekly - ";
    var f := lead + date + ".md";
    assert '/' !in f by {
      FormatDateNoSlash(year, month, day);
      WeeklyLeadNoSlash();
      NoSlashJoin(lead, date);
      NoSlashJoin(lead + date, ".md");
    }
    assert ResolveWeeklyPath(year, month, day, baseDir) == InFolder(NormalizeBaseDir(baseDir), f);
    FolderSegments(NormalizeBaseDir(baseDir), f);
  }

  lemma WeeklyLeadNoSlash()
    ensures '/' !in TemplatePrefix + " - Weekly - " && '/' !in ".md"
  {
  }

  lemma NoSlashJoin(a: String, b: String)
    requires '/' !in a && '/' !in b
    ensures '/' !in a + b
  {
    assert forall i :: 0 <= i < |a + b| ==> (a + b)[i] == if i < |a| then a[i] else b[i - |a|];
  }

  /** A file in a folder: the folder's segments, then the file name. */
  lemma FolderSegments(dir: String, f: String)
    requires '/' !in f
    ensures Split(InFolder(dir, f), '/') == (if dir == [] then [] else Split(dir, '/')) + [f]
  {
    SplitNoSep(f, '/');
    if dir != [] {
      SplitAppend(dir, f);
    }
  }

  lemma {:induction false} SplitAppend(a: String, f: String)
    requires '/' !in f
    ensures Split(a + "/" + f, '/') == Split(a, '/') + [f]
    decreases |a|
  {
    if a == [] {
      assert a + "/" + f == [] + ['/'] + f;
      SplitAtSep([], '/', f);
      SplitNoSep(f, '/');
    } else {
      SplitAppend(a[1..], f);
      assert (a + "/" + f)[1..] == a[1..] + "/" + f;
    }
  }
}
