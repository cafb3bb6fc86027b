/**
 * Creating a note from a bundled template: the template file is looked up
 * in the plugin's two possible folders, and the copy is named
 * `LifePlanner/<folder>/<label> - <suffix>.md`, the suffix depending on the
 * template's kind and today's date, with ` (2)`, ` (3)`, ... inserted before
 * `.md` when that name is taken. The vault's files are a set of paths.
 */
module TemplateService {
  import opened Text
  import opened Dates
  import Paths

  /** How a template's copies are named. */
  datatype FilenameKind = Weekly | Daily | Monthly | Annual | Quarterly | FiveYear | Dated

  /** A catalogue entry: the label (`name`) and folder of its copies, its file and its kind. */
  datatype TemplateEntry = TemplateEntry(name: String, filename: String, folder: String, kind: FilenameKind)

  // ---------------------------------------------------------------------
  // suffixes

  /** weekStartDate: today moved back to the first day of its week. */
  function WeekStartDate(today: int, ws: WeekStart): int
  {
    var day := Weekday(today);
    var offset := if ws == Sunday then day else (day + 6) % 7;
    today - offset
  }

  /** The template service's week start is the one the weekly plan uses. */
  lemma WeekStartDateAgrees(today: int, ws: WeekStart)
    ensures WeekStartDate(today, ws) == ComputeWeekStart(today, 0, ws)
    ensures Weekday(WeekStartDate(today, ws)) == StartIndex(ws)
    ensures today - 6 <= WeekStartDate(today, ws) <= today
  {
    var s := WeekStartDate(today, ws);
    assert today - 6 <= s <= today;
    assert Weekday(s) == StartIndex(ws) by {
      var day := Weekday(today);
      var offset := today - s;
      assert (today + 4) % 7 == day;
      assert (s + 4) % 7 == ((today + 4) % 7 - offset + 7) % 7;
    }
    WeekStartUnique(today, 0, ws, s);
  }

  /** The quarter month `m` falls in. */
  function Quarter(month: int): (q: int)
    requires 1 <= month <= 12
    ensures 1 <= q <= 4 && 3 * (q - 1) < month <= 3 * q
  {
    (month - 1) / 3 + 1
  }

  /** buildSuffix, for the day `today`. */
  function BuildSuffix(kind: FilenameKind, today: int, ws: WeekStart): String
  {
    var c := CivilOf(today);
    match kind
    case Daily => Paths.FormatDate(c.year, c.month, c.day)
    case Dated => Paths.FormatDate(c.year, c.month, c.day)
    case Monthly => IntToString(c.year) + "-" + Pad2(c.month)
    case Annual => IntToString(c.year)
    case Quarterly => IntToString(c.year) + "-Q" + NatToString(Quarter(c.month))
    case FiveYear => IntToString(c.year) + "-" + IntToString(c.year + 4)
    case Weekly =>
      var s := CivilOf(WeekStartDate(today, ws));
      Paths.FormatDate(s.year, s.month, s.day)
  }

  /** A dated or daily suffix splits on `-` into today's year and two-digit month and day. */
  lemma DatedSuffixFields(kind: FilenameKind, today: int, ws: WeekStart)
    requires kind == Daily || kind == Dated
    requires CivilOf(today).year >= 0
    ensures var c := CivilOf(today);
            Split(BuildSuffix(kind, today, ws), '-') == [NatToString(c.year), Pad2(c.month), Pad2(c.day)]
            && DigitsValue(Pad2(c.month)) == c.month && DigitsValue(Pad2(c.day)) == c.day
  {
    var c := CivilOf(today);
    Paths.FormatDateFields(c.year, c.month, c.day);
  }

  /**
   * A weekly suffix is the date of the first day of today's week, which lies
   * zero to six days back and falls on the start weekday.
   */
  lemma WeeklySuffixFields(today: int, ws: WeekStart)
    requires CivilOf(WeekStartDate(today, ws)).year >= 0
    ensures var start := WeekStartDate(today, ws);
            var s := CivilOf(start);
            today - 6 <= start <= today && Weekday(start) == StartIndex(ws)
            && Split(BuildSuffix(Weekly, today, ws), '-') == [NatToString(s.year), Pad2(s.month), Pad2(s.day)]
  {
    WeekStartDateAgrees(today, ws);
    var s := CivilOf(WeekStartDate(today, ws));
    Paths.FormatDateFields(s.year, s.month, s.day);
  }

  /** A monthly suffix splits on `-` into the year and the two-digit month. */
  lemma MonthlySuffixFields(today: int, ws: WeekStart)
    requires CivilOf(today).year >= 0
    ensures var c := CivilOf(today);
            Split(BuildSuffix(Monthly, today, ws), '-') == [NatToString(c.year), Pad2(c.month)]
            && |Pad2(c.month)| == 2 && DigitsValue(Pad2(c.month)) == c.month
  {
    var c := CivilOf(today);
    var y := NatToString(c.year);
    Paths.DigitsNoDash(y);
    Paths.DigitsNoDash(Pad2(c.month));
    Pad2Value(c.month);
    SplitNoSep(Pad2(c.month), '-');
    SplitAtSep(y, '-', Pad2(c.month));
    assert BuildSuffix(Monthly, today, ws) == y + ['-'] + Pad2(c.month);
  }

  /** A quarterly suffix ends in `-Q` and the one digit of the quarter holding today's month. */
  lemma QuarterlySuffix(today: int, ws: WeekStart)
    ensures var c := CivilOf(today);
            var r := BuildSuffix(Quarterly, today, ws);
            |r| >= 3 && r[|r| - 3..|r| - 1] == "-Q"
            && 1 <= DigitValue(r[|r| - 1]) <= 4
            && 3 * (DigitValue(r[|r| - 1]) - 1) < c.month <= 3 * DigitValue(r[|r| - 1])
  {
    var c := CivilOf(today);
    var q := Quarter(c.month);
    var r := BuildSuffix(Quarterly, today, ws);
    assert NatToString(q) == [DigitChar(q)];
    assert r == IntToString(c.year) + "-Q" + [DigitChar(q)];
  }

  /** The value of a decimal digit character. */
  function DigitValue(c: char): int
  {
    c as int - '0' as int
  }

  /** A five-year suffix splits on `-` into this year and the year four years on. */
  lemma FiveYearSuffixFields(today: int, ws: WeekStart)
    requires CivilOf(today).year >= 0
    ensures var y := CivilOf(today).year;
            Split(BuildSuffix(FiveYear, today, ws), '-') == [NatToString(y), NatToString(y + 4)]
  {
    var y := CivilOf(today).year;
    Paths.DigitsNoDash(NatToString(y));
    Paths.DigitsNoDash(NatToString(y + 4));
    SplitNoSep(NatToString(y + 4), '-');
    SplitAtSep(NatToString(y), '-', NatToString(y + 4));
    assert BuildSuffix(FiveYear, today, ws) == NatToString(y) + ['-'] + NatToString(y + 4);
  }

  // ---------------------------------------------------------------------
  // paths

  /** `<folder>/<label> - <suffix>` under `LifePlanner/`, whatever the storage setting. */
  function TargetBase(entry: TemplateEntry, today: int, ws: WeekStart): (base: String)
    ensures |base| > 12 && base[..12] == "LifePlanner/"
  {
    var base := "LifePlanner/" + entry.folder + "/" + entry.name + " - " + BuildSuffix(entry.kind, today, ws);
    assert base[..12] == "LifePlanner/";
    base
  }

  /** The name a copy is first tried under. */
  function TargetPath(entry: TemplateEntry, today: int, ws: WeekStart): String
  {
    TargetBase(entry, today, ws) + ".md"
  }

  /** `.md` starts at index `i` of `s`. */
  predicate MdAt(s: String, i: nat)
  {
    i + 3 <= |s| && s[i] == '.' && s[i + 1] == 'm' && s[i + 2] == 'd'
  }

  /** `path.split(".md")[0]`: the path up to the first `.md`, or the whole path without one. */
  function BeforeMd(s: String): (r: String)
    ensures |r| <= |s| && r == s[..|r|]
    ensures forall i: nat :: !MdAt(r, i)
    ensures r == s || MdAt(s, |r|)
  {
    if |s| < 3 then s
    else if MdAt(s, 0) then []
    else
      var rest := BeforeMd(s[1..]);
      var r := [s[0]] + rest;
      assert forall i: nat :: !MdAt(r, i) by {
        forall i: nat ensures !MdAt(r, i) {
          if i > 0 {
            assert !MdAt(rest, i - 1);
          }
        }
      }
      r
  }

  /** A name without `.md` in it, with `.md` added, is cut back to that name. */
  lemma {:induction false} BeforeMdOfName(base: String)
    requires forall i: nat :: !MdAt(base, i)
    ensures BeforeMd(base + ".md") == base
  {
    var s := base + ".md";
    if base != [] {
      assert !MdAt(s, 0) by {
        if |base| >= 3 {
          assert !MdAt(base, 0);
        }
      }
      assert forall i: nat :: !MdAt(base[1..], i) by {
        forall i: nat ensures !MdAt(base[1..], i) {
          assert !MdAt(base, i + 1);
        }
      }
      BeforeMdOfName(base[1..]);
      assert s[1..] == base[1..] + ".md";
    }
  }

  /**
   * When the folder, the label and the suffix hold no `.md`, a taken target
   * is numbered as `<base> (k).md`.
   */
  lemma NumberedTarget(entry: TemplateEntry, today: int, ws: WeekStart, k: nat)
    requires forall i: nat :: !MdAt(TargetBase(entry, today, ws), i)
    ensures Numbered(BeforeMd(TargetPath(entry, today, ws)), k) == TargetBase(entry, today, ws) + " (" + NatToString(k) + ").md"
  {
    BeforeMdOfName(TargetBase(entry, today, ws));
  }

  /** The numbered variant ` (k).md` of a path's prefix. */
  function Numbered(prefix: String, k: nat): String
  {
    prefix + " (" + NatToString(k) + ").md"
  }

  /** Different numbers give different paths. */
  lemma NumberedInjective(prefix: String, j: nat, k: nat)
    requires j != k
    ensures Numbered(prefix, j) != Numbered(prefix, k)
  {
    if Numbered(prefix, j) == Numbered(prefix, k) {
      var a := NatToString(j);
      var b := NatToString(k);
      assert |a| == |b|;
      assert a == Numbered(prefix, j)[|prefix| + 2..|prefix| + 2 + |a|];
      assert b == Numbered(prefix, k)[|prefix| + 2..|prefix| + 2 + |b|];
      NatToStringInjective(j, k);
    }
  }

  /**
   * uniquePath: the path itself when no file has it; otherwise the numbered
   * variant with the smallest number from 2 up that no file has.
   */
  method UniquePath(path: String, existing: set<String>) returns (r: String)
    ensures r !in existing
    ensures path !in existing ==> r == path
    ensures path in existing ==>
              exists k: nat :: 2 <= k && r == Numbered(BeforeMd(path), k)
                && forall j: nat :: 2 <= j < k ==> Numbered(BeforeMd(path), j) in existing
  {
    if path !in existing {
      return path;
    }
    var prefix := BeforeMd(path);
    var index: nat := 2;
    ghost var tried: set<String> := {};
    while Numbered(prefix, index) in existing
      invariant 2 <= index
      invariant forall j: nat :: 2 <= j < index ==> Numbered(prefix, j) in existing
      invariant tried == set j: nat | 2 <= j < index :: Numbered(prefix, j)
      invariant tried <= existing
      decreases |existing - tried|
    {
      assert Numbered(prefix, index) !in tried by {
        forall j: nat | 2 <= j < index ensures Numbered(prefix, j) != Numbered(prefix, index) {
          NumberedInjective(prefix, j, index);
        }
      }
      assert existing - (tried + {Numbered(prefix, index)}) < existing - tried;
      tried := tried + {Numbered(prefix, index)};
      index := index + 1;
    }
    r := Numbered(prefix, index);
  }

  // ---------------------------------------------------------------------
  // creating a copy

  /** The two folders a bundled template can be installed in, the desktop one first. */
  function TemplatePaths(vaultPath: String, filename: String): (String, String)
  {
    (vaultPath + "/.obsidian.desktop/plugins/lifeplanner/templates/" + filename,
     vaultPath + "/.obsidian/plugins/lifeplanner/templates/" + filename)
  }

  /** resolveTemplatePath: the first of the two places that has the file; none means `Template not found`. */
  function ResolveTemplatePath(vaultPath: String, filename: String, existing: set<String>): (r: Option<String>)
    ensures r.Some? ==> r.value in existing
    ensures r.None? <==> TemplatePaths(vaultPath, filename).0 !in existing && TemplatePaths(vaultPath, filename).1 !in existing
    ensures TemplatePaths(vaultPath, filename).0 in existing ==> r == Some(TemplatePaths(vaultPath, filename).0)
  {
    var (desktop, standard) := TemplatePaths(vaultPath, filename);
    if desktop in existing then Some(desktop)
    else if standard in existing then Some(standard)
    else None
  }

  /**
   * createFromTemplate: the path the copy is written to, never one a file
   * already has, and the target name itself when it is free; none when the
   * template file is in neither folder.
   */
  method CreateFromTemplate(entry: TemplateEntry, vaultPath: String, existing: set<String>, today: int, ws: WeekStart)
    returns (r: Option<String>)
    ensures r.None? <==> ResolveTemplatePath(vaultPath, entry.filename, existing).None?
    ensures r.Some? ==> r.value !in existing
    ensures r.Some? && TargetPath(entry, today, ws) !in existing ==> r.value == TargetPath(entry, today, ws)
  {
    var template := ResolveTemplatePath(vaultPath, entry.filename, existing);
    if template.None? {
      return None;
    }
    var path := UniquePath(TargetPath(entry, today, ws), existing);
    r := Some(path);
  }
}
