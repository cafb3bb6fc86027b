/**
 * Text helpers that follow the JavaScript built-ins the plugin relies on:
 * String.prototype.trim, split and join with a one-character separator,
 * startsWith, the handful of line patterns the Markdown readers match,
 * decimal formatting of integers and the subset of parseInt / Number used.
 */
module Text {

  type String = seq<char>

  datatype Option<T> = None | Some(value: T)

  /** The white space of JavaScript's `\s` class and of String.prototype.trim. */
  predicate IsSpace(c: char)
  {
    c == '\t' || c == '\n' || c == '\U{000B}' || c == '\U{000C}' || c == '\r' || c == ' '
    || c == '\U{00A0}' || c == '\U{1680}' || ('\U{2000}' <= c <= '\U{200A}')
    || c == '\U{2028}' || c == '\U{2029}' || c == '\U{202F}' || c == '\U{205F}'
    || c == '\U{3000}' || c == '\U{FEFF}'
  }

  /** The characters a regular-expression `.` does not match. */
  predicate IsLineTerminator(c: char)
  {
    c == '\n' || c == '\r' || c == '\U{2028}' || c == '\U{2029}'
  }

  predicate AllSpace(s: String)
  {
    forall i :: 0 <= i < |s| ==> IsSpace(s[i])
  }

  /** A string every character of which a regular-expression `.` matches. */
  predicate SingleLine(s: String)
  {
    forall i :: 0 <= i < |s| ==> !IsLineTerminator(s[i])
  }

  lemma SingleLineNoBreak(s: String)
    requires SingleLine(s)
    ensures '\n' !in s
  {
  }

  lemma SingleLineConcat(a: String, b: String)
    requires SingleLine(a) && SingleLine(b)
    ensures SingleLine(a + b)
  {
    forall i | 0 <= i < |a + b| ensures !IsLineTerminator((a + b)[i]) {
      if i >= |a| {
        assert (a + b)[i] == b[i - |a|];
      }
    }
  }

  predicate Trimmed(s: String)
  {
    s == [] || (!IsSpace(s[0]) && !IsSpace(s[|s| - 1]))
  }

  predicate StartsWith(s: String, prefix: String)
  {
    |prefix| <= |s| && s[..|prefix|] == prefix
  }

  function TrimStart(s: String): (r: String)
    ensures |r| <= |s|
    ensures r == [] || !IsSpace(r[0])
    decreases |s|
  {
    if s != [] && IsSpace(s[0]) then TrimStart(s[1..]) else s
  }

  /** What TrimStart keeps is a suffix of its input. */
  lemma {:induction false} TrimStartSuffix(s: String)
    ensures TrimStart(s) == s[|s| - |TrimStart(s)|..]
    decreases |s|
  {
    if s != [] && IsSpace(s[0]) {
      TrimStartSuffix(s[1..]);
    }
  }

  function TrimEnd(s: String): (r: String)
    ensures |r| <= |s| && r == s[..|r|]
    ensures r == [] || !IsSpace(r[|r| - 1])
    decreases |s|
  {
    if s != [] && IsSpace(s[|s| - 1]) then TrimEnd(s[..|s| - 1]) else s
  }

  /** String.prototype.trim: leading and trailing white space removed. */
  function Trim(s: String): (r: String)
    ensures Trimmed(r) && |r| <= |s|
  {
    var t := TrimStart(s);
    var r := TrimEnd(t);
    assert r == [] || !IsSpace(r[0]) by {
      if r != [] { assert r[0] == t[0]; }
    }
    r
  }

  /** Trimming only removes characters. */
  lemma TrimChars(s: String)
    ensures forall c :: c in Trim(s) ==> c in s
  {
    var t := TrimStart(s);
    var r := TrimEnd(t);
    TrimStartSuffix(s);
    forall c | c in r ensures c in s {
      var k :| 0 <= k < |r| && r[k] == c;
      assert t[k] == c;
      assert s[|s| - |t| + k] == c;
    }
  }

  /** Trimming a one-line string leaves one line. */
  lemma TrimSingleLine(s: String)
    requires SingleLine(s)
    ensures SingleLine(Trim(s))
  {
    TrimChars(s);
    var r := Trim(s);
    forall i | 0 <= i < |r| ensures !IsLineTerminator(r[i]) {
      assert r[i] in r;
      var j :| 0 <= j < |s| && s[j] == r[i];
    }
  }

  /** The first character that is not white space, if any. */
  function FirstVisible(s: String): Option<char>
  {
    if s == [] then None else if IsSpace(s[0]) then FirstVisible(s[1..]) else Some(s[0])
  }

  lemma {:induction false} TrimEndKeepsFirst(t: String)
    requires t != [] && !IsSpace(t[0])
    ensures TrimEnd(t) != [] && TrimEnd(t)[0] == t[0]
    decreases |t|
  {
    if IsSpace(t[|t| - 1]) {
      TrimEndKeepsFirst(t[..|t| - 1]);
    }
  }

  lemma {:induction false} FirstVisibleStart(s: String)
    ensures FirstVisible(s) == if TrimStart(s) == [] then None else Some(TrimStart(s)[0])
    decreases |s|
  {
    if s != [] && IsSpace(s[0]) {
      FirstVisibleStart(s[1..]);
    }
  }

  /** The first visible character is the first character of the trimmed text. */
  lemma FirstVisibleTrim(s: String)
    ensures FirstVisible(s) == if Trim(s) == [] then None else Some(Trim(s)[0])
  {
    FirstVisibleStart(s);
    var t := TrimStart(s);
    if t != [] {
      TrimEndKeepsFirst(t);
    }
  }

  lemma {:induction false} FirstVisibleSkips(w: String, x: String)
    requires AllSpace(w)
    ensures FirstVisible(w + x) == FirstVisible(x)
    decreases |w|
  {
    if w != [] {
      assert (w + x)[0] == w[0] && (w + x)[1..] == w[1..] + x;
      FirstVisibleSkips(w[1..], x);
    } else {
      assert w + x == x;
    }
  }

  lemma TrimStartOfNonSpace(s: String)
    requires s == [] || !IsSpace(s[0])
    ensures TrimStart(s) == s
  {
  }

  lemma TrimEndOfNonSpace(s: String)
    requires s == [] || !IsSpace(s[|s| - 1])
    ensures TrimEnd(s) == s
  {
  }

  lemma TrimOfTrimmed(s: String)
    requires Trimmed(s)
    ensures Trim(s) == s
  {
    TrimStartOfNonSpace(s);
    TrimEndOfNonSpace(s);
  }

  lemma {:induction false} TrimStartSkips(w: String, s: String)
    requires AllSpace(w)
    ensures TrimStart(w + s) == TrimStart(s)
    decreases |w|
  {
    if w != [] {
      assert (w + s)[0] == w[0] && IsSpace(w[0]);
      assert (w + s)[1..] == w[1..] + s;
      TrimStartSkips(w[1..], s);
    } else {
      assert w + s == s;
    }
  }

  lemma {:induction false} TrimEndSkips(s: String, w: String)
    requires AllSpace(w)
    ensures TrimEnd(s + w) == TrimEnd(s)
    decreases |w|
  {
    if w != [] {
      assert (s + w)[|s + w| - 1] == w[|w| - 1] && IsSpace(w[|w| - 1]);
      assert (s + w)[..|s + w| - 1] == s + w[..|w| - 1];
      TrimEndSkips(s, w[..|w| - 1]);
    } else {
      assert s + w == s;
    }
  }

  /** Trimming ignores white space added around an already trimmed string. */
  lemma TrimPadded(a: String, s: String, b: String)
    requires AllSpace(a) && AllSpace(b) && Trimmed(s)
    ensures Trim(a + s + b) == s
  {
    assert a + s + b == a + (s + b);
    TrimStartSkips(a, s + b);
    if s == [] {
      assert s + b == b + [] == b;
      TrimStartSkips(b, []);
    } else {
      TrimStartOfNonSpace(s + b);
      TrimEndSkips(s, b);
      TrimEndOfNonSpace(s);
    }
  }

  lemma {:induction false} TrimEndKeeps(s: String, i: nat)
    requires i < |s| && !IsSpace(s[i])
    ensures |TrimEnd(s)| > i
    decreases |s|
  {
    if IsSpace(s[|s| - 1]) {
      TrimEndKeeps(s[..|s| - 1], i);
    }
  }

  /** Trimming keeps the first character that is not white space. */
  lemma TrimKeepsFirst(w: String, x: String)
    requires AllSpace(w) && x != [] && !IsSpace(x[0])
    ensures Trim(w + x) != [] && Trim(w + x)[0] == x[0]
  {
    TrimStartSkips(w, x);
    TrimStartOfNonSpace(x);
    TrimEndKeeps(x, 0);
  }

  lemma AllSpaceConcat(a: String, b: String)
    requires AllSpace(a) && AllSpace(b)
    ensures AllSpace(a + b)
  {
  }

  /**
   * The JavaScript pattern `\s+(.+)$` (needSpace) or `\s*(.+)$` matched at the
   * start of `t`, giving the captured group. The white space is greedy, so the
   * group starts at the first non-space character; when `t` is all white space
   * the engine backs off one character and the group is the last character.
   */
  function SpacedRest(t: String, needSpace: bool): (r: Option<String>)
    ensures r.Some? ==> r.value != [] && SingleLine(r.value) && |r.value| <= |t|
  {
    var rest := TrimStart(t);
    var p := |t| - |rest|;
    if needSpace && p == 0 then None
    else if p < |t| then (if SingleLine(rest) then Some(rest) else None)
    else if |t| >= (if needSpace then 2 else 1) && !IsLineTerminator(t[|t| - 1]) then Some(t[|t| - 1..])
    else None
  }

  /** The group captured by `^##\s+(.+)$` (hashes "##") or `^###\s+(.+)$` (hashes "###"). */
  function HeadingGroup(line: String, hashes: String): (r: Option<String>)
    ensures r.Some? ==> StartsWith(line, hashes) && SingleLine(r.value)
  {
    if StartsWith(line, hashes) then SpacedRest(line[|hashes|..], true) else None
  }

  /** The group captured by `^\-\s*(.+)$`. */
  function BulletGroup(line: String): (r: Option<String>)
    ensures r.Some? ==> StartsWith(line, "-") && SingleLine(r.value)
  {
    if StartsWith(line, "-") then SpacedRest(line[1..], false) else None
  }

  /** A line that does not start with `#` is not a heading. */
  lemma NotHeading(line: String)
    requires line != [] && line[0] != '#'
    ensures HeadingGroup(line, "##") == None && HeadingGroup(line, "###") == None
  {
  }

  /** A value after a prefix and one space reads back trimmed. */
  lemma AfterSpace(v: String)
    requires Trimmed(v)
    ensures Trim(" " + v) == v
  {
    TrimPadded(" ", v, []);
    assert " " + v + [] == " " + v;
  }

  /** Writing a space and a non-blank single-line text after a marker captures exactly that text. */
  lemma SpacedRestOfText(t: String, needSpace: bool)
    requires t != [] && Trimmed(t) && SingleLine(t)
    ensures SpacedRest(" " + t, needSpace) == Some(t)
    ensures !needSpace ==> SpacedRest(t, false) == Some(t)
  {
    assert (" " + t)[1..] == t;
    assert TrimStart(t) == t;
  }

  /** A heading whose text is trimmed and non-blank captures that text. */
  lemma HeadingOfText(hashes: String, t: String)
    requires t != [] && Trimmed(t) && SingleLine(t)
    ensures HeadingGroup(hashes + " " + t, hashes) == Some(t)
  {
    assert (hashes + " " + t)[..|hashes|] == hashes;
    assert (hashes + " " + t)[|hashes|..] == " " + t;
    SpacedRestOfText(t, true);
  }

  /** A bullet `- t` with a trimmed non-blank single-line `t` captures `t`. */
  lemma BulletOfText(t: String)
    requires t != [] && Trimmed(t) && SingleLine(t)
    ensures BulletGroup("- " + t) == Some(t)
  {
    assert ("- " + t)[..1] == "-";
    assert ("- " + t)[1..] == " " + t;
    SpacedRestOfText(t, false);
  }

  /** The placeholder bullet `- ` captures a single space, which trims to nothing. */
  lemma BulletOfPlaceholder()
    ensures BulletGroup("- ") == Some(" ") && Trim(" ") == []
  {
    assert "- "[..1] == "-";
    assert "- "[1..] == " ";
    SpacedRestOfBlank();
  }

  /** After an optional-space marker, a lone space is captured as itself. */
  lemma SpacedRestOfBlank()
    ensures SpacedRest(" ", false) == Some(" ") && Trim(" ") == []
  {
    assert TrimStart(" ") == [];
  }

  // ---------------------------------------------------------------------
  // split and join with a one-character separator

  /** String.prototype.split with a one-character separator: never empty. */
  function Split(s: String, sep: char): (r: seq<String>)
    ensures |r| >= 1
    ensures forall k :: 0 <= k < |r| ==> sep !in r[k]
  {
    if s == [] then [[]]
    else if s[0] == sep then [[]] + Split(s[1..], sep)
    else
      var r := Split(s[1..], sep);
      [[s[0]] + r[0]] + r[1..]
  }

  lemma ConcatAssoc<T>(a: seq<T>, b: seq<T>, c: seq<T>)
    ensures a + b + c == a + (b + c)
  {
  }

  /** A non-empty sequence is its first element followed by the rest. */
  lemma HeadTail<T>(q: seq<T>)
    requires q != []
    ensures [q[0]] + q[1..] == q
  {
  }

  lemma EmptyConcat<T>(q: seq<T>)
    ensures [] + q == q
  {
  }

  /** A prefix one longer is the shorter prefix followed by the next element. */
  lemma TakeSnoc<T>(q: seq<T>, i: nat)
    requires i < |q|
    ensures q[..i + 1] == q[..i] + [q[i]]
  {
  }

  /** A non-empty sequence is its front followed by its last element. */
  lemma SnocParts<T>(q: seq<T>)
    requires q != []
    ensures q[..|q| - 1] + [q[|q| - 1]] == q
  {
  }

  /**
   * `splice(index, 1)` on an editor's rows, then one blank row put back when
   * none is left: the editors never show an empty list.
   */
  function RemoveAt<T>(s: seq<T>, index: nat, blank: T): (r: seq<T>)
    requires index < |s|
    ensures r != []
    ensures |s| > 1 ==> |r| == |s| - 1
    ensures |s| > 1 ==> forall k :: 0 <= k < index ==> r[k] == s[k]
    ensures |s| > 1 ==> forall k :: index <= k < |r| ==> r[k] == s[k + 1]
    ensures |s| == 1 ==> r == [blank]
  {
    var rest := s[..index] + s[index + 1..];
    if rest == [] then [blank] else rest
  }

  /** `a` is what is left of `b` after some of its elements are removed, the rest kept in order. */
  predicate Subsequence<T(==)>(a: seq<T>, b: seq<T>)
  {
    if a == [] then true
    else if b == [] then false
    else (a[|a| - 1] == b[|b| - 1] && Subsequence(a[..|a| - 1], b[..|b| - 1])) || Subsequence(a, b[..|b| - 1])
  }

  /** Array.prototype.join. */
  function Join(parts: seq<String>, sep: String): String
  {
    if |parts| == 0 then []
    else if |parts| == 1 then parts[0]
    else parts[0] + sep + Join(parts[1..], sep)
  }

  lemma {:induction false} SplitNoSep(s: String, sep: char)
    requires sep !in s
    ensures Split(s, sep) == [s]
  {
    if s != [] {
      SplitNoSep(s[1..], sep);
      assert [s[0]] + s[1..] == s;
    }
  }

  lemma {:induction false} SplitAtSep(a: String, sep: char, rest: String)
    requires sep !in a
    ensures Split(a + [sep] + rest, sep) == [a] + Split(rest, sep)
  {
    var s := a + [sep] + rest;
    if a == [] {
      assert s[1..] == rest;
    } else {
      assert s[1..] == a[1..] + [sep] + rest;
      SplitAtSep(a[1..], sep, rest);
      assert [a[0]] + a[1..] == a;
    }
  }

  /** Splitting what was joined gives back the parts, when no part holds the separator. */
  lemma {:induction false} SplitJoin(parts: seq<String>, sep: char)
    requires |parts| >= 1
    requires forall k :: 0 <= k < |parts| ==> sep !in parts[k]
    ensures Split(Join(parts, [sep]), sep) == parts
  {
    if |parts| == 1 {
      SplitNoSep(parts[0], sep);
    } else {
      SplitJoin(parts[1..], sep);
      SplitAtSep(parts[0], sep, Join(parts[1..], [sep]));
      assert [parts[0]] + parts[1..] == parts;
    }
  }

  lemma {:induction false} JoinPrefixFirst(x: String, parts: seq<String>, sep: String)
    requires |parts| >= 1
    ensures Join([x + parts[0]] + parts[1..], sep) == x + Join(parts, sep)
  {
    var q := [x + parts[0]] + parts[1..];
    assert q[1..] == parts[1..];
  }

  /** Joining what was split gives back the string. */
  lemma {:induction false} JoinSplit(s: String, sep: char)
    ensures Join(Split(s, sep), [sep]) == s
  {
    if s == [] {
    } else if s[0] == sep {
      JoinSplit(s[1..], sep);
      var r := Split(s[1..], sep);
      assert ([[]] + r)[1..] == r;
      assert [sep] + s[1..] == s;
    } else {
      JoinSplit(s[1..], sep);
      var r := Split(s[1..], sep);
      JoinPrefixFirst([s[0]], r, [sep]);
      assert [s[0]] + s[1..] == s;
    }
  }

  lemma {:induction false} JoinAppend(a: seq<String>, b: seq<String>, sep: String)
    requires |a| >= 1 && |b| >= 1
    ensures Join(a + b, sep) == Join(a, sep) + sep + Join(b, sep)
  {
    if |a| == 1 {
      assert (a + b)[1..] == b;
    } else {
      assert (a + b)[1..] == a[1..] + b;
      JoinAppend(a[1..], b, sep);
    }
  }

  /** A part that itself holds separators may be replaced by its pieces without changing the join. */
  lemma JoinFlatten(a: seq<String>, x: String, b: seq<String>, sep: char)
    ensures Join(a + [x] + b, [sep]) == Join(a + Split(x, sep) + b, [sep])
  {
    var xs := Split(x, sep);
    JoinSplit(x, sep);
    ConcatAssoc(a, [x], b);
    ConcatAssoc(a, xs, b);
    JoinMiddle(a, [x], b, [sep]);
    JoinMiddle(a, xs, b, [sep]);
  }

  /** The join of `a`, the non-empty middle `m` and `b`, around the join of `m`. */
  lemma JoinMiddle(a: seq<String>, m: seq<String>, b: seq<String>, sep: String)
    requires |m| >= 1
    ensures Join(a + (m + b), sep)
      == (if a == [] then [] else Join(a, sep) + sep) + Join(m, sep) + (if b == [] then [] else sep + Join(b, sep))
  {
    if b != [] {
      JoinAppend(m, b, sep);
    } else {
      assert m + b == m;
    }
    if a != [] {
      JoinAppend(a, m + b, sep);
    } else {
      assert a + (m + b) == m + b;
    }
  }

  /** Blank lines around a block add a separator on each side of it. */
  lemma JoinBetweenBlanks(xs: seq<String>, sep: String)
    requires |xs| >= 1
    ensures Join([[]] + xs + [[]], sep) == sep + Join(xs, sep) + sep
  {
    JoinAppend([[]], xs, sep);
    JoinAppend([[]] + xs, [[]], sep);
    assert Join([[]], sep) == [];
  }

  /** A character in no part and not in the separator is not in the join. */
  lemma {:induction false} JoinAvoids(parts: seq<String>, sep: String, c: char)
    requires c !in sep && forall i :: 0 <= i < |parts| ==> c !in parts[i]
    ensures c !in Join(parts, sep)
  {
    if |parts| > 1 {
      JoinAvoids(parts[1..], sep, c);
    }
  }

  /** Position of the first `c` in `s`, or |s| when there is none. */
  function IndexOf(s: String, c: char): (i: nat)
    ensures i <= |s| && c !in s[..i]
    ensures i < |s| ==> s[i] == c
  {
    if s == [] then 0
    else if s[0] == c then 0
    else
      assert s[..1 + IndexOf(s[1..], c)] == [s[0]] + s[1..][..IndexOf(s[1..], c)];
      1 + IndexOf(s[1..], c)
  }

  /** A character placed after a text without it is found right there. */
  lemma {:induction false} IndexOfEnd(v: String, c: char)
    requires c !in v
    ensures IndexOf(v + [c], c) == |v|
  {
    if v != [] {
      assert (v + [c])[1..] == v[1..] + [c];
      IndexOfEnd(v[1..], c);
    }
  }

  lemma JoinTwo(a: String, b: String, sep: String)
    ensures Join([a], sep) == a && Join([a, b], sep) == a + sep + b
  {
    assert [a, b][1..] == [b];
  }

  /** The first piece of a split is the text before the first separator. */
  lemma {:induction false} SplitFirst(s: String, sep: char)
    ensures Split(s, sep)[0] == s[..IndexOf(s, sep)]
  {
    if s != [] && s[0] != sep {
      SplitFirst(s[1..], sep);
    }
  }

  /** Re-joining every piece but the first gives the text after the first separator. */
  lemma {:induction false} SplitRest(s: String, sep: char)
    requires sep in s
    ensures |Split(s, sep)| >= 2
    ensures Join(Split(s, sep)[1..], [sep]) == s[IndexOf(s, sep) + 1..]
  {
    if s[0] == sep {
      JoinSplit(s[1..], sep);
      assert ([[]] + Split(s[1..], sep))[1..] == Split(s[1..], sep);
    } else {
      SplitRest(s[1..], sep);
      var r := Split(s[1..], sep);
      assert ([[s[0]] + r[0]] + r[1..])[1..] == r[1..];
    }
  }

  // ---------------------------------------------------------------------
  // lower-casing (the ASCII letters)

  function LowerChar(c: char): char
  {
    if 'A' <= c <= 'Z' then (c as int + 32) as char else c
  }

  /** String.prototype.toLowerCase restricted to the ASCII letters. */
  function Lower(s: String): (r: String)
    ensures |r| == |s| && forall i :: 0 <= i < |s| ==> r[i] == LowerChar(s[i])
  {
    seq(|s|, i requires 0 <= i < |s| => LowerChar(s[i]))
  }

  // ---------------------------------------------------------------------
  // decimal integers

  predicate IsDigit(c: char)
  {
    '0' <= c <= '9'
  }

  predicate AllDigits(s: String)
  {
    forall i :: 0 <= i < |s| ==> IsDigit(s[i])
  }

  function DigitChar(d: nat): (c: char)
    requires d < 10
    ensures IsDigit(c) && c as int - '0' as int == d
  {
    ('0' as int + d) as char
  }

  /** `String(n)` for a non-negative integer. */
  function NatToString(n: nat): (s: String)
    ensures s != [] && AllDigits(s)
  {
    if n < 10 then [DigitChar(n)] else NatToString(n / 10) + [DigitChar(n % 10)]
  }

  /** `String(i)` for an integer: a minus sign before the digits of a negative. */
  function IntToString(i: int): String
  {
    if i < 0 then "-" + NatToString(-i) else NatToString(i)
  }

  /** The value of a string of decimal digits. */
  function DigitsValue(s: String): nat
    requires AllDigits(s)
  {
    if s == [] then 0 else DigitsValue(s[..|s| - 1]) * 10 + (s[|s| - 1] as int - '0' as int)
  }

  lemma {:induction false} DigitsOfNat(n: nat)
    ensures DigitsValue(NatToString(n)) == n
  {
    if n >= 10 {
      DigitsOfNat(n / 10);
      var s := NatToString(n);
      assert s[..|s| - 1] == NatToString(n / 10);
    }
  }

  /** Distinct numbers are written differently. */
  lemma NatToStringInjective(m: nat, n: nat)
    requires NatToString(m) == NatToString(n)
    ensures m == n
  {
    DigitsOfNat(m);
    DigitsOfNat(n);
  }

  /** Length of the run of digits at the start of `s`. */
  function DigitRun(s: String): (k: nat)
    ensures k <= |s| && AllDigits(s[..k]) && (k < |s| ==> !IsDigit(s[k]))
  {
    if s != [] && IsDigit(s[0]) then
      assert s[..1 + DigitRun(s[1..])] == [s[0]] + s[1..][..DigitRun(s[1..])];
      1 + DigitRun(s[1..])
    else 0
  }

  lemma {:induction false} DigitRunOfDigits(s: String)
    requires AllDigits(s)
    ensures DigitRun(s) == |s|
  {
    if s != [] {
      DigitRunOfDigits(s[1..]);
    }
  }

  /**
   * `Number.parseInt(s, 10)` when the result is finite: leading white space,
   * an optional sign, then the longest run of digits; no digits is NaN (None).
   */
  function ParseInt(s: String): Option<int>
  {
    ParseSigned(TrimStart(s))
  }

  /** parseInt after the leading white space: an optional sign, then the longest run of digits. */
  function ParseSigned(t: String): Option<int>
  {
    var neg := t != [] && t[0] == '-';
    var u := if t != [] && (t[0] == '-' || t[0] == '+') then t[1..] else t;
    match LeadingValue(u)
    case None => None
    case Some(v) => Some(if neg then -(v as int) else v)
  }

  /** The value of the longest run of digits that starts `u`; none when `u` does not start with a digit. */
  function LeadingValue(u: String): Option<nat>
  {
    var k := DigitRun(u);
    if k == 0 then None else Some(DigitsValue(u[..k]))
  }

  /** A string of digits is its own leading run. */
  lemma LeadingValueOfDigits(d: String)
    requires d != [] && AllDigits(d)
    ensures LeadingValue(d) == Some(DigitsValue(d))
  {
    DigitRunOfDigits(d);
    assert d[..|d|] == d;
  }

  /**
   * `Number(s)` restricted to decimal integers: white space around an optional
   * sign and digits; a blank string is 0; anything else is not a finite number (None).
   */
  function ParseNumber(s: String): Option<int>
  {
    var t := Trim(s);
    if t == [] then Some(0) else SignedDigits(t)
  }

  /** An optional sign followed by one or more digits, and nothing else. */
  function SignedDigits(t: String): Option<int>
  {
    var neg := t != [] && t[0] == '-';
    var u := if t != [] && (t[0] == '-' || t[0] == '+') then t[1..] else t;
    var v: int := if AllDigits(u) then DigitsValue(u) else 0;
    if u != [] && AllDigits(u) then Some(if neg then -v else v) else None
  }

  lemma SignedDigitsOfString(i: int)
    ensures SignedDigits(IntToString(i)) == Some(i)
  {
    var n: nat := if i < 0 then -i else i;
    DigitsOfNat(n);
    if i < 0 {
      assert IntToString(i)[1..] == NatToString(n);
    }
  }

  /** A run of digits reads back with parseInt as its value. */
  lemma ParseIntOfDigits(d: String, v: nat)
    requires d != [] && AllDigits(d) && DigitsValue(d) == v
    ensures ParseInt(d) == Some(v as int)
  {
    assert IsDigit(d[0]);
    TrimStartOfNonSpace(d);
    LeadingValueOfDigits(d);
  }

  /** A minus sign before a run of digits reads back as the negated value. */
  lemma ParseIntOfMinus(d: String, v: nat)
    requires d != [] && AllDigits(d) && DigitsValue(d) == v
    ensures ParseInt("-" + d) == Some(-(v as int))
  {
    var s := "-" + d;
    TrimStartOfNonSpace(s);
    assert s[1..] == d;
    LeadingValueOfDigits(d);
  }

  /** Writing an integer in decimal and reading it back with parseInt gives it back. */
  lemma ParseIntOfString(i: int)
    ensures ParseInt(IntToString(i)) == Some(i)
  {
    if i < 0 {
      DigitsOfNat(-i);
      ParseIntOfMinus(NatToString(-i), -i);
    } else {
      DigitsOfNat(i);
      ParseIntOfDigits(NatToString(i), i);
    }
  }

  /** Writing an integer in decimal and reading it back with Number gives it back. */
  lemma ParseNumberOfString(i: int)
    ensures ParseNumber(IntToString(i)) == Some(i)
  {
    var n: nat := if i < 0 then -i else i;
    var s := IntToString(i);
    var d := NatToString(n);
    assert !IsSpace(s[|s| - 1]) by { assert s[|s| - 1] == d[|d| - 1] && IsDigit(d[|d| - 1]); }
    assert !IsSpace(s[0]) by { assert s[0] == '-' || s[0] == d[0]; assert IsDigit(d[0]); }
    TrimOfTrimmed(s);
    SignedDigitsOfString(i);
  }

  /** A decimal integer has no white space at either end and no line break. */
  lemma IntToStringPlain(i: int)
    ensures IntToString(i) != [] && Trimmed(IntToString(i)) && SingleLine(IntToString(i))
  {
    var n: nat := if i < 0 then -i else i;
    var s := IntToString(i);
    var d := NatToString(n);
    assert s[|s| - 1] == d[|d| - 1] && IsDigit(d[|d| - 1]);
    assert s[0] == '-' || s[0] == d[0];
    assert IsDigit(d[0]);
    forall k | 0 <= k < |s| ensures !IsLineTerminator(s[k]) {
      if i < 0 && k > 0 {
        assert s[k] == d[k - 1];
      }
    }
  }

  /** `String(n).padStart(2, "0")`. */
  function Pad2(n: nat): (s: String)
    ensures |s| >= 2 && AllDigits(s)
  {
    if n < 10 then "0" + NatToString(n) else NatToString(n)
  }

  /** A number below 100 is written in exactly two digits, which read back as it. */
  lemma Pad2Value(n: nat)
    requires n < 100
    ensures |Pad2(n)| == 2 && DigitsValue(Pad2(n)) == n
  {
    var s := Pad2(n);
    if n < 10 {
      assert s[..1] == "0" && "0"[..0] == [];
    } else {
      var hi := [DigitChar(n / 10)];
      assert NatToString(n / 10) == hi;
      assert s == hi + [DigitChar(n % 10)];
      assert s[..1] == hi && hi[..0] == [];
      assert DigitsValue(hi) == n / 10;
      assert DigitsValue(s) == DigitsValue(s[..1]) * 10 + n % 10;
    }
  }

  // ---------------------------------------------------------------------
  // code-point order, the model of String.prototype.localeCompare

  predicate StrLess(a: String, b: String)
    decreases |a|
  {
    if a == [] then b != []
    else if b == [] then false
    else if a[0] != b[0] then a[0] < b[0]
    else StrLess(a[1..], b[1..])
  }

  lemma {:induction false} StrLessIrreflexive(a: String)
    ensures !StrLess(a, a)
  {
    if a != [] {
      StrLessIrreflexive(a[1..]);
    }
  }

  lemma {:induction false} StrLessTotal(a: String, b: String)
    ensures StrLess(a, b) || a == b || StrLess(b, a)
  {
    if a != [] && b != [] && a[0] == b[0] {
      StrLessTotal(a[1..], b[1..]);
      if a[1..] == b[1..] {
        assert a == [a[0]] + a[1..] && b == [b[0]] + b[1..];
      }
    }
  }

  lemma {:induction false} StrLessTransitive(a: String, b: String, c: String)
    requires StrLess(a, b) && StrLess(b, c)
    ensures StrLess(a, c)
  {
    if a != [] && b != [] && c != [] && a[0] == b[0] && b[0] == c[0] {
      StrLessTransitive(a[1..], b[1..], c[1..]);
    }
  }

  lemma {:induction false} StrLessAsymmetric(a: String, b: String)
    requires StrLess(a, b)
    ensures !StrLess(b, a)
  {
    if a != [] && b != [] && a[0] == b[0] {
      StrLessAsymmetric(a[1..], b[1..]);
    }
  }
}
