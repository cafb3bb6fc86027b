/**
 * The exercises screen's own text rules: which exercise sections are stored
 * as text, how a list section's body is read into items and written back,
 * how a questions section's `- question: answer` lines are read and written,
 * and the item list a list section edits.
 */
module ExercisesView {
  import opened Text
  import Exercises

  // ---------------------------------------------------------------------
  // the sections shown

  /** An exercise section as the screen lists it; an absent question list is empty. */
  datatype ExerciseSection =
    | QuestionsSection(title: String, defaultBody: String, questions: seq<String>)
    | ListSection(title: String, defaultBody: String, legacyQuestions: seq<String>)
    | TableSection(title: String)

  /** The stored definition of a section kept as text: a list section's questions are its legacy questions. */
  function DefOf(s: ExerciseSection): Exercises.SectionDef
    requires !s.TableSection?
  {
    match s
    case QuestionsSection(title, body, qs) => Exercises.SectionDef(title, body, qs)
    case ListSection(title, body, qs) => Exercises.SectionDef(title, body, qs)
  }

  /** The definitions handed to the exercises document: the table sections left out, the others in order. */
  function ContentDefs(sections: seq<ExerciseSection>): (r: seq<Exercises.SectionDef>)
    ensures |r| <= |sections|
    ensures forall d :: d in r ==> exists s :: s in sections && !s.TableSection? && d == DefOf(s)
  {
    if sections == [] then []
    else
      var init := sections[..|sections| - 1];
      var s := sections[|sections| - 1];
      var r0 := ContentDefs(init);
      assert forall d :: d in r0 ==> exists s :: s in sections && !s.TableSection? && d == DefOf(s) by {
        forall d | d in r0 ensures exists s :: s in sections && !s.TableSection? && d == DefOf(s) {
          var s' :| s' in init && !s'.TableSection? && d == DefOf(s');
          assert s' in sections;
        }
      }
      if s.TableSection? then r0 else r0 + [DefOf(s)]
  }

  /** Every section kept as text has its definition among the content definitions. */
  lemma {:induction false} ContentDefsComplete(sections: seq<ExerciseSection>, j: nat)
    requires j < |sections| && !sections[j].TableSection?
    ensures DefOf(sections[j]) in ContentDefs(sections)
  {
    var n := |sections| - 1;
    if j < n {
      assert sections[..n][j] == sections[j];
      ContentDefsComplete(sections[..n], j);
    }
  }

  // ---------------------------------------------------------------------
  // list sections: reading

  /** What one body line gives a list section. */
  datatype ListLine = Skip | Item(value: String) | Legacy(answer: String)

  /** `legacyQuestions.find(q => value.startsWith(q + ":"))`: the first question the value starts with, then a colon. */
  function FindLegacy(questions: seq<String>, value: String): (r: Option<String>)
    ensures r.Some? ==> r.value in questions && StartsWith(value, r.value + ":")
    ensures r.None? ==> forall q :: q in questions ==> !StartsWith(value, q + ":")
  {
    if questions == [] then None
    else if StartsWith(value, questions[0] + ":") then Some(questions[0])
    else FindLegacy(questions[1..], value)
  }

  /** `FindLegacy` finds the earliest matching question. */
  lemma {:induction false} FindLegacyFirst(questions: seq<String>, value: String, i: nat)
    requires i < |questions| && StartsWith(value, questions[i] + ":")
    ensures FindLegacy(questions, value).Some?
    ensures exists j :: 0 <= j <= i && FindLegacy(questions, value).value == questions[j]
              && forall k :: 0 <= k < j ==> !StartsWith(value, questions[k] + ":")
  {
    if !StartsWith(value, questions[0] + ":") {
      FindLegacyFirst(questions[1..], value, i - 1);
      var j :| 0 <= j <= i - 1 && FindLegacy(questions[1..], value).value == questions[1..][j]
               && forall k :: 0 <= k < j ==> !StartsWith(value, questions[1..][k] + ":");
      assert forall k :: 0 <= k < j + 1 ==> !StartsWith(value, questions[k] + ":") by {
        forall k | 0 <= k < j + 1 ensures !StartsWith(value, questions[k] + ":") {
          if k > 0 {
            assert questions[k] == questions[1..][k - 1];
          }
        }
      }
    }
  }

  /**
   * One line of a list body: blank lines and a bare `-` are skipped, one
   * leading `- ` is stripped; a value opening with a legacy question and a
   * colon gives the trimmed answer after it, a value equal to a legacy
   * question gives nothing; both count as legacy. Any other value is an item.
   * An empty question is falsy, so finding it does not count as a match.
   */
  function ReadListLine(line: String, legacy: seq<String>): (r: ListLine)
    ensures r.Item? ==> r.value != [] && r.value != "-" && Trimmed(r.value)
    ensures r.Legacy? ==> Trimmed(r.answer)
  {
    var v0 := Trim(line);
    if v0 == [] || v0 == "-" then Skip
    else
      var v := if StartsWith(v0, "- ") then Trim(v0[2..]) else v0;
      if v == [] || v == "-" then Skip
      else
        var found := FindLegacy(legacy, v);
        if found.Some? && found.value != [] then Legacy(Trim(v[|found.value| + 1..]))
        else if v in legacy then Legacy([]) else Item(v)
  }

  /** What a line may give: a non-empty trimmed item, or a trimmed answer. */
  predicate Fits(l: ListLine)
  {
    (l.Item? ==> l.value != [] && Trimmed(l.value)) && (l.Legacy? ==> Trimmed(l.answer))
  }

  /** What each line gives. */
  function Outcomes(lines: seq<String>, legacy: seq<String>): (r: seq<ListLine>)
    ensures |r| == |lines|
    ensures forall k :: 0 <= k < |r| ==> r[k] == ReadListLine(lines[k], legacy) && Fits(r[k])
  {
    seq(|lines|, i requires 0 <= i < |lines| => ReadListLine(lines[i], legacy))
  }

  /** One line's effect on the items and the legacy flag. */
  function ListStep(acc: (seq<String>, bool), l: ListLine): (r: (seq<String>, bool))
    requires forall k :: 0 <= k < |acc.0| ==> acc.0[k] != [] && Trimmed(acc.0[k])
    requires Fits(l)
    ensures forall k :: 0 <= k < |r.0| ==> r.0[k] != [] && Trimmed(r.0[k])
    ensures r.1 == (acc.1 || l.Legacy?)
  {
    match l
    case Skip => acc
    case Item(v) => (acc.0 + [v], acc.1)
    case Legacy(a) => (if a != [] then acc.0 + [a] else acc.0, true)
  }

  /** The items and the legacy flag after the given line outcomes. */
  function Collect(outs: seq<ListLine>): (r: (seq<String>, bool))
    requires forall k :: 0 <= k < |outs| ==> Fits(outs[k])
    ensures forall k :: 0 <= k < |r.0| ==> r.0[k] != [] && Trimmed(r.0[k])
  {
    if outs == [] then ([], false)
    else ListStep(Collect(outs[..|outs| - 1]), outs[|outs| - 1])
  }

  /** parseListItems: the non-empty items, trimmed, and whether a legacy line was seen. */
  function ParseListItems(rawBody: String, legacy: seq<String>): (r: (seq<String>, bool))
    ensures forall k :: 0 <= k < |r.0| ==> r.0[k] != [] && Trimmed(r.0[k])
  {
    Collect(Outcomes(Split(rawBody, '\n'), legacy))
  }

  lemma {:induction false} CollectLegacy(outs: seq<ListLine>)
    requires forall k :: 0 <= k < |outs| ==> Fits(outs[k])
    ensures Collect(outs).1 <==> exists k :: 0 <= k < |outs| && outs[k].Legacy?
  {
    if outs != [] {
      var n := |outs| - 1;
      CollectLegacy(outs[..n]);
      if Collect(outs[..n]).1 {
        var k :| 0 <= k < n && outs[..n][k].Legacy?;
        assert outs[k] == outs[..n][k];
      }
      if exists k :: 0 <= k < |outs| && outs[k].Legacy? {
        var k :| 0 <= k < |outs| && outs[k].Legacy?;
        if k < n {
          assert outs[..n][k] == outs[k];
        }
      }
    }
  }

  /** A legacy line was seen exactly when some line reads as legacy. */
  lemma UsedLegacyIff(lines: seq<String>, legacy: seq<String>)
    ensures Collect(Outcomes(lines, legacy)).1 <==> exists k :: 0 <= k < |lines| && ReadListLine(lines[k], legacy).Legacy?
  {
    CollectLegacy(Outcomes(lines, legacy));
  }

  /** parseListItems, pushing items line by line. */
  method ReadListItems(rawBody: String, legacy: seq<String>) returns (items: seq<String>, usedLegacy: bool)
    ensures (items, usedLegacy) == ParseListItems(rawBody, legacy)
  {
    var lines := Split(rawBody, '\n');
    ghost var outs := Outcomes(lines, legacy);
    items, usedLegacy := [], false;
    var i := 0;
    while i < |lines|
      invariant 0 <= i <= |lines|
      invariant (items, usedLegacy) == Collect(outs[..i])
    {
      ghost var prev := (items, usedLegacy);
      items, usedLegacy := ReadListLineInto(lines[i], legacy, items, usedLegacy);
      assert Collect(outs[..i + 1]) == ListStep(prev, outs[i]) by {
        assert outs[..i + 1][..i] == outs[..i];
      }
      i := i + 1;
    }
    assert outs[..i] == outs;
  }

  /** The body of the reading loop for one line. */
  method ReadListLineInto(line: String, legacy: seq<String>, items: seq<String>, usedLegacy: bool)
    returns (items': seq<String>, usedLegacy': bool)
    requires forall k :: 0 <= k < |items| ==> items[k] != [] && Trimmed(items[k])
    ensures (items', usedLegacy') == ListStep((items, usedLegacy), ReadListLine(line, legacy))
  {
    items', usedLegacy' := items, usedLegacy;
    var value := Trim(line);
    if value != [] && value != "-" {
      if StartsWith(value, "- ") {
        value := Trim(value[2..]);
      }
      if value != [] && value != "-" {
        var found := FindLegacy(legacy, value);
        if found.Some? && found.value != [] {
          usedLegacy' := true;
          var extracted := Trim(value[|found.value| + 1..]);
          if extracted != [] {
            items' := items' + [extracted];
          }
        } else if value in legacy {
          usedLegacy' := true;
        } else {
          items' := items' + [value];
        }
      }
    }
  }

  // ---------------------------------------------------------------------
  // list sections: writing

  /** The length of the white-space run `s` opens with. */
  function SpaceRun(s: String): (k: nat)
    ensures k <= |s| && AllSpace(s[..k]) && (k < |s| ==> !IsSpace(s[k]))
  {
    if s != [] && IsSpace(s[0]) then
      var k := 1 + SpaceRun(s[1..]);
      assert s[..k] == [s[0]] + s[1..][..k - 1];
      k
    else 0
  }

  /** `replace(/\s*\n\s*\/g, " ")`: every white-space run holding a line break becomes one space. */
  function CollapseBreaks(s: String): (r: String)
    ensures '\n' !in r
    decreases |s|
  {
    if s == [] then []
    else if IsSpace(s[0]) then
      var k := SpaceRun(s);
      (if '\n' in s[..k] then " " else s[..k]) + CollapseBreaks(s[k..])
    else [s[0]] + CollapseBreaks(s[1..])
  }

  /** An item as written: its line breaks folded into spaces, trimmed. */
  function CleanItem(item: String): (r: String)
    ensures '\n' !in r && Trimmed(r)
  {
    var c := CollapseBreaks(item);
    TrimChars(c);
    Trim(c)
  }

  /** One `- item` line per item that is not blank once cleaned, in order. */
  function ListLines(items: seq<String>): (r: seq<String>)
    ensures |r| <= |items|
    ensures forall k :: 0 <= k < |r| ==> '\n' !in r[k]
  {
    if items == [] then []
    else
      var c := CleanItem(items[|items| - 1]);
      ListLines(items[..|items| - 1]) + (if c != [] then ["- " + c] else [])
  }

  /** buildListBody */
  function BuildListBody(items: seq<String>): String
  {
    Join(ListLines(items), "\n")
  }

  /** The items a written body reads back as: the cleaned ones, except blanks and a bare `-`. */
  function ReadBackItems(items: seq<String>): (r: seq<String>)
    ensures |r| <= |items|
  {
    if items == [] then []
    else
      var c := CleanItem(items[|items| - 1]);
      ReadBackItems(items[..|items| - 1]) + (if c != [] && c != "-" then [c] else [])
  }

  lemma WrittenLineRead(c: String)
    requires c != [] && Trimmed(c)
    ensures ReadListLine("- " + c, []) == if c == "-" then Skip else Item(c)
  {
    var line := "- " + c;
    assert Trimmed(line) by {
      assert line[0] == '-' && line[|line| - 1] == c[|c| - 1];
    }
    TrimOfTrimmed(line);
    assert StartsWith(line, "- ") && line[2..] == c;
    TrimOfTrimmed(c);
  }

  /** The outcomes of the lines before the last are those of the shorter list. */
  lemma OutcomesSnoc(lines: seq<String>, line: String, legacy: seq<String>)
    ensures Outcomes(lines + [line], legacy)[..|lines|] == Outcomes(lines, legacy)
  {
    var a := Outcomes(lines + [line], legacy)[..|lines|];
    var b := Outcomes(lines, legacy);
    forall k | 0 <= k < |lines| ensures a[k] == b[k] {
      assert (lines + [line])[k] == lines[k];
    }
  }

  lemma {:induction false} ListLinesRead(items: seq<String>)
    ensures Collect(Outcomes(ListLines(items), [])) == (ReadBackItems(items), false)
  {
    if items != [] {
      var n := |items| - 1;
      var c := CleanItem(items[n]);
      var lines0 := ListLines(items[..n]);
      var acc := Collect(Outcomes(lines0, []));
      assert acc == (ReadBackItems(items[..n]), false) by {
        ListLinesRead(items[..n]);
      }
      if c != [] {
        var outs := Outcomes(lines0 + ["- " + c], []);
        assert ListLines(items) == lines0 + ["- " + c];
        assert Collect(outs) == ListStep(acc, outs[|outs| - 1]) by {
          OutcomesSnoc(lines0, "- " + c, []);
        }
        assert outs[|outs| - 1] == if c == "-" then Skip else Item(c) by {
          WrittenLineRead(c);
        }
        if c == "-" {
          assert ReadBackItems(items) == ReadBackItems(items[..n]);
          assert ListStep(acc, Skip) == acc;
          assert Collect(outs) == (ReadBackItems(items), false);
        } else {
          assert ListStep(acc, Item(c)) == (acc.0 + [c], false);
          assert ReadBackItems(items) == ReadBackItems(items[..n]) + [c];
          assert Collect(outs) == (ReadBackItems(items), false);
        }
        assert Collect(Outcomes(ListLines(items), [])) == (ReadBackItems(items), false);
      } else {
        assert ListLines(items) == lines0;
        assert ReadBackItems(items) == ReadBackItems(items[..n]);
        assert Collect(Outcomes(ListLines(items), [])) == (ReadBackItems(items), false);
      }
    }
  }

  /**
   * A written list reads back as its cleaned items, blanks and a bare `-`
   * dropped, with no legacy line, whatever the items hold.
   */
  lemma ListRoundTrip(items: seq<String>)
    ensures ParseListItems(BuildListBody(items), []) == (ReadBackItems(items), false)
  {
    var lines := ListLines(items);
    if lines == [] {
      var outs := Outcomes(Split([], '\n'), []);
      assert Split([], '\n') == [[]];
      assert outs == [Skip];
      assert outs[..0] == [];
      ReadBackEmpty(items);
    } else {
      SplitJoin(lines, '\n');
      ListLinesRead(items);
    }
  }

  /** With nothing written, nothing is read back. */
  lemma {:induction false} ReadBackEmpty(items: seq<String>)
    requires ListLines(items) == []
    ensures ReadBackItems(items) == []
  {
    if items != [] {
      var n := |items| - 1;
      assert ListLines(items[..n]) == [] && CleanItem(items[n]) == [];
      ReadBackEmpty(items[..n]);
    }
  }

  // ---------------------------------------------------------------------
  // list sections: editing

  /**
   * The items a list section edits. The screen is redrawn after every
   * change, so a row's index is always within the list.
   */
  class ListEditor {
    var items: seq<String>

    predicate Valid()
      reads this
    {
      items != []
    }

    /** The parsed items, or one empty item when there are none. */
    constructor (parsed: seq<String>)
      ensures Valid()
      ensures items == if parsed != [] then parsed else [""]
    {
      items := if parsed != [] then parsed else [""];
    }

    /** The body saved for the section. */
    function Body(): String
      reads this
    {
      BuildListBody(items)
    }

    /** Typing into row `index` replaces that item alone. */
    method Edit(index: nat, value: String)
      requires Valid() && index < |items|
      modifies this
      ensures Valid()
      ensures items == old(items)[index := value]
    {
      items := items[index := value];
    }

    /** The delete command on row `index`. */
    method Delete(index: nat)
      requires Valid() && index < |items|
      modifies this
      ensures Valid()
      ensures items == RemoveAt(old(items), index, "")
    {
      items := items[..index] + items[index + 1..];
      if |items| == 0 {
        items := items + [""];
      }
    }

    /** The add button appends one empty item. */
    method Add()
      requires Valid()
      modifies this
      ensures Valid()
      ensures items == old(items) + [""]
    {
      items := items + [""];
    }
  }

  // ---------------------------------------------------------------------
  // questions sections

  /**
   * One saved answer line, trimmed: `- key: value`, the dash and the white
   * space after it dropped, the key before the first colon and the value the
   * rest, both trimmed; a line without a colon or with an empty key gives nothing.
   */
  function AnswerOf(line: String): Option<(String, String)>
  {
    var t := Trim(line);
    if !StartsWith(t, "- ") then None
    else
      var parts := Split(TrimStart(t[1..]), ':');
      if |parts| < 2 then None
      else
        var key := Trim(parts[0]);
        if key == [] then None else Some((key, Trim(Join(parts[1..], ":"))))
  }

  /** The answers read from the lines so far, a later line for a key replacing an earlier one. */
  function Answers(lines: seq<String>): map<String, String>
  {
    if lines == [] then map[]
    else
      var m := Answers(lines[..|lines| - 1]);
      match AnswerOf(lines[|lines| - 1])
      case Some(kv) => m[kv.0 := kv.1]
      case None => m
  }

  function ReadAnswers(body: String): map<String, String>
  {
    Answers(Split(body, '\n'))
  }

  /** The answer map built line by line. */
  method ReadAnswerMap(body: String) returns (answers: map<String, String>)
    ensures answers == ReadAnswers(body)
  {
    var lines := Split(body, '\n');
    answers := map[];
    var i := 0;
    while i < |lines|
      invariant 0 <= i <= |lines|
      invariant answers == Answers(lines[..i])
    {
      assert lines[..i + 1][..i] == lines[..i];
      var kv := AnswerOf(lines[i]);
      if kv.Some? {
        answers := answers[kv.value.0 := kv.value.1];
      }
      i := i + 1;
    }
    assert lines[..i] == lines;
  }

  /** `answerMap.get(q) ?? ""` */
  function AnswerFor(answers: map<String, String>, q: String): String
  {
    if q in answers then answers[q] else ""
  }

  function AnswerLines(questions: seq<String>, answers: map<String, String>): (r: seq<String>)
    ensures |r| == |questions|
  {
    if questions == [] then []
    else
      var q := questions[|questions| - 1];
      AnswerLines(questions[..|questions| - 1], answers) + ["- " + q + ": " + AnswerFor(answers, q)]
  }

  /** The body saved for a questions section: one `- q: answer` line per question, in question order. */
  function AnswerBody(questions: seq<String>, answers: map<String, String>): String
  {
    Join(AnswerLines(questions, answers), "\n")
  }

  /** Typing into the answer of `q`: the answer is stored trimmed and the whole body rewritten. */
  function SaveAnswer(questions: seq<String>, answers: map<String, String>, q: String, input: String): String
  {
    AnswerBody(questions, answers[q := Trim(input)])
  }

  /** A question that reads back as its own key. */
  predicate PlainQuestion(q: String)
  {
    q != [] && Trimmed(q) && ':' !in q && '\n' !in q
  }

  lemma AnswerLineRead(q: String, v: String)
    requires PlainQuestion(q) && Trimmed(v) && '\n' !in v
    ensures AnswerOf("- " + q + ": " + v) == Some((q, v))
  {
    var line := "- " + q + ": " + v;
    var rest := if v == [] then [] else " " + v;
    var content := q + ":" + rest;
    assert StartsWith(Trim(line), "- ") && TrimStart(Trim(line)[1..]) == content by {
      assert Trim(line)[1..] == " " + content by {
        AnswerLineTrim(q, v);
        AnswerLineTail(q, v);
        if v == [] {
          assert content == q + ":";
        } else {
          assert content == q + ":" + " " + v;
        }
      }
      assert TrimStart(" " + content) == content by {
        TrimStartSkips(" ", content);
        TrimStartOfNonSpace(content);
      }
      assert StartsWith(Trim(line), "- ") by {
        AnswerLineTrim(q, v);
      }
    }
    var parts := Split(content, ':');
    assert parts == [q] + Split(rest, ':') by {
      assert content == q + [':'] + rest;
      SplitAtSep(q, ':', rest);
    }
    assert Trim(Join(parts[1..], ":")) == v by {
      assert parts[1..] == Split(rest, ':');
      JoinSplit(rest, ':');
      if v != [] {
        AfterSpace(v);
      } else {
        TrimOfTrimmed([]);
      }
    }
    assert AnswerOf(line) == Some((q, v)) by {
      AnswerOfContent(line, content);
      TrimOfTrimmed(q);
    }
  }

  /** How an answer line whose text after the dash is `content` is read. */
  lemma AnswerOfContent(line: String, content: String)
    requires StartsWith(Trim(line), "- ") && TrimStart(Trim(line)[1..]) == content
    ensures var parts := Split(content, ':');
            |parts| >= 2 && Trim(parts[0]) != [] ==>
              AnswerOf(line) == Some((Trim(parts[0]), Trim(Join(parts[1..], ":"))))
  {
  }

  /** Past its dash, an answer line is a blank and the rest of the line. */
  lemma AnswerLineTail(q: String, v: String)
    ensures ("- " + q + ":")[1..] == " " + (q + ":")
    ensures ("- " + q + ": " + v)[1..] == " " + (q + ":" + " " + v)
  {
  }

  /** An answer line trims to itself, less the blank after the colon when the answer is empty. */
  lemma AnswerLineTrim(q: String, v: String)
    requires Trimmed(v)
    ensures Trim("- " + q + ": " + v) == if v == [] then "- " + q + ":" else "- " + q + ": " + v
  {
    var line := "- " + q + ": " + v;
    if v == [] {
      var t := "- " + q + ":";
      assert line == [] + t + " ";
      assert Trimmed(t) by {
        assert t[0] == '-' && t[|t| - 1] == ':';
      }
      TrimPadded([], t, " ");
    } else {
      assert Trimmed(line) by {
        assert line[0] == '-';
        assert line[|line| - 1] == v[|v| - 1];
      }
      TrimOfTrimmed(line);
    }
  }

  lemma {:induction false} AnswerLinesRead(questions: seq<String>, answers: map<String, String>)
    requires forall k :: 0 <= k < |questions| ==>
               PlainQuestion(questions[k]) && Trimmed(AnswerFor(answers, questions[k])) && '\n' !in AnswerFor(answers, questions[k])
    ensures Answers(AnswerLines(questions, answers)) == map q | q in questions :: AnswerFor(answers, q)
  {
    if questions != [] {
      var n := |questions| - 1;
      var q := questions[n];
      var init := questions[..n];
      var v := AnswerFor(answers, q);
      var m0 := Answers(AnswerLines(init, answers));
      assert m0 == map x | x in init :: AnswerFor(answers, x) by {
        assert forall k :: 0 <= k < n ==> init[k] == questions[k];
        AnswerLinesRead(init, answers);
      }
      assert Answers(AnswerLines(questions, answers)) == m0[q := v] by {
        AnswerLineRead(q, v);
        AnswersSnoc(AnswerLines(init, answers), "- " + q + ": " + v);
      }
      assert m0[q := v] == map x | x in questions :: AnswerFor(answers, x) by {
        AnswerMapSnoc(init, q, answers);
        SnocParts(questions);
      }
    }
  }

  lemma AnswersSnoc(lines: seq<String>, line: String)
    ensures AnswerOf(line).Some? ==> Answers(lines + [line]) == Answers(lines)[AnswerOf(line).value.0 := AnswerOf(line).value.1]
  {
    assert (lines + [line])[..|lines|] == lines;
  }

  lemma AnswerMapSnoc(init: seq<String>, q: String, answers: map<String, String>)
    ensures (map x | x in init :: AnswerFor(answers, x))[q := AnswerFor(answers, q)]
            == map x | x in init + [q] :: AnswerFor(answers, x)
  {
  }

  lemma AnswerLinesNoBreaks(questions: seq<String>, answers: map<String, String>)
    requires forall k :: 0 <= k < |questions| ==> PlainQuestion(questions[k]) && '\n' !in AnswerFor(answers, questions[k])
    ensures forall k :: 0 <= k < |AnswerLines(questions, answers)| ==> '\n' !in AnswerLines(questions, answers)[k]
  {
    var lines := AnswerLines(questions, answers);
    forall k | 0 <= k < |lines| ensures '\n' !in lines[k] {
      AnswerLineAt(questions, answers, k);
    }
  }

  lemma {:induction false} AnswerLineAt(questions: seq<String>, answers: map<String, String>, k: nat)
    requires k < |questions|
    ensures AnswerLines(questions, answers)[k] == "- " + questions[k] + ": " + AnswerFor(answers, questions[k])
  {
    var n := |questions| - 1;
    if k < n {
      assert questions[..n][k] == questions[k];
      AnswerLineAt(questions[..n], answers, k);
    }
  }

  /**
   * The answers written for plain questions read back as the answer of each
   * question (empty when it has none), provided each answer is trimmed and
   * on one line.
   */
  lemma AnswersRoundTrip(questions: seq<String>, answers: map<String, String>)
    requires forall k :: 0 <= k < |questions| ==>
               PlainQuestion(questions[k]) && Trimmed(AnswerFor(answers, questions[k])) && '\n' !in AnswerFor(answers, questions[k])
    ensures ReadAnswers(AnswerBody(questions, answers)) == map q | q in questions :: AnswerFor(answers, q)
  {
    var lines := AnswerLines(questions, answers);
    AnswerLinesRead(questions, answers);
    if lines == [] {
      assert Split([], '\n') == [[]];
      assert Split([], '\n')[..0] == [];
      assert AnswerOf([]) == None;
    } else {
      AnswerLinesNoBreaks(questions, answers);
      SplitJoin(lines, '\n');
    }
  }
}
