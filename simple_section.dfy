/**
 * The plain section documents (mission, values, ...): a `# title` heading and a
 * free-text body, with no front matter.
 */
module SimpleSection {
  import opened Text

  /** Reader state: whether the first `#` line was passed, and the lines kept since. */
  datatype Scan = Scan(started: bool, body: seq<String>)

  /** One line of the reader: lines before the first `#` line, and that line, are skipped. */
  function Step(s: Scan, line: String): Scan
  {
    if !s.started then Scan(StartsWith(line, "#"), s.body)
    else Scan(true, s.body + [line])
  }

  function ScanLines(s: Scan, lines: seq<String>): Scan
  {
    if lines == [] then s else Step(ScanLines(s, lines[..|lines| - 1]), lines[|lines| - 1])
  }

  lemma {:induction false} ScanAppend(s: Scan, a: seq<String>, b: seq<String>)
    ensures ScanLines(s, a + b) == ScanLines(ScanLines(s, a), b)
    decreases |b|
  {
    if b == [] {
      assert a + b == a;
    } else {
      assert (a + b)[..|a + b| - 1] == a + b[..|b| - 1];
      ScanAppend(s, a, b[..|b| - 1]);
    }
  }

  /** Once started, the reader keeps every line as it is. */
  lemma {:induction false} ScanKeeps(body: seq<String>, lines: seq<String>)
    ensures ScanLines(Scan(true, body), lines) == Scan(true, body + lines)
    decreases |lines|
  {
    if lines != [] {
      ScanKeeps(body, lines[..|lines| - 1]);
      assert body + lines[..|lines| - 1] + [lines[|lines| - 1]] == body + lines;
    }
  }

  /** Before the first `#` line, the reader keeps nothing. */
  lemma {:induction false} ScanNoHeading(lines: seq<String>)
    requires forall k :: 0 <= k < |lines| ==> !StartsWith(lines[k], "#")
    ensures ScanLines(Scan(false, []), lines) == Scan(false, [])
    decreases |lines|
  {
    if lines != [] {
      ScanNoHeading(lines[..|lines| - 1]);
    }
  }

  /** The body read from a document: everything after the first `#` line, trimmed. */
  function ParseBody(content: String): String
  {
    Trim(Join(ScanLines(Scan(false, []), Split(content, '\n')).body, "\n"))
  }

  /** parse: the loop over the document's lines. */
  method Parse(content: String) returns (body: String)
    ensures body == ParseBody(content)
  {
    var lines := Split(content, '\n');
    var kept: seq<String> := [];
    var started := false;
    var i := 0;
    while i < |lines|
      invariant 0 <= i <= |lines|
      invariant Scan(started, kept) == ScanLines(Scan(false, []), lines[..i])
    {
      assert lines[..i + 1][..i] == lines[..i];
      var line := lines[i];
      if StartsWith(line, "#") && !started {
        started := true;
      } else if started {
        kept := kept + [line];
      }
      i := i + 1;
    }
    assert lines[..i] == lines;
    body := Trim(Join(kept, "\n"));
  }

  /** A document with no `#` line has an empty body. */
  lemma NoHeadingEmpty(content: String)
    requires forall k :: 0 <= k < |Split(content, '\n')| ==> !StartsWith(Split(content, '\n')[k], "#")
    ensures ParseBody(content) == []
  {
    ScanNoHeading(Split(content, '\n'));
    assert Join([], "\n") == [];
  }

  /** The body as it is written: trimmed, or the `- ` placeholder when blank. */
  function BodyLine(body: String): String
  {
    if Trim(body) != [] then Trim(body) else "- "
  }

  function SerializeLines(title: String, body: String): seq<String>
  {
    ["# " + title, "", BodyLine(body), ""]
  }

  function Serialize(title: String, body: String): String
  {
    Join(SerializeLines(title, body), "\n")
  }

  lemma SerializedLines(title: String, body: String)
    requires '\n' !in title
    ensures Split(Serialize(title, body), '\n') == ["# " + title, ""] + Split(BodyLine(body), '\n') + [""]
  {
    var b := BodyLine(body);
    var lines := ["# " + title, ""] + Split(b, '\n') + [""];
    JoinFlatten(["# " + title, ""], b, [""], '\n');
    assert ["# " + title, ""] + [b] + [""] == SerializeLines(title, body);
    assert forall k :: 0 <= k < |lines| ==> '\n' !in lines[k] by {
      forall k | 0 <= k < |lines| ensures '\n' !in lines[k] {
        if 2 <= k < |lines| - 1 {
          assert lines[k] == Split(b, '\n')[k - 2];
        }
      }
    }
    SplitJoin(lines, '\n');
  }

  lemma ScanDocument(title: String, pieces: seq<String>)
    ensures ScanLines(Scan(false, []), ["# " + title, ""] + pieces + [""]).body == [[]] + pieces + [[]]
  {
    var lines := ["# " + title, ""] + pieces + [""];
    assert ("# " + title)[..1] == "#";
    assert lines == ["# " + title] + ([[]] + pieces + [[]]);
    ScanAppend(Scan(false, []), ["# " + title], [[]] + pieces + [[]]);
    assert ScanLines(Scan(false, []), ["# " + title]) == Scan(true, []);
    ScanKeeps([], [[]] + pieces + [[]]);
  }

  /**
   * Reading back a written section gives the trimmed body, or `-` (the
   * placeholder, trimmed) when the body was blank.
   */
  lemma RoundTrip(title: String, body: String)
    requires '\n' !in title
    ensures ParseBody(Serialize(title, body)) == if Trim(body) != [] then Trim(body) else "-"
  {
    var b := BodyLine(body);
    var pieces := Split(b, '\n');
    SerializedLines(title, body);
    ScanDocument(title, pieces);
    JoinBetweenBlanks(pieces, "\n");
    JoinSplit(b, '\n');
    assert ParseBody(Serialize(title, body)) == Trim("\n" + b + "\n");
    BodyLineTrims(body);
  }

  lemma BodyLineTrims(body: String)
    ensures Trim("\n" + BodyLine(body) + "\n") == if Trim(body) != [] then Trim(body) else "-"
  {
    var b := BodyLine(body);
    if Trim(body) != [] {
      TrimPadded("\n", b, "\n");
    } else {
      assert "\n" + b + "\n" == "\n" + "-" + " \n";
      assert AllSpace(" \n") by { assert IsSpace(' ') && IsSpace('\n'); }
      TrimPadded("\n", "-", " \n");
    }
  }

  /**
   * load: an empty (or missing) document is replaced by the written empty
   * section and reads as an empty body; otherwise the body is read.
   */
  function Load(content: String, title: String): (r: (String, Option<String>))
    ensures content == [] ==> r == ([], Some(Serialize(title, [])))
    ensures content != [] ==> r.0 == ParseBody(content) && r.1 == None
  {
    if content == [] then ([], Some(Serialize(title, []))) else (ParseBody(content), None)
  }
}
