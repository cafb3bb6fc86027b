/**
 * Tag normalisation and the YAML front matter every LifePlanner document
 * (except the plain section documents) starts with.
 */
module MarkdownTags {
  import opened Text

  /** A raw tag trimmed, with one leading `#` removed. */
  function CleanTag(raw: String): String
  {
    var t := Trim(raw);
    if StartsWith(t, "#") then t[1..] else t
  }

  /** The key duplicates are detected by: the cleaned tag, lower-cased. */
  function TagKey(tag: String): String
  {
    Lower(tag)
  }

  /** The cleaned form of every raw tag, in order. */
  function CleanTags(raws: seq<String>): (r: seq<String>)
    ensures |r| == |raws| && forall i :: 0 <= i < |raws| ==> r[i] == CleanTag(raws[i])
  {
    seq(|raws|, i requires 0 <= i < |raws| => CleanTag(raws[i]))
  }

  /** The keys of a list of tags. */
  function KeysOf(tags: seq<String>): set<String>
  {
    if tags == [] then {} else {TagKey(tags[0])} + KeysOf(tags[1..])
  }

  /**
   * The cleaned tags kept when the keys in `seen` are already taken: each
   * non-empty tag whose key was not taken before, in input order.
   */
  function Dedupe(cleaned: seq<String>, seen: set<String>): seq<String>
  {
    if cleaned == [] then []
    else if cleaned[0] == [] || TagKey(cleaned[0]) in seen then Dedupe(cleaned[1..], seen)
    else [cleaned[0]] + Dedupe(cleaned[1..], seen + {TagKey(cleaned[0])})
  }

  function NormalizedTags(raws: seq<String>): seq<String>
  {
    Dedupe(CleanTags(raws), {})
  }

  /** normalizeTags: the loop over the raw tags with a set of keys already taken. */
  method NormalizeTags(raws: seq<String>) returns (tags: seq<String>)
    ensures tags == NormalizedTags(raws)
    ensures forall i, j :: 0 <= i < j < |tags| ==> TagKey(tags[i]) != TagKey(tags[j])
  {
    var seen: set<String> := {};
    tags := [];
    var i := 0;
    ghost var all := CleanTags(raws);
    while i < |raws|
      invariant 0 <= i <= |raws|
      invariant tags + Dedupe(all[i..], seen) == NormalizedTags(raws)
    {
      var cleaned := CleanTag(raws[i]);
      DedupeAt(all, i, seen);
      if cleaned != [] && TagKey(cleaned) !in seen {
        ConcatAssoc(tags, [cleaned], Dedupe(all[i + 1..], seen + {TagKey(cleaned)}));
        seen := seen + {TagKey(cleaned)};
        tags := tags + [cleaned];
      }
      i := i + 1;
    }
    assert all[i..] == [];
    NormalizedDistinct(raws);
  }

  /** One step of Dedupe, at position `i` of the cleaned tags. */
  lemma DedupeAt(all: seq<String>, i: nat, seen: set<String>)
    requires i < |all|
    ensures Dedupe(all[i..], seen)
         == if all[i] == [] || TagKey(all[i]) in seen then Dedupe(all[i + 1..], seen)
            else [all[i]] + Dedupe(all[i + 1..], seen + {TagKey(all[i])})
  {
    assert all[i..][0] == all[i] && all[i..][1..] == all[i + 1..];
  }

  lemma {:induction false} DedupeFresh(cleaned: seq<String>, seen: set<String>)
    ensures |Dedupe(cleaned, seen)| <= |cleaned|
    ensures KeysOf(Dedupe(cleaned, seen)) !! seen
    ensures forall k :: 0 <= k < |Dedupe(cleaned, seen)| ==>
      Dedupe(cleaned, seen)[k] != [] && Dedupe(cleaned, seen)[k] in cleaned
  {
    if cleaned != [] {
      var c := cleaned[0];
      if c == [] || TagKey(c) in seen {
        DedupeFresh(cleaned[1..], seen);
      } else {
        DedupeFresh(cleaned[1..], seen + {TagKey(c)});
        var rest := Dedupe(cleaned[1..], seen + {TagKey(c)});
        assert ([c] + rest)[1..] == rest;
      }
    }
  }

  lemma {:induction false} KeysOfDistinct(tags: seq<String>, i: nat, j: nat)
    requires i < j < |tags|
    ensures TagKey(tags[j]) in KeysOf(tags[i + 1..])
  {
    if i + 1 < j {
      KeysOfDistinct(tags[1..], i, j - 1);
      assert tags[1..][i + 1..] == tags[i + 2..];
      assert tags[i + 1..][1..] == tags[i + 2..];
    } else {
      assert tags[i + 1..][0] == tags[j];
    }
  }

  lemma {:induction false} DedupeDistinct(cleaned: seq<String>, seen: set<String>)
    ensures forall i, j :: 0 <= i < j < |Dedupe(cleaned, seen)| ==>
      TagKey(Dedupe(cleaned, seen)[i]) != TagKey(Dedupe(cleaned, seen)[j])
  {
    if cleaned != [] {
      var c := cleaned[0];
      if c == [] || TagKey(c) in seen {
        DedupeDistinct(cleaned[1..], seen);
      } else {
        var seen2 := seen + {TagKey(c)};
        DedupeDistinct(cleaned[1..], seen2);
        DedupeFresh(cleaned[1..], seen2);
        var rest := Dedupe(cleaned[1..], seen2);
        var r := Dedupe(cleaned, seen);
        assert r == [c] + rest;
        forall i, j | 0 <= i < j < |r| ensures TagKey(r[i]) != TagKey(r[j]) {
          assert r[j] == rest[j - 1];
          if i > 0 {
            assert r[i] == rest[i - 1];
          } else {
            KeysOfDistinct(r, 0, j);
            assert r[1..] == rest;
          }
        }
      }
    }
  }

  /** No two kept tags are the same ignoring case; none is empty; there are no more than raw tags. */
  lemma NormalizedDistinct(raws: seq<String>)
    ensures forall i, j :: 0 <= i < j < |NormalizedTags(raws)| ==>
      TagKey(NormalizedTags(raws)[i]) != TagKey(NormalizedTags(raws)[j])
    ensures forall k :: 0 <= k < |NormalizedTags(raws)| ==> NormalizedTags(raws)[k] != []
    ensures |NormalizedTags(raws)| <= |raws|
  {
    DedupeFresh(CleanTags(raws), {});
    DedupeDistinct(CleanTags(raws), {});
  }

  lemma {:induction false} DedupeCovers(cleaned: seq<String>, seen: set<String>, j: nat)
    requires j < |cleaned| && cleaned[j] != []
    ensures TagKey(cleaned[j]) in seen + KeysOf(Dedupe(cleaned, seen))
  {
    var c := cleaned[0];
    var skip := c == [] || TagKey(c) in seen;
    var next := if skip then seen else seen + {TagKey(c)};
    var rest := Dedupe(cleaned[1..], next);
    var r := Dedupe(cleaned, seen);
    assert r == if skip then rest else [c] + rest;
    if !skip {
      assert r[1..] == rest;
    }
    if j > 0 {
      assert cleaned[1..][j - 1] == cleaned[j];
      DedupeCovers(cleaned[1..], next, j - 1);
    }
  }

  /**
   * Every kept tag is the cleaned form of one of the raw tags, and every raw tag
   * that is not blank (after removing one `#`) has a kept tag with its key.
   */
  lemma NormalizedCovers(raws: seq<String>, j: nat)
    requires j < |raws| && CleanTag(raws[j]) != []
    ensures TagKey(CleanTag(raws[j])) in KeysOf(NormalizedTags(raws))
    ensures forall k :: 0 <= k < |NormalizedTags(raws)| ==> NormalizedTags(raws)[k] in CleanTags(raws)
  {
    DedupeCovers(CleanTags(raws), {}, j);
    DedupeFresh(CleanTags(raws), {});
  }

  /** The keys of the non-empty tags before position `i`. */
  function SeenKeys(cleaned: seq<String>, i: nat): set<String>
    requires i <= |cleaned|
  {
    set j | 0 <= j < i && cleaned[j] != [] :: TagKey(cleaned[j])
  }

  /** Position `i` holds the first non-empty tag with its key. */
  predicate FirstOfKey(cleaned: seq<String>, i: nat)
    requires i < |cleaned|
  {
    cleaned[i] != [] && forall j :: 0 <= j < i && cleaned[j] != [] ==> TagKey(cleaned[j]) != TagKey(cleaned[i])
  }

  /** The tags among the first `n` that are the first non-empty ones with their key, in order. */
  function KeepFirsts(cleaned: seq<String>, n: nat): seq<String>
    requires n <= |cleaned|
  {
    if n == 0 then []
    else KeepFirsts(cleaned, n - 1) + (if FirstOfKey(cleaned, n - 1) then [cleaned[n - 1]] else [])
  }

  lemma SeenKeysStep(cleaned: seq<String>, i: nat)
    requires i < |cleaned|
    ensures SeenKeys(cleaned, i + 1)
         == SeenKeys(cleaned, i) + (if cleaned[i] != [] then {TagKey(cleaned[i])} else {})
    ensures FirstOfKey(cleaned, i) <==> cleaned[i] != [] && TagKey(cleaned[i]) !in SeenKeys(cleaned, i)
  {
    var a := SeenKeys(cleaned, i + 1);
    var b := SeenKeys(cleaned, i) + (if cleaned[i] != [] then {TagKey(cleaned[i])} else {});
    forall x | x in a ensures x in b {
      var j :| 0 <= j < i + 1 && cleaned[j] != [] && TagKey(cleaned[j]) == x;
    }
    if TagKey(cleaned[i]) in SeenKeys(cleaned, i) {
      var j :| 0 <= j < i && cleaned[j] != [] && TagKey(cleaned[j]) == TagKey(cleaned[i]);
    }
  }

  /** What Dedupe keeps from position `i` on, with the keys before it taken, completes KeepFirsts. */
  lemma {:induction false} DedupeFirsts(cleaned: seq<String>, i: nat)
    requires i <= |cleaned|
    ensures KeepFirsts(cleaned, |cleaned|) == KeepFirsts(cleaned, i) + Dedupe(cleaned[i..], SeenKeys(cleaned, i))
    decreases |cleaned| - i
  {
    if i == |cleaned| {
      assert cleaned[i..] == [];
    } else {
      DedupeFirsts(cleaned, i + 1);
      FirstsStep(cleaned, i);
    }
  }

  lemma FirstsStep(cleaned: seq<String>, i: nat)
    requires i < |cleaned|
    ensures KeepFirsts(cleaned, i) + Dedupe(cleaned[i..], SeenKeys(cleaned, i))
         == KeepFirsts(cleaned, i + 1) + Dedupe(cleaned[i + 1..], SeenKeys(cleaned, i + 1))
  {
    DedupeAt(cleaned, i, SeenKeys(cleaned, i));
    SeenKeysStep(cleaned, i);
    var seen := SeenKeys(cleaned, i);
    if FirstOfKey(cleaned, i) {
      ConcatAssoc(KeepFirsts(cleaned, i), [cleaned[i]], Dedupe(cleaned[i + 1..], SeenKeys(cleaned, i + 1)));
    } else {
      assert SeenKeys(cleaned, i + 1) == seen;
      assert KeepFirsts(cleaned, i + 1) == KeepFirsts(cleaned, i) + [];
    }
  }

  /**
   * The kept tags are exactly the cleaned tags that are the first non-empty
   * ones with their key, in input order: an order-preserving selection.
   */
  lemma NormalizedFirsts(raws: seq<String>)
    ensures NormalizedTags(raws) == KeepFirsts(CleanTags(raws), |raws|)
  {
    var c := CleanTags(raws);
    DedupeFirsts(c, 0);
    NoneSeen(c);
    assert c[0..] == c;
  }

  lemma NoneSeen(cleaned: seq<String>)
    ensures SeenKeys(cleaned, 0) == {}
  {
  }

  /** The front matter block listing `tags`; empty when there are none. */
  function Frontmatter(tags: seq<String>): (r: seq<String>)
    ensures tags == [] ==> r == []
    ensures tags != [] ==>
      |r| == |tags| + 4 && r[0] == "---" && r[1] == "tags:" && r[|r| - 2] == "---" && r[|r| - 1] == []
    ensures tags != [] ==> forall k :: 0 <= k < |tags| ==> r[k + 2] == "  - " + tags[k]
  {
    if tags == [] then []
    else ["---", "tags:"] + seq(|tags|, k requires 0 <= k < |tags| => "  - " + tags[k]) + ["---", ""]
  }

  /** prependTagFrontmatter: the document's own lines follow the front matter unchanged. */
  function PrependTagFrontmatter(lines: seq<String>, rawTags: seq<String>): (r: seq<String>)
    ensures r == Frontmatter(NormalizedTags(rawTags)) + lines
    ensures r[|r| - |lines|..] == lines
    ensures NormalizedTags(rawTags) == [] <==> r == lines
  {
    Frontmatter(NormalizedTags(rawTags)) + lines
  }

  /** The shape of every front matter line, which the document readers skip. */
  predicate FrontmatterLine(line: String)
  {
    line == "---" || line == "tags:" || line == [] || StartsWith(line, "  - ")
  }

  lemma FrontmatterShape(tags: seq<String>)
    ensures forall k :: 0 <= k < |Frontmatter(tags)| ==> FrontmatterLine(Frontmatter(tags)[k])
  {
    var r := Frontmatter(tags);
    forall k | 0 <= k < |r| ensures FrontmatterLine(r[k]) {
      if 2 <= k < |r| - 2 {
        assert r[k] == "  - " + tags[k - 2];
        assert r[k][..4] == "  - ";
      }
    }
  }

  lemma CleanTagNoBreak(raw: String)
    requires '\n' !in raw
    ensures '\n' !in CleanTag(raw)
  {
    var t := Trim(raw);
    TrimChars(raw);
    assert '\n' !in t;
    if StartsWith(t, "#") {
      assert forall c :: c in t[1..] ==> c in t;
    }
  }

  predicate NoBreaks(tags: seq<String>)
  {
    forall k :: 0 <= k < |tags| ==> '\n' !in tags[k]
  }

  /** Normalising never introduces a line break. */
  lemma NormalizedNoBreaks(raws: seq<String>)
    requires NoBreaks(raws)
    ensures NoBreaks(NormalizedTags(raws))
  {
    var all := CleanTags(raws);
    var tags := NormalizedTags(raws);
    DedupeFresh(all, {});
    forall k | 0 <= k < |tags| ensures '\n' !in tags[k] {
      assert tags[k] in all;
      var i :| 0 <= i < |all| && tags[k] == all[i];
      CleanTagNoBreak(raws[i]);
    }
  }

  /** Tags without line breaks keep the front matter one line per entry. */
  lemma FrontmatterNoBreaks(tags: seq<String>)
    requires NoBreaks(tags)
    ensures NoBreaks(Frontmatter(tags))
  {
    var r := Frontmatter(tags);
    forall k | 0 <= k < |r| ensures '\n' !in r[k] {
      if 2 <= k < |r| - 2 {
        assert r[k] == "  - " + tags[k - 2];
        assert '\n' !in "  - ";
      }
    }
  }

  lemma NoBreaksConcat(a: seq<String>, b: seq<String>)
    requires NoBreaks(a) && NoBreaks(b)
    ensures NoBreaks(a + b)
  {
    forall k | 0 <= k < |a + b| ensures '\n' !in (a + b)[k] {
      if k >= |a| {
        assert (a + b)[k] == b[k - |a|];
      }
    }
  }

  /** A document written one line per entry splits back into its lines, front matter included. */
  lemma DocumentSplit(lines: seq<String>, tags: seq<String>)
    requires lines != [] && NoBreaks(lines) && NoBreaks(tags)
    ensures Split(Join(PrependTagFrontmatter(lines, tags), "\n"), '\n') == PrependTagFrontmatter(lines, tags)
  {
    NormalizedNoBreaks(tags);
    FrontmatterNoBreaks(NormalizedTags(tags));
    NoBreaksConcat(Frontmatter(NormalizedTags(tags)), lines);
    var all := PrependTagFrontmatter(lines, tags);
    assert forall k :: 0 <= k < |all| ==> '\n' !in all[k];
    SplitJoin(all, '\n');
  }

  /** A line that does not start with `#` does not start with `##`. */
  lemma NoHashStart(line: String)
    requires line == [] || line[0] != '#'
    ensures !StartsWith(line, "##")
  {
    if |line| >= 2 {
      assert line[..2][0] == line[0];
    }
  }

  /** No front matter line starts with `##`, so none is read as a heading. */
  lemma FrontmatterNoHeading(tags: seq<String>)
    ensures forall k :: 0 <= k < |Frontmatter(tags)| ==> !StartsWith(Frontmatter(tags)[k], "##")
  {
    var fm := Frontmatter(tags);
    FrontmatterShape(tags);
    forall k | 0 <= k < |fm| ensures !StartsWith(fm[k], "##") {
      var line := fm[k];
      assert FrontmatterLine(line);
      if line == "---" {
        assert line[0] == '-';
      } else if line == "tags:" {
        assert line[0] == 't';
      } else if line != [] {
        assert line[..4][0] == ' ';
      }
      NoHashStart(line);
    }
  }
}
