/**
 * The inbox checklist document: `- [ ] text` lines whose text may end in
 * ` [ts:N]` and ` [dest:D]` tokens, and the inbox operations on its items.
 */
module Inbox {
  import opened Text
  import opened MarkdownTags

  datatype InboxStatus = New | Triaged

  /** The destination is kept as the text read; `none` means not yet triaged. */
  datatype InboxItem = InboxItem(
    id: String,
    content: String,
    createdAt: Option<int>,
    tags: Option<seq<String>>,
    destination: String,
    status: InboxStatus)

  const NoDestination: String := "none"

  function StatusFor(destination: String): InboxStatus
  {
    if destination == NoDestination then New else Triaged
  }

  // ---------------------------------------------------------------------
  // extractMetadata: the trailing-token pattern `\s\[(ts|dest):([^\]]+)\]\s*$`

  /** A token for `key` matches at `i`: white space, `[key:`, a value without `]`, `]`, then only white space. */
  predicate TokenAt(s: String, i: nat, key: String)
  {
    var vs := i + |key| + 3;
    vs <= |s| && IsSpace(s[i]) && s[i + 1] == '[' && s[i + 2..i + 2 + |key|] == key && s[i + 2 + |key|] == ':'
    && var j := vs + IndexOf(s[vs..], ']'); vs < j < |s| && AllSpace(s[j + 1..])
  }

  function TokenValue(s: String, i: nat, key: String): String
    requires TokenAt(s, i, key)
  {
    var vs := i + |key| + 3;
    s[vs..vs + IndexOf(s[vs..], ']')]
  }

  datatype Meta = Meta(index: nat, key: String, value: String)

  /** The leftmost match at or after `i`; at one position `ts` is tried before `dest`. */
  function FindMeta(s: String, i: nat): (r: Option<Meta>)
    ensures r.Some? ==> i <= r.value.index < |s| && (r.value.key == "ts" || r.value.key == "dest")
    ensures r.Some? ==> TokenAt(s, r.value.index, r.value.key) && r.value.value == TokenValue(s, r.value.index, r.value.key)
    decreases |s| - i
  {
    if i >= |s| then None
    else if TokenAt(s, i, "ts") then Some(Meta(i, "ts", TokenValue(s, i, "ts")))
    else if TokenAt(s, i, "dest") then Some(Meta(i, "dest", TokenValue(s, i, "dest")))
    else FindMeta(s, i + 1)
  }

  datatype Extracted = Extracted(content: String, ts: Option<String>, dest: Option<String>)

  /** Strips tokens from the end while one matches; a token found later (further left) overwrites its key. */
  function ExtractFrom(content: String, ts: Option<String>, dest: Option<String>): (r: Extracted)
    ensures FindMeta(r.content, 0) == None
    ensures Trimmed(content) ==> Trimmed(r.content)
    ensures |r.content| <= |content|
    decreases |content|
  {
    match FindMeta(content, 0)
    case None => Extracted(content, ts, dest)
    case Some(m) =>
      ExtractFrom(Trim(content[..m.index]),
        if m.key == "ts" then Some(m.value) else ts,
        if m.key == "dest" then Some(m.value) else dest)
  }

  function ExtractMetadata(raw: String): Extracted
  {
    ExtractFrom(Trim(raw), None, None)
  }

  /** extractMetadata: the loop removing one trailing token per round. */
  method ExtractLoop(raw: String) returns (e: Extracted)
    ensures e == ExtractMetadata(raw)
    ensures FindMeta(e.content, 0) == None && Trimmed(e.content)
  {
    var content := Trim(raw);
    var ts: Option<String> := None;
    var dest: Option<String> := None;
    var m := FindMeta(content, 0);
    while m.Some?
      invariant m == FindMeta(content, 0)
      invariant ExtractFrom(content, ts, dest) == ExtractMetadata(raw)
      invariant Trimmed(content)
      decreases |content|
    {
      if m.value.key == "ts" {
        ts := Some(m.value.value);
      } else {
        dest := Some(m.value.value);
      }
      content := Trim(content[..m.value.index]);
      m := FindMeta(content, 0);
    }
    e := Extracted(content, ts, dest);
  }

  /** parseTimestamp: a missing or empty text is no timestamp; otherwise its decimal value, if any. */
  function ParseTimestamp(raw: Option<String>): Option<int>
  {
    if raw.None? || raw.value == [] then None else ParseNumber(raw.value)
  }

  // ---------------------------------------------------------------------
  // reading

  /** The group captured by `^- \[.\] (.+)$`. */
  function LineItem(line: String): (r: Option<String>)
    ensures r.Some? ==> r.value != [] && SingleLine(r.value)
  {
    if |line| >= 7 && line[..3] == "- [" && !IsLineTerminator(line[3]) && line[4..6] == "] " && SingleLine(line[6..])
    then Some(line[6..])
    else None
  }

  /** The captured text of every item line, in order. */
  function Groups(lines: seq<String>): seq<String>
  {
    if lines == [] then []
    else Groups(lines[..|lines| - 1]) + (match LineItem(lines[|lines| - 1]) case Some(g) => [g] case None => [])
  }

  function ReadItem(raw: String, index: nat): InboxItem
  {
    var e := ExtractMetadata(raw);
    var destination := if e.dest.Some? && e.dest.value != [] then e.dest.value else NoDestination;
    InboxItem("inbox-" + IntToString(index), e.content, ParseTimestamp(e.ts), None, destination, StatusFor(destination))
  }

  function ReadAll(groups: seq<String>): (r: seq<InboxItem>)
    ensures |r| == |groups|
  {
    seq(|groups|, k requires 0 <= k < |groups| => ReadItem(groups[k], k))
  }

  function ParseItems(content: String): seq<InboxItem>
  {
    ReadAll(Groups(Split(content, '\n')))
  }

  /** parseInboxItems: the loop over the document's lines. */
  method ReadItems(content: String) returns (items: seq<InboxItem>)
    ensures items == ParseItems(content)
  {
    var lines := Split(content, '\n');
    ghost var groups: seq<String> := [];
    items := [];
    var i := 0;
    while i < |lines|
      invariant 0 <= i <= |lines|
      invariant groups == Groups(lines[..i]) && items == ReadAll(groups)
    {
      assert lines[..i + 1][..i] == lines[..i];
      var m := LineItem(lines[i]);
      if m.Some? {
        var parsed := ExtractLoop(m.value);
        var destination := if parsed.dest.Some? && parsed.dest.value != [] then parsed.dest.value else NoDestination;
        var item := InboxItem("inbox-" + IntToString(|items|), parsed.content, ParseTimestamp(parsed.ts), None,
          destination, StatusFor(destination));
        assert item == ReadItem(m.value, |groups|);
        ReadAllAppend(groups, m.value);
        items := items + [item];
        groups := groups + [m.value];
      }
      i := i + 1;
    }
    assert lines[..i] == lines;
  }

  lemma ReadAllAppend(groups: seq<String>, g: String)
    ensures ReadAll(groups + [g]) == ReadAll(groups) + [ReadItem(g, |groups|)]
  {
    assert ReadAll(groups + [g])[..|groups|] == ReadAll(groups);
  }

  /** Every item read has a positional id, trimmed content free of tokens, and a status that follows its destination. */
  lemma ParsedShape(content: String)
    ensures var r := ParseItems(content);
      forall k :: 0 <= k < |r| ==>
        r[k].id == "inbox-" + IntToString(k) && Trimmed(r[k].content) && FindMeta(r[k].content, 0) == None
        && r[k].destination != [] && r[k].status == StatusFor(r[k].destination) && r[k].tags == None
  {
  }

  // ---------------------------------------------------------------------
  // writing

  /** The tokens written after an item's content: `ts` when it has a creation time, `dest` when triaged. */
  function Tokens(item: InboxItem): seq<String>
  {
    (if item.createdAt.Some? then [TokenBody("ts", IntToString(item.createdAt.value))] else [])
    + (if item.destination != NoDestination then [TokenBody("dest", item.destination)] else [])
  }

  /** `key:value`, the text between a token's brackets. */
  function TokenBody(key: String, v: String): String
  {
    key + ":" + v
  }

  function Bracketed(tokens: seq<String>): (r: seq<String>)
    ensures |r| == |tokens| && forall k :: 0 <= k < |tokens| ==> r[k] == "[" + tokens[k] + "]"
  {
    seq(|tokens|, k requires 0 <= k < |tokens| => "[" + tokens[k] + "]")
  }

  /** The written tokens, each in brackets after one space. */
  function SuffixOf(tokens: seq<String>): String
  {
    if tokens == [] then [] else " " + Join(Bracketed(tokens), " ")
  }

  function Suffix(item: InboxItem): String
  {
    SuffixOf(Tokens(item))
  }

  function ItemLine(item: InboxItem): String
  {
    "- [ ] " + item.content + Suffix(item)
  }

  function ItemLines(items: seq<InboxItem>): (r: seq<String>)
    ensures |r| == if items == [] then 1 else |items|
  {
    if items == [] then ["- [ ] "] else seq(|items|, k requires 0 <= k < |items| => ItemLine(items[k]))
  }

  function SerializeLines(items: seq<InboxItem>): seq<String>
  {
    ["# Inbox", ""] + ItemLines(items) + [""]
  }

  function Serialize(items: seq<InboxItem>, tags: seq<String>): String
  {
    Join(PrependTagFrontmatter(SerializeLines(items), tags), "\n")
  }

  /** serializeInboxItems: the loop pushing one line per item. */
  method WriteItems(items: seq<InboxItem>, tags: seq<String>) returns (content: String)
    ensures content == Serialize(items, tags)
  {
    var lines := ["# Inbox", ""];
    if |items| == 0 {
      lines := lines + ["- [ ] "];
    } else {
      ghost var all := ItemLines(items);
      var i := 0;
      while i < |items|
        invariant 0 <= i <= |items|
        invariant lines == ["# Inbox", ""] + all[..i]
      {
        assert all[..i + 1] == all[..i] + [ItemLine(items[i])] by { TakeSnoc(all, i); }
        lines := lines + [ItemLine(items[i])];
        i := i + 1;
      }
      assert all[..i] == all;
    }
    lines := lines + [""];
    assert lines == SerializeLines(items);
    content := Join(PrependTagFrontmatter(lines, tags), "\n");
  }

  // ---------------------------------------------------------------------
  // round trip

  /** White space, `[` and `key:` at `k`: the way a token opens. */
  predicate OpensToken(c: String, k: nat, key: String)
  {
    k + |key| + 3 <= |c| && IsSpace(c[k]) && c[k + 1] == '[' && c[k + 2..k + 2 + |key|] == key && c[k + 2 + |key|] == ':'
  }

  /** Every ` [ts:` and ` [dest:` in the text is closed by a later `]`. */
  predicate Closed(c: String)
  {
    forall k :: 0 <= k < |c| && (OpensToken(c, k, "ts") || OpensToken(c, k, "dest")) ==> ']' in c[k + 2..]
  }

  /**
   * An item that reads back as itself: non-blank trimmed one-line content that
   * does not end in a token and leaves no ` [ts:` or ` [dest:` open, and a
   * one-line destination without `]`.
   */
  predicate PlainItem(item: InboxItem)
  {
    var c := item.content;
    c != [] && Trimmed(c) && SingleLine(c) && FindMeta(c, 0) == None && Closed(c)
    && (item.destination != NoDestination ==>
          item.destination != [] && SingleLine(item.destination) && ']' !in item.destination)
  }

  /** What reading back a written item gives: the positional id, no tags, the status its destination implies. */
  function ReadBack(item: InboxItem, index: nat): InboxItem
  {
    InboxItem("inbox-" + IntToString(index), item.content, item.createdAt, None, item.destination,
      StatusFor(item.destination))
  }

  function ReadBackAll(items: seq<InboxItem>): (r: seq<InboxItem>)
    ensures |r| == |items|
  {
    seq(|items|, k requires 0 <= k < |items| => ReadBack(items[k], k))
  }

  lemma {:induction false} FindMetaSkip(s: String, i: nat, j: nat)
    requires i <= j <= |s|
    requires forall k :: i <= k < j ==> !TokenAt(s, k, "ts") && !TokenAt(s, k, "dest")
    ensures FindMeta(s, i) == FindMeta(s, j)
    decreases j - i
  {
    if i < j {
      FindMetaSkip(s, i + 1, j);
      FindMetaStep(s, i);
    }
  }

  lemma FindMetaStep(s: String, i: nat)
    requires i < |s| && !TokenAt(s, i, "ts") && !TokenAt(s, i, "dest")
    ensures FindMeta(s, i) == FindMeta(s, i + 1)
  {
  }

  /** A `]` after `k` and before a last character that is not white space rules out a token at `k`. */
  lemma NoTokenBefore(s: String, k: nat, p: nat, key: String)
    requires key == "ts" || key == "dest"
    requires k + 2 <= p < |s| - 1 && s[p] == ']' && !IsSpace(s[|s| - 1])
    ensures !TokenAt(s, k, key)
  {
    var vs := k + |key| + 3;
    if vs <= |s| && s[k + 2..k + 2 + |key|] == key && s[k + 2 + |key|] == ':' {
      assert forall q :: k + 2 <= q < k + 2 + |key| ==> s[q] == s[k + 2..k + 2 + |key|][q - k - 2];
      assert p >= vs;
      assert s[vs..][p - vs] == ']';
      var j := vs + IndexOf(s[vs..], ']');
      assert j <= p;
      assert s[j + 1..][|s| - 1 - (j + 1)] == s[|s| - 1];
    }
  }

  function TokenText(key: String, v: String): String
  {
    " [" + TokenBody(key, v) + "]"
  }

  lemma TokenAtEnd(c: String, key: String, v: String)
    requires key == "ts" || key == "dest"
    requires v != [] && ']' !in v
    ensures TokenAt(c + TokenText(key, v), |c|, key)
    ensures TokenValue(c + TokenText(key, v), |c|, key) == v
  {
    var s := c + TokenText(key, v);
    var vs := |c| + |key| + 3;
    TokenOpens(c, key, v);
    TokenTail(c, key, v);
    IndexOfEnd(v, ']');
    assert s[vs..vs + |v|] == s[vs..][..|v|] == v;
  }

  /** The appended token opens right after the content. */
  lemma TokenOpens(c: String, key: String, v: String)
    requires key == "ts" || key == "dest"
    ensures OpensToken(c + TokenText(key, v), |c|, key)
  {
    var s := c + TokenText(key, v);
    assert s[|c|..] == " [" + (key + ":" + v) + "]";
    assert s[|c| + 2..|c| + 2 + |key|] == s[|c|..][2..2 + |key|];
    assert s[|c| + 2 + |key|] == s[|c|..][2 + |key|];
  }

  /** After the appended token's `key:` come its value and the closing `]`. */
  lemma TokenTail(c: String, key: String, v: String)
    ensures (c + TokenText(key, v))[|c| + |key| + 3..] == v + "]"
  {
    var s := c + TokenText(key, v);
    assert s[|c|..] == " [" + (key + ":" + v) + "]";
    assert s[|c| + |key| + 3..] == s[|c|..][|key| + 3..];
  }

  lemma NotTsAtDest(c: String, v: String)
    ensures !TokenAt(c + TokenText("dest", v), |c|, "ts")
  {
    var s := c + TokenText("dest", v);
    if |c| + 6 <= |s| {
      assert s[|c| + 2] == 'd';
      assert s[|c| + 2..|c| + 4][0] == s[|c| + 2];
    }
  }

  /**
   * A closed trimmed content followed by text that starts with a space and ends
   * in a visible character has no token inside the content.
   */
  lemma NoTokenInside(c: String, t: String, k: nat)
    requires c != [] && Trimmed(c) && Closed(c) && t != [] && t[0] == ' ' && !IsSpace(t[|t| - 1])
    requires k < |c|
    ensures !TokenAt(c + t, k, "ts") && !TokenAt(c + t, k, "dest")
  {
    NoKeyInside(c, t, k, "ts");
    NoKeyInside(c, t, k, "dest");
  }

  lemma NoKeyInside(c: String, t: String, k: nat, key: String)
    requires key == "ts" || key == "dest"
    requires c != [] && Trimmed(c) && Closed(c) && t != [] && t[0] == ' ' && !IsSpace(t[|t| - 1])
    requires k < |c|
    ensures !TokenAt(c + t, k, key)
  {
    var s := c + t;
    if TokenAt(s, k, key) {
      OpensInside(c, t, k, key);
      var q :| 0 <= q < |c[k + 2..]| && c[k + 2..][q] == ']';
      assert s[k + 2 + q] == ']' && s[|s| - 1] == t[|t| - 1];
      NoTokenBefore(s, k, k + 2 + q, key);
      assert false;
    }
  }

  /** A token found at `k` inside the content opens inside the content: a space follows the content. */
  lemma OpensInside(c: String, t: String, k: nat, key: String)
    requires key == "ts" || key == "dest"
    requires c != [] && Trimmed(c) && t != [] && t[0] == ' ' && k < |c|
    requires TokenAt(c + t, k, key)
    ensures OpensToken(c, k, key)
  {
    var s := c + t;
    var e := k + 2 + |key|;
    assert k + 1 < |c| by {
      assert s[|c| - 1] == c[|c| - 1];
    }
    forall p | k + 2 <= p <= e ensures !IsSpace(s[p]) {
      if p < e {
        assert s[p] == s[k + 2..e][p - k - 2] == key[p - k - 2];
      }
    }
    assert s[|c|] == t[0];
    assert e < |c|;
    assert c[k + 2..e] == s[k + 2..e];
  }

  /** The leftmost token in content-then-token is the appended token. */
  lemma FindMetaAppend(c: String, key: String, v: String)
    requires key == "ts" || key == "dest"
    requires c != [] && Trimmed(c) && Closed(c) && v != [] && ']' !in v
    ensures FindMeta(c + TokenText(key, v), 0) == Some(Meta(|c|, key, v))
  {
    var t := TokenText(key, v);
    var s := c + t;
    assert t[0] == ' ' && t[|t| - 1] == ']';
    forall k | 0 <= k < |c| ensures !TokenAt(s, k, "ts") && !TokenAt(s, k, "dest") {
      NoTokenInside(c, t, k);
    }
    FindMetaSkip(s, 0, |c|);
    TokenAtEnd(c, key, v);
    if key == "dest" {
      NotTsAtDest(c, v);
    }
  }

  /** Removing the appended token leaves the content. */
  lemma ExtractOne(c: String, key: String, v: String, ts: Option<String>, dest: Option<String>)
    requires key == "ts" || key == "dest"
    requires c != [] && Trimmed(c) && Closed(c) && v != [] && ']' !in v
    ensures ExtractFrom(c + TokenText(key, v), ts, dest)
      == ExtractFrom(c, if key == "ts" then Some(v) else ts, if key == "dest" then Some(v) else dest)
  {
    FindMetaAppend(c, key, v);
    var s := c + TokenText(key, v);
    assert s[..|c|] == c;
    TrimOfTrimmed(c);
  }

  function TsPart(item: InboxItem): String
  {
    if item.createdAt.Some? then TokenText("ts", IntToString(item.createdAt.value)) else []
  }

  function DestPart(item: InboxItem): String
  {
    if item.destination != NoDestination then TokenText("dest", item.destination) else []
  }

  lemma BracketedOne(t: String)
    ensures SuffixOf([t]) == " [" + t + "]"
  {
    assert Bracketed([t]) == ["[" + t + "]"];
    JoinTwo("[" + t + "]", [], " ");
  }

  lemma BracketedTwo(t: String, u: String)
    ensures SuffixOf([t, u]) == " [" + t + "]" + " [" + u + "]"
  {
    assert Bracketed([t, u]) == ["[" + t + "]", "[" + u + "]"];
    JoinTwo("[" + t + "]", "[" + u + "]", " ");
  }

  /** The written suffix is the `ts` token, then the `dest` token, each after one space. */
  lemma SuffixParts(item: InboxItem)
    ensures Suffix(item) == TsPart(item) + DestPart(item)
  {
    var t := if item.createdAt.Some? then TokenBody("ts", IntToString(item.createdAt.value)) else [];
    var u := TokenBody("dest", item.destination);
    if item.createdAt.Some? && item.destination != NoDestination {
      assert Tokens(item) == [t, u];
      BracketedTwo(t, u);
    } else if item.createdAt.Some? {
      assert Tokens(item) == [t];
      BracketedOne(t);
    } else if item.destination != NoDestination {
      assert Tokens(item) == [u];
      BracketedOne(u);
    } else {
      assert Tokens(item) == [];
    }
  }

  lemma IntStringShape(i: int)
    ensures IntToString(i) != [] && ']' !in IntToString(i) && '[' !in IntToString(i) && SingleLine(IntToString(i))
    ensures !IsSpace(IntToString(i)[0])
  {
    var d := NatToString(if i < 0 then -i else i);
    assert forall c :: c in d ==> IsDigit(c);
  }

  /** Text that ends in `]` leaves no token open. */
  lemma ClosedByLast(c: String)
    requires c != [] && c[|c| - 1] == ']'
    ensures Closed(c)
  {
    forall k | 0 <= k < |c| && (OpensToken(c, k, "ts") || OpensToken(c, k, "dest")) ensures ']' in c[k + 2..] {
      assert c[k + 2..][|c| - 1 - (k + 2)] == ']';
    }
  }

  lemma TsPartClosed(c: String, item: InboxItem)
    requires c != [] && Trimmed(c) && item.createdAt.Some?
    ensures var c2 := c + TsPart(item); c2 != [] && Trimmed(c2) && Closed(c2)
  {
    var c2 := c + TsPart(item);
    assert c2[0] == c[0] && c2[|c2| - 1] == ']';
    ClosedByLast(c2);
  }

  /** The written text of an item with plain content is trimmed. */
  lemma RawTrimmed(item: InboxItem)
    requires PlainItem(item)
    ensures Trimmed(item.content + TsPart(item) + DestPart(item))
  {
    var c := item.content;
    var raw := c + TsPart(item) + DestPart(item);
    assert raw[0] == c[0];
    if TsPart(item) + DestPart(item) == [] {
      assert raw == c;
    } else {
      assert raw[|raw| - 1] == ']';
    }
  }

  /** The content with its `ts` token is what the `dest` token's removal leaves. */
  lemma TsClosed(item: InboxItem)
    requires PlainItem(item)
    ensures var c2 := item.content + TsPart(item); c2 != [] && Trimmed(c2) && Closed(c2)
  {
    if item.createdAt.Some? {
      TsPartClosed(item.content, item);
    } else {
      assert item.content + TsPart(item) == item.content;
    }
  }

  lemma TsStage(item: InboxItem, dest: Option<String>)
    requires PlainItem(item)
    ensures ExtractFrom(item.content + TsPart(item), None, dest) == ExtractFrom(item.content, TsText(item), dest)
  {
    if item.createdAt.Some? {
      IntStringShape(item.createdAt.value);
      ExtractOne(item.content, "ts", IntToString(item.createdAt.value), None, dest);
    } else {
      assert item.content + TsPart(item) == item.content;
    }
  }

  /** Extracting from a plain content that carries no token changes nothing. */
  lemma ExtractPlain(c: String, ts: Option<String>, dest: Option<String>)
    requires FindMeta(c, 0) == None
    ensures ExtractFrom(c, ts, dest) == Extracted(c, ts, dest)
  {
  }

  /** The timestamp text a written item carries. */
  function TsText(item: InboxItem): Option<String>
  {
    if item.createdAt.Some? then Some(IntToString(item.createdAt.value)) else None
  }

  /** The destination a written item carries. */
  function DestText(item: InboxItem): Option<String>
  {
    if item.destination != NoDestination then Some(item.destination) else None
  }

  lemma DestStage(item: InboxItem)
    requires PlainItem(item)
    ensures ExtractFrom(item.content + TsPart(item) + DestPart(item), None, None)
      == ExtractFrom(item.content + TsPart(item), None, DestText(item))
  {
    TsClosed(item);
    if item.destination != NoDestination {
      ExtractOne(item.content + TsPart(item), "dest", item.destination, None, None);
    } else {
      assert item.content + TsPart(item) + DestPart(item) == item.content + TsPart(item);
    }
  }

  lemma MetadataOfTrimmed(raw: String)
    requires Trimmed(raw)
    ensures ExtractMetadata(raw) == ExtractFrom(raw, None, None)
  {
    TrimOfTrimmed(raw);
  }

  /** Reading the tokens back from a written item's text gives its content, timestamp text and destination. */
  lemma ExtractItem(item: InboxItem)
    requires PlainItem(item)
    ensures ExtractMetadata(item.content + Suffix(item)) == Extracted(item.content, TsText(item), DestText(item))
  {
    var c := item.content;
    SuffixParts(item);
    assert c + Suffix(item) == c + TsPart(item) + DestPart(item);
    RawTrimmed(item);
    MetadataOfTrimmed(c + TsPart(item) + DestPart(item));
    DestStage(item);
    TsStage(item, DestText(item));
    ExtractPlain(c, TsText(item), DestText(item));
  }

  lemma TokenTextSingleLine(key: String, v: String)
    requires SingleLine(key) && SingleLine(v)
    ensures SingleLine(TokenText(key, v))
  {
    assert SingleLine(" [") && SingleLine(":") && SingleLine("]");
    SingleLineConcat(key, ":");
    SingleLineConcat(key + ":", v);
    SingleLineConcat(" [", TokenBody(key, v));
    SingleLineConcat(" [" + TokenBody(key, v), "]");
  }

  /** The text after an item line's checkbox is one line. */
  lemma WrittenSingleLine(item: InboxItem)
    requires PlainItem(item)
    ensures SingleLine(item.content + Suffix(item))
  {
    SuffixParts(item);
    var c := item.content;
    if item.createdAt.Some? {
      IntStringShape(item.createdAt.value);
      TokenTextSingleLine("ts", IntToString(item.createdAt.value));
    } else {
      assert TsPart(item) == [];
    }
    if item.destination != NoDestination {
      TokenTextSingleLine("dest", item.destination);
    } else {
      assert DestPart(item) == [];
    }
    SingleLineConcat(c, TsPart(item));
    SingleLineConcat(c + TsPart(item), DestPart(item));
  }

  lemma LineOfText(t: String)
    requires t != [] && SingleLine(t)
    ensures LineItem("- [ ] " + t) == Some(t)
  {
    var line := "- [ ] " + t;
    assert line[..3] == "- [" && line[3] == ' ' && line[4..6] == "] ";
    assert line[6..] == t;
  }

  /** A written item line is an item line whose group is the content followed by the tokens. */
  lemma LineOfItem(item: InboxItem)
    requires PlainItem(item)
    ensures LineItem(ItemLine(item)) == Some(item.content + Suffix(item))
  {
    WrittenSingleLine(item);
    LineOfText(item.content + Suffix(item));
    ConcatAssoc("- [ ] ", item.content, Suffix(item));
  }

  /** Reading a written item's group gives the item back. */
  lemma ReadItemBack(item: InboxItem, index: nat)
    requires PlainItem(item)
    ensures ReadItem(item.content + Suffix(item), index) == ReadBack(item, index)
  {
    ExtractItem(item);
    TimestampBack(item);
  }

  /** The timestamp text written for an item reads back as its creation time. */
  lemma TimestampBack(item: InboxItem)
    ensures ParseTimestamp(TsText(item)) == item.createdAt
  {
    if item.createdAt.Some? {
      IntStringShape(item.createdAt.value);
      ParseNumberOfString(item.createdAt.value);
    }
  }

  lemma {:induction false} GroupsAppend(a: seq<String>, b: seq<String>)
    ensures Groups(a + b) == Groups(a) + Groups(b)
    decreases |b|
  {
    if b != [] {
      var b0 := b[..|b| - 1];
      assert (a + b)[..|a + b| - 1] == a + b0;
      assert (a + b)[|a + b| - 1] == b[|b| - 1];
      GroupsAppend(a, b0);
    } else {
      assert a + b == a;
    }
  }

  /** Lines that are not item lines contribute nothing. */
  lemma {:induction false} GroupsNone(lines: seq<String>)
    requires forall k :: 0 <= k < |lines| ==> LineItem(lines[k]) == None
    ensures Groups(lines) == []
  {
    if lines != [] {
      GroupsNone(lines[..|lines| - 1]);
    }
  }

  function WrittenGroups(items: seq<InboxItem>): (r: seq<String>)
    ensures |r| == |items|
  {
    seq(|items|, k requires 0 <= k < |items| => items[k].content + Suffix(items[k]))
  }

  lemma {:induction false} GroupsOfItems(items: seq<InboxItem>)
    requires forall k :: 0 <= k < |items| ==> PlainItem(items[k])
    ensures Groups(ItemLines(items)) == WrittenGroups(items)
    decreases |items|
  {
    if items == [] {
      GroupsNone(["- [ ] "]);
    } else {
      var n := |items| - 1;
      var front := items[..n];
      LineOfItem(items[n]);
      WrittenGroupsSnoc(items);
      if front == [] {
        assert ItemLines(items) == [] + [ItemLine(items[n])];
        GroupsSnoc([], ItemLine(items[n]));
      } else {
        GroupsOfItems(front);
        ItemLinesSnoc(items);
        GroupsSnoc(ItemLines(front), ItemLine(items[n]));
      }
    }
  }

  lemma ItemLinesSnoc(items: seq<InboxItem>)
    requires |items| >= 2
    ensures ItemLines(items) == ItemLines(items[..|items| - 1]) + [ItemLine(items[|items| - 1])]
  {
    var n := |items| - 1;
    var r := ItemLines(items);
    var f := ItemLines(items[..n]);
    forall k | 0 <= k < n ensures r[k] == f[k] {
      assert items[..n][k] == items[k];
    }
    assert r == f + [ItemLine(items[n])];
  }

  lemma WrittenGroupsSnoc(items: seq<InboxItem>)
    requires items != []
    ensures WrittenGroups(items)
         == WrittenGroups(items[..|items| - 1]) + [items[|items| - 1].content + Suffix(items[|items| - 1])]
  {
  }

  lemma GroupsSnoc(lines: seq<String>, line: String)
    ensures Groups(lines + [line]) == Groups(lines) + (match LineItem(line) case Some(g) => [g] case None => [])
  {
    assert (lines + [line])[..|lines|] == lines;
  }

  /** Front matter, the title and blank lines are not item lines. */
  lemma FrontmatterNotItems(tags: seq<String>)
    ensures forall k :: 0 <= k < |Frontmatter(tags)| ==> LineItem(Frontmatter(tags)[k]) == None
  {
    FrontmatterShape(tags);
    forall k | 0 <= k < |Frontmatter(tags)| ensures LineItem(Frontmatter(tags)[k]) == None {
      FrontmatterLineNotItem(Frontmatter(tags)[k]);
    }
  }

  lemma FrontmatterLineNotItem(line: String)
    requires FrontmatterLine(line)
    ensures LineItem(line) == None
  {
    if |line| >= 7 {
      assert line[..3][0] == line[..4][0] == ' ';
    }
  }

  lemma SectionGroups(items: seq<InboxItem>)
    requires forall k :: 0 <= k < |items| ==> PlainItem(items[k])
    ensures Groups(SerializeLines(items)) == WrittenGroups(items)
  {
    assert "# Inbox"[0] == '#';
    GroupsNone(["# Inbox", ""]);
    GroupsNone([""]);
    GroupsOfItems(items);
    GroupsFramed(["# Inbox", ""], ItemLines(items), [""]);
  }

  /** Lines without item lines around a block leave the block's groups. */
  lemma GroupsFramed(a: seq<String>, b: seq<String>, c: seq<String>)
    requires Groups(a) == [] && Groups(c) == []
    ensures Groups(a + b + c) == Groups(b)
  {
    GroupsAppend(a, b);
    GroupsAppend(a + b, c);
  }

  lemma DocumentGroups(items: seq<InboxItem>, tags: seq<String>)
    requires forall k :: 0 <= k < |items| ==> PlainItem(items[k])
    ensures Groups(PrependTagFrontmatter(SerializeLines(items), tags)) == WrittenGroups(items)
  {
    var fm := Frontmatter(NormalizedTags(tags));
    FrontmatterNotItems(NormalizedTags(tags));
    GroupsNone(fm);
    SectionGroups(items);
    GroupsAppend(fm, SerializeLines(items));
  }

  lemma DocumentNoBreaks(items: seq<InboxItem>)
    requires forall k :: 0 <= k < |items| ==> PlainItem(items[k])
    ensures NoBreaks(SerializeLines(items))
  {
    var lines := SerializeLines(items);
    forall k | 0 <= k < |lines| ensures '\n' !in lines[k] {
      if 2 <= k < |lines| - 1 && items != [] {
        var item := items[k - 2];
        assert lines[k] == ItemLine(item);
        LineOfItem(item);
        SingleLineNoBreak(item.content + Suffix(item));
        assert '\n' !in "- [ ] ";
      }
    }
  }

  /**
   * Writing plain items and reading the document back gives the items with
   * positional ids, no tags and the status their destination implies.
   */
  lemma RoundTrip(items: seq<InboxItem>, tags: seq<String>)
    requires forall k :: 0 <= k < |items| ==> PlainItem(items[k])
    requires NoBreaks(tags)
    ensures ParseItems(Serialize(items, tags)) == ReadBackAll(items)
  {
    DocumentNoBreaks(items);
    DocumentSplit(SerializeLines(items), tags);
    DocumentGroups(items, tags);
    var groups := WrittenGroups(items);
    forall k | 0 <= k < |items| ensures ReadAll(groups)[k] == ReadBackAll(items)[k] {
      ReadItemBack(items[k], k);
    }
  }

  // ---------------------------------------------------------------------
  // the inbox operations, on the document text; a write is `Some(text)`

  /** The items still waiting for triage, in order. */
  function Active(items: seq<InboxItem>): (r: seq<InboxItem>)
    ensures |r| <= |items|
    ensures forall k :: 0 <= k < |r| ==> r[k].destination == NoDestination && r[k] in items
  {
    if items == [] then []
    else (if items[0].destination == NoDestination then [items[0]] else []) + Active(items[1..])
  }

  /** Nothing is dropped from a list of untriaged items. */
  lemma {:induction false} ActiveAll(items: seq<InboxItem>)
    requires forall k :: 0 <= k < |items| ==> items[k].destination == NoDestination
    ensures Active(items) == items
  {
    if items != [] {
      ActiveAll(items[1..]);
    }
  }

  /** A triaged item is always dropped, so the list gets shorter. */
  lemma {:induction false} ActiveDrops(items: seq<InboxItem>, k: nat)
    requires k < |items| && items[k].destination != NoDestination
    ensures |Active(items)| < |items|
  {
    if k > 0 {
      ActiveDrops(items[1..], k - 1);
    }
  }

  /** Every untriaged item is kept. */
  lemma {:induction false} ActiveKeeps(items: seq<InboxItem>, k: nat)
    requires k < |items| && items[k].destination == NoDestination
    ensures items[k] in Active(items)
  {
    if k > 0 {
      ActiveKeeps(items[1..], k - 1);
    }
  }

  datatype Listed = Listed(items: seq<InboxItem>, write: Option<String>)

  /** listItems: the untriaged items; the document is rewritten with them exactly when some were triaged. */
  function ListItems(content: String, tags: seq<String>): (r: Listed)
    ensures content == [] ==> r == Listed([], None)
    ensures content != [] ==> r.items == Active(ParseItems(content))
    ensures r.write.Some? ==> r.write.value == Serialize(r.items, tags)
  {
    if content == [] then Listed([], None)
    else
      var items := ParseItems(content);
      var active := Active(items);
      Listed(active, if |active| != |items| then Some(Serialize(active, tags)) else None)
  }

  /** The document is rewritten exactly when it holds a triaged item. */
  lemma ListItemsWrites(content: String, tags: seq<String>)
    requires content != []
    ensures ListItems(content, tags).write.Some?
      <==> exists k :: 0 <= k < |ParseItems(content)| && ParseItems(content)[k].destination != NoDestination
  {
    var items := ParseItems(content);
    if exists k :: 0 <= k < |items| && items[k].destination != NoDestination {
      var k :| 0 <= k < |items| && items[k].destination != NoDestination;
      ActiveDrops(items, k);
    } else {
      ActiveAll(items);
    }
  }

  /** The document the last write leaves: the final save, or else the clean-up of `listItems`, or else none. */
  function LastWrite(first: Option<String>, last: Option<String>): Option<String>
  {
    if last.Some? then last else first
  }

  /** addItem: a new untriaged item, identified by the clock, appended to the listed items and saved. */
  function AddItem(content: String, text: String, createdAt: int, now: int, tags: seq<String>): (r: (InboxItem, String))
    ensures r.0.content == text && r.0.createdAt == Some(createdAt) && r.0.destination == NoDestination
    ensures r.0.status == New && r.0.id == "inbox-" + IntToString(now)
    ensures r.1 == Serialize(ListItems(content, tags).items + [r.0], tags)
  {
    var item := InboxItem("inbox-" + IntToString(now), text, Some(createdAt), None, NoDestination, New);
    (item, Serialize(ListItems(content, tags).items + [item], tags))
  }

  /** The position of the first item with `id`, if any. */
  function FindIndex(items: seq<InboxItem>, id: String): (r: Option<nat>)
    ensures r.Some? ==> r.value < |items| && items[r.value].id == id
    ensures r.Some? ==> forall k :: 0 <= k < r.value ==> items[k].id != id
    ensures r.None? ==> forall k :: 0 <= k < |items| ==> items[k].id != id
  {
    if items == [] then None
    else if items[0].id == id then Some(0)
    else match FindIndex(items[1..], id)
      case None => None
      case Some(i) => Some(i + 1)
  }

  /** The item as triaged to `destination`, with the clock's time if it had none. */
  function Triage(item: InboxItem, destination: String, now: int): InboxItem
  {
    item.(destination := destination, status := StatusFor(destination),
      createdAt := if item.createdAt.Some? then item.createdAt else Some(now))
  }

  /** The item with new content, with the clock's time if it had none. */
  function Edit(item: InboxItem, text: String, now: int): InboxItem
  {
    item.(content := text, createdAt := if item.createdAt.Some? then item.createdAt else Some(now))
  }

  /** markTriaged on the list: the first item with the id is triaged, every other item is unchanged. */
  function TriageList(items: seq<InboxItem>, id: String, destination: String, now: int): (r: Option<seq<InboxItem>>)
    ensures r.None? <==> forall k :: 0 <= k < |items| ==> items[k].id != id
    ensures r.Some? ==> FindIndex(items, id).Some? && |r.value| == |items|
    ensures r.Some? ==> var i := FindIndex(items, id).value;
      r.value[i].destination == destination && r.value[i].status == StatusFor(destination)
      && r.value[i].content == items[i].content && r.value[i].id == id && r.value[i].createdAt.Some?
      && (items[i].createdAt.Some? ==> r.value[i].createdAt == items[i].createdAt)
    ensures r.Some? ==> forall k :: 0 <= k < |items| && k != FindIndex(items, id).value ==> r.value[k] == items[k]
  {
    match FindIndex(items, id)
    case None => None
    case Some(i) => Some(items[i := Triage(items[i], destination, now)])
  }

  /** updateItem on the list: the first item with the id gets the new content, every other item is unchanged. */
  function EditList(items: seq<InboxItem>, id: String, text: String, now: int): (r: Option<seq<InboxItem>>)
    ensures r.None? <==> forall k :: 0 <= k < |items| ==> items[k].id != id
    ensures r.Some? ==> FindIndex(items, id).Some? && |r.value| == |items|
    ensures r.Some? ==> var i := FindIndex(items, id).value;
      r.value[i].content == text && r.value[i].destination == items[i].destination
      && r.value[i].status == items[i].status && r.value[i].id == id && r.value[i].createdAt.Some?
      && (items[i].createdAt.Some? ==> r.value[i].createdAt == items[i].createdAt)
    ensures r.Some? ==> forall k :: 0 <= k < |items| && k != FindIndex(items, id).value ==> r.value[k] == items[k]
  {
    match FindIndex(items, id)
    case None => None
    case Some(i) => Some(items[i := Edit(items[i], text, now)])
  }

  /** markTriaged: the final document; with an unknown id only the clean-up of `listItems` is written. */
  function MarkTriaged(content: String, tags: seq<String>, id: String, destination: String, now: int): (r: Option<String>)
    ensures TriageList(ListItems(content, tags).items, id, destination, now).None? ==> r == ListItems(content, tags).write
    ensures TriageList(ListItems(content, tags).items, id, destination, now).Some? ==>
      r == Some(Serialize(TriageList(ListItems(content, tags).items, id, destination, now).value, tags))
  {
    var listed := ListItems(content, tags);
    match TriageList(listed.items, id, destination, now)
    case None => listed.write
    case Some(items) => LastWrite(listed.write, Some(Serialize(items, tags)))
  }

  /** updateItem: the final document; with an unknown id only the clean-up of `listItems` is written. */
  function UpdateItem(content: String, tags: seq<String>, id: String, text: String, now: int): (r: Option<String>)
    ensures EditList(ListItems(content, tags).items, id, text, now).None? ==> r == ListItems(content, tags).write
    ensures EditList(ListItems(content, tags).items, id, text, now).Some? ==>
      r == Some(Serialize(EditList(ListItems(content, tags).items, id, text, now).value, tags))
  {
    var listed := ListItems(content, tags);
    match EditList(listed.items, id, text, now)
    case None => listed.write
    case Some(items) => LastWrite(listed.write, Some(Serialize(items, tags)))
  }

  /** The number of items with `id`. */
  function CountId(items: seq<InboxItem>, id: String): nat
  {
    if items == [] then 0 else (if items[0].id == id then 1 else 0) + CountId(items[1..], id)
  }

  /** deleteItem on the list: every item with the id is removed. */
  function Without(items: seq<InboxItem>, id: String): (r: seq<InboxItem>)
    ensures forall k :: 0 <= k < |r| ==> r[k].id != id && r[k] in items
  {
    if items == [] then []
    else (if items[0].id == id then [] else [items[0]]) + Without(items[1..], id)
  }

  /** Only the items with the id go, the others stay; with no such item the list is unchanged. */
  lemma WithoutKeeps(items: seq<InboxItem>, id: String)
    ensures |Without(items, id)| + CountId(items, id) == |items|
    ensures forall x :: x in items && x.id != id ==> x in Without(items, id)
    ensures CountId(items, id) == 0 ==> Without(items, id) == items
  {
    WithoutCount(items, id);
    WithoutOthers(items, id);
    WithoutNone(items, id);
  }

  lemma {:induction false} WithoutCount(items: seq<InboxItem>, id: String)
    ensures |Without(items, id)| + CountId(items, id) == |items|
  {
    if items != [] {
      WithoutCount(items[1..], id);
    }
  }

  lemma {:induction false} WithoutOthers(items: seq<InboxItem>, id: String)
    ensures forall x :: x in items && x.id != id ==> x in Without(items, id)
  {
    if items != [] {
      var x0 := items[0];
      var rest := items[1..];
      WithoutOthers(rest, id);
      var w := Without(items, id);
      assert w == (if x0.id == id then [] else [x0]) + Without(rest, id);
      forall x | x in items && x.id != id ensures x in w {
        if x != x0 {
          assert x in rest;
        }
      }
    }
  }

  lemma {:induction false} WithoutNone(items: seq<InboxItem>, id: String)
    ensures CountId(items, id) == 0 ==> Without(items, id) == items
  {
    if items != [] {
      WithoutNone(items[1..], id);
      HeadTail(items);
    }
  }

  /** deleteItem: the listed items without the id, always written back. */
  function DeleteItem(content: String, tags: seq<String>, id: String): (r: String)
    ensures r == Serialize(Without(ListItems(content, tags).items, id), tags)
  {
    Serialize(Without(ListItems(content, tags).items, id), tags)
  }

  lemma SerializeNonEmpty(items: seq<InboxItem>, tags: seq<String>)
    ensures Serialize(items, tags) != []
  {
    var all := PrependTagFrontmatter(SerializeLines(items), tags);
    assert |all| >= 2;
    assert Join(all, "\n") == all[0] + "\n" + Join(all[1..], "\n");
  }

  /** Listing a saved list of plain untriaged items gives them back renumbered, with no clean-up write. */
  lemma ListAfterSave(items: seq<InboxItem>, tags: seq<String>)
    requires forall k :: 0 <= k < |items| ==> PlainItem(items[k]) && items[k].destination == NoDestination
    requires NoBreaks(tags)
    ensures ListItems(Serialize(items, tags), tags) == Listed(ReadBackAll(items), None)
  {
    RoundTrip(items, tags);
    SerializeNonEmpty(items, tags);
    var back := ReadBackAll(items);
    assert forall k :: 0 <= k < |back| ==> back[k].destination == NoDestination;
    ActiveAll(back);
  }

  /** After addItem, listing the document again gives the earlier items and the new one, renumbered. */
  lemma AddItemReadsBack(content: String, text: String, createdAt: int, now: int, tags: seq<String>)
    requires forall k :: 0 <= k < |ListItems(content, tags).items| ==> PlainItem(ListItems(content, tags).items[k])
    requires text != [] && Trimmed(text) && SingleLine(text) && FindMeta(text, 0) == None && Closed(text)
    requires NoBreaks(tags)
    ensures var r := AddItem(content, text, createdAt, now, tags);
      ListItems(r.1, tags) == Listed(ReadBackAll(ListItems(content, tags).items + [r.0]), None)
  {
    var r := AddItem(content, text, createdAt, now, tags);
    var listed := ListItems(content, tags).items;
    assert forall k :: 0 <= k < |listed| ==> listed[k].destination == NoDestination;
    assert PlainItem(r.0);
    PlainAppend(listed, r.0);
    ListAfterSave(listed + [r.0], tags);
  }

  lemma PlainAppend(items: seq<InboxItem>, item: InboxItem)
    requires forall k :: 0 <= k < |items| ==> PlainItem(items[k]) && items[k].destination == NoDestination
    requires PlainItem(item) && item.destination == NoDestination
    ensures forall k :: 0 <= k < |items + [item]| ==>
      PlainItem((items + [item])[k]) && (items + [item])[k].destination == NoDestination
  {
    forall k | 0 <= k < |items + [item]|
      ensures PlainItem((items + [item])[k]) && (items + [item])[k].destination == NoDestination
    {
      if k < |items| {
        assert (items + [item])[k] == items[k];
      }
    }
  }
}
