/**
 * The code fence around an answer's object (legacy/eval/mast/judge.ts:161-163): the first fenced block, if there is a
 * whole one, is what gets scanned.
 */
module JsonFence {
  import opened Basics
  import opened JsonScan
  import opened JsonPrint

  // ---------- the first fenced block ----------

  const Fence := "```"

  predicate FenceAt(raw: string, i: nat) {
    i + 3 <= |raw| && raw[i] == '`' && raw[i + 1] == '`' && raw[i + 2] == '`'
  }

  ghost predicate NoFenceIn(raw: string, low: nat, high: nat) {
    forall i: nat :: low <= i < high ==> !FenceAt(raw, i)
  }

  ghost predicate NoFence(text: string) {
    NoFenceIn(text, 0, |text|)
  }

  /** The first fence from a position on. */
  function NextFence(raw: string, from: nat): (next: Option<nat>)
    ensures match next
            case Some(i) => from <= i && FenceAt(raw, i) && NoFenceIn(raw, from, i)
            case None => NoFenceIn(raw, from, |raw|)
    decreases |raw| - from
  {
    if from >= |raw| then None
    else if FenceAt(raw, from) then Some(from)
    else NextFence(raw, from + 1)
  }

  /** The language tag, in any case. */
  predicate IsTag(text: string) {
    |text| == 4 && text[0] in "jJ" && text[1] in "sS" && text[2] in "oO" && text[3] in "nN"
  }

  /** The white space of ECMAScript. */
  predicate IsSpace(c: char) {
    || '\t' <= c <= '\r' || c == ' ' || c == '\U{A0}' || c == '\U{1680}' || '\U{2000}' <= c <= '\U{200A}'
    || c == '\U{2028}' || c == '\U{2029}' || c == '\U{202F}' || c == '\U{205F}' || c == '\U{3000}' || c == '\U{FEFF}'
  }

  ghost predicate AllSpace(text: string) {
    forall k :: 0 <= k < |text| ==> IsSpace(text[k])
  }

  function TagOf(inner: string): string {
    if |inner| >= 4 && IsTag(inner[..4]) then inner[..4] else ""
  }

  /** How many white-space characters a text starts with. */
  function SpaceCount(text: string): (n: nat)
    ensures n <= |text| && (forall k :: 0 <= k < n ==> IsSpace(text[k])) && (n < |text| ==> !IsSpace(text[n]))
  {
    if text == "" || !IsSpace(text[0]) then 0 else 1 + SpaceCount(text[1..])
  }

  function SpaceOf(inner: string): string {
    var rest := inner[|TagOf(inner)|..];
    rest[..SpaceCount(rest)]
  }

  /** A block without its tag and leading white space. */
  function Content(inner: string): string {
    var rest := inner[|TagOf(inner)|..];
    rest[SpaceCount(rest)..]
  }

  /** The text that is scanned. */
  function BodyOf(raw: string): string {
    var open := NextFence(raw, 0);
    if open.None? then raw
    else
      var close := NextFence(raw, open.value + 3);
      if close.None? then raw else Content(raw[open.value + 3..close.value])
  }

  /** A JSON parser; it throws on what it cannot read. */
  type Parser = string -> Option<Json>

  /** What the judge gets from an answer: an object's value, or one of three errors. */
  datatype Answer = NoBrace | NeverClosed | Malformed | Parsed(value: Json)

  function AnswerOf(parse: Parser, r: Extraction): Answer {
    match r
    case NoObject => NoBrace
    case Unterminated => NeverClosed
    case Found(slice) => if parse(slice).Some? then Parsed(parse(slice).value) else Malformed
  }

  /** The parse of what the scanner finds in the body. */
  ghost predicate Answers(parse: Parser, raw: string, answer: Answer) {
    exists r :: Scanned(BodyOf(raw), r) && answer == AnswerOf(parse, r)
  }

  method ExtractJsonObject(raw: string, parse: Parser) returns (answer: Answer)
    ensures Answers(parse, raw, answer)
  {
    var r := ScanBody(BodyOf(raw));
    answer := AnswerOf(parse, r);
  }

  /** Some balanced object starts at the first brace, and the parser reads it as this value. */
  ghost predicate Holds(parse: Parser, raw: string, value: Json) {
    exists before, slice, after :: Splits(BodyOf(raw), before, slice, after) && parse(slice) == Some(value)
  }

  /** Main result: a value is given exactly when it is that of the balanced object at the body's first brace. */
  lemma ParsedIff(parse: Parser, raw: string, answer: Answer, value: Json)
    requires Answers(parse, raw, answer)
    ensures answer == Parsed(value) <==> Holds(parse, raw, value)
  {
    var r :| Scanned(BodyOf(raw), r) && answer == AnswerOf(parse, r);
    if answer == Parsed(value) {
      var before, after := FoundSplits(BodyOf(raw), r.slice);
    }
    if before, slice, after :| Splits(BodyOf(raw), before, slice, after) && parse(slice) == Some(value) {
      ScannedIsForced(BodyOf(raw), before, slice, after, r);
    }
  }

  ghost predicate HasObject(body: string) {
    exists before, slice, after :: Splits(body, before, slice, after)
  }

  ghost predicate HasUnparsed(parse: Parser, body: string) {
    exists before, slice, after :: Splits(body, before, slice, after) && parse(slice).None?
  }

  lemma FoundIffObject(body: string, r: Extraction)
    requires Scanned(body, r)
    ensures r.Found? <==> HasObject(body)
  {
    if r.Found? { var before, after := FoundSplits(body, r.slice); }
    if before, slice, after :| Splits(body, before, slice, after) { ScannedIsForced(body, before, slice, after, r); }
  }

  lemma FoundUnparsed(parse: Parser, body: string, r: Extraction)
    requires Scanned(body, r)
    ensures r.Found? && parse(r.slice).None? <==> HasUnparsed(parse, body)
  {
    if r.Found? { var before, after := FoundSplits(body, r.slice); }
    if before, slice, after :| Splits(body, before, slice, after) && parse(slice).None? {
      ScannedIsForced(body, before, slice, after, r);
    }
  }

  lemma BraceByScan(body: string, r: Extraction)
    requires Scanned(body, r)
    ensures r.NoObject? <==> '{' !in body
  {
    if r.Found? {
      var before, after := FoundSplits(body, r.slice);
      StartsThere(body, before, r.slice, after);
    } else if r.Unterminated? {
      BraceOfScan(body);
    }
  }

  /** Main result: each error says what is wrong: no brace at all, no balanced object at the first one, or one that does not parse. */
  lemma ErrorsSayWhy(parse: Parser, raw: string, answer: Answer)
    requires Answers(parse, raw, answer)
    ensures answer == NoBrace <==> '{' !in BodyOf(raw)
    ensures answer == NeverClosed <==> '{' in BodyOf(raw) && !HasObject(BodyOf(raw))
    ensures answer == Malformed <==> HasUnparsed(parse, BodyOf(raw))
  {
    var r :| Scanned(BodyOf(raw), r) && answer == AnswerOf(parse, r);
    BraceByScan(BodyOf(raw), r);
    FoundIffObject(BodyOf(raw), r);
    FoundUnparsed(parse, BodyOf(raw), r);
  }

  lemma BraceOfScan(body: string)
    requires Scanned(body, Unterminated)
    ensures '{' in body
  {
    var start: nat :| FirstBraceAt(body, start) && NeverCloses(body[start..]);
  }

  /** A Latin letter in lower case. */
  function Lower(c: char): char {
    if 'A' <= c <= 'Z' then (c as int + 32) as char else c
  }

  /** The tag is the word, in any case. */
  lemma TagIsWord(text: string)
    ensures IsTag(text) <==> |text| == 4 && Lower(text[0]) == 'j' && Lower(text[1]) == 's' && Lower(text[2]) == 'o' && Lower(text[3]) == 'n'
  {
  }

  /** White space, by its code points. */
  lemma SpaceByCode(c: char)
    ensures IsSpace(c) <==> 9 <= c as int <= 13 || c as int in {32, 160, 5760, 8232, 8233, 8239, 8287, 12288, 65279} || 8192 <= c as int <= 8202
  {
  }

  // ---------- the pattern ----------

  /** One way to match the pattern: a fence, a tag or none, white space, anything, a fence. */
  datatype Reading = Reading(at: nat, tag: string, space: string, content: string) {
    function ContentAt(): nat {
      at + 3 + |tag| + |space|
    }

    function CloseAt(): nat {
      ContentAt() + |content|
    }
  }

  ghost predicate Matches(raw: string, m: Reading) {
    && FenceAt(raw, m.at) && FenceAt(raw, m.CloseAt())
    && (m.tag == "" || IsTag(m.tag)) && AllSpace(m.space)
    && raw[m.at + 3..m.CloseAt()] == m.tag + m.space + m.content
  }

  /**
   * The order in which a backtracking matcher tries them: leftmost, with the tag if it can, with as much white space as it can,
   * with as little of the rest as it can.
   */
  predicate NoLater(m: Reading, n: Reading) {
    m.at < n.at || (m.at == n.at
    && (|m.tag| > |n.tag| || (|m.tag| == |n.tag|
    && (|m.space| > |n.space| || (|m.space| == |n.space|
    && |m.content| <= |n.content|)))))
  }

  lemma Parts(inner: string)
    ensures inner == TagOf(inner) + SpaceOf(inner) + Content(inner)
    ensures AllSpace(SpaceOf(inner)) && (TagOf(inner) == "" || IsTag(TagOf(inner)))
  {
    var tag, rest := TagOf(inner), inner[|TagOf(inner)|..];
    var n := SpaceCount(rest);
    assert inner == tag + rest && rest == rest[..n] + rest[n..];
    Assoc(tag, rest[..n], rest[n..]);
  }

  /** The block that the two searches find, as a reading. */
  function Block(raw: string, open: nat, close: nat): Reading
    requires open + 3 <= close <= |raw|
  {
    var inner := raw[open + 3..close];
    Reading(open, TagOf(inner), SpaceOf(inner), Content(inner))
  }

  lemma BlockMatches(raw: string, open: nat, close: nat)
    requires FenceAt(raw, open) && FenceAt(raw, close) && open + 3 <= close
    ensures Matches(raw, Block(raw, open, close)) && Block(raw, open, close).CloseAt() == close
  {
    Parts(raw[open + 3..close]);
    BlockCloses(raw, open, close);
  }

  lemma BlockCloses(raw: string, open: nat, close: nat)
    requires open + 3 <= close <= |raw|
    ensures Block(raw, open, close).CloseAt() == close
  {
    var inner := raw[open + 3..close];
    Parts(inner);
    assert |inner| == |TagOf(inner)| + |SpaceOf(inner)| + |Content(inner)|;
  }

  /** Neither a tag nor white space holds a back quote. */
  lemma NoQuotes(tag: string, space: string)
    requires (tag == "" || IsTag(tag)) && AllSpace(space)
    ensures forall k :: 0 <= k < |tag + space| ==> (tag + space)[k] != '`'
  {
  }

  /** So a block does not close before its content. */
  lemma ClosesInContent(raw: string, m: Reading, close: nat)
    requires Matches(raw, m) && FenceAt(raw, close) && m.at + 3 <= close
    ensures m.ContentAt() <= close
  {
    NoQuotes(m.tag, m.space);
    assert forall k :: 0 <= k < |m.tag + m.space| ==> raw[m.at + 3..m.CloseAt()][k] == (m.tag + m.space)[k];
  }

  /** A tag and white space that a text starts with are no longer than its own. */
  lemma TagFirst(inner: string, tag: string)
    requires (tag == "" || IsTag(tag)) && tag <= inner
    ensures |tag| <= |TagOf(inner)|
  {
  }

  lemma SpaceNext(inner: string, space: string)
    requires AllSpace(space) && TagOf(inner) + space <= inner
    ensures |space| <= |SpaceOf(inner)|
  {
    var rest := inner[|TagOf(inner)|..];
    assert space <= rest;
  }

  lemma HeadWithin(raw: string, m: Reading, close: nat)
    requires Matches(raw, m) && m.ContentAt() <= close <= m.CloseAt()
    ensures m.tag + m.space <= raw[m.at + 3..close] && m.tag <= raw[m.at + 3..close]
  {
    var whole := raw[m.at + 3..m.CloseAt()];
    assert raw[m.at + 3..close] == whole[..close - (m.at + 3)];
    assert m.tag + m.space == whole[..|m.tag + m.space|];
    assert m.tag == whole[..|m.tag|];
  }

  lemma BlockIsFirst(raw: string, open: nat, close: nat, m: Reading)
    requires FenceAt(raw, open) && FenceAt(raw, close) && open + 3 <= close
    requires NoFenceIn(raw, open + 3, close) && Matches(raw, m) && m.at == open
    ensures NoLater(Block(raw, open, close), m)
  {
    BlockCloses(raw, open, close);
    ClosesInContent(raw, m, close);
    assert FenceAt(raw, m.CloseAt());
    HeadWithin(raw, m, close);
    HeadIsLongest(raw[open + 3..close], m.tag, m.space);
  }

  lemma HeadIsLongest(inner: string, tag: string, space: string)
    requires (tag == "" || IsTag(tag)) && AllSpace(space) && tag + space <= inner && tag <= inner
    ensures |tag| <= |TagOf(inner)| && (|tag| == |TagOf(inner)| ==> |space| <= |SpaceOf(inner)|)
  {
    TagFirst(inner, tag);
    if |tag| == |TagOf(inner)| {
      assert tag == TagOf(inner);
      SpaceNext(inner, space);
    }
  }

  lemma NoReading(raw: string, m: Reading)
    requires Matches(raw, m)
    ensures NextFence(raw, 0).Some? && NextFence(raw, NextFence(raw, 0).value + 3).Some?
    ensures NextFence(raw, 0).value <= m.at
  {
    assert FenceAt(raw, m.at) && FenceAt(raw, m.CloseAt());
  }

  lemma BlockIsFirstReading(raw: string, open: nat, close: nat)
    requires NextFence(raw, 0) == Some(open) && NextFence(raw, open + 3) == Some(close)
    ensures Matches(raw, Block(raw, open, close)) && forall n :: Matches(raw, n) ==> NoLater(Block(raw, open, close), n)
  {
    BlockMatches(raw, open, close);
    forall n | Matches(raw, n) ensures NoLater(Block(raw, open, close), n) {
      NoReading(raw, n);
      if n.at == open { BlockIsFirst(raw, open, close, n); }
    }
  }

  /** A reading that a matcher would give. */
  ghost predicate FirstReading(raw: string, m: Reading) {
    Matches(raw, m) && forall n :: Matches(raw, n) ==> NoLater(m, n)
  }

  /** Main result: what is scanned is the content of the matcher's first reading, and the answer itself if there is none. */
  lemma BodyIsFirstReading(raw: string)
    ensures if exists n :: Matches(raw, n) then exists m :: FirstReading(raw, m) && BodyOf(raw) == m.content
            else BodyOf(raw) == raw
  {
    if n :| Matches(raw, n) {
      NoReading(raw, n);
      var open := NextFence(raw, 0).value;
      var close := NextFence(raw, open + 3).value;
      BlockIsFirstReading(raw, open, close);
      assert FirstReading(raw, Block(raw, open, close));
    } else {
      NoReadingNoBlock(raw);
    }
  }

  lemma NoReadingNoBlock(raw: string)
    requires forall n :: !Matches(raw, n)
    ensures BodyOf(raw) == raw
  {
    var open := NextFence(raw, 0);
    if open.Some? {
      var close := NextFence(raw, open.value + 3);
      if close.Some? { BlockMatches(raw, open.value, close.value); }
    }
  }

  // ---------- a fenced object ----------

  /** What may stand between the opening fence and the object. */
  ghost predicate Header(text: string) {
    AllSpace(text[|TagOf(text)|..])
  }

  lemma SkipSpace(space: string, rest: string)
    requires AllSpace(space) && rest != "" && !IsSpace(rest[0])
    ensures SpaceCount(space + rest) == |space|
  {
    var text := space + rest;
    assert text[|space|] == rest[0] && forall k :: 0 <= k < |space| ==> text[k] == space[k];
  }

  lemma SkipHeader(header: string, rest: string)
    requires Header(header) && rest != "" && rest[0] == '{'
    ensures Content(header + rest) == rest
  {
    var text, tag := header + rest, TagOf(header);
    if tag == "" {
      assert header != "" ==> text[0] == header[0];
      assert TagOf(text) == "";
    } else {
      assert text[..4] == header[..4];
    }
    assert text[|tag|..] == header[|tag|..] + rest;
    SkipSpace(header[|tag|..], rest);
  }

  lemma HeaderHasNoFence(header: string)
    requires Header(header)
    ensures forall k :: 0 <= k < |header| ==> header[k] != '`'
  {
    NoQuotes(TagOf(header), header[|TagOf(header)|..]);
    assert header == TagOf(header) + header[|TagOf(header)|..];
  }

  /**
   * An answer with a printed object in its first fenced block: the fence opens at open, the object stands at start, ends at end,
   * and the next fence after it is at close.
   */
  ghost predicate Wraps(raw: string, open: nat, start: nat, end: nat, close: nat, text: string) {
    && open + 3 <= start <= end <= close && FenceAt(raw, open) && FenceAt(raw, close)
    && NoFenceIn(raw, 0, open) && NoFenceIn(raw, end, close)
    && Header(raw[open + 3..start]) && raw[start..end] == text
  }

  /** Text that starts and ends with a brace, and closes at its end. */
  ghost predicate Braced(text: string) {
    ClosesAtEnd(text) && |text| >= 2 && text[0] == '{' && Last(text) == '}'
  }

  lemma InHeader(raw: string, open: nat, start: nat, i: nat)
    requires open + 3 <= i < start <= |raw| && Header(raw[open + 3..start])
    ensures !FenceAt(raw, i)
  {
    var header := raw[open + 3..start];
    HeaderHasNoFence(header);
    assert raw[i] == header[i - (open + 3)];
  }

  lemma InObject(raw: string, start: nat, end: nat, i: nat)
    requires start <= i < end <= |raw| && Braced(raw[start..end]) && FenceAt(raw, i)
    ensures FenceAt(raw[start..end], i - start)
  {
    assert raw[end - 1] == Last(raw[start..end]);
  }

  lemma BodyIsContent(raw: string, open: nat, close: nat)
    requires NextFence(raw, 0) == Some(open) && NextFence(raw, open + 3) == Some(close)
    ensures BodyOf(raw) == Content(raw[open + 3..close])
  {
  }

  lemma BodyOfBlock(raw: string, open: nat, start: nat, close: nat)
    requires open + 3 <= start < close <= |raw| && raw[start] == '{' && Header(raw[open + 3..start])
    requires NextFence(raw, 0) == Some(open) && NextFence(raw, open + 3) == Some(close)
    ensures BodyOf(raw) == raw[start..close]
  {
    BodyIsContent(raw, open, close);
    CutAt(raw, open + 3, start, close);
    SkipHeader(raw[open + 3..start], raw[start..close]);
  }

  lemma CutAt(text: string, low: nat, mid: nat, high: nat)
    requires low <= mid <= high <= |text|
    ensures text[low..high] == text[low..mid] + text[mid..high]
  {
  }

  lemma NextIs(raw: string, from: nat, i: nat)
    requires from <= i && FenceAt(raw, i) && NoFenceIn(raw, from, i)
    ensures NextFence(raw, from) == Some(i)
  {
  }

  /** The first fence inside the object closes the block. */
  lemma FirstInside(raw: string, open: nat, start: nat, end: nat, close: nat, text: string, n: nat)
    requires Wraps(raw, open, start, end, close, text) && Braced(text)
    requires NextFence(text, 0) == Some(n)
    ensures NextFence(raw, open + 3) == Some(start + n)
  {
    assert FenceAt(raw, start + n);
    forall i: nat | open + 3 <= i < start + n ensures !FenceAt(raw, i) {
      if i < start { InHeader(raw, open, start, i); }
      else if FenceAt(raw, i) { InObject(raw, start, end, i); }
    }
    NextIs(raw, open + 3, start + n);
  }

  lemma BodyOfCut(raw: string, open: nat, start: nat, end: nat, close: nat, text: string) returns (n: nat)
    requires Wraps(raw, open, start, end, close, text) && Braced(text) && !NoFence(text)
    ensures 0 < n < |text| && BodyOf(raw) == text[..n]
  {
    n := NextFence(text, 0).value;
    NextIs(raw, 0, open);
    FirstInside(raw, open, start, end, close, text, n);
    FirstFenceBounds(text, n);
    PartOf(raw, start, end, n);
    BodyOfBlock(raw, open, start, start + n);
  }

  lemma FirstFenceBounds(text: string, n: nat)
    requires text != "" && text[0] == '{' && FenceAt(text, n)
    ensures 0 < n < |text|
  {
  }

  lemma PartOf(raw: string, start: nat, end: nat, n: nat)
    requires start + n <= end <= |raw|
    ensures raw[start..start + n] == raw[start..end][..n]
    ensures start < end ==> raw[start..end][0] == raw[start]
  {
  }

  lemma NoFenceInside(raw: string, open: nat, start: nat, end: nat, close: nat, text: string)
    requires Wraps(raw, open, start, end, close, text) && Braced(text) && NoFence(text)
    ensures NoFenceIn(raw, open + 3, close)
  {
    forall i: nat | open + 3 <= i < close ensures !FenceAt(raw, i) {
      if i < start { InHeader(raw, open, start, i); }
      else if i < end && FenceAt(raw, i) { InObject(raw, start, end, i); }
    }
  }

  lemma BodyOfWhole(raw: string, open: nat, start: nat, end: nat, close: nat, text: string)
    requires Wraps(raw, open, start, end, close, text) && Braced(text) && NoFence(text)
    ensures BodyOf(raw) == text + raw[end..close]
  {
    NextIs(raw, 0, open);
    NoFenceInside(raw, open, start, end, close, text);
    NextIs(raw, open + 3, close);
    assert raw[start] == text[0];
    BodyOfBlock(raw, open, start, close);
    CutAt(raw, start, end, close);
  }

  lemma BraceFirst(body: string, start: nat)
    requires FirstBraceAt(body, start)
    ensures start == 0 || body[0] != '{'
  {
    if start > 0 { assert body[0] == body[..start][0]; }
  }

  /** A part of an object that is cut short never closes. */
  lemma CutNeverCloses(text: string, n: nat, r: Extraction)
    requires Braced(text) && 0 < n < |text| && Scanned(text[..n], r)
    ensures r == Unterminated
  {
    var body := text[..n];
    assert body[0] == '{';
    forall start: nat, end: nat | FirstBraceAt(body, start) && start < end <= |body| ensures !ClosesAtEnd(body[start..end]) {
      BraceFirst(body, start);
      assert body[start..end] == text[..end];
    }
  }

  lemma WholeIsFound(raw: string, open: nat, start: nat, end: nat, close: nat, text: string, r: Extraction)
    requires Wraps(raw, open, start, end, close, text) && IsGroup(text) && Braced(text) && NoFence(text)
    requires Scanned(BodyOf(raw), r)
    ensures r == Found(text)
  {
    var tail := raw[end..close];
    BodyOfWhole(raw, open, start, end, close, text);
    assert "" + text == text;
    assert Splits(text + tail, "", text, tail);
    ScannedIsForced(text + tail, "", text, tail, r);
  }

  lemma PrintedIsBraced(style: Style, members: seq<Member>)
    requires Sound(style) && NumbersOk(JObject(members))
    ensures var text := PrintJson(style, 0, JObject(members)); IsGroup(text) && Braced(text)
  {
    InnerIsBalanced(style, 0, members);
    GroupOf(PrintInner(style, 0, members));
    GroupCloses(PrintJson(style, 0, JObject(members)));
  }

  /**
   * Main result: an object printed in the first fenced block comes back exactly when its text holds no fence itself; a fence inside
   * one of its strings cuts it short, and then nothing is found.
   */
  lemma FencedObject(style: Style, members: seq<Member>, raw: string, open: nat, start: nat, end: nat, close: nat, r: Extraction)
    requires Sound(style) && NumbersOk(JObject(members))
    requires Wraps(raw, open, start, end, close, PrintJson(style, 0, JObject(members)))
    requires Scanned(BodyOf(raw), r)
    ensures var text := PrintJson(style, 0, JObject(members)); r == if NoFence(text) then Found(text) else Unterminated
  {
    var text := PrintJson(style, 0, JObject(members));
    PrintedIsBraced(style, members);
    if NoFence(text) {
      WholeIsFound(raw, open, start, end, close, text, r);
    } else {
      var n := BodyOfCut(raw, open, start, end, close, text);
      CutNeverCloses(text, n, r);
    }
  }

  /** So a parser that reads the object back gives its value, or there is an error. */
  lemma FencedAnswer(style: Style, parse: Parser, members: seq<Member>, raw: string, open: nat, start: nat, end: nat, close: nat, answer: Answer)
    requires Sound(style) && NumbersOk(JObject(members))
    requires Wraps(raw, open, start, end, close, PrintJson(style, 0, JObject(members)))
    requires parse(PrintJson(style, 0, JObject(members))) == Some(JObject(members)) && Answers(parse, raw, answer)
    ensures answer == if NoFence(PrintJson(style, 0, JObject(members))) then Parsed(JObject(members)) else NeverClosed
  {
    var r :| Scanned(BodyOf(raw), r) && answer == AnswerOf(parse, r);
    FencedObject(style, members, raw, open, start, end, close, r);
  }

  /** An answer without a whole fenced block is scanned as it is. */
  lemma UnfencedObject(style: Style, members: seq<Member>, before: string, after: string, r: Extraction)
    requires Sound(style) && NumbersOk(JObject(members)) && '{' !in before
    requires var raw := before + PrintJson(style, 0, JObject(members)) + after;
             (forall m :: !Matches(raw, m)) && Scanned(BodyOf(raw), r)
    ensures r == Found(PrintJson(style, 0, JObject(members)))
  {
    BodyIsFirstReading(before + PrintJson(style, 0, JObject(members)) + after);
    ExtractUndoesPrinting(style, members, before, after, r);
  }
}
