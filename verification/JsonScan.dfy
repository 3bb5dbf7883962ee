/**
 * The brace scanner (legacy/eval/mast/judge.ts:164-186): the first balanced JSON object in free text.
 */
module JsonScan {
  import opened Basics

  // ---------- the scanner ----------

  datatype Scan = Scan(depth: int, inStr: bool, esc: bool)

  function Feed(s: Scan, ch: char): Scan {
    if s.inStr then
      if s.esc then s.(esc := false)
      else if ch == '\\' then s.(esc := true)
      else if ch == '"' then s.(inStr := false)
      else s
    else if ch == '"' then s.(inStr := true)
    else if ch == '{' then s.(depth := s.depth + 1)
    else if ch == '}' then s.(depth := s.depth - 1)
    else s
  }

  function ScanFrom(s: Scan, text: string): Scan {
    if text == "" then s else Feed(ScanFrom(s, Init(text)), Last(text))
  }

  function ScanAll(text: string): Scan {
    ScanFrom(Scan(0, false, false), text)
  }

  /** The text closes at its end and not before. */
  ghost predicate ClosesAtEnd(text: string) {
    && text != "" && ScanAll(text).depth == 0
    && forall k :: 0 < k < |text| ==> ScanAll(text[..k]).depth != 0
  }

  ghost predicate NeverCloses(text: string) {
    forall k :: 0 < k <= |text| ==> ScanAll(text[..k]).depth != 0
  }

  datatype Extraction = NoObject | Unterminated | Found(slice: string)

  ghost predicate FirstBraceAt(body: string, start: nat) {
    start < |body| && body[start] == '{' && '{' !in body[..start]
  }

  /** What the scanner promises in its own terms: the shortest closing slice from the first brace. */
  ghost predicate Scanned(body: string, r: Extraction) {
    match r
    case NoObject => '{' !in body
    case Unterminated => exists start: nat :: FirstBraceAt(body, start) && NeverCloses(body[start..])
    case Found(slice) => exists start: nat, end: nat :: FirstBraceAt(body, start) && start < end <= |body|
                                              && slice == body[start..end] && ClosesAtEnd(slice)
  }

  lemma ScanStep(text: string, k: nat)
    requires k < |text|
    ensures ScanAll(text[..k + 1]) == Feed(ScanAll(text[..k]), text[k])
  {
    assert Init(text[..k + 1]) == text[..k];
  }

  lemma ClosesHere(body: string, start: nat, end: nat)
    requires start < end <= |body| && ScanAll(body[start..][..end - start]).depth == 0
    requires forall k :: 0 < k < end - start ==> ScanAll(body[start..][..k]).depth != 0
    ensures ClosesAtEnd(body[start..end])
  {
    assert body[start..][..end - start] == body[start..end];
    forall k | 0 < k < end - start ensures ScanAll(body[start..end][..k]).depth != 0 {
      assert body[start..end][..k] == body[start..][..k];
    }
  }

  method IndexOfBrace(body: string) returns (start: Option<nat>)
    ensures match start case None => '{' !in body case Some(i) => FirstBraceAt(body, i)
  {
    for i := 0 to |body|
      invariant '{' !in body[..i]
    {
      if body[i] == '{' { return Some(i); }
    }
    return None;
  }

  method ScanBody(body: string) returns (r: Extraction)
    ensures Scanned(body, r)
  {
    var found := IndexOfBrace(body);
    if found.None? { return NoObject; }
    var start := found.value;
    ghost var text := body[start..];
    var depth, inStr, esc := 0, false, false;
    for i := start to |body|
      invariant Scan(depth, inStr, esc) == ScanAll(text[..i - start])
      invariant if i == start then depth == 0 && !inStr else depth > 0
      invariant forall k :: 0 < k <= i - start ==> ScanAll(text[..k]).depth != 0
    {
      var ch := body[i];
      ScanStep(text, i - start);
      if inStr {
        if esc { esc := false; }
        else if ch == '\\' { esc := true; }
        else if ch == '"' { inStr := false; }
        continue;
      }
      if ch == '"' { inStr := true; }
      else if ch == '{' { depth := depth + 1; }
      else if ch == '}' {
        depth := depth - 1;
        if depth == 0 {
          ClosesHere(body, start, i + 1);
          return Found(body[start..i + 1]);
        }
      }
      assert i == start ==> ch == '{';
    }
    assert text[..|body| - start] == text;
    return Unterminated;
  }

  // ---------- balanced text, as a grammar ----------

  /** A character of a string literal. */
  datatype Unit = Plain(c: char) | Escaped(c: char)

  /** Text whose braces balance outside its string literals. */
  datatype Piece = Ch(c: char) | Str(units: seq<Unit>) | Group(pieces: seq<Piece>)

  predicate UnitOk(u: Unit) {
    u.Plain? ==> u.c != '"' && u.c != '\\'
  }

  predicate PieceOk(p: Piece) {
    match p
    case Ch(c) => c !in {'{', '}', '"'}
    case Str(units) => forall u :: u in units ==> UnitOk(u)
    case Group(pieces) => AllOk(pieces)
  }

  predicate AllOk(pieces: seq<Piece>) {
    forall p :: p in pieces ==> PieceOk(p)
  }

  function PrintUnit(u: Unit): string {
    match u
    case Plain(c) => [c]
    case Escaped(c) => ['\\', c]
  }

  function PrintUnits(units: seq<Unit>): string {
    if units == [] then "" else PrintUnits(Init(units)) + PrintUnit(Last(units))
  }

  function PrintPiece(p: Piece): string {
    match p
    case Ch(c) => [c]
    case Str(units) => "\"" + PrintUnits(units) + "\""
    case Group(pieces) => "{" + PrintAll(pieces) + "}"
  }

  function PrintAll(pieces: seq<Piece>): string {
    if pieces == [] then "" else PrintAll(Init(pieces)) + PrintPiece(Last(pieces))
  }

  /** A balanced object: the text of one group. */
  ghost predicate IsGroup(text: string) {
    exists pieces :: AllOk(pieces) && text == PrintPiece(Group(pieces))
  }

  // ---------- a group closes exactly at its end ----------

  lemma {:induction false} ScanAppend(s: Scan, a: string, b: string)
    ensures ScanFrom(s, a + b) == ScanFrom(ScanFrom(s, a), b)
  {
    if b == "" {
      assert a + b == a;
    } else {
      ScanAppend(s, a, Init(b));
      assert Init(a + b) == a + Init(b);
    }
  }

  lemma ScanOne(s: Scan, ch: char)
    ensures ScanFrom(s, [ch]) == Feed(s, ch)
  {
    assert Init([ch]) == "";
  }

  /** The text takes the scanner from one state to another, never below a depth. */
  ghost predicate Path(s: Scan, text: string, s': Scan, low: int) {
    ScanFrom(s, text) == s' && forall k :: 0 <= k <= |text| ==> ScanFrom(s, text[..k]).depth >= low
  }

  lemma PathConcat(s: Scan, a: string, s': Scan, b: string, s'': Scan, low: int)
    requires Path(s, a, s', low) && Path(s', b, s'', low)
    ensures Path(s, a + b, s'', low)
  {
    ScanAppend(s, a, b);
    forall k | 0 <= k <= |a + b| ensures ScanFrom(s, (a + b)[..k]).depth >= low {
      if k <= |a| {
        assert (a + b)[..k] == a[..k];
      } else {
        assert (a + b)[..k] == a + b[..k - |a|];
        ScanAppend(s, a, b[..k - |a|]);
      }
    }
  }

  lemma PathOne(s: Scan, ch: char, low: int)
    requires s.depth >= low && Feed(s, ch).depth >= low
    ensures Path(s, [ch], Feed(s, ch), low)
  {
    ScanOne(s, ch);
    assert [ch][..0] == "" && [ch][..1] == [ch];
  }

  function Outside(depth: int): Scan {
    Scan(depth, false, false)
  }

  function Inside(depth: int): Scan {
    Scan(depth, true, false)
  }

  lemma UnitPath(depth: int, u: Unit)
    requires UnitOk(u)
    ensures Path(Inside(depth), PrintUnit(u), Inside(depth), depth)
  {
    if u.Plain? {
      PathOne(Inside(depth), u.c, depth);
    } else {
      PathOne(Inside(depth), '\\', depth);
      PathOne(Scan(depth, true, true), u.c, depth);
      PathConcat(Inside(depth), ['\\'], Scan(depth, true, true), [u.c], Inside(depth), depth);
      assert PrintUnit(u) == ['\\'] + [u.c];
    }
  }

  lemma {:induction false} UnitsPath(depth: int, units: seq<Unit>)
    requires forall u :: u in units ==> UnitOk(u)
    ensures Path(Inside(depth), PrintUnits(units), Inside(depth), depth)
  {
    if units != [] {
      UnitsPath(depth, Init(units));
      UnitPath(depth, Last(units));
      PathConcat(Inside(depth), PrintUnits(Init(units)), Inside(depth), PrintUnit(Last(units)), Inside(depth), depth);
    }
  }

  lemma StrPath(depth: int, units: seq<Unit>)
    requires forall u :: u in units ==> UnitOk(u)
    ensures Path(Outside(depth), PrintPiece(Str(units)), Outside(depth), depth)
  {
    PathOne(Outside(depth), '"', depth);
    UnitsPath(depth, units);
    PathOne(Inside(depth), '"', depth);
    PathConcat(Outside(depth), "\"", Inside(depth), PrintUnits(units), Inside(depth), depth);
    PathConcat(Outside(depth), "\"" + PrintUnits(units), Inside(depth), "\"", Outside(depth), depth);
  }

  /** A group's text between its braces stays inside it. */
  lemma {:induction false} PiecePath(depth: int, p: Piece)
    requires PieceOk(p)
    ensures Path(Outside(depth), PrintPiece(p), Outside(depth), depth)
    decreases p
  {
    match p
    case Ch(c) => PathOne(Outside(depth), c, depth);
    case Str(units) => StrPath(depth, units);
    case Group(pieces) =>
      GroupInner(depth, pieces);
      PathOne(Outside(depth), '{', depth);
      PathOne(Outside(depth + 1), '}', depth);
      PathConcat(Outside(depth), "{", Outside(depth + 1), PrintAll(pieces), Outside(depth + 1), depth);
      PathConcat(Outside(depth), "{" + PrintAll(pieces), Outside(depth + 1), "}", Outside(depth), depth);
  }

  lemma {:induction false} GroupInner(depth: int, pieces: seq<Piece>)
    requires AllOk(pieces)
    ensures Path(Outside(depth + 1), PrintAll(pieces), Outside(depth + 1), depth + 1)
    decreases pieces
  {
    if pieces != [] {
      GroupInner(depth, Init(pieces));
      PiecePath(depth + 1, Last(pieces));
      PathConcat(Outside(depth + 1), PrintAll(Init(pieces)), Outside(depth + 1), PrintPiece(Last(pieces)), Outside(depth + 1), depth + 1);
    } else {
      assert PrintAll(pieces) == "";
    }
  }

  lemma GroupCloses(text: string)
    requires IsGroup(text)
    ensures ClosesAtEnd(text) && text[0] == '{'
  {
    var pieces :| AllOk(pieces) && text == PrintPiece(Group(pieces));
    var body := PrintAll(pieces);
    GroupInner(0, pieces);
    PiecePath(0, Group(pieces));
    PathOne(Outside(0), '{', 0);
    forall k | 0 < k < |text| ensures ScanAll(text[..k]).depth != 0 {
      assert text[..k] == "{" + body[..k - 1];
      ScanAppend(Outside(0), "{", body[..k - 1]);
    }
  }

  // ---------- text that closes at its end is a group ----------

  /** The groups opened so far, outermost first, and the string literal being read. */
  datatype Zipper = Zipper(frames: seq<seq<Piece>>, str: Option<seq<Unit>>, esc: bool)

  function PrintFrames(frames: seq<seq<Piece>>): string {
    if frames == [] then "" else PrintFrames(Init(frames)) + "{" + PrintAll(Last(frames))
  }

  function PrintStr(str: Option<seq<Unit>>): string {
    if str.None? then "" else "\"" + PrintUnits(str.value)
  }

  function PrintZipper(z: Zipper): string {
    PrintFrames(z.frames) + PrintStr(z.str) + if z.esc then "\\" else ""
  }

  ghost predicate ZipperOk(z: Zipper) {
    && z.frames != []
    && (forall frame :: frame in z.frames ==> AllOk(frame))
    && (z.str.Some? ==> forall u :: u in z.str.value ==> UnitOk(u))
    && (z.esc ==> z.str.Some?)
  }

  ghost predicate Mirrors(z: Zipper, s: Scan) {
    |z.frames| == s.depth && z.str.Some? == s.inStr && z.esc == s.esc
  }

  function Pushed(frames: seq<seq<Piece>>, p: Piece): seq<seq<Piece>>
    requires frames != []
  {
    Init(frames) + [Last(frames) + [p]]
  }

  lemma PushedPrints(frames: seq<seq<Piece>>, p: Piece)
    requires frames != []
    ensures PrintFrames(Pushed(frames, p)) == PrintFrames(frames) + PrintPiece(p)
  {
    assert Init(Pushed(frames, p)) == Init(frames);
    assert Init(Last(frames) + [p]) == Last(frames);
  }

  lemma PushedOk(frames: seq<seq<Piece>>, p: Piece)
    requires frames != [] && PieceOk(p) && forall frame :: frame in frames ==> AllOk(frame)
    ensures forall frame :: frame in Pushed(frames, p) ==> AllOk(frame)
  {
    assert forall frame :: frame in Init(frames) ==> frame in frames;
    assert Last(frames) in frames;
  }

  lemma OpenedPrints(frames: seq<seq<Piece>>)
    ensures PrintFrames(frames + [[]]) == PrintFrames(frames) + "{"
  {
    assert Init(frames + [[]]) == frames;
  }

  lemma ClosedPrints(frames: seq<seq<Piece>>)
    requires |frames| >= 2
    ensures PrintFrames(Pushed(Init(frames), Group(Last(frames)))) == PrintFrames(frames) + "}"
  {
    var outer, inner := Init(frames), Last(frames);
    PushedPrints(outer, Group(inner));
    Wrap(PrintFrames(outer), PrintAll(inner));
  }

  lemma Wrap(a: string, x: string)
    ensures (a + "{" + x) + "}" == a + ("{" + x + "}")
  {
  }

  lemma UnitPrints(units: seq<Unit>, u: Unit)
    ensures PrintUnits(units + [u]) == PrintUnits(units) + PrintUnit(u)
  {
    assert Init(units + [u]) == units;
  }

  /** A closing quote files the finished string. */
  lemma ZipQuote(z: Zipper) returns (z': Zipper)
    requires ZipperOk(z) && z.str.Some? && !z.esc
    ensures ZipperOk(z') && |z'.frames| == |z.frames| && z'.str.None? && !z'.esc
    ensures PrintZipper(z') == PrintZipper(z) + "\""
  {
    var p := Str(z.str.value);
    z' := Zipper(Pushed(z.frames, p), None, false);
    PushedPrints(z.frames, p);
    PushedOk(z.frames, p);
  }

  /** A character, or the second one of an escape, extends the string. */
  lemma ZipUnit(z: Zipper, u: Unit) returns (z': Zipper)
    requires ZipperOk(z) && z.str.Some? && UnitOk(u) && z.esc == u.Escaped?
    ensures ZipperOk(z') && |z'.frames| == |z.frames| && z'.str.Some? && !z'.esc
    ensures PrintZipper(z') == PrintZipper(z) + [u.c]
  {
    z' := Zipper(z.frames, Some(z.str.value + [u]), false);
    UnitPrints(z.str.value, u);
  }

  lemma ZipInside(z: Zipper, s: Scan, ch: char) returns (z': Zipper)
    requires ZipperOk(z) && Mirrors(z, s) && s.inStr
    ensures ZipperOk(z') && Mirrors(z', Feed(s, ch)) && PrintZipper(z') == PrintZipper(z) + [ch]
  {
    if s.esc {
      z' := ZipUnit(z, Escaped(ch));
    } else if ch == '\\' {
      z' := z.(esc := true);
    } else if ch == '"' {
      z' := ZipQuote(z);
    } else {
      z' := ZipUnit(z, Plain(ch));
    }
  }

  lemma ZipOutside(z: Zipper, s: Scan, ch: char) returns (z': Zipper)
    requires ZipperOk(z) && Mirrors(z, s) && !s.inStr && Feed(s, ch).depth > 0
    ensures ZipperOk(z') && Mirrors(z', Feed(s, ch)) && PrintZipper(z') == PrintZipper(z) + [ch]
  {
    var frames := z.frames;
    if ch == '"' {
      z' := Zipper(frames, Some([]), false);
    } else if ch == '{' {
      z' := Zipper(frames + [[]], None, false);
      OpenedPrints(frames);
    } else if ch == '}' {
      z' := Zipper(Pushed(Init(frames), Group(Last(frames))), None, false);
      ClosedPrints(frames);
      PushedOk(Init(frames), Group(Last(frames)));
    } else {
      z' := Zipper(Pushed(frames, Ch(ch)), None, false);
      PushedPrints(frames, Ch(ch));
      PushedOk(frames, Ch(ch));
    }
  }

  lemma ZipStep(z: Zipper, s: Scan, ch: char) returns (z': Zipper)
    requires ZipperOk(z) && Mirrors(z, s) && Feed(s, ch).depth != 0
    ensures ZipperOk(z') && Mirrors(z', Feed(s, ch)) && PrintZipper(z') == PrintZipper(z) + [ch]
  {
    if s.inStr { z' := ZipInside(z, s, ch); } else { z' := ZipOutside(z, s, ch); }
  }

  lemma ZipStart() returns (z: Zipper)
    ensures ZipperOk(z) && Mirrors(z, ScanAll("{")) && PrintZipper(z) == "{"
  {
    z := Zipper([[]], None, false);
    assert Init(z.frames) == [];
    ScanOne(Outside(0), '{');
  }

  lemma NeverClosesInit(text: string)
    requires |text| > 1 && NeverCloses(text)
    ensures NeverCloses(Init(text)) && ScanAll(text).depth != 0
    ensures ScanAll(text) == Feed(ScanAll(Init(text)), Last(text))
  {
    assert text[..|text|] == text;
    forall k | 0 < k <= |Init(text)| ensures ScanAll(Init(text)[..k]).depth != 0 {
      assert Init(text)[..k] == text[..k];
    }
  }

  lemma {:induction false} ZipperOf(text: string) returns (z: Zipper)
    requires text != "" && text[0] == '{' && NeverCloses(text)
    ensures ZipperOk(z) && Mirrors(z, ScanAll(text)) && PrintZipper(z) == text
  {
    if |text| == 1 {
      assert text == "{";
      z := ZipStart();
    } else {
      NeverClosesInit(text);
      z := ZipperOf(Init(text));
      z := ZipStep(z, ScanAll(Init(text)), Last(text));
      InitLast(text);
    }
  }

  lemma OneFrame(frames: seq<seq<Piece>>)
    requires |frames| == 1
    ensures PrintFrames(frames) + "}" == PrintPiece(Group(frames[0]))
  {
    assert Init(frames) == [];
  }

  lemma ClosesInit(text: string)
    requires ClosesAtEnd(text) && text[0] == '{'
    ensures |text| > 1 && NeverCloses(Init(text))
    ensures Feed(ScanAll(Init(text)), Last(text)) == ScanAll(text)
  {
    ScanOne(Outside(0), '{');
    assert |text| == 1 ==> text == ['{'];
    forall k | 0 < k <= |Init(text)| ensures ScanAll(Init(text)[..k]).depth != 0 {
      assert Init(text)[..k] == text[..k];
    }
  }

  lemma ClosedIsGroup(text: string)
    requires ClosesAtEnd(text) && text[0] == '{'
    ensures IsGroup(text)
  {
    ClosesInit(text);
    var z := ZipperOf(Init(text));
    LastCloses(z, ScanAll(Init(text)), Last(text));
    InitLast(text);
    GroupPrinted(z.frames[0]);
  }

  lemma GroupPrinted(pieces: seq<Piece>)
    requires AllOk(pieces)
    ensures IsGroup(PrintPiece(Group(pieces)))
  {
  }

  /** The character that brings the depth to zero closes the one open group. */
  lemma LastCloses(z: Zipper, s: Scan, ch: char)
    requires ZipperOk(z) && Mirrors(z, s) && Feed(s, ch).depth == 0
    ensures |z.frames| == 1 && AllOk(z.frames[0]) && PrintZipper(z) + [ch] == PrintPiece(Group(z.frames[0]))
  {
    assert z.frames[0] in z.frames;
    OneFrame(z.frames);
  }

  // ---------- what is extracted ----------

  /** The two definitions of a balanced object agree. */
  lemma ClosesAtEndIffGroup(text: string)
    ensures text != "" && text[0] == '{' && ClosesAtEnd(text) <==> IsGroup(text)
  {
    if IsGroup(text) { GroupCloses(text); }
    if text != "" && text[0] == '{' && ClosesAtEnd(text) { ClosedIsGroup(text); }
  }

  /** Where an object starts in a body whose earlier text has no brace. */
  ghost predicate Splits(body: string, before: string, slice: string, after: string) {
    body == before + slice + after && '{' !in before && IsGroup(slice)
  }

  /** A body has at most one such object: the scanner's answer is forced. */
  lemma ScannedIsForced(body: string, before: string, slice: string, after: string, r: Extraction)
    requires Splits(body, before, slice, after) && Scanned(body, r)
    ensures r == Found(slice)
  {
    StartsThere(body, before, slice, after);
    forall start: nat | FirstBraceAt(body, start) ensures !NeverCloses(body[start..]) {
      ClosesSomewhere(body, before, slice, after, start);
    }
    var start: nat, end: nat :| FirstBraceAt(body, start) && start < end <= |body|
                                && r.slice == body[start..end] && ClosesAtEnd(r.slice);
    SameStart(body, before, slice, after, start);
    SliceIsPrefix(body, start, end);
    OneClosing(slice, r.slice, body[start..]);
  }

  lemma StartsThere(body: string, before: string, slice: string, after: string)
    requires Splits(body, before, slice, after)
    ensures |before| < |body| && body[|before|] == '{' && '{' in body
    ensures slice <= body[|before|..] && ClosesAtEnd(slice)
  {
    GroupCloses(slice);
    assert body[|before|..] == slice + after;
    assert body[|before|] in body;
  }

  lemma ClosesSomewhere(body: string, before: string, slice: string, after: string, start: nat)
    requires Splits(body, before, slice, after) && FirstBraceAt(body, start)
    ensures !NeverCloses(body[start..])
  {
    StartsThere(body, before, slice, after);
    SameStart(body, before, slice, after, start);
    assert body[start..][..|slice|] == slice;
  }

  lemma SameStart(body: string, before: string, slice: string, after: string, start: nat)
    requires Splits(body, before, slice, after) && FirstBraceAt(body, start)
    ensures start == |before|
  {
    GroupCloses(slice);
    assert body[|before|] == '{';
    assert forall i :: 0 <= i < |before| ==> body[i] == before[i] && before[i] in before;
    assert forall i :: 0 <= i < start ==> body[i] == body[..start][i];
  }

  lemma OneClosing(a: string, b: string, text: string)
    requires ClosesAtEnd(a) && ClosesAtEnd(b) && a <= text && b <= text
    ensures a == b
  {
    assert forall k :: 0 <= k <= |a| ==> a[..k] == text[..k];
    assert forall k :: 0 <= k <= |b| ==> b[..k] == text[..k];
    assert a == text[..|a|] && b == text[..|b|];
  }

  lemma FoundSplits(body: string, slice: string) returns (before: string, after: string)
    requires Scanned(body, Found(slice))
    ensures Splits(body, before, slice, after)
  {
    var start: nat, end: nat :| FirstBraceAt(body, start) && start < end <= |body|
                                && slice == body[start..end] && ClosesAtEnd(slice);
    SliceSplits(body, start, end);
    before, after := body[..start], body[end..];
  }

  lemma SliceSplits(body: string, start: nat, end: nat)
    requires FirstBraceAt(body, start) && start < end <= |body| && ClosesAtEnd(body[start..end])
    ensures Splits(body, body[..start], body[start..end], body[end..])
  {
    ClosedIsGroup(body[start..end]);
    assert body == body[..start] + body[start..end] + body[end..];
  }

  /**
   * Main result: for any body, the scanner finds exactly the balanced object, in the sense of the grammar, that
   * starts at the first brace; and finds none when there is none.
   */
  lemma ExtractsTheObject(body: string, r: Extraction, slice: string)
    requires Scanned(body, r)
    ensures r == Found(slice) <==> exists before, after :: Splits(body, before, slice, after)
  {
    if r == Found(slice) {
      var _, _ := FoundSplits(body, slice);
    }
    if before, after :| Splits(body, before, slice, after) {
      ScannedIsForced(body, before, slice, after, r);
    }
  }
}
