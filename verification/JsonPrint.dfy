/**
 * The scanner undoes a JSON printer (sections 4 and 7 of RFC 8259; legacy/eval/mast/judge.ts:161-186).
 */
module JsonPrint {
  import opened Basics
  import opened JsonScan

  /** A printer's choices: escapes, the white space between tokens at each depth, and what follows a name. */
  datatype Style = Style(escape: char -> seq<Unit>, gap: nat -> string, colon: string)

  /** No brace and no quote. */
  predicate Bland(text: string) {
    '{' !in text && '}' !in text && '"' !in text
  }

  /** Every character is written as well-formed units, and white space is bland. */
  ghost predicate Sound(style: Style) {
    && (forall c, u :: u in style.escape(c) ==> UnitOk(u))
    && (forall depth :: Bland(style.gap(depth)))
    && Bland(style.colon)
  }

  function HexDigit(n: int): char
    requires 0 <= n < 16
  {
    "0123456789abcdef"[n]
  }

  /** The short escapes, and \u00XX for the other control characters. */
  function StandardEscape(c: char): seq<Unit> {
    if c == '"' || c == '\\' then [Escaped(c)]
    else if c == '\n' then [Escaped('n')]
    else if c == '\r' then [Escaped('r')]
    else if c == '\t' then [Escaped('t')]
    else if c < ' ' then
      [Escaped('u'), Plain('0'), Plain('0'), Plain(HexDigit(c as int / 16)), Plain(HexDigit(c as int % 16))]
    else [Plain(c)]
  }

  function Spaces(n: nat): string {
    seq(n, _ => ' ')
  }

  const Compact := Style(StandardEscape, _ => "", ":")

  const Indented := Style(StandardEscape, (depth: nat) => "\n" + Spaces(depth) + Spaces(depth), ": ")

  lemma StandardIsSound(c: char, u: Unit)
    requires u in StandardEscape(c)
    ensures UnitOk(u)
  {
    assert forall n :: 0 <= n < 16 ==> HexDigit(n) in "0123456789abcdef";
  }

  lemma StylesAreSound()
    ensures Sound(Compact) && Sound(Indented)
  {
    forall c, u | u in StandardEscape(c) ensures UnitOk(u) {
      StandardIsSound(c, u);
    }
  }

  // ---------- the printer ----------

  function EscapeAll(style: Style, s: string): seq<Unit> {
    if s == "" then [] else EscapeAll(style, Init(s)) + style.escape(Last(s))
  }

  function PrintString(style: Style, s: string): string {
    "\"" + PrintUnits(EscapeAll(style, s)) + "\""
  }

  function PrintJson(style: Style, depth: nat, j: Json): string
    decreases j
  {
    match j
    case JNull => "null"
    case JBool(b) => if b then "true" else "false"
    case JNumber(literal) => literal
    case JString(s) => PrintString(style, s)
    case JArray(elems) =>
      if elems == [] then "[]" else "[" + style.gap(depth + 1) + PrintElems(style, depth, elems) + style.gap(depth) + "]"
    case JObject(members) => "{" + PrintInner(style, depth, members) + "}"
  }

  function PrintElems(style: Style, depth: nat, elems: seq<Json>): string
    requires elems != []
    decreases elems
  {
    (if |elems| == 1 then "" else PrintElems(style, depth, Init(elems)) + "," + style.gap(depth + 1))
    + PrintJson(style, depth + 1, Last(elems))
  }

  function PrintInner(style: Style, depth: nat, members: seq<Member>): string
    decreases members, 1
  {
    if members == [] then "" else style.gap(depth + 1) + PrintMembers(style, depth, members) + style.gap(depth)
  }

  function PrintMembers(style: Style, depth: nat, members: seq<Member>): string
    requires members != []
    decreases members, 0
  {
    (if |members| == 1 then "" else PrintMembers(style, depth, Init(members)) + "," + style.gap(depth + 1))
    + PrintMember(style, depth, Last(members))
  }

  function PrintMember(style: Style, depth: nat, m: Member): string
    decreases m
  {
    PrintString(style, m.name) + style.colon + PrintJson(style, depth + 1, m.value)
  }

  /** Number literals carry no brace and no quote. */
  predicate NumbersOk(j: Json) {
    match j
    case JNumber(literal) => Bland(literal)
    case JArray(elems) => forall i :: 0 <= i < |elems| ==> NumbersOk(elems[i])
    case JObject(members) => forall i :: 0 <= i < |members| ==> NumbersOk(members[i].value)
    case _ => true
  }

  // ---------- printed JSON balances ----------

  ghost predicate Balanced(text: string) {
    exists pieces :: AllOk(pieces) && text == PrintAll(pieces)
  }

  lemma {:induction false} PrintAllAppend(a: seq<Piece>, b: seq<Piece>)
    ensures PrintAll(a + b) == PrintAll(a) + PrintAll(b)
  {
    if b == [] {
      assert a + b == a;
    } else {
      PrintAllAppend(a, Init(b));
      assert Init(a + b) == a + Init(b) && Last(a + b) == Last(b);
      Assoc(PrintAll(a), PrintAll(Init(b)), PrintPiece(Last(b)));
    }
  }

  lemma BalancedConcat(a: string, b: string)
    requires Balanced(a) && Balanced(b)
    ensures Balanced(a + b)
  {
    var p :| AllOk(p) && a == PrintAll(p);
    var q :| AllOk(q) && b == PrintAll(q);
    PrintAllAppend(p, q);
    assert AllOk(p + q);
  }

  lemma OnePiece(p: Piece)
    requires PieceOk(p)
    ensures Balanced(PrintPiece(p))
  {
    assert Init([p]) == [] && PrintAll([p]) == "" + PrintPiece(p) && AllOk([p]);
  }

  lemma {:induction false} BlandIsBalanced(text: string)
    requires Bland(text)
    ensures Balanced(text)
  {
    if text == "" {
      assert AllOk([]) && PrintAll([]) == "";
    } else {
      BlandIsBalanced(Init(text));
      OnePiece(Ch(Last(text)));
      BalancedConcat(Init(text), [Last(text)]);
      assert Init(text) + [Last(text)] == text;
    }
  }

  lemma {:induction false} EscapesOk(style: Style, s: string)
    requires Sound(style)
    ensures forall u :: u in EscapeAll(style, s) ==> UnitOk(u)
  {
    if s != "" {
      EscapesOk(style, Init(s));
    }
  }

  lemma StringIsBalanced(style: Style, s: string)
    requires Sound(style)
    ensures Balanced(PrintString(style, s))
  {
    EscapesOk(style, s);
    OnePiece(Str(EscapeAll(style, s)));
  }

  lemma Concat3(a: string, b: string, c: string)
    requires Balanced(a) && Balanced(b) && Balanced(c)
    ensures Balanced(a + b + c)
  {
    BalancedConcat(a, b);
    BalancedConcat(a + b, c);
  }

  lemma GroupOf(inner: string)
    requires Balanced(inner)
    ensures IsGroup("{" + inner + "}") && Balanced("{" + inner + "}")
  {
    var pieces :| AllOk(pieces) && inner == PrintAll(pieces);
    OnePiece(Group(pieces));
  }

  lemma SeparatorIsBalanced(style: Style, depth: nat)
    requires Sound(style)
    ensures Balanced("," + style.gap(depth)) && Balanced("[" + style.gap(depth)) && Balanced(style.gap(depth) + "]")
    ensures Balanced(style.gap(depth)) && Balanced(style.colon)
  {
    BlandIsBalanced("," + style.gap(depth));
    BlandIsBalanced("[" + style.gap(depth));
    BlandIsBalanced(style.gap(depth) + "]");
    BlandIsBalanced(style.gap(depth));
    BlandIsBalanced(style.colon);
  }

  lemma {:induction false} JsonIsBalanced(style: Style, depth: nat, j: Json)
    requires Sound(style) && NumbersOk(j)
    ensures Balanced(PrintJson(style, depth, j))
    decreases j
  {
    match j
    case JString(s) => StringIsBalanced(style, s);
    case JArray(elems) =>
      if elems == [] {
        BlandIsBalanced("[]");
      } else {
        ElemsAreBalanced(style, depth, elems);
        SeparatorIsBalanced(style, depth + 1);
        SeparatorIsBalanced(style, depth);
        Concat3("[" + style.gap(depth + 1), PrintElems(style, depth, elems), style.gap(depth) + "]");
        assert PrintJson(style, depth, j)
            == ("[" + style.gap(depth + 1)) + PrintElems(style, depth, elems) + (style.gap(depth) + "]");
      }
    case JObject(members) =>
      InnerIsBalanced(style, depth, members);
      GroupOf(PrintInner(style, depth, members));
    case _ => BlandIsBalanced(PrintJson(style, depth, j));
  }

  lemma {:induction false} ElemsAreBalanced(style: Style, depth: nat, elems: seq<Json>)
    requires Sound(style) && elems != [] && forall i :: 0 <= i < |elems| ==> NumbersOk(elems[i])
    ensures Balanced(PrintElems(style, depth, elems))
    decreases elems
  {
    JsonIsBalanced(style, depth + 1, Last(elems));
    ElemsPrinted(style, depth, elems);
    if |elems| > 1 {
      ElemsAreBalanced(style, depth, Init(elems));
      SeparatorIsBalanced(style, depth + 1);
      Concat3(PrintElems(style, depth, Init(elems)), "," + style.gap(depth + 1), PrintJson(style, depth + 1, Last(elems)));
    }
  }

  lemma ElemsPrinted(style: Style, depth: nat, elems: seq<Json>)
    requires elems != []
    ensures PrintElems(style, depth, elems)
         == if |elems| == 1 then PrintJson(style, depth + 1, Last(elems))
            else PrintElems(style, depth, Init(elems)) + ("," + style.gap(depth + 1)) + PrintJson(style, depth + 1, Last(elems))
  {
    if |elems| == 1 {
      assert "" + PrintJson(style, depth + 1, Last(elems)) == PrintJson(style, depth + 1, Last(elems));
    } else {
      Assoc(PrintElems(style, depth, Init(elems)), ",", style.gap(depth + 1));
    }
  }

  lemma {:induction false} InnerIsBalanced(style: Style, depth: nat, members: seq<Member>)
    requires Sound(style) && forall i :: 0 <= i < |members| ==> NumbersOk(members[i].value)
    ensures Balanced(PrintInner(style, depth, members))
    decreases members, 1
  {
    if members == [] {
      BlandIsBalanced("");
    } else {
      MembersAreBalanced(style, depth, members);
      SeparatorIsBalanced(style, depth + 1);
      SeparatorIsBalanced(style, depth);
      Concat3(style.gap(depth + 1), PrintMembers(style, depth, members), style.gap(depth));
    }
  }

  lemma MemberIsBalanced(style: Style, depth: nat, m: Member)
    requires Sound(style) && NumbersOk(m.value)
    ensures Balanced(PrintMember(style, depth, m))
    decreases m
  {
    StringIsBalanced(style, m.name);
    JsonIsBalanced(style, depth + 1, m.value);
    BlandIsBalanced(style.colon);
    Concat3(PrintString(style, m.name), style.colon, PrintJson(style, depth + 1, m.value));
  }

  lemma {:induction false} MembersAreBalanced(style: Style, depth: nat, members: seq<Member>)
    requires Sound(style) && members != [] && forall i :: 0 <= i < |members| ==> NumbersOk(members[i].value)
    ensures Balanced(PrintMembers(style, depth, members))
    decreases members, 0
  {
    MemberIsBalanced(style, depth, Last(members));
    MembersPrinted(style, depth, members);
    if |members| > 1 {
      MembersAreBalanced(style, depth, Init(members));
      SeparatorIsBalanced(style, depth + 1);
      Concat3(PrintMembers(style, depth, Init(members)), "," + style.gap(depth + 1), PrintMember(style, depth, Last(members)));
    }
  }

  lemma MembersPrinted(style: Style, depth: nat, members: seq<Member>)
    requires members != []
    ensures PrintMembers(style, depth, members)
         == if |members| == 1 then PrintMember(style, depth, Last(members))
            else PrintMembers(style, depth, Init(members)) + ("," + style.gap(depth + 1)) + PrintMember(style, depth, Last(members))
  {
    if |members| == 1 {
      assert "" + PrintMember(style, depth, Last(members)) == PrintMember(style, depth, Last(members));
    } else {
      Assoc(PrintMembers(style, depth, Init(members)), ",", style.gap(depth + 1));
    }
  }

  /**
   * Main result: whatever an object contains, however it is laid out and escaped, and whatever follows it, the
   * scanner gives back exactly the printed object when the text before it has no brace.
   */
  lemma ExtractUndoesPrinting(style: Style, members: seq<Member>, before: string, after: string, r: Extraction)
    requires Sound(style) && NumbersOk(JObject(members)) && '{' !in before
    requires Scanned(before + PrintJson(style, 0, JObject(members)) + after, r)
    ensures r == Found(PrintJson(style, 0, JObject(members)))
  {
    InnerIsBalanced(style, 0, members);
    GroupOf(PrintInner(style, 0, members));
    var slice := PrintJson(style, 0, JObject(members));
    assert Splits(before + slice + after, before, slice, after);
    ScannedIsForced(before + slice + after, before, slice, after, r);
  }

  // ---------- text before the object ----------

  /** A brace in the leading text wins: whatever the scanner finds starts there, before the object. */
  lemma EarlierBraceWins(before: string, rest: string, r: Extraction)
    requires '{' in before && Scanned(before + rest, r) && r.Found?
    ensures exists start: nat :: start < |before| && FirstBraceAt(before, start) && r.slice <= (before + rest)[start..]
  {
    var body := before + rest;
    var start: nat, end: nat :| FirstBraceAt(body, start) && start < end <= |body| && r.slice == body[start..end];
    var i :| 0 <= i < |before| && before[i] == '{';
    assert body[i] == '{';
    assert forall k :: 0 <= k < start ==> body[k] == body[..start][k];
    assert before[..start] == body[..start] && before[start] == body[start];
    assert body[start..end] == body[start..][..end - start];
  }

  /** Whatever object is printed after the text, and whatever follows, the scanner gives back exactly that object. */
  ghost predicate RoundTrips(style: Style, before: string) {
    forall members, after :: NumbersOk(JObject(members)) ==>
      Scanned(before + PrintJson(style, 0, JObject(members)) + after, Found(PrintJson(style, 0, JObject(members))))
  }

  lemma SplitIsScanned(body: string, before: string, slice: string, after: string)
    requires Splits(body, before, slice, after)
    ensures Scanned(body, Found(slice))
  {
    GroupCloses(slice);
    var start, end := |before|, |before| + |slice|;
    assert body[..start] == before && body[start..end] == slice;
    assert FirstBraceAt(body, start);
  }

  /** The empty object, and one whose text goes on differently. */
  lemma TwoObjects(style: Style)
    requires Sound(style)
    ensures PrintJson(style, 0, JObject([])) == "{}"
    ensures var text := PrintJson(style, 0, JObject([Member("", JNull)])); |text| > 2 && text[0] == '{' && text[1] != '}'
  {
    var inner := PrintInner(style, 0, [Member("", JNull)]);
    var gap, name := style.gap(1), PrintString(style, "");
    assert inner == gap + PrintMembers(style, 0, [Member("", JNull)]) + style.gap(0);
    assert PrintMembers(style, 0, [Member("", JNull)]) == PrintMember(style, 0, Member("", JNull));
    assert name == "\"" + "" + "\"";
    assert Bland(gap);
    assert |gap| > 0 ==> inner[0] == gap[0] && gap[0] in gap;
    assert |gap| == 0 ==> inner[0] == '"';
  }

  /** Found as the empty object, a slice that starts in the leading text lies in it. */
  lemma EmptyObjectInside(before: string, after: string)
    requires '{' in before && Scanned(before + "{}" + after, Found("{}"))
    ensures exists start: nat :: start + 1 < |before| && FirstBraceAt(before, start) && before[start + 1] == '}'
  {
    assert before + "{}" + after == before + ("{}" + after);
    EarlierBraceWins(before, "{}" + after, Found("{}"));
    var start: nat :| start < |before| && FirstBraceAt(before, start) && "{}" <= (before + ("{}" + after))[start..];
    assert (before + ("{}" + after))[start + 1] == "{}"[1];
  }

  lemma OneFirstBrace(body: string, i: nat, j: nat)
    requires FirstBraceAt(body, i) && FirstBraceAt(body, j)
    ensures i == j
  {
    assert forall k :: 0 <= k < i ==> body[k] == body[..i][k];
    assert forall k :: 0 <= k < j ==> body[k] == body[..j][k];
  }

  /** Then whatever else is found goes on in the same way. */
  lemma SecondIsClosing(before: string, text: string, start: nat)
    requires start + 1 < |before| && FirstBraceAt(before, start) && before[start + 1] == '}'
    requires |text| > 1 && Scanned(before + text + "", Found(text))
    ensures text[1] == '}'
  {
    assert before + text + "" == before + text;
    EarlierBraceWins(before, text, Found(text));
    var other: nat :| other < |before| && FirstBraceAt(before, other) && text <= (before + text)[other..];
    OneFirstBrace(before, start, other);
    assert text[1] == (before + text)[start..][1] == (before + text)[start + 1];
  }

  /** Main result: after a given text every object comes back, whatever follows it, exactly when the text has no brace. */
  lemma RoundTripsIff(style: Style, before: string)
    requires Sound(style)
    ensures RoundTrips(style, before) <==> '{' !in before
  {
    if '{' !in before {
      forall members, after | NumbersOk(JObject(members))
        ensures Scanned(before + PrintJson(style, 0, JObject(members)) + after, Found(PrintJson(style, 0, JObject(members))))
      {
        InnerIsBalanced(style, 0, members);
        GroupOf(PrintInner(style, 0, members));
        var slice := PrintJson(style, 0, JObject(members));
        SplitIsScanned(before + slice + after, before, slice, after);
      }
    } else if RoundTrips(style, before) {
      TwoObjects(style);
      var one := [Member("", JNull)];
      assert NumbersOk(JObject([])) && NumbersOk(JObject(one));
      assert Scanned(before + PrintJson(style, 0, JObject([])) + "", Found(PrintJson(style, 0, JObject([]))));
      EmptyObjectInside(before, "");
      var start: nat :| start + 1 < |before| && FirstBraceAt(before, start) && before[start + 1] == '}';
      assert Scanned(before + PrintJson(style, 0, JObject(one)) + "", Found(PrintJson(style, 0, JObject(one))));
      SecondIsClosing(before, PrintJson(style, 0, JObject(one)), start);
    }
  }

  /** Both standard layouts, compact and indented, meet that condition. */
  lemma StandardRoundTripsIff(before: string)
    ensures RoundTrips(Compact, before) <==> '{' !in before
    ensures RoundTrips(Indented, before) <==> '{' !in before
  {
    StylesAreSound();
    RoundTripsIff(Compact, before);
    RoundTripsIff(Indented, before);
  }
}
