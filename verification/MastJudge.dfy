/**
 * The judge's report and its histogram (legacy/eval/mast/judge.ts:76-139, legacy/eval/mast/taxonomy.ts).
 */
module MastJudge {
  import opened Basics

  datatype Category = FC1 | FC2 | FC3

  datatype Mode = Mode(code: string, category: Category)

  const Modes := [
    Mode("FM-1.1", FC1), Mode("FM-1.2", FC1), Mode("FM-1.3", FC1), Mode("FM-1.4", FC1), Mode("FM-1.5", FC1),
    Mode("FM-2.1", FC2), Mode("FM-2.2", FC2), Mode("FM-2.3", FC2), Mode("FM-2.4", FC2), Mode("FM-2.5", FC2),
    Mode("FM-2.6", FC2), Mode("FM-3.1", FC3), Mode("FM-3.2", FC3), Mode("FM-3.3", FC3)]

  datatype Claim = Claim(code: string, present: bool, evidence: string)

  datatype Verdict = Verdict(code: string, category: Category, present: bool, evidence: string)

  /** A property of a parsed object; the last of duplicate names counts. */
  function Property(members: seq<Member>, name: string): Option<Json> {
    if members == [] then None
    else if Last(members).name == name then Some(Last(members).value)
    else Property(Init(members), name)
  }

  function PropertyOf(j: Json, name: string): Option<Json> {
    if j.JObject? then Property(j.members, name) else None
  }

  predicate IsMode(code: string) {
    exists i :: 0 <= i < |Modes| && Modes[i].code == code
  }

  /** What one element of the answer says, if it is an object with a known code. */
  function ClaimIn(entry: Json): Option<Claim> {
    match PropertyOf(entry, "code")
    case Some(JString(code)) =>
      if !IsMode(code) then None
      else
        Some(Claim(code, PropertyOf(entry, "present") == Some(JBool(true)),
                   match PropertyOf(entry, "evidence") case Some(JString(s)) => s case _ => ""))
    case _ => None
  }

  function Answer(obj: Json): seq<Json> {
    match PropertyOf(obj, "modes")
    case Some(JArray(elems)) => elems
    case _ => []
  }

  /** The i-th element is the last one about a code. */
  ghost predicate LastAbout(answer: seq<Json>, code: string, i: int) {
    && 0 <= i < |answer| && ClaimIn(answer[i]).Some? && ClaimIn(answer[i]).value.code == code
    && forall j :: i < j < |answer| && ClaimIn(answer[j]).Some? ==> ClaimIn(answer[j]).value.code != code
  }

  ghost predicate NoneAbout(answer: seq<Json>, code: string) {
    forall j :: 0 <= j < |answer| && ClaimIn(answer[j]).Some? ==> ClaimIn(answer[j]).value.code != code
  }

  /** A mode's verdict: the last claim about it, else absent. */
  ghost predicate Judges(v: Verdict, m: Mode, answer: seq<Json>) {
    && v.code == m.code && v.category == m.category
    && (NoneAbout(answer, m.code) ==> !v.present && v.evidence == "")
    && forall i :: LastAbout(answer, m.code, i) ==>
         v.present == ClaimIn(answer[i]).value.present && v.evidence == ClaimIn(answer[i]).value.evidence
  }

  /** The modes in order, each judged once. */
  ghost predicate IsReport(all: seq<Mode>, modes: seq<Verdict>, answer: seq<Json>) {
    |modes| == |all| && forall k :: 0 <= k < |all| ==> Judges(modes[k], all[k], answer)
  }

  /** seen holds, per code, the last claim so far. */
  ghost predicate Seen(seen: map<string, Claim>, answer: seq<Json>) {
    forall code ::
      && (code !in seen ==> NoneAbout(answer, code))
      && (code in seen ==> exists i :: LastAbout(answer, code, i) && ClaimIn(answer[i]).value == seen[code])
  }

  lemma SeenStep(seen: map<string, Claim>, answer: seq<Json>, entry: Json)
    requires Seen(seen, answer)
    ensures Seen(if ClaimIn(entry).Some? then seen[ClaimIn(entry).value.code := ClaimIn(entry).value] else seen, answer + [entry])
  {
    var claim, longer := ClaimIn(entry), answer + [entry];
    var seen' := if claim.Some? then seen[claim.value.code := claim.value] else seen;
    forall code
      ensures code !in seen' ==> NoneAbout(longer, code)
      ensures code in seen' ==> exists i :: LastAbout(longer, code, i) && ClaimIn(longer[i]).value == seen'[code]
    {
      if claim.Some? && claim.value.code == code {
        assert LastAbout(longer, code, |answer|);
      } else if code in seen {
        var i :| LastAbout(answer, code, i) && ClaimIn(answer[i]).value == seen[code];
        assert LastAbout(longer, code, i);
      }
    }
  }

  method CollectClaims(answer: seq<Json>) returns (seen: map<string, Claim>)
    ensures Seen(seen, answer)
  {
    seen := map[];
    for i := 0 to |answer|
      invariant Seen(seen, answer[..i])
    {
      SeenStep(seen, answer[..i], answer[i]);
      assert answer[..i + 1] == answer[..i] + [answer[i]];
      var claim := ClaimIn(answer[i]);
      if claim.None? { continue; }
      seen := seen[claim.value.code := claim.value];
    }
    assert answer[..|answer|] == answer;
  }

  method JudgeAll(all: seq<Mode>, seen: map<string, Claim>, ghost answer: seq<Json>) returns (modes: seq<Verdict>)
    requires Seen(seen, answer)
    ensures IsReport(all, modes, answer)
  {
    modes := [];
    for k := 0 to |all|
      invariant IsReport(all[..k], modes, answer)
    {
      var m := all[k];
      var v := if m.code in seen then Verdict(m.code, m.category, seen[m.code].present, seen[m.code].evidence)
               else Verdict(m.code, m.category, false, "");
      JudgesSeen(v, m, answer, seen);
      modes := modes + [v];
    }
    assert all[..|all|] == all;
  }

  /** Whatever the answer holds, the report is total: the fourteen modes, in order. */
  method ParseReport(obj: Json) returns (modes: seq<Verdict>)
    ensures IsReport(Modes, modes, Answer(obj)) && IsElements(obj, Answer(obj))
  {
    AnswerIsElements(obj);
    var seen := CollectClaims(Answer(obj));
    modes := JudgeAll(Modes, seen, Answer(obj));
  }

  lemma JudgesSeen(v: Verdict, m: Mode, answer: seq<Json>, seen: map<string, Claim>)
    requires Seen(seen, answer)
    requires v == if m.code in seen then Verdict(m.code, m.category, seen[m.code].present, seen[m.code].evidence)
                  else Verdict(m.code, m.category, false, "")
    ensures Judges(v, m, answer)
  {
    if m.code in seen {
      var i :| LastAbout(answer, m.code, i) && ClaimIn(answer[i]).value == seen[m.code];
      assert forall j :: LastAbout(answer, m.code, j) ==> j == i;
    }
  }

  // ---------- the report, in terms of the answer itself ----------

  /** An object's property has a value: the last of duplicate names counts. */
  ghost predicate HasMember(j: Json, name: string, value: Json) {
    j.JObject? && exists i :: MemberAt(j.members, name, value, i)
  }

  ghost predicate MemberAt(members: seq<Member>, name: string, value: Json, i: int) {
    0 <= i < |members| && members[i] == Member(name, value) && forall k :: i < k < |members| ==> members[k].name != name
  }

  lemma {:induction false} PropertyIsMember(members: seq<Member>, name: string, value: Json)
    ensures Property(members, name) == Some(value) <==> exists i :: MemberAt(members, name, value, i)
  {
    if members != [] {
      InitLast(members);
      if Last(members).name == name {
        assert Last(members).value == value ==> MemberAt(members, name, value, |members| - 1);
        assert forall i :: MemberAt(members, name, value, i) ==> i == |members| - 1;
      } else {
        PropertyIsMember(Init(members), name, value);
        forall i ensures MemberAt(members, name, value, i) <==> MemberAt(Init(members), name, value, i) {
          OtherMember(members, name, value, i);
        }
      }
    }
  }

  lemma OtherMember(members: seq<Member>, name: string, value: Json, i: int)
    requires members != [] && Last(members).name != name
    ensures MemberAt(members, name, value, i) <==> MemberAt(Init(members), name, value, i)
  {
    InitLast(members);
  }

  lemma PropertyByName(j: Json, name: string, value: Json)
    ensures PropertyOf(j, name) == Some(value) <==> HasMember(j, name, value)
  {
    if j.JObject? { PropertyIsMember(j.members, name, value); }
  }

  /** The i-th element of an answer is the last to name a code. */
  ghost predicate LastNaming(elems: seq<Json>, code: string, i: int) {
    && 0 <= i < |elems| && HasMember(elems[i], "code", JString(code))
    && forall j :: i < j < |elems| ==> !HasMember(elems[j], "code", JString(code))
  }

  /** A verdict repeats what an element says: present only if it is just `true`, and its evidence if that is a text. */
  ghost predicate Repeats(v: Verdict, entry: Json) {
    && (v.present <==> HasMember(entry, "present", JBool(true)))
    && (forall s :: HasMember(entry, "evidence", JString(s)) ==> v.evidence == s)
    && (v.evidence != "" ==> HasMember(entry, "evidence", JString(v.evidence)))
  }

  /** The answer's elements: those of the array under "modes", if there is one. */
  ghost predicate IsElements(obj: Json, elems: seq<Json>) {
    if exists es :: HasMember(obj, "modes", JArray(es)) then HasMember(obj, "modes", JArray(elems)) else elems == []
  }

  lemma AnswerIsElements(obj: Json)
    ensures IsElements(obj, Answer(obj))
  {
    if es :| HasMember(obj, "modes", JArray(es)) { PropertyByName(obj, "modes", JArray(es)); }
    PropertyByName(obj, "modes", JArray(Answer(obj)));
  }

  lemma ClaimNames(entry: Json, code: string)
    requires IsMode(code)
    ensures (ClaimIn(entry).Some? && ClaimIn(entry).value.code == code) <==> HasMember(entry, "code", JString(code))
  {
    PropertyByName(entry, "code", JString(code));
  }

  lemma ClaimRepeats(v: Verdict, entry: Json)
    requires ClaimIn(entry).Some? && v.present == ClaimIn(entry).value.present && v.evidence == ClaimIn(entry).value.evidence
    ensures Repeats(v, entry)
  {
    PropertyByName(entry, "present", JBool(true));
    forall s ensures PropertyOf(entry, "evidence") == Some(JString(s)) <==> HasMember(entry, "evidence", JString(s)) {
      PropertyByName(entry, "evidence", JString(s));
    }
  }

  /** Main result: each mode's verdict repeats the last element that names its code; without one it is absent. */
  lemma ReportSays(elems: seq<Json>, modes: seq<Verdict>, k: nat)
    requires k < |Modes| && IsReport(Modes, modes, elems)
    ensures modes[k].code == Modes[k].code && modes[k].category == Modes[k].category
    ensures forall i :: LastNaming(elems, Modes[k].code, i) ==> Repeats(modes[k], elems[i])
    ensures (forall i :: 0 <= i < |elems| ==> !HasMember(elems[i], "code", JString(Modes[k].code))) ==> modes[k] == Verdict(Modes[k].code, Modes[k].category, false, "")
  {
    var code := Modes[k].code;
    assert Judges(modes[k], Modes[k], elems) && IsMode(code);
    forall j | 0 <= j < |elems|
      ensures (ClaimIn(elems[j]).Some? && ClaimIn(elems[j]).value.code == code) <==> HasMember(elems[j], "code", JString(code))
    {
      ClaimNames(elems[j], code);
    }
    forall i | LastNaming(elems, code, i) ensures Repeats(modes[k], elems[i]) {
      assert LastAbout(elems, code, i);
      ClaimRepeats(modes[k], elems[i]);
    }
  }

  function CodeOf(category: nat, n: nat): string
    requires category < 10 && n < 10
  {
    "FM-" + ["0123456789"[category]] + "." + ["0123456789"[n]]
  }

  /** The fourteen modes are five, six and three of the three categories, by their codes. */
  lemma ModesByCode()
    ensures |Modes| == 14
    ensures forall n :: 1 <= n <= 5 ==> Modes[n - 1] == Mode(CodeOf(1, n), FC1)
    ensures forall n :: 1 <= n <= 6 ==> Modes[n + 4] == Mode(CodeOf(2, n), FC2)
    ensures forall n :: 1 <= n <= 3 ==> Modes[n + 10] == Mode(CodeOf(3, n), FC3)
  {
  }

  // ---------- the histogram ----------

  type Report = seq<Verdict>

  function Flatten(reports: seq<Report>): seq<Verdict> {
    if reports == [] then [] else Flatten(Init(reports)) + Last(reports)
  }

  function CountCode(verdicts: seq<Verdict>, code: string): nat {
    if verdicts == [] then 0
    else CountCode(Init(verdicts), code) + if Last(verdicts).present && Last(verdicts).code == code then 1 else 0
  }

  function CountCategory(verdicts: seq<Verdict>, c: Category): nat {
    if verdicts == [] then 0
    else CountCategory(Init(verdicts), c) + if Last(verdicts).present && Last(verdicts).category == c then 1 else 0
  }

  function CountPresent(verdicts: seq<Verdict>): nat {
    if verdicts == [] then 0 else CountPresent(Init(verdicts)) + if Last(verdicts).present then 1 else 0
  }

  datatype PerCategory<T> = PerCategory(fc1: T, fc2: T, fc3: T) {
    function Of(c: Category): T {
      match c
      case FC1 => fc1
      case FC2 => fc2
      case FC3 => fc3
    }
  }

  datatype Histogram = Histogram(n: nat, byMode: map<string, nat>, byCategory: PerCategory<nat>, share: PerCategory<real>)

  function At(m: map<string, nat>, code: string): nat {
    if code in m then m[code] else 0
  }

  ghost predicate CountsModes(m: map<string, nat>, verdicts: seq<Verdict>) {
    forall code :: At(m, code) == CountCode(verdicts, code)
  }

  function CategoryCounts(verdicts: seq<Verdict>): PerCategory<nat> {
    PerCategory(CountCategory(verdicts, FC1), CountCategory(verdicts, FC2), CountCategory(verdicts, FC3))
  }

  function ShareOf(n: nat, total: nat): real {
    if total == 0 then 0.0 else n as real / total as real
  }

  lemma CountedOne(m: map<string, nat>, m': map<string, nat>, verdicts: seq<Verdict>, v: Verdict)
    requires CountsModes(m, verdicts)
    requires m' == if v.present then m[v.code := At(m, v.code) + 1] else m
    ensures CountsModes(m', verdicts + [v])
  {
    assert Init(verdicts + [v]) == verdicts;
    forall code ensures At(m', code) == CountCode(verdicts + [v], code) {
      assert At(m, code) == CountCode(verdicts, code);
    }
  }

  lemma CategoryOne(verdicts: seq<Verdict>, v: Verdict)
    ensures CountCategory(verdicts + [v], v.category) == CountCategory(verdicts, v.category) + if v.present then 1 else 0
    ensures forall c :: c != v.category || !v.present ==> CountCategory(verdicts + [v], c) == CountCategory(verdicts, c)
  {
    assert Init(verdicts + [v]) == verdicts;
  }

  method AddReport(m: map<string, nat>, c: PerCategory<nat>, r: Report, ghost before: seq<Verdict>)
    returns (m': map<string, nat>, c': PerCategory<nat>)
    requires CountsModes(m, before) && c == CategoryCounts(before)
    ensures CountsModes(m', before + r) && c' == CategoryCounts(before + r) && m.Keys <= m'.Keys
  {
    m', c' := m, c;
    assert before + r[..0] == before;
    for k := 0 to |r|
      invariant CountsModes(m', before + r[..k]) && c' == CategoryCounts(before + r[..k]) && m.Keys <= m'.Keys
    {
      var v := r[k];
      assert before + r[..k + 1] == (before + r[..k]) + [v];
      CategoryOne(before + r[..k], v);
      if !v.present {
        CountedOne(m', m', before + r[..k], v);
        continue;
      }
      CountedOne(m', m'[v.code := At(m', v.code) + 1], before + r[..k], v);
      m' := m'[v.code := At(m', v.code) + 1];
      match v.category {
        case FC1 => c' := c'.(fc1 := c'.fc1 + 1);
        case FC2 => c' := c'.(fc2 := c'.fc2 + 1);
        case FC3 => c' := c'.(fc3 := c'.fc3 + 1);
      }
    }
    assert r[..|r|] == r;
  }

  function Zeroes(all: seq<Mode>): map<string, nat> {
    map i | 0 <= i < |all| :: all[i].code := 0
  }

  method CountReports(reports: seq<Report>) returns (byMode: map<string, nat>, byCategory: PerCategory<nat>)
    ensures CountsModes(byMode, Flatten(reports)) && byCategory == CategoryCounts(Flatten(reports))
    ensures forall k :: 0 <= k < |Modes| ==> Modes[k].code in byMode
  {
    byMode, byCategory := Zeroes(Modes), PerCategory(0, 0, 0);
    for i := 0 to |reports|
      invariant CountsModes(byMode, Flatten(reports[..i])) && byCategory == CategoryCounts(Flatten(reports[..i]))
      invariant forall k :: 0 <= k < |Modes| ==> Modes[k].code in byMode
    {
      byMode, byCategory := AddReport(byMode, byCategory, reports[i], Flatten(reports[..i]));
      assert Init(reports[..i + 1]) == reports[..i];
    }
    assert reports[..|reports|] == reports;
  }

  method AggregateMast(reports: seq<Report>) returns (h: Histogram)
    ensures h.n == |reports| && forall k :: 0 <= k < |Modes| ==> Modes[k].code in h.byMode
    ensures CountsModes(h.byMode, Flatten(reports)) && h.byCategory == CategoryCounts(Flatten(reports))
    ensures forall c :: h.share.Of(c) == ShareOf(h.byCategory.Of(c), CountPresent(Flatten(reports)))
    ensures h.share.fc1 + h.share.fc2 + h.share.fc3 == if CountPresent(Flatten(reports)) == 0 then 0.0 else 1.0
  {
    var byMode, byCategory := CountReports(reports);
    CategoriesAddUp(Flatten(reports));
    var PerCategory(n1, n2, n3) := byCategory;
    var total := n1 + n2 + n3;
    if total > 0 { SharesAddUp(n1, n2, n3); }
    h := Histogram(|reports|, byMode, byCategory, PerCategory(ShareOf(n1, total), ShareOf(n2, total), ShareOf(n3, total)));
  }

  lemma SharesAddUp(a: nat, b: nat, c: nat)
    requires a + b + c > 0
    ensures ShareOf(a, a + b + c) + ShareOf(b, a + b + c) + ShareOf(c, a + b + c) == 1.0
  {
    var t := (a + b + c) as real;
    assert a as real / t + b as real / t + c as real / t == (a as real + b as real + c as real) / t;
  }

  /** Every flagged occurrence is in exactly one category. */
  lemma {:induction false} CategoriesAddUp(verdicts: seq<Verdict>)
    ensures CountCategory(verdicts, FC1) + CountCategory(verdicts, FC2) + CountCategory(verdicts, FC3) == CountPresent(verdicts)
  {
    if verdicts != [] {
      CategoriesAddUp(Init(verdicts));
    }
  }

  // ---------- by code ----------

  ghost predicate DistinctCodes(all: seq<Mode>) {
    forall i, j :: 0 <= i < j < |all| ==> all[i].code != all[j].code
  }

  ghost predicate HasCode(all: seq<Mode>, code: string) {
    exists i :: 0 <= i < |all| && all[i].code == code
  }

  function SumOverCodes(all: seq<Mode>, verdicts: seq<Verdict>): nat {
    if all == [] then 0 else SumOverCodes(Init(all), verdicts) + CountCode(verdicts, Last(all).code)
  }

  lemma HasCodeInit(all: seq<Mode>, code: string)
    requires all != []
    ensures HasCode(all, code) <==> HasCode(Init(all), code) || Last(all).code == code
  {
    if i :| 0 <= i < |Init(all)| && Init(all)[i].code == code { assert all[i].code == code; }
    if i :| 0 <= i < |all| && all[i].code == code { assert i < |all| - 1 ==> Init(all)[i].code == code; }
  }

  lemma {:induction false} OneCode(all: seq<Mode>, verdicts: seq<Verdict>)
    requires DistinctCodes(all) && verdicts != []
    ensures SumOverCodes(all, verdicts) == SumOverCodes(all, Init(verdicts))
         + if Last(verdicts).present && HasCode(all, Last(verdicts).code) then 1 else 0
  {
    if all != [] {
      OneCode(Init(all), verdicts);
      HasCodeInit(all, Last(verdicts).code);
      assert Last(all).code == Last(verdicts).code ==> !HasCode(Init(all), Last(verdicts).code);
    }
  }

  lemma {:induction false} EmptySum(all: seq<Mode>)
    ensures SumOverCodes(all, []) == 0
  {
    if all != [] {
      EmptySum(Init(all));
    }
  }

  /** Where all codes are known, the counts by code and by category add up to the same occurrences. */
  lemma {:induction false} CodesAddUp(all: seq<Mode>, verdicts: seq<Verdict>)
    requires DistinctCodes(all) && forall v :: v in verdicts ==> HasCode(all, v.code)
    ensures SumOverCodes(all, verdicts)
         == CountCategory(verdicts, FC1) + CountCategory(verdicts, FC2) + CountCategory(verdicts, FC3)
  {
    CategoriesAddUp(verdicts);
    if verdicts == [] {
      EmptySum(all);
    } else {
      CodesAddUp(all, Init(verdicts));
      CategoriesAddUp(Init(verdicts));
      OneCode(all, verdicts);
      assert Last(verdicts) in verdicts;
    }
  }

  /** A code's two digits, as one number. */
  function Number(code: string): int {
    if |code| == 6 then 100 * (code[3] as int) + code[5] as int else 0
  }

  lemma ModesAreDistinct()
    ensures DistinctCodes(Modes)
  {
    assert forall i :: 0 <= i < |Modes| - 1 ==> Number(Modes[i].code) < Number(Modes[i + 1].code);
    RisingIsDistinct(Modes);
  }

  lemma {:induction false} RisingIsDistinct(all: seq<Mode>)
    requires forall i :: 0 <= i < |all| - 1 ==> Number(all[i].code) < Number(all[i + 1].code)
    ensures DistinctCodes(all)
    ensures forall i :: 0 <= i < |all| - 1 ==> Number(all[i].code) < Number(Last(all).code)
  {
    if |all| > 1 {
      RisingIsDistinct(Init(all));
      var n := |all| - 2;
      assert Number(all[n].code) < Number(all[n + 1].code) && Last(Init(all)) == all[n];
    }
  }

  lemma {:induction false} FlattenMembers(reports: seq<Report>)
    ensures forall v :: v in Flatten(reports) ==> exists r :: r in reports && v in r
  {
    if reports != [] {
      FlattenMembers(Init(reports));
      assert Last(reports) in reports && forall r :: r in Init(reports) ==> r in reports;
    }
  }

  ghost predicate ComesFromAnswer(r: Report) {
    exists answer :: IsReport(Modes, r, answer)
  }

  /** Main result: over reports from any answers at all, the histogram's two tallies count the same occurrences. */
  lemma TalliesAgree(reports: seq<Report>)
    requires forall r :: r in reports ==> ComesFromAnswer(r)
    ensures var all := Flatten(reports);
            SumOverCodes(Modes, all) == CountCategory(all, FC1) + CountCategory(all, FC2) + CountCategory(all, FC3)
  {
    ModesAreDistinct();
    FlattenMembers(reports);
    forall v | v in Flatten(reports) ensures HasCode(Modes, v.code) {
      var r :| r in reports && v in r;
      var answer :| IsReport(Modes, r, answer);
      var k :| 0 <= k < |r| && r[k] == v;
      assert Judges(r[k], Modes[k], answer);
    }
    CodesAddUp(Modes, Flatten(reports));
  }
}
