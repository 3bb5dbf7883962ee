/**
 * Stripping `_meta` collapses the rich view into one lane and loses nothing but attribution
 * (legacy/src/acp/rich-view.ts:107-223).
 */
module MetaErasure {
  import opened Basics
  import opened LaneEvents
  import opened RichView
  import opened RenderedRuns

  function StripEntry(e: PlanEntry): PlanEntry {
    e.(meta := None)
  }

  function StripEntries(entries: seq<PlanEntry>): seq<PlanEntry> {
    seq(|entries|, i requires 0 <= i < |entries| => StripEntry(entries[i]))
  }

  /** The update as a client that knows no `_meta` sees it. */
  function Strip(u: SessionUpdate): SessionUpdate {
    match u
    case AgentMessageChunk(text, _) => AgentMessageChunk(text, None)
    case ToolCall(id, title, kind, status, content, _) => ToolCall(id, title, kind, status, content, None)
    case ToolCallUpdate(id, title, kind, status, content, input, output, locations, _) =>
      ToolCallUpdate(id, title, kind, status, content, input, output, locations, None)
    case Plan(entries, _) => Plan(StripEntries(entries), None)
    case OtherUpdate(_) => OtherUpdate(None)
  }

  function StripAll(updates: seq<SessionUpdate>): seq<SessionUpdate> {
    seq(|updates|, i requires 0 <= i < |updates| => Strip(updates[i]))
  }

  /** All message text, in stream order. */
  function AllText(updates: seq<SessionUpdate>): string {
    if updates == [] then ""
    else AllText(Init(updates)) + if Last(updates).AgentMessageChunk? then Last(updates).text.GetOr("") else ""
  }

  /** The slots of the rich view in the order in which their tools were created. */
  function Creations(updates: seq<SessionUpdate>): seq<Slot> {
    if updates == [] then []
    else
      var v, u := Render(Init(updates)), Last(updates);
      Creations(Init(updates))
      + if Filed(v, u).Some? then [Slot(LaneKey(u.meta), |LaneAt(v, LaneKey(u.meta)).tools|)] else []
  }

  predicate Holds(v: View, s: Slot) {
    s.lane in v.lanes && s.pos < |v.lanes[s.lane].tools|
  }

  function ToolIn(v: View, s: Slot): Tool
    requires Holds(v, s)
  {
    v.lanes[s.lane].tools[s.pos]
  }

  /** log lists every tool of the view exactly once, each lane's tools in order. */
  ghost predicate Enumerates(log: seq<Slot>, v: View) {
    && (forall i :: 0 <= i < |log| ==> Holds(v, log[i]))
    && (forall s :: Holds(v, s) ==> s in log)
    && (forall i, j :: 0 <= i < j < |log| && log[i].lane == log[j].lane ==> log[i].pos < log[j].pos)
  }

  /** The one lane of the baseline view. */
  function Baseline(b: View): Lane {
    LaneAt(b, "")
  }

  /** The baseline lane shows the tools of log, with the same titles, statuses and diffs. */
  ghost predicate SameTools(log: seq<Slot>, r: View, b: View) {
    && |Baseline(b).tools| == |log|
    && forall i :: 0 <= i < |log| && Holds(r, log[i]) ==> Baseline(b).tools[i] == ToolIn(r, log[i])
  }

  /** Both views find the same tool under each id. */
  ghost predicate SameIndex(log: seq<Slot>, rich: map<string, Slot>, base: map<string, Slot>) {
    && (forall id :: id in rich <==> id in base)
    && (forall id :: id in base ==>
          base[id].lane == "" && base[id].pos < |log| && log[base[id].pos] == rich[id])
  }

  ghost predicate SameContent(log: seq<Slot>, r: View, b: View) {
    Enumerates(log, r) && SameTools(log, r, b) && SameIndex(log, r.slots, b.slots)
  }

  ghost predicate OneLane(b: View) {
    (b.order == [] && b.lanes == map[]) || (b.order == [""] && b.lanes.Keys == {""})
  }

  lemma OneLaneWith(b: View, l: Lane)
    requires OneLane(b)
    ensures OneLane(WithLane(b, "", l))
  {
    assert b.lanes.Keys <= {""};
  }

  /** Every update without `_meta` is filed under the empty key. */
  lemma OneLaneStep(b: View, u: SessionUpdate)
    requires b.Valid() && OneLane(b)
    ensures OneLane(Applied(b, Strip(u)))
  {
    var v, k := Applied(b, Strip(u)), Touched(b, Strip(u));
    if k.Some? {
      assert k.value == "";
      OneLaneWith(b, LaneAt(v, ""));
      assert v.order == WithLane(b, "", LaneAt(v, "")).order && v.lanes.Keys == b.lanes.Keys + {""};
    }
  }

  // ---------- a new tool ----------

  /** after is before with one tool pushed onto the lane at key. */
  ghost predicate Pushed(before: View, after: View, key: string, t: Tool) {
    && key in after.lanes && after.lanes[key].tools == LaneAt(before, key).tools + [t]
    && forall k :: k != key ==> LaneAt(after, k).tools == LaneAt(before, k).tools && (k in before.lanes <==> k in after.lanes)
  }

  lemma AppliedPushes(v: View, u: SessionUpdate)
    requires v.Valid() && Filed(v, u).Some?
    ensures Pushed(v, Applied(v, u), LaneKey(u.meta), FreshTool(u))
  {
    AppliedHere(v, u, LaneKey(u.meta));
    forall k | k != LaneKey(u.meta) ensures LaneAt(Applied(v, u), k).tools == LaneAt(v, k).tools && (k in v.lanes <==> k in Applied(v, u).lanes) {
      AppliedElsewhere(v, u, k);
    }
  }

  lemma PushEnumerates(log: seq<Slot>, v: View, v': View, key: string, t: Tool)
    requires Enumerates(log, v) && Pushed(v, v', key, t)
    ensures Enumerates(log + [Slot(key, |LaneAt(v, key).tools|)], v')
  {
    var log' := log + [Slot(key, |LaneAt(v, key).tools|)];
    forall s | Holds(v', s) ensures s in log' {
      assert LaneAt(v', s.lane) == v'.lanes[s.lane];
      if Holds(v, s) { assert s in log; } else { assert s == Last(log'); }
    }
    forall i | 0 <= i < |log'| ensures Holds(v', log'[i]) {
      if i < |log| { PushKeeps(v, v', key, t, log[i]); }
    }
  }

  lemma PushKeeps(v: View, v': View, key: string, t: Tool, s: Slot)
    requires Pushed(v, v', key, t) && Holds(v, s)
    ensures Holds(v', s) && ToolIn(v', s) == ToolIn(v, s)
  {
    assert LaneAt(v, s.lane) == v.lanes[s.lane];
    assert s.lane != key ==> LaneAt(v', s.lane) == v'.lanes[s.lane];
  }

  lemma PushSameTools(log: seq<Slot>, r: View, r': View, key: string, b: View, b': View, t: Tool)
    requires Enumerates(log, r) && SameTools(log, r, b) && Pushed(r, r', key, t) && Pushed(b, b', "", t)
    ensures SameTools(log + [Slot(key, |LaneAt(r, key).tools|)], r', b')
  {
    forall i | 0 <= i < |log| ensures Holds(r', log[i]) && Baseline(b').tools[i] == ToolIn(r', log[i]) {
      PushKeeps(r, r', key, t, log[i]);
    }
  }

  lemma FileIndex(log: seq<Slot>, rich: map<string, Slot>, base: map<string, Slot>, id: string, slot: Slot)
    requires SameIndex(log, rich, base)
    ensures SameIndex(log + [slot], rich[id := slot], base[id := Slot("", |log|)])
  {
  }

  lemma FiledTools(log: seq<Slot>, r: View, b: View, u: SessionUpdate, at: Slot)
    requires r.Valid() && b.Valid() && Enumerates(log, r) && SameTools(log, r, b)
    requires Filed(r, u).Some? && Filed(b, Strip(u)) == Filed(r, u)
    requires at == Slot(LaneKey(u.meta), |LaneAt(r, LaneKey(u.meta)).tools|)
    ensures Enumerates(log + [at], Applied(r, u)) && SameTools(log + [at], Applied(r, u), Applied(b, Strip(u)))
  {
    var r', b' := Applied(r, u), Applied(b, Strip(u));
    assert FreshTool(Strip(u)) == FreshTool(u);
    AppliedPushes(r, u);
    AppliedPushes(b, Strip(u));
    PushEnumerates(log, r, r', LaneKey(u.meta), FreshTool(u));
    PushSameTools(log, r, r', LaneKey(u.meta), b, b', FreshTool(u));
  }

  lemma FiledStep(log: seq<Slot>, r: View, b: View, u: SessionUpdate)
    requires r.Valid() && b.Valid() && SameContent(log, r, b)
    requires Filed(r, u).Some?
    ensures SameContent(log + [Slot(LaneKey(u.meta), |LaneAt(r, LaneKey(u.meta)).tools|)], Applied(r, u), Applied(b, Strip(u)))
  {
    assert Filed(b, Strip(u)) == Filed(r, u);
    FiledTools(log, r, b, u, Slot(LaneKey(u.meta), |LaneAt(r, LaneKey(u.meta)).tools|));
    FiledIndex(log, r, b, u, Filed(r, u).value);
  }

  lemma FiledSlot(v: View, u: SessionUpdate, id: string)
    requires v.Valid() && Filed(v, u) == Some(id)
    ensures Applied(v, u).slots == v.slots[id := Slot(LaneKey(u.meta), |LaneAt(v, LaneKey(u.meta)).tools|)]
  {
    AppliedSlots(v, u);
  }

  lemma FiledBase(b: View, u: SessionUpdate, id: string)
    requires b.Valid() && Filed(b, Strip(u)) == Some(id)
    ensures Applied(b, Strip(u)).slots == b.slots[id := Slot("", |Baseline(b).tools|)]
  {
    FiledSlot(b, Strip(u), id);
  }

  lemma FiledIndex(log: seq<Slot>, r: View, b: View, u: SessionUpdate, id: string)
    requires r.Valid() && b.Valid() && SameIndex(log, r.slots, b.slots) && |Baseline(b).tools| == |log|
    requires Filed(r, u) == Some(id) && Filed(b, Strip(u)) == Some(id)
    ensures SameIndex(log + [Slot(LaneKey(u.meta), |LaneAt(r, LaneKey(u.meta)).tools|)], Applied(r, u).slots, Applied(b, Strip(u)).slots)
  {
    FiledSlot(r, u, id);
    FiledBase(b, u, id);
    FileIndex(log, r.slots, b.slots, id, Slot(LaneKey(u.meta), |LaneAt(r, LaneKey(u.meta)).tools|));
  }

  // ---------- an edited tool ----------

  /** after is before with the tool in one slot replaced. */
  ghost predicate Replaced(before: View, after: View, at: Slot, t: Tool) {
    && Holds(before, at) && Holds(after, at) && ToolIn(after, at) == t
    && (forall s :: Holds(before, s) <==> Holds(after, s))
    && (forall s :: Holds(before, s) && s != at ==> ToolIn(after, s) == ToolIn(before, s))
  }

  lemma AppliedReplaces(v: View, u: SessionUpdate)
    requires v.Valid() && u.ToolCallUpdate? && u.toolCallId.Some? && u.toolCallId.value in v.slots
    ensures var at := v.slots[u.toolCallId.value];
            Holds(v, at) && Replaced(v, Applied(v, u), at, Merged(ToolIn(v, at), u))
  {
  }

  lemma EditStep(log: seq<Slot>, r: View, b: View, u: SessionUpdate)
    requires r.Valid() && b.Valid() && SameContent(log, r, b) && OneLane(b)
    requires u.ToolCallUpdate? && u.toolCallId.Some? && u.toolCallId.value in r.slots
    ensures SameContent(log, Applied(r, u), Applied(b, Strip(u)))
  {
    var id := u.toolCallId.value;
    var at, n := r.slots[id], b.slots[id].pos;
    AppliedReplaces(r, u);
    AppliedReplaces(b, Strip(u));
    AppliedSlots(r, u);
    AppliedSlots(b, Strip(u));
    forall i | 0 <= i < |log|
      ensures Holds(b, Slot("", i)) && Holds(r, log[i])
      ensures Baseline(Applied(b, Strip(u))).tools[i] == ToolIn(Applied(r, u), log[i])
    {
      assert Baseline(b).tools[i] == ToolIn(r, log[i]);
      assert i != n ==> log[i] != log[n];
      assert Baseline(Applied(b, Strip(u))).tools[i] == ToolIn(Applied(b, Strip(u)), Slot("", i));
    }
  }

  // ---------- whole streams ----------

  lemma QuietLane(v: View, u: SessionUpdate, k: string)
    requires v.Valid() && Quiet(v, u)
    ensures LaneAt(Applied(v, u), k).tools == LaneAt(v, k).tools
  {
    if Touched(v, u) == Some(k) { AppliedHere(v, u, k); } else { AppliedElsewhere(v, u, k); }
  }

  ghost predicate SameEverywhere(v: View, v': View) {
    v'.slots == v.slots && forall k :: LaneAt(v', k).tools == LaneAt(v, k).tools
  }

  /** Lanes that keep their tools keep the enumeration. */
  lemma KeptTools(log: seq<Slot>, r: View, b: View, r': View, b': View)
    requires SameContent(log, r, b) && SameEverywhere(r, r') && SameEverywhere(b, b')
    ensures SameContent(log, r', b')
  {
    assert Baseline(b').tools == Baseline(b).tools;
    forall s ensures Holds(r', s) <==> Holds(r, s)
            ensures Holds(r, s) ==> ToolIn(r', s) == ToolIn(r, s)
    {
      KeptTool(r, r', s);
    }
  }

  lemma KeptTool(r: View, r': View, s: Slot)
    requires LaneAt(r', s.lane).tools == LaneAt(r, s.lane).tools
    ensures Holds(r', s) <==> Holds(r, s)
    ensures Holds(r, s) ==> ToolIn(r', s) == ToolIn(r, s)
  {
  }

  predicate Quiet(v: View, u: SessionUpdate) {
    Filed(v, u).None? && !(u.ToolCallUpdate? && u.toolCallId.Some?)
  }

  lemma QuietView(v: View, u: SessionUpdate)
    requires v.Valid() && Quiet(v, u)
    ensures SameEverywhere(v, Applied(v, u))
  {
    AppliedSlots(v, u);
    forall k ensures LaneAt(Applied(v, u), k).tools == LaneAt(v, k).tools { QuietLane(v, u, k); }
  }

  lemma QuietErased(r: View, b: View, u: SessionUpdate)
    requires Quiet(r, u)
    ensures Quiet(b, Strip(u))
  {
  }

  lemma QuietStep(log: seq<Slot>, r: View, b: View, u: SessionUpdate)
    requires r.Valid() && b.Valid() && SameContent(log, r, b) && Quiet(r, u)
    ensures SameContent(log, Applied(r, u), Applied(b, Strip(u)))
  {
    QuietView(r, u);
    QuietErased(r, b, u);
    QuietView(b, Strip(u));
    KeptTools(log, r, b, Applied(r, u), Applied(b, Strip(u)));
  }

  /** The baseline lane's text and labels after one more update. */
  lemma TextStep(b: View, u: SessionUpdate)
    requires b.Valid()
    ensures var l, l' := Baseline(b), Baseline(Applied(b, Strip(u)));
            && l'.text == l.text + (if u.AgentMessageChunk? then u.text.GetOr("") else "")
            && l'.name == l.name && l'.role == l.role
  {
    if Touched(b, Strip(u)) == Some("") { AppliedHere(b, Strip(u), ""); } else { AppliedElsewhere(b, Strip(u), ""); }
  }

  /** The same board, with the links to members gone. */
  ghost predicate SameBoard(r: View, b: View) {
    && |r.board| == |b.board|
    && forall i :: 0 <= i < |r.board| ==> b.board[i] == r.board[i].(memberId := None)
  }

  lemma BoardStep(r: View, b: View, u: SessionUpdate)
    requires r.Valid() && b.Valid() && SameBoard(r, b)
    ensures SameBoard(Applied(r, u), Applied(b, Strip(u)))
  {
    AppliedBoard(r, u);
    AppliedBoard(b, Strip(u));
  }

  /**
   * Main result: without `_meta` there is at most one lane; it has all the text in stream order and
   * every tool of the rich view, once, in creation order, with the same title, kind, status and diffs.
   */
  lemma {:induction false} ErasureKeepsContent(updates: seq<SessionUpdate>)
    ensures var r, b, log := Render(updates), Render(StripAll(updates)), Creations(updates);
            && OneLane(b)
            && SameContent(log, r, b)
            && Baseline(b).text == AllText(updates) && Baseline(b).name == None && Baseline(b).role == None
            && SameBoard(r, b)
  {
    if updates != [] {
      var before, u := Init(updates), Last(updates);
      var r, b := Render(before), Render(StripAll(before));
      assert Init(StripAll(updates)) == StripAll(before) && Last(StripAll(updates)) == Strip(u);
      ErasureKeepsContent(before);
      OneLaneStep(b, u);
      TextStep(b, u);
      BoardStep(r, b, u);
      ContentStep(Creations(before), r, b, u);
    }
  }

  lemma ContentStep(log: seq<Slot>, r: View, b: View, u: SessionUpdate)
    requires r.Valid() && b.Valid() && SameContent(log, r, b) && OneLane(b)
    ensures var log' := log + if Filed(r, u).Some? then [Slot(LaneKey(u.meta), |LaneAt(r, LaneKey(u.meta)).tools|)] else [];
            SameContent(log', Applied(r, u), Applied(b, Strip(u)))
  {
    if Filed(r, u).Some? {
      FiledStep(log, r, b, u);
    } else {
      assert log + [] == log;
      if u.ToolCallUpdate? && u.toolCallId.Some? { EditStep(log, r, b, u); } else { QuietStep(log, r, b, u); }
    }
  }
}
