/**
 * The swarm-aware client (legacy/src/acp/rich-view.ts): folds session updates into
 * per-member lanes, tools and a task board.
 */
module RichView {
  import opened Basics
  import opened LaneEvents

  datatype Diff = Diff(path: string, oldText: Option<string>, newText: string)

  datatype Tool = Tool(toolCallId: string, title: string, kind: Option<string>, status: string,
                       diffs: Option<seq<Diff>>)

  datatype Lane = Lane(name: Option<string>, role: Option<string>, text: string, tools: seq<Tool>)

  datatype BoardEntry = BoardEntry(content: string, priority: Option<string>, status: string,
                                   memberId: Option<string>)

  /** Where a tool lives: its lane and its position in that lane. */
  datatype Slot = Slot(lane: string, pos: nat)

  /** The value of a renderer: lanes in first-seen order, each tool id's slot, and the board. */
  datatype View = View(lanes: map<string, Lane>, order: seq<string>, slots: map<string, Slot>, board: seq<BoardEntry>) {
    /** Every indexed tool id points at a tool. */
    ghost predicate Valid() {
      forall id :: id in slots ==> slots[id].lane in lanes && slots[id].pos < |lanes[slots[id].lane].tools|
    }
  }

  const EmptyView := View(map[], [], map[], [])

  const EmptyLane := Lane(None, None, "", [])

  // ---------- the fold, as a function ----------

  function DiffIn(c: Content): seq<Diff> {
    match c
    case DiffContent(Some(path), oldText, newText) => [Diff(path, oldText, newText.GetOr(""))]
    case _ => []
  }

  function CollectDiffs(content: seq<Content>): seq<Diff> {
    if content == [] then [] else CollectDiffs(Init(content)) + DiffIn(Last(content))
  }

  function DiffsOf(content: Option<seq<Content>>): Option<seq<Diff>> {
    if content.None? || CollectDiffs(content.value) == [] then None else Some(CollectDiffs(content.value))
  }

  // ---------- what a list of diffs is ----------

  /** An entry that names a file. */
  predicate HasPath(c: Content) {
    c.DiffContent? && c.path.Some?
  }

  /** The diff of an entry: old text as given, and no new text standing for none. */
  predicate IsDiffOf(c: Content, d: Diff) {
    && HasPath(c) && d.path == c.path.value && d.oldText == c.oldText
    && d.newText == if c.newText.Some? then c.newText.value else ""
  }

  /** The positions of the entries that name a file, in order. */
  ghost predicate Selects(content: seq<Content>, at: seq<nat>) {
    && (forall j, k :: 0 <= j < k < |at| ==> at[j] < at[k])
    && (forall k :: 0 <= k < |at| ==> at[k] < |content| && HasPath(content[at[k]]))
    && (forall i :: 0 <= i < |content| && HasPath(content[i]) ==> i in at)
  }

  ghost predicate DiffsAt(content: seq<Content>, at: seq<nat>, diffs: seq<Diff>) {
    Selects(content, at) && |diffs| == |at| && forall k :: 0 <= k < |at| ==> IsDiffOf(content[at[k]], diffs[k])
  }

  /** The k-th diff is that of the k-th entry that names a file, and there are no others. */
  ghost predicate ListsDiffs(content: seq<Content>, diffs: seq<Diff>) {
    exists at :: DiffsAt(content, at, diffs)
  }

  /** What an update shows: its diffs, or nothing when no entry names a file. */
  ghost predicate ShowsDiffs(content: Option<seq<Content>>, diffs: Option<seq<Diff>>) {
    match diffs
    case None => content.None? || forall i :: 0 <= i < |content.value| ==> !HasPath(content.value[i])
    case Some(ds) => ds != [] && content.Some? && ListsDiffs(content.value, ds)
  }

  lemma {:induction false} CollectedAt(content: seq<Content>) returns (at: seq<nat>)
    ensures DiffsAt(content, at, CollectDiffs(content))
  {
    if content == [] {
      at := [];
    } else {
      var before := CollectedAt(Init(content));
      InitLast(content);
      at := if HasPath(Last(content)) then before + [|content| - 1] else before;
      OneMoreEntry(Init(content), before, CollectDiffs(Init(content)), Last(content));
    }
  }

  lemma OneMoreEntry(content: seq<Content>, at: seq<nat>, diffs: seq<Diff>, x: Content)
    requires DiffsAt(content, at, diffs)
    ensures DiffsAt(content + [x], if HasPath(x) then at + [|content|] else at, diffs + DiffIn(x))
  {
    SelectsOneMore(content, at, x);
    if HasPath(x) {
      assert IsDiffOf(x, DiffIn(x)[0]);
    } else {
      assert diffs + DiffIn(x) == diffs;
    }
  }

  lemma SelectsOneMore(content: seq<Content>, at: seq<nat>, x: Content)
    requires Selects(content, at)
    ensures Selects(content + [x], if HasPath(x) then at + [|content|] else at)
  {
    var at' := if HasPath(x) then at + [|content|] else at;
    forall i | 0 <= i < |content + [x]| && HasPath((content + [x])[i]) ensures i in at' {
      if i == |content| { assert at'[|at|] == i; } else { assert i in at; }
    }
  }

  lemma DiffsAreListed(content: Option<seq<Content>>)
    ensures ShowsDiffs(content, DiffsOf(content))
  {
    if content.Some? {
      var at := CollectedAt(content.value);
      assert at == [] ==> forall i :: 0 <= i < |content.value| && HasPath(content.value[i]) ==> i in at;
    }
  }

  function LaneKey(meta: Option<MemberRef>): string {
    if meta.Some? then meta.value.id.GetOr("") else ""
  }

  function Fresher(given: Option<string>, kept: Option<string>): Option<string> {
    if given.Some? then given else kept
  }

  function Labelled(l: Lane, meta: Option<MemberRef>): Lane {
    if meta.None? then l else l.(name := Fresher(meta.value.name, l.name), role := Fresher(meta.value.role, l.role))
  }

  function LaneAt(v: View, key: string): Lane {
    if key in v.lanes then v.lanes[key] else EmptyLane
  }

  /** Replaces the lane at key, opening it at the end of the order if new. */
  function WithLane(v: View, key: string, l: Lane): View {
    v.(lanes := v.lanes[key := l], order := if key in v.lanes then v.order else v.order + [key])
  }

  function AddTool(v: View, meta: Option<MemberRef>, tool: Tool): View {
    var key := LaneKey(meta);
    var l := Labelled(LaneAt(v, key), meta);
    WithLane(v, key, l.(tools := l.tools + [tool])).(slots := v.slots[tool.toolCallId := Slot(key, |l.tools|)])
  }

  /** The tool with the fields that an update carries. */
  function Merged(t: Tool, u: SessionUpdate): Tool
    requires u.ToolCallUpdate?
  {
    Tool(t.toolCallId, u.title.GetOr(t.title), Fresher(u.kind, t.kind), u.status.GetOr(t.status),
         if DiffsOf(u.content).Some? then DiffsOf(u.content) else t.diffs)
  }

  function EditTool(v: View, slot: Slot, u: SessionUpdate): View
    requires u.ToolCallUpdate?
    requires slot.lane in v.lanes && slot.pos < |v.lanes[slot.lane].tools|
  {
    var l := v.lanes[slot.lane];
    v.(lanes := v.lanes[slot.lane := l.(tools := l.tools[slot.pos := Merged(l.tools[slot.pos], u)])])
  }

  function BoardOf(entries: seq<PlanEntry>): seq<BoardEntry> {
    seq(|entries|, i requires 0 <= i < |entries| =>
      BoardEntry(entries[i].content.GetOr(""), entries[i].priority, entries[i].status.GetOr("pending"),
                 if entries[i].meta.Some? then entries[i].meta.value.id else None))
  }

  function AppliedChunk(v: View, text: Option<string>, meta: Option<MemberRef>): View {
    var l := Labelled(LaneAt(v, LaneKey(meta)), meta);
    WithLane(v, LaneKey(meta), l.(text := l.text + text.GetOr("")))
  }

  function AppliedToolCallUpdate(v: View, u: SessionUpdate): View
    requires v.Valid() && u.ToolCallUpdate? && u.toolCallId.Some?
  {
    var id := u.toolCallId.value;
    if id in v.slots then EditTool(v, v.slots[id], u)
    else AddTool(v, u.meta, Tool(id, u.title.GetOr(""), u.kind, u.status.GetOr("in_progress"), DiffsOf(u.content)))
  }

  function Applied(v: View, u: SessionUpdate): View
    requires v.Valid()
  {
    match u
    case AgentMessageChunk(text, meta) => AppliedChunk(v, text, meta)
    case ToolCall(id, title, kind, status, content, meta) =>
      if id.None? then v
      else AddTool(v, meta, Tool(id.value, title.GetOr(""), kind, status.GetOr("pending"), DiffsOf(content)))
    case ToolCallUpdate(id, _, _, _, _, _, _, _, _) =>
      if id.None? then v else AppliedToolCallUpdate(v, u)
    case Plan(entries, _) => v.(board := BoardOf(entries))
    case OtherUpdate(_) => v
  }

  /** Lanes only ever get more tools. */
  lemma GrownValid(v: View, r: View)
    requires v.Valid() && r.slots == v.slots
    requires forall k :: k in v.lanes ==> k in r.lanes && |r.lanes[k].tools| >= |v.lanes[k].tools|
    ensures r.Valid()
  {
  }

  lemma AddToolValid(v: View, meta: Option<MemberRef>, tool: Tool)
    requires v.Valid()
    ensures AddTool(v, meta, tool).Valid()
  {
    var r := AddTool(v, meta, tool);
    GrownValid(v, r.(slots := v.slots));
  }

  lemma AppliedValid(v: View, u: SessionUpdate)
    requires v.Valid()
    ensures Applied(v, u).Valid()
  {
    match u
    case AgentMessageChunk(text, meta) => GrownValid(v, AppliedChunk(v, text, meta));
    case ToolCall(id, title, kind, status, content, meta) =>
      if id.Some? {
        AddToolValid(v, meta, Tool(id.value, title.GetOr(""), kind, status.GetOr("pending"), DiffsOf(content)));
      }
    case ToolCallUpdate(id, _, _, _, _, _, _, _, _) =>
      if id.Some? {
        if id.value in v.slots {
          GrownValid(v, EditTool(v, v.slots[id.value], u));
        } else {
          AddToolValid(v, u.meta, Tool(id.value, u.title.GetOr(""), u.kind, u.status.GetOr("in_progress"), DiffsOf(u.content)));
        }
      }
    case Plan(_, _) =>
    case OtherUpdate(_) =>
  }

  function Render(updates: seq<SessionUpdate>): (v: View)
    ensures v.Valid()
  {
    if updates == [] then EmptyView
    else
      AppliedValid(Render(Init(updates)), Last(updates));
      Applied(Render(Init(updates)), Last(updates))
  }

  // ---------- the renderer object, with shared mutable tools ----------

  /** A tool shared between a lane's list and the id index; edited in place. */
  class RichTool {
    var value: Tool
    ghost const home: Slot

    constructor (t: Tool, ghost home: Slot)
      ensures value == t && this.home == home
    {
      value := t;
      this.home := home;
    }

    /** Overwrites only what the update carries. */
    method Update(u: SessionUpdate, newDiffs: Option<seq<Diff>>)
      requires u.ToolCallUpdate? && newDiffs == DiffsOf(u.content)
      modifies this
      ensures value == Merged(old(value), u)
    {
      if u.title.Some? { value := value.(title := u.title.value); }
      if u.kind.Some? { value := value.(kind := u.kind); }
      if u.status.Some? { value := value.(status := u.status.value); }
      if newDiffs.Some? { value := value.(diffs := newDiffs); }
    }
  }

  /** A lane of the renderer: its tool list holds shared tool objects. */
  datatype LaneRecord = LaneRecord(name: Option<string>, role: Option<string>, text: string, tools: seq<RichTool>)

  method DiffsFromUpdate(content: Option<seq<Content>>) returns (diffs: Option<seq<Diff>>)
    ensures diffs == DiffsOf(content)
    ensures ShowsDiffs(content, diffs)
  {
    DiffsAreListed(content);
    if content.None? { return None; }
    var found := [];
    for i := 0 to |content.value|
      invariant found == CollectDiffs(content.value[..i])
    {
      assert Init(content.value[..i + 1]) == content.value[..i];
      var c := content.value[i];
      if c.DiffContent? && c.path.Some? {
        found := found + [Diff(c.path.value, c.oldText, c.newText.GetOr(""))];
      }
    }
    assert content.value[..|content.value|] == content.value;
    diffs := if |found| > 0 then Some(found) else None;
  }

  // ---------- records and the view that they show ----------

  type Values = map<RichTool, Tool>

  /** A record shows a lane; each of its objects knows its slot, so no object sits in two. */
  ghost predicate Shows(k: string, r: LaneRecord, l: Lane, values: Values) {
    && r.name == l.name && r.role == l.role && r.text == l.text && |r.tools| == |l.tools|
    && forall i :: 0 <= i < |r.tools| ==> ShowsTool(Slot(k, i), r.tools[i], l.tools[i], values)
  }

  ghost predicate ShowsTool(at: Slot, o: RichTool, t: Tool, values: Values) {
    o in values && o.home == at && values[o] == t
  }

  ghost predicate PointsAt(lanes: map<string, LaneRecord>, o: RichTool, at: Slot) {
    at.lane in lanes && at.pos < |lanes[at.lane].tools| && o == lanes[at.lane].tools[at.pos]
  }

  /** Lanes of records, the id index, what they show, and the objects' values. */
  datatype Records = Records(lanes: map<string, LaneRecord>, tools: map<string, RichTool>, view: View, values: Values)

  /** The records show the view, and the index points at the listed objects. */
  ghost predicate Consistent(t: Records) {
    && t.lanes.Keys == t.view.lanes.Keys
    && (forall k {:trigger Shows(k, t.lanes[k], t.view.lanes[k], t.values)} :: k in t.lanes ==>
          Shows(k, t.lanes[k], t.view.lanes[k], t.values))
    && t.tools.Keys == t.view.slots.Keys
    && (forall id {:trigger PointsAt(t.lanes, t.tools[id], t.view.slots[id])} :: id in t.tools ==>
          PointsAt(t.lanes, t.tools[id], t.view.slots[id]))
  }

  type Table = t: Records | Consistent(t) ghost witness Records(map[], map[], EmptyView, map[])

  lemma StillPoints(lanes: map<string, LaneRecord>, key: string, r: LaneRecord, o: RichTool, at: Slot)
    requires PointsAt(lanes, o, at) && (key in lanes ==> lanes[key].tools <= r.tools)
    ensures PointsAt(lanes[key := r], o, at)
  {
  }

  /** One lane is put in place of another that listed no more, or added. */
  ghost function PutLane(t: Table, key: string, r: LaneRecord, l: Lane): (t': Table)
    requires Shows(key, r, l, t.values) && (key in t.lanes ==> t.lanes[key].tools <= r.tools)
    ensures t' == Records(t.lanes[key := r], t.tools, WithLane(t.view, key, l), t.values)
  {
    var t' := Records(t.lanes[key := r], t.tools, WithLane(t.view, key, l), t.values);
    PutConsistent(t, key, r, l);
    t'
  }

  lemma PutConsistent(t: Table, key: string, r: LaneRecord, l: Lane)
    requires Shows(key, r, l, t.values) && (key in t.lanes ==> t.lanes[key].tools <= r.tools)
    ensures Consistent(Records(t.lanes[key := r], t.tools, WithLane(t.view, key, l), t.values))
  {
    PutShows(t, key, r, l, t.lanes[key := r], WithLane(t.view, key, l).lanes);
    PutPoints(t, key, r, t.lanes[key := r]);
  }

  lemma PutShows(t: Table, key: string, r: LaneRecord, l: Lane, lanes: map<string, LaneRecord>, shown: map<string, Lane>)
    requires Shows(key, r, l, t.values) && lanes == t.lanes[key := r] && shown == t.view.lanes[key := l]
    ensures forall k :: k in lanes <==> k in shown
    ensures forall k :: k in lanes ==> Shows(k, lanes[k], shown[k], t.values)
  {
    forall k | k in lanes ensures k in shown && Shows(k, lanes[k], shown[k], t.values) {
      assert k != key ==> Shows(k, t.lanes[k], t.view.lanes[k], t.values);
    }
  }

  lemma PutPoints(t: Table, key: string, r: LaneRecord, lanes: map<string, LaneRecord>)
    requires lanes == t.lanes[key := r] && (key in t.lanes ==> t.lanes[key].tools <= r.tools)
    ensures forall id :: id in t.tools ==> PointsAt(lanes, t.tools[id], t.view.slots[id])
  {
    forall id | id in t.tools ensures PointsAt(lanes, t.tools[id], t.view.slots[id]) {
      StillPoints(t.lanes, key, r, t.tools[id], t.view.slots[id]);
    }
  }

  /** A new object changes nothing that is shown. */
  lemma ShowsWithNew(k: string, r: LaneRecord, l: Lane, values: Values, o: RichTool, t: Tool)
    requires Shows(k, r, l, values) && o !in values
    ensures Shows(k, r, l, values[o := t])
  {
    forall i | 0 <= i < |r.tools| ensures ShowsTool(Slot(k, i), r.tools[i], l.tools[i], values[o := t]) {
      assert ShowsTool(Slot(k, i), r.tools[i], l.tools[i], values);
    }
  }

  ghost function WithObject(t: Table, o: RichTool, x: Tool): (t': Table)
    requires o !in t.values
    ensures t' == Records(t.lanes, t.tools, t.view, t.values[o := x])
  {
    assert Consistent(Records(t.lanes, t.tools, t.view, t.values[o := x])) by {
      forall k | k in t.lanes ensures Shows(k, t.lanes[k], t.view.lanes[k], t.values[o := x]) {
        ShowsWithNew(k, t.lanes[k], t.view.lanes[k], t.values, o, x);
      }
    }
    Records(t.lanes, t.tools, t.view, t.values[o := x])
  }

  ghost function WithIndex(t: Table, id: string, o: RichTool, at: Slot): (t': Table)
    requires PointsAt(t.lanes, o, at)
    ensures t' == Records(t.lanes, t.tools[id := o], t.view.(slots := t.view.slots[id := at]), t.values)
  {
    IndexConsistent(t, id, o, at);
    Records(t.lanes, t.tools[id := o], t.view.(slots := t.view.slots[id := at]), t.values)
  }

  lemma IndexConsistent(t: Table, id: string, o: RichTool, at: Slot)
    requires PointsAt(t.lanes, o, at)
    ensures Consistent(Records(t.lanes, t.tools[id := o], t.view.(slots := t.view.slots[id := at]), t.values))
  {
    var tools', slots' := t.tools[id := o], t.view.slots[id := at];
    forall i | i in tools' ensures PointsAt(t.lanes, tools'[i], slots'[i]) {
      assert i != id ==> PointsAt(t.lanes, t.tools[i], t.view.slots[i]);
    }
  }

  ghost function WithBoard(t: Table, board: seq<BoardEntry>): (t': Table)
    ensures t' == Records(t.lanes, t.tools, t.view.(board := board), t.values)
  {
    Records(t.lanes, t.tools, t.view.(board := board), t.values)
  }

  function Pushed(r: LaneRecord, o: RichTool): LaneRecord {
    LaneRecord(r.name, r.role, r.text, r.tools + [o])
  }

  function WithTool(l: Lane, t: Tool): Lane {
    Lane(l.name, l.role, l.text, l.tools + [t])
  }

  lemma ShowsPushed(k: string, r: LaneRecord, l: Lane, values: Values, o: RichTool)
    requires Shows(k, r, l, values) && o in values && o.home == Slot(k, |r.tools|)
    ensures Shows(k, Pushed(r, o), WithTool(l, values[o]), values)
  {
    var r', l' := Pushed(r, o), WithTool(l, values[o]);
    forall i | 0 <= i < |r'.tools| ensures ShowsTool(Slot(k, i), r'.tools[i], l'.tools[i], values) {
      assert i < |r.tools| ==> ShowsTool(Slot(k, i), r.tools[i], l.tools[i], values);
    }
  }

  lemma ShowsEdited(k: string, r: LaneRecord, l: Lane, values: Values, o: RichTool, t: Tool)
    requires Shows(k, r, l, values)
    requires o.home.lane == k ==> o.home.pos < |r.tools| && r.tools[o.home.pos] == o
    ensures Shows(k, r, if o.home.lane == k then l.(tools := l.tools[o.home.pos := t]) else l, values[o := t])
  {
    var l' := if o.home.lane == k then l.(tools := l.tools[o.home.pos := t]) else l;
    forall i | 0 <= i < |r.tools| ensures ShowsTool(Slot(k, i), r.tools[i], l'.tools[i], values[o := t]) {
      assert ShowsTool(Slot(k, i), r.tools[i], l.tools[i], values);
    }
  }

  /** An indexed object is listed in the slot that is its home. */
  lemma IndexedHome(t: Table, id: string)
    requires id in t.tools
    ensures id in t.view.slots && t.tools[id] in t.values && t.tools[id].home == t.view.slots[id]
    ensures PointsAt(t.lanes, t.tools[id], t.tools[id].home) && HasSlot(t.view, t.tools[id].home)
  {
    var at := t.view.slots[id];
    assert PointsAt(t.lanes, t.tools[id], at);
    assert Shows(at.lane, t.lanes[at.lane], t.view.lanes[at.lane], t.values);
    assert ShowsTool(at, t.lanes[at.lane].tools[at.pos], t.view.lanes[at.lane].tools[at.pos], t.values);
  }

  predicate HasSlot(v: View, at: Slot) {
    at.lane in v.lanes && at.pos < |v.lanes[at.lane].tools|
  }

  /** Editing an object changes its own slot in the view, and no other. */
  ghost function WithEdit(t: Table, id: string, u: SessionUpdate): (t': Table)
    requires id in t.tools && u.ToolCallUpdate?
    ensures id in t.view.slots && HasSlot(t.view, t.view.slots[id]) && t.tools[id] in t.values
    ensures t' == Records(t.lanes, t.tools, EditTool(t.view, t.view.slots[id], u),
                          t.values[t.tools[id] := Merged(t.values[t.tools[id]], u)])
  {
    IndexedHome(t, id);
    EditConsistent(t, t.tools[id], u);
    Records(t.lanes, t.tools, EditTool(t.view, t.view.slots[id], u), t.values[t.tools[id] := Merged(t.values[t.tools[id]], u)])
  }

  lemma EditConsistent(t: Table, o: RichTool, u: SessionUpdate)
    requires u.ToolCallUpdate? && o in t.values && HasSlot(t.view, o.home) && PointsAt(t.lanes, o, o.home)
    ensures Consistent(Records(t.lanes, t.tools, EditTool(t.view, o.home, u), t.values[o := Merged(t.values[o], u)]))
  {
    var view', values' := EditTool(t.view, o.home, u), t.values[o := Merged(t.values[o], u)];
    assert Shows(o.home.lane, t.lanes[o.home.lane], t.view.lanes[o.home.lane], t.values);
    assert ShowsTool(o.home, o, t.view.lanes[o.home.lane].tools[o.home.pos], t.values);
    forall k | k in t.lanes ensures Shows(k, t.lanes[k], view'.lanes[k], values') {
      assert Shows(k, t.lanes[k], t.view.lanes[k], t.values);
      ShowsEdited(k, t.lanes[k], t.view.lanes[k], t.values, o, Merged(t.values[o], u));
    }
  }

  /** Each object has the value that is kept for it. */
  ghost predicate Kept(values: Values)
    reads values.Keys
  {
    forall o :: o in values ==> o.value == values[o]
  }

  method UpdateIn(o: RichTool, u: SessionUpdate, diffs: Option<seq<Diff>>, ghost before: Values, ghost after: Values)
    requires u.ToolCallUpdate? && diffs == DiffsOf(u.content)
    requires Kept(before) && o in before && after == before[o := Merged(before[o], u)]
    modifies o
    ensures Kept(after)
  {
    o.Update(u, diffs);
  }

  class RichRenderer {
    var lanes: map<string, LaneRecord>
    var laneOrder: seq<string>
    var tools: map<string, RichTool>
    var board: seq<BoardEntry>
    ghost var table: Table

    /** The view that the renderer shows. */
    ghost function Shown(): View
      reads this
    {
      table.view
    }

    ghost predicate Valid()
      reads this, table.values.Keys
    {
      && lanes == table.lanes && tools == table.tools && laneOrder == table.view.order && board == table.view.board
      && Kept(table.values)
    }

    constructor ()
      ensures Valid() && fresh(table.values.Keys)
      ensures Shown() == EmptyView
    {
      lanes, laneOrder, tools, board := map[], [], map[], [];
      table := Records(map[], map[], EmptyView, map[]);
    }

    /** Puts a lane's record and what it shows in place. */
    method Put(key: string, r: LaneRecord, ghost l: Lane)
      requires Valid() && Shows(key, r, l, table.values)
      requires key in lanes ==> lanes[key].tools <= r.tools
      modifies this`lanes, this`laneOrder, this`table
      ensures Valid() && table == PutLane(old(table), key, r, l)
    {
      assert key in lanes <==> key in table.view.lanes;
      if key !in lanes { laneOrder := laneOrder + [key]; }
      lanes := lanes[key := r];
      table := PutLane(table, key, r, l);
    }

    /** Finds or opens the lane at key and keeps the freshest name and role. */
    method LaneFor(key: string, member: Option<MemberRef>)
      requires Valid()
      modifies this`lanes, this`laneOrder, this`table
      ensures Valid() && key in lanes && table.values == old(table).values
      ensures Shown() == WithLane(old(Shown()), key, Labelled(LaneAt(old(Shown()), key), member))
    {
      assert key in lanes ==> Shows(key, lanes[key], table.view.lanes[key], table.values);
      assert key in lanes <==> key in table.view.lanes;
      var r := if key in lanes then lanes[key] else LaneRecord(None, None, "", []);
      if member.Some? {
        r := LaneRecord(if member.value.name.Some? then member.value.name else r.name,
                        if member.value.role.Some? then member.value.role else r.role, r.text, r.tools);
      }
      Put(key, r, Labelled(LaneAt(table.view, key), member));
    }

    method AppendText(key: string, text: string)
      requires Valid() && key in lanes && key in table.view.lanes
      modifies this`lanes, this`laneOrder, this`table
      ensures Valid() && table.values == old(table).values
      ensures Shown() == WithLane(old(Shown()), key, old(Shown()).lanes[key].(text := old(Shown()).lanes[key].text + text))
    {
      var r := lanes[key];
      ghost var l := table.view.lanes[key];
      assert Shows(key, r, l, table.values);
      Put(key, LaneRecord(r.name, r.role, r.text + text, r.tools), l.(text := l.text + text));
    }

    /** A new tool object, not listed yet. */
    method NewTool(t: Tool, ghost home: Slot) returns (tool: RichTool)
      requires Valid()
      modifies this`table
      ensures Valid() && fresh(tool) && tool.home == home
      ensures tool !in old(table).values && table == WithObject(old(table), tool, t)
    {
      tool := new RichTool(t, home);
      assert tool !in table.values;
      table := WithObject(table, tool, t);
    }

    /** Pushes a new tool object onto a lane. */
    method AppendTool(key: string, t: Tool) returns (tool: RichTool)
      requires Valid() && key in lanes && key in table.view.lanes
      modifies this`lanes, this`laneOrder, this`table
      ensures Valid() && fresh(table.values.Keys - old(table.values.Keys))
      ensures Shown() == WithLane(old(Shown()), key, WithTool(old(Shown()).lanes[key], t))
      ensures PointsAt(lanes, tool, Slot(key, |old(Shown()).lanes[key].tools|))
    {
      var r := lanes[key];
      ghost var l := table.view.lanes[key];
      assert Shows(key, r, l, table.values);
      tool := NewTool(t, Slot(key, |r.tools|));
      assert Shows(key, r, l, table.values);
      ShowsPushed(key, r, l, table.values, tool);
      Put(key, Pushed(r, tool), WithTool(l, t));
    }

    /** Points a tool id at the object in a slot. */
    method Index(id: string, tool: RichTool, ghost slot: Slot)
      requires Valid() && PointsAt(lanes, tool, slot)
      modifies this`tools, this`table
      ensures Valid() && table == WithIndex(old(table), id, tool, slot)
    {
      tools := tools[id := tool];
      table := WithIndex(table, id, tool, slot);
    }

    method PushTool(t: Tool, member: Option<MemberRef>)
      requires Valid()
      modifies this`lanes, this`laneOrder, this`tools, this`table
      ensures Valid() && fresh(table.values.Keys - old(table.values.Keys))
      ensures Shown() == AddTool(old(Shown()), member, t)
    {
      var key := if member.Some? then member.value.id.GetOr("") else "";
      LaneFor(key, member);
      ghost var l := table.view.lanes[key];
      var tool := AppendTool(key, t);
      Index(t.toolCallId, tool, Slot(key, |l.tools|));
      WithLaneTwice(old(Shown()), key, l, WithTool(l, t));
    }

    /** Overwrites the object that the index names, when that gets to the given table. */
    method EditTo(id: string, u: SessionUpdate, diffs: Option<seq<Diff>>, ghost edited: Table)
      requires Valid() && id in tools && u.ToolCallUpdate? && diffs == DiffsOf(u.content) && tools[id] in table.values
      requires edited.lanes == table.lanes && edited.tools == table.tools
      requires edited.view.order == table.view.order && edited.view.board == table.view.board
      requires edited.values == table.values[tools[id] := Merged(table.values[tools[id]], u)]
      modifies this`table, tools[id]
      ensures Valid() && table == edited
    {
      UpdateIn(tools[id], u, diffs, table.values, edited.values);
      table := edited;
    }

    /** Edits the shared object: the lane that lists it shows the change. */
    method MutateTool(id: string, u: SessionUpdate, diffs: Option<seq<Diff>>)
      requires Valid() && id in tools && u.ToolCallUpdate? && diffs == DiffsOf(u.content)
      modifies this`table, tools[id]
      ensures Valid() && table == WithEdit(old(table), id, u)
    {
      EditTo(id, u, diffs, WithEdit(table, id, u));
    }

    method ApplyChunk(text: Option<string>, member: Option<MemberRef>)
      requires Valid()
      modifies this`lanes, this`laneOrder, this`table
      ensures Valid() && table.values == old(table).values
      ensures Shown() == AppliedChunk(old(Shown()), text, member)
    {
      var key := if member.Some? then member.value.id.GetOr("") else "";
      LaneFor(key, member);
      ghost var l := table.view.lanes[key];
      AppendText(key, text.GetOr(""));
      WithLaneTwice(old(Shown()), key, l, l.(text := l.text + text.GetOr("")));
    }

    /** Edits the tool that the update names, or starts one. */
    method ApplyToolCallUpdate(id: string, u: SessionUpdate)
      requires Valid() && Shown().Valid() && u.ToolCallUpdate? && u.toolCallId == Some(id)
      modifies this`lanes, this`laneOrder, this`tools, this`table, if id in tools then {tools[id]} else {}
      ensures Valid() && fresh(table.values.Keys - old(table.values.Keys))
      ensures Shown() == AppliedToolCallUpdate(old(Shown()), u)
    {
      var diffs := DiffsFromUpdate(u.content);
      if id in tools {
        MutateTool(id, u, diffs);
        return;
      }
      assert id !in table.view.slots;
      PushTool(Tool(id, u.title.GetOr(""), u.kind, u.status.GetOr("in_progress"), diffs), u.meta);
    }

    method ShowBoard(entries: seq<PlanEntry>)
      requires Valid()
      modifies this`board, this`table
      ensures Valid() && table == WithBoard(old(table), BoardOf(entries))
    {
      board := BoardOf(entries);
      table := WithBoard(table, BoardOf(entries));
    }

    /** One notification: the view moves exactly as `Applied` says. */
    method Apply(u: SessionUpdate)
      requires Valid() && Shown().Valid()
      modifies this, table.values.Keys
      ensures Valid() && fresh(table.values.Keys - old(table.values.Keys))
      ensures Shown() == Applied(old(Shown()), u)
    {
      match u
      case AgentMessageChunk(text, member) =>
        ApplyChunk(text, member);
      case ToolCall(id, title, kind, status, content, member) =>
        if id.None? { return; }
        var diffs := DiffsFromUpdate(content);
        PushTool(Tool(id.value, title.GetOr(""), kind, status.GetOr("pending"), diffs), member);
      case ToolCallUpdate(id, _, _, _, _, _, _, _, _) =>
        if id.None? { return; }
        if id.value in tools { IndexedHome(table, id.value); }
        ApplyToolCallUpdate(id.value, u);
      case Plan(entries, _) =>
        ShowBoard(entries);
      case OtherUpdate(_) =>
    }
  }

  lemma WithLaneTwice(v: View, key: string, l: Lane, l': Lane)
    ensures WithLane(WithLane(v, key, l), key, l') == WithLane(v, key, l')
  {
    assert v.lanes[key := l][key := l'] == v.lanes[key := l'];
  }
}
