/**
 * Whose lanes a client shows, under which names, and in which order (legacy/src/acp/rich-view.ts:118-223,
 * legacy/src/acp/lane-translator.ts:187-237).
 */
module LaneNames {
  import opened Basics
  import opened LaneEvents
  import opened NormalizedTranslate
  import opened LaneTranslator
  import opened RichView
  import opened RenderedRuns
  import opened NonInterference

  // ---------- names ----------

  /** A lane is some member's: filed under its id, and named by its role. */
  ghost predicate IsLaneOf(roster: Roster, a: AgentId, k: string, l: Lane) {
    && a in roster.members && roster.members[a].memberId == k
    && l.name == Some(roster.members[a].role) && l.role == Some(roster.members[a].role)
  }

  ghost predicate Named(roster: Roster, k: string, l: Lane) {
    exists a :: IsLaneOf(roster, a, k, l)
  }

  ghost predicate AllNamed(roster: Roster, v: View) {
    forall k :: k in v.lanes ==> Named(roster, k, v.lanes[k])
  }

  /** An update that a member's own event sends, with its reference. */
  ghost predicate SentFor(roster: Roster, a: AgentId, u: SessionUpdate) {
    && a in roster.members && !u.Plan? && !u.OtherUpdate?
    && u.meta == Some(MemberRef(Some(roster.members[a].memberId), Some(roster.members[a].role), Some(roster.members[a].role)))
  }

  lemma SpeechIsSentFor(c: Config, s: State, t: Tick, roster: Roster)
    requires IsEngine(t.event) && t.roster == Some(roster) && t.event.agentId in roster.members
    ensures forall u :: u in Speak(c, s, t).sent ==> SentFor(roster, t.event.agentId, u)
  {
    var ne, o := t.event.payload.normalized.value, OptionsOf(c, s, t);
    assert forall u :: u in Updates(c.p, s.open, ne, o) ==> u.meta == o.meta && !u.Plan? && !u.OtherUpdate?;
  }

  lemma WrittenNamed(roster: Roster, a: AgentId, v: View, u: SessionUpdate, k: string)
    requires v.Valid() && SentFor(roster, a, u) && AllNamed(roster, v) && Touched(v, u) == Some(k)
    ensures Named(roster, k, Written(LaneAt(v, k), Edited(v, u), u))
  {
    var l := Written(LaneAt(v, k), Edited(v, u), u);
    if Edited(v, u).Some? {
      assert Named(roster, k, v.lanes[k]);
      var b :| IsLaneOf(roster, b, k, v.lanes[k]);
      assert IsLaneOf(roster, b, k, l);
    } else {
      assert IsLaneOf(roster, a, k, l);
    }
  }

  lemma AppliedNamed(roster: Roster, a: AgentId, v: View, u: SessionUpdate)
    requires v.Valid() && SentFor(roster, a, u) && AllNamed(roster, v)
    ensures AllNamed(roster, Applied(v, u))
  {
    forall k | k in Applied(v, u).lanes ensures Named(roster, k, Applied(v, u).lanes[k]) {
      if Touched(v, u) == Some(k) {
        AppliedHere(v, u, k);
        WrittenNamed(roster, a, v, u, k);
      } else {
        AppliedElsewhere(v, u, k);
      }
    }
  }

  lemma {:induction false} AllAppliedNamed(roster: Roster, a: AgentId, v: View, updates: seq<SessionUpdate>)
    requires v.Valid() && AllNamed(roster, v) && forall u :: u in updates ==> SentFor(roster, a, u)
    ensures AllNamed(roster, ApplyAll(v, updates))
  {
    if updates != [] {
      AllAppliedNamed(roster, a, v, Init(updates));
      AppliedNamed(roster, a, ApplyAll(v, Init(updates)), Last(updates));
    }
  }

  lemma SameLanesNamed(roster: Roster, v: View, w: View)
    requires AllNamed(roster, v) && SameLanes(w, v)
    ensures AllNamed(roster, w)
  {
  }

  /** Main result: every lane that a client shows is a member's, filed under its id and named by its role. */
  lemma {:induction false} LanesAreNamed(c: Config, roster: Roster, ticks: seq<Tick>)
    requires roster.Valid() && Staffed(roster, ticks)
    ensures ValidTicks(ticks) && AllNamed(roster, ViewAfter(c, ticks))
  {
    if ticks != [] {
      var s, t, v := Run(c, Init(ticks)).state, Last(ticks), ViewAfter(c, Init(ticks));
      LanesAreNamed(c, roster, Init(ticks));
      ViewStep(c, ticks);
      if IsEngine(t.event) {
        LanesAfterEngine(c, s, t, v);
        SpeechIsSentFor(c, s, t, roster);
        AllAppliedNamed(roster, t.event.agentId, v, Speak(c, s, t).sent);
        SameLanesNamed(roster, ApplyAll(v, Speak(c, s, t).sent), ViewAfter(c, ticks));
      } else {
        LanesAfterOther(c, s, t, v);
        SameLanesNamed(roster, v, ViewAfter(c, ticks));
      }
    }
  }

  // ---------- order ----------

  /** The order lists each lane once. */
  ghost predicate Listed(v: View) {
    && (forall k :: k in v.order <==> k in v.lanes)
    && (forall i, j :: 0 <= i < j < |v.order| ==> v.order[i] != v.order[j])
  }

  lemma AppliedListed(v: View, u: SessionUpdate)
    requires v.Valid() && Listed(v)
    ensures Listed(Applied(v, u)) && v.order <= Applied(v, u).order
  {
    match u
    case AgentMessageChunk(text, meta) =>
      var l := Labelled(LaneAt(v, LaneKey(meta)), meta);
      WithLaneListed(v, LaneKey(meta), l.(text := l.text + text.GetOr("")));
    case ToolCall(id, title, kind, status, content, meta) =>
      if id.Some? { AddToolListed(v, meta, FreshTool(u)); }
    case ToolCallUpdate(id, _, _, _, _, _, _, _, meta) =>
      if id.Some? { ToolUpdateListed(v, u); }
    case Plan(_, _) =>
    case OtherUpdate(_) =>
  }

  lemma ToolUpdateListed(v: View, u: SessionUpdate)
    requires v.Valid() && Listed(v) && u.ToolCallUpdate? && u.toolCallId.Some?
    ensures Listed(AppliedToolCallUpdate(v, u)) && v.order <= AppliedToolCallUpdate(v, u).order
  {
    if u.toolCallId.value in v.slots {
      var w := EditTool(v, v.slots[u.toolCallId.value], u);
      assert w.order == v.order && w.lanes.Keys == v.lanes.Keys;
    } else {
      AddToolListed(v, u.meta, FreshTool(u));
    }
  }

  lemma WithLaneListed(v: View, key: string, l: Lane)
    requires Listed(v)
    ensures Listed(WithLane(v, key, l)) && v.order <= WithLane(v, key, l).order
  {
  }

  lemma AddToolListed(v: View, meta: Option<MemberRef>, tool: Tool)
    requires Listed(v)
    ensures Listed(AddTool(v, meta, tool)) && v.order <= AddTool(v, meta, tool).order
  {
    var l := Labelled(LaneAt(v, LaneKey(meta)), meta);
    WithLaneListed(v, LaneKey(meta), l.(tools := l.tools + [tool]));
  }

  /** Main result: whatever is sent, each lane is listed once, and a lane keeps its place behind those that were there before it. */
  lemma {:induction false} LanesKeepTheirPlace(updates: seq<SessionUpdate>, n: nat)
    requires n <= |updates|
    ensures Listed(Render(updates)) && Render(updates[..n]).order <= Render(updates).order
  {
    if n == |updates| {
      assert updates[..n] == updates;
      if n > 0 {
        LanesKeepTheirPlace(Init(updates), n - 1);
        AppliedListed(Render(Init(updates)), Last(updates));
      }
    } else {
      LanesKeepTheirPlace(Init(updates), n);
      AppliedListed(Render(Init(updates)), Last(updates));
      assert Init(updates)[..n] == updates[..n];
    }
  }

  // ---------- what is missing from an update ----------

  /** A board entry, field by field; what a plan leaves out is empty, pending, or linked to nobody. */
  lemma BoardByField(v: View, entries: seq<PlanEntry>, meta: Option<MemberRef>, i: nat)
    requires v.Valid() && i < |entries|
    ensures var board, e := Applied(v, Plan(entries, meta)).board, entries[i];
            && |board| == |entries|
            && board[i].content == (if e.content.Some? then e.content.value else "")
            && board[i].priority == e.priority
            && board[i].status == (if e.status.Some? then e.status.value else "pending")
            && board[i].memberId == (if e.meta.Some? then e.meta.value.id else None)
  {
  }

  /** A tool that an update shows for the first time, field by field. */
  lemma ToolByField(v: View, u: SessionUpdate)
    requires v.Valid() && (u.ToolCall? || u.ToolCallUpdate?) && u.toolCallId.Some?
    requires u.ToolCallUpdate? ==> u.toolCallId.value !in v.slots
    ensures var w, k := Applied(v, u), if u.meta.Some? && u.meta.value.id.Some? then u.meta.value.id.value else "";
            && u.toolCallId.value in w.slots && w.slots[u.toolCallId.value].lane == k && k in w.lanes && w.lanes[k].tools != []
            && w.slots[u.toolCallId.value].pos == |w.lanes[k].tools| - 1
            && var t := Last(w.lanes[k].tools);
               && t.toolCallId == u.toolCallId.value && t.title == (if u.title.Some? then u.title.value else "") && t.kind == u.kind
               && t.status == (if u.status.Some? then u.status.value else if u.ToolCall? then "pending" else "in_progress")
               && ShowsDiffs(u.content, t.diffs)
  {
    AppliedHere(v, u, LaneKey(u.meta));
    DiffsAreListed(u.content);
  }
}
