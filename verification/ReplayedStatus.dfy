/**
 * Which statuses survive a load: the spine drops words, and woven prose brings some of the lead's back
 * (legacy/src/acp/spine.ts:36-38, legacy/src/acp/team-history.ts:76-123, legacy/src/acp/lane-translator.ts:243-254).
 */
module ReplayedStatus {
  import opened Basics
  import opened LaneEvents
  import opened StableSort
  import opened LaneTranslator
  import opened TeamHistory
  import opened Reloading
  import opened ProseMerge
  import opened BoardFreshness
  import Replay
  import RichView
  import ToolHalf

  /** The latest signal that a stream carries about a member. */
  function LatestSignal(events: seq<LaneEvent>, id: AgentId): Option<PlanStatus> {
    if events == [] then None
    else if Signal(Last(events), id).Some? then Signal(Last(events), id)
    else LatestSignal(Init(events), id)
  }

  /** Whether the last event that says anything about a member is one that the spine keeps. */
  predicate EndsRecorded(events: seq<LaneEvent>, id: AgentId) {
    if events == [] then true
    else if Signal(Last(events), id).Some? then IsSpineEvent(Last(events))
    else EndsRecorded(Init(events), id)
  }

  lemma {:induction false} SignalsOfTicks(ticks: seq<Tick>, id: AgentId)
    ensures LastSignal(ticks, id) == LatestSignal(ToolHalf.EventsOf(ticks), id)
  {
    if ticks != [] {
      SignalsOfTicks(Init(ticks), id);
      assert Init(ToolHalf.EventsOf(ticks)) == ToolHalf.EventsOf(Init(ticks));
    }
  }

  /** Dropped signals are words, and say that the member works. */
  lemma {:induction false} LatestOfRecorded(events: seq<LaneEvent>, id: AgentId)
    ensures EndsRecorded(events, id) ==> LatestSignal(Recorded(events), id) == LatestSignal(events, id)
    ensures !EndsRecorded(events, id) ==> LatestSignal(events, id) == Some(InProgress)
  {
    if events != [] {
      LatestOfRecorded(Init(events), id);
      if IsSpineEvent(Last(events)) {
        assert Init(Recorded(events)) == Recorded(Init(events));
      } else {
        assert Recorded(events) == Recorded(Init(events));
      }
    }
  }

  // ---------- the latest signal, by position ----------

  ghost predicate QuietAfter(events: seq<LaneEvent>, id: AgentId, p: nat) {
    forall q :: p < q < |events| ==> Signal(events[q], id).None?
  }

  lemma {:induction false} LatestIsAt(events: seq<LaneEvent>, id: AgentId, p: nat)
    requires p < |events| && Signal(events[p], id).Some? && QuietAfter(events, id, p)
    ensures LatestSignal(events, id) == Signal(events[p], id)
  {
    if p < |events| - 1 {
      assert Signal(Last(events), id).None?;
      LatestIsAt(Init(events), id, p);
    }
  }

  lemma {:induction false} LastSignalPosition(events: seq<LaneEvent>, id: AgentId, s: nat) returns (last: nat)
    requires s < |events| && Signal(events[s], id).Some?
    ensures s <= last < |events| && Signal(events[last], id).Some? && QuietAfter(events, id, last)
    ensures LatestSignal(events, id) == Signal(events[last], id)
  {
    if Signal(Last(events), id).Some? {
      last := |events| - 1;
    } else {
      last := LastSignalPosition(Init(events), id, s);
    }
    LatestIsAt(events, id, last);
  }

  // ---------- woven prose ----------

  /** The last piece of prose falls after everything that the spine says about the member. */
  predicate ProseSpeaksLast(spine: seq<LaneEvent>, lead: AgentId, prose: seq<string>, id: AgentId) {
    id == lead && prose != []
    && forall s :: 0 <= s < |spine| && Signal(spine[s], id).Some? ==> spine[s].ts + 1.0 <= Anchor(spine, lead, |prose| - 1)
  }

  lemma ProseSignals(spine: seq<LaneEvent>, lead: AgentId, i: nat, text: string, id: AgentId)
    ensures Signal(ProseEvent(spine, lead, i, text), id) == if id == lead then Some(InProgress) else None
  {
  }

  function Signals(id: AgentId): LaneEvent -> bool {
    (e: LaneEvent) => Signal(e, id).Some?
  }

  lemma {:induction false} LatestOfSignals(events: seq<LaneEvent>, id: AgentId)
    ensures LatestSignal(Filter(events, Signals(id)), id) == LatestSignal(events, id)
  {
    if events != [] {
      var kept := Filter(Init(events), Signals(id));
      LatestOfSignals(Init(events), id);
      if Signals(id)(Last(events)) {
        assert Filter(events, Signals(id)) == kept + [Last(events)];
      } else {
        assert Filter(events, Signals(id)) == kept;
      }
    }
  }

  /** Prose speaks for the lead only. */
  lemma OthersUnaffected(spine: seq<LaneEvent>, lead: AgentId, prose: seq<string>, id: AgentId)
    requires TsSorted(spine) && (id != lead || prose == [])
    ensures LatestSignal(MergeLeadProse(spine, lead, prose), id) == LatestSignal(spine, id)
  {
    var merged := MergeLeadProse(spine, lead, prose);
    forall e | e in ProseEvents(spine, lead, prose) ensures !Signals(id)(e) {
      ProseIsText(spine, lead, prose, e);
    }
    MergeKeeps(spine, lead, prose, Signals(id));
    LatestOfSignals(merged, id);
    LatestOfSignals(spine, id);
  }

  lemma WovenMembers(spine: seq<LaneEvent>, lead: AgentId, prose: seq<string>)
    ensures Ordered(Woven(spine, lead, prose))
    ensures forall x :: x in Woven(spine, lead, prose) <==> x in Items(spine) || x in ProseItems(spine, lead, prose)
  {
    AllItems(spine, lead, prose);
    SortOrdered(Items(spine + ProseEvents(spine, lead, prose)));
  }

  /** Nothing that comes after an item of the merge says anything about the member. */
  lemma LatestInMerge(spine: seq<LaneEvent>, lead: AgentId, prose: seq<string>, id: AgentId, x: Item)
    requires TsSorted(spine) && x in Woven(spine, lead, prose) && Signal(x.e, id).Some?
    requires forall s :: 0 <= s < |spine| && Signal(spine[s], id).Some? ==> !Before(x, SpineItem(spine, s))
    requires forall i :: 0 <= i < |prose| ==> !Before(x, ProseItem(spine, lead, prose, i))
    ensures LatestSignal(MergeLeadProse(spine, lead, prose), id) == Signal(x.e, id)
  {
    var woven, merged := Woven(spine, lead, prose), MergeLeadProse(spine, lead, prose);
    WovenMembers(spine, lead, prose);
    WovenIsMerge(spine, lead, prose);
    forall y | y in ProseItems(spine, lead, prose) ensures !Before(x, y) {
      var i :| 0 <= i < |prose| && ProseItems(spine, lead, prose)[i] == y;
      assert y == ProseItem(spine, lead, prose, i);
    }
    var p :| 0 <= p < |woven| && woven[p] == x;
    forall q | p < q < |merged| ensures Signal(merged[q], id).None? {
      assert Before(x, woven[q]) && woven[q] in woven && merged[q] == woven[q].e;
      var s :| 0 <= s < |spine| && Items(spine)[s] == woven[q];
      assert woven[q] == SpineItem(spine, s);
    }
    LatestIsAt(merged, id, p);
  }

  /** No piece of prose comes after the last one. */
  lemma LastPieceIsLast(spine: seq<LaneEvent>, lead: AgentId, prose: seq<string>, i: nat)
    requires TsSorted(spine) && i < |prose|
    ensures Anchor(spine, lead, i) <= Anchor(spine, lead, |prose| - 1)
    ensures !Before(ProseItem(spine, lead, prose, |prose| - 1), ProseItem(spine, lead, prose, i))
  {
    if i < |prose| - 1 { AnchorsRise(spine, lead, i, |prose| - 1); }
  }

  lemma LeadSpeaksLast(spine: seq<LaneEvent>, lead: AgentId, prose: seq<string>)
    requires TsSorted(spine) && ProseSpeaksLast(spine, lead, prose, lead)
    ensures LatestSignal(MergeLeadProse(spine, lead, prose), lead) == Some(InProgress)
  {
    var n := |prose| - 1;
    var x := ProseItem(spine, lead, prose, n);
    WovenMembers(spine, lead, prose);
    assert ProseItems(spine, lead, prose)[n] == x;
    ProseSignals(spine, lead, n, prose[n], lead);
    forall i | 0 <= i < |prose| ensures !Before(x, ProseItem(spine, lead, prose, i)) {
      LastPieceIsLast(spine, lead, prose, i);
    }
    LatestInMerge(spine, lead, prose, lead, x);
  }

  lemma NoSpineSignalAfter(spine: seq<LaneEvent>, id: AgentId, last: nat, s: nat)
    requires TsSorted(spine) && last < |spine| && QuietAfter(spine, id, last)
    requires s < |spine| && Signal(spine[s], id).Some?
    ensures !Before(SpineItem(spine, last), SpineItem(spine, s))
  {
    assert s <= last;
  }

  lemma SpineSpeaksLast(spine: seq<LaneEvent>, lead: AgentId, prose: seq<string>)
    requires TsSorted(spine) && prose != [] && !ProseSpeaksLast(spine, lead, prose, lead)
    ensures LatestSignal(MergeLeadProse(spine, lead, prose), lead) == LatestSignal(spine, lead)
  {
    var s :| 0 <= s < |spine| && Signal(spine[s], lead).Some? && spine[s].ts + 1.0 > Anchor(spine, lead, |prose| - 1);
    var last := LastSignalPosition(spine, lead, s);
    LateSignalIsLast(spine, lead, prose, last);
  }

  lemma LateSignalIsLast(spine: seq<LaneEvent>, lead: AgentId, prose: seq<string>, last: nat)
    requires TsSorted(spine) && prose != [] && last < |spine| && QuietAfter(spine, lead, last)
    requires Signal(spine[last], lead).Some? && spine[last].ts + 1.0 > Anchor(spine, lead, |prose| - 1)
    ensures LatestSignal(MergeLeadProse(spine, lead, prose), lead) == Signal(spine[last], lead)
  {
    var x := SpineItem(spine, last);
    WovenMembers(spine, lead, prose);
    assert Items(spine)[last] == x;
    forall i | 0 <= i < |prose| ensures !Before(x, ProseItem(spine, lead, prose, i)) {
      LastPieceIsLast(spine, lead, prose, i);
    }
    forall s | 0 <= s < |spine| && Signal(spine[s], lead).Some? ensures !Before(x, SpineItem(spine, s)) {
      NoSpineSignalAfter(spine, lead, last, s);
    }
    LatestInMerge(spine, lead, prose, lead, x);
  }

  /** What the merge says last about a member. */
  lemma LatestOfMerge(spine: seq<LaneEvent>, lead: AgentId, prose: seq<string>, id: AgentId)
    requires TsSorted(spine)
    ensures LatestSignal(MergeLeadProse(spine, lead, prose), id)
         == if ProseSpeaksLast(spine, lead, prose, id) then Some(InProgress) else LatestSignal(spine, id)
  {
    if id != lead || prose == [] {
      OthersUnaffected(spine, lead, prose, id);
    } else if ProseSpeaksLast(spine, lead, prose, id) {
      LeadSpeaksLast(spine, lead, prose);
    } else {
      SpineSpeaksLast(spine, lead, prose);
    }
  }

  lemma LatestOfReloaded(events: seq<LaneEvent>, lead: AgentId, prose: seq<string>, id: AgentId)
    requires TsSorted(events)
    ensures LatestSignal(Reloaded(events, lead, prose), id)
         == if ProseSpeaksLast(Recorded(events), lead, prose, id) then Some(InProgress) else LatestSignal(Recorded(events), id)
  {
    FilterSorted(events, IsSpineEvent);
    SortedStaysPut(Recorded(events));
    LatestOfMerge(Recorded(events), lead, prose, id);
  }

  /**
   * Main result: any member, the narrating lead included, has its live status after a load exactly when the recorded events
   * leave it working, or what spoke last about it live came back: a recorded event that no prose follows, or
   * dropped words that prose makes good.
   */
  lemma StatusSurvivesIff(ticks: seq<Tick>, lead: AgentId, prose: seq<string>, id: AgentId)
    requires TsSorted(ToolHalf.EventsOf(ticks))
    ensures var events := ToolHalf.EventsOf(ticks);
            var merged := Reloaded(events, lead, prose);
            LastSignal(Under(RosterOf(merged), merged), id) == LastSignal(ticks, id)
            <==> LatestSignal(Recorded(events), id) == Some(InProgress)
                 || (EndsRecorded(events, id) <==> !ProseSpeaksLast(Recorded(events), lead, prose, id))
  {
    var events := ToolHalf.EventsOf(ticks);
    var merged := Reloaded(events, lead, prose);
    SignalsOfTicks(ticks, id);
    SignalsOfTicks(Under(RosterOf(merged), merged), id);
    assert ToolHalf.EventsOf(Under(RosterOf(merged), merged)) == merged;
    LatestOfReloaded(events, lead, prose, id);
    LatestOfRecorded(events, id);
    SignalIsNotPending(Recorded(events), id);
  }

  lemma {:induction false} SignalIsNotPending(events: seq<LaneEvent>, id: AgentId)
    ensures LatestSignal(events, id) != Some(Pending)
  {
    if events != [] {
      SignalIsNotPending(Init(events), id);
    }
  }

  // ---------- a board that differs after a load ----------

  /** A worker is spawned, goes idle, and then speaks. */
  function IdleThenWords(): seq<LaneEvent> {
    var nothing := Payload(None, None, None, None, None);
    [LaneEvent(0.0, "host", WorkerSpawned, nothing.(childAgentId := Some("w"), role := Some("worker"))),
     LaneEvent(1.0, "w", WorkerIdle, nothing),
     LaneEvent(2.0, "w", TextDeltaType, nothing.(normalized := Some(TextDelta("x"))))]
  }

  lemma IdleThenWordsRecorded()
    ensures Recorded(IdleThenWords()) == IdleThenWords()[..2]
    ensures TsSorted(IdleThenWords()) && Replay.WellTyped(IdleThenWords())
  {
    var events := IdleThenWords();
    KeepsTwo(events[0], events[1], events[2]);
    assert events == [events[0], events[1], events[2]];
  }

  lemma KeepsTwo(a: LaneEvent, b: LaneEvent, c: LaneEvent)
    requires IsSpineEvent(a) && IsSpineEvent(b) && !IsSpineEvent(c)
    ensures Recorded([a, b, c]) == [a, b]
  {
    FilterLast([], a, IsSpineEvent);
    FilterLast([a], b, IsSpineEvent);
    FilterLast([a, b], c, IsSpineEvent);
    assert [] + [a] == [a] && [a] + [b] == [a, b] && [a, b] + [c] == [a, b, c];
  }

  lemma IdleThenWordsRoster()
    ensures RosterOf(IdleThenWords()) == Roster(["w"], map["w" := MemberInfo("w", "worker", Finished)])
  {
    var events := IdleThenWords();
    var one, two := events[..1], events[..2];
    assert Init(events) == two && Init(two) == one && Init(one) == [];
    assert RosterOf(one) == Joined(EmptyRoster, events[0]);
    assert RosterOf(two) == RosterOf(one) && RosterOf(events) == RosterOf(two);
  }

  lemma IdleThenWordsSignals()
    ensures LatestSignal(IdleThenWords(), "w") == Some(InProgress)
    ensures LatestSignal(IdleThenWords()[..2], "w") == Some(Completed)
  {
    LatestIsAt(IdleThenWords(), "w", 2);
    LatestIsAt(IdleThenWords()[..2], "w", 1);
  }

  /** The one entry of the board of a one-member roster. */
  lemma OneEntry(c: Config, roster: Roster, events: seq<LaneEvent>)
    requires roster == Roster(["w"], map["w" := MemberInfo("w", "worker", Finished)])
    requires events != [] && events[0].kind.WorkerSpawned? && LatestSignal(events, "w").Some?
    ensures roster.Valid()
    ensures var board := BoardAfter(c, roster, events); |board| == 1 && board[0].status == StatusText(LatestSignal(events, "w").value)
  {
    var ticks := Under(roster, events);
    assert roster.Valid() && Triggers(ticks[0].event);
    SignalsOfTicks(ticks, "w");
    assert ToolHalf.EventsOf(ticks) == events;
    ClientBoard(c, roster, ticks, 0);
  }

  lemma IdleThenWordsReloaded()
    ensures Reloaded(IdleThenWords(), "lead", []) == IdleThenWords()[..2]
    ensures RosterOf(IdleThenWords()[..2]) == RosterOf(IdleThenWords())
  {
    IdleThenWordsRecorded();
    SortedStaysPut(IdleThenWords()[..2]);
    ReloadedRoster(IdleThenWords(), "lead", []);
  }

  /** The board that a client shows at the end of a stream under one roster. */
  function BoardAfter(c: Config, roster: Roster, events: seq<LaneEvent>): seq<RichView.BoardEntry>
    requires roster.Valid()
  {
    RichView.Render(Replayed(c, roster, events).sent).board
  }

  lemma BoardsDiffer(c: Config, roster: Roster, live: seq<LaneEvent>, again: seq<LaneEvent>)
    requires roster == Roster(["w"], map["w" := MemberInfo("w", "worker", Finished)])
    requires live != [] && live[0].kind.WorkerSpawned? && LatestSignal(live, "w") == Some(InProgress)
    requires again != [] && again[0].kind.WorkerSpawned? && LatestSignal(again, "w") == Some(Completed)
    ensures roster.Valid() && BoardAfter(c, roster, live) != BoardAfter(c, roster, again)
  {
    OneEntry(c, roster, live);
    OneEntry(c, roster, again);
    assert StatusText(InProgress)[0] != StatusText(Completed)[0];
  }

  /** Live the board shows the worker at work; after a load, on the same roster, as done. */
  lemma StatusCanDiffer(c: Config)
    ensures var events := IdleThenWords();
            var merged := Reloaded(events, "lead", []);
            && TsSorted(events) && Replay.WellTyped(events)
            && BoardAfter(c, RosterOf(events), events) != BoardAfter(c, RosterOf(merged), merged)
  {
    IdleThenWordsRecorded();
    IdleThenWordsRoster();
    IdleThenWordsSignals();
    IdleThenWordsReloaded();
    BoardsDiffer(c, RosterOf(IdleThenWords()), IdleThenWords(), IdleThenWords()[..2]);
  }
}
