/**
 * Recording, reading back and weaving prose in, as filters on a stream (legacy/src/acp/spine.ts:36-105,
 * legacy/src/acp/team-history.ts:31-103).
 */
module Reloading {
  import opened Basics
  import opened LaneEvents
  import opened StableSort
  import opened TeamHistory

  // ---------- sorting and filtering events ----------

  function OnEvent(keep: LaneEvent -> bool): Item -> bool {
    (x: Item) => keep(x.e)
  }

  lemma {:induction false} UntagKeep(items: seq<Item>, keep: LaneEvent -> bool)
    ensures Untag(Filter(items, OnEvent(keep))) == Filter(Untag(items), keep)
  {
    if items != [] {
      UntagKeep(Init(items), keep);
      assert Init(Untag(items)) == Untag(Init(items));
      UntagAppend(Filter(Init(items), OnEvent(keep)), Last(items));
    }
  }

  /** A tail that is dropped whole. */
  lemma {:induction false} KeepDrops(items: seq<Item>, n: nat, keep: Item -> bool)
    requires n <= |items| && forall j :: n <= j < |items| ==> !keep(items[j])
    ensures Filter(items, keep) == Filter(items[..n], keep)
  {
    if n < |items| {
      KeepDrops(Init(items), n, keep);
      assert Init(items)[..n] == items[..n];
    } else {
      assert items[..n] == items;
    }
  }

  lemma {:induction false} FilterSorted(events: seq<LaneEvent>, keep: LaneEvent -> bool)
    requires TsSorted(events)
    ensures TsSorted(Filter(events, keep))
  {
    if events != [] {
      FilterSorted(Init(events), keep);
      FilterMembers(Init(events), keep);
      assert forall e :: e in Init(events) ==> e.ts <= Last(events).ts;
    }
  }

  /** Weaving prose in neither moves nor loses nor adds any event of a kind that prose is not. */
  lemma MergeKeeps(spine: seq<LaneEvent>, lead: AgentId, prose: seq<string>, keep: LaneEvent -> bool)
    requires TsSorted(spine)
    requires forall e :: e in ProseEvents(spine, lead, prose) ==> !keep(e)
    ensures Filter(MergeLeadProse(spine, lead, prose), keep) == Filter(spine, keep)
  {
    if prose != [] {
      var items := Items(spine + ProseEvents(spine, lead, prose));
      SpineItemsKept(spine, ProseEvents(spine, lead, prose), keep);
      SortKeep(items, OnEvent(keep));
      UntagKeep(Sort(items), keep);
      SpineSorted(spine, keep);
    }
  }

  lemma SpineItemsKept(spine: seq<LaneEvent>, woven: seq<LaneEvent>, keep: LaneEvent -> bool)
    requires forall e :: e in woven ==> !keep(e)
    ensures Filter(Items(spine + woven), OnEvent(keep)) == Filter(Items(spine), OnEvent(keep))
  {
    var items := Items(spine + woven);
    assert items[..|spine|] == Items(spine);
    KeepDrops(items, |spine|, OnEvent(keep));
  }

  lemma SpineSorted(spine: seq<LaneEvent>, keep: LaneEvent -> bool)
    requires TsSorted(spine)
    ensures Untag(Sort(Filter(Items(spine), OnEvent(keep)))) == Filter(spine, keep)
  {
    ItemsOrdered(spine);
    KeepOrdered(Items(spine), OnEvent(keep));
    SortKeepsOrdered(Filter(Items(spine), OnEvent(keep)));
    UntagKeep(Items(spine), keep);
    UntagItems(spine);
  }

  // ---------- the roster of the merged spine ----------

  predicate IsSpawn(e: LaneEvent) {
    e.kind.WorkerSpawned?
  }

  lemma {:induction false} RosterFromSpawns(events: seq<LaneEvent>)
    ensures RosterOf(events) == RosterOf(Filter(events, IsSpawn))
  {
    if events != [] {
      RosterFromSpawns(Init(events));
      if IsSpawn(Last(events)) {
        assert Init(Filter(events, IsSpawn)) == Filter(Init(events), IsSpawn);
      } else {
        assert Filter(events, IsSpawn) == Filter(Init(events), IsSpawn);
      }
    }
  }

  lemma ProseIsText(spine: seq<LaneEvent>, lead: AgentId, prose: seq<string>, e: LaneEvent)
    requires e in ProseEvents(spine, lead, prose)
    ensures e.kind.TextDeltaType? && e.agentId == lead && e.payload.normalized.Some? && e.payload.normalized.value.TextDelta?
  {
  }

  /** What load hands to the replay: the file in timestamp order, with the lead's prose woven in. */
  function Reloaded(events: seq<LaneEvent>, lead: AgentId, prose: seq<string>): seq<LaneEvent> {
    MergeLeadProse(SortByTs(Recorded(events)), lead, prose)
  }

  /** A stream in timestamp order gets through recording, reading and weaving unchanged, event kind by event kind. */
  lemma ReloadedKeeps(events: seq<LaneEvent>, lead: AgentId, prose: seq<string>, keep: LaneEvent -> bool)
    requires TsSorted(events)
    requires forall e :: e in events && keep(e) ==> IsSpineEvent(e)
    requires forall e :: keep(e) ==> !(e.kind.TextDeltaType? && e.agentId == lead && e.payload.normalized.Some?
                                       && e.payload.normalized.value.TextDelta?)
    ensures Filter(Reloaded(events, lead, prose), keep) == Filter(events, keep)
  {
    FilterSorted(events, IsSpineEvent);
    SortedStaysPut(Recorded(events));
    forall e | e in ProseEvents(Recorded(events), lead, prose) ensures !keep(e) {
      ProseIsText(Recorded(events), lead, prose, e);
    }
    MergeKeeps(Recorded(events), lead, prose, keep);
    FilterTwice(events, IsSpineEvent, keep);
  }

  /** The replay's roster is the one that the live stream's spawns make. */
  lemma ReloadedRoster(events: seq<LaneEvent>, lead: AgentId, prose: seq<string>)
    requires TsSorted(events)
    ensures RosterOf(Reloaded(events, lead, prose)) == RosterOf(events)
  {
    ReloadedKeeps(events, lead, prose, IsSpawn);
    RosterFromSpawns(events);
    RosterFromSpawns(Reloaded(events, lead, prose));
  }
}
