/**
 * Where narration stands after a load, in terms of the live stream's turn ends
 * (legacy/src/acp/spine.ts:36-38, legacy/src/acp/team-history.ts:76-103).
 */
module ProseTurns {
  import opened Basics
  import opened LaneEvents
  import opened StableSort
  import opened TeamHistory
  import opened Reloading
  import opened ProseMerge

  /** The lead's turn ends. */
  function LeadStop(lead: AgentId): LaneEvent -> bool {
    (e: LaneEvent) => e.agentId == lead && e.kind == MessageStopType
  }

  function Words(): LaneEvent -> bool {
    (e: LaneEvent) => e.kind == TextDeltaType
  }

  function NoWords(): LaneEvent -> bool {
    (e: LaneEvent) => e.kind != TextDeltaType
  }

  // ---------- the anchor, by turn ends ----------

  lemma {:induction false} BoundariesAreStops(spine: seq<LaneEvent>, lead: AgentId)
    ensures var b, stops := Boundaries(spine, lead), Filter(spine, LeadStop(lead));
            |b| == |stops| && forall k :: 0 <= k < |b| ==> spine[b[k]] == stops[k]
  {
    if spine != [] {
      BoundariesAreStops(Init(spine), lead);
    }
  }

  function TurnAnchor(spine: seq<LaneEvent>, stops: seq<LaneEvent>, i: nat): real {
    if i < |stops| then stops[i].ts
    else if stops != [] then Last(stops).ts
    else if spine != [] then spine[0].ts else 0.0
  }

  lemma AnchorIsTurn(spine: seq<LaneEvent>, lead: AgentId, i: nat)
    ensures Anchor(spine, lead, i) == TurnAnchor(spine, Filter(spine, LeadStop(lead)), i)
  {
    BoundariesAreStops(spine, lead);
  }

  // ---------- what precedes a piece ----------

  /** Of two halves of a sequence that is filtered to a known one, the first is filtered to a prefix. */
  lemma FilteredPrefix(items: seq<Item>, p: nat, keep: Item -> bool, whole: seq<Item>) returns (m: nat)
    requires p <= |items| && Filter(items, keep) == whole
    ensures m <= |whole| && Filter(items[..p], keep) == whole[..m] && Filter(items[p..], keep) == whole[m..]
  {
    FilterSplit(items[..p], items[p..], keep);
    assert items[..p] + items[p..] == items;
    m := |Filter(items[..p], keep)|;
  }

  lemma FirstKept(items: seq<Item>, keep: Item -> bool)
    requires items != [] && keep(items[0])
    ensures Filter(items, keep) != [] && Filter(items, keep)[0] == items[0]
  {
    FilterSplit([items[0]], items[1..], keep);
    FilterLast([], items[0], keep);
    assert [] + [items[0]] == [items[0]] && [items[0]] + items[1..] == items;
  }

  /** The pieces before a piece are those before it in the narration. */
  lemma ProseBefore(spine: seq<LaneEvent>, lead: AgentId, prose: seq<string>, i: nat, p: nat)
    requires TsSorted(spine) && i < |prose|
    requires p < |Woven(spine, lead, prose)| && Woven(spine, lead, prose)[p] == ProseItem(spine, lead, prose, i)
    ensures Filter(Woven(spine, lead, prose)[..p], ProseHalf(|spine|)) == ProseItems(spine, lead, prose)[..i]
  {
    var woven, pieces := Woven(spine, lead, prose), ProseItems(spine, lead, prose);
    BothOrdersKept(spine, lead, prose);
    var k := FilteredPrefix(woven, p, ProseHalf(|spine|), pieces);
    FirstKept(woven[p..], ProseHalf(|spine|));
    assert pieces[k] == woven[p];
  }

  /** The spine events before a piece are those that lie a time unit or more before its anchor. */
  lemma SpineBefore(spine: seq<LaneEvent>, lead: AgentId, prose: seq<string>, i: nat, p: nat) returns (m: nat)
    requires TsSorted(spine) && i < |prose|
    requires p < |Woven(spine, lead, prose)| && Woven(spine, lead, prose)[p] == ProseItem(spine, lead, prose, i)
    ensures m <= |spine| && Filter(Woven(spine, lead, prose)[..p], SpineHalf(|spine|)) == Items(spine)[..m]
    ensures forall s :: 0 <= s < |spine| ==> (s < m <==> spine[s].ts + 1.0 <= Anchor(spine, lead, i))
  {
    var woven, x := Woven(spine, lead, prose), ProseItem(spine, lead, prose, i);
    BothOrdersKept(spine, lead, prose);
    SortOrdered(Items(spine + ProseEvents(spine, lead, prose)));
    m := FilteredPrefix(woven, p, SpineHalf(|spine|), Items(spine));
    forall s | 0 <= s < |spine| ensures s < m <==> spine[s].ts + 1.0 <= Anchor(spine, lead, i) {
      SideOf(woven, p, SpineHalf(|spine|), Items(spine), m, s);
    }
  }

  lemma SideOf(woven: seq<Item>, p: nat, keep: Item -> bool, mine: seq<Item>, m: nat, s: nat)
    requires Ordered(woven) && p < |woven| && m <= |mine| && s < |mine| && !keep(woven[p])
    requires Filter(woven[..p], keep) == mine[..m] && Filter(woven[p..], keep) == mine[m..]
    ensures s < m ==> Before(mine[s], woven[p])
    ensures s >= m ==> Before(woven[p], mine[s])
  {
    if s < m {
      FilterMembers(woven[..p], keep);
      assert mine[..m][s] == mine[s] && mine[s] in mine[..m];
      assert mine[s] in woven[..p];
      var q :| 0 <= q < p && woven[..p][q] == mine[s];
    } else {
      FilterMembers(woven[p..], keep);
      assert mine[m..][s - m] == mine[s] && mine[s] in mine[m..];
      assert mine[s] in woven[p..] && keep(mine[s]);
      var q :| 0 <= q < |woven| - p && woven[p..][q] == mine[s];
      assert q > 0;
    }
  }

  // ---------- in the reloaded stream ----------

  /** The spine's items are lasting events, and the narration's are words. */
  lemma HalvesByKind(spine: seq<LaneEvent>, lead: AgentId, prose: seq<string>, x: Item)
    requires (forall e :: e in spine ==> NoWords()(e)) && x in Woven(spine, lead, prose)
    ensures ProseHalf(|spine|)(x) <==> OnEvent(Words())(x)
    ensures SpineHalf(|spine|)(x) <==> OnEvent(NoWords())(x)
  {
    AllItems(spine, lead, prose);
    SortOrdered(Items(spine) + ProseItems(spine, lead, prose));
    assert multiset(Woven(spine, lead, prose)) == multiset(Items(spine) + ProseItems(spine, lead, prose));
    assert x in Items(spine) + ProseItems(spine, lead, prose);
    if x in Items(spine) {
      var s :| 0 <= s < |spine| && Items(spine)[s] == x;
      assert spine[s] in spine;
    }
  }

  lemma UntagPrefix(items: seq<Item>, p: nat)
    requires p <= |items|
    ensures Untag(items)[..p] == Untag(items[..p])
  {
  }

  /** What stands before the i-th piece: the pieces before it, and a prefix of the spine. */
  lemma BeforePiece(spine: seq<LaneEvent>, lead: AgentId, prose: seq<string>, i: nat) returns (p: nat, m: nat)
    requires TsSorted(spine) && i < |prose| && forall e :: e in spine ==> NoWords()(e)
    ensures var merged := MergeLeadProse(spine, lead, prose);
            && p < |merged| && merged[p] == ProseEvent(spine, lead, i, prose[i])
            && m <= |spine| && Filter(merged[..p], NoWords()) == spine[..m]
            && |Filter(merged[..p], Words())| == i
    ensures forall s :: 0 <= s < |spine| ==> (s < m <==> spine[s].ts + 1.0 <= Anchor(spine, lead, i))
  {
    var woven := Woven(spine, lead, prose);
    p := PlaceOf(spine, lead, prose, i);
    m := SpineBefore(spine, lead, prose, i, p);
    ProseBefore(spine, lead, prose, i, p);
    WovenIsMerge(spine, lead, prose);
    UntagPrefix(woven, p);
    forall x | x in woven[..p]
      ensures ProseHalf(|spine|)(x) == OnEvent(Words())(x) && SpineHalf(|spine|)(x) == OnEvent(NoWords())(x)
    {
      HalvesByKind(spine, lead, prose, x);
    }
    FilterSame(woven[..p], ProseHalf(|spine|), OnEvent(Words()));
    FilterSame(woven[..p], SpineHalf(|spine|), OnEvent(NoWords()));
    UntagKeep(woven[..p], Words());
    UntagKeep(woven[..p], NoWords());
    assert Untag(Items(spine)[..m]) == spine[..m];
  }

  lemma PlaceOf(spine: seq<LaneEvent>, lead: AgentId, prose: seq<string>, i: nat) returns (p: nat)
    requires i < |prose|
    ensures p < |Woven(spine, lead, prose)| && Woven(spine, lead, prose)[p] == ProseItem(spine, lead, prose, i)
  {
    var all := Items(spine + ProseEvents(spine, lead, prose));
    SortOrdered(all);
    assert multiset(Woven(spine, lead, prose)) == multiset(all);
    assert all[|spine| + i] == ProseItem(spine, lead, prose, i) && all[|spine| + i] in all;
    p :| 0 <= p < |Woven(spine, lead, prose)| && Woven(spine, lead, prose)[p] == all[|spine| + i];
  }

  /** Turn ends in a prefix of the spine that a time bounds. */
  lemma StopsBefore(spine: seq<LaneEvent>, stop: LaneEvent -> bool, m: nat, bound: real)
    requires m <= |spine| && forall s :: 0 <= s < |spine| ==> (s < m <==> spine[s].ts + 1.0 <= bound)
    ensures var k, stops := |Filter(spine[..m], stop)|, Filter(spine, stop);
            k <= |stops| && forall j :: 0 <= j < |stops| ==> (j < k <==> stops[j].ts + 1.0 <= bound)
  {
    var one: seq<LaneEvent>, two: seq<LaneEvent> := Filter(spine[..m], stop), Filter(spine[m..], stop);
    assert spine[..m] + spine[m..] == spine;
    FilterSplit(spine[..m], spine[m..], stop);
    FilterMembers(spine[..m], stop);
    FilterMembers(spine[m..], stop);
    forall j | 0 <= j < |one + two| ensures j < |one| <==> (one + two)[j].ts + 1.0 <= bound {
      if j < |one| {
        assert one[j] in spine[..m];
      } else {
        assert two[j - |one|] in spine[m..];
      }
    }
  }

  /** The number of turn ends before a piece, from when they are. */
  lemma TurnsBefore(stops: seq<LaneEvent>, spine: seq<LaneEvent>, i: nat, k: nat)
    requires k <= |stops|
    requires forall j :: 0 <= j < |stops| ==> (j < k <==> stops[j].ts + 1.0 <= TurnAnchor(spine, stops, i))
    ensures i < |stops| ==> k <= i && (k == i <==> i == 0 || stops[i - 1].ts + 1.0 <= stops[i].ts)
    ensures stops != [] && i >= |stops| ==>
              k < |stops| && (k == |stops| - 1 <==> |stops| == 1 || stops[|stops| - 2].ts + 1.0 <= Last(stops).ts)
  {
    if i < |stops| {
      assert i < k <==> stops[i].ts + 1.0 <= stops[i].ts;
      if i > 0 { assert i - 1 < k <==> stops[i - 1].ts + 1.0 <= stops[i].ts; }
    } else if stops != [] {
      assert |stops| - 1 < k <==> stops[|stops| - 1].ts + 1.0 <= Last(stops).ts;
      if |stops| > 1 { assert |stops| - 2 < k <==> stops[|stops| - 2].ts + 1.0 <= Last(stops).ts; }
    }
  }

  lemma RecordedIsLasting(events: seq<LaneEvent>)
    ensures forall e :: e in Recorded(events) ==> NoWords()(e)
  {
    FilterMembers(events, IsSpineEvent);
  }

  /**
   * Main result: after a load the i-th piece of narration is the i-th words of the stream, and stands before the live stream's
   * i-th turn end of the lead; after the one before exactly when the two are a whole time unit apart. Extra pieces stand
   * before the last turn end, and without any nothing but pieces stands before a piece.
   */
  lemma PieceInLiveTurns(events: seq<LaneEvent>, lead: AgentId, prose: seq<string>, i: nat) returns (p: nat)
    requires TsSorted(events) && i < |prose|
    ensures var merged, stops := Reloaded(events, lead, prose), Filter(events, LeadStop(lead));
            && p < |merged| && merged[p].agentId == lead && merged[p].kind == TextDeltaType
            && merged[p].payload.normalized == Some(TextDelta(prose[i]))
            && |Filter(merged[..p], Words())| == i
            && var k := |Filter(merged[..p], LeadStop(lead))|;
               && (i < |stops| ==> k <= i && (k == i <==> i == 0 || stops[i - 1].ts + 1.0 <= stops[i].ts))
               && (stops != [] && i >= |stops| ==>
                     k < |stops| && (k == |stops| - 1 <==> |stops| == 1 || stops[|stops| - 2].ts + 1.0 <= Last(stops).ts))
               && (stops == [] ==> Filter(merged[..p], NoWords()) == [])
    ensures Filter(Reloaded(events, lead, prose), LeadStop(lead)) == Filter(events, LeadStop(lead))
  {
    var spine := Recorded(events);
    FilterSorted(events, IsSpineEvent);
    SortedStaysPut(spine);
    RecordedIsLasting(events);
    FilterTwice(events, IsSpineEvent, LeadStop(lead));
    ReloadedKeeps(events, lead, prose, LeadStop(lead));
    var m: nat;
    p, m := BeforePiece(spine, lead, prose, i);
    AnchorIsTurn(spine, lead, i);
    StopsOfMerge(spine, lead, prose, i, p, m);
  }

  lemma StopsOfMerge(spine: seq<LaneEvent>, lead: AgentId, prose: seq<string>, i: nat, p: nat, m: nat)
    requires p <= |MergeLeadProse(spine, lead, prose)| && m <= |spine|
    requires Filter(MergeLeadProse(spine, lead, prose)[..p], NoWords()) == spine[..m]
    requires forall s :: 0 <= s < |spine| ==> (s < m <==> spine[s].ts + 1.0 <= Anchor(spine, lead, i))
    ensures var stops, before := Filter(spine, LeadStop(lead)), MergeLeadProse(spine, lead, prose)[..p];
            var k := |Filter(before, LeadStop(lead))|;
            && (i < |stops| ==> k <= i && (k == i <==> i == 0 || stops[i - 1].ts + 1.0 <= stops[i].ts))
            && (stops != [] && i >= |stops| ==>
                  k < |stops| && (k == |stops| - 1 <==> |stops| == 1 || stops[|stops| - 2].ts + 1.0 <= Last(stops).ts))
            && (stops == [] ==> Filter(before, NoWords()) == [])
  {
    var before := MergeLeadProse(spine, lead, prose)[..p];
    FilterTwice(before, NoWords(), LeadStop(lead));
    AnchorIsTurn(spine, lead, i);
    StopsBefore(spine, LeadStop(lead), m, Anchor(spine, lead, i));
    TurnsBefore(Filter(spine, LeadStop(lead)), spine, i, |Filter(before, LeadStop(lead))|);
  }
}
