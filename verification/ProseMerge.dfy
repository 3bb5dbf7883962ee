/**
 * Where the lead's narration lands when it is woven back into a spine
 * (legacy/src/acp/team-history.ts:76-103).
 */
module ProseMerge {
  import opened Basics
  import opened LaneEvents
  import opened StableSort
  import opened TeamHistory

  /** The merge with every event still tagged: spine events by position, then prose by position. */
  function Woven(spine: seq<LaneEvent>, lead: AgentId, prose: seq<string>): seq<Item> {
    Sort(Items(spine + ProseEvents(spine, lead, prose)))
  }

  function SpineItem(spine: seq<LaneEvent>, s: nat): Item
    requires s < |spine|
  {
    Item(spine[s], s)
  }

  function ProseItem(spine: seq<LaneEvent>, lead: AgentId, prose: seq<string>, i: nat): Item
    requires i < |prose|
  {
    Item(ProseEvent(spine, lead, i, prose[i]), |spine| + i)
  }

  function ProseItems(spine: seq<LaneEvent>, lead: AgentId, prose: seq<string>): seq<Item> {
    seq(|prose|, i requires 0 <= i < |prose| => ProseItem(spine, lead, prose, i))
  }

  lemma AllItems(spine: seq<LaneEvent>, lead: AgentId, prose: seq<string>)
    ensures Items(spine + ProseEvents(spine, lead, prose)) == Items(spine) + ProseItems(spine, lead, prose)
  {
  }

  lemma WovenIsMerge(spine: seq<LaneEvent>, lead: AgentId, prose: seq<string>)
    requires TsSorted(spine)
    ensures MergeLeadProse(spine, lead, prose) == Untag(Woven(spine, lead, prose))
  {
    if prose == [] {
      assert spine + ProseEvents(spine, lead, prose) == spine;
      SortedStaysPut(spine);
    }
  }

  // ---------- nothing is lost ----------

  lemma {:induction false} InsertSameEvents(items: seq<Item>, x: Item)
    ensures multiset(Untag(Insert(items, x))) == multiset(Untag(items)) + multiset{x.e}
  {
    UntagAppend(items, x);
    if items != [] && Before(x, Last(items)) {
      InsertSameEvents(Init(items), x);
      UntagAppend(Init(items), Last(items));
      UntagAppend(Insert(Init(items), x), Last(items));
      assert Init(items) + [Last(items)] == items;
    }
  }

  lemma {:induction false} SortSameEvents(items: seq<Item>)
    ensures multiset(Untag(Sort(items))) == multiset(Untag(items))
  {
    if items != [] {
      SortSameEvents(Init(items));
      InsertSameEvents(Sort(Init(items)), Last(items));
      UntagAppend(Init(items), Last(items));
      assert Init(items) + [Last(items)] == items;
    }
  }

  /** The merge is in timestamp order and is a permutation of spine and prose. */
  lemma MergeIsSortedPermutation(spine: seq<LaneEvent>, lead: AgentId, prose: seq<string>)
    requires TsSorted(spine)
    ensures TsSorted(MergeLeadProse(spine, lead, prose))
    ensures multiset(MergeLeadProse(spine, lead, prose)) == multiset(spine + ProseEvents(spine, lead, prose))
  {
    var all := Items(spine + ProseEvents(spine, lead, prose));
    WovenIsMerge(spine, lead, prose);
    SortOrdered(all);
    SortSameEvents(all);
    assert Untag(all) == spine + ProseEvents(spine, lead, prose);
  }

  // ---------- both orders are kept ----------

  lemma {:induction false} BoundariesRise(spine: seq<LaneEvent>, lead: AgentId)
    ensures forall i, j :: 0 <= i < j < |Boundaries(spine, lead)| ==> Boundaries(spine, lead)[i] < Boundaries(spine, lead)[j]
    ensures forall s :: 0 <= s < |spine| ==> (s in Boundaries(spine, lead) <==> IsTurnEnd(spine[s], lead))
  {
    if spine != [] {
      BoundariesRise(Init(spine), lead);
    }
  }

  lemma AnchorsRise(spine: seq<LaneEvent>, lead: AgentId, i: nat, j: nat)
    requires TsSorted(spine) && i < j
    ensures Anchor(spine, lead, i) <= Anchor(spine, lead, j)
  {
    BoundariesRise(spine, lead);
    var b := Boundaries(spine, lead);
    assert i < |b| <= j && i < |b| - 1 ==> b[i] < Last(b);
  }

  lemma ProseOrdered(spine: seq<LaneEvent>, lead: AgentId, prose: seq<string>)
    requires TsSorted(spine)
    ensures Ordered(ProseItems(spine, lead, prose))
  {
    var items := ProseItems(spine, lead, prose);
    forall p, q | 0 <= p < q < |items| ensures Before(items[p], items[q]) {
      AnchorsRise(spine, lead, p, q);
    }
  }

  lemma KeepFirst(mine: seq<Item>, theirs: seq<Item>, keep: Item -> bool)
    requires Ordered(mine) && Distinct(mine + theirs)
    requires (forall x :: x in mine ==> keep(x)) && (forall x :: x in theirs ==> !keep(x))
    ensures Filter(Sort(mine + theirs), keep) == mine
  {
    SortKeep(mine + theirs, keep);
    FilterSplit(mine, theirs, keep);
    FilterAll(mine, keep);
    FilterNone(theirs, keep);
    SortKeepsOrdered(mine);
    assert mine + [] == mine;
  }

  lemma KeepSecond(mine: seq<Item>, theirs: seq<Item>, keep: Item -> bool)
    requires Ordered(theirs) && Distinct(mine + theirs)
    requires (forall x :: x in mine ==> !keep(x)) && (forall x :: x in theirs ==> keep(x))
    ensures Filter(Sort(mine + theirs), keep) == theirs
  {
    SortKeep(mine + theirs, keep);
    FilterSplit(mine, theirs, keep);
    FilterNone(mine, keep);
    FilterAll(theirs, keep);
    SortKeepsOrdered(theirs);
    assert [] + theirs == theirs;
  }

  function SpineHalf(n: nat): Item -> bool {
    (x: Item) => x.i < n
  }

  function ProseHalf(n: nat): Item -> bool {
    (x: Item) => x.i >= n
  }

  /** The spine itself is never reordered, and neither is the prose. */
  lemma BothOrdersKept(spine: seq<LaneEvent>, lead: AgentId, prose: seq<string>)
    requires TsSorted(spine)
    ensures Filter(Woven(spine, lead, prose), SpineHalf(|spine|)) == Items(spine)
    ensures Filter(Woven(spine, lead, prose), ProseHalf(|spine|)) == ProseItems(spine, lead, prose)
  {
    AllItems(spine, lead, prose);
    ProseOrdered(spine, lead, prose);
    KeepFirst(Items(spine), ProseItems(spine, lead, prose), SpineHalf(|spine|));
    KeepSecond(Items(spine), ProseItems(spine, lead, prose), ProseHalf(|spine|));
  }

  // ---------- where each piece of prose lands ----------

  /** x comes before y. */
  ghost predicate Precedes(items: seq<Item>, x: Item, y: Item) {
    exists p, q :: 0 <= p < q < |items| && items[p] == x && items[q] == y
  }

  lemma PrecedesIsBefore(items: seq<Item>, x: Item, y: Item)
    requires Ordered(items) && x in items && y in items
    ensures Precedes(items, x, y) <==> Before(x, y)
  {
    var p :| 0 <= p < |items| && items[p] == x;
    var q :| 0 <= q < |items| && items[q] == y;
    if Before(x, y) { assert p < q; }
  }

  lemma WovenPrecedes(spine: seq<LaneEvent>, lead: AgentId, prose: seq<string>, x: Item, y: Item)
    requires TsSorted(spine)
    requires x in Items(spine) + ProseItems(spine, lead, prose) && y in Items(spine) + ProseItems(spine, lead, prose)
    ensures Precedes(Woven(spine, lead, prose), x, y) <==> Before(x, y)
  {
    AllItems(spine, lead, prose);
    SortOrdered(Items(spine) + ProseItems(spine, lead, prose));
    PrecedesIsBefore(Woven(spine, lead, prose), x, y);
  }

  /**
   * The exact place of a piece of prose: it comes after a spine event exactly when that event is at
   * least one time unit before its anchor, and before every other.
   */
  lemma ProsePlace(spine: seq<LaneEvent>, lead: AgentId, prose: seq<string>, i: nat, s: nat)
    requires TsSorted(spine) && i < |prose| && s < |spine|
    ensures var woven, mine, theirs := Woven(spine, lead, prose), SpineItem(spine, s), ProseItem(spine, lead, prose, i);
            && (Precedes(woven, mine, theirs) <==> spine[s].ts + 1.0 <= Anchor(spine, lead, i))
            && (Precedes(woven, theirs, mine) <==> spine[s].ts + 1.0 > Anchor(spine, lead, i))
  {
    var all := Items(spine) + ProseItems(spine, lead, prose);
    var mine, theirs := SpineItem(spine, s), ProseItem(spine, lead, prose, i);
    assert all[s] == mine && all[|spine| + i] == theirs;
    WovenPrecedes(spine, lead, prose, mine, theirs);
    WovenPrecedes(spine, lead, prose, theirs, mine);
  }

  /**
   * Main result: the i-th piece comes before the lead's i-th turn end, always; and after the one before
   * exactly when the two turn ends are a whole time unit apart. Extra prose comes before the last turn end,
   * and with no turn end at all before the first event.
   */
  lemma ProseInItsTurn(spine: seq<LaneEvent>, lead: AgentId, prose: seq<string>, i: nat)
    requires TsSorted(spine) && i < |prose|
    ensures var b, woven, theirs := Boundaries(spine, lead), Woven(spine, lead, prose), ProseItem(spine, lead, prose, i);
            && (i < |b| ==> Precedes(woven, theirs, SpineItem(spine, b[i])))
            && (0 < i < |b| ==> (Precedes(woven, SpineItem(spine, b[i - 1]), theirs) <==>
                                 spine[b[i - 1]].ts + 1.0 <= spine[b[i]].ts))
            && (b != [] && |b| <= i ==> Precedes(woven, theirs, SpineItem(spine, Last(b))))
            && (b == [] && spine != [] ==> Precedes(woven, theirs, SpineItem(spine, 0)))
  {
    var b := Boundaries(spine, lead);
    if i < |b| {
      ProsePlace(spine, lead, prose, i, b[i]);
      if 0 < i { ProsePlace(spine, lead, prose, i, b[i - 1]); }
    } else if b != [] {
      ProsePlace(spine, lead, prose, i, Last(b));
    } else if spine != [] {
      ProsePlace(spine, lead, prose, i, 0);
    }
  }
}
