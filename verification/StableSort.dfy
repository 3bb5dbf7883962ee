/**
 * The pipeline's one sort: events tagged with their position, ordered by timestamp and then by
 * position (legacy/src/acp/spine.ts:101-104, legacy/src/acp/team-history.ts:99-102).
 */
module StableSort {
  import opened Basics
  import opened LaneEvents

  datatype Item = Item(e: LaneEvent, i: nat)

  predicate Before(a: Item, b: Item) {
    a.e.ts < b.e.ts || (a.e.ts == b.e.ts && a.i < b.i)
  }

  function Items(events: seq<LaneEvent>): seq<Item> {
    seq(|events|, i requires 0 <= i < |events| => Item(events[i], i))
  }

  function Untag(items: seq<Item>): seq<LaneEvent> {
    seq(|items|, i requires 0 <= i < |items| => items[i].e)
  }

  lemma UntagAppend(items: seq<Item>, x: Item)
    ensures Untag(items + [x]) == Untag(items) + [x.e]
  {
  }

  ghost predicate Ordered(items: seq<Item>) {
    forall p, q :: 0 <= p < q < |items| ==> Before(items[p], items[q])
  }

  /** x at its place in an ordered sequence. */
  function Insert(items: seq<Item>, x: Item): (r: seq<Item>)
    ensures multiset(r) == multiset(items) + multiset{x}
  {
    if items != [] && Before(x, Last(items)) then
      assert items == Init(items) + [Last(items)];
      Insert(Init(items), x) + [Last(items)]
    else items + [x]
  }

  function Sort(items: seq<Item>): (r: seq<Item>)
    ensures multiset(r) == multiset(items)
  {
    if items == [] then []
    else
      assert items == Init(items) + [Last(items)];
      Insert(Sort(Init(items)), Last(items))
  }

  function SortByTs(events: seq<LaneEvent>): seq<LaneEvent> {
    Untag(Sort(Items(events)))
  }

  /** Different positions: the comparator never calls two items equal. */
  ghost predicate Distinct(items: seq<Item>) {
    forall p, q :: 0 <= p < q < |items| ==> items[p].i != items[q].i
  }

  lemma LastIsGreatest(items: seq<Item>)
    requires Ordered(items) && items != []
    ensures Ordered(Init(items))
    ensures forall y :: y in Init(items) ==> Before(y, Last(items))
    ensures forall y :: y in items <==> y in Init(items) || y == Last(items)
  {
    assert items == Init(items) + [Last(items)];
  }

  lemma AppendOrdered(items: seq<Item>, x: Item)
    requires Ordered(items) && forall y :: y in items ==> Before(y, x)
    ensures Ordered(items + [x])
  {
  }

  lemma {:induction false} InsertOrdered(items: seq<Item>, x: Item)
    requires Ordered(items)
    requires forall y :: y in items ==> y.i != x.i
    ensures Ordered(Insert(items, x))
    ensures forall y :: y in Insert(items, x) <==> y == x || y in items
  {
    if items != [] {
      LastIsGreatest(items);
      if Before(x, Last(items)) {
        InsertOrdered(Init(items), x);
        AppendOrdered(Insert(Init(items), x), Last(items));
      } else {
        AppendOrdered(items, x);
      }
    }
  }

  lemma {:induction false} SortOrdered(items: seq<Item>)
    requires Distinct(items)
    ensures Ordered(Sort(items))
    ensures forall y :: y in Sort(items) <==> y in items
  {
    if items != [] {
      SortOrdered(Init(items));
      assert forall y :: y in Sort(Init(items)) ==> y.i != Last(items).i by {
        forall y | y in Init(items) ensures y.i != Last(items).i {
          var p :| 0 <= p < |items| - 1 && items[p] == y;
        }
      }
      InsertOrdered(Sort(Init(items)), Last(items));
      assert forall y :: y in items <==> y in Init(items) || y == Last(items);
    }
  }

  ghost predicate SameMembers(a: seq<Item>, b: seq<Item>) {
    forall y :: y in a <==> y in b
  }

  lemma SameLast(a: seq<Item>, b: seq<Item>)
    requires Ordered(a) && Ordered(b) && SameMembers(a, b) && a != [] && b != []
    ensures Last(a) == Last(b) && SameMembers(Init(a), Init(b))
  {
    LastIsGreatest(a);
    LastIsGreatest(b);
    assert Last(a) in b && Last(b) in a;
  }

  /** Any ordered arrangement of the same items is this one: every correct sort gives this result. */
  lemma {:induction false} OrderedIsUnique(a: seq<Item>, b: seq<Item>)
    requires Ordered(a) && Ordered(b) && SameMembers(a, b)
    ensures a == b
  {
    assert a != [] ==> a[0] in b;
    assert b != [] ==> b[0] in a;
    if a != [] {
      SameLast(a, b);
      LastIsGreatest(a);
      LastIsGreatest(b);
      OrderedIsUnique(Init(a), Init(b));
      assert a == Init(a) + [Last(a)] && b == Init(b) + [Last(b)];
    }
  }

  lemma InsertAtEnd(items: seq<Item>, x: Item)
    requires items == [] || !Before(x, Last(items))
    ensures Insert(items, x) == items + [x]
  {
  }

  /** What is in order stays as it is. */
  lemma {:induction false} SortKeepsOrdered(items: seq<Item>)
    requires Ordered(items)
    ensures Sort(items) == items
  {
    if items != [] {
      LastIsGreatest(items);
      SortKeepsOrdered(Init(items));
      InsertAtEnd(Init(items), Last(items));
      assert Init(items) + [Last(items)] == items;
    }
  }

  // ---------- sorting and filtering ----------

  lemma {:induction false} KeepOrdered(items: seq<Item>, keep: Item -> bool)
    requires Ordered(items)
    ensures Ordered(Filter(items, keep))
  {
    if items != [] {
      KeepOrdered(Init(items), keep);
      FilterMembers(Init(items), keep);
      assert forall y :: y in Init(items) ==> Before(y, Last(items));
    }
  }

  lemma InsertAppend(items: seq<Item>, y: Item, x: Item)
    ensures Insert(items + [y], x) == if Before(x, y) then Insert(items, x) + [y] else items + [y] + [x]
  {
    assert Init(items + [y]) == items;
  }

  lemma InsertKeepAtEnd(items: seq<Item>, x: Item, keep: Item -> bool)
    requires Ordered(items) && (items == [] || !Before(x, Last(items)))
    ensures Filter(items + [x], keep) == if keep(x) then Insert(Filter(items, keep), x) else Filter(items, keep)
  {
    var kept := Filter(items, keep);
    FilterLast(items, x, keep);
    FilterMembers(items, keep);
    if items != [] { LastIsGreatest(items); }
    assert kept != [] ==> Last(kept) in kept;
    assert kept + [] == kept;
    InsertAtEnd(kept, x);
  }

  lemma {:induction false} InsertKeep(items: seq<Item>, x: Item, keep: Item -> bool)
    requires Ordered(items)
    ensures Filter(Insert(items, x), keep) == if keep(x) then Insert(Filter(items, keep), x) else Filter(items, keep)
  {
    if items != [] && Before(x, Last(items)) {
      var y := Last(items);
      InsertKeep(Init(items), x, keep);
      FilterLast(Insert(Init(items), x), y, keep);
      FilterInit(items, keep);
      if keep(y) {
        InsertAppend(Filter(Init(items), keep), y, x);
      } else {
        assert Filter(Insert(Init(items), x), keep) + [] == Filter(Insert(Init(items), x), keep);
      }
    } else {
      InsertKeepAtEnd(items, x, keep);
    }
  }

  /** Sorting commutes with dropping events. */
  lemma {:induction false} SortKeep(items: seq<Item>, keep: Item -> bool)
    requires Distinct(items)
    ensures Filter(Sort(items), keep) == Sort(Filter(items, keep))
  {
    if items != [] {
      var sorted, kept := Sort(Init(items)), Filter(Init(items), keep);
      SortKeep(Init(items), keep);
      SortOrdered(Init(items));
      InsertKeep(sorted, Last(items), keep);
      FilterInit(items, keep);
      assert Init(kept + [Last(items)]) == kept;
    }
  }

  /** A stream whose timestamps never go back. */
  ghost predicate TsSorted(events: seq<LaneEvent>) {
    forall i, j :: 0 <= i < j < |events| ==> events[i].ts <= events[j].ts
  }

  lemma ItemsOrdered(events: seq<LaneEvent>)
    requires TsSorted(events)
    ensures Ordered(Items(events))
  {
  }

  lemma UntagItems(events: seq<LaneEvent>)
    ensures Untag(Items(events)) == events
  {
  }

  lemma SortedStaysPut(events: seq<LaneEvent>)
    requires TsSorted(events)
    ensures SortByTs(events) == events
  {
    ItemsOrdered(events);
    SortKeepsOrdered(Items(events));
    UntagItems(events);
  }
}
