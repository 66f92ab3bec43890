/** What a flush sends: the buffered entries in key order, grouped by the range each key was
    routed to, in chunks of bounded size. */
module Batches {
  import opened Keys
  import opened Wrappers
  import opened RangeCache
  import opened Cluster
  import opened NodeRequest

  const MAX_BATCH_PUT_SIZE := 1000

  /** A batch under construction: the key it is routed by, its range and its requests. */
  datatype Batch = Batch(key: Key, rangeID: int, items: seq<Item>)

  // ------------------------------------------------------------ key order

  predicate Ascending(ks: seq<Key>) {
    forall i, j :: 0 <= i < j < |ks| ==> Less(ks[i], ks[j])
  }

  /** The first position whose key is not below k. */
  method Position(ks: seq<Key>, k: Key) returns (n: nat)
    requires Ascending(ks) && k !in ks
    ensures n <= |ks| && Ascending(ks[..n] + [k] + ks[n..])
  {
    n := 0;
    while n < |ks| && Less(ks[n], k)
      invariant n <= |ks| && forall i :: 0 <= i < n ==> Less(ks[i], k)
    {
      n := n + 1;
    }
    if n < |ks| {
      LessTotal(ks[n], k);
      forall j | n < j < |ks| ensures Less(k, ks[j]) { LessTransitive(k, ks[n], ks[j]); }
    }
  }

  /** OrderedCache.Walk's order. */
  method InOrder(s: set<Key>) returns (ks: seq<Key>)
    ensures Ascending(ks) && Lists(ks, s)
  {
    var order := Enumerate(s);
    ks := [];
    for i := 0 to |order|
      invariant Ascending(ks) && forall k :: k in ks <==> k in order[..i]
    {
      ListsAt(order, s, i);
      var n := Position(ks, order[i]);
      assert ks == ks[..n] + ks[n..];
      assert order[..i + 1] == order[..i] + [order[i]];
      ks := ks[..n] + [order[i]] + ks[n..];
    }
    assert order[..|order|] == order;
    forall i, j | 0 <= i < j < |ks| ensures ks[i] != ks[j] { LessIrreflexive(ks[i]); }
  }

  function KeysOf(items: seq<Item>): (ks: seq<Key>)
    ensures |ks| == |items| && forall i :: 0 <= i < |items| ==> ks[i] == items[i].key
  {
    seq(|items|, i requires 0 <= i < |items| => items[i].key)
  }

  lemma KeysOfMore(items: seq<Item>, x: Item)
    ensures KeysOf(items + [x]) == KeysOf(items) + [x.key]
  {
  }

  lemma AscendingIsDistinct(items: seq<Item>)
    requires Ascending(KeysOf(items))
    ensures DistinctItems(items)
  {
    forall i, j | 0 <= i < j < |items| ensures items[i].key != items[j].key {
      assert Less(KeysOf(items)[i], KeysOf(items)[j]);
      LessIrreflexive(items[i].key);
    }
  }

  // ------------------------------------------------------------ routing

  /** k was routed to range r by a descriptor fetched before now. */
  ghost predicate RoutedTo(w: World, k: Key, r: int, now: nat) {
    exists d :: Fetched(w, d, now) && Contains(d, k) && d.rangeID == r
  }

  ghost predicate Routed(w: World, items: seq<Item>, route: seq<int>, now: nat) {
    |items| == |route| && forall i :: 0 <= i < |items| ==> RoutedTo(w, items[i].key, route[i], now)
  }

  lemma NothingRouted(w: World, now: nat)
    ensures Routed(w, [], [], now)
  {
  }

  lemma FetchedLater(w: World, d: RangeDescriptor, now: nat, later: nat)
    requires Fetched(w, d, now) && now <= later
    ensures Fetched(w, d, later)
  {
    var t: nat, k :| t <= now && InSpace(k) && d == w.locate(t, k);
  }

  lemma RoutedLater(w: World, items: seq<Item>, route: seq<int>, now: nat, later: nat)
    requires Routed(w, items, route, now) && now <= later
    ensures Routed(w, items, route, later)
  {
    hide Fetched, Contains;
    forall i | 0 <= i < |items| ensures RoutedTo(w, items[i].key, route[i], later) {
      var d :| Fetched(w, d, now) && Contains(d, items[i].key) && d.rangeID == route[i];
      FetchedLater(w, d, now, later);
    }
  }

  lemma RoutedMore(w: World, items: seq<Item>, route: seq<int>, now: nat, later: nat, x: Item, d: RangeDescriptor)
    requires Routed(w, items, route, now) && now <= later
    requires Fetched(w, d, later) && Contains(d, x.key)
    ensures Routed(w, items + [x], route + [d.rangeID], later)
  {
    hide Fetched, Contains;
    RoutedLater(w, items, route, now, later);
    assert RoutedTo(w, x.key, d.rangeID, later);
  }

  // ------------------------------------------------------------ grouping

  /** The entries routed to range r, in their order. */
  function Select(items: seq<Item>, route: seq<int>, r: int): seq<Item>
    requires |items| == |route|
  {
    if items == [] then []
    else
      var n := |items| - 1;
      Select(items[..n], route[..n], r) + if route[n] == r then [items[n]] else []
  }

  /** The batches are the entries of each range, filed under their first key. */
  ghost predicate Grouped(breqs: map<int, Batch>, items: seq<Item>, route: seq<int>)
    requires |items| == |route|
  {
    && (forall r :: r in breqs <==> r in route)
    && (forall r :: r in breqs ==> breqs[r].rangeID == r && breqs[r].items == Select(items, route, r))
    && (forall r :: r in breqs ==> breqs[r].items != [] && breqs[r].key == breqs[r].items[0].key)
  }

  /** One more entry: into the batch of its range, opened on the first one. */
  function AddRequest(breqs: map<int, Batch>, x: Item, r: int): map<int, Batch> {
    var breq := if r in breqs then breqs[r] else Batch(x.key, r, []);
    breqs[r := breq.(items := breq.items + [x])]
  }

  lemma AddRequestGroups(breqs: map<int, Batch>, items: seq<Item>, route: seq<int>, x: Item, r: int)
    requires |items| == |route| && Grouped(breqs, items, route)
    ensures Grouped(AddRequest(breqs, x, r), items + [x], route + [r])
  {
    var more, way := items + [x], route + [r];
    assert more[..|items|] == items && way[..|items|] == route;
    if r !in breqs { UnroutedSelectsNothing(items, route, r); }
    forall q ensures Select(more, way, q) == Select(items, route, q) + if q == r then [x] else [] {
    }
  }

  lemma {:induction false} UnroutedSelectsNothing(items: seq<Item>, route: seq<int>, r: int)
    requires |items| == |route| && r !in route
    ensures Select(items, route, r) == []
  {
    if items != [] { UnroutedSelectsNothing(items[..|items| - 1], route[..|items| - 1], r); }
  }

  /** An entry is in the batch of a range exactly when it was routed there. */
  lemma {:induction false} SelectHolds(items: seq<Item>, route: seq<int>, r: int, x: Item)
    requires |items| == |route|
    ensures x in Select(items, route, r) <==> exists i :: 0 <= i < |items| && items[i] == x && route[i] == r
  {
    if items != [] {
      var n := |items| - 1;
      SelectHolds(items[..n], route[..n], r, x);
      if x in Select(items[..n], route[..n], r) {
        var i :| 0 <= i < n && items[..n][i] == x && route[..n][i] == r;
        assert items[i] == x && route[i] == r;
      }
      if i :| 0 <= i < n && items[i] == x && route[i] == r {
        assert items[..n][i] == x && route[..n][i] == r;
      }
    }
  }

  lemma {:induction false} SelectAscends(items: seq<Item>, route: seq<int>, r: int)
    requires |items| == |route| && Ascending(KeysOf(items))
    ensures Ascending(KeysOf(Select(items, route, r)))
  {
    if items != [] {
      var n := |items| - 1;
      var some := Select(items[..n], route[..n], r);
      assert KeysOf(items)[..n] == KeysOf(items[..n]);
      SelectAscends(items[..n], route[..n], r);
      if route[n] == r {
        forall i, j | 0 <= i < j <= |some| ensures Less((KeysOf(some) + [items[n].key])[i], (KeysOf(some) + [items[n].key])[j]) {
          if j == |some| {
            SelectHolds(items[..n], route[..n], r, some[i]);
            var m :| 0 <= m < n && items[..n][m] == some[i];
            assert Less(KeysOf(items)[m], KeysOf(items)[n]);
          } else {
            assert Less(KeysOf(some)[i], KeysOf(some)[j]);
          }
        }
        assert KeysOf(some + [items[n]]) == KeysOf(some) + [items[n].key];
      }
    }
  }

  /** Each entry is in exactly one batch, that of the range its key was routed to. */
  lemma GroupingConserves(breqs: map<int, Batch>, items: seq<Item>, route: seq<int>, i: nat)
    requires |items| == |route| && Grouped(breqs, items, route) && DistinctItems(items) && i < |items|
    ensures forall r :: r in breqs && items[i] in breqs[r].items <==> r == route[i]
  {
    hide Select;
    forall r ensures items[i] in Select(items, route, r) <==> r == route[i] {
      SelectHolds(items, route, r, items[i]);
      if items[i] in Select(items, route, r) {
        var j :| 0 <= j < |items| && items[j] == items[i] && route[j] == r;
      }
    }
  }

  /** A batch holds entries only, in key order. */
  lemma GroupsAreOrdered(breqs: map<int, Batch>, items: seq<Item>, route: seq<int>, r: int)
    requires |items| == |route| && Grouped(breqs, items, route) && Ascending(KeysOf(items)) && r in breqs
    ensures Ascending(KeysOf(breqs[r].items)) && DistinctItems(breqs[r].items)
    ensures forall x :: x in breqs[r].items ==> x in items
  {
    hide Select;
    SelectAscends(items, route, r);
    AscendingIsDistinct(breqs[r].items);
    forall x | x in breqs[r].items ensures x in items { SelectHolds(items, route, r, x); }
  }

  // ------------------------------------------------------------ chunks acknowledged

  function AckedBy(e: Event, r: int): seq<Item> {
    if e.PutSent? && e.acked && e.rangeID == r then e.items else []
  }

  /** The entries range r acknowledged, in the order they were sent. */
  function Acked(events: seq<Event>, r: int): seq<Item> {
    if events == [] then [] else Acked(events[..|events| - 1], r) + AckedBy(events[|events| - 1], r)
  }

  lemma {:induction false} AckedConcat(a: seq<Event>, b: seq<Event>, r: int)
    ensures Acked(a + b, r) == Acked(a, r) + Acked(b, r)
  {
    hide AckedBy;
    if b == [] {
      assert a + b == a;
    } else {
      var n := |b| - 1;
      assert (a + b)[..|a| + n] == a + b[..n];
      AckedConcat(a, b[..n], r);
    }
  }

  lemma {:induction false} FailedAckNothing(events: seq<Event>, r: int)
    requires forall i :: 0 <= i < |events| && events[i].PutSent? ==> !events[i].acked
    ensures Acked(events, r) == []
  {
    if events != [] { FailedAckNothing(events[..|events| - 1], r); }
  }

  /** The attempts at one put acknowledge its items once, or nothing if it failed. */
  lemma AttemptsAck(rangeID: int, items: seq<Item>, acked: bool, events: seq<Event>, r: int)
    requires Attempts(Put(rangeID, items), acked, events)
    ensures Acked(events, r) == if acked && r == rangeID then items else []
  {
    if events != [] { FailedAckNothing(events[..|events| - 1], r); }
  }
}
