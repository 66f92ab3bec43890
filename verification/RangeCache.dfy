/** The range-descriptor cache: descriptors filed by key interval, looked up by the
    interval from a key to its successor. */
module RangeCache {
  import opened Keys
  import opened Wrappers

  type NodeID = int

  datatype RangeDescriptor = RangeDescriptor(rangeID: int, startKey: Key, endKey: Key, replicas: seq<NodeID>)

  /** A cached descriptor with the position of the replica that last led. */
  datatype RangeDesc = RangeDesc(leaderIndex: int, desc: RangeDescriptor)

  /** rangeCompareKey.Compare: as bytes.Compare, with the empty key above all others.
      An empty second key is answered before an empty first one. */
  function Compare(a: Key, b: Key): int {
    if b == [] then -1
    else if a == [] then 1
    else BytesCompare(a, b)
  }

  /** IntervalKey.Overlap */
  predicate Overlap(start: Key, end: Key, qstart: Key, qend: Key) {
    Compare(end, qstart) > 0 && Compare(start, qend) < 0
  }

  /** IntervalCache.NewKey panics unless this holds. */
  predicate ProperInterval(start: Key, end: Key) {
    Compare(start, end) < 0
  }

  /** Linear search's question: an empty end key means no upper bound. */
  predicate Contains(d: RangeDescriptor, k: Key) {
    Leq(d.startKey, k) && (d.endKey == [] || Less(k, d.endKey))
  }

  /** The interval question asked by lookup has the linear answer for every non-empty
      key, except that a range starting at the empty key is never found. */
  lemma OverlapMeansContains(d: RangeDescriptor, k: Key)
    requires k != []
    ensures Overlap(d.startKey, d.endKey, k, Next(k)) <==> d.startKey != [] && Contains(d, k)
  {
    NextIsAdjacent(k, d.startKey);
    Trichotomy(k, d.endKey);
    LessIrreflexive(Next(k));
  }

  /** The interval of a key is proper exactly when the key is not empty. */
  lemma KeyIntervalProper(k: Key)
    ensures ProperInterval(k, Next(k)) <==> k != []
  {
    NextIsAdjacent(k, k);
  }

  predicate WellFormed(d: RangeDescriptor) {
    d.startKey != [] && ProperInterval(d.startKey, d.endKey) && |d.replicas| > 0
  }

  predicate InRange(r: RangeDesc) {
    WellFormed(r.desc) && 0 <= r.leaderIndex < |r.desc.replicas|
  }

  ghost predicate Disjoint(a: RangeDescriptor, b: RangeDescriptor) {
    forall k :: !(Contains(a, k) && Contains(b, k))
  }

  /** The first position of a node among the replicas, or 0 when it is not one. */
  function IndexOf(replicas: seq<NodeID>, node: NodeID): (i: nat)
    ensures i == 0 || i < |replicas|
    ensures node in replicas ==> i < |replicas| && replicas[i] == node && node !in replicas[..i]
    ensures node !in replicas ==> i == 0
  {
    if replicas == [] || replicas[0] == node then 0
    else if node in replicas then
      assert replicas == [replicas[0]] + replicas[1..];
      1 + IndexOf(replicas[1..], node)
    else 0
  }

  class Cache {
    /** Cached descriptors under the identifiers their intervals were given. */
    var entries: map<nat, RangeDesc>
    var nextID: nat

    constructor ()
      ensures Valid() && entries == map[]
    {
      entries, nextID := map[], 0;
    }

    /** Every interval has an identifier of its own. */
    ghost predicate Filed()
      reads this
    {
      forall id :: id in entries ==> id < nextID
    }

    ghost predicate Valid()
      reads this
    {
      && Filed() && (forall id :: id in entries ==> InRange(entries[id]))
      && (forall i, j :: i in entries && j in entries && i != j ==> Disjoint(entries[i].desc, entries[j].desc))
    }

    /** add: files a descriptor, whose interval must be proper or NewKey panics. The cache
        stays valid if the descriptor is well formed and overlaps none of those there. */
    method Add(rd: RangeDescriptor) returns (id: nat)
      requires Filed() && ProperInterval(rd.startKey, rd.endKey)
      modifies this
      ensures Filed() && id !in old(entries) && entries == old(entries)[id := RangeDesc(0, rd)]
      ensures old(Valid()) && WellFormed(rd) && (forall i :: i in old(entries) ==> Disjoint(old(entries)[i].desc, rd)) ==> Valid()
    {
      id := nextID;
      nextID := nextID + 1;
      entries := entries[id := RangeDesc(0, rd)];
    }

    /** lookup: the entry whose interval the key falls in, found through overlaps. */
    method Lookup(key: Key) returns (r: Option<nat>)
      requires Valid() && key != []
      ensures r.Some? ==> r.value in entries && Contains(entries[r.value].desc, key)
      ensures r.Some? ==> forall id :: id in entries && Contains(entries[id].desc, key) ==> id == r.value
      ensures r.None? <==> forall id :: id in entries ==> !Contains(entries[id].desc, key)
    {
      forall id | id in entries
        ensures Overlap(entries[id].desc.startKey, entries[id].desc.endKey, key, Next(key)) <==> Contains(entries[id].desc, key)
      {
        OverlapMeansContains(entries[id].desc, key);
      }
      if exists id :: id in entries && Overlap(entries[id].desc.startKey, entries[id].desc.endKey, key, Next(key)) {
        var id :| id in entries && Overlap(entries[id].desc.startKey, entries[id].desc.endKey, key, Next(key));
        return Some(id);
      }
      return None;
    }

    method Clear()
      modifies this
      ensures Valid() && entries == map[]
      ensures nextID == old(nextID)
    {
      entries := map[];
    }

    /** setLeaderNodeIdx; the descriptor may have left the cache meanwhile. */
    method SetLeaderNodeIdx(id: nat, index: int)
      requires Valid() && (id in entries ==> 0 <= index < |entries[id].desc.replicas|)
      modifies this
      ensures Valid() && nextID == old(nextID)
      ensures entries == if id in old(entries) then old(entries)[id := old(entries)[id].(leaderIndex := index)] else old(entries)
    {
      if id in entries { entries := entries[id := entries[id].(leaderIndex := index)]; }
    }

    /** setLeaderNodeID: the loop over the replicas of a descriptor, which may have left the
        cache meanwhile. An unknown node changes nothing and is answered with position 0. */
    method SetLeaderNodeID(id: nat, rd: RangeDescriptor, node: NodeID) returns (index: nat)
      requires Valid() && (id in entries ==> entries[id].desc == rd)
      modifies this
      ensures Valid() && nextID == old(nextID)
      ensures index == IndexOf(rd.replicas, node)
      ensures entries == if node in rd.replicas && id in old(entries)
                         then old(entries)[id := old(entries)[id].(leaderIndex := index)] else old(entries)
    {
      var replicas := rd.replicas;
      for i := 0 to |replicas|
        invariant entries == old(entries)
        invariant node !in replicas[..i]
      {
        if replicas[i] == node {
          IndexOfFirst(replicas, node, i);
          if id in entries { entries := entries[id := entries[id].(leaderIndex := i)]; }
          return i;
        }
      }
      assert replicas[..|replicas|] == replicas;
      return 0;
    }
  }

  lemma {:induction false} IndexOfFirst(replicas: seq<NodeID>, node: NodeID, i: nat)
    requires i < |replicas| && replicas[i] == node && node !in replicas[..i]
    ensures IndexOf(replicas, node) == i
  {
    if i > 0 {
      assert replicas[..i][0] == replicas[0];
      assert forall x :: x in replicas[1..][..i - 1] ==> x in replicas[..i];
      IndexOfFirst(replicas[1..], node, i - 1);
    }
  }
}
