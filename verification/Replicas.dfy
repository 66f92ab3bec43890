/** Topping up the replicas of an under-replicated range with idle nodes. */
module Replicas {
  import opened Wrappers

  const MIN_REPLICA := 3

  type NodeID = int
  datatype NodeDescriptor = NodeDescriptor(nodeID: NodeID, address: string)
  datatype ReplicaDescriptor = ReplicaDescriptor(nodeID: NodeID, replicaID: int)

  datatype TopUpResult = Done(replicas: seq<ReplicaDescriptor>) | NoIdleNode | NoNewID

  function NodeIDs(rs: seq<ReplicaDescriptor>): (ids: seq<NodeID>)
    ensures |ids| == |rs| && forall i :: 0 <= i < |rs| ==> ids[i] == rs[i].nodeID
  {
    seq(|rs|, i requires 0 <= i < |rs| => rs[i].nodeID)
  }

  predicate Distinct(ids: seq<NodeID>) {
    forall i, j :: 0 <= i < j < |ids| ==> ids[i] != ids[j]
  }

  lemma {:induction false} SetOfSeq(ids: seq<NodeID>)
    ensures |set x | x in ids| <= |ids|
  {
    if ids != [] {
      SetOfSeq(ids[1..]);
      assert (set x | x in ids) == {ids[0]} + (set x | x in ids[1..]);
    } else {
      assert (set x | x in ids) == {};
    }
  }

  lemma SubsetSize(a: set<NodeID>, b: set<NodeID>)
    requires a <= b
    ensures |a| <= |b|
  {
    assert b == a + (b - a);
  }

  /** With more nodes than taken ones, some node is free. */
  lemma Pigeonhole(nodes: set<NodeID>, ids: seq<NodeID>)
    requires |ids| < |nodes|
    ensures exists id :: id in nodes && id !in ids
  {
    SetOfSeq(ids);
    if forall id :: id in nodes ==> id in ids { SubsetSize(nodes, set x | x in ids); }
  }

  class Cluster {
    var nodes: map<NodeID, NodeDescriptor>

    /** Nodes are filed under their own identifier. */
    ghost predicate Valid()
      reads this
    {
      forall id :: id in nodes ==> nodes[id].nodeID == id
    }

    /** getIdleNode: a node not among `ids`, in whatever order the map is walked. */
    method GetIdleNode(ids: seq<NodeID>) returns (r: Option<NodeDescriptor>)
      requires Valid()
      ensures r.Some? ==> r.value.nodeID in nodes && nodes[r.value.nodeID] == r.value && r.value.nodeID !in ids
      ensures r.None? <==> forall id :: id in nodes ==> id in ids
    {
      var rest := nodes.Keys;
      while exists key :: key in rest
        invariant rest <= nodes.Keys
        invariant forall id :: id in nodes && id !in rest ==> id in ids
        decreases rest
      {
        var key :| key in rest;
        var n := nodes[key];
        var exist := false;
        for i := 0 to |ids|
          invariant exist <==> n.nodeID in ids[..i]
        {
          if n.nodeID == ids[i] {
            exist := true;
            break;
          }
        }
        if !exist { return Some(n); }
        rest := rest - {key};
      }
      return None;
    }

    /** The inner loop of checkReplica. Identifiers come from the allocator, which may
        fail; the nodes of the cluster stay. */
    method TopUp(replicas: seq<ReplicaDescriptor>, newID: nat -> Option<int>) returns (r: TopUpResult)
      requires Valid()
      ensures |nodes| >= MIN_REPLICA ==> r != NoIdleNode
      ensures r == NoNewID ==> |replicas| < MIN_REPLICA && exists k :: 0 <= k < MIN_REPLICA && newID(k).None?
      ensures r.Done? ==> replicas <= r.replicas && Grown(nodes.Keys, NodeIDs(replicas), NodeIDs(r.replicas))
      ensures r.Done? ==> (Distinct(NodeIDs(r.replicas)) <==> Distinct(NodeIDs(replicas)))
      ensures r.Done? ==> forall k :: 0 <= k < |r.replicas| - |replicas| ==> newID(k) == Some(r.replicas[|replicas| + k].replicaID)
      ensures r.Done? ==> |r.replicas| == if |replicas| < MIN_REPLICA then MIN_REPLICA else |replicas|
    {
      hide Grown;
      var ids := NodeIDs(replicas);
      var reps: seq<ReplicaDescriptor> := [];
      assert replicas + reps == replicas;
      NotGrown(nodes.Keys, ids);
      while |ids| < MIN_REPLICA
        invariant ids == NodeIDs(replicas + reps) && Grown(nodes.Keys, NodeIDs(replicas), ids)
        invariant |reps| > 0 ==> |ids| <= MIN_REPLICA
        invariant forall k :: 0 <= k < |reps| ==> newID(k) == Some(reps[k].replicaID)
        decreases MIN_REPLICA - |ids|
      {
        var n := GetIdleNode(ids);
        if |nodes| >= MIN_REPLICA { Pigeonhole(nodes.Keys, ids); }
        if n.None? { return NoIdleNode; }
        var id := newID(|reps|);
        if id.None? { return NoNewID; }
        Grow(nodes.Keys, NodeIDs(replicas), ids, n.value.nodeID);
        ids := ids + [n.value.nodeID];
        reps := reps + [ReplicaDescriptor(n.value.nodeID, id.value)];
        assert ids == NodeIDs(replicas + reps);
      }
      GrownDistinct(nodes.Keys, NodeIDs(replicas), ids);
      return Done(replicas + reps);
    }
  }

  /** `ids` is `base` followed by nodes of the cluster, each different from all before. */
  predicate Grown(nodes: set<NodeID>, base: seq<NodeID>, ids: seq<NodeID>) {
    && base <= ids
    && forall i :: |base| <= i < |ids| ==> ids[i] in nodes && ids[i] !in ids[..i]
  }

  lemma NotGrown(nodes: set<NodeID>, ids: seq<NodeID>)
    ensures Grown(nodes, ids, ids)
  {
  }

  lemma Grow(nodes: set<NodeID>, base: seq<NodeID>, ids: seq<NodeID>, id: NodeID)
    requires Grown(nodes, base, ids) && id in nodes && id !in ids
    ensures Grown(nodes, base, ids + [id])
  {
    forall i | |base| <= i < |ids + [id]| ensures (ids + [id])[i] in nodes && (ids + [id])[i] !in (ids + [id])[..i] {
      assert i <= |ids| && (ids + [id])[..i] == ids[..i];
    }
  }

  /** The replicas of a topped-up range sit on pairwise distinct nodes exactly when those
      it started with did. */
  lemma GrownDistinct(nodes: set<NodeID>, base: seq<NodeID>, ids: seq<NodeID>)
    requires Grown(nodes, base, ids)
    ensures Distinct(ids) <==> Distinct(base)
  {
    if Distinct(base) {
      forall i, j | 0 <= i < j < |ids| ensures ids[i] != ids[j] {
        if j >= |base| { assert ids[..j][i] == ids[i]; } else { assert base[i] != base[j]; }
      }
    } else {
      var i, j :| 0 <= i < j < |base| && base[i] == base[j];
      assert ids[i] == ids[j];
    }
  }
}
