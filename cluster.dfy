/**
 * What the scrapers learn from the cluster API before correlating: for each
 * pod, keyed by (namespace, name), the kind of its first owner, the node it
 * is scheduled on and the names of its containers.
 */
module Cluster {
  import opened Wrappers
  import opened Labels

  /** One item of `list_pod_for_all_namespaces()`; `node` is `spec.node_name`, which may be unset. */
  datatype ClusterPod = ClusterPod(
    namespace: string, name: string, node: Option<string>, ownerKinds: seq<string>, containers: seq<string>)

  /** `owner_info`, `node_map` and `container_info`. */
  datatype ClusterInfo = ClusterInfo(
    owner: map<PodKey, string>, node: map<PodKey, Option<string>>, containers: map<PodKey, seq<string>>)

  function PodKeyOf(p: ClusterPod): PodKey {
    PodKey(p.namespace, p.name)
  }

  /** `owner[0].kind if owner else <noOwner>` */
  function OwnerKindOf(p: ClusterPod, noOwner: string): string {
    if p.ownerKinds != [] then p.ownerKinds[0] else noOwner
  }

  /** `container_info[key]`, or the empty list a `defaultdict(list)` starts from. */
  function ContainersSoFar(c: map<PodKey, seq<string>>, k: PodKey): seq<string> {
    if k in c then c[k] else []
  }

  /**
   * `container_info` after appending `names` for `k`: the key only appears
   * once something is appended to it.
   */
  function Appended(c: map<PodKey, seq<string>>, k: PodKey, names: seq<string>): map<PodKey, seq<string>> {
    if names == [] then c else c[k := ContainersSoFar(c, k) + names]
  }

  /** Appending one more name to what was appended so far. */
  lemma AppendedStep(c: map<PodKey, seq<string>>, k: PodKey, names: seq<string>, name: string)
    ensures Appended(c, k, names + [name]) ==
            Appended(c, k, names)[k := ContainersSoFar(Appended(c, k, names), k) + [name]]
  {
    if names != [] {
      assert ContainersSoFar(c, k) + (names + [name]) == (ContainersSoFar(c, k) + names) + [name];
    } else {
      assert names + [name] == [name];
    }
  }

  /** The three maps after visiting `pods` in order. */
  function Collected(pods: seq<ClusterPod>, noOwner: string): ClusterInfo {
    if pods == [] then ClusterInfo(map[], map[], map[])
    else
      var c := Collected(pods[..|pods| - 1], noOwner);
      var p := pods[|pods| - 1];
      var k := PodKeyOf(p);
      ClusterInfo(c.owner[k := OwnerKindOf(p, noOwner)], c.node[k := p.node], Appended(c.containers, k, p.containers))
  }

  /** No later pod has the same (namespace, name) as `pods[i]`. */
  predicate LastPod(pods: seq<ClusterPod>, i: int) {
    0 <= i < |pods| && forall j :: i < j < |pods| ==> PodKeyOf(pods[j]) != PodKeyOf(pods[i])
  }

  predicate DistinctPods(pods: seq<ClusterPod>) {
    forall i, j :: 0 <= i < j < |pods| ==> PodKeyOf(pods[i]) != PodKeyOf(pods[j])
  }

  /** Every listed pod, and no other, has an owner kind and a node. */
  lemma {:induction false} CollectedKeys(pods: seq<ClusterPod>, noOwner: string)
    ensures forall k :: k in Collected(pods, noOwner).owner <==> exists i :: 0 <= i < |pods| && PodKeyOf(pods[i]) == k
    ensures Collected(pods, noOwner).node.Keys == Collected(pods, noOwner).owner.Keys
  {
    if pods != [] {
      var n := |pods| - 1;
      var init := pods[..n];
      CollectedKeys(init, noOwner);
      var c := Collected(init, noOwner);
      var info := Collected(pods, noOwner);
      forall k ensures k in info.owner <==> exists i :: 0 <= i < |pods| && PodKeyOf(pods[i]) == k {
        if k in c.owner {
          var i :| 0 <= i < n && PodKeyOf(init[i]) == k;
          assert PodKeyOf(pods[i]) == k;
        }
        if exists i :: 0 <= i < |pods| && PodKeyOf(pods[i]) == k {
          var i :| 0 <= i < |pods| && PodKeyOf(pods[i]) == k;
          if i < n {
            assert PodKeyOf(init[i]) == k;
          }
        }
      }
    }
  }

  /** Only the pods listed with at least one container have a container list. */
  lemma {:induction false} CollectedContainerKeys(pods: seq<ClusterPod>, noOwner: string)
    ensures forall k :: k in Collected(pods, noOwner).containers <==>
              exists i :: 0 <= i < |pods| && PodKeyOf(pods[i]) == k && pods[i].containers != []
  {
    if pods != [] {
      var n := |pods| - 1;
      var init := pods[..n];
      CollectedContainerKeys(init, noOwner);
      var c := Collected(init, noOwner);
      var info := Collected(pods, noOwner);
      assert info.containers.Keys == c.containers.Keys + (if pods[n].containers == [] then {} else {PodKeyOf(pods[n])});
      forall k ensures k in info.containers <==> exists i :: 0 <= i < |pods| && PodKeyOf(pods[i]) == k && pods[i].containers != [] {
        if k in c.containers {
          var i :| 0 <= i < n && PodKeyOf(init[i]) == k && init[i].containers != [];
          assert PodKeyOf(pods[i]) == k && pods[i].containers != [];
        }
        if exists i :: 0 <= i < |pods| && PodKeyOf(pods[i]) == k && pods[i].containers != [] {
          var i :| 0 <= i < |pods| && PodKeyOf(pods[i]) == k && pods[i].containers != [];
          if i < n {
            assert PodKeyOf(init[i]) == k && init[i].containers != [];
          }
        }
      }
    }
  }

  /**
   * A pod's owner kind and node come from its last listing: the kind of its
   * first owner reference, or `noOwner` when it has none.
   */
  lemma {:induction false} CollectedLastWins(pods: seq<ClusterPod>, noOwner: string)
    ensures forall i :: LastPod(pods, i) ==>
              && PodKeyOf(pods[i]) in Collected(pods, noOwner).owner
              && Collected(pods, noOwner).owner[PodKeyOf(pods[i])] == OwnerKindOf(pods[i], noOwner)
              && PodKeyOf(pods[i]) in Collected(pods, noOwner).node
              && Collected(pods, noOwner).node[PodKeyOf(pods[i])] == pods[i].node
    ensures forall i :: LastPod(pods, i) && pods[i].ownerKinds == [] ==> Collected(pods, noOwner).owner[PodKeyOf(pods[i])] == noOwner
  {
    if pods != [] {
      var n := |pods| - 1;
      var init := pods[..n];
      CollectedLastWins(init, noOwner);
      forall i | LastPod(pods, i) && i < n ensures LastPod(init, i) {
      }
    }
  }

  /**
   * With each pod listed once, a pod with containers has exactly its own
   * container list, and a pod without any has none.
   */
  lemma {:induction false} CollectedContainers(pods: seq<ClusterPod>, noOwner: string)
    requires DistinctPods(pods)
    ensures forall i :: 0 <= i < |pods| && pods[i].containers != [] ==>
              && PodKeyOf(pods[i]) in Collected(pods, noOwner).containers
              && Collected(pods, noOwner).containers[PodKeyOf(pods[i])] == pods[i].containers
    ensures forall i :: 0 <= i < |pods| && pods[i].containers == [] ==> PodKeyOf(pods[i]) !in Collected(pods, noOwner).containers
  {
    if pods != [] {
      var n := |pods| - 1;
      var init := pods[..n];
      assert DistinctPods(init);
      CollectedContainers(init, noOwner);
      var c := Collected(init, noOwner);
      var last := PodKeyOf(pods[n]);
      assert last !in c.containers by {
        CollectedContainerKeys(init, noOwner);
      }
      var info := Collected(pods, noOwner);
      assert ContainersSoFar(c.containers, last) + pods[n].containers == pods[n].containers;
      forall i | 0 <= i < n
        ensures pods[i].containers != [] ==>
                  PodKeyOf(pods[i]) in info.containers && info.containers[PodKeyOf(pods[i])] == pods[i].containers
        ensures pods[i].containers == [] ==> PodKeyOf(pods[i]) !in info.containers
      {
        assert pods[i] == init[i];
        assert PodKeyOf(pods[i]) != last;
      }
    }
  }

  /**
   * The pod-listing loop: for each pod, record its owner kind and node, and
   * append each of its containers to the pod's container list.
   */
  method CollectPods(pods: seq<ClusterPod>, noOwner: string) returns (info: ClusterInfo)
    ensures info == Collected(pods, noOwner)
  {
    var owner: map<PodKey, string> := map[];
    var nodes: map<PodKey, Option<string>> := map[];
    var containers: map<PodKey, seq<string>> := map[];
    for i := 0 to |pods|
      invariant ClusterInfo(owner, nodes, containers) == Collected(pods[..i], noOwner)
    {
      assert pods[..i + 1][..i] == pods[..i];
      var p := pods[i];
      var key := PodKeyOf(p);
      owner := owner[key := if p.ownerKinds != [] then p.ownerKinds[0] else noOwner];
      nodes := nodes[key := p.node];
      ghost var before := containers;
      for j := 0 to |p.containers|
        invariant containers == Appended(before, key, p.containers[..j])
      {
        assert p.containers[..j + 1] == p.containers[..j] + [p.containers[j]];
        AppendedStep(before, key, p.containers[..j], p.containers[j]);
        containers := containers[key := ContainersSoFar(containers, key) + [p.containers[j]]];
      }
      assert p.containers[..|p.containers|] == p.containers;
    }
    assert pods[..|pods|] == pods;
    info := ClusterInfo(owner, nodes, containers);
  }
}
