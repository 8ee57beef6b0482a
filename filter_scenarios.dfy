/** Worked cases of the filter on concrete clusters. In each, the pod being scheduled
    is itself in the pod list, Pending and not yet bound to a node. */
module ControllerSpreadScenarios {
  import opened StrConv
  import opened ControllerSpread

  const Namespace: string := "default"

  function Annotated(value: string): map<string, string> {
    map[MinHostsAnnotationKey := value]
  }

  /** A plugin whose listers know the given objects under any name and list the given pods. */
  function Cluster(
    pods: PodList,
    rs: Fetched<ReplicaSet>, sts: Fetched<StatefulSet>, job: Fetched<Job>, cj: Fetched<CronJob>): ControllerSpreadFilter
  {
    ControllerSpreadFilter(
      ns => pods,
      (ns, name) => rs,
      (ns, name) => sts,
      (ns, name) => job,
      (ns, name) => cj)
  }

  function OwnedPod(kind: string, node: string, phase: PodPhase): Pod {
    Pod(Namespace, [OwnerReference(kind, "uid-1", "web")], node, phase)
  }

  const Missing: string := "not found"

  lemma SiblingsSnoc(pods: seq<Pod>, p: Pod, c: ControllerInfo)
    ensures Siblings(pods + [p], c) == Siblings(pods, c) + (if IsActiveSibling(p, c) then [p] else [])
  {
    assert (pods + [p])[..|pods|] == pods;
  }

  lemma NodeSetSnoc(pods: seq<Pod>, p: Pod)
    ensures NodeSet(pods + [p]) == NodeSet(pods) + (if p.nodeName != "" then {p.nodeName} else {})
  {
    assert (pods + [p])[..|pods|] == pods;
  }

  lemma Siblings2(a: Pod, b: Pod, c: ControllerInfo)
    ensures Siblings([a, b], c) == (if IsActiveSibling(a, c) then [a] else []) + (if IsActiveSibling(b, c) then [b] else [])
  {
    SiblingsSnoc([], a, c);
    SiblingsSnoc([a], b, c);
    assert [a] + [b] == [a, b];
  }

  lemma Siblings3(a: Pod, b: Pod, d: Pod, c: ControllerInfo)
    ensures Siblings([a, b, d], c) == Siblings([a, b], c) + (if IsActiveSibling(d, c) then [d] else [])
  {
    SiblingsSnoc([a, b], d, c);
    assert [a, b] + [d] == [a, b, d];
  }

  /** Two active pods: the siblings are both. */
  lemma BothActive(a: Pod, b: Pod, c: ControllerInfo)
    requires IsActiveSibling(a, c) && IsActiveSibling(b, c)
    ensures Siblings([a, b], c) == [a, b]
  {
    Siblings2(a, b, c);
  }

  /** Three pods of which the first two are active: the siblings are those two. */
  lemma FirstTwoActive(a: Pod, b: Pod, d: Pod, c: ControllerInfo)
    requires IsActiveSibling(a, c) && IsActiveSibling(b, c) && !IsActiveSibling(d, c)
    ensures Siblings([a, b, d], c) == [a, b]
  {
    Siblings2(a, b, c);
    Siblings3(a, b, d, c);
  }

  /** Three active pods: the siblings are all three. */
  lemma AllThreeActive(a: Pod, b: Pod, d: Pod, c: ControllerInfo)
    requires IsActiveSibling(a, c) && IsActiveSibling(b, c) && IsActiveSibling(d, c)
    ensures Siblings([a, b, d], c) == [a, b, d]
  {
    Siblings2(a, b, c);
    Siblings3(a, b, d, c);
  }

  lemma NodeSet2(a: Pod, b: Pod)
    ensures NodeSet([a, b]) == (if a.nodeName != "" then {a.nodeName} else {}) + (if b.nodeName != "" then {b.nodeName} else {})
  {
    NodeSetSnoc([], a);
    NodeSetSnoc([a], b);
    assert [a] + [b] == [a, b];
  }

  lemma NodeSet3(a: Pod, b: Pod, d: Pod)
    ensures NodeSet([a, b, d]) == NodeSet([a, b]) + (if d.nodeName != "" then {d.nodeName} else {})
  {
    NodeSetSnoc([a, b], d);
    assert [a, b] + [d] == [a, b, d];
  }

  /** With the siblings and their nodes known, the census is the comparison of the
      spread after placement with the requirement. */
  lemma CensusOf(pods: seq<Pod>, c: ControllerInfo, required: int32, candidate: string, sibs: seq<Pod>, nodes: set<string>)
    requires Siblings(pods, c) == sibs && |sibs| >= 2 && NodeSet(sibs) == nodes
    ensures Census(pods, c, required, candidate) ==
      if |nodes + {candidate}| < required as int then Unschedulable(RejectMessage(required)) else Success
  {
  }

  lemma RejectMessageOfTwo()
    ensures RejectMessage(2) == "must schedule across at least 2 distinct nodes"
  {
    assert FormatInt(2) == "2";
  }

  lemma RejectMessageOfThree()
    ensures RejectMessage(3) == "must schedule across at least 3 distinct nodes"
  {
    assert FormatInt(3) == "3";
  }

  /** Once the controller is found with two or more replicas and the pods are listed,
      the verdict is the census. */
  lemma FilterReachesCensus(
    csf: ControllerSpreadFilter, pod: Pod, candidate: string,
    c: ControllerInfo, obj: Controller, required: int32, all: seq<Pod>, verdict: Status)
    requires GetControllerInfo(pod.ownerReferences) == Some(c)
    requires Lookup(csf, pod.namespace, c) == Found(obj)
    requires DesiredCount(obj) >= 2 && RequiredHosts(DesiredCount(obj), obj.annotations) == required
    requires csf.podLister(pod.namespace) == Listed(all)
    requires Census(all, c, required, candidate) == verdict
    ensures FilterSpec(csf, pod, candidate) == verdict
  {
  }

  /** A pod without owner references is admitted on any plugin. */
  lemma NoOwnerScenario(csf: ControllerSpreadFilter, candidate: string)
    ensures FilterSpec(csf, Pod(Namespace, [], "", Pending), candidate) == Success
  {
  }

  const ReplicaSetPods: seq<Pod> :=
    [OwnedPod("ReplicaSet", "", Pending), OwnedPod("ReplicaSet", "n1", Running), OwnedPod("ReplicaSet", "n2", Succeeded)]

  /** Of the ReplicaSet's pods, the finished one on n2 is not an active sibling. */
  lemma ReplicaSetActive()
    ensures
      var c := ControllerInfo(ReplicaSetType, "uid-1", "web");
      IsActiveSibling(ReplicaSetPods[0], c) && IsActiveSibling(ReplicaSetPods[1], c) && !IsActiveSibling(ReplicaSetPods[2], c)
  {
  }

  /** The ReplicaSet's siblings are its first two pods. */
  lemma ReplicaSetSiblings()
    ensures
      var c := ControllerInfo(ReplicaSetType, "uid-1", "web");
      Siblings(ReplicaSetPods, c) == ReplicaSetPods[..2]
  {
    var c := ControllerInfo(ReplicaSetType, "uid-1", "web");
    var pods := ReplicaSetPods;
    ReplicaSetActive();
    FirstTwoActive(pods[0], pods[1], pods[2], c);
    assert pods == [pods[0], pods[1], pods[2]];
    assert pods[..2] == [pods[0], pods[1]];
  }

  /** The ReplicaSet's active siblings occupy n1 alone. */
  lemma ReplicaSetNodes()
    ensures NodeSet(ReplicaSetPods[..2]) == {"n1"}
  {
    var pods := ReplicaSetPods;
    NodeSet2(pods[0], pods[1]);
    assert pods[..2] == [pods[0], pods[1]];
  }

  /** Placed on n2 the ReplicaSet covers two nodes; placed on n1, one. */
  lemma ReplicaSetCensus()
    ensures
      var c := ControllerInfo(ReplicaSetType, "uid-1", "web");
      Census(ReplicaSetPods, c, 2, "n2") == Success &&
      Census(ReplicaSetPods, c, 2, "n1") == Unschedulable(RejectMessage(2))
  {
    var c := ControllerInfo(ReplicaSetType, "uid-1", "web");
    ReplicaSetSiblings();
    ReplicaSetNodes();
    CensusOf(ReplicaSetPods, c, 2, "n2", ReplicaSetPods[..2], {"n1"});
    CensusOf(ReplicaSetPods, c, 2, "n1", ReplicaSetPods[..2], {"n1"});
    NodeCounts();
  }

  function ReplicaSetCluster(): ControllerSpreadFilter {
    Cluster(Listed(ReplicaSetPods), Found(ReplicaSet(map[], Some(3))),
      LookupFailed(Missing), LookupFailed(Missing), LookupFailed(Missing))
  }

  /** The ReplicaSet pod resolves to its controller, whose count is 3 and whose host
      requirement is the default 2. */
  lemma ReplicaSetResolution()
    ensures GetControllerInfo(ReplicaSetPods[0].ownerReferences) == Some(ControllerInfo(ReplicaSetType, "uid-1", "web"))
    ensures Lookup(ReplicaSetCluster(), Namespace, ControllerInfo(ReplicaSetType, "uid-1", "web")) == Found(Controller(Some(3), map[]))
    ensures RequiredHosts(3, map[]) == 2
  {
  }

  /** A ReplicaSet of 3 with no annotation and one running sibling on n1: the pod may go
      to n2. A finished sibling on n2 does not count. */
  lemma ReplicaSetOtherNodeScenario()
    ensures FilterSpec(ReplicaSetCluster(), ReplicaSetPods[0], "n2") == Success
  {
    ReplicaSetResolution();
    ReplicaSetCensus();
    FilterReachesCensus(ReplicaSetCluster(), ReplicaSetPods[0], "n2", ControllerInfo(ReplicaSetType, "uid-1", "web"),
      Controller(Some(3), map[]), 2, ReplicaSetPods, Success);
  }

  /** The same ReplicaSet pod may not go to n1, where its running sibling already is. */
  lemma ReplicaSetSameNodeScenario()
    ensures FilterSpec(ReplicaSetCluster(), ReplicaSetPods[0], "n1") == Unschedulable("must schedule across at least 2 distinct nodes")
  {
    ReplicaSetResolution();
    ReplicaSetCensus();
    FilterReachesCensus(ReplicaSetCluster(), ReplicaSetPods[0], "n1", ControllerInfo(ReplicaSetType, "uid-1", "web"),
      Controller(Some(3), map[]), 2, ReplicaSetPods, Unschedulable(RejectMessage(2)));
    RejectMessageOfTwo();
  }

  const StatefulSetPods: seq<Pod> :=
    [OwnedPod("StatefulSet", "", Pending), OwnedPod("StatefulSet", "n1", Running), OwnedPod("StatefulSet", "n2", Pending)]

  /** The StatefulSet's three pods are all active. */
  lemma StatefulSetActive()
    ensures
      var c := ControllerInfo(StatefulSetType, "uid-1", "web");
      IsActiveSibling(StatefulSetPods[0], c) && IsActiveSibling(StatefulSetPods[1], c) && IsActiveSibling(StatefulSetPods[2], c)
  {
  }

  /** The StatefulSet's siblings are all three of its pods. */
  lemma StatefulSetSiblings()
    ensures Siblings(StatefulSetPods, ControllerInfo(StatefulSetType, "uid-1", "web")) == StatefulSetPods
  {
    var c := ControllerInfo(StatefulSetType, "uid-1", "web");
    var pods := StatefulSetPods;
    StatefulSetActive();
    AllThreeActive(pods[0], pods[1], pods[2], c);
    assert pods == [pods[0], pods[1], pods[2]];
  }

  /** The StatefulSet's siblings occupy n1 and n2. */
  lemma StatefulSetNodes()
    ensures NodeSet(StatefulSetPods) == {"n1", "n2"}
  {
    var pods := StatefulSetPods;
    NodeSet2(pods[0], pods[1]);
    NodeSet3(pods[0], pods[1], pods[2]);
    assert pods == [pods[0], pods[1], pods[2]];
  }

  /** Placed on n3 the StatefulSet covers three nodes; placed on n1, only two. */
  lemma StatefulSetCensus()
    ensures
      var c := ControllerInfo(StatefulSetType, "uid-1", "web");
      Census(StatefulSetPods, c, 3, "n3") == Success &&
      Census(StatefulSetPods, c, 3, "n1") == Unschedulable(RejectMessage(3))
  {
    var c := ControllerInfo(StatefulSetType, "uid-1", "web");
    StatefulSetSiblings();
    StatefulSetNodes();
    CensusOf(StatefulSetPods, c, 3, "n3", StatefulSetPods, {"n1", "n2"});
    CensusOf(StatefulSetPods, c, 3, "n1", StatefulSetPods, {"n1", "n2"});
    NodeCounts();
  }

  /** Distinct node names count once each. */
  lemma NodeCounts()
    ensures |{"n1"} + {"n2"}| == 2
    ensures |{"n1"} + {"n1"}| == 1
    ensures |{"n1", "n2"} + {"n3"}| == 3
    ensures |{"n1", "n2"} + {"n1"}| == 2
  {
    assert "n1"[1] != "n2"[1] && "n1"[1] != "n3"[1] && "n2"[1] != "n3"[1];
    assert {"n1"} + {"n2"} == {"n1", "n2"};
    assert {"n1", "n2"} + {"n3"} == {"n1", "n2", "n3"};
    assert {"n1", "n2"} + {"n1"} == {"n1", "n2"};
  }

  function StatefulSetCluster(): ControllerSpreadFilter {
    Cluster(Listed(StatefulSetPods), LookupFailed(Missing),
      Found(StatefulSet(Annotated("3"), Some(5))), LookupFailed(Missing), LookupFailed(Missing))
  }

  /** The StatefulSet pod resolves to its controller, whose count is 5 and whose
      annotation asks for 3 hosts. */
  lemma StatefulSetResolution()
    ensures GetControllerInfo(StatefulSetPods[0].ownerReferences) == Some(ControllerInfo(StatefulSetType, "uid-1", "web"))
    ensures Lookup(StatefulSetCluster(), Namespace, ControllerInfo(StatefulSetType, "uid-1", "web"))
      == Found(Controller(Some(5), Annotated("3")))
    ensures RequiredHosts(5, Annotated("3")) == 3
  {
    assert ParseInt32("3") == Ok(3);
  }

  /** A StatefulSet of 5 asking for 3 hosts, with siblings on n1 and n2: n3 is admitted. */
  lemma StatefulSetThirdNodeScenario()
    ensures FilterSpec(StatefulSetCluster(), StatefulSetPods[0], "n3") == Success
  {
    StatefulSetResolution();
    StatefulSetCensus();
    FilterReachesCensus(StatefulSetCluster(), StatefulSetPods[0], "n3", ControllerInfo(StatefulSetType, "uid-1", "web"),
      Controller(Some(5), Annotated("3")), 3, StatefulSetPods, Success);
  }

  /** The same StatefulSet pod is refused on n1, which would leave it on two nodes. */
  lemma StatefulSetSameNodeScenario()
    ensures FilterSpec(StatefulSetCluster(), StatefulSetPods[0], "n1") == Unschedulable("must schedule across at least 3 distinct nodes")
  {
    StatefulSetResolution();
    StatefulSetCensus();
    FilterReachesCensus(StatefulSetCluster(), StatefulSetPods[0], "n1", ControllerInfo(StatefulSetType, "uid-1", "web"),
      Controller(Some(5), Annotated("3")), 3, StatefulSetPods, Unschedulable(RejectMessage(3)));
    RejectMessageOfThree();
  }

  const JobPods: seq<Pod> := [OwnedPod("Job", "", Pending), OwnedPod("Job", "n1", Running)]

  /** The Job's two pods are active siblings, one of them on n1. */
  lemma JobActive()
    ensures
      var c := ControllerInfo(JobType, "uid-1", "web");
      IsActiveSibling(JobPods[0], c) && IsActiveSibling(JobPods[1], c)
  {
  }

  lemma JobCensus()
    ensures Census(JobPods, ControllerInfo(JobType, "uid-1", "web"), 2, "n1") == Unschedulable(RejectMessage(2))
  {
    var c := ControllerInfo(JobType, "uid-1", "web");
    var pods := JobPods;
    JobActive();
    BothActive(pods[0], pods[1], c);
    NodeSet2(pods[0], pods[1]);
    assert pods == [pods[0], pods[1]];
    CensusOf(pods, c, 2, "n1", pods, {"n1"});
    NodeCounts();
  }

  function JobCluster(): ControllerSpreadFilter {
    Cluster(Listed(JobPods), LookupFailed(Missing), LookupFailed(Missing),
      Found(Job(Annotated("1"), Some(4))), LookupFailed(Missing))
  }

  /** The Job pod resolves to its controller, whose parallelism is 4; its annotation
      "1" is below 2, so the requirement stays at 2. */
  lemma JobResolution()
    ensures GetControllerInfo(JobPods[0].ownerReferences) == Some(ControllerInfo(JobType, "uid-1", "web"))
    ensures Lookup(JobCluster(), Namespace, ControllerInfo(JobType, "uid-1", "web")) == Found(Controller(Some(4), Annotated("1")))
    ensures RequiredHosts(4, Annotated("1")) == 2
  {
    assert ParseInt32("1") == Ok(1);
  }

  /** A Job of parallelism 4 annotated with "1": the annotation is not honoured, two
      hosts are still required, and a sibling already on n1 keeps the pod off n1. */
  lemma JobAnnotationBelowTwoScenario()
    ensures FilterSpec(JobCluster(), JobPods[0], "n1") == Unschedulable("must schedule across at least 2 distinct nodes")
  {
    JobResolution();
    JobCensus();
    FilterReachesCensus(JobCluster(), JobPods[0], "n1", ControllerInfo(JobType, "uid-1", "web"),
      Controller(Some(4), Annotated("1")), 2, JobPods, Unschedulable(RejectMessage(2)));
    RejectMessageOfTwo();
  }

  /** A CronJob that the lister cannot find admits the pod, even with a failing pod list. */
  lemma MissingControllerScenario(candidate: string)
    ensures
      var pod := OwnedPod("CronJob", "", Pending);
      FilterSpec(Cluster(ListFailed("boom"), LookupFailed(Missing), LookupFailed(Missing), LookupFailed(Missing), LookupFailed(Missing)), pod, candidate)
        == Success
  {
  }

  /** A CronJob whose job template asks for parallelism 2, with a failing pod list: Error
      with the cause. */
  lemma PodListFailureScenario(candidate: string)
    ensures
      var pod := OwnedPod("CronJob", "", Pending);
      FilterSpec(Cluster(ListFailed("boom"), LookupFailed(Missing), LookupFailed(Missing), LookupFailed(Missing), Found(CronJob(map[], Some(2)))), pod, candidate)
        == Error("error listing pods: boom")
  {
  }
}
