/** What the filter promises, stated over FilterSpec, the function Filter is proved to compute. */
module ControllerSpreadProperties {
  import opened StrConv
  import opened ControllerSpread

  // ---------------------------------------------------------------------------
  // Owner resolution

  /** The eligible owner reference that comes first in the list is the one chosen. */
  lemma FirstEligibleOwnerChosen(refs: seq<OwnerReference>, i: nat)
    requires i < |refs| && IsEligibleOwner(refs[i])
    requires forall j | 0 <= j < i :: !IsEligibleOwner(refs[j])
    ensures GetControllerInfo(refs) == Some(InfoOf(refs[i]))
  {
  }

  /** The pod being scheduled counts as owned by the controller it resolves to. */
  lemma ResolvedControllerOwnsPod(refs: seq<OwnerReference>)
    requires GetControllerInfo(refs).Some?
    ensures IsOwnedByController(refs, GetControllerInfo(refs).value)
  {
    var c := GetControllerInfo(refs).value;
    var i :| 0 <= i < |refs| && IsEligibleOwner(refs[i]) && c == InfoOf(refs[i]);
    assert RefersTo(refs[i], c);
  }

  /** A pod with no eligible owner reference is admitted. */
  lemma NoEligibleOwnerAdmits(csf: ControllerSpreadFilter, pod: Pod, candidate: string)
    requires forall i | 0 <= i < |pod.ownerReferences| :: !IsEligibleOwner(pod.ownerReferences[i])
    ensures FilterSpec(csf, pod, candidate) == Success
  {
  }

  // ---------------------------------------------------------------------------
  // Controller lookup and desired count

  /** Replacing the pod lister leaves every controller lookup as it was. */
  lemma LookupIgnoresPodLister(csf: ControllerSpreadFilter, pods: string -> PodList, namespace: string, c: ControllerInfo)
    ensures Lookup(csf.(podLister := pods), namespace, c) == Lookup(csf, namespace, c)
  {
  }

  /** A failed controller lookup admits the pod, whatever the pods and the candidate are. */
  lemma LookupFailureAdmits(csf: ControllerSpreadFilter, pod: Pod, candidate: string, pods: string -> PodList)
    requires GetControllerInfo(pod.ownerReferences).Some?
    requires Lookup(csf, pod.namespace, GetControllerInfo(pod.ownerReferences).value).LookupFailed?
    ensures FilterSpec(csf, pod, candidate) == Success
    ensures FilterSpec(csf.(podLister := pods), pod, candidate) == Success
  {
    LookupIgnoresPodLister(csf, pods, pod.namespace, GetControllerInfo(pod.ownerReferences).value);
  }

  /** A controller with an unset count field, or a count of at most one, admits the
      pod without consulting the pod list: even a failing list cannot give Error. */
  lemma SingleReplicaAdmits(csf: ControllerSpreadFilter, pod: Pod, candidate: string, pods: string -> PodList)
    requires GetControllerInfo(pod.ownerReferences).Some?
    requires Lookup(csf, pod.namespace, GetControllerInfo(pod.ownerReferences).value).Found?
    requires
      var count := Lookup(csf, pod.namespace, GetControllerInfo(pod.ownerReferences).value).obj.count;
      count.None? || count.value <= 1
    ensures FilterSpec(csf, pod, candidate) == Success
    ensures FilterSpec(csf.(podLister := pods), pod, candidate) == Success
  {
    LookupIgnoresPodLister(csf, pods, pod.namespace, GetControllerInfo(pod.ownerReferences).value);
  }

  // ---------------------------------------------------------------------------
  // The min-hosts annotation

  /** An annotation written as an int32 in decimal is honoured from 2 upwards; below 2
      (1, 0, any negative value) it gives 2, not the written value. */
  lemma MinHostsOfDecimal(n: int32)
    ensures ParseMinHostsAnnotation(FormatInt(n as int)) == if n >= 2 then n else 2
  {
  }

  /** A character other than a digit, past an optional leading sign, makes the
      annotation fall back to 2: no spaces, underscores or other decoration. */
  lemma MinHostsRejectsStrayCharacter(val: string, i: nat)
    requires i < |val| && !IsDigit(val[i]) && !(i == 0 && IsSign(val[i]))
    ensures ParseMinHostsAnnotation(val) == 2
  {
    if i > 0 && IsSign(val[0]) {
      assert val[1..][i - 1] == val[i];
    }
  }

  /** A value that does not fit in int32 falls back to 2, however large. */
  lemma MinHostsRejectsOverflow(val: string)
    requires IsDecimalInt(val) && SignedValue(val) > MaxInt32
    ensures ParseMinHostsAnnotation(val) == 2
  {
  }

  // ---------------------------------------------------------------------------
  // Pod list failures

  /** Once reached, a pod-list failure is an Error carrying the lister's cause. */
  lemma PodListFailureIsError(csf: ControllerSpreadFilter, pod: Pod, candidate: string)
    requires GetControllerInfo(pod.ownerReferences).Some?
    requires Lookup(csf, pod.namespace, GetControllerInfo(pod.ownerReferences).value).Found?
    requires DesiredCount(Lookup(csf, pod.namespace, GetControllerInfo(pod.ownerReferences).value).obj) >= 2
    requires csf.podLister(pod.namespace).ListFailed?
    ensures FilterSpec(csf, pod, candidate) == Error(ListErrorMessage(csf.podLister(pod.namespace).cause))
  {
  }

  /** Error arises from a pod-list failure and from nothing else, and a pod-list
      failure never turns into a rejection. */
  lemma ErrorOnlyFromPodList(csf: ControllerSpreadFilter, pod: Pod, candidate: string)
    ensures FilterSpec(csf, pod, candidate).Error? ==>
      csf.podLister(pod.namespace).ListFailed? &&
      FilterSpec(csf, pod, candidate).reason == ListErrorMessage(csf.podLister(pod.namespace).cause)
    ensures csf.podLister(pod.namespace).ListFailed? ==> !FilterSpec(csf, pod, candidate).Unschedulable?
  {
  }

  // ---------------------------------------------------------------------------
  // The census and the final comparison

  /** If no two positions of the list hold active siblings, there is at most one. */
  lemma {:induction false} FewSiblings(pods: seq<Pod>, controller: ControllerInfo)
    requires forall i, j | 0 <= i < j < |pods| :: !(IsActiveSibling(pods[i], controller) && IsActiveSibling(pods[j], controller))
    ensures |Siblings(pods, controller)| <= 1
    ensures (forall i | 0 <= i < |pods| :: !IsActiveSibling(pods[i], controller)) ==> Siblings(pods, controller) == []
  {
    if pods != [] {
      var init := pods[..|pods| - 1];
      assert forall i | 0 <= i < |init| :: init[i] == pods[i];
      FewSiblings(init, controller);
      if IsActiveSibling(pods[|pods| - 1], controller) {
        assert forall i | 0 <= i < |init| :: !IsActiveSibling(init[i], controller);
      }
    }
  }

  /** Each active pod occurs among the siblings as often as in the list, and no
      other pod occurs: equal pods (two unbound pending replicas, say) are each counted. */
  lemma {:induction false} SiblingsMultiplicity(pods: seq<Pod>, controller: ControllerInfo)
    ensures forall p :: multiset(Siblings(pods, controller))[p] == if IsActiveSibling(p, controller) then multiset(pods)[p] else 0
  {
    if pods != [] {
      var init := pods[..|pods| - 1];
      var last := pods[|pods| - 1];
      assert pods == init + [last];
      assert multiset(pods) == multiset(init) + multiset{last};
      SiblingsMultiplicity(init, controller);
      var extra := if IsActiveSibling(last, controller) then [last] else [];
      assert Siblings(pods, controller) == Siblings(init, controller) + extra;
      assert multiset(Siblings(pods, controller)) == multiset(Siblings(init, controller)) + multiset(extra);
    }
  }

  /** Two positions of the list holding active siblings give at least two siblings,
      even when the two pods are equal values. */
  lemma {:induction false} TwoActiveSiblings(pods: seq<Pod>, controller: ControllerInfo, i: nat, j: nat)
    requires i < j < |pods|
    requires IsActiveSibling(pods[i], controller) && IsActiveSibling(pods[j], controller)
    ensures |Siblings(pods, controller)| >= 2
  {
    var init := pods[..|pods| - 1];
    assert pods == init + [pods[|pods| - 1]];
    if j == |pods| - 1 {
      assert pods[i] == init[i];
      assert pods[i] in Siblings(init, controller);
    } else {
      assert pods[i] == init[i] && pods[j] == init[j];
      TwoActiveSiblings(init, controller, i, j);
    }
  }

  /** The short cut at one sibling is taken exactly when no two positions of the
      list hold active siblings. */
  lemma SiblingShortCut(pods: seq<Pod>, controller: ControllerInfo)
    ensures |Siblings(pods, controller)| <= 1 <==>
      forall i, j | 0 <= i < j < |pods| :: !(IsActiveSibling(pods[i], controller) && IsActiveSibling(pods[j], controller))
  {
    if forall i, j | 0 <= i < j < |pods| :: !(IsActiveSibling(pods[i], controller) && IsActiveSibling(pods[j], controller)) {
      FewSiblings(pods, controller);
    } else {
      var i, j :| 0 <= i < j < |pods| && IsActiveSibling(pods[i], controller) && IsActiveSibling(pods[j], controller);
      TwoActiveSiblings(pods, controller, i, j);
    }
  }

  /** Two replicas that the model cannot tell apart (same owner, node and phase)
      still count as two siblings, so they reach the spread comparison. */
  lemma EqualReplicasCountTwice(p: Pod, controller: ControllerInfo)
    requires IsActiveSibling(p, controller)
    ensures |Siblings([p, p], controller)| == 2
  {
    TwoActiveSiblings([p, p], controller, 0, 1);
  }

  /** With at most one active sibling in the pod list, the pod is admitted. */
  lemma AtMostOneSiblingAdmits(csf: ControllerSpreadFilter, pod: Pod, candidate: string)
    requires GetControllerInfo(pod.ownerReferences).Some?
    requires csf.podLister(pod.namespace).Listed?
    requires
      var all := csf.podLister(pod.namespace).pods;
      var c := GetControllerInfo(pod.ownerReferences).value;
      forall i, j | 0 <= i < j < |all| :: !(IsActiveSibling(all[i], c) && IsActiveSibling(all[j], c))
    ensures FilterSpec(csf, pod, candidate) == Success
  {
    FewSiblings(csf.podLister(pod.namespace).pods, GetControllerInfo(pod.ownerReferences).value);
  }

  /** When the census is reached with two or more active siblings, the pod is
      rejected with the required host count in the reason exactly when the node count
      after placing it on the candidate is below that requirement, and admitted
      otherwise. */
  lemma SpreadDecision(csf: ControllerSpreadFilter, pod: Pod, candidate: string)
    requires GetControllerInfo(pod.ownerReferences).Some?
    requires Lookup(csf, pod.namespace, GetControllerInfo(pod.ownerReferences).value).Found?
    requires DesiredCount(Lookup(csf, pod.namespace, GetControllerInfo(pod.ownerReferences).value).obj) >= 2
    requires csf.podLister(pod.namespace).Listed?
    requires |Siblings(csf.podLister(pod.namespace).pods, GetControllerInfo(pod.ownerReferences).value)| >= 2
    ensures
      var c := GetControllerInfo(pod.ownerReferences).value;
      var obj := Lookup(csf, pod.namespace, c).obj;
      var required := RequiredHosts(DesiredCount(obj), obj.annotations);
      var spread := |NodeSet(Siblings(csf.podLister(pod.namespace).pods, c)) + {candidate}|;
      2 <= required <= DesiredCount(obj) &&
      (FilterSpec(csf, pod, candidate) == Unschedulable(RejectMessage(required)) <==> spread < required as int) &&
      (FilterSpec(csf, pod, candidate) == Success <==> spread >= required as int)
  {
  }

  /** Every rejection names a host count of at least 2, and the number written in the
      reason reads back as that count. */
  lemma RejectionNamesRequiredHosts(csf: ControllerSpreadFilter, pod: Pod, candidate: string)
    requires FilterSpec(csf, pod, candidate).Unschedulable?
    ensures
      var reason := FilterSpec(csf, pod, candidate).reason;
      exists n: int32 ::
        2 <= n && reason == RejectMessage(n) && |reason| > 45 && ParseInt32(reason[30..|reason| - 15]) == Ok(n as int)
  {
    var c := GetControllerInfo(pod.ownerReferences).value;
    var obj := Lookup(csf, pod.namespace, c).obj;
    var n := RequiredHosts(DesiredCount(obj), obj.annotations);
    assert FilterSpec(csf, pod, candidate).reason == RejectMessage(n);
  }

  /** Different host counts give different rejection reasons. */
  lemma RejectMessageDetermines(m: int32, n: int32)
    requires RejectMessage(m) == RejectMessage(n)
    ensures m == n
  {
  }

  /** A candidate node that no listed pod is bound to is never worse than any other
      candidate: if some node admits the pod, so does that one. */
  lemma EmptyNodeAdmitsWhenAnyNodeDoes(csf: ControllerSpreadFilter, pod: Pod, other: string, empty: string)
    requires csf.podLister(pod.namespace).Listed?
    requires forall p | p in csf.podLister(pod.namespace).pods :: p.nodeName != empty
    requires FilterSpec(csf, pod, other) == Success
    ensures FilterSpec(csf, pod, empty) == Success
  {
    match GetControllerInfo(pod.ownerReferences)
    case None =>
    case Some(c) =>
      var all := csf.podLister(pod.namespace).pods;
      var sibs := Siblings(all, c);
      var nodes := NodeSet(sibs);
      assert EffectiveSpread(nodes, empty) >= EffectiveSpread(nodes, other);
  }

  /** When two or more active siblings are all still unbound, every candidate node is
      refused, whatever other pods of the namespace are bound to: the node set is empty, so the spread after placement is 1, below the
      requirement of at least 2. */
  lemma UnboundSiblingsBlockEveryNode(csf: ControllerSpreadFilter, pod: Pod, candidate: string)
    requires GetControllerInfo(pod.ownerReferences).Some?
    requires Lookup(csf, pod.namespace, GetControllerInfo(pod.ownerReferences).value).Found?
    requires DesiredCount(Lookup(csf, pod.namespace, GetControllerInfo(pod.ownerReferences).value).obj) >= 2
    requires csf.podLister(pod.namespace).Listed?
    requires forall p | p in Siblings(csf.podLister(pod.namespace).pods, GetControllerInfo(pod.ownerReferences).value) :: p.nodeName == ""
    requires |Siblings(csf.podLister(pod.namespace).pods, GetControllerInfo(pod.ownerReferences).value)| >= 2
    ensures FilterSpec(csf, pod, candidate).Unschedulable?
  {
    var c := GetControllerInfo(pod.ownerReferences).value;
    var sibs := Siblings(csf.podLister(pod.namespace).pods, c);
    var nodes := NodeSet(sibs);
    assert nodes == {};
    assert EffectiveSpread(nodes, candidate) == 1;
  }
}
