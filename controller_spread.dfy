/** The ControllerSpreadFilter scheduler plugin. A pod owned by a ReplicaSet,
    StatefulSet, Job or CronJob that wants more than one replica is refused a
    candidate node when at least two pods of that controller are Running or Pending
    and, with the pod placed there, they would occupy fewer than the required number
    of distinct nodes. A controller that cannot be found admits the pod; for a
    controller found with two or more replicas, a pod list that cannot be read
    gives an error.

    The five read-only listers the plugin holds are inputs here: each is a total
    function from its lookup key to the answer the lister gives. */
module ControllerSpread {
  import opened StrConv

  /** The annotation on the controller object that overrides the host requirement. */
  const MinHostsAnnotationKey: string := "controller-spread-scheduler/min-hosts"

  /** The host requirement when the annotation is absent or not accepted. */
  const DefaultMinHosts: int32 := 2

  datatype Option<T> = None | Some(value: T)

  /** The four controller kinds the filter recognises. */
  datatype ControllerType = ReplicaSetType | StatefulSetType | JobType | CronJobType {
    /** The owner-reference kind string of this controller type. */
    function Kind(): string {
      match this
      case ReplicaSetType => "ReplicaSet"
      case StatefulSetType => "StatefulSet"
      case JobType => "Job"
      case CronJobType => "CronJob"
    }
  }

  datatype OwnerReference = OwnerReference(kind: string, uid: string, name: string)

  /** The controller a pod resolves to. */
  datatype ControllerInfo = ControllerInfo(typ: ControllerType, uid: string, name: string)

  datatype PodPhase = Pending | Running | Succeeded | Failed | Unknown

  /** The parts of a pod the filter reads: its namespace, its owner references,
      the node it is bound to ("" while unscheduled) and its phase. */
  datatype Pod = Pod(namespace: string, ownerReferences: seq<OwnerReference>, nodeName: string, phase: PodPhase)

  /** The controller objects, reduced to their annotations and their optional count field. */
  datatype ReplicaSet = ReplicaSet(annotations: map<string, string>, replicas: Option<int32>)
  datatype StatefulSet = StatefulSet(annotations: map<string, string>, replicas: Option<int32>)
  datatype Job = Job(annotations: map<string, string>, parallelism: Option<int32>)
  /** The count field of a CronJob sits in its job template. */
  datatype CronJob = CronJob(annotations: map<string, string>, jobTemplateParallelism: Option<int32>)

  /** The answer of a controller lister's Get. */
  datatype Fetched<T> = Found(obj: T) | LookupFailed(cause: string)

  /** The answer of the pod lister's namespaced List. */
  datatype PodList = Listed(pods: seq<Pod>) | ListFailed(cause: string)

  /** The plugin: its pod lister is keyed by namespace, its controller listers by
      (namespace, name). */
  datatype ControllerSpreadFilter = ControllerSpreadFilter(
    podLister: string -> PodList,
    rsLister: (string, string) -> Fetched<ReplicaSet>,
    stsLister: (string, string) -> Fetched<StatefulSet>,
    jobLister: (string, string) -> Fetched<Job>,
    cronJobLister: (string, string) -> Fetched<CronJob>)

  /** The framework status Filter returns. */
  datatype Status = Success | Unschedulable(reason: string) | Error(reason: string)

  // ---------------------------------------------------------------------------
  // Owner resolution

  /** The recognised controller type an owner-reference kind names, if any. */
  function ControllerTypeOf(kind: string): (r: Option<ControllerType>)
    ensures r.Some? ==> r.value.Kind() == kind
    ensures r.None? ==> forall t: ControllerType :: t.Kind() != kind
  {
    if kind == "ReplicaSet" then Some(ReplicaSetType)
    else if kind == "StatefulSet" then Some(StatefulSetType)
    else if kind == "Job" then Some(JobType)
    else if kind == "CronJob" then Some(CronJobType)
    else None
  }

  /** An owner reference getControllerInfo accepts: non-empty UID and name, recognised kind. */
  predicate IsEligibleOwner(o: OwnerReference) {
    o.uid != "" && o.name != "" && ControllerTypeOf(o.kind).Some?
  }

  function InfoOf(o: OwnerReference): ControllerInfo
    requires IsEligibleOwner(o)
  {
    ControllerInfo(ControllerTypeOf(o.kind).value, o.uid, o.name)
  }

  /** getControllerInfo: the first eligible owner reference, in list order. */
  function GetControllerInfo(refs: seq<OwnerReference>): (r: Option<ControllerInfo>)
    ensures r.None? <==> forall i | 0 <= i < |refs| :: !IsEligibleOwner(refs[i])
    ensures r.Some? ==>
      exists i | 0 <= i < |refs| ::
        IsEligibleOwner(refs[i]) && r.value == InfoOf(refs[i]) &&
        forall j | 0 <= j < i :: !IsEligibleOwner(refs[j])
  {
    if refs == [] then None
    else if IsEligibleOwner(refs[0]) then Some(InfoOf(refs[0]))
    else
      var rest := GetControllerInfo(refs[1..]);
      assert forall i | 1 <= i < |refs| :: refs[i] == refs[1..][i - 1];
      rest
  }

  /** One owner reference names the controller: same kind and same UID; the name is not compared. */
  predicate RefersTo(o: OwnerReference, controller: ControllerInfo) {
    o.kind == controller.typ.Kind() && o.uid == controller.uid
  }

  /** isOwnedByController: some owner reference names the controller. */
  function IsOwnedByController(refs: seq<OwnerReference>, controller: ControllerInfo): (r: bool)
    ensures r <==> exists i | 0 <= i < |refs| :: RefersTo(refs[i], controller)
  {
    if refs == [] then false
    else if RefersTo(refs[0], controller) then true
    else
      var rest := IsOwnedByController(refs[1..], controller);
      assert forall i | 1 <= i < |refs| :: refs[i] == refs[1..][i - 1];
      rest
  }

  // ---------------------------------------------------------------------------
  // Desired count and host requirement

  /** parseMinHostsAnnotation: the annotation value when it is a base-10 int32 of at
      least 2, and 2 otherwise (a value below 2 falls back to 2, it is not clamped). */
  function ParseMinHostsAnnotation(val: string): (r: int32)
    ensures r >= 2
    ensures IsDecimalInt(val) && 2 <= SignedValue(val) <= MaxInt32 ==> r as int == SignedValue(val)
    ensures !(IsDecimalInt(val) && 2 <= SignedValue(val) <= MaxInt32) ==> r == 2
  {
    var parsed := ParseInt32(val);
    if parsed.Ok? && parsed.value >= 2 && parsed.value <= MaxInt32 then parsed.value as int32 else 2
  }

  /** min on int32. */
  function Min(a: int32, b: int32): (r: int32)
    ensures r <= a && r <= b
    ensures r == a || r == b
  {
    if a < b then a else b
  }

  /** The controller as the filter sees it, whatever its kind. */
  datatype Controller = Controller(count: Option<int32>, annotations: map<string, string>)

  /** The lister Get for the controller's kind, keeping the kind's count field:
      replicas, parallelism, or the job template's parallelism. */
  function Lookup(csf: ControllerSpreadFilter, namespace: string, controller: ControllerInfo): (r: Fetched<Controller>)
    ensures controller.typ == ReplicaSetType ==>
      var got := csf.rsLister(namespace, controller.name);
      (r.Found? <==> got.Found?) && (r.LookupFailed? ==> r.cause == got.cause) &&
      (r.Found? ==> r.obj.count == got.obj.replicas && r.obj.annotations == got.obj.annotations)
    ensures controller.typ == StatefulSetType ==>
      var got := csf.stsLister(namespace, controller.name);
      (r.Found? <==> got.Found?) && (r.LookupFailed? ==> r.cause == got.cause) &&
      (r.Found? ==> r.obj.count == got.obj.replicas && r.obj.annotations == got.obj.annotations)
    ensures controller.typ == JobType ==>
      var got := csf.jobLister(namespace, controller.name);
      (r.Found? <==> got.Found?) && (r.LookupFailed? ==> r.cause == got.cause) &&
      (r.Found? ==> r.obj.count == got.obj.parallelism && r.obj.annotations == got.obj.annotations)
    ensures controller.typ == CronJobType ==>
      var got := csf.cronJobLister(namespace, controller.name);
      (r.Found? <==> got.Found?) && (r.LookupFailed? ==> r.cause == got.cause) &&
      (r.Found? ==> r.obj.count == got.obj.jobTemplateParallelism && r.obj.annotations == got.obj.annotations)
  {
    match controller.typ
    case ReplicaSetType =>
      (match csf.rsLister(namespace, controller.name)
       case LookupFailed(e) => LookupFailed(e)
       case Found(rs) => Found(Controller(rs.replicas, rs.annotations)))
    case StatefulSetType =>
      (match csf.stsLister(namespace, controller.name)
       case LookupFailed(e) => LookupFailed(e)
       case Found(sts) => Found(Controller(sts.replicas, sts.annotations)))
    case JobType =>
      (match csf.jobLister(namespace, controller.name)
       case LookupFailed(e) => LookupFailed(e)
       case Found(job) => Found(Controller(job.parallelism, job.annotations)))
    case CronJobType =>
      (match csf.cronJobLister(namespace, controller.name)
       case LookupFailed(e) => LookupFailed(e)
       case Found(cj) => Found(Controller(cj.jobTemplateParallelism, cj.annotations)))
  }

  /** An unset count field means one replica. */
  function DesiredCount(obj: Controller): (r: int32)
    ensures obj.count.None? ==> r == 1
    ensures obj.count.Some? ==> r == obj.count.value
  {
    if obj.count.Some? then obj.count.value else 1
  }

  /** The min-hosts value: the parsed annotation when present, 2 otherwise. */
  function MinHosts(annotations: map<string, string>): (r: int32)
    ensures r >= 2
    ensures MinHostsAnnotationKey !in annotations ==> r == DefaultMinHosts
    ensures MinHostsAnnotationKey in annotations ==> r == ParseMinHostsAnnotation(annotations[MinHostsAnnotationKey])
  {
    if MinHostsAnnotationKey in annotations then ParseMinHostsAnnotation(annotations[MinHostsAnnotationKey])
    else DefaultMinHosts
  }

  /** requiredHosts = min(desired, minHostsVal). Once at least two replicas are
      wanted, it lies between 2 and the desired count, and an override at or
      above the desired count leaves it at the desired count. */
  function RequiredHosts(desired: int32, annotations: map<string, string>): (r: int32)
    ensures r <= desired && r <= MinHosts(annotations)
    ensures r == desired || r == MinHosts(annotations)
    ensures desired >= 2 ==> 2 <= r <= desired
    ensures MinHosts(annotations) >= desired ==> r == desired
  {
    Min(desired, MinHosts(annotations))
  }

  // ---------------------------------------------------------------------------
  // Sibling census

  /** A pod that counts towards the spread: owned by the controller, Running or Pending. */
  predicate IsActiveSibling(p: Pod, controller: ControllerInfo) {
    IsOwnedByController(p.ownerReferences, controller) && (p.phase == Running || p.phase == Pending)
  }

  /** controllerPods: the active siblings, in list order. */
  function Siblings(pods: seq<Pod>, controller: ControllerInfo): (r: seq<Pod>)
    ensures |r| <= |pods|
    ensures forall p :: p in r <==> p in pods && IsActiveSibling(p, controller)
  {
    if pods == [] then []
    else
      var init := pods[..|pods| - 1];
      var last := pods[|pods| - 1];
      assert pods == init + [last];
      Siblings(init, controller) + (if IsActiveSibling(last, controller) then [last] else [])
  }

  /** nodeSet: the distinct non-empty node names the given pods are bound to. */
  function NodeSet(pods: seq<Pod>): (r: set<string>)
    ensures |r| <= |pods|
    ensures forall n :: n in r <==> n != "" && exists p | p in pods :: p.nodeName == n
  {
    if pods == [] then {}
    else
      var init := pods[..|pods| - 1];
      var last := pods[|pods| - 1];
      assert pods == init + [last];
      var s := NodeSet(init);
      if last.nodeName == "" then s else s + {last.nodeName}
  }

  /** effectiveSpread: the number of distinct nodes the siblings would occupy once the
      pod is placed on the candidate; a candidate already hosting a sibling is not
      counted twice. */
  function EffectiveSpread(nodeSet: set<string>, candidate: string): (r: nat)
    ensures r == |nodeSet + {candidate}|
    ensures |nodeSet| <= r <= |nodeSet| + 1
    ensures r == |nodeSet| <==> candidate in nodeSet
  {
    if candidate in nodeSet then
      assert nodeSet + {candidate} == nodeSet;
      |nodeSet|
    else
      |nodeSet| + 1
  }

  /** The reason of a rejection: the required host count written in decimal between
      a fixed prefix and suffix, so that it can be read back. */
  function RejectMessage(requiredHosts: int32): (s: string)
    ensures |s| > 45
    ensures s[..30] == "must schedule across at least " && s[|s| - 15..] == " distinct nodes"
    ensures s[30..|s| - 15] == FormatInt(requiredHosts as int)
    ensures ParseInt32(s[30..|s| - 15]) == Ok(requiredHosts as int)
  {
    var digits := FormatInt(requiredHosts as int);
    var s := "must schedule across at least " + digits + " distinct nodes";
    assert s[..30] == "must schedule across at least ";
    assert s[30..|s| - 15] == digits;
    assert s[|s| - 15..] == " distinct nodes";
    s
  }

  /** The reason of a pod-list failure: a fixed prefix followed by the cause. */
  function ListErrorMessage(cause: string): (s: string)
    ensures |s| == 20 + |cause|
    ensures s[..20] == "error listing pods: " && s[20..] == cause
  {
    "error listing pods: " + cause
  }

  // ---------------------------------------------------------------------------
  // The decision

  /** The verdict once the pod list has been read. */
  function Census(pods: seq<Pod>, controller: ControllerInfo, requiredHosts: int32, candidate: string): (r: Status)
    ensures !r.Error?
    ensures r.Unschedulable? <==>
      |Siblings(pods, controller)| >= 2 && |NodeSet(Siblings(pods, controller)) + {candidate}| < requiredHosts as int
    ensures r.Unschedulable? ==> r.reason == RejectMessage(requiredHosts)
  {
    var controllerPods := Siblings(pods, controller);
    if |controllerPods| <= 1 then Success
    else if EffectiveSpread(NodeSet(controllerPods), candidate) < requiredHosts as int then
      Unschedulable(RejectMessage(requiredHosts))
    else Success
  }

  /** The verdict of Filter for a pod and the name of the candidate node. */
  function FilterSpec(csf: ControllerSpreadFilter, pod: Pod, candidate: string): (r: Status)
    ensures GetControllerInfo(pod.ownerReferences).None? ==> r == Success
    ensures r.Error? <==>
      GetControllerInfo(pod.ownerReferences).Some? &&
      Lookup(csf, pod.namespace, GetControllerInfo(pod.ownerReferences).value).Found? &&
      DesiredCount(Lookup(csf, pod.namespace, GetControllerInfo(pod.ownerReferences).value).obj) >= 2 &&
      csf.podLister(pod.namespace).ListFailed?
    ensures r.Error? ==> r.reason == ListErrorMessage(csf.podLister(pod.namespace).cause)
  {
    match GetControllerInfo(pod.ownerReferences)
    case None => Success
    case Some(controller) =>
      match Lookup(csf, pod.namespace, controller)
      case LookupFailed(_) => Success
      case Found(obj) =>
        var desired := DesiredCount(obj);
        if desired <= 1 then Success
        else
          match csf.podLister(pod.namespace)
          case ListFailed(cause) => Error(ListErrorMessage(cause))
          case Listed(allPods) => Census(allPods, controller, RequiredHosts(desired, obj.annotations), candidate)
  }

  /** The kind switch of Filter: Get the controller from the lister of its kind and
      read that kind's count field, 1 when unset, and its annotations. */
  method FetchController(csf: ControllerSpreadFilter, namespace: string, controller: ControllerInfo)
    returns (found: bool, desired: int32, annotations: map<string, string>)
    ensures found <==> Lookup(csf, namespace, controller).Found?
    ensures found ==> desired == DesiredCount(Lookup(csf, namespace, controller).obj)
    ensures found ==> annotations == Lookup(csf, namespace, controller).obj.annotations
  {
    desired, annotations := 0, map[];
    match controller.typ {
      case ReplicaSetType =>
        var rs := csf.rsLister(namespace, controller.name);
        if rs.LookupFailed? {
          return false, desired, annotations;
        }
        if rs.obj.replicas.Some? {
          desired := rs.obj.replicas.value;
        } else {
          desired := 1;
        }
        annotations := rs.obj.annotations;
      case StatefulSetType =>
        var sts := csf.stsLister(namespace, controller.name);
        if sts.LookupFailed? {
          return false, desired, annotations;
        }
        if sts.obj.replicas.Some? {
          desired := sts.obj.replicas.value;
        } else {
          desired := 1;
        }
        annotations := sts.obj.annotations;
      case JobType =>
        var job := csf.jobLister(namespace, controller.name);
        if job.LookupFailed? {
          return false, desired, annotations;
        }
        if job.obj.parallelism.Some? {
          desired := job.obj.parallelism.value;
        } else {
          desired := 1;
        }
        annotations := job.obj.annotations;
      case CronJobType =>
        var cj := csf.cronJobLister(namespace, controller.name);
        if cj.LookupFailed? {
          return false, desired, annotations;
        }
        if cj.obj.jobTemplateParallelism.Some? {
          desired := cj.obj.jobTemplateParallelism.value;
        } else {
          desired := 1;
        }
        annotations := cj.obj.annotations;
    }
    found := true;
  }

  /** The first loop of Filter: append every active sibling to controllerPods. */
  method CollectControllerPods(allPods: seq<Pod>, controller: ControllerInfo) returns (controllerPods: seq<Pod>)
    ensures controllerPods == Siblings(allPods, controller)
  {
    controllerPods := [];
    for i := 0 to |allPods|
      invariant controllerPods == Siblings(allPods[..i], controller)
    {
      assert allPods[..i + 1][..i] == allPods[..i];
      var p := allPods[i];
      if IsOwnedByController(p.ownerReferences, controller) && (p.phase == Running || p.phase == Pending) {
        controllerPods := controllerPods + [p];
      }
    }
    assert allPods[..|allPods|] == allPods;
  }

  /** The second loop of Filter: insert every non-empty node name into nodeSet. */
  method CollectNodeSet(controllerPods: seq<Pod>) returns (nodeSet: set<string>)
    ensures nodeSet == NodeSet(controllerPods)
  {
    nodeSet := {};
    for i := 0 to |controllerPods|
      invariant nodeSet == NodeSet(controllerPods[..i])
    {
      assert controllerPods[..i + 1][..i] == controllerPods[..i];
      if controllerPods[i].nodeName != "" {
        nodeSet := nodeSet + {controllerPods[i].nodeName};
      }
    }
    assert controllerPods[..|controllerPods|] == controllerPods;
  }

  /** ControllerSpreadFilter.Filter. The result depends on nothing but the inputs, so
      repeating the call on the same inputs gives the same verdict. */
  method Filter(csf: ControllerSpreadFilter, pod: Pod, nodeName: string) returns (status: Status)
    ensures status == FilterSpec(csf, pod, nodeName)
  {
    var info := GetControllerInfo(pod.ownerReferences);
    if info.None? {
      return Success;
    }
    var controller := info.value;

    var minHostsVal: int32 := 2;
    var found, desired, annotations := FetchController(csf, pod.namespace, controller);
    if !found {
      return Success;
    }

    if MinHostsAnnotationKey in annotations {
      minHostsVal := ParseMinHostsAnnotation(annotations[MinHostsAnnotationKey]);
    }

    var requiredHosts := Min(desired, minHostsVal);
    if desired <= 1 {
      return Success;
    }

    var listed := csf.podLister(pod.namespace);
    if listed.ListFailed? {
      return Error(ListErrorMessage(listed.cause));
    }

    var controllerPods := CollectControllerPods(listed.pods, controller);
    if |controllerPods| <= 1 {
      return Success;
    }

    var nodeSet := CollectNodeSet(controllerPods);

    var effectiveSpread := |nodeSet|;
    if nodeName !in nodeSet {
      effectiveSpread := effectiveSpread + 1;
    }

    if effectiveSpread < requiredHosts as int {
      return Unschedulable(RejectMessage(requiredHosts));
    }
    return Success;
  }
}
