# ControllerSpreadFilter in Dafny

This project models the `ControllerSpreadFilter` plugin of an out-of-tree
Kubernetes scheduler (`pkg/controllerspread/controller_spread.go`). For a pod
owned by a ReplicaSet, StatefulSet, Job or CronJob that wants more than one
replica, the plugin refuses a candidate node when at least two of the
controller's pods are Running or Pending and, with the pod placed there, they
would occupy fewer than the required number of distinct nodes. A controller that
cannot be found admits the pod; for a controller found with two or more
replicas, a pod list that cannot be read gives an error. The requirement is `requiredHosts`: the smaller of the controller's
desired count and a minimum-hosts value. That value is 2 by default
and can be overridden with the annotation `controller-spread-scheduler/min-hosts`
on the controller object.

The project has four modules:

- `StrConv` (`strconv.dfy`) models the two pieces of Go's standard library that
  the filter depends on:
  - `strconv.ParseInt(s, 10, 32)`: an optional sign and ParseUint's digit loop,
    which gives a syntax error on a non-digit and a range error once the value
    passes 2^32-1, then the int32 cutoff;
  - the `%d` verb. It is proved to read back through the parser for every int32.
- `ControllerSpread` (`controller_spread.dfy`) holds the data model and the
  operations:
  - the functions `getControllerInfo`, `parseMinHostsAnnotation`, `min` and
    `isOwnedByController`;
  - `FilterSpec`, a pure statement of the verdict;
  - the method `Filter`, with the source's two loops (collecting
    `controllerPods` and inserting into `nodeSet`) and its `effectiveSpread`
    counter, proved to return `FilterSpec`.

  The five listers are fields of the `ControllerSpreadFilter` datatype. Each is a
  total function from its lookup key (a namespace, or a namespace and a name) to
  the lister's answer: an object or a failure, a pod list or a failure. The
  candidate node is given by its name.
- `ControllerSpreadProperties` (`filter_properties.dfy`) proves what the filter
  promises about every input:
  - which owner reference is chosen;
  - fail-open on a failed lookup and fail-closed on a failed pod list;
  - the bounds on `requiredHosts`;
  - the annotation's fallback to 2;
  - that a candidate already hosting a sibling is not counted twice;
  - the exact condition for rejection.
- `ControllerSpreadScenarios` (`filter_scenarios.dfy`) works through concrete
  clusters: a ReplicaSet, a StatefulSet with an override, a Job whose override is
  below 2, a missing CronJob and a failing pod list.

Behaviour worth knowing, stated as proved lemmas:

- An annotation value below 2 (such as `"1"`) does not lower the requirement
  to 1: it falls back to 2, so a Job of parallelism 4 annotated `"1"` still
  needs two hosts (`ControllerSpreadProperties.MinHostsOfDecimal`,
  `ControllerSpreadScenarios.JobAnnotationBelowTwoScenario`).
- The rejection reason names only the required host count, not the current
  spread (`ControllerSpread.RejectMessage`).
- The sibling count that short-circuits to Success includes siblings that are
  not yet bound to a node, but such siblings add no node to the spread.
  Consequently, when two or more active siblings are all still unbound, every
  candidate node is refused (`ControllerSpreadProperties.UnboundSiblingsBlockEveryNode`).
- `Filter` is a method whose result equals the function `FilterSpec` of its
  inputs, so repeating it on the same inputs gives the same verdict.

## Model

| member | source | states |
|---|---|---|
| StrConv.ParseInt32 | pkg/controllerspread/controller_spread.go:97 | succeeds exactly on an optionally signed, non-empty decimal digit string whose value lies in the int32 range, and then returns that value |
| StrConv.AccumulateDigits | pkg/controllerspread/controller_spread.go:97 | started on a digit prefix and its value, ParseUint's digit loop accepts exactly digit strings of value at most 2^32-1 and yields their value |
| StrConv.ParseUint32 | pkg/controllerspread/controller_spread.go:97 | the unsigned parse behind ParseInt accepts exactly non-empty digit strings of value at most 2^32-1, with that value |
| StrConv.FormatNat | pkg/controllerspread/controller_spread.go:249 | %d of a non-negative number is a non-empty digit string denoting it; it starts with 0 only when it is "0", which it is exactly for 0 |
| StrConv.FormatInt | pkg/controllerspread/controller_spread.go:249 | %d yields a decimal string denoting the number, never with a plus sign, with a minus sign exactly for negative numbers and no leading zero (so never "-0") |
| StrConv.FormatParseRoundTrip | pkg/controllerspread/controller_spread.go:249 | every int32 written with %d parses back to itself |
| ControllerSpread.ControllerTypeOf | pkg/controllerspread/controller_spread.go:81-90 | a kind string maps to the controller type of that kind, and to none exactly when no type has that kind |
| ControllerSpread.GetControllerInfo | pkg/controllerspread/controller_spread.go:76-93 | none exactly when no owner reference has a non-empty UID, a non-empty name and a recognised kind; otherwise the controller of the first such reference in list order |
| ControllerSpread.IsOwnedByController | pkg/controllerspread/controller_spread.go:255-262 | true exactly when some owner reference has the controller's kind and UID (the name is not compared) |
| ControllerSpread.ParseMinHostsAnnotation | pkg/controllerspread/controller_spread.go:96-101 | always at least 2; the parsed value when the string is a base-10 int32 of at least 2, and 2 for every other string |
| ControllerSpread.Min | pkg/controllerspread/controller_spread.go:104-109 | the result is one of the two arguments and no larger than either |
| ControllerSpread.MinHosts | pkg/controllerspread/controller_spread.go:204-206 | at least 2; the default 2 when the annotation is absent, and parseMinHostsAnnotation of its value when present |
| ControllerSpread.Lookup | pkg/controllerspread/controller_spread.go:151-202 | consults the lister of the controller's kind under the pod's namespace and the controller's name, passing on its failure cause, and keeps that kind's count field (replicas, parallelism, or the job template's parallelism) and the annotations |
| ControllerSpread.DesiredCount | pkg/controllerspread/controller_spread.go:158-162 | the count field when set, and 1 when unset |
| ControllerSpread.RequiredHosts | pkg/controllerspread/controller_spread.go:208 | the smaller of the desired count and the min-hosts value; between 2 and the desired count once that is at least 2; equal to the desired count when the override is at or above it |
| ControllerSpread.Siblings | pkg/controllerspread/controller_spread.go:219-224 | a pod is among the result exactly when it is in the list, is owned by the controller and is Running or Pending; never longer than the list (multiplicities in SiblingsMultiplicity) |
| ControllerSpread.NodeSet | pkg/controllerspread/controller_spread.go:229-234 | a name is in the set exactly when it is non-empty and some pod of the list is bound to it; never more names than pods |
| ControllerSpread.EffectiveSpread | pkg/controllerspread/controller_spread.go:236-239 | the size of the node set with the candidate added; stays at the node-set size exactly when the candidate is already in it, and otherwise exceeds it by one |
| ControllerSpread.RejectMessage | pkg/controllerspread/controller_spread.go:248-249 | the fixed text "must schedule across at least " and " distinct nodes" around exactly the %d text of the required host count, which reads back as that count |
| ControllerSpread.ListErrorMessage | pkg/controllerspread/controller_spread.go:216 | "error listing pods: " followed by exactly the cause |
| ControllerSpread.Census | pkg/controllerspread/controller_spread.go:219-252 | never Error; Unschedulable exactly when there are at least two active siblings and the nodes they occupy together with the candidate are fewer than required, with the reason naming the requirement; otherwise Success |
| ControllerSpread.FilterSpec | pkg/controllerspread/controller_spread.go:141-253 | Success when no owner is eligible; Error exactly when the controller is found with a desired count of at least 2 and the pod list fails, with the list's cause in the reason |
| ControllerSpread.FetchController | pkg/controllerspread/controller_spread.go:151-202 | found exactly when the lister of the controller's kind finds it; then the desired count is that kind's count field (1 when unset), together with the object's annotations |
| ControllerSpread.CollectControllerPods | pkg/controllerspread/controller_spread.go:219-224 | the append loop yields exactly the active siblings in list order |
| ControllerSpread.CollectNodeSet | pkg/controllerspread/controller_spread.go:229-234 | the insert loop yields exactly the set of non-empty node names of the siblings |
| ControllerSpread.Filter | pkg/controllerspread/controller_spread.go:141-253 | the method returns the verdict FilterSpec assigns to the plugin's listers, the pod and the candidate node |
| ControllerSpreadProperties.FirstEligibleOwnerChosen | pkg/controllerspread/controller_spread.go:77-90 | when the first eligible owner reference is at position i, the controller is the one that reference names |
| ControllerSpreadProperties.ResolvedControllerOwnsPod | pkg/controllerspread/controller_spread.go:255-262 | the pod being scheduled is itself owned by the controller it resolves to |
| ControllerSpreadProperties.NoEligibleOwnerAdmits | pkg/controllerspread/controller_spread.go:142-145 | a pod with no eligible owner reference is admitted |
| ControllerSpreadProperties.LookupIgnoresPodLister | pkg/controllerspread/controller_spread.go:151-202 | the controller lookup does not depend on the pod lister |
| ControllerSpreadProperties.LookupFailureAdmits | pkg/controllerspread/controller_spread.go:153-156 | a failed controller lookup admits the pod, whatever the pod lister answers and whatever the candidate |
| ControllerSpreadProperties.SingleReplicaAdmits | pkg/controllerspread/controller_spread.go:209-211 | an unset count field or a count of at most 1 admits the pod, even when the pod list would fail |
| ControllerSpreadProperties.MinHostsOfDecimal | pkg/controllerspread/controller_spread.go:96-101 | an int32 written in decimal is honoured when at least 2, and gives 2 when below 2 |
| ControllerSpreadProperties.MinHostsRejectsStrayCharacter | pkg/controllerspread/controller_spread.go:97 | any non-digit after the optional leading sign makes the annotation give 2 |
| ControllerSpreadProperties.MinHostsRejectsOverflow | pkg/controllerspread/controller_spread.go:97 | a decimal value above the int32 maximum makes the annotation give 2 |
| ControllerSpreadProperties.PodListFailureIsError | pkg/controllerspread/controller_spread.go:213-217 | once reached, a pod-list failure gives Error with "error listing pods: " followed by the cause |
| ControllerSpreadProperties.ErrorOnlyFromPodList | pkg/controllerspread/controller_spread.go:213-217 | Error arises only from a failed pod list and carries its cause; a failed pod list never gives Unschedulable |
| ControllerSpreadProperties.SiblingsMultiplicity | pkg/controllerspread/controller_spread.go:219-224 | every active pod occurs among the siblings as often as in the list, every other pod not at all; equal pods are all counted |
| ControllerSpreadProperties.TwoActiveSiblings | pkg/controllerspread/controller_spread.go:219-225 | two list positions holding active siblings give at least two siblings |
| ControllerSpreadProperties.SiblingShortCut | pkg/controllerspread/controller_spread.go:225-227 | the one-sibling short cut is taken exactly when no two list positions hold active siblings |
| ControllerSpreadProperties.EqualReplicasCountTwice | pkg/controllerspread/controller_spread.go:219-225 | two indistinguishable active replicas count as two siblings |
| ControllerSpreadProperties.FewSiblings | pkg/controllerspread/controller_spread.go:219-224 | if no two list positions hold active siblings, there is at most one sibling, and none when no pod is active |
| ControllerSpreadProperties.AtMostOneSiblingAdmits | pkg/controllerspread/controller_spread.go:225-227 | with at most one active sibling in the listed pods, the pod is admitted |
| ControllerSpreadProperties.SpreadDecision | pkg/controllerspread/controller_spread.go:241-252 | past the short cuts, 2 <= requiredHosts <= desired, and the verdict is the rejection naming requiredHosts exactly when the spread after placement is below it, and Success exactly when it is not |
| ControllerSpreadProperties.RejectionNamesRequiredHosts | pkg/controllerspread/controller_spread.go:248-249 | every rejection reason is the message for some host count of at least 2, and the number written in that reason reads back as the count |
| ControllerSpreadProperties.RejectMessageDetermines | pkg/controllerspread/controller_spread.go:248-249 | equal rejection reasons name equal host counts |
| ControllerSpreadProperties.EmptyNodeAdmitsWhenAnyNodeDoes | pkg/controllerspread/controller_spread.go:236-239 | a candidate node that no listed pod is bound to is admitted whenever any other candidate is |
| ControllerSpreadProperties.UnboundSiblingsBlockEveryNode | pkg/controllerspread/controller_spread.go:229-241 | with two or more active siblings all unbound, every candidate node is refused, whatever other pods of the namespace are bound to |
| ControllerSpreadScenarios.NoOwnerScenario | pkg/controllerspread/controller_spread.go:142-145 | a pod without owner references is admitted on any node |
| ControllerSpreadScenarios.ReplicaSetActive | pkg/controllerspread/controller_spread.go:221 | the ReplicaSet's Pending and Running pods are active siblings and its Succeeded pod is not |
| ControllerSpreadScenarios.ReplicaSetSiblings | pkg/controllerspread/controller_spread.go:219-224 | a Succeeded pod of the ReplicaSet is not an active sibling; the Pending and Running ones are |
| ControllerSpreadScenarios.ReplicaSetNodes | pkg/controllerspread/controller_spread.go:229-234 | the unbound sibling adds no node to the node set |
| ControllerSpreadScenarios.ReplicaSetCensus | pkg/controllerspread/controller_spread.go:236-249 | with siblings on {n1} and 2 hosts required, n2 passes and n1 is rejected |
| ControllerSpreadScenarios.ReplicaSetResolution | pkg/controllerspread/controller_spread.go:152-163 | the ReplicaSet with 3 replicas and no annotation requires 2 hosts |
| ControllerSpreadScenarios.ReplicaSetOtherNodeScenario | pkg/controllerspread/controller_spread.go:141-253 | a ReplicaSet of 3 with one running sibling on n1 admits the pod on n2 |
| ControllerSpreadScenarios.ReplicaSetSameNodeScenario | pkg/controllerspread/controller_spread.go:141-253 | the same pod on n1 is refused with "must schedule across at least 2 distinct nodes" |
| ControllerSpreadScenarios.StatefulSetActive | pkg/controllerspread/controller_spread.go:221 | the StatefulSet's three Pending and Running pods are active siblings |
| ControllerSpreadScenarios.StatefulSetSiblings | pkg/controllerspread/controller_spread.go:219-224 | all three Pending and Running pods of the StatefulSet are active siblings |
| ControllerSpreadScenarios.StatefulSetNodes | pkg/controllerspread/controller_spread.go:229-234 | the StatefulSet's siblings occupy n1 and n2 |
| ControllerSpreadScenarios.StatefulSetCensus | pkg/controllerspread/controller_spread.go:236-249 | with siblings on {n1, n2} and 3 hosts required, n3 passes and n1 is rejected |
| ControllerSpreadScenarios.StatefulSetResolution | pkg/controllerspread/controller_spread.go:204-208 | the StatefulSet with 5 replicas and annotation "3" requires 3 hosts |
| ControllerSpreadScenarios.StatefulSetThirdNodeScenario | pkg/controllerspread/controller_spread.go:141-253 | a StatefulSet of 5 asking for 3 hosts, with siblings on n1 and n2, admits the pod on n3 |
| ControllerSpreadScenarios.StatefulSetSameNodeScenario | pkg/controllerspread/controller_spread.go:141-253 | the same pod on n1 is refused with "must schedule across at least 3 distinct nodes" |
| ControllerSpreadScenarios.JobActive | pkg/controllerspread/controller_spread.go:221 | the Job's Pending and Running pods are active siblings |
| ControllerSpreadScenarios.JobCensus | pkg/controllerspread/controller_spread.go:236-249 | with siblings on {n1} and 2 hosts required, n1 is rejected |
| ControllerSpreadScenarios.JobResolution | pkg/controllerspread/controller_spread.go:204-208 | the Job with parallelism 4 and annotation "1" still requires 2 hosts |
| ControllerSpreadScenarios.JobAnnotationBelowTwoScenario | pkg/controllerspread/controller_spread.go:97-100 | a Job of parallelism 4 annotated "1" keeps the pod off n1, where a sibling already runs |
| ControllerSpreadScenarios.MissingControllerScenario | pkg/controllerspread/controller_spread.go:189-192 | a CronJob that cannot be found admits the pod, even with a failing pod list |
| ControllerSpreadScenarios.PodListFailureScenario | pkg/controllerspread/controller_spread.go:213-217 | a CronJob with template parallelism 2 and a failing pod list gives Error with the cause |

## Left out

- `New`, the decoding of `ControllerSpreadArgs`, `PluginRegistry` and `Name()`: framework registration and informer wiring, with no decision logic.
- `cmd/scheduler/main.go`: process bootstrap. It is not part of this model.
- `klog` logging: it is only observable as log output and does not affect the verdict.
- The `context.Context` and `CycleState` parameters: the code reads neither, and does not react to cancellation, so no Error on cancellation is modelled.
- Concurrent invocation, and the caching and staleness of the listers: each lister is a fixed function of its key, one snapshot per call. `labels.Everything()` is modelled as listing every pod the namespace lister returns.
- The internals of `framework.Status` and `NodeInfo`: the verdict is a three-case datatype and the candidate node is its name.
- The `default` branch of the kind switch: `ControllerType` has exactly the four kinds `getControllerInfo` produces, so that branch cannot be reached. The match in `FetchController` and `Lookup` has no default case.
- Pod phase is limited to the five named phases of the Kubernetes API. Controller objects are reduced to their annotations and their count field.
- effectiveSpread is an unbounded natural number and is compared with requiredHosts as an integer, like Go's `int` at line 241, which cannot overflow on realistic pod counts.
- ControllerSpread.Siblings: its contract and lemmas state which pods are kept and how often, not their order; the filter reads only the number of siblings and their node names, so order does not affect the verdict.
- StrConv.ParseInt32: its contract says when parsing succeeds and what value it gives. It does not say which error kind (syntax or range) a failure carries, because the filter treats both alike.
- Go iterates over a string's bytes, while Dafny strings are sequences of characters. For the digit and sign tests the two agree, since a non-ASCII character fails the digit test either way.
