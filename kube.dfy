/**
 * The leader-Service update: one JSON Patch "replace" operation on the
 * Service's selector (section 4.3 of RFC 6902), kept as a value rather than
 * as JSON bytes, and what applying it does to the Service.
 */
module Kube {
  import opened Common

  /** The label a StatefulSet puts on each of its pods, holding the pod's name. */
  const PodNameLabel := "statefulset.kubernetes.io/pod-name"

  /** The JSON Pointer to a Service's selector. */
  const SelectorPath := "/spec/selector"

  /** One RFC 6902 operation whose value is a string map (jsonPatchOp). */
  datatype PatchOp = PatchOp(op: string, path: string, value: map<string, string>)

  /** The parts of a Service object the patch can reach; an absent selector is None. */
  datatype Service = Service(
    name: string,
    labels: map<string, string>,
    selector: Option<map<string, string>>,
    clusterIP: string)

  datatype PatchError = PathNotFound(path: string) | NotModelled(op: string, path: string)

  /** The selector that picks exactly the pod with the given name. */
  function PodSelector(pod: string): map<string, string> {
    map[PodNameLabel := pod]
  }

  /** The patch updateLeaderService sends for the given pod. */
  function LeaderServicePatch(pod: string): seq<PatchOp> {
    [PatchOp("replace", SelectorPath, PodSelector(pod))]
  }

  /**
   * One operation: "replace" needs its target to exist and then sets it to
   * the value as a whole (section 4.3 of RFC 6902). Only the selector
   * location is modelled.
   */
  function ApplyOp(svc: Service, op: PatchOp): Result<Service, PatchError> {
    if op.op == "replace" && op.path == SelectorPath then
      if svc.selector.Some? then Ok(svc.(selector := Some(op.value))) else Err(PathNotFound(op.path))
    else
      Err(NotModelled(op.op, op.path))
  }

  /** A patch applies its operations in order and fails as a whole on the first error (section 5 of RFC 6902). */
  function ApplyPatch(svc: Service, ops: seq<PatchOp>): Result<Service, PatchError>
    decreases |ops|
  {
    if ops == [] then Ok(svc)
    else
      match ApplyOp(svc, ops[0])
      case Err(e) => Err(e)
      case Ok(next) => ApplyPatch(next, ops[1..])
  }

  /** A selector picks a pod when every entry of the selector is among the pod's labels. */
  predicate Selects(selector: map<string, string>, podLabels: map<string, string>) {
    forall k :: k in selector ==> k in podLabels && podLabels[k] == selector[k]
  }

  /**
   * The leader patch is a single replace of the whole selector: it fails
   * exactly when the Service has no selector, and otherwise leaves the
   * selector holding only the pod-name entry (earlier entries are dropped,
   * not merged) and every other field as it was.
   */
  lemma LeaderPatchEffect(svc: Service, pod: string)
    ensures |LeaderServicePatch(pod)| == 1 && LeaderServicePatch(pod)[0].op == "replace"
    ensures var r := ApplyPatch(svc, LeaderServicePatch(pod));
      && (r.Ok? <==> svc.selector.Some?)
      && (r.Err? ==> r.error == PathNotFound(SelectorPath))
      && (r.Ok? ==> r.value == svc.(selector := Some(PodSelector(pod))))
      && (r.Ok? ==> r.value.selector.value.Keys == {PodNameLabel})
  {
    var ops := LeaderServicePatch(pod);
    if svc.selector.Some? {
      assert ApplyPatch(svc.(selector := Some(PodSelector(pod))), ops[1..]).Ok?;
    }
  }

  /** After the patch the Service selects a pod exactly when that pod carries the leader's name. */
  lemma PodSelectorSelectsOnlyPod(pod: string, podLabels: map<string, string>)
    ensures Selects(PodSelector(pod), podLabels) <==>
              PodNameLabel in podLabels && podLabels[PodNameLabel] == pod
  {
    if PodNameLabel in podLabels && podLabels[PodNameLabel] == pod {
      forall k | k in PodSelector(pod)
        ensures k in podLabels && podLabels[k] == PodSelector(pod)[k]
      {
        assert k == PodNameLabel;
      }
    }
  }
}
