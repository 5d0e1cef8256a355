/**
 * The standalone admission webhook server: the mutating handler builds a
 * JSON Patch (RFC 6902) that defaults an empty quantity map and an empty
 * target list, the validating handler checks ResourceLimiter quantities and
 * Pod container resources, and the two HTTP handlers gate, decode and wrap
 * an AdmissionReview.
 */
module Admission {
  import opened Wrappers
  import opened ApiTypes
  import opened Quantities

  // ---------------------------------------------------------------------
  // JSON Patch operations
  // ---------------------------------------------------------------------

  /** The value of a patch operation: a whole map, a whole list, or one string. */
  datatype PatchValue =
    | TypesValue(types: map<string, string>)
    | TargetsValue(targets: seq<string>)
    | ItemValue(item: string)

  datatype PatchOperation = PatchOperation(op: string, path: string, value: PatchValue)

  const TypesPath: string := "/spec/types"
  const TargetsPath: string := "/spec/targets"
  const TypeKeyPrefix: string := "/spec/types/"
  /** The path the target builder appends to when the target list is not empty. */
  const AppendPath: string := TypeKeyPrefix + "-"

  /** Which of the two fields needs defaulting: (types, targets). */
  function MutationRequired(spec: SpecV1): (required: (bool, bool))
    ensures required.0 <==> |spec.types| == 0
    ensures required.1 <==> |spec.targets| == 0
  {
    (|spec.types| == 0, |spec.targets| == 0)
  }

  /**
   * `order` lists the keys of `keys` once each (as many entries as keys,
   * each a key, none twice): the order in which a Go range over a map with
   * those keys visits them.
   */
  ghost predicate Enumerates(order: seq<string>, keys: set<string>)
  {
    && |order| == |keys|
    && (forall i :: 0 <= i < |order| ==> order[i] in keys)
    && (forall i, j :: 0 <= i < j < |order| ==> order[i] != order[j])
  }

  /** The operation the types builder emits for one key. */
  function TypesOp(emptyTarget: bool, key: string, value: string): PatchOperation
  {
    if emptyTarget then PatchOperation("add", TypesPath, TypesValue(map[key := value]))
    else PatchOperation("replace", TypeKeyPrefix + key, ItemValue(value))
  }

  /** The operations the types builder emits, one per key, in visiting order. */
  function TypesPatch(emptyTarget: bool, added: map<string, string>, order: seq<string>): seq<PatchOperation>
    requires forall i :: 0 <= i < |order| ==> order[i] in added
  {
    if |order| == 0 then []
    else TypesPatch(emptyTarget, added, order[..|order| - 1])
         + [TypesOp(emptyTarget, order[|order| - 1], added[order[|order| - 1]])]
  }

  /**
   * updateResourceLimiterTypes: one operation per key of `added`.  The
   * target map is replaced by an empty one on the first key, so an empty
   * target yields only whole-map "add" operations.
   */
  method UpdateResourceLimiterTypes(target: map<string, string>, added: map<string, string>)
    returns (patch: seq<PatchOperation>, ghost order: seq<string>)
    ensures Enumerates(order, added.Keys)
    ensures patch == TypesPatch(|target| == 0, added, order)
  {
    var current := target;
    patch := [];
    order := [];
    ghost var seen: set<string> := {};
    var remaining := added.Keys;
    while remaining != {}
      invariant seen !! remaining && seen + remaining == added.Keys
      invariant Enumerates(order, seen)
      invariant current == target || (|target| == 0 && current == map[])
      invariant patch == TypesPatch(|target| == 0, added, order)
      decreases remaining
    {
      var key :| key in remaining;
      var value := added[key];
      var op;
      if |current| == 0 {
        current := map[];
        op := PatchOperation("add", TypesPath, TypesValue(map[key := value]));
      } else {
        op := PatchOperation("replace", TypeKeyPrefix + key, ItemValue(value));
      }
      assert op == TypesOp(|target| == 0, key, value);
      patch := patch + [op];
      EnumeratesExtend(order, seen, key);
      TypesPatchSnoc(|target| == 0, added, order, key);
      order := order + [key];
      seen := seen + {key};
      remaining := remaining - {key};
    }
    assert seen == added.Keys;
  }

  /** Visiting one more key appends its operation to the types patch. */
  lemma TypesPatchSnoc(emptyTarget: bool, added: map<string, string>, order: seq<string>, key: string)
    requires forall i :: 0 <= i < |order| ==> order[i] in added
    requires key in added
    ensures TypesPatch(emptyTarget, added, order + [key])
            == TypesPatch(emptyTarget, added, order) + [TypesOp(emptyTarget, key, added[key])]
  {
    assert (order + [key])[..|order|] == order;
  }

  /** Visiting one more, unvisited, key extends an enumeration. */
  lemma EnumeratesExtend(order: seq<string>, keys: set<string>, key: string)
    requires Enumerates(order, keys) && key !in keys
    ensures Enumerates(order + [key], keys + {key})
  {
    var longer := order + [key];
    forall i, j | 0 <= i < j < |longer|
      ensures longer[i] != longer[j]
    {
      if j == |order| {
        assert longer[i] == order[i] && order[i] in keys;
      }
    }
  }

  /** The operation the targets builder emits for one namespace. */
  function TargetOp(emptyTarget: bool, item: string): PatchOperation
  {
    if emptyTarget then PatchOperation("add", TargetsPath, TargetsValue([item]))
    else PatchOperation("add", AppendPath, ItemValue(item))
  }

  /** The operations the targets builder emits, one per namespace, in list order. */
  function TargetsPatch(emptyTarget: bool, added: seq<string>): seq<PatchOperation>
  {
    if |added| == 0 then []
    else TargetsPatch(emptyTarget, added[..|added| - 1]) + [TargetOp(emptyTarget, added[|added| - 1])]
  }

  /** updateResourceLimiterTargets: one operation per namespace of `added`. */
  method UpdateResourceLimiterTargets(target: seq<string>, added: seq<string>) returns (patch: seq<PatchOperation>)
    ensures patch == TargetsPatch(|target| == 0, added)
  {
    var current := target;
    patch := [];
    for i := 0 to |added|
      invariant (|current| == 0) == (|target| == 0)
      invariant patch == TargetsPatch(|target| == 0, added[..i])
    {
      var item := added[i];
      if |current| == 0 {
        current := [];
        patch := patch + [PatchOperation("add", TargetsPath, TargetsValue([item]))];
      } else {
        patch := patch + [PatchOperation("add", AppendPath, ItemValue(item))];
      }
      assert added[..i + 1][..i] == added[..i];
    }
    assert added[..|added|] == added;
  }

  /** The patch createPatch builds: the types operations, then the targets operations. */
  function CreatePatchOps(spec: SpecV1, desired: SpecV1, order: seq<string>): seq<PatchOperation>
    requires |spec.types| == 0 ==> Enumerates(order, desired.types.Keys)
  {
    (if |spec.types| == 0 then TypesPatch(true, desired.types, order) else [])
    + (if |spec.targets| == 0 then TargetsPatch(true, desired.targets) else [])
  }

  /** createPatch: only the fields that need defaulting get operations. */
  method CreatePatch(rl: LimiterV1, desired: LimiterV1) returns (patch: seq<PatchOperation>, ghost order: seq<string>)
    ensures |rl.spec.types| == 0 ==> Enumerates(order, desired.spec.types.Keys)
    ensures patch == CreatePatchOps(rl.spec, desired.spec, order)
  {
    var (requiredTypes, requiredTargets) := MutationRequired(rl.spec);
    patch := [];
    order := [];
    if requiredTypes {
      var typesPatch;
      typesPatch, order := UpdateResourceLimiterTypes(rl.spec.types, desired.spec.types);
      patch := patch + typesPatch;
    }
    if requiredTargets {
      var targetsPatch := UpdateResourceLimiterTargets(rl.spec.targets, desired.spec.targets);
      patch := patch + targetsPatch;
    }
  }

  // ---------------------------------------------------------------------
  // Admission requests and responses
  // ---------------------------------------------------------------------

  /** One container's resource lists; None stands for a nil list. */
  datatype Container = Container(limits: Option<map<string, Quantity>>, requests: Option<map<string, Quantity>>)

  datatype Pod = Pod(name: string, containers: seq<Container>)

  /** What decoding the raw object yields as a ResourceLimiter and as a Pod. */
  datatype RawObject = RawObject(asLimiter: Result<LimiterV1, string>, asPod: Result<Pod, string>)

  datatype AdmissionRequest = AdmissionRequest(uid: string, raw: RawObject)

  datatype AdmissionResponse = AdmissionResponse(
    uid: string,
    allowed: bool,
    message: Option<string>,  // Result.Message; None when there is no Result
    patch: seq<PatchOperation>,
    patchType: Option<string>)

  const JSONPatchType: string := "JSONPatch"
  const InvalidQuantityMessage: string := "MustParse failed due to an invalid quantity"

  /** A refusal carrying only a message. */
  function Rejected(message: string): AdmissionResponse
  {
    AdmissionResponse("", false, Some(message), [], None)
  }

  /** The validating handler's acceptance. */
  const Accepted: AdmissionResponse := AdmissionResponse("", true, Some("Validate OK"), [], None)

  /** The defaults the mutating handler patches in. */
  const Desired: SpecV1 := SpecV1(["default"], DefaultTypes, false)

  /** The mutating handler's answer for one request, given the key visiting order. */
  function MutateResponse(req: AdmissionRequest, order: seq<string>): AdmissionResponse
    requires req.raw.asLimiter.Success? && |req.raw.asLimiter.value.spec.types| == 0
             ==> Enumerates(order, DefaultTypes.Keys)
  {
    match req.raw.asLimiter
    case Failure(e) => Rejected(e)
    case Success(rl) =>
      AdmissionResponse("", true, None, CreatePatchOps(rl.spec, Desired, order), Some(JSONPatchType))
  }

  /** mutate: a decode failure is answered with its message; otherwise the defaulting patch is allowed. */
  method Mutate(req: AdmissionRequest) returns (resp: AdmissionResponse, ghost order: seq<string>)
    ensures req.raw.asLimiter.Success? && |req.raw.asLimiter.value.spec.types| == 0
            ==> Enumerates(order, DefaultTypes.Keys)
    ensures resp == MutateResponse(req, order)
  {
    order := [];
    match req.raw.asLimiter
    case Failure(e) =>
      return Rejected(e), order;
    case Success(rl) =>
      var patch;
      patch, order := CreatePatch(rl, LimiterV1(EmptyMeta, Desired, StatusV1("", map[])));
      return AdmissionResponse("", true, None, patch, Some(JSONPatchType)), order;
  }

  /** A container without limits or without requests (nil or empty). */
  predicate MissingResources(c: Container)
  {
    c.limits.None? || |c.limits.value| == 0 || c.requests.None? || |c.requests.value| == 0
  }

  /** The four MustParse calls on a container's cpu and memory texts all succeed. */
  predicate ContainerParses(parse: Parser, c: Container)
    requires !MissingResources(c)
  {
    && ValidQuantity(parse, ShowOrZero(c.limits.value, "cpu"))
    && ValidQuantity(parse, ShowOrZero(c.limits.value, "memory"))
    && ValidQuantity(parse, ShowOrZero(c.requests.value, "cpu"))
    && ValidQuantity(parse, ShowOrZero(c.requests.value, "memory"))
  }

  function PodDenial(pod: Pod): AdmissionResponse
  {
    Rejected("failed to validate pod " + pod.name + " not set any resources limits or requests")
  }

  /**
   * The pod check over the remaining containers: the first one without
   * resources is denied, a parse panic ends with no response at all.
   */
  function PodVerdict(parse: Parser, pod: Pod, containers: seq<Container>): Option<AdmissionResponse>
  {
    if |containers| == 0 then Some(Accepted)
    else if MissingResources(containers[0]) then Some(PodDenial(pod))
    else if !ContainerParses(parse, containers[0]) then None
    else PodVerdict(parse, pod, containers[1..])
  }

  /** The validating handler's answer for a decoded request object; None is a nil response. */
  function ValidateVerdict(parse: Parser, obj: RawObject): Option<AdmissionResponse>
  {
    match obj.asLimiter
    case Success(rl) => if AllQuantitiesValid(parse, rl.spec.types) then Some(Accepted) else None
    case Failure(err) =>
      match obj.asPod
      case Failure(_) => Some(Rejected(err))
      case Success(pod) => PodVerdict(parse, pod, pod.containers)
  }

  /**
   * validate: a nil request and every MustParse panic are recovered by the
   * deferred handler and give a nil response; the error it means to set
   * never reaches the caller.
   */
  method Validate(request: Option<AdmissionRequest>, parse: Parser) returns (resp: Option<AdmissionResponse>)
    ensures request.None? ==> resp == None
    ensures request.Some? ==> resp == ValidateVerdict(parse, request.value.raw)
  {
    if request.None? {
      return None;
    }
    var obj := request.value.raw;
    match obj.asLimiter {
      case Failure(err) =>
      match obj.asPod {
      case Failure(_) =>
        return Some(Rejected(err));
      case Success(pod) =>
        var i := 0;
        while i < |pod.containers|
          invariant 0 <= i <= |pod.containers|
          invariant PodVerdict(parse, pod, pod.containers[i..]) == PodVerdict(parse, pod, pod.containers)
        {
          var c := pod.containers[i];
          if MissingResources(c) {
            return Some(PodDenial(pod));
          }
          var a := MustParse(parse, ShowOrZero(c.limits.value, "cpu"));
          var b := MustParse(parse, ShowOrZero(c.limits.value, "memory"));
          var d := MustParse(parse, ShowOrZero(c.requests.value, "cpu"));
          var e := MustParse(parse, ShowOrZero(c.requests.value, "memory"));
          if a.Panic? || b.Panic? || d.Panic? || e.Panic? {
            return None;
          }
          assert pod.containers[i..][1..] == pod.containers[i + 1..];
          i := i + 1;
        }
        return Some(Accepted);
      }
      case Success(rl) =>
      var remaining := rl.spec.types.Keys;
      while remaining != {}
        invariant remaining <= rl.spec.types.Keys
        invariant forall k :: k in rl.spec.types.Keys - remaining ==> ValidQuantity(parse, rl.spec.types[k])
        decreases remaining
      {
        var t :| t in remaining;
        var parsed := MustParse(parse, rl.spec.types[t]);
        if parsed.Panic? {
          return None;
        }
        remaining := remaining - {t};
      }
      return Some(Accepted);
    }
  }

  // ---------------------------------------------------------------------
  // The HTTP handlers
  // ---------------------------------------------------------------------

  datatype AdmissionReview = AdmissionReview(request: Option<AdmissionRequest>)

  /** An HTTP request: the body read, the Content-Type header, and what decoding the body yields. */
  datatype HttpRequest = HttpRequest(body: seq<bv8>, contentType: string, review: Result<AdmissionReview, string>)

  datatype ReviewOut = ReviewOut(apiVersion: string, kind: string, response: Option<AdmissionResponse>)

  /** What a handler does with the connection. */
  datatype Reply =
    | HttpError(status: int, message: string)
    | Written(review: ReviewOut)
    | HandlerPanic  // a nil dereference that nothing recovers

  /** The checks both handlers make before decoding. */
  function Gate(r: HttpRequest): (g: Option<Reply>)
    ensures g.None? <==> |r.body| > 0 && r.contentType == "application/json"
  {
    if |r.body| == 0 then Some(HttpError(400, "empty body"))
    else if r.contentType != "application/json" then
      Some(HttpError(415, "invalid Content-Type, expect `application/json`"))
    else None
  }

  /** The review written back, its response carrying the request's UID when there is a request. */
  function Envelope(resp: Option<AdmissionResponse>, request: Option<AdmissionRequest>): Reply
  {
    var stamped := if resp.Some? && request.Some? then Some(resp.value.(uid := request.value.uid)) else resp;
    Written(ReviewOut("admission.k8s.io/v1", "AdmissionReview", stamped))
  }

  /** ServeMutate. */
  method ServeMutate(r: HttpRequest) returns (reply: Reply, ghost order: seq<string>)
    ensures Gate(r).Some? ==> reply == Gate(r).value
    ensures Gate(r).None? && r.review.Failure? ==> reply == Envelope(Some(Rejected(r.review.error)), None)
    ensures Gate(r).None? && r.review.Success? && r.review.value.request.None? ==> reply == HandlerPanic
    ensures Gate(r).None? && r.review.Success? && r.review.value.request.Some? ==>
      var req := r.review.value.request.value;
      && (req.raw.asLimiter.Success? && |req.raw.asLimiter.value.spec.types| == 0
          ==> Enumerates(order, DefaultTypes.Keys))
      && reply == Envelope(Some(MutateResponse(req, order)), Some(req))
  {
    order := [];
    if |r.body| == 0 {
      return HttpError(400, "empty body"), order;
    }
    if r.contentType != "application/json" {
      return HttpError(415, "invalid Content-Type, expect `application/json`"), order;
    }
    match r.review
    case Failure(e) =>
      return Envelope(Some(Rejected(e)), None), order;
    case Success(ar) =>
      if ar.request.None? {
        return HandlerPanic, order;
      }
      var resp;
      resp, order := Mutate(ar.request.value);
      return Envelope(Some(resp), ar.request), order;
  }

  /** ServeValidate. */
  method ServeValidate(r: HttpRequest, parse: Parser) returns (reply: Reply)
    ensures Gate(r).Some? ==> reply == Gate(r).value
    ensures Gate(r).None? && r.review.Failure? ==> reply == Envelope(Some(Rejected(r.review.error)), None)
    ensures Gate(r).None? && r.review.Success? ==>
      var request := r.review.value.request;
      reply == Envelope(if request.Some? then ValidateVerdict(parse, request.value.raw) else None, request)
  {
    if |r.body| == 0 {
      return HttpError(400, "empty body");
    }
    if r.contentType != "application/json" {
      return HttpError(415, "invalid Content-Type, expect `application/json`");
    }
    match r.review
    case Failure(e) =>
      return Envelope(Some(Rejected(e)), None);
    case Success(ar) =>
      var resp := Validate(ar.request, parse);
      return Envelope(resp, ar.request);
  }

  // ---------------------------------------------------------------------
  // Properties of the patch builders
  // ---------------------------------------------------------------------

  /** The types builder emits exactly one operation per visited key, in visiting order. */
  lemma {:induction false} TypesPatchAt(emptyTarget: bool, added: map<string, string>, order: seq<string>)
    requires forall i :: 0 <= i < |order| ==> order[i] in added
    ensures |TypesPatch(emptyTarget, added, order)| == |order|
    ensures forall i :: 0 <= i < |order| ==>
      TypesPatch(emptyTarget, added, order)[i] == TypesOp(emptyTarget, order[i], added[order[i]])
  {
    if |order| > 0 {
      var init := order[..|order| - 1];
      TypesPatchAt(emptyTarget, added, init);
      forall i | 0 <= i < |order|
        ensures TypesPatch(emptyTarget, added, order)[i] == TypesOp(emptyTarget, order[i], added[order[i]])
      {
        if i < |order| - 1 {
          assert init[i] == order[i];
        }
      }
    }
  }

  /** The targets builder emits exactly one operation per namespace, in list order. */
  lemma {:induction false} TargetsPatchAt(emptyTarget: bool, added: seq<string>)
    ensures |TargetsPatch(emptyTarget, added)| == |added|
    ensures forall i :: 0 <= i < |added| ==> TargetsPatch(emptyTarget, added)[i] == TargetOp(emptyTarget, added[i])
  {
    if |added| > 0 {
      var init := added[..|added| - 1];
      TargetsPatchAt(emptyTarget, init);
      forall i | 0 <= i < |added|
        ensures TargetsPatch(emptyTarget, added)[i] == TargetOp(emptyTarget, added[i])
      {
        if i < |added| - 1 {
          assert init[i] == added[i];
        }
      }
    }
  }

  /**
   * The mutating handler's patch for a spec missing its quantities: one
   * whole-map "add" per default key, followed by one whole-list "add"
   * when the targets are missing too; a spec with both fields set gets an
   * empty patch.
   */
  lemma MutationPatchShape(spec: SpecV1, order: seq<string>)
    requires |spec.types| == 0 ==> Enumerates(order, DefaultTypes.Keys)
    ensures var patch := CreatePatchOps(spec, Desired, order);
      && |patch| == (if |spec.types| == 0 then |DefaultTypes| else 0) + (if |spec.targets| == 0 then 1 else 0)
      && (|spec.types| == 0 ==> forall i :: 0 <= i < |order| ==>
            patch[i] == PatchOperation("add", TypesPath, TypesValue(map[order[i] := DefaultTypes[order[i]]])))
      && (|spec.targets| == 0 ==> patch[|patch| - 1] == PatchOperation("add", TargetsPath, TargetsValue(["default"])))
  {
    if |spec.types| == 0 {
      forall i | 0 <= i < |order|
        ensures order[i] in DefaultTypes
      {
        assert order[i] in order;
      }
      TypesPatchAt(true, DefaultTypes, order);
      assert |order| == |DefaultTypes.Keys| == |DefaultTypes|;
    }
    TargetsPatchAt(true, Desired.targets);
  }

  // ---------------------------------------------------------------------
  // Applying a patch (RFC 6902, for the paths these patches use)
  // ---------------------------------------------------------------------

  /**
   * One operation applied to a spec.  "add" on an object member creates or
   * replaces it; "replace" needs the member to exist; "-" is an array
   * index only, so on the `types` object it names a member called "-".
   */
  function ApplyOp(spec: SpecV1, op: PatchOperation): Option<SpecV1>
  {
    if op.op == "add" && op.path == TypesPath && op.value.TypesValue? then
      Some(spec.(types := op.value.types))
    else if op.op == "add" && op.path == TargetsPath && op.value.TargetsValue? then
      Some(spec.(targets := op.value.targets))
    else if op.op == "add" && op.path == TargetsPath + "/-" && op.value.ItemValue? then
      Some(spec.(targets := spec.targets + [op.value.item]))
    else if |TypeKeyPrefix| < |op.path| && TypeKeyPrefix <= op.path && op.value.ItemValue? then
      var key := op.path[|TypeKeyPrefix|..];
      if op.op == "add" || (op.op == "replace" && key in spec.types) then
        Some(spec.(types := spec.types[key := op.value.item]))
      else None
    else None
  }

  /** A patch applied operation by operation; any failing operation fails the whole patch. */
  function ApplyPatch(spec: SpecV1, ops: seq<PatchOperation>): Option<SpecV1>
  {
    if |ops| == 0 then Some(spec)
    else
      match ApplyPatch(spec, ops[..|ops| - 1])
      case None => None
      case Some(s) => ApplyOp(s, ops[|ops| - 1])
  }

  /** Applying `a + b` is applying `a`, then `b`. */
  lemma {:induction false} ApplyPatchConcat(spec: SpecV1, a: seq<PatchOperation>, b: seq<PatchOperation>)
    ensures ApplyPatch(spec, a + b) ==
      (match ApplyPatch(spec, a) case None => None case Some(s) => ApplyPatch(s, b))
  {
    if |b| > 0 {
      ApplyPatchConcat(spec, a, b[..|b| - 1]);
      assert (a + b)[..|a + b| - 1] == a + b[..|b| - 1];
    } else {
      assert a + b == a;
    }
  }

  /**
   * As written, the whole-map "add" operations overwrite one another: after
   * the types operations only the last visited key is left.
   */
  lemma {:induction false} TypesPatchKeepsLast(spec: SpecV1, added: map<string, string>, order: seq<string>)
    requires |order| > 0
    requires forall i :: 0 <= i < |order| ==> order[i] in added
    ensures ApplyPatch(spec, TypesPatch(true, added, order))
            == Some(spec.(types := map[order[|order| - 1] := added[order[|order| - 1]]]))
  {
    var init := order[..|order| - 1];
    var k := order[|order| - 1];
    var initOps := TypesPatch(true, added, init);
    var op := PatchOperation("add", TypesPath, TypesValue(map[k := added[k]]));
    assert TypesPatch(true, added, order) == initOps + [op];
    if |init| > 0 {
      TypesPatchKeepsLast(spec, added, init);
    } else {
      assert initOps == [];
    }
    var before := ApplyPatch(spec, initOps);
    assert before.Some? && before.value.targets == spec.targets && before.value.applied == spec.applied;
    ApplyPatchConcat(spec, initOps, [op]);
    ApplySingle(before.value, op);
    ApplyWholeTypes(before, map[k := added[k]]);
  }

  /** A whole-map "add" at /spec/types replaces the quantity map. */
  lemma ApplyWholeTypes(before: Option<SpecV1>, types: map<string, string>)
    ensures before.Some? ==>
      ApplyOp(before.value, PatchOperation("add", TypesPath, TypesValue(types))) == Some(before.value.(types := types))
  {
  }

  /**
   * As written, mutating a ResourceLimiter with no quantities leaves exactly
   * one of the four defaults in its spec, while the targets are defaulted
   * as intended.
   */
  lemma MutationPatchAsWritten(spec: SpecV1, order: seq<string>)
    requires |spec.types| == 0 && Enumerates(order, DefaultTypes.Keys)
    ensures var r := ApplyPatch(spec, CreatePatchOps(spec, Desired, order));
      && r.Some?
      && |r.value.types| == 1
      && r.value.types != DefaultTypes
      && r.value.targets == (if |spec.targets| == 0 then ["default"] else spec.targets)
  {
    var typed := DefaultTypesApplied(spec, order);
    var tail := if |spec.targets| == 0 then TargetsPatch(true, Desired.targets) else [];
    assert CreatePatchOps(spec, Desired, order) == TypesPatch(true, DefaultTypes, order) + tail;
    ApplyPatchConcat(spec, TypesPatch(true, DefaultTypes, order), tail);
    if |spec.targets| == 0 {
      var item := Desired.targets[0];
      TargetsPatchSingle(item);
      ApplySingle(typed, TargetOp(true, item));
    }
  }

  /** A one-namespace list gets a single operation. */
  lemma TargetsPatchSingle(item: string)
    ensures TargetsPatch(true, [item]) == [TargetOp(true, item)]
  {
    assert [item][..0] == [];
  }

  /** The types half of the mutating patch leaves a single default. */
  lemma DefaultTypesApplied(spec: SpecV1, order: seq<string>) returns (typed: SpecV1)
    requires Enumerates(order, DefaultTypes.Keys)
    ensures ApplyPatch(spec, TypesPatch(true, DefaultTypes, order)) == Some(typed)
    ensures typed.targets == spec.targets
    ensures |typed.types| == 1 && typed.types != DefaultTypes
  {
    assert LimitsCpu in DefaultTypes.Keys;
    var last := order[|order| - 1];
    TypesPatchKeepsLast(spec, DefaultTypes, order);
    typed := spec.(types := map[last := DefaultTypes[last]]);
    DefaultTypesNotSingle(last, DefaultTypes[last]);
  }

  /** A one-key map is never the four defaults. */
  lemma DefaultTypesNotSingle(k: string, v: string)
    ensures map[k := v] != DefaultTypes
  {
    if k == LimitsCpu {
      assert LimitsMemory in DefaultTypes;
    } else {
      assert LimitsCpu in DefaultTypes;
    }
  }

  /** A one-operation patch is that operation. */
  lemma ApplySingle(spec: SpecV1, op: PatchOperation)
    ensures ApplyPatch(spec, [op]) == ApplyOp(spec, op)
  {
    assert [op][..0] == [];
  }

  /** The evidently intended patch: one whole-field "add" per field that needs defaulting. */
  function CreatePatchCorrected(spec: SpecV1, desired: SpecV1): seq<PatchOperation>
  {
    (if |spec.types| == 0 then [PatchOperation("add", TypesPath, TypesValue(desired.types))] else [])
    + (if |spec.targets| == 0 then [PatchOperation("add", TargetsPath, TargetsValue(desired.targets))] else [])
  }

  /**
   * The corrected patch fills every empty field with the desired value and
   * keeps every non-empty one; with the handler's defaults nothing is left
   * to mutate afterwards.
   */
  lemma CorrectedPatchDefaults(spec: SpecV1, desired: SpecV1)
    ensures ApplyPatch(spec, CreatePatchCorrected(spec, desired)) == Some(spec.(
      types := if |spec.types| == 0 then desired.types else spec.types,
      targets := if |spec.targets| == 0 then desired.targets else spec.targets))
    ensures desired == Desired ==>
      MutationRequired(ApplyPatch(spec, CreatePatchCorrected(spec, desired)).value) == (false, false)
  {
    var a := if |spec.types| == 0 then [PatchOperation("add", TypesPath, TypesValue(desired.types))] else [];
    var b := if |spec.targets| == 0 then [PatchOperation("add", TargetsPath, TargetsValue(desired.targets))] else [];
    ApplyPatchConcat(spec, a, b);
    if |a| > 0 {
      ApplySingle(spec, a[0]);
    }
    var s := ApplyPatch(spec, a).value;
    if |b| > 0 {
      ApplySingle(s, b[0]);
    }
    if desired == Desired {
      assert LimitsCpu in DefaultTypes;
    }
  }

  /**
   * As written, the targets builder's operation for a non-empty list adds a
   * member "-" to the quantity map and leaves the target list alone.
   */
  lemma AppendTargetAsWritten(spec: SpecV1, item: string)
    ensures ApplyOp(spec, TargetOp(false, item)) == Some(spec.(types := spec.types["-" := item]))
  {
    assert AppendPath[|TypeKeyPrefix|..] == "-";
  }

  /** The evidently intended operation appends to the target list. */
  function TargetOpCorrected(emptyTarget: bool, item: string): PatchOperation
  {
    if emptyTarget then PatchOperation("add", TargetsPath, TargetsValue([item]))
    else PatchOperation("add", TargetsPath + "/-", ItemValue(item))
  }

  /** The corrected operation appends the namespace and leaves the quantities alone. */
  lemma AppendTargetCorrected(spec: SpecV1, item: string)
    ensures ApplyOp(spec, TargetOpCorrected(false, item)) == Some(spec.(targets := spec.targets + [item]))
  {
  }

  // ---------------------------------------------------------------------
  // Properties of the validating handler
  // ---------------------------------------------------------------------

  /** Every container with resources passes the four MustParse calls. */
  predicate AllContainersParse(parse: Parser, containers: seq<Container>)
  {
    forall i :: 0 <= i < |containers| && !MissingResources(containers[i]) ==> ContainerParses(parse, containers[i])
  }

  /**
   * When no MustParse panics, the pod check always answers, and allows the
   * pod exactly when every container sets both limits and requests.
   */
  lemma {:induction false} PodVerdictDecides(parse: Parser, pod: Pod, containers: seq<Container>)
    requires AllContainersParse(parse, containers)
    ensures PodVerdict(parse, pod, containers).Some?
    ensures PodVerdict(parse, pod, containers).value.allowed <==>
      forall i :: 0 <= i < |containers| ==> !MissingResources(containers[i])
    ensures !PodVerdict(parse, pod, containers).value.allowed ==> PodVerdict(parse, pod, containers) == Some(PodDenial(pod))
  {
    if |containers| > 0 && !MissingResources(containers[0]) {
      var rest := containers[1..];
      assert AllContainersParse(parse, rest) by {
        forall i | 0 <= i < |rest| && !MissingResources(rest[i])
          ensures ContainerParses(parse, rest[i])
        {
          assert rest[i] == containers[i + 1];
        }
      }
      PodVerdictDecides(parse, pod, rest);
      if forall i :: 0 <= i < |rest| ==> !MissingResources(rest[i]) {
        forall i | 0 <= i < |containers|
          ensures !MissingResources(containers[i])
        {
          if i > 0 {
            assert containers[i] == rest[i - 1];
          }
        }
      } else {
        var i :| 0 <= i < |rest| && MissingResources(rest[i]);
        assert MissingResources(containers[i + 1]);
      }
    }
  }

  /**
   * As written, a ResourceLimiter with an unparsable quantity gets no
   * response at all: the recovered panic never sets one.
   */
  lemma InvalidQuantityGetsNoResponse(parse: Parser, obj: RawObject)
    requires obj.asLimiter.Success? && !AllQuantitiesValid(parse, obj.asLimiter.value.spec.types)
    ensures ValidateVerdict(parse, obj) == None
  {
  }

  /**
   * A pod's container quantities were decoded by the quantity library, so
   * their printed text parses back, and so does "0" for a missing one: no
   * MustParse in the pod loop panics, and a pod always gets an answer, the
   * one the corrected check gives.
   */
  lemma PodAlwaysAnswered(parse: Parser, pod: Pod)
    requires ParsesZero(parse)
    requires forall i :: 0 <= i < |pod.containers| ==>
      && (pod.containers[i].limits.Some? ==> Decoded(parse, pod.containers[i].limits.value))
      && (pod.containers[i].requests.Some? ==> Decoded(parse, pod.containers[i].requests.value))
    ensures PodVerdict(parse, pod, pod.containers).Some?
    ensures PodVerdict(parse, pod, pod.containers).value == PodVerdictCorrected(parse, pod, pod.containers)
  {
    assert AllContainersParse(parse, pod.containers) by {
      forall i | 0 <= i < |pod.containers| && !MissingResources(pod.containers[i])
        ensures ContainerParses(parse, pod.containers[i])
      {
        var c := pod.containers[i];
        ShowOrZeroReparses(parse, c.limits.value, "cpu");
        ShowOrZeroReparses(parse, c.limits.value, "memory");
        ShowOrZeroReparses(parse, c.requests.value, "cpu");
        ShowOrZeroReparses(parse, c.requests.value, "memory");
      }
    }
    PodVerdictDecides(parse, pod, pod.containers);
    PodVerdictCorrectedDecides(parse, pod, pod.containers);
  }

  /** The pod check as evidently intended: a parse failure is a denial. */
  function PodVerdictCorrected(parse: Parser, pod: Pod, containers: seq<Container>): AdmissionResponse
  {
    if |containers| == 0 then Accepted
    else if MissingResources(containers[0]) then PodDenial(pod)
    else if !ContainerParses(parse, containers[0]) then Rejected(InvalidQuantityMessage)
    else PodVerdictCorrected(parse, pod, containers[1..])
  }

  /** The validating handler as evidently intended: always an answer. */
  function ValidateVerdictCorrected(parse: Parser, obj: RawObject): AdmissionResponse
  {
    match obj.asLimiter
    case Success(rl) => if AllQuantitiesValid(parse, rl.spec.types) then Accepted else Rejected(InvalidQuantityMessage)
    case Failure(err) =>
      match obj.asPod
      case Failure(_) => Rejected(err)
      case Success(pod) => PodVerdictCorrected(parse, pod, pod.containers)
  }

  /** Pod containers pass the corrected check exactly when each sets resources that parse. */
  lemma {:induction false} PodVerdictCorrectedDecides(parse: Parser, pod: Pod, containers: seq<Container>)
    ensures PodVerdictCorrected(parse, pod, containers).allowed <==>
      forall i :: 0 <= i < |containers| ==> !MissingResources(containers[i]) && ContainerParses(parse, containers[i])
    ensures PodVerdict(parse, pod, containers).Some? ==>
      PodVerdict(parse, pod, containers).value == PodVerdictCorrected(parse, pod, containers)
  {
    if |containers| > 0 && !MissingResources(containers[0]) && ContainerParses(parse, containers[0]) {
      var rest := containers[1..];
      PodVerdictCorrectedDecides(parse, pod, rest);
      if forall i :: 0 <= i < |rest| ==> !MissingResources(rest[i]) && ContainerParses(parse, rest[i]) {
        forall i | 0 <= i < |containers|
          ensures !MissingResources(containers[i]) && ContainerParses(parse, containers[i])
        {
          if i > 0 {
            assert containers[i] == rest[i - 1];
          }
        }
      } else {
        var i :| 0 <= i < |rest| && !(!MissingResources(rest[i]) && ContainerParses(parse, rest[i]));
        assert containers[i + 1] == rest[i];
      }
    }
  }

  /**
   * The corrected handler allows a ResourceLimiter exactly when every
   * quantity parses, and agrees with the handler as written wherever that
   * one answers at all.
   */
  lemma ValidateCorrectedDecides(parse: Parser, obj: RawObject)
    ensures obj.asLimiter.Success? ==>
      (ValidateVerdictCorrected(parse, obj).allowed <==> AllQuantitiesValid(parse, obj.asLimiter.value.spec.types))
    ensures ValidateVerdict(parse, obj).Some? ==> ValidateVerdict(parse, obj).value == ValidateVerdictCorrected(parse, obj)
  {
    if obj.asLimiter.Failure? && obj.asPod.Success? {
      PodVerdictCorrectedDecides(parse, obj.asPod.value, obj.asPod.value.containers);
    }
  }
}
