# ResourceLimiter: a Dafny model of the controller, the admission webhooks and the conversion webhook

ResourceLimiter is a Kubernetes custom resource. It enforces CPU and memory quotas per namespace. A ResourceLimiter (API version `v1beta1`) names a list of target namespaces, a map of four quantities (`limits.cpu`, `requests.cpu`, `limits.memory`, `requests.memory`) and an `applied` flag. This project models the decision logic of five pieces of the repository and proves properties of it.

- **The reconciler** (`controllers/resourcelimiter_controller.go`), in `controller.dfy`.
  - The class `Controller.Reconciler` owns an abstract API server: the limiter, the set of namespaces, and the ResourceQuota objects keyed by (namespace, name).
  - Every API call may fail. A fixed set of failing calls stands for "an error other than NotFound".
  - `Reconcile` fetches the limiter and attaches the finalizer with a merge patch. It then dispatches on the deletion flag to `ReconcileDelete` (cleanup) or `ReconcileApply` (convergence).
  - `ReconcileApply` walks the targets in order. It creates, updates or deletes the quota `rl-<ns>-<idx>`, then replaces the status.
  - Each method is proved against a pure function of the store (`ApplyFrom`, `CleanupFrom`, `DeletePass`, `ReconcileWith`). The module `ControllerProperties` proves what those functions guarantee.
- **The admission webhook server** (`pkg/cmd/webhook.go`), in `admission.dfy`.
  - The JSON Patch builders and the mutating handler.
  - The validating handler with its pod-container check.
  - The HTTP gate: empty body, exact `application/json` content type, UID echo.
  - A small interpreter for the RFC 6902 operations these patches use. Section 4.1 of RFC 6902: `add` on an object member creates or replaces it. Section 4 of RFC 6902: `-` is an array index only. With it the model states what a patch does to the object.
- **The v1beta1 defaulter and validators** (`api/v1beta1/resourcelimiter_webhook.go`), in `limiter_webhook.dfy`.
- **The conversion between v1beta1 and the hub version v1beta2** (`api/v1beta1/resourcelimiter_conversion.go`), in `limiter_conversion.dfy`.
  - v1beta2 holds one quota record per namespace.
- **The conversion webhook** (`pkg/conversion/conversion.go`), in `conversion_webhook.dfy`.
  - Status helpers, the per-object conversion loop, serializer selection by media type, and the request handler.

Shared definitions:
- `api_types.dfy`: the resource types.
  - `ResourceLimiter` and `ResourceLimiterV2` are classes, because the conversion functions and the defaulter write their fields in place.
  - Status is a map of per-quota records, the way the controller uses it.
- `quantity.dfy`: Kubernetes quantities.
  - The quantity grammar is a parameter `parse: string -> Option<Quantity>`.
  - `MustParse` either yields a value or panics with the text.
- `wrappers.dfy`: `Option` and `Result`.

Go map iteration order is unspecified. Loops over maps choose the next key with `:|`, and the builders that depend on the order return that order as a ghost out-parameter.

Where the system's design description and its code disagree, the model follows the code:
- `Reconcile` returns the lookup error when the ResourceLimiter is missing (lines 74-76). NotFound is not ignored, so a deleted limiter gives an error rather than a quiet no-op.
- `reconcileDelete` fails when a target's quota is missing (lines 144-147). It does not tolerate "already gone" quotas.
- On the create path, `reconcile` returns right after creating the first missing quota (line 246), with no status write. The `0/<hard>` entry it builds is discarded.
- No reserved namespace is skipped.
- The finalizer patch in `Reconcile` is empty (see Findings).

## Model

| member | source | states |
|---|---|---|
| `Quantities.MustParse` | controllers/resourcelimiter_controller.go:214-217 | a value exactly when the text is a valid quantity, and that value is the parse of the text; otherwise a panic carrying the text |
| `Quantities.ShowOrZeroReparses` | pkg/cmd/webhook.go:220-228 | for a map of decoded quantities and a grammar that parses "0" to zero, the printed text of the quantity under a name (or "0" when absent) parses back to that quantity (or to zero) |
| `Quantities.DecodedAllowsRejection` | pkg/cmd/webhook.go:220-228 | the two parsing assumptions still admit a grammar that rejects any text other than "0" that no decoded quantity prints |
| `Quantities.ShowOrZero` | controllers/resourcelimiter_controller.go:252-263 | a usage that is present prints as its canonical text; a missing one prints as the zero quantity "0" |
| `LimiterWebhook.Default` | api/v1beta1/resourcelimiter_webhook.go:46-58 | the spec becomes its defaulted form; metadata and status are unchanged |
| `LimiterWebhook.DefaultedFacts` | api/v1beta1/resourcelimiter_webhook.go:49-57 | targets and `applied` are kept (an empty target list stays empty); an empty quantity map becomes exactly the four defaults; a non-empty map is kept as is, missing keys included; defaulting is idempotent |
| `LimiterWebhook.ValidateTypes` | api/v1beta1/resourcelimiter_webhook.go:65-86 | the parse loop with the deferred recover returns no error whatever the values; it panics exactly when some value is not a valid quantity |
| `LimiterWebhook.ValidateCreate` | api/v1beta1/resourcelimiter_webhook.go:73-87 | never returns an error; panics (and recovers) exactly when some quantity is invalid |
| `LimiterWebhook.ValidateUpdate` | api/v1beta1/resourcelimiter_webhook.go:90-104 | same as ValidateCreate, and the old object plays no part |
| `LimiterWebhook.ValidateDelete` | api/v1beta1/resourcelimiter_webhook.go:107-112 | always returns no error |
| `LimiterWebhook.ValidateTypesCorrected` | api/v1beta1/resourcelimiter_webhook.go:65-87 | the same parse loop with the recovered panic written to the named error result: no error exactly when every quantity is valid, and an error names the text of a quantity that does not parse |
| `LimiterWebhook.InvalidQuantityAccepted` | api/v1beta1/resourcelimiter_webhook.go:65-87 | for a map holding an invalid quantity, the validator as written returns no error, while the corrected one returns the parse error of an invalid quantity |
| `LimiterConversion.ConvertTo` | api/v1beta1/resourcelimiter_conversion.go:11-30 | a destination that is not a v1beta2 object gets the "wroong" error and is not written; otherwise its spec becomes the converted records with `applied` copied, and the name is copied |
| `LimiterConversion.ConvertFrom` | api/v1beta1/resourcelimiter_conversion.go:33-58 | a source that is not v1beta2 gets the error and nothing changes; otherwise the spec becomes the collapsed form of the records, and an empty record list fails with "the quotas field is 0" after targets and types were reset and `applied` copied |
| `LimiterConversion.BroadcastAt` | api/v1beta1/resourcelimiter_conversion.go:17-26 | one record per target, in target order, each named after its target, with the four values read from the map ("" when missing) |
| `LimiterConversion.ConvertedQuotasShape` | api/v1beta1/resourcelimiter_conversion.go:16-26 | the converted list has 2·n records: n zero-valued records from the pre-sized slice, then one record per target in order |
| `LimiterConversion.NamesAt` | api/v1beta1/resourcelimiter_conversion.go:49-50 | the collapsed targets are the records' namespace names, in order, duplicates kept |
| `LimiterConversion.OverwriteAllKeys` | api/v1beta1/resourcelimiter_conversion.go:51-54 | writing the four keys over a map holding at most those keys yields exactly the record's four values |
| `LimiterConversion.CollapseUniform` | api/v1beta1/resourcelimiter_conversion.go:43-55 | when every record carries the same quantities, the collapsed map is exactly those four values and the targets are the names |
| `LimiterConversion.UniformRecordsSurviveCollapse` | api/v1beta1/resourcelimiter_conversion.go:11-58 | records with identical quantities survive collapsing and then broadcasting again unchanged; the broadcast here is the per-target record list without the zero-valued prefix `ConvertTo` adds as written |
| `LimiterConversion.RoundTripAsWritten` | api/v1beta1/resourcelimiter_conversion.go:16-26 | converting to v1beta2 and back prepends one empty namespace name per target, so a non-empty target list never survives the round trip |
| `LimiterConversion.RoundTripCorrected` | api/v1beta1/resourcelimiter_conversion.go:16-26 | with an empty-but-sized slice, the round trip gives back the original spec whenever the target list is non-empty and the map holds exactly the four keys; an empty target list gives no records, and `ConvertFrom` then fails with "the quotas field is 0" |
| `Admission.MutationRequired` | pkg/cmd/webhook.go:54-66 | the pair is (types missing, targets missing), each an if-and-only-if on emptiness |
| `Admission.UpdateResourceLimiterTypes` | pkg/cmd/webhook.go:68-88 | visits every key of `added` exactly once, in some order, and emits one operation per key in that order: a whole-map `add` at /spec/types for an empty target, a `replace` at /spec/types/<key> otherwise |
| `Admission.TypesPatchAt` | pkg/cmd/webhook.go:68-88 | the types patch has one operation per visited key, and operation i is the one for the i-th key |
| `Admission.UpdateResourceLimiterTargets` | pkg/cmd/webhook.go:90-110 | one operation per added item, in order: a one-element list `add` at /spec/targets for an empty target, an `add` at /spec/types/- otherwise |
| `Admission.TargetsPatchAt` | pkg/cmd/webhook.go:90-110 | the targets patch has one operation per item, and operation i is the one for item i |
| `Admission.CreatePatch` | pkg/cmd/webhook.go:113-126 | the patch is the types operations (only when types are missing) followed by the target operations (only when targets are missing) |
| `Admission.MutationPatchShape` | pkg/cmd/webhook.go:113-151 | against the built-in desired object, the patch has one whole-map `add` per default key, then one `add` of ["default"] when targets are missing; a spec with both fields set gets an empty patch |
| `Admission.Mutate` | pkg/cmd/webhook.go:129-169 | an undecodable object is answered "not allowed" with the decode message; otherwise the answer is allowed, with the defaulting patch and the JSONPatch type |
| `Admission.TypesPatchKeepsLast` | pkg/cmd/webhook.go:68-88 | applying the whole-map `add` operations in sequence leaves only the last visited key |
| `Admission.MutationPatchAsWritten` | pkg/cmd/webhook.go:68-126 | the mutating patch applied to a spec with no quantities leaves exactly one quantity, never the four defaults, while the targets default to ["default"] |
| `Admission.CorrectedPatchDefaults` | pkg/cmd/webhook.go:113-126 | the corrected patch fills exactly the missing fields with the desired ones, after which no further mutation is required |
| `Admission.AppendTargetAsWritten` | pkg/cmd/webhook.go:101-106 | the operation for a non-empty target list adds a member "-" to the quantity map and leaves the targets alone |
| `Admission.AppendTargetCorrected` | pkg/cmd/webhook.go:101-106 | the corrected operation appends the item to the target list and leaves the quantities alone |
| `Admission.Validate` | pkg/cmd/webhook.go:178-254 | a missing request gets no response; otherwise the answer is the verdict below, computed by the container loop and the quantity loop |
| `Admission.PodVerdictDecides` | pkg/cmd/webhook.go:210-231 | when the quantities of every container that has them parse, the pod check answers, allowing exactly when every container sets limits and requests, and otherwise denying with the pod's denial message |
| `Admission.InvalidQuantityGetsNoResponse` | pkg/cmd/webhook.go:171-254 | a ResourceLimiter with an invalid quantity gets no response at all: the recover swallows the panic and the deny branch is unreachable |
| `Admission.PodAlwaysAnswered` | pkg/cmd/webhook.go:210-231 | when the containers' quantities are decoded ones and "0" parses, no container's MustParse panics, so a pod always gets an answer, the same one the corrected check gives |
| `Admission.PodVerdictCorrectedDecides` | pkg/cmd/webhook.go:210-246 | the corrected pod check allows exactly when every container has limits and requests that parse, and agrees with the one as written wherever that one answers |
| `Admission.ValidateCorrectedDecides` | pkg/cmd/webhook.go:178-254 | the corrected handler agrees with the handler as written wherever that one answers (for a ResourceLimiter it allows exactly when every quantity is valid, as its definition reads) |
| `Admission.Gate` | pkg/cmd/webhook.go:257-276 | a request reaches the handler exactly when its body is non-empty and its content type is exactly application/json; otherwise the gate's error reply is sent |
| `Admission.ServeMutate` | pkg/cmd/webhook.go:257-314 | the gate answers first; an undecodable review gets a not-allowed response; a decoded review gets the mutation's response with the request UID stamped on it |
| `Admission.ServeValidate` | pkg/cmd/webhook.go:317-374 | the gate answers first; an undecodable review gets a not-allowed response; otherwise the verdict, when there is one, carries the request UID |
| `ConversionWebhook.FailureResponse` | pkg/conversion/conversion.go:123-131 | no converted objects, status Failure, and the given message |
| `ConversionWebhook.StatusErrorWithMessage` | pkg/conversion/conversion.go:133-138 | status Failure, never Success, with the given message |
| `ConversionWebhook.StatusSucceed` | pkg/conversion/conversion.go:140-144 | status Success with no message |
| `ConversionWebhook.ConvertV1beta1IntoV1beta2` | pkg/conversion/conversion.go:31-46 | always Success, with the converted records and `applied` of the input and its name; the same-version guard and the conversion error cannot fire |
| `ConversionWebhook.DoConversion` | pkg/conversion/conversion.go:186-254 | the loop's response is the all-or-nothing outcome of the request |
| `ConversionWebhook.ConvertAllFacts` | pkg/conversion/conversion.go:189-214 | success exactly when every object decodes; then one converted object per input, in order; otherwise the failure reports the first object that does not decode |
| `ConversionWebhook.ConversionOutcomeStatus` | pkg/conversion/conversion.go:186-254 | Success exactly when the desired version is v1beta1, or v1beta2 with every object decoded; a failure carries no objects; a v1beta2 success has one object per input; the response UID is left empty |
| `ConversionWebhook.SplitFirst` | pkg/conversion/conversion.go:157 | splits at the first separator into two parts whose first part has no separator; with no separator there is one part, the whole text |
| `ConversionWebhook.InputSerializerExact` | pkg/conversion/conversion.go:156-162 | JSON exactly for application/json, YAML exactly for application/yaml, none for anything else |
| `ConversionWebhook.GetOutputSerializer` | pkg/conversion/conversion.go:164-182 | an empty Accept selects JSON; otherwise none exactly when no clause matches either media type, and a choice is made by the first clause that matches (exactly, by `type/*`, or `*/*`) |
| `ConversionWebhook.ServeConvert` | pkg/conversion/conversion.go:65-115 | an unknown content type gives 400 before decoding; a decode failure yields a Failure response; a decoded request yields its outcome with the request UID; the request is cleared before encoding; an empty Accept, or one with a clause that matches, gets the encoded review in the serializer of the first matching clause; an Accept that matches nothing gives 400 |
| `Controller.EventPasses` | controllers/resourcelimiter_controller.go:56-62 | an update passes exactly when the generation or the resourceVersion changed; every other event passes |
| `Controller.QuotaNameInjective` | controllers/resourcelimiter_controller.go:218 | two quota names `rl-<ns>-<idx>` are equal only for the same namespace and the same position |
| `Controller.ParseHard` | controllers/resourcelimiter_controller.go:168-173 | succeeds exactly when the four values (missing ones read as "") are valid, giving a map of exactly the four keys holding their parses; a failure reports an invalid text drawn from the map, or the empty text of a missing key |
| `Controller.Without` | controllers/resourcelimiter_controller.go:159 | removing the finalizer drops every occurrence of it and keeps every other value, never growing the list |
| `Controller.CreateMergePatch` | controllers/resourcelimiter_controller.go:83-85 | the merge patch between two versions is empty exactly when their finalizers agree, and otherwise sets the modified finalizers |
| `Controller.ApplyStep` | controllers/resourcelimiter_controller.go:199-287 | for one target: a stop leaves the store unchanged unless it is the create of a missing quota with the parsed hard limits and the limiter as owner; going on means the namespace exists and either the existing quota's hard limits were replaced and a `<used>/<hard>` entry added, or (not applied) its quota is gone |
| `Controller.CleanupStep` | controllers/resourcelimiter_controller.go:131-154 | for one target: a stop is an error with the store unchanged; a missing namespace is skipped; otherwise the target's quota existed and is deleted |
| `Controller.FinalizerRemoval` | controllers/resourcelimiter_controller.go:156-165 | quotas and namespaces are unchanged; a failure is an error and changes nothing; success needs a stored limiter, and when the limiter held the finalizer the stored one no longer does (or is gone) |
| `Controller.Reconciler.PatchLimiter` | controllers/resourcelimiter_controller.go:82-88 | the patch is computed from the base and the object as they are when the call is made, applied to the stored limiter, and the server's answer replaces the object |
| `Controller.Reconciler.UpdateStatus` | controllers/resourcelimiter_controller.go:297-305 | the object's status becomes exactly the given status (a full replacement, not a merge), and that status is written to the store |
| `Controller.Reconciler.ApplyTarget` | controllers/resourcelimiter_controller.go:199-287 | one iteration of the walk does what ApplyStep describes |
| `Controller.Reconciler.WalkTargets` | controllers/resourcelimiter_controller.go:199-287 | the target loop leaves the store and outcome of the walk when it returns early, and otherwise leaves exactly the status update of the walk to do |
| `Controller.Reconciler.ReconcileApply` | controllers/resourcelimiter_controller.go:175-295 | the spec is defaulted in place, and the store and outcome are those of the pass function |
| `Controller.Reconciler.RemoveFinalizer` | controllers/resourcelimiter_controller.go:156-165 | the store and outcome are those of the finalizer removal computed from a separate copy |
| `Controller.Reconciler.ReconcileDelete` | controllers/resourcelimiter_controller.go:117-166 | the store and outcome are those of the deletion pass |
| `Controller.Reconciler.Reconcile` | controllers/resourcelimiter_controller.go:70-100 | the store and outcome are those of the pass as written, whose patch base aliases the patched object |
| `ControllerProperties.NamesFromCount` | controllers/resourcelimiter_controller.go:258 | the targets' status names are pairwise distinct, so there are as many as there are targets |
| `ControllerProperties.ApplyFromFrame` | controllers/resourcelimiter_controller.go:199-294 | the walk creates no namespace, changes the limiter only by writing its status, and leaves every quota that is not a remaining target's managed quota untouched |
| `ControllerProperties.ApplyFromKeepsExisting` | controllers/resourcelimiter_controller.go:250-267 | with `applied`, no quota is removed, and an existing quota keeps its usage and owner and holds its old hard limits or the parsed ones |
| `ControllerProperties.ApplyFromCreatesAtMostOne` | controllers/resourcelimiter_controller.go:220-246 | with `applied`, a pass creates at most one quota, with exactly the parsed hard limits and the limiter as owner, and a pass that creates one ends successfully without a status write |
| `ControllerProperties.ApplyFromReady` | controllers/resourcelimiter_controller.go:250-292 | a completed `applied` walk found every namespace and every quota, set every target quota's hard limits, created nothing, and wrote Ready into the stored limiter |
| `ControllerProperties.ApplyFromReadyKeys` | controllers/resourcelimiter_controller.go:250-292 | the Ready status of a completed `applied` walk names exactly the targets' quotas on top of the entries gathered earlier, and an earlier entry keeps its value unless a target has its name |
| `ControllerProperties.ApplyFromReadyEntries` | controllers/resourcelimiter_controller.go:250-292 | the Ready status of a completed `applied` walk holds, for every target, the entry `<used>/<hard>` computed from the usage its quota had before the walk |
| `ControllerProperties.ApplyPassReady` | controllers/resourcelimiter_controller.go:175-295 | a completed `applied` pass writes Ready with exactly one entry per target, named after it |
| `ControllerProperties.ApplyFromStopped` | controllers/resourcelimiter_controller.go:271-294 | a successful walk without `applied` removes exactly the managed quotas of the targets and writes Stopped with an empty map |
| `ControllerProperties.CleanupFromFacts` | controllers/resourcelimiter_controller.go:131-165 | cleanup only deletes quotas, only managed ones, and creates no namespace; a failed cleanup leaves the limiter alone; a successful cleanup deletes exactly the managed quotas of the targets whose namespace exists and then removes the finalizer |
| `ControllerProperties.DeletePassFacts` | controllers/resourcelimiter_controller.go:117-166 | without the finalizer the pass fails naming the limiter and changes nothing; a Stopped limiter keeps its quotas; the finalizer goes only when the pass succeeds, after the managed quotas of existing namespaces are deleted |
| `ControllerProperties.DispatchFrame` | controllers/resourcelimiter_controller.go:94-99 | both branches create no namespace and touch no quota outside the limiter's managed ones |
| `ControllerProperties.ReconcileFrame` | controllers/resourcelimiter_controller.go:70-100 | a whole pass over a stored limiter creates no namespace and touches no quota other than the limiter's managed quotas |
| `ControllerProperties.FinalizerNeverAttached` | controllers/resourcelimiter_controller.go:82-92 | as written, a pass over a live limiter without the finalizer never leaves the finalizer stored |
| `ControllerProperties.FinalizerAttachedCorrected` | controllers/resourcelimiter_controller.go:82-92 | with the patch computed from an earlier copy, the finalizer is stored once the patch call succeeds, whatever the rest of the pass does |

## Left out

- Process bootstrap, TLS, flag parsing and HTTP serving (`pkg/cmd/main.go`, `pkg/conversion/main.go`), `SetupWithManager` and `SetupWebhookWithManager`: I/O and framework wiring.
- Logging, in every file.
- The quantity grammar and `Quantity.String()` of the Kubernetes libraries: foreign code. The grammar is a parameter; a parsed value is represented by its canonical text. Where a quantity comes out of decoding, the lemmas make two assumptions. First, a decoded quantity's canonical text parses back to it (`Quantities.Decoded`). Second, "0" parses to the zero value (`Quantities.ParsesZero`). Neither forces the grammar to accept any other text (`Quantities.DecodedAllowsRejection`).
- JSON and YAML decoding and encoding: foreign code. A payload is represented by what decoding makes of it, a value or an error message. This includes the type assertions of `doConversion` on the decoded object (pkg/conversion/conversion.go:197-203), which would panic on real payloads; the model treats a successful decode as yielding the three spec fields.
- `goautoneg` Accept parsing: foreign code. The Accept header is given as its already-parsed clause list.
- The escaping of `~` and `/` in patch paths (section 3 of RFC 6901): the keys written by the patches here contain none.
- The 500 replies when encoding or writing a response fails: the encoders are foreign code.
- A body that cannot be read is folded into an empty body, which is what the handlers make of it.
- The controller-runtime work queue, worker concurrency, watches, owner-reference garbage collection, optimistic-lock conflicts and the status subresource. Each API call is a step on the abstract store that fails with NotFound or with another error.
- The Namespace objects themselves: only their existence matters to the passes.
- `Controller.Reconciler.PatchLimiter`: the server's answer replaces the patched object wholesale. Decoding JSON into an existing Go object leaves fields absent from the answer in place; this differs only when the stored finalizer list is empty.
- `Controller.ParseHard`: the resource names of the quota's `hard` and `used` maps are taken to be the four quantity keys, which is what the Kubernetes constants spell.
- `LimiterWebhook.PanicMessage`: the error text carries the rejected quantity but not the parser's own reason, which comes from the foreign grammar.
- `ConversionWebhook.GetOutputSerializer`: when the deciding clause is a wildcard, Go map iteration picks JSON or YAML; the contract states only that the chosen one matches that clause.
- The v1beta2 to v1beta1 direction of the conversion webhook: it is commented out in the source, and the model keeps the resulting empty success.
- The test files: their assertions are not part of the system's behaviour.

## Findings

The main model keeps each behaviour as written. Each corrected member stands next to it with the intended property proved.

| source | as written | input that shows it | evidently intended | confidence | as-written member | corrected member |
|---|---|---|---|---|---|---|
| controllers/resourcelimiter_controller.go:82-92 | `client.MergeFrom(newrl)` keeps a reference to the object that then gets the finalizer, so the patch compares the object with itself and is empty | a new ResourceLimiter without the finalizer, not being deleted | the finalizer is stored by the first pass, as in reconcileDelete's `MergeFrom(newrl.DeepCopy())` | not executed; follows from controller-runtime's documented MergeFrom semantics | `ControllerProperties.FinalizerNeverAttached` | `ControllerProperties.FinalizerAttachedCorrected` |
| pkg/cmd/webhook.go:68-88 | one whole-map `add` at /spec/types per default key, so each replaces the previous one | a ResourceLimiter with no quantities sent to the mutating webhook | the four defaults end up in the spec | not executed | `Admission.MutationPatchAsWritten` | `Admission.CorrectedPatchDefaults` |
| pkg/cmd/webhook.go:101-106 | the append operation for a non-empty target list points at /spec/types/- | `updateResourceLimiterTargets(["a"], ["b"])` (latent: createPatch calls it only for an empty list) | append "b" at /spec/targets/- | not executed | `Admission.AppendTargetAsWritten` | `Admission.AppendTargetCorrected` |
| api/v1beta1/resourcelimiter_conversion.go:16-26 | `make` with a length, then `append`, gives 2·n records, the first n empty | targets ["a"] converted to v1beta2 and back give targets ["", "a"] | n records, and the round trip gives back the spec | not executed | `LimiterConversion.RoundTripAsWritten` | `LimiterConversion.RoundTripCorrected` |
| pkg/cmd/webhook.go:171-254 | `er` is never assigned (line 191 shadows it, recordR writes its own copy); the recovered panic leaves a nil response | a ResourceLimiter with quantity "abc" sent to the validating webhook | deny with the parse error | not executed | `Admission.InvalidQuantityGetsNoResponse` | `Admission.ValidateCorrectedDecides` |
| api/v1beta1/resourcelimiter_webhook.go:65-87 | `err` is never assigned and the recovered panic returns nil | a ResourceLimiter with quantity "abc" | return the parse error | not executed | `LimiterWebhook.InvalidQuantityAccepted` | `LimiterWebhook.ValidateTypesCorrected` |
