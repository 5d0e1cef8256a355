/**
 * The ResourceLimiter resource in its two schema versions, the status the
 * controller publishes, and the constants shared by the controller and the
 * webhooks.
 */
module ApiTypes {

  // The four quota dimensions, used as keys of the v1beta1 `types` map.
  const LimitsCpu: string := "limits.cpu"
  const LimitsMemory: string := "limits.memory"
  const RequestsCpu: string := "requests.cpu"
  const RequestsMemory: string := "requests.memory"

  /** The four built-in quantities that an empty `types` map is defaulted to. */
  const DefaultTypes: map<string, string> :=
    map[LimitsCpu := "2", LimitsMemory := "200Mi", RequestsCpu := "1", RequestsMemory := "150Mi"]

  // Status states and the finalizer name.  The repository references these
  // constants without defining them; only their distinctness matters here.
  const DefaultFinalizer: string := "resourcelimiter.io/finalizer"
  const Ready: string := "Ready"
  const Stopped: string := "Stopped"

  /** The object metadata the controller and its event filter look at. */
  datatype ObjectMeta = ObjectMeta(
    name: string,
    generation: int,
    resourceVersion: string,
    finalizers: seq<string>,
    deleting: bool)  // the deletion timestamp is set

  /** Spec of version v1beta1: target namespaces, one flat map of quantities, the toggle. */
  datatype SpecV1 = SpecV1(targets: seq<string>, types: map<string, string>, applied: bool)

  /** One status entry: "<used>/<hard>" for each dimension of one managed quota. */
  datatype QuotaStatus = QuotaStatus(
    namespace: string,
    cpuLimits: string,
    cpuRequests: string,
    memLimits: string,
    memRequests: string)

  /** Status as the controller writes it: a state and the per-quota entries. */
  datatype StatusV1 = StatusV1(state: string, quotas: map<string, QuotaStatus>)

  /** A v1beta1 ResourceLimiter as a value (what the store holds and a Get returns). */
  datatype LimiterV1 = LimiterV1(meta: ObjectMeta, spec: SpecV1, status: StatusV1)

  /** One per-namespace record of version v1beta2. */
  datatype QuotaRecord = QuotaRecord(
    namespaceName: string,
    cpuRequest: string,
    cpuLimit: string,
    memLimit: string,
    memRequest: string)

  /** The record with every field empty (Go's zero value). */
  const ZeroRecord: QuotaRecord := QuotaRecord("", "", "", "", "")

  /** Spec of version v1beta2: per-namespace records and the toggle. */
  datatype SpecV2 = SpecV2(quotas: seq<QuotaRecord>, applied: bool)

  /** A v1beta2 ResourceLimiter as a value. */
  datatype LimiterV2 = LimiterV2(meta: ObjectMeta, spec: SpecV2)

  /** Metadata with every field at Go's zero value. */
  const EmptyMeta: ObjectMeta := ObjectMeta("", 0, "", [], false)

  /** Reading a Go map of strings: an absent key gives the empty string. */
  function TypeValue(types: map<string, string>, key: string): string
  {
    if key in types then types[key] else ""
  }

  /** A v1beta1 ResourceLimiter object, whose methods update its fields in place. */
  class ResourceLimiter {
    var meta: ObjectMeta
    var spec: SpecV1
    var status: StatusV1

    constructor (meta: ObjectMeta, spec: SpecV1, status: StatusV1)
      ensures this.meta == meta && this.spec == spec && this.status == status
    {
      this.meta := meta;
      this.spec := spec;
      this.status := status;
    }

    function Value(): LimiterV1
      reads this
    {
      LimiterV1(meta, spec, status)
    }
  }

  /** A v1beta2 ResourceLimiter object (the conversion hub). */
  class ResourceLimiterV2 {
    var meta: ObjectMeta
    var spec: SpecV2

    constructor ()
      ensures meta == EmptyMeta && spec == SpecV2([], false)
    {
      meta := EmptyMeta;
      spec := SpecV2([], false);
    }

    function Value(): LimiterV2
      reads this
    {
      LimiterV2(meta, spec)
    }
  }
}
