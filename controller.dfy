/**
 * The ResourceLimiter reconciler.  Each pass reads the limiter, tries to
 * register the finalizer, and then either cleans up (the object is being
 * deleted) or walks the target namespaces: with `applied` set it creates or
 * updates one ResourceQuota per target, otherwise it deletes them, and it
 * finishes by replacing the limiter's status.
 *
 * The API server is the reconciler's store (the limiter, the namespaces
 * and the quotas); every call on it may fail, which the model expresses as
 * a fixed set of failing calls.  Each method is proved against a pure
 * function giving the state and outcome of the whole pass.
 */
module Controller {
  import opened Wrappers
  import opened ApiTypes
  import opened Quantities
  import LimiterWebhook

  // ---------------------------------------------------------------------
  // Quota names
  // ---------------------------------------------------------------------

  function DigitChar(d: nat): char
    requires d < 10
  {
    (48 + d) as char
  }

  /** The decimal rendering of `n`, as the `%d` verb prints it. */
  function Decimal(n: nat): (s: string)
    ensures |s| >= 1
    ensures |s| == 1 <==> n < 10
    ensures forall k :: 0 <= k < |s| ==> '0' <= s[k] <= '9'
  {
    if n < 10 then [DigitChar(n)] else Decimal(n / 10) + [DigitChar(n % 10)]
  }

  /** The name of the quota managed for the target at position `idx`. */
  function QuotaName(ns: string, idx: nat): string
  {
    "rl-" + ns + "-" + Decimal(idx)
  }

  lemma {:induction false} DecimalInjective(n: nat, m: nat)
    requires Decimal(n) == Decimal(m)
    ensures n == m
  {
    if n >= 10 {
      var s := Decimal(n);
      assert Decimal(n / 10) == s[..|s| - 1] == Decimal(m / 10);
      DecimalInjective(n / 10, m / 10);
      assert DigitChar(n % 10) == s[|s| - 1] == DigitChar(m % 10);
    }
  }

  /** The part after the last separator is determined by the whole string. */
  lemma SplitAtLast(a1: string, b1: string, a2: string, b2: string, sep: char)
    requires a1 + [sep] + b1 == a2 + [sep] + b2
    requires sep !in b1 && sep !in b2
    ensures a1 == a2 && b1 == b2
  {
    var s := a1 + [sep] + b1;
    assert s[|a1|] == sep && s[|a2|] == sep;
    assert forall k :: |a1| < k < |s| ==> s[k] == b1[k - |a1| - 1];
    assert forall k :: |a2| < k < |s| ==> s[k] == b2[k - |a2| - 1];
    assert |a1| == |a2|;
    assert a1 == s[..|a1|] == a2;
    assert b1 == s[|a1| + 1..] == b2;
  }

  /** Distinct (namespace, position) pairs get distinct quota names. */
  lemma QuotaNameInjective(ns1: string, i1: nat, ns2: string, i2: nat)
    requires QuotaName(ns1, i1) == QuotaName(ns2, i2)
    ensures ns1 == ns2 && i1 == i2
  {
    var s := QuotaName(ns1, i1);
    assert s[3..] == ns1 + "-" + Decimal(i1);
    assert s[3..] == ns2 + "-" + Decimal(i2);
    assert '-' !in Decimal(i1) && '-' !in Decimal(i2);
    SplitAtLast(ns1, Decimal(i1), ns2, Decimal(i2), '-');
    DecimalInjective(i1, i2);
  }

  // ---------------------------------------------------------------------
  // The store and its calls
  // ---------------------------------------------------------------------

  datatype QuotaKey = QuotaKey(namespace: string, name: string)

  /** A ResourceQuota: its hard limits, the usage the quota system reports, its controller owner. */
  datatype ResourceQuota = ResourceQuota(hard: map<string, Quantity>, used: map<string, Quantity>, owner: Option<string>)

  /** The calls a pass makes on the API server. */
  datatype Call =
    | LimiterGet
    | LimiterPatch
    | LimiterRefetch
    | NamespaceGet(ns: string)
    | QuotaGet(key: QuotaKey)
    | OwnerSet(key: QuotaKey)
    | QuotaCreate(key: QuotaKey)
    | QuotaUpdate(key: QuotaKey)
    | QuotaDelete(key: QuotaKey)
    | StatusUpdate

  datatype Error = NotFound(call: Call) | Fault(call: Call) | NoFinalizer(name: string)

  /** How a pass ends: success, a returned error, or a MustParse panic. */
  datatype Outcome = Ok | Err(error: Error) | Panicked(text: string)

  /** What the API server holds: the reconciled limiter, the namespaces, the quotas. */
  datatype Cluster = Cluster(limiter: Option<LimiterV1>, namespaces: set<string>, quotas: map<QuotaKey, ResourceQuota>)

  /** The calls that fail with an error other than NotFound, and the quantity grammar. */
  datatype Env = Env(faults: set<Call>, parse: Parser)

  /**
   * The result of a pass: the store afterwards, the outcome, and the status
   * the pass assigned to its in-memory object (None when it got no that far).
   */
  datatype Pass = Pass(cluster: Cluster, outcome: Outcome, status: Option<StatusV1>)

  /** The key of the quota managed for target position `i`. */
  function TargetKey(targets: seq<string>, i: nat): QuotaKey
    requires i < |targets|
  {
    QuotaKey(targets[i], QuotaName(targets[i], i))
  }

  /** The managed quotas of the targets from position `i` on. */
  ghost function TargetKeys(targets: seq<string>, i: nat): set<QuotaKey>
  {
    set j | i <= j < |targets| :: TargetKey(targets, j)
  }

  /** The managed quotas, from position `i` on, of targets whose namespace is in `nss`. */
  ghost function CleanedKeys(targets: seq<string>, i: nat, nss: set<string>): set<QuotaKey>
  {
    set j | i <= j < |targets| && targets[j] in nss :: TargetKey(targets, j)
  }

  /** The status names of the targets from position `i` on. */
  ghost function NamesFrom(targets: seq<string>, i: nat): set<string>
  {
    set j | i <= j < |targets| :: QuotaName(targets[j], j)
  }

  /** `m1` and `m2` agree at `k`: both lack it, or both hold the same value. */
  ghost predicate AgreeAt<K, V>(m1: map<K, V>, m2: map<K, V>, k: K)
  {
    (k in m1 <==> k in m2) && (k in m1 ==> m1[k] == m2[k])
  }

  predicate HasFourKeys<V>(m: map<string, V>)
  {
    LimitsCpu in m && RequestsCpu in m && LimitsMemory in m && RequestsMemory in m
  }

  /**
   * The four MustParse calls of a pass, in source order (limits.cpu,
   * requests.cpu, limits.memory, requests.memory): the hard limits, or the
   * text of the first value that panics.  A missing key reads as "".
   */
  function ParseHard(parse: Parser, types: map<string, string>): (r: Result<map<string, Quantity>, string>)
    ensures r.Success? <==>
      && ValidQuantity(parse, TypeValue(types, LimitsCpu))
      && ValidQuantity(parse, TypeValue(types, RequestsCpu))
      && ValidQuantity(parse, TypeValue(types, LimitsMemory))
      && ValidQuantity(parse, TypeValue(types, RequestsMemory))
    ensures r.Success? ==>
      && r.value.Keys == {LimitsCpu, RequestsCpu, LimitsMemory, RequestsMemory}
      && Some(r.value[LimitsCpu]) == parse(TypeValue(types, LimitsCpu))
      && Some(r.value[RequestsCpu]) == parse(TypeValue(types, RequestsCpu))
      && Some(r.value[LimitsMemory]) == parse(TypeValue(types, LimitsMemory))
      && Some(r.value[RequestsMemory]) == parse(TypeValue(types, RequestsMemory))
    ensures r.Failure? ==> !ValidQuantity(parse, r.error) && r.error in types.Values + {""}
  {
    match MustParse(parse, TypeValue(types, LimitsCpu))
    case Panic(t) => Failure(t)
    case Value(lc) =>
      match MustParse(parse, TypeValue(types, RequestsCpu))
      case Panic(t) => Failure(t)
      case Value(rc) =>
        match MustParse(parse, TypeValue(types, LimitsMemory))
        case Panic(t) => Failure(t)
        case Value(lm) =>
          match MustParse(parse, TypeValue(types, RequestsMemory))
          case Panic(t) => Failure(t)
          case Value(rm) =>
            Success(map[LimitsCpu := lc, RequestsCpu := rc, LimitsMemory := lm, RequestsMemory := rm])
  }

  /** The status entry of an existing quota: "<used>/<hard>" per dimension, "0" for no usage. */
  function StatusEntry(ns: string, used: map<string, Quantity>, hard: map<string, Quantity>): QuotaStatus
    requires HasFourKeys(hard)
  {
    QuotaStatus(ns,
      ShowOrZero(used, LimitsCpu) + "/" + hard[LimitsCpu].canonical,
      ShowOrZero(used, RequestsCpu) + "/" + hard[RequestsCpu].canonical,
      ShowOrZero(used, LimitsMemory) + "/" + hard[LimitsMemory].canonical,
      ShowOrZero(used, RequestsMemory) + "/" + hard[RequestsMemory].canonical)
  }

  /** `s` with every occurrence of `x` removed, as RemoveFinalizer does. */
  function Without(s: seq<string>, x: string): (r: seq<string>)
    ensures x !in r
    ensures forall y :: y != x ==> (y in r <==> y in s)
    ensures |r| <= |s|
  {
    if |s| == 0 then []
    else if s[|s| - 1] == x then Without(s[..|s| - 1], x)
    else Without(s[..|s| - 1], x) + [s[|s| - 1]]
  }

  // ---------------------------------------------------------------------
  // Merge patches of the limiter
  // ---------------------------------------------------------------------

  /**
   * A JSON merge patch computed between two versions of the limiter.  The
   * controller changes nothing but the finalizer list before a patch, so
   * that is the only member a patch here can set.
   */
  datatype MergePatch = MergePatch(finalizers: Option<seq<string>>)

  /** The merge patch from `base` to `modified`; it is empty when they agree. */
  function CreateMergePatch(base: LimiterV1, modified: LimiterV1): (p: MergePatch)
    ensures p.finalizers.None? <==> base.meta.finalizers == modified.meta.finalizers
    ensures p.finalizers.Some? ==> p.finalizers.value == modified.meta.finalizers
  {
    if base.meta.finalizers == modified.meta.finalizers then MergePatch(None)
    else MergePatch(Some(modified.meta.finalizers))
  }

  function ApplyMergePatch(stored: LimiterV1, p: MergePatch): LimiterV1
  {
    match p.finalizers
    case None => stored
    case Some(f) => stored.(meta := stored.meta.(finalizers := f))
  }

  /** An object being deleted whose last finalizer is gone is removed by the API server. */
  predicate Removed(o: LimiterV1)
  {
    o.meta.deleting && |o.meta.finalizers| == 0
  }

  /**
   * Patch: the store after the patch computed from `base` to `modified`, and
   * the object the server sends back (decoded into the patched object).
   */
  function PatchResult(env: Env, c: Cluster, base: LimiterV1, modified: LimiterV1): Result<(Cluster, LimiterV1), Error>
  {
    if LimiterPatch in env.faults then Failure(Fault(LimiterPatch))
    else if c.limiter.None? then Failure(NotFound(LimiterPatch))
    else
      var patched := ApplyMergePatch(c.limiter.value, CreateMergePatch(base, modified));
      Success((c.(limiter := if Removed(patched) then None else Some(patched)), patched))
  }

  // ---------------------------------------------------------------------
  // The passes as functions
  // ---------------------------------------------------------------------

  /** updateStatus as seen by the store: the limiter's status is replaced. */
  function StatusWrite(env: Env, c: Cluster, s: StatusV1): Pass
  {
    if StatusUpdate in env.faults then Pass(c, Err(Fault(StatusUpdate)), Some(s))
    else if c.limiter.None? then Pass(c, Err(NotFound(StatusUpdate)), Some(s))
    else Pass(c.(limiter := Some(c.limiter.value.(status := s))), Ok, Some(s))
  }

  /** One target of a walk: the pass ends here, or goes on with the next state. */
  datatype Step<S> = Stop(pass: Pass) | Continue(next: S)

  /** The entries of the status map of a limiter. */
  type Entries = map<string, QuotaStatus>

  /**
   * The work reconcile does for target position `i` (`rl` has its spec
   * defaulted; `acc` holds the status entries gathered so far).
   */
  function ApplyStep(env: Env, c: Cluster, rl: LimiterV1, i: nat, acc: Entries): (s: Step<(Cluster, Entries)>)
    requires i < |rl.spec.targets|
    ensures s.Stop? ==> s.pass.status.None?
    ensures s.Stop? && s.pass.outcome != Ok ==> s.pass.cluster == c
    ensures s.Stop? && s.pass.outcome == Ok ==>
      && rl.spec.applied && ParseHard(env.parse, rl.spec.types).Success?
      && TargetKey(rl.spec.targets, i) !in c.quotas
      && s.pass.cluster == c.(quotas := c.quotas[TargetKey(rl.spec.targets, i) :=
           ResourceQuota(ParseHard(env.parse, rl.spec.types).value, map[], Some(rl.meta.name))])
    ensures s.Continue? ==>
      && rl.spec.targets[i] in c.namespaces
      && s.next.0.namespaces == c.namespaces && s.next.0.limiter == c.limiter
    ensures s.Continue? && rl.spec.applied ==>
      var key := TargetKey(rl.spec.targets, i);
      var hard := ParseHard(env.parse, rl.spec.types);
      && hard.Success? && key in c.quotas
      && s.next.0.quotas == c.quotas[key := c.quotas[key].(hard := hard.value)]
      && s.next.1 == acc[key.name := StatusEntry(rl.spec.targets[i], c.quotas[key].used, hard.value)]
    ensures s.Continue? && !rl.spec.applied ==>
      s.next.0.quotas == c.quotas - {TargetKey(rl.spec.targets, i)} && s.next.1 == acc
  {
    var ns := rl.spec.targets[i];
    var key := TargetKey(rl.spec.targets, i);
    if NamespaceGet(ns) in env.faults then Stop(Pass(c, Err(Fault(NamespaceGet(ns))), None))
    else if ns !in c.namespaces then Stop(Pass(c, Err(NotFound(NamespaceGet(ns))), None))
    else if rl.spec.applied then
      match ParseHard(env.parse, rl.spec.types)
      case Failure(text) => Stop(Pass(c, Panicked(text), None))
      case Success(hard) =>
        if QuotaGet(key) in env.faults then Stop(Pass(c, Err(Fault(QuotaGet(key))), None))
        else if key !in c.quotas then
          if OwnerSet(key) in env.faults then Stop(Pass(c, Err(Fault(OwnerSet(key))), None))
          else if QuotaCreate(key) in env.faults then Stop(Pass(c, Err(Fault(QuotaCreate(key))), None))
          else Stop(Pass(c.(quotas := c.quotas[key := ResourceQuota(hard, map[], Some(rl.meta.name))]), Ok, None))
        else
          var q := c.quotas[key];
          if QuotaUpdate(key) in env.faults then Stop(Pass(c, Err(Fault(QuotaUpdate(key))), None))
          else Continue((c.(quotas := c.quotas[key := q.(hard := hard)]), acc[key.name := StatusEntry(ns, q.used, hard)]))
    else
      if QuotaGet(key) in env.faults then Stop(Pass(c, Err(Fault(QuotaGet(key))), None))
      else if key !in c.quotas then
        assert c.quotas - {key} == c.quotas;
        Continue((c, acc))
      else if QuotaDelete(key) in env.faults then Stop(Pass(c, Err(Fault(QuotaDelete(key))), None))
      else Continue((c.(quotas := c.quotas - {key}), acc))
  }

  /**
   * The target walk of reconcile from position `i`, ending with the status
   * update: Ready with the gathered entries, or Stopped with none.
   */
  function ApplyFrom(env: Env, c: Cluster, rl: LimiterV1, i: nat, acc: Entries): Pass
    requires i <= |rl.spec.targets|
    decreases |rl.spec.targets| - i
  {
    if i == |rl.spec.targets| then
      StatusWrite(env, c, if rl.spec.applied then StatusV1(Ready, acc) else StatusV1(Stopped, map[]))
    else
      match ApplyStep(env, c, rl, i, acc)
      case Stop(p) => p
      case Continue(next) => ApplyFrom(env, next.0, rl, i + 1, next.1)
  }

  /** reconcile: default the spec, then walk the targets. */
  function ApplyPass(env: Env, c: Cluster, rl: LimiterV1): Pass
  {
    ApplyFrom(env, c, rl.(spec := LimiterWebhook.Defaulted(rl.spec)), 0, map[])
  }

  /** Removing the finalizer with a merge patch from a copy of the object. */
  function FinalizerRemoval(env: Env, c: Cluster, rl: LimiterV1): (p: Pass)
    ensures p.status.None? && p.cluster.namespaces == c.namespaces && p.cluster.quotas == c.quotas
    ensures p.outcome != Ok ==> p.outcome.Err? && p.cluster == c
    ensures p.outcome == Ok && DefaultFinalizer in rl.meta.finalizers ==>
      p.cluster.limiter.None? || DefaultFinalizer !in p.cluster.limiter.value.meta.finalizers
    ensures p.outcome == Ok ==> c.limiter.Some?
  {
    var modified := rl.(meta := rl.meta.(finalizers := Without(rl.meta.finalizers, DefaultFinalizer)));
    match PatchResult(env, c, rl, modified)
    case Failure(e) => Pass(c, Err(e), None)
    case Success(r) => Pass(r.0, Ok, None)
  }

  /** The work reconcileDelete does for target position `i`. */
  function CleanupStep(env: Env, c: Cluster, rl: LimiterV1, i: nat): (s: Step<Cluster>)
    requires i < |rl.spec.targets|
    ensures s.Stop? ==> s.pass.cluster == c && s.pass.status.None? && s.pass.outcome.Err?
    ensures s.Continue? ==> s.next.namespaces == c.namespaces && s.next.limiter == c.limiter
    ensures s.Continue? && rl.spec.targets[i] in c.namespaces ==>
      TargetKey(rl.spec.targets, i) in c.quotas && s.next.quotas == c.quotas - {TargetKey(rl.spec.targets, i)}
    ensures s.Continue? && rl.spec.targets[i] !in c.namespaces ==> s.next == c
  {
    var ns := rl.spec.targets[i];
    var key := TargetKey(rl.spec.targets, i);
    if NamespaceGet(ns) in env.faults then Stop(Pass(c, Err(Fault(NamespaceGet(ns))), None))
    else if ns !in c.namespaces then Continue(c)
    else if QuotaGet(key) in env.faults then Stop(Pass(c, Err(Fault(QuotaGet(key))), None))
    else if key !in c.quotas then Stop(Pass(c, Err(NotFound(QuotaGet(key))), None))
    else if QuotaDelete(key) in env.faults then Stop(Pass(c, Err(Fault(QuotaDelete(key))), None))
    else Continue(c.(quotas := c.quotas - {key}))
  }

  /** The cleanup walk of reconcileDelete from position `i`, ending with the finalizer removal. */
  function CleanupFrom(env: Env, c: Cluster, rl: LimiterV1, i: nat): Pass
    requires i <= |rl.spec.targets|
    decreases |rl.spec.targets| - i
  {
    if i == |rl.spec.targets| then FinalizerRemoval(env, c, rl)
    else
      match CleanupStep(env, c, rl, i)
      case Stop(p) => p
      case Continue(next) => CleanupFrom(env, next, rl, i + 1)
  }

  /** reconcileDelete. */
  function DeletePass(env: Env, c: Cluster, rl: LimiterV1): Pass
  {
    if DefaultFinalizer !in rl.meta.finalizers then Pass(c, Err(NoFinalizer(rl.meta.name)), None)
    else if rl.status.state == Stopped then FinalizerRemoval(env, c, rl)
    else CleanupFrom(env, c, rl, 0)
  }

  /** The branch on the deletion timestamp of the object last read. */
  function Dispatch(env: Env, c: Cluster, newrl: LimiterV1, current: LimiterV1): Pass
  {
    if current.meta.deleting then DeletePass(env, c, newrl) else ApplyPass(env, c, newrl)
  }

  /**
   * Reconcile.  The finalizer patch is computed from `base` to the object
   * with the finalizer added; `aliased` says whether the base is that very
   * object (client.MergeFrom keeps a reference) or an earlier copy.
   */
  function ReconcileWith(env: Env, c: Cluster, aliased: bool): Pass
  {
    if LimiterGet in env.faults then Pass(c, Err(Fault(LimiterGet)), None)
    else if c.limiter.None? then Pass(c, Err(NotFound(LimiterGet)), None)
    else
      var rl := c.limiter.value;
      if DefaultFinalizer in rl.meta.finalizers then Dispatch(env, c, rl, rl)
      else
        var modified := rl.(meta := rl.meta.(finalizers := rl.meta.finalizers + [DefaultFinalizer]));
        match PatchResult(env, c, if aliased then modified else rl, modified)
        case Failure(e) => Pass(c, Err(e), None)
        case Success(r) =>
          var patched := r.0;
          if LimiterRefetch in env.faults then Pass(patched, Err(Fault(LimiterRefetch)), None)
          else if patched.limiter.None? then Pass(patched, Err(NotFound(LimiterRefetch)), None)
          else Dispatch(env, patched, r.1, patched.limiter.value)
  }

  /** Reconcile as written: the patch base aliases the object it is compared with. */
  function ReconcilePass(env: Env, c: Cluster): Pass
  {
    ReconcileWith(env, c, true)
  }

  // ---------------------------------------------------------------------
  // The reconciler
  // ---------------------------------------------------------------------

  /** The reconciler bound to the API server it reads and writes. */
  class Reconciler {
    var limiter: Option<LimiterV1>
    var namespaces: set<string>
    var quotas: map<QuotaKey, ResourceQuota>
    const faults: set<Call>
    const parse: Parser

    constructor (c: Cluster, env: Env)
      ensures Snapshot() == c && Config() == env
    {
      limiter := c.limiter;
      namespaces := c.namespaces;
      quotas := c.quotas;
      faults := env.faults;
      parse := env.parse;
    }

    function Snapshot(): Cluster
      reads this
    {
      Cluster(limiter, namespaces, quotas)
    }

    function Config(): Env
    {
      Env(faults, parse)
    }

    // The API calls -------------------------------------------------------

    method GetLimiter(call: Call) returns (r: Result<LimiterV1, Error>)
      ensures r == (if call in faults then Failure(Fault(call))
                    else if limiter.None? then Failure(NotFound(call)) else Success(limiter.value))
    {
      if call in faults {
        return Failure(Fault(call));
      }
      if limiter.None? {
        return Failure(NotFound(call));
      }
      return Success(limiter.value);
    }

    method GetNamespace(ns: string) returns (err: Option<Error>)
      ensures err == (if NamespaceGet(ns) in faults then Some(Fault(NamespaceGet(ns)))
                      else if ns !in namespaces then Some(NotFound(NamespaceGet(ns))) else None)
    {
      if NamespaceGet(ns) in faults {
        return Some(Fault(NamespaceGet(ns)));
      }
      if ns !in namespaces {
        return Some(NotFound(NamespaceGet(ns)));
      }
      return None;
    }

    method GetQuota(key: QuotaKey) returns (r: Result<ResourceQuota, Error>)
      ensures r == (if QuotaGet(key) in faults then Failure(Fault(QuotaGet(key)))
                    else if key !in quotas then Failure(NotFound(QuotaGet(key))) else Success(quotas[key]))
    {
      if QuotaGet(key) in faults {
        return Failure(Fault(QuotaGet(key)));
      }
      if key !in quotas {
        return Failure(NotFound(QuotaGet(key)));
      }
      return Success(quotas[key]);
    }

    /** SetControllerReference on a new quota object. */
    method SetOwner(key: QuotaKey) returns (err: Option<Error>)
      ensures err == (if OwnerSet(key) in faults then Some(Fault(OwnerSet(key))) else None)
    {
      if OwnerSet(key) in faults {
        return Some(Fault(OwnerSet(key)));
      }
      return None;
    }

    method CreateQuota(key: QuotaKey, q: ResourceQuota) returns (err: Option<Error>)
      modifies this
      ensures err == (if QuotaCreate(key) in faults then Some(Fault(QuotaCreate(key))) else None)
      ensures Snapshot() == if err.Some? then old(Snapshot()) else old(Snapshot()).(quotas := old(quotas)[key := q])
    {
      if QuotaCreate(key) in faults {
        return Some(Fault(QuotaCreate(key)));
      }
      quotas := quotas[key := q];
      return None;
    }

    method UpdateQuota(key: QuotaKey, q: ResourceQuota) returns (err: Option<Error>)
      modifies this
      ensures err == (if QuotaUpdate(key) in faults then Some(Fault(QuotaUpdate(key))) else None)
      ensures Snapshot() == if err.Some? then old(Snapshot()) else old(Snapshot()).(quotas := old(quotas)[key := q])
    {
      if QuotaUpdate(key) in faults {
        return Some(Fault(QuotaUpdate(key)));
      }
      quotas := quotas[key := q];
      return None;
    }

    /** Delete of a quota just read. */
    method DeleteQuota(key: QuotaKey) returns (err: Option<Error>)
      modifies this
      ensures err == (if QuotaDelete(key) in faults then Some(Fault(QuotaDelete(key))) else None)
      ensures Snapshot() == if err.Some? then old(Snapshot()) else old(Snapshot()).(quotas := old(quotas) - {key})
    {
      if QuotaDelete(key) in faults {
        return Some(Fault(QuotaDelete(key)));
      }
      quotas := quotas - {key};
      return None;
    }

    /**
     * Patch of the limiter with the merge patch from `base` to `obj`, both
     * read when the patch is sent; on success the server's answer is
     * decoded into `obj`.
     */
    method PatchLimiter(base: ResourceLimiter, obj: ResourceLimiter) returns (err: Option<Error>)
      modifies this, obj
      ensures var p := PatchResult(Config(), old(Snapshot()), old(base.Value()), old(obj.Value()));
        && (p.Failure? ==> err == Some(p.error) && Snapshot() == old(Snapshot()) && obj.Value() == old(obj.Value()))
        && (p.Success? ==> err == None && Snapshot() == p.value.0 && obj.Value() == p.value.1)
    {
      if LimiterPatch in faults {
        return Some(Fault(LimiterPatch));
      }
      if limiter.None? {
        return Some(NotFound(LimiterPatch));
      }
      var patch := CreateMergePatch(base.Value(), obj.Value());
      var patched := ApplyMergePatch(limiter.value, patch);
      limiter := if Removed(patched) then None else Some(patched);
      obj.meta, obj.spec, obj.status := patched.meta, patched.spec, patched.status;
      return None;
    }

    /** Status().Update with a copy of the object: only the status is written. */
    method WriteStatus(s: StatusV1) returns (err: Option<Error>)
      modifies this
      ensures var p := StatusWrite(Config(), old(Snapshot()), s);
        Snapshot() == p.cluster && err == (if p.outcome.Err? then Some(p.outcome.error) else None)
    {
      if StatusUpdate in faults {
        return Some(Fault(StatusUpdate));
      }
      if limiter.None? {
        return Some(NotFound(StatusUpdate));
      }
      limiter := Some(limiter.value.(status := s));
      return None;
    }

    // The reconciler's own operations ------------------------------------

    /**
     * updateStatus: the object's state is set and its quota map replaced by
     * a fresh copy of the given one (a full update), then the status is
     * written.
     */
    method UpdateStatus(rl: ResourceLimiter, status: StatusV1) returns (err: Option<Error>)
      modifies this, rl
      ensures rl.status == status && rl.meta == old(rl.meta) && rl.spec == old(rl.spec)
      ensures var p := StatusWrite(Config(), old(Snapshot()), status);
        Snapshot() == p.cluster && err == (if p.outcome.Err? then Some(p.outcome.error) else None)
    {
      rl.status := rl.status.(state := status.state);
      var copy: Entries := map[];
      var remaining := status.quotas.Keys;
      while remaining != {}
        invariant remaining <= status.quotas.Keys
        invariant copy.Keys == status.quotas.Keys - remaining
        invariant forall k :: k in copy ==> copy[k] == status.quotas[k]
        decreases remaining
      {
        var k :| k in remaining;
        copy := copy[k := status.quotas[k]];
        remaining := remaining - {k};
      }
      rl.status := rl.status.(quotas := copy);
      err := WriteStatus(rl.status);
    }

    /**
     * One iteration of the target walk of reconcile: `done` when the pass
     * returns at this target, otherwise the status entries gathered so far.
     */
    method ApplyTarget(rl: ResourceLimiter, i: nat, acc: Entries)
      returns (done: bool, outcome: Outcome, acc': Entries)
      requires i < |rl.spec.targets|
      modifies this
      ensures var s := ApplyStep(Config(), old(Snapshot()), rl.Value(), i, acc);
        && (done <==> s.Stop?)
        && (done ==> Snapshot() == s.pass.cluster && outcome == s.pass.outcome)
        && (!done ==> Snapshot() == s.next.0 && acc' == s.next.1)
    {
      acc' := acc;
      var ns := rl.spec.targets[i];
      var nsErr := GetNamespace(ns);
      if nsErr.Some? {
        return true, Err(nsErr.value), acc;
      }
      var key := TargetKey(rl.spec.targets, i);
      if rl.spec.applied {
        var parsed := ParseHard(parse, rl.spec.types);
        if parsed.Failure? {
          return true, Panicked(parsed.error), acc;
        }
        var hard := parsed.value;
        var got := GetQuota(key);
        if got.Failure? {
          if got.error.NotFound? {
            var ownerErr := SetOwner(key);
            if ownerErr.Some? {
              return true, Err(ownerErr.value), acc;
            }
            var createErr := CreateQuota(key, ResourceQuota(hard, map[], Some(rl.meta.name)));
            if createErr.Some? {
              return true, Err(createErr.value), acc;
            }
            return true, Ok, acc;
          }
          return true, Err(got.error), acc;
        }
        var q := got.value;
        acc' := acc[key.name := StatusEntry(ns, q.used, hard)];
        var updateErr := UpdateQuota(key, q.(hard := hard));
        if updateErr.Some? {
          return true, Err(updateErr.value), acc;
        }
      } else {
        var got := GetQuota(key);
        if got.Failure? && !got.error.NotFound? {
          return true, Err(got.error), acc;
        }
        if got.Success? {
          var deleteErr := DeleteQuota(key);
          if deleteErr.Some? {
            return true, Err(deleteErr.value), acc;
          }
        }
      }
      return false, Ok, acc';
    }

    /**
     * The target loop of reconcile: `done` when the pass returns inside the
     * loop; otherwise the status entries gathered, ready for the update.
     */
    method WalkTargets(rl: ResourceLimiter) returns (done: bool, outcome: Outcome, rlquotas: Entries)
      modifies this
      ensures var p := ApplyFrom(Config(), old(Snapshot()), rl.Value(), 0, map[]);
        && (done ==> Snapshot() == p.cluster && outcome == p.outcome && p.status.None?)
        && (!done ==> p == StatusWrite(Config(), Snapshot(),
                                       if rl.spec.applied then StatusV1(Ready, rlquotas) else StatusV1(Stopped, map[])))
    {
      rlquotas := map[];
      var i := 0;
      while i < |rl.spec.targets|
        invariant 0 <= i <= |rl.spec.targets|
        invariant ApplyFrom(Config(), Snapshot(), rl.Value(), i, rlquotas)
                  == ApplyFrom(Config(), old(Snapshot()), rl.Value(), 0, map[])
      {
        var stepOutcome, nextQuotas;
        done, stepOutcome, nextQuotas := ApplyTarget(rl, i, rlquotas);
        if done {
          return done, stepOutcome, rlquotas;
        }
        rlquotas := nextQuotas;
        i := i + 1;
      }
      return false, Ok, rlquotas;
    }

    /** reconcile: defaulting, the target walk, and the status update. */
    method ReconcileApply(rl: ResourceLimiter) returns (outcome: Outcome)
      modifies this, rl
      ensures var p := ApplyPass(Config(), old(Snapshot()), old(rl.Value()));
        && Snapshot() == p.cluster && outcome == p.outcome
        && rl.spec == LimiterWebhook.Defaulted(old(rl.spec)) && rl.meta == old(rl.meta)
        && rl.status == (if p.status.Some? then p.status.value else old(rl.status))
    {
      if |rl.spec.targets| == 0 {
        rl.spec := rl.spec.(targets := []);
      }
      if |rl.spec.types| == 0 {
        rl.spec := rl.spec.(types := DefaultTypes);
      }
      assert rl.Value() == old(rl.Value()).(spec := LimiterWebhook.Defaulted(old(rl.spec)));
      ghost var pass := ApplyPass(Config(), old(Snapshot()), old(rl.Value()));
      assert pass == ApplyFrom(Config(), old(Snapshot()), rl.Value(), 0, map[]);
      var done, walkOutcome, rlquotas := WalkTargets(rl);
      if done {
        return walkOutcome;
      }
      var status := if rl.spec.applied then StatusV1(Ready, rlquotas) else StatusV1(Stopped, map[]);
      assert pass == StatusWrite(Config(), Snapshot(), status);
      var err := UpdateStatus(rl, status);
      return if err.Some? then Err(err.value) else Ok;
    }

    /** Removing the finalizer: the patch base is a separate copy. */
    method RemoveFinalizer(rl: ResourceLimiter) returns (outcome: Outcome)
      modifies this
      ensures var p := FinalizerRemoval(Config(), old(Snapshot()), rl.Value());
        Snapshot() == p.cluster && outcome == p.outcome
    {
      var newrl := new ResourceLimiter(rl.meta, rl.spec, rl.status);
      var base := new ResourceLimiter(newrl.meta, newrl.spec, newrl.status);
      newrl.meta := newrl.meta.(finalizers := Without(newrl.meta.finalizers, DefaultFinalizer));
      var err := PatchLimiter(base, newrl);
      if err.Some? {
        return Err(err.value);
      }
      return Ok;
    }

    /** reconcileDelete: delete each target's quota, then remove the finalizer. */
    method ReconcileDelete(rl: ResourceLimiter) returns (outcome: Outcome)
      modifies this
      ensures var p := DeletePass(Config(), old(Snapshot()), rl.Value());
        Snapshot() == p.cluster && outcome == p.outcome
    {
      if DefaultFinalizer !in rl.meta.finalizers {
        return Err(NoFinalizer(rl.meta.name));
      }
      if rl.status.state != Stopped {
        var targets := rl.spec.targets;
        var i := 0;
        while i < |targets|
          invariant 0 <= i <= |targets|
          invariant CleanupFrom(Config(), Snapshot(), rl.Value(), i) == CleanupFrom(Config(), old(Snapshot()), rl.Value(), 0)
        {
          var ns := targets[i];
          var nsErr := GetNamespace(ns);
          if nsErr.Some? && nsErr.value.Fault? {
            return Err(nsErr.value);
          }
          if nsErr.None? {
            var key := TargetKey(targets, i);
            var got := GetQuota(key);
            if got.Failure? {
              return Err(got.error);
            }
            var deleteErr := DeleteQuota(key);
            if deleteErr.Some? {
              return Err(deleteErr.value);
            }
          }
          i := i + 1;
        }
      }
      outcome := RemoveFinalizer(rl);
    }

    /** Reconcile: one pass for the limiter this reconciler watches. */
    method Reconcile() returns (outcome: Outcome)
      modifies this
      ensures var p := ReconcilePass(Config(), old(Snapshot()));
        Snapshot() == p.cluster && outcome == p.outcome
    {
      var got := GetLimiter(LimiterGet);
      if got.Failure? {
        return Err(got.error);
      }
      var rl := got.value;
      var newrl := new ResourceLimiter(rl.meta, rl.spec, rl.status);
      if DefaultFinalizer !in newrl.meta.finalizers {
        var patchBase := newrl;  // MergeFrom keeps a reference, not a copy
        newrl.meta := newrl.meta.(finalizers := newrl.meta.finalizers + [DefaultFinalizer]);
        var err := PatchLimiter(patchBase, newrl);
        if err.Some? {
          return Err(err.value);
        }
        var again := GetLimiter(LimiterRefetch);
        if again.Failure? {
          return Err(again.error);
        }
        rl := again.value;
      }
      if rl.meta.deleting {
        outcome := ReconcileDelete(newrl);
      } else {
        outcome := ReconcileApply(newrl);
      }
    }
  }

  // ---------------------------------------------------------------------
  // The event filter
  // ---------------------------------------------------------------------

  datatype Event = Created(obj: ObjectMeta) | Updated(oldObj: ObjectMeta, newObj: ObjectMeta) | Deleted(obj: ObjectMeta) | Generic(obj: ObjectMeta)

  /** eventPredicate: an update passes when generation or resourceVersion changed; all other events pass. */
  function EventPasses(e: Event): (pass: bool)
    ensures e.Updated? ==>
      (pass <==> e.oldObj.generation != e.newObj.generation || e.oldObj.resourceVersion != e.newObj.resourceVersion)
    ensures !e.Updated? ==> pass
  {
    match e
    case Updated(o, n) => o.generation != n.generation || o.resourceVersion != n.resourceVersion
    case _ => true
  }
}

/** Properties of the reconciler passes. */
module ControllerProperties {
  import opened Wrappers
  import opened ApiTypes
  import opened Quantities
  import LimiterWebhook
  import opened Controller

  lemma TargetKeysStep(targets: seq<string>, i: nat)
    requires i < |targets|
    ensures TargetKeys(targets, i) == {TargetKey(targets, i)} + TargetKeys(targets, i + 1)
  {
    forall k | k in TargetKeys(targets, i)
      ensures k in {TargetKey(targets, i)} + TargetKeys(targets, i + 1)
    {
      var j :| i <= j < |targets| && k == TargetKey(targets, j);
      if j > i {
        assert k in TargetKeys(targets, i + 1);
      }
    }
    forall k | k in TargetKeys(targets, i + 1)
      ensures k in TargetKeys(targets, i)
    {
      var j :| i + 1 <= j < |targets| && k == TargetKey(targets, j);
      assert i <= j;
    }
  }

  lemma NamesFromStep(targets: seq<string>, i: nat)
    requires i < |targets|
    ensures NamesFrom(targets, i) == {QuotaName(targets[i], i)} + NamesFrom(targets, i + 1)
    ensures QuotaName(targets[i], i) !in NamesFrom(targets, i + 1)
  {
    forall n | n in NamesFrom(targets, i)
      ensures n in {QuotaName(targets[i], i)} + NamesFrom(targets, i + 1)
    {
      var j :| i <= j < |targets| && n == QuotaName(targets[j], j);
      if j > i {
        assert n in NamesFrom(targets, i + 1);
      }
    }
    forall n | n in NamesFrom(targets, i + 1)
      ensures n in NamesFrom(targets, i) && n != QuotaName(targets[i], i)
    {
      var j :| i + 1 <= j < |targets| && n == QuotaName(targets[j], j);
      assert i <= j;
      if n == QuotaName(targets[i], i) {
        QuotaNameInjective(targets[j], j, targets[i], i);
      }
    }
  }

  /** Every target position has its own status name: the names number the targets. */
  lemma {:induction false} NamesFromCount(targets: seq<string>, i: nat)
    requires i <= |targets|
    ensures |NamesFrom(targets, i)| == |targets| - i
    decreases |targets| - i
  {
    if i == |targets| {
      assert NamesFrom(targets, i) == {};
    } else {
      NamesFromStep(targets, i);
      NamesFromCount(targets, i + 1);
    }
  }

  /**
   * What the target walk of reconcile leaves alone: no namespace is created,
   * only the limiter's status may change, and every quota that is not one
   * of the remaining targets' managed quotas is untouched.
   */
  lemma {:induction false} ApplyFromFrame(env: Env, c: Cluster, rl: LimiterV1, i: nat, acc: Entries)
    requires i <= |rl.spec.targets|
    ensures var p := ApplyFrom(env, c, rl, i, acc);
      && p.cluster.namespaces == c.namespaces
      && (p.cluster.limiter == c.limiter
          || (c.limiter.Some? && p.status.Some? && p.cluster.limiter == Some(c.limiter.value.(status := p.status.value))))
      && (forall k :: k !in TargetKeys(rl.spec.targets, i) ==> AgreeAt(p.cluster.quotas, c.quotas, k))
    decreases |rl.spec.targets| - i
  {
    var targets := rl.spec.targets;
    if i < |targets| {
      TargetKeysStep(targets, i);
      var st := ApplyStep(env, c, rl, i, acc);
      if st.Continue? {
        ApplyFromFrame(env, st.next.0, rl, i + 1, st.next.1);
      }
    }
  }

  /**
   * With `applied` set and the four values parsed to `hard`, no quota is
   * removed, and an existing quota keeps its usage and owner and holds
   * either its old hard limits or `hard`.
   */
  lemma {:induction false} ApplyFromKeepsExisting(env: Env, c: Cluster, rl: LimiterV1, i: nat, acc: Entries,
                                                  hard: map<string, Quantity>)
    requires i <= |rl.spec.targets| && rl.spec.applied
    requires ParseHard(env.parse, rl.spec.types) == Success(hard)
    ensures var p := ApplyFrom(env, c, rl, i, acc);
      forall k :: k in c.quotas ==>
        && k in p.cluster.quotas
        && p.cluster.quotas[k].used == c.quotas[k].used
        && p.cluster.quotas[k].owner == c.quotas[k].owner
        && (p.cluster.quotas[k].hard == c.quotas[k].hard || p.cluster.quotas[k].hard == hard)
    decreases |rl.spec.targets| - i
  {
    var p := ApplyFrom(env, c, rl, i, acc);
    if i < |rl.spec.targets| {
      var st := ApplyStep(env, c, rl, i, acc);
      if st.Continue? {
        var c' := st.next.0;
        ApplyFromKeepsExisting(env, c', rl, i + 1, st.next.1, hard);
        forall k | k in c.quotas
          ensures k in p.cluster.quotas
          ensures p.cluster.quotas[k].used == c.quotas[k].used && p.cluster.quotas[k].owner == c.quotas[k].owner
          ensures p.cluster.quotas[k].hard == c.quotas[k].hard || p.cluster.quotas[k].hard == hard
        {
          assert k in c'.quotas;
          assert c'.quotas[k].used == c.quotas[k].used && c'.quotas[k].owner == c.quotas[k].owner;
          assert c'.quotas[k].hard == c.quotas[k].hard || c'.quotas[k].hard == hard;
        }
      }
    }
  }

  /**
   * With `applied` set and the four values parsed to `hard`, a quota the
   * pass creates is the only one it creates; it has exactly the hard limits
   * and the limiter as owner, and the pass then ends with success and no
   * status write.
   */
  lemma {:induction false} ApplyFromCreatesAtMostOne(env: Env, c: Cluster, rl: LimiterV1, i: nat, acc: Entries,
                                                     hard: map<string, Quantity>)
    requires i <= |rl.spec.targets| && rl.spec.applied
    requires ParseHard(env.parse, rl.spec.types) == Success(hard)
    ensures var p := ApplyFrom(env, c, rl, i, acc);
      forall k :: k in p.cluster.quotas && k !in c.quotas ==>
        && p.cluster.quotas[k] == ResourceQuota(hard, map[], Some(rl.meta.name))
        && p.cluster.quotas.Keys == c.quotas.Keys + {k}
        && p.outcome == Ok && p.status.None?
    decreases |rl.spec.targets| - i
  {
    if i < |rl.spec.targets| {
      var st := ApplyStep(env, c, rl, i, acc);
      if st.Continue? {
        var c' := st.next.0;
        assert c'.quotas.Keys == c.quotas.Keys;
        ApplyFromCreatesAtMostOne(env, c', rl, i + 1, st.next.1, hard);
      }
    }
  }

  /** One target of a completed `applied` walk: its quota existed and gets `hard`. */
  lemma ApplyFromReadyStep(env: Env, c: Cluster, rl: LimiterV1, i: nat, acc: Entries, hard: map<string, Quantity>)
    returns (c': Cluster, acc': Entries)
    requires i < |rl.spec.targets| && rl.spec.applied
    requires ParseHard(env.parse, rl.spec.types) == Success(hard)
    requires ApplyFrom(env, c, rl, i, acc).outcome == Ok && ApplyFrom(env, c, rl, i, acc).status.Some?
    ensures ApplyFrom(env, c', rl, i + 1, acc') == ApplyFrom(env, c, rl, i, acc)
    ensures rl.spec.targets[i] in c.namespaces && TargetKey(rl.spec.targets, i) in c.quotas
    ensures c' == c.(quotas := c.quotas[TargetKey(rl.spec.targets, i) :=
                                         c.quotas[TargetKey(rl.spec.targets, i)].(hard := hard)])
    ensures acc' == acc[QuotaName(rl.spec.targets[i], i) :=
                          StatusEntry(rl.spec.targets[i], c.quotas[TargetKey(rl.spec.targets, i)].used, hard)]
  {
    var st := ApplyStep(env, c, rl, i, acc);
    assert st.Continue?;
    c', acc' := st.next.0, st.next.1;
  }

  /**
   * A walk with `applied` set that reaches its end and writes the status:
   * every remaining target's namespace exists and its quota existed, no
   * quota was created, every target quota now holds `hard`, and the status
   * written is Ready.
   */
  lemma {:induction false} ApplyFromReady(env: Env, c: Cluster, rl: LimiterV1, i: nat, acc: Entries,
                                          hard: map<string, Quantity>)
    requires i <= |rl.spec.targets| && rl.spec.applied
    requires ParseHard(env.parse, rl.spec.types) == Success(hard)
    requires ApplyFrom(env, c, rl, i, acc).outcome == Ok && ApplyFrom(env, c, rl, i, acc).status.Some?
    ensures var p := ApplyFrom(env, c, rl, i, acc);
      var targets := rl.spec.targets;
      && p.status.value.state == Ready
      && p.cluster.quotas.Keys == c.quotas.Keys
      && c.limiter.Some? && p.cluster.limiter == Some(c.limiter.value.(status := p.status.value))
      && (forall j :: i <= j < |targets| ==>
            && targets[j] in c.namespaces
            && TargetKey(targets, j) in c.quotas
            && p.cluster.quotas[TargetKey(targets, j)].hard == hard)
    decreases |rl.spec.targets| - i
  {
    if i < |rl.spec.targets| {
      var c', acc' := ApplyFromReadyStep(env, c, rl, i, acc, hard);
      ApplyFromReady(env, c', rl, i + 1, acc', hard);
      ApplyFromKeepsExisting(env, c', rl, i + 1, acc', hard);
    }
  }

  /**
   * The names in the status a completed `applied` walk writes: the remaining
   * targets' quota names on top of the entries gathered before, which keep
   * their values unless a remaining target has the same name.
   */
  lemma {:induction false} ApplyFromReadyKeys(env: Env, c: Cluster, rl: LimiterV1, i: nat, acc: Entries,
                                              hard: map<string, Quantity>)
    requires i <= |rl.spec.targets| && rl.spec.applied
    requires ParseHard(env.parse, rl.spec.types) == Success(hard)
    requires ApplyFrom(env, c, rl, i, acc).outcome == Ok && ApplyFrom(env, c, rl, i, acc).status.Some?
    ensures var p := ApplyFrom(env, c, rl, i, acc);
      && p.status.value.quotas.Keys == acc.Keys + NamesFrom(rl.spec.targets, i)
      && (forall n :: n in acc && n !in NamesFrom(rl.spec.targets, i) ==> p.status.value.quotas[n] == acc[n])
    decreases |rl.spec.targets| - i
  {
    if i == |rl.spec.targets| {
      assert NamesFrom(rl.spec.targets, i) == {};
    } else {
      var c', acc' := ApplyFromReadyStep(env, c, rl, i, acc, hard);
      ApplyFromReadyKeys(env, c', rl, i + 1, acc', hard);
      NamesFromStep(rl.spec.targets, i);
      var name := QuotaName(rl.spec.targets[i], i);
      assert acc'.Keys == acc.Keys + {name};
      assert forall n :: n in acc && n !in NamesFrom(rl.spec.targets, i) ==> n != name && acc'[n] == acc[n];
    }
  }

  /**
   * The entries a completed `applied` walk writes: one `<used>/<hard>` entry
   * per remaining target, computed from the usage found before the walk.
   */
  lemma {:induction false} ApplyFromReadyEntries(env: Env, c: Cluster, rl: LimiterV1, i: nat, acc: Entries,
                                                 hard: map<string, Quantity>)
    requires i <= |rl.spec.targets| && rl.spec.applied
    requires ParseHard(env.parse, rl.spec.types) == Success(hard)
    requires ApplyFrom(env, c, rl, i, acc).outcome == Ok && ApplyFrom(env, c, rl, i, acc).status.Some?
    ensures var p := ApplyFrom(env, c, rl, i, acc);
      var targets := rl.spec.targets;
      forall j :: i <= j < |targets| ==>
        && TargetKey(targets, j) in c.quotas
        && QuotaName(targets[j], j) in p.status.value.quotas
        && p.status.value.quotas[QuotaName(targets[j], j)]
           == StatusEntry(targets[j], c.quotas[TargetKey(targets, j)].used, hard)
    decreases |rl.spec.targets| - i
  {
    var targets := rl.spec.targets;
    if i < |targets| {
      var c', acc' := ApplyFromReadyStep(env, c, rl, i, acc, hard);
      ApplyFromReadyEntries(env, c', rl, i + 1, acc', hard);
      ApplyFromReadyKeys(env, c', rl, i + 1, acc', hard);
      NamesFromStep(targets, i);
      assert forall k :: k in c'.quotas ==> k in c.quotas && c'.quotas[k].used == c.quotas[k].used;
    }
  }

  /** A complete Ready pass has exactly one status entry per target, named after it. */
  lemma ApplyPassReady(env: Env, c: Cluster, rl: LimiterV1, hard: map<string, Quantity>)
    requires rl.spec.applied
    requires ParseHard(env.parse, LimiterWebhook.Defaulted(rl.spec).types) == Success(hard)
    requires ApplyPass(env, c, rl).outcome == Ok && ApplyPass(env, c, rl).status.Some?
    ensures var s := ApplyPass(env, c, rl).status.value;
      && s.state == Ready
      && s.quotas.Keys == NamesFrom(rl.spec.targets, 0)
      && |s.quotas| == |rl.spec.targets|
  {
    var rl' := rl.(spec := LimiterWebhook.Defaulted(rl.spec));
    LimiterWebhook.DefaultedFacts(rl.spec);
    ApplyFromReady(env, c, rl', 0, map[], hard);
    ApplyFromReadyKeys(env, c, rl', 0, map[], hard);
    NamesFromCount(rl.spec.targets, 0);
    assert |ApplyPass(env, c, rl).status.value.quotas| == |ApplyPass(env, c, rl).status.value.quotas.Keys|;
  }

  /**
   * A walk without `applied` that succeeds removes exactly the remaining
   * targets' managed quotas and writes the status Stopped with no entries.
   */
  lemma {:induction false} ApplyFromStopped(env: Env, c: Cluster, rl: LimiterV1, i: nat, acc: Entries)
    requires i <= |rl.spec.targets| && !rl.spec.applied
    requires ApplyFrom(env, c, rl, i, acc).outcome == Ok
    ensures var p := ApplyFrom(env, c, rl, i, acc);
      && p.status == Some(StatusV1(Stopped, map[]))
      && p.cluster.quotas == c.quotas - TargetKeys(rl.spec.targets, i)
      && c.limiter.Some? && p.cluster.limiter == Some(c.limiter.value.(status := StatusV1(Stopped, map[])))
      && (forall j :: i <= j < |rl.spec.targets| ==> rl.spec.targets[j] in c.namespaces)
    decreases |rl.spec.targets| - i
  {
    var targets := rl.spec.targets;
    if i == |targets| {
      assert TargetKeys(targets, i) == {};
      assert c.quotas - {} == c.quotas;
    } else {
      TargetKeysStep(targets, i);
      var st := ApplyStep(env, c, rl, i, acc);
      assert st.Continue?;
      ApplyFromStopped(env, st.next.0, rl, i + 1, acc);
      assert st.next.0.quotas - TargetKeys(targets, i + 1) == c.quotas - TargetKeys(targets, i);
    }
  }

  lemma CleanedKeysStep(targets: seq<string>, i: nat, nss: set<string>)
    requires i < |targets|
    ensures CleanedKeys(targets, i, nss)
            == (if targets[i] in nss then {TargetKey(targets, i)} else {}) + CleanedKeys(targets, i + 1, nss)
  {
    var first: set<QuotaKey> := if targets[i] in nss then {TargetKey(targets, i)} else {};
    forall k | k in CleanedKeys(targets, i, nss)
      ensures k in first + CleanedKeys(targets, i + 1, nss)
    {
      var j :| i <= j < |targets| && targets[j] in nss && k == TargetKey(targets, j);
      if j > i {
        assert k in CleanedKeys(targets, i + 1, nss);
      }
    }
    forall k | k in CleanedKeys(targets, i + 1, nss)
      ensures k in CleanedKeys(targets, i, nss)
    {
      var j :| i + 1 <= j < |targets| && targets[j] in nss && k == TargetKey(targets, j);
      assert i <= j;
    }
  }

  /**
   * The cleanup walk: it creates no namespace, writes no status, only ever
   * deletes quotas among the remaining targets' managed ones, and touches
   * the limiter only by removing the finalizer after every target went
   * through; a successful walk deletes exactly the managed quotas of the
   * targets whose namespace exists.
   */
  lemma {:induction false} CleanupFromFacts(env: Env, c: Cluster, rl: LimiterV1, i: nat)
    requires i <= |rl.spec.targets|
    ensures var p := CleanupFrom(env, c, rl, i);
      && p.cluster.namespaces == c.namespaces
      && p.status.None?
      && (forall k :: k in p.cluster.quotas ==> k in c.quotas && p.cluster.quotas[k] == c.quotas[k])
      && (forall k :: k !in TargetKeys(rl.spec.targets, i) ==> AgreeAt(p.cluster.quotas, c.quotas, k))
      && (p.outcome != Ok ==> p.cluster.limiter == c.limiter)
      && (p.outcome == Ok ==>
            && CleanedKeys(rl.spec.targets, i, c.namespaces) <= c.quotas.Keys
            && p.cluster.quotas == c.quotas - CleanedKeys(rl.spec.targets, i, c.namespaces)
            && FinalizerRemoval(env, c, rl).outcome == Ok
            && p.cluster.limiter == FinalizerRemoval(env, c, rl).cluster.limiter)
    decreases |rl.spec.targets| - i
  {
    var targets := rl.spec.targets;
    if i == |targets| {
      assert CleanedKeys(targets, i, c.namespaces) == {};
      assert c.quotas - {} == c.quotas;
    } else {
      var ns := targets[i];
      var key := TargetKey(targets, i);
      TargetKeysStep(targets, i);
      CleanedKeysStep(targets, i, c.namespaces);
      var st := CleanupStep(env, c, rl, i);
      if st.Continue? {
        CleanupFromFacts(env, st.next, rl, i + 1);
        assert st.next.quotas - CleanedKeys(targets, i + 1, c.namespaces) == c.quotas - CleanedKeys(targets, i, c.namespaces);
      }
    }
  }

  /**
   * reconcileDelete: without the finalizer it fails and changes nothing;
   * for a Stopped limiter no quota is deleted; otherwise a successful pass
   * deletes the managed quotas of the targets whose namespace exists.  The
   * finalizer goes only when the pass succeeds.
   */
  lemma DeletePassFacts(env: Env, c: Cluster, rl: LimiterV1)
    ensures var p := DeletePass(env, c, rl);
      && p.cluster.namespaces == c.namespaces
      && p.status.None?
      && (DefaultFinalizer !in rl.meta.finalizers ==> p.outcome == Err(NoFinalizer(rl.meta.name)) && p.cluster == c)
      && (rl.status.state == Stopped ==> p.cluster.quotas == c.quotas)
      && (p.outcome != Ok ==> p.cluster.limiter == c.limiter)
      && (p.outcome == Ok ==>
            && (p.cluster.limiter.None? || DefaultFinalizer !in p.cluster.limiter.value.meta.finalizers)
            && (rl.status.state != Stopped ==>
                  p.cluster.quotas == c.quotas - CleanedKeys(rl.spec.targets, 0, c.namespaces)))
  {
    if DefaultFinalizer in rl.meta.finalizers && rl.status.state != Stopped {
      CleanupFromFacts(env, c, rl, 0);
    }
  }

  lemma DispatchFrame(env: Env, c: Cluster, rl: LimiterV1, current: LimiterV1)
    ensures var p := Dispatch(env, c, rl, current);
      && p.cluster.namespaces == c.namespaces
      && (forall k :: k !in TargetKeys(rl.spec.targets, 0) ==> AgreeAt(p.cluster.quotas, c.quotas, k))
  {
    if current.meta.deleting {
      DeletePassFacts(env, c, rl);
      if DefaultFinalizer in rl.meta.finalizers && rl.status.state != Stopped {
        CleanupFromFacts(env, c, rl, 0);
      }
    } else {
      LimiterWebhook.DefaultedFacts(rl.spec);
      ApplyFromFrame(env, c, rl.(spec := LimiterWebhook.Defaulted(rl.spec)), 0, map[]);
    }
  }

  /**
   * A whole pass creates no namespace and leaves every quota that is not a
   * managed quota of the limiter's targets untouched.
   */
  lemma ReconcileFrame(env: Env, c: Cluster, aliased: bool)
    requires c.limiter.Some?
    ensures var p := ReconcileWith(env, c, aliased);
      && p.cluster.namespaces == c.namespaces
      && (forall k :: k !in TargetKeys(c.limiter.value.spec.targets, 0) ==> AgreeAt(p.cluster.quotas, c.quotas, k))
  {
    var rl := c.limiter.value;
    if LimiterGet in env.faults {
    } else if DefaultFinalizer in rl.meta.finalizers {
      DispatchFrame(env, c, rl, rl);
    } else {
      var modified := rl.(meta := rl.meta.(finalizers := rl.meta.finalizers + [DefaultFinalizer]));
      var r := PatchResult(env, c, if aliased then modified else rl, modified);
      if r.Success? && LimiterRefetch !in env.faults && r.value.0.limiter.Some? {
        DispatchFrame(env, r.value.0, r.value.1, r.value.0.limiter.value);
      }
    }
  }

  /**
   * Reconcile as written never stores the finalizer on a limiter that is
   * not being deleted: the merge patch is computed against the object it
   * modifies, so it is empty, and nothing later in the pass touches the
   * finalizers.
   */
  lemma FinalizerNeverAttached(env: Env, c: Cluster)
    requires c.limiter.Some? && DefaultFinalizer !in c.limiter.value.meta.finalizers
    requires !c.limiter.value.meta.deleting
    ensures var p := ReconcilePass(env, c);
      p.cluster.limiter.Some? ==> DefaultFinalizer !in p.cluster.limiter.value.meta.finalizers
  {
    var rl := c.limiter.value;
    var modified := rl.(meta := rl.meta.(finalizers := rl.meta.finalizers + [DefaultFinalizer]));
    if LimiterGet !in env.faults && LimiterPatch !in env.faults {
      assert ApplyMergePatch(rl, CreateMergePatch(modified, modified)) == rl;
      if LimiterRefetch !in env.faults {
        assert ReconcilePass(env, c) == ApplyPass(env, c, rl);
        LimiterWebhook.DefaultedFacts(rl.spec);
        ApplyFromFrame(env, c, rl.(spec := LimiterWebhook.Defaulted(rl.spec)), 0, map[]);
      }
    }
  }

  /**
   * With the patch computed against an earlier copy, a pass whose patch
   * call succeeds leaves the finalizer stored on a limiter that is not
   * being deleted, whatever happens after it.
   */
  lemma FinalizerAttachedCorrected(env: Env, c: Cluster)
    requires c.limiter.Some? && !c.limiter.value.meta.deleting
    requires LimiterGet !in env.faults && LimiterPatch !in env.faults
    ensures var p := ReconcileWith(env, c, false);
      p.cluster.limiter.Some? && DefaultFinalizer in p.cluster.limiter.value.meta.finalizers
  {
    var rl := c.limiter.value;
    var stored := rl;
    if DefaultFinalizer !in rl.meta.finalizers {
      stored := rl.(meta := rl.meta.(finalizers := rl.meta.finalizers + [DefaultFinalizer]));
      assert ApplyMergePatch(rl, CreateMergePatch(rl, stored)) == stored;
      assert stored.meta.finalizers[|rl.meta.finalizers|] == DefaultFinalizer;
    }
    var at := c.(limiter := Some(stored));
    if DefaultFinalizer in rl.meta.finalizers || LimiterRefetch !in env.faults {
      assert ReconcileWith(env, c, false) == ApplyPass(env, at, stored);
      LimiterWebhook.DefaultedFacts(stored.spec);
      ApplyFromFrame(env, at, stored.(spec := LimiterWebhook.Defaulted(stored.spec)), 0, map[]);
    }
  }
}
