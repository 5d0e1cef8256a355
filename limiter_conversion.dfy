/**
 * Conversion of a v1beta1 ResourceLimiter to and from the v1beta2 hub
 * (ConvertTo broadcasts the flat map onto one record per target,
 * ConvertFrom collapses the records back, the last record winning).
 */
module LimiterConversion {
  import opened Wrappers
  import opened ApiTypes

  const WrongTypeError: string := "the dst type is wroong"
  const EmptyQuotasError: string := "the quotas field is 0"

  /** The record ConvertTo appends for namespace `ns`, read out of the flat map. */
  function RecordFor(ns: string, types: map<string, string>): QuotaRecord
  {
    QuotaRecord(ns, TypeValue(types, RequestsCpu), TypeValue(types, LimitsCpu),
                TypeValue(types, LimitsMemory), TypeValue(types, RequestsMemory))
  }

  /** The records appended for `targets`, in target order. */
  function Broadcast(targets: seq<string>, types: map<string, string>): seq<QuotaRecord>
  {
    if |targets| == 0 then []
    else Broadcast(targets[..|targets| - 1], types) + [RecordFor(targets[|targets| - 1], types)]
  }

  /** `n` copies of `x`. */
  function Repeat<T>(x: T, n: nat): (r: seq<T>)
    ensures |r| == n && forall i :: 0 <= i < n ==> r[i] == x
  {
    seq(n, _ => x)
  }

  /**
   * The quota list ConvertTo leaves in the hub: the slice is made with
   * length |targets| (zero records) and the broadcast records are appended
   * after them.
   */
  function ConvertedQuotas(spec: SpecV1): seq<QuotaRecord>
  {
    Repeat(ZeroRecord, |spec.targets|) + Broadcast(spec.targets, spec.types)
  }

  /** The flat map one record stands for: its four quantities under the four keys. */
  function TypesOf(r: QuotaRecord): map<string, string>
  {
    map[LimitsCpu := r.cpuLimit, RequestsCpu := r.cpuRequest,
        LimitsMemory := r.memLimit, RequestsMemory := r.memRequest]
  }

  /** The namespace names of the records, in order, duplicates kept. */
  function Names(quotas: seq<QuotaRecord>): seq<string>
  {
    if |quotas| == 0 then []
    else Names(quotas[..|quotas| - 1]) + [quotas[|quotas| - 1].namespaceName]
  }

  /** The v1beta1 spec ConvertFrom leaves behind, including on the empty-list error path. */
  function CollapsedSpec(spec: SpecV2): SpecV1
  {
    if |spec.quotas| == 0 then SpecV1([], map[], spec.applied)
    else SpecV1(Names(spec.quotas), TypesOf(spec.quotas[|spec.quotas| - 1]), spec.applied)
  }

  /**
   * ConvertTo: rejects a destination that is not a v1beta2 object before
   * writing anything; otherwise replaces the hub's spec and copies the name.
   */
  method ConvertTo(src: ResourceLimiter, dstRaw: object) returns (err: Option<string>)
    modifies dstRaw
    ensures !(dstRaw is ResourceLimiterV2) ==> err == Some(WrongTypeError) && unchanged(dstRaw)
    ensures dstRaw is ResourceLimiterV2 ==>
      var dst := dstRaw as ResourceLimiterV2;
      && err == None
      && dst.spec == SpecV2(ConvertedQuotas(old(src.spec)), old(src.spec.applied))
      && dst.meta == old(dst.meta).(name := old(src.meta.name))
  {
    if !(dstRaw is ResourceLimiterV2) {
      return Some(WrongTypeError);
    }
    var dst := dstRaw as ResourceLimiterV2;
    var targets := src.spec.targets;
    var types := src.spec.types;
    dst.spec := dst.spec.(quotas := Repeat(ZeroRecord, |targets|));
    var i := 0;
    while i < |targets|
      invariant 0 <= i <= |targets|
      invariant dst.spec.quotas == Repeat(ZeroRecord, |targets|) + Broadcast(targets[..i], types)
      invariant src.spec == old(src.spec) && src.meta == old(src.meta)
      invariant dst.meta == old(dst.meta)
    {
      assert targets[..i + 1][..i] == targets[..i];
      dst.spec := dst.spec.(quotas := dst.spec.quotas + [RecordFor(targets[i], types)]);
      i := i + 1;
    }
    assert targets[..i] == targets;
    dst.spec := dst.spec.(applied := src.spec.applied);
    dst.meta := dst.meta.(name := src.meta.name);
    return None;
  }

  /**
   * ConvertFrom: rejects a source that is not a v1beta2 object; otherwise
   * resets targets and types, copies `applied`, fails on an empty record
   * list, and appends every record's name while overwriting the four keys.
   */
  method ConvertFrom(dst: ResourceLimiter, srcRaw: object) returns (err: Option<string>)
    modifies dst
    ensures !(srcRaw is ResourceLimiterV2) ==> err == Some(WrongTypeError) && unchanged(dst)
    ensures srcRaw is ResourceLimiterV2 ==>
      var src := srcRaw as ResourceLimiterV2;
      && dst.spec == CollapsedSpec(old(src.spec))
      && dst.meta == old(dst.meta) && dst.status == old(dst.status)
      && err == (if |old(src.spec.quotas)| == 0 then Some(EmptyQuotasError) else None)
  {
    if !(srcRaw is ResourceLimiterV2) {
      return Some(WrongTypeError);
    }
    var src := srcRaw as ResourceLimiterV2;
    dst.spec := dst.spec.(targets := []);
    dst.spec := dst.spec.(types := map[]);
    dst.spec := dst.spec.(applied := src.spec.applied);
    var quotas := src.spec.quotas;
    if |quotas| == 0 {
      return Some(EmptyQuotasError);
    }
    var i := 0;
    while i < |quotas|
      invariant 0 <= i <= |quotas|
      invariant dst.spec.targets == Names(quotas[..i])
      invariant i == 0 ==> dst.spec.types == map[]
      invariant i > 0 ==> dst.spec.types == TypesOf(quotas[i - 1])
      invariant dst.spec.types.Keys <= {LimitsCpu, RequestsCpu, LimitsMemory, RequestsMemory}
      invariant dst.spec.applied == src.spec.applied
      invariant src.spec == old(src.spec)
      invariant dst.meta == old(dst.meta) && dst.status == old(dst.status)
    {
      var v := quotas[i];
      assert quotas[..i + 1][..i] == quotas[..i];
      ghost var before := dst.spec.types;
      dst.spec := dst.spec.(targets := dst.spec.targets + [v.namespaceName]);
      dst.spec := dst.spec.(types := dst.spec.types[LimitsCpu := v.cpuLimit]);
      dst.spec := dst.spec.(types := dst.spec.types[RequestsCpu := v.cpuRequest]);
      dst.spec := dst.spec.(types := dst.spec.types[LimitsMemory := v.memLimit]);
      dst.spec := dst.spec.(types := dst.spec.types[RequestsMemory := v.memRequest]);
      OverwriteAllKeys(before, v);
      i := i + 1;
    }
    assert quotas[..i] == quotas;
    return None;
  }

  /** Writing the four keys over a map that holds no other key gives the record's map. */
  lemma OverwriteAllKeys(m: map<string, string>, v: QuotaRecord)
    requires m.Keys <= {LimitsCpu, RequestsCpu, LimitsMemory, RequestsMemory}
    ensures m[LimitsCpu := v.cpuLimit][RequestsCpu := v.cpuRequest]
             [LimitsMemory := v.memLimit][RequestsMemory := v.memRequest] == TypesOf(v)
  {
  }

  // ---------------------------------------------------------------------
  // Properties of the two conversions
  // ---------------------------------------------------------------------

  /** Broadcast yields one record per target, the i-th for the i-th target. */
  lemma {:induction false} BroadcastAt(targets: seq<string>, types: map<string, string>)
    ensures |Broadcast(targets, types)| == |targets|
    ensures forall i :: 0 <= i < |targets| ==> Broadcast(targets, types)[i] == RecordFor(targets[i], types)
  {
    if |targets| > 0 {
      var init := targets[..|targets| - 1];
      BroadcastAt(init, types);
      forall i | 0 <= i < |targets|
        ensures Broadcast(targets, types)[i] == RecordFor(targets[i], types)
      {
        if i < |targets| - 1 {
          assert init[i] == targets[i];
        }
      }
    }
  }

  /**
   * ConvertTo's output is twice as long as the target list: |targets| zero
   * records, then one record per target in target order.
   */
  lemma ConvertedQuotasShape(spec: SpecV1)
    ensures |ConvertedQuotas(spec)| == 2 * |spec.targets|
    ensures forall i :: 0 <= i < |spec.targets| ==> ConvertedQuotas(spec)[i] == ZeroRecord
    ensures forall i :: 0 <= i < |spec.targets| ==>
      ConvertedQuotas(spec)[|spec.targets| + i] == RecordFor(spec.targets[i], spec.types)
  {
    BroadcastAt(spec.targets, spec.types);
  }

  /** ConvertFrom's targets are the records' namespace names, in order. */
  lemma {:induction false} NamesAt(quotas: seq<QuotaRecord>)
    ensures |Names(quotas)| == |quotas|
    ensures forall i :: 0 <= i < |quotas| ==> Names(quotas)[i] == quotas[i].namespaceName
  {
    if |quotas| > 0 {
      var init := quotas[..|quotas| - 1];
      NamesAt(init);
      forall i | 0 <= i < |quotas|
        ensures Names(quotas)[i] == quotas[i].namespaceName
      {
        if i < |quotas| - 1 {
          assert init[i] == quotas[i];
        }
      }
    }
  }

  /** Two records carry the same four quantities. */
  predicate SameQuantities(a: QuotaRecord, b: QuotaRecord)
  {
    a.cpuRequest == b.cpuRequest && a.cpuLimit == b.cpuLimit
    && a.memLimit == b.memLimit && a.memRequest == b.memRequest
  }

  /**
   * ConvertFrom keeps exactly the four keys with the last record's values;
   * when every record carries the same quantities as `r`, the flat map holds
   * exactly those.
   */
  lemma CollapseUniform(spec: SpecV2, r: QuotaRecord)
    requires |spec.quotas| > 0
    requires forall i :: 0 <= i < |spec.quotas| ==> SameQuantities(spec.quotas[i], r)
    ensures CollapsedSpec(spec).types == TypesOf(r)
    ensures CollapsedSpec(spec).types.Keys == {LimitsCpu, RequestsCpu, LimitsMemory, RequestsMemory}
    ensures CollapsedSpec(spec).targets == Names(spec.quotas)
  {
    var last := spec.quotas[|spec.quotas| - 1];
    assert SameQuantities(last, r);
  }

  /**
   * v1beta2 -> v1beta1 -> v1beta2 without the zero prefix: records that all
   * carry the same quantities come back unchanged.
   */
  lemma UniformRecordsSurviveCollapse(spec: SpecV2)
    requires |spec.quotas| > 0
    requires forall i :: 0 <= i < |spec.quotas| ==> SameQuantities(spec.quotas[i], spec.quotas[0])
    ensures Broadcast(CollapsedSpec(spec).targets, CollapsedSpec(spec).types) == spec.quotas
  {
    var a := CollapsedSpec(spec);
    var last := spec.quotas[|spec.quotas| - 1];
    NamesAt(spec.quotas);
    BroadcastAt(a.targets, a.types);
    forall i | 0 <= i < |spec.quotas|
      ensures Broadcast(a.targets, a.types)[i] == spec.quotas[i]
    {
      assert SameQuantities(spec.quotas[i], spec.quotas[0]);
      assert SameQuantities(last, spec.quotas[0]);
    }
  }

  // ---------------------------------------------------------------------
  // The doubled quota list and its intended form
  // ---------------------------------------------------------------------

  /**
   * As written, v1beta1 -> v1beta2 -> v1beta1 prepends one empty namespace
   * name per target, so a non-empty target list never survives the round trip.
   */
  lemma RoundTripAsWritten(spec: SpecV1)
    requires |spec.targets| > 0
    ensures CollapsedSpec(SpecV2(ConvertedQuotas(spec), spec.applied)).targets
            == Repeat("", |spec.targets|) + spec.targets
    ensures CollapsedSpec(SpecV2(ConvertedQuotas(spec), spec.applied)).targets != spec.targets
  {
    var n := |spec.targets|;
    var q := ConvertedQuotas(spec);
    ConvertedQuotasShape(spec);
    NamesAt(q);
    var names := CollapsedSpec(SpecV2(q, spec.applied)).targets;
    assert |names| == 2 * n;
    forall i | 0 <= i < 2 * n
      ensures names[i] == (Repeat("", n) + spec.targets)[i]
    {
      if i >= n {
        assert q[n + (i - n)] == RecordFor(spec.targets[i - n], spec.types);
      }
    }
  }

  /** The evidently intended quota list: one record per target, nothing before them. */
  function ConvertedQuotasCorrected(spec: SpecV1): seq<QuotaRecord>
  {
    Broadcast(spec.targets, spec.types)
  }

  /**
   * With the corrected list, v1beta1 -> v1beta2 -> v1beta1 is lossless for a
   * non-empty target list whose flat map holds exactly the four keys.
   */
  lemma RoundTripCorrected(spec: SpecV1)
    requires |spec.targets| > 0
    requires spec.types.Keys == {LimitsCpu, RequestsCpu, LimitsMemory, RequestsMemory}
    ensures CollapsedSpec(SpecV2(ConvertedQuotasCorrected(spec), spec.applied)) == spec
  {
    var q := ConvertedQuotasCorrected(spec);
    BroadcastAt(spec.targets, spec.types);
    NamesAt(q);
    var back := CollapsedSpec(SpecV2(q, spec.applied));
    assert back.targets == spec.targets;
    var last := q[|q| - 1];
    assert last == RecordFor(spec.targets[|spec.targets| - 1], spec.types);
    assert back.types == spec.types;
  }
}
