/**
 * The v1beta1 defaulting and validating webhooks: Default fills an empty
 * quantity map; the Validate methods parse every quantity but, because the
 * error they return is never assigned and a parse panic is recovered by a
 * deferred handler, they always return nil.
 */
module LimiterWebhook {
  import opened Wrappers
  import opened ApiTypes
  import opened Quantities

  /** The spec Default leaves behind: an empty `types` becomes the four defaults. */
  function Defaulted(spec: SpecV1): SpecV1
  {
    if |spec.types| == 0 then spec.(types := DefaultTypes) else spec
  }

  /**
   * Default: an empty target list is reset to an empty list (there is no
   * expansion to all namespaces) and an empty map becomes the four defaults;
   * a non-empty map is kept whole, without a per-key merge.
   */
  method Default(r: ResourceLimiter)
    modifies r
    ensures r.spec == Defaulted(old(r.spec))
    ensures r.meta == old(r.meta) && r.status == old(r.status)
  {
    if |r.spec.targets| == 0 {
      r.spec := r.spec.(targets := []);
    }
    if |r.spec.types| == 0 {
      r.spec := r.spec.(types := DefaultTypes);
    }
  }

  /** What Default promises about every spec, and that a second run changes nothing. */
  lemma DefaultedFacts(spec: SpecV1)
    ensures Defaulted(spec).targets == spec.targets
    ensures Defaulted(spec).applied == spec.applied
    ensures |spec.types| == 0 ==>
      Defaulted(spec).types == map[LimitsCpu := "2", LimitsMemory := "200Mi", RequestsCpu := "1", RequestsMemory := "150Mi"]
    ensures |spec.types| > 0 ==> Defaulted(spec).types == spec.types
    ensures |Defaulted(spec).types| > 0
    ensures Defaulted(Defaulted(spec)) == Defaulted(spec)
  {
    assert LimitsCpu in DefaultTypes;
  }

  /**
   * The parse loop shared by ValidateCreate and ValidateUpdate.  `panicked`
   * records whether MustParse panicked on some value; the deferred recover
   * then makes the method return its zero value, so `err` is nil either way.
   */
  method ValidateTypes(types: map<string, string>, parse: Parser) returns (err: Option<string>, ghost panicked: bool)
    ensures err == None
    ensures panicked <==> !AllQuantitiesValid(parse, types)
  {
    var unset: Option<string> := None;  // the local `err`, which nothing assigns
    var remaining := types.Keys;
    while remaining != {}
      invariant remaining <= types.Keys
      invariant forall k :: k in types.Keys - remaining ==> ValidQuantity(parse, types[k])
      decreases remaining
    {
      var t :| t in remaining;
      var parsed := MustParse(parse, types[t]);
      if parsed.Panic? {
        // recovered by the deferred handler: the unnamed result stays nil
        return None, true;
      }
      remaining := remaining - {t};
    }
    return unset, false;
  }

  /** ValidateCreate: never returns a non-nil error, whatever the quantities. */
  method ValidateCreate(r: ResourceLimiter, parse: Parser) returns (err: Option<string>, ghost panicked: bool)
    ensures err == None
    ensures panicked <==> !AllQuantitiesValid(parse, r.spec.types)
  {
    err, panicked := ValidateTypes(r.spec.types, parse);
  }

  /** ValidateUpdate: the same check as ValidateCreate; the old object is ignored. */
  method ValidateUpdate(r: ResourceLimiter, oldObject: object, parse: Parser) returns (err: Option<string>, ghost panicked: bool)
    ensures err == None
    ensures panicked <==> !AllQuantitiesValid(parse, r.spec.types)
  {
    err, panicked := ValidateTypes(r.spec.types, parse);
  }

  /** ValidateDelete: always nil. */
  method ValidateDelete(r: ResourceLimiter) returns (err: Option<string>)
    ensures err == None
  {
    return None;
  }

  /**
   * The error text the deferred handler builds from a recovered MustParse
   * panic on `text` (the parser's own reason, which follows, is not modelled).
   */
  function PanicMessage(text: string): string
  {
    "MustParse failed due to cannot parse '" + text + "'"
  }

  /**
   * The parse loop as evidently intended: the deferred handler assigns the
   * recovered panic to the named error result, so the first value that does
   * not parse is reported and an all-valid map gives no error.
   */
  method ValidateTypesCorrected(types: map<string, string>, parse: Parser) returns (err: Option<string>)
    ensures err.None? <==> AllQuantitiesValid(parse, types)
    ensures err.Some? ==> exists k :: k in types && !ValidQuantity(parse, types[k]) && err.value == PanicMessage(types[k])
  {
    var remaining := types.Keys;
    while remaining != {}
      invariant remaining <= types.Keys
      invariant forall k :: k in types.Keys - remaining ==> ValidQuantity(parse, types[k])
      decreases remaining
    {
      var t :| t in remaining;
      var parsed := MustParse(parse, types[t]);
      if parsed.Panic? {
        // recovered by the deferred handler, which now writes the named result
        err := Some(PanicMessage(parsed.text));
        return;
      }
      remaining := remaining - {t};
    }
    err := None;
  }

  /**
   * An object holding an unparsable quantity: the validator as written
   * returns no error for it, while the corrected one reports that quantity's
   * text or another invalid one.
   */
  method InvalidQuantityAccepted(types: map<string, string>, parse: Parser, key: string)
    returns (asWritten: Option<string>, corrected: Option<string>)
    requires key in types && !ValidQuantity(parse, types[key])
    ensures asWritten == None
    ensures corrected.Some?
    ensures exists k :: k in types && !ValidQuantity(parse, types[k]) && corrected.value == PanicMessage(types[k])
  {
    ghost var panicked;
    asWritten, panicked := ValidateTypes(types, parse);
    corrected := ValidateTypesCorrected(types, parse);
  }
}
