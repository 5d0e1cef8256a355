/**
 * The CRD conversion webhook: it picks a serializer from the Content-Type
 * and Accept headers, converts every object of a ConversionReview from
 * v1beta1 to v1beta2 (all or nothing), and writes the review back with
 * the request cleared.
 */
module ConversionWebhook {
  import opened Wrappers
  import opened ApiTypes
  import opened LimiterConversion

  const FromVersion: string := "resources.resourcelimiter.io/v1beta1"
  const ToVersion: string := "resources.resourcelimiter.io/v1beta2"

  const StatusSuccess: string := "Success"
  const StatusFailure: string := "Failure"

  /** The `Status` and `Message` of a metav1.Status. */
  datatype Status = Status(status: string, message: string)

  /** statusErrorWithMessage: a failure carrying the message. */
  function StatusErrorWithMessage(message: string): (s: Status)
    ensures s.status == StatusFailure && s.status != StatusSuccess && s.message == message
  {
    Status(StatusFailure, message)
  }

  /** statusSucceed: a success without a message. */
  function StatusSucceed(): (s: Status)
    ensures s.status == StatusSuccess && s.message == ""
  {
    Status(StatusSuccess, "")
  }

  datatype ConversionResponse = ConversionResponse(uid: string, converted: seq<LimiterV2>, result: Status)

  /** conversionResponseFailureWithMessagef: no converted objects and a failure status. */
  function FailureResponse(message: string): (r: ConversionResponse)
    ensures r.converted == [] && r.result.status == StatusFailure && r.result.message == message
  {
    ConversionResponse("", [], StatusErrorWithMessage(message))
  }

  /** The hub object built from a v1beta1 spec; the source object carries no metadata. */
  function Converted(spec: SpecV1): LimiterV2
  {
    LimiterV2(EmptyMeta, SpecV2(ConvertedQuotas(spec), spec.applied))
  }

  /**
   * convertV1beta1IntoV1beta2: the same-version guard compares two distinct
   * constants, and ConvertTo into a fresh v1beta2 object cannot fail, so
   * the result is always a success.
   */
  method ConvertV1beta1IntoV1beta2(oldObject: ResourceLimiter) returns (newObject: Option<LimiterV2>, status: Status)
    ensures status == StatusSucceed()
    ensures newObject == Some(LimiterV2(EmptyMeta.(name := oldObject.meta.name),
                                        SpecV2(ConvertedQuotas(oldObject.spec), oldObject.spec.applied)))
  {
    if ToVersion == FromVersion {
      return None, StatusErrorWithMessage("conversion from a version to itself should not call the webhook: " + ToVersion);
    }
    var dst := new ResourceLimiterV2();
    var err := ConvertTo(oldObject, dst);
    if err.Some? {
      return None, StatusErrorWithMessage("failed to convert from \"" + FromVersion + "\" into \"" + ToVersion + "\"");
    }
    return Some(dst.Value()), StatusSucceed();
  }

  // ---------------------------------------------------------------------
  // doConversion
  // ---------------------------------------------------------------------

  /** One object of the request: its raw text and what decoding it as a v1beta1 spec yields. */
  datatype RawObject = RawObject(raw: string, decoded: Result<SpecV1, string>)

  datatype ConversionRequest = ConversionRequest(uid: string, desiredAPIVersion: string, objects: seq<RawObject>)

  /** The response for an object that does not decode. */
  function UnmarshalFailure(obj: RawObject): ConversionResponse
    requires obj.decoded.Failure?
  {
    FailureResponse("failed to unmarshall object (" + obj.raw + ") with error: " + obj.decoded.error)
  }

  /** Every object converted in order, or the failure for the first one that does not decode. */
  function ConvertAll(objects: seq<RawObject>): Result<seq<LimiterV2>, ConversionResponse>
  {
    if |objects| == 0 then Success([])
    else if objects[0].decoded.Failure? then Failure(UnmarshalFailure(objects[0]))
    else
      match ConvertAll(objects[1..])
      case Success(rest) => Success([Converted(objects[0].decoded.value)] + rest)
      case Failure(r) => Failure(r)
  }

  /** `done` followed by the outcome of the remaining objects. */
  function After(done: seq<LimiterV2>, r: Result<seq<LimiterV2>, ConversionResponse>): Result<seq<LimiterV2>, ConversionResponse>
  {
    match r
    case Success(rest) => Success(done + rest)
    case Failure(f) => Failure(f)
  }

  /** The response doConversion returns, keyed on the desired version. */
  function ConversionOutcome(req: ConversionRequest): ConversionResponse
  {
    if req.desiredAPIVersion == ToVersion then
      match ConvertAll(req.objects)
      case Success(c) => ConversionResponse("", c, StatusSucceed())
      case Failure(r) => r
    else if req.desiredAPIVersion == FromVersion then ConversionResponse("", [], StatusSucceed())
    else ConversionResponse("", [], StatusErrorWithMessage("failed to do the conversion"))
  }

  /** doConversion: converts object by object and returns at the first failure. */
  method DoConversion(req: ConversionRequest) returns (resp: ConversionResponse)
    ensures resp == ConversionOutcome(req)
  {
    var converted: seq<LimiterV2> := [];
    if req.desiredAPIVersion == ToVersion {
      var objects := req.objects;
      var i := 0;
      assert objects[0..] == objects;
      AfterNil(ConvertAll(objects));
      while i < |objects|
        invariant 0 <= i <= |objects|
        invariant After(converted, ConvertAll(objects[i..])) == ConvertAll(objects)
      {
        var obj := objects[i];
        assert objects[i..][1..] == objects[i + 1..];
        if obj.decoded.Failure? {
          return UnmarshalFailure(obj);
        }
        var cr := new ResourceLimiter(EmptyMeta, obj.decoded.value, StatusV1("", map[]));
        var newVer, status := ConvertV1beta1IntoV1beta2(cr);
        if status.status != StatusSuccess {
          return ConversionResponse("", [], status);
        }
        assert newVer.value == Converted(obj.decoded.value);
        AfterAssoc(converted, [newVer.value], ConvertAll(objects[i + 1..]));
        converted := converted + [newVer.value];
        i := i + 1;
      }
      assert objects[|objects|..] == [];
      assert converted + [] == converted;
      return ConversionResponse("", converted, StatusSucceed());
    } else if req.desiredAPIVersion == FromVersion {
      return ConversionResponse("", converted, StatusSucceed());
    }
    return ConversionResponse("", converted, StatusErrorWithMessage("failed to do the conversion"));
  }

  lemma AfterNil(r: Result<seq<LimiterV2>, ConversionResponse>)
    ensures After([], r) == r
  {
    if r.Success? {
      assert [] + r.value == r.value;
    }
  }

  lemma AfterAssoc(a: seq<LimiterV2>, b: seq<LimiterV2>, r: Result<seq<LimiterV2>, ConversionResponse>)
    ensures After(a, After(b, r)) == After(a + b, r)
  {
    if r.Success? {
      assert a + (b + r.value) == (a + b) + r.value;
    }
  }

  /**
   * The conversion is all or nothing: it succeeds exactly when every object
   * decodes, a success holds one converted object per input object in
   * input order, and a failure reports the first object that does not
   * decode and carries no converted objects.
   */
  lemma {:induction false} ConvertAllFacts(objects: seq<RawObject>)
    ensures ConvertAll(objects).Success? <==> forall i :: 0 <= i < |objects| ==> objects[i].decoded.Success?
    ensures ConvertAll(objects).Success? ==>
      && |ConvertAll(objects).value| == |objects|
      && forall i :: 0 <= i < |objects| ==> ConvertAll(objects).value[i] == Converted(objects[i].decoded.value)
    ensures ConvertAll(objects).Failure? ==>
      exists k :: 0 <= k < |objects| && objects[k].decoded.Failure?
        && (forall j :: 0 <= j < k ==> objects[j].decoded.Success?)
        && ConvertAll(objects).error == UnmarshalFailure(objects[k])
  {
    if |objects| > 0 && objects[0].decoded.Success? {
      var rest := objects[1..];
      ConvertAllFacts(rest);
      if ConvertAll(rest).Success? {
        forall i | 0 <= i < |objects|
          ensures objects[i].decoded.Success?
        {
          if i > 0 {
            assert objects[i] == rest[i - 1];
          }
        }
        forall i | 0 <= i < |objects|
          ensures ConvertAll(objects).value[i] == Converted(objects[i].decoded.value)
        {
          if i > 0 {
            assert objects[i] == rest[i - 1];
          }
        }
      } else {
        var k :| 0 <= k < |rest| && rest[k].decoded.Failure?
          && (forall j :: 0 <= j < k ==> rest[j].decoded.Success?)
          && ConvertAll(rest).error == UnmarshalFailure(rest[k]);
        assert objects[k + 1] == rest[k];
        forall j | 0 <= j < k + 1
          ensures objects[j].decoded.Success?
        {
          if j > 0 {
            assert objects[j] == rest[j - 1];
          }
        }
      }
    }
  }

  /**
   * doConversion reports success exactly for v1beta1 and for a v1beta2
   * request whose objects all decode; every failure response is empty.
   */
  lemma ConversionOutcomeStatus(req: ConversionRequest)
    ensures ConversionOutcome(req).result.status == StatusSuccess <==>
      req.desiredAPIVersion == FromVersion
      || (req.desiredAPIVersion == ToVersion && forall i :: 0 <= i < |req.objects| ==> req.objects[i].decoded.Success?)
    ensures ConversionOutcome(req).result.status != StatusSuccess ==> ConversionOutcome(req).converted == []
    ensures req.desiredAPIVersion == ToVersion && ConversionOutcome(req).result.status == StatusSuccess ==>
      |ConversionOutcome(req).converted| == |req.objects|
    ensures ConversionOutcome(req).uid == ""
  {
    ConvertAllFacts(req.objects);
    if req.desiredAPIVersion == ToVersion && ConvertAll(req.objects).Failure? {
      var k :| 0 <= k < |req.objects| && req.objects[k].decoded.Failure?
        && ConvertAll(req.objects).error == UnmarshalFailure(req.objects[k]);
    }
  }

  // ---------------------------------------------------------------------
  // Serializer selection
  // ---------------------------------------------------------------------

  datatype Serializer = Json | Yaml

  datatype MediaType = MediaType(typ: string, subType: string)

  const JsonMedia: MediaType := MediaType("application", "json")
  const YamlMedia: MediaType := MediaType("application", "yaml")

  /** The two registered serializers. */
  const Serializers: map<MediaType, Serializer> := map[JsonMedia := Json, YamlMedia := Yaml]

  /** strings.SplitN(s, sep, 2): the whole string, or the parts before and after the first `sep`. */
  function SplitFirst(s: string, sep: char): (parts: seq<string>)
    ensures |parts| == 1 || |parts| == 2
    ensures |parts| == 1 <==> sep !in s
    ensures |parts| == 1 ==> parts[0] == s
    ensures |parts| == 2 ==> s == parts[0] + [sep] + parts[1] && sep !in parts[0]
  {
    if |s| == 0 then [s]
    else if s[0] == sep then ["", s[1..]]
    else
      var rest := SplitFirst(s[1..], sep);
      if |rest| == 1 then [s] else [[s[0]] + rest[0], rest[1]]
  }

  /** The split at the first separator is the only one whose first part has no separator. */
  lemma {:induction false} SplitFirstUnique(a: string, b: string, sep: char)
    requires sep !in a
    ensures SplitFirst(a + [sep] + b, sep) == [a, b]
  {
    var s := a + [sep] + b;
    if |a| > 0 {
      assert s[1..] == a[1..] + [sep] + b;
      SplitFirstUnique(a[1..], b, sep);
      assert [a[0]] + a[1..] == a;
    } else {
      assert s[1..] == b;
    }
  }

  /** getInputSerializer: the serializer registered for the Content-Type, split at its first '/'. */
  function GetInputSerializer(contentType: string): Option<Serializer>
  {
    var parts := SplitFirst(contentType, '/');
    if |parts| != 2 then None
    else
      var m := MediaType(parts[0], parts[1]);
      if m in Serializers then Some(Serializers[m]) else None
  }

  /** A Content-Type `<type>/<subtype>` selects the serializer registered for that media type. */
  lemma InputSerializerFor(contentType: string, typ: string, subType: string)
    requires contentType == typ + ['/'] + subType && '/' !in typ
    ensures GetInputSerializer(contentType)
            == if MediaType(typ, subType) in Serializers then Some(Serializers[MediaType(typ, subType)]) else None
  {
    SplitFirstUnique(typ, subType, '/');
  }

  /** A Content-Type that selects a serializer is the name of its media type. */
  lemma InputSerializerOnlyRegistered(contentType: string)
    ensures GetInputSerializer(contentType) == Some(Json) ==> contentType == "application/json"
    ensures GetInputSerializer(contentType) == Some(Yaml) ==> contentType == "application/yaml"
  {
    var parts := SplitFirst(contentType, '/');
    if |parts| == 2 {
      var m := MediaType(parts[0], parts[1]);
      if m == JsonMedia || m == YamlMedia {
        MediaNames();
        assert contentType == m.typ + ['/'] + m.subType;
      }
    }
  }

  /** The names of the registered media types. */
  lemma MediaNames()
    ensures JsonMedia.typ + ['/'] + JsonMedia.subType == "application/json"
    ensures YamlMedia.typ + ['/'] + YamlMedia.subType == "application/yaml"
  {
  }

  /**
   * Exactly "application/json" selects JSON and exactly "application/yaml"
   * selects YAML; any other Content-Type (parameters included) selects nothing.
   */
  lemma InputSerializerExact(contentType: string)
    ensures GetInputSerializer(contentType) == Some(Json) <==> contentType == "application/json"
    ensures GetInputSerializer(contentType) == Some(Yaml) <==> contentType == "application/yaml"
    ensures GetInputSerializer(contentType).None? <==>
      contentType != "application/json" && contentType != "application/yaml"
  {
    if contentType == "application/json" {
      InputSerializerFor(contentType, "application", "json");
    } else if contentType == "application/yaml" {
      InputSerializerFor(contentType, "application", "yaml");
    } else {
      InputSerializerOnlyRegistered(contentType);
    }
  }

  /** One clause of a parsed Accept header. */
  datatype MediaRange = MediaRange(typ: string, subType: string)

  /** The Accept header: its raw text and the clauses parsed from it, in preference order. */
  datatype AcceptHeader = AcceptHeader(raw: string, clauses: seq<MediaRange>)

  /** A clause selects a media type when it names it, names its type with a star subtype, or is the full wildcard. */
  predicate Matches(c: MediaRange, m: MediaType)
  {
    || (c.typ == m.typ && c.subType == m.subType)
    || (c.typ == m.typ && c.subType == "*")
    || (c.typ == "*" && c.subType == "*")
  }

  /** A clause selects one of the registered serializers. */
  predicate MatchesAny(c: MediaRange)
  {
    Matches(c, JsonMedia) || Matches(c, YamlMedia)
  }

  function MediaOf(s: Serializer): MediaType
  {
    match s
    case Json => JsonMedia
    case Yaml => YamlMedia
  }

  /**
   * getOutputSerializer: an empty Accept selects JSON; otherwise the first
   * clause that selects any serializer decides, and when that clause
   * selects both (a wildcard), map iteration order picks one.
   */
  method GetOutputSerializer(accept: AcceptHeader) returns (r: Option<Serializer>)
    ensures |accept.raw| == 0 ==> r == Some(Json)
    ensures |accept.raw| > 0 ==>
      (r.None? <==> forall i :: 0 <= i < |accept.clauses| ==> !MatchesAny(accept.clauses[i]))
    ensures |accept.raw| > 0 && r.Some? ==>
      exists i :: 0 <= i < |accept.clauses| && Matches(accept.clauses[i], MediaOf(r.value))
        && forall j :: 0 <= j < i ==> !MatchesAny(accept.clauses[j])
  {
    if |accept.raw| == 0 {
      return Some(Serializers[JsonMedia]);
    }
    var clauses := accept.clauses;
    var i := 0;
    while i < |clauses|
      invariant 0 <= i <= |clauses|
      invariant forall j :: 0 <= j < i ==> !MatchesAny(clauses[j])
    {
      var remaining := Serializers.Keys;
      while remaining != {}
        invariant remaining <= Serializers.Keys
        invariant forall m :: m in Serializers.Keys - remaining ==> !Matches(clauses[i], m)
        decreases remaining
      {
        var k :| k in remaining;
        if Matches(clauses[i], k) {
          assert MediaOf(Serializers[k]) == k;
          return Some(Serializers[k]);
        }
        remaining := remaining - {k};
      }
      assert JsonMedia in Serializers.Keys && YamlMedia in Serializers.Keys;
      i := i + 1;
    }
    return None;
  }

  // ---------------------------------------------------------------------
  // serveConvert
  // ---------------------------------------------------------------------

  datatype ConversionReview = ConversionReview(request: Option<ConversionRequest>, response: Option<ConversionResponse>)

  /** An HTTP request: body text, the two headers, and what decoding the body yields. */
  datatype ConvertHttpRequest = ConvertHttpRequest(
    body: string,
    contentType: string,
    accept: AcceptHeader,
    review: Result<ConversionReview, string>)

  /** What the handler does with the connection. */
  datatype ConvertReply =
    | ConvertHttpError(status: int, message: string)
    | Encoded(serializer: Serializer, review: ConversionReview)
    | ConvertPanic  // doConversion dereferences a nil request

  /** The request the response carries: every field at its zero value. */
  const ClearedRequest: ConversionRequest := ConversionRequest("", "", [])

  /** The response serveConvert puts in the review before encoding, when it does not panic. */
  function ServedResponse(r: ConvertHttpRequest): ConversionResponse
    requires r.review.Success? ==> r.review.value.request.Some?
  {
    match r.review
    case Failure(e) => FailureResponse("failed to deserialize body (" + r.body + ") with error " + e)
    case Success(review) =>
      var req := review.request.value;
      ConversionOutcome(req).(uid := req.uid)
  }

  /** serveConvert (and ServeConvert, which only delegates to it). */
  method ServeConvert(r: ConvertHttpRequest) returns (reply: ConvertReply)
    ensures GetInputSerializer(r.contentType).None? ==>
      reply == ConvertHttpError(400, "invalid Content-Type header `" + r.contentType + "`")
    ensures GetInputSerializer(r.contentType).Some? && r.review.Success? && r.review.value.request.None? ==>
      reply == ConvertPanic
    ensures GetInputSerializer(r.contentType).Some? && (r.review.Success? ==> r.review.value.request.Some?) ==>
      && (|r.accept.raw| == 0 ==> reply == Encoded(Json, ConversionReview(Some(ClearedRequest), Some(ServedResponse(r)))))
      && (|r.accept.raw| > 0 && (forall i :: 0 <= i < |r.accept.clauses| ==> !MatchesAny(r.accept.clauses[i])) ==>
            reply == ConvertHttpError(400, "invalid accept header `" + r.accept.raw + "`"))
      && (reply.Encoded? ==> reply.review == ConversionReview(Some(ClearedRequest), Some(ServedResponse(r))))
      && (reply.ConvertHttpError? ==> reply == ConvertHttpError(400, "invalid accept header `" + r.accept.raw + "`"))
    ensures GetInputSerializer(r.contentType).Some? && (r.review.Success? ==> r.review.value.request.Some?)
            && |r.accept.raw| > 0 && (exists i :: 0 <= i < |r.accept.clauses| && MatchesAny(r.accept.clauses[i])) ==>
      && reply.Encoded?
      && exists i :: 0 <= i < |r.accept.clauses| && Matches(r.accept.clauses[i], MediaOf(reply.serializer))
           && forall j :: 0 <= j < i ==> !MatchesAny(r.accept.clauses[j])
  {
    var serializer := GetInputSerializer(r.contentType);
    if serializer.None? {
      return ConvertHttpError(400, "invalid Content-Type header `" + r.contentType + "`");
    }
    var review: ConversionReview;
    match r.review {
      case Failure(e) =>
        review := ConversionReview(None, Some(FailureResponse("failed to deserialize body (" + r.body + ") with error " + e)));
      case Success(decoded) =>
        if decoded.request.None? {
          return ConvertPanic;
        }
        var resp := DoConversion(decoded.request.value);
        review := decoded.(response := Some(resp.(uid := decoded.request.value.uid)));
    }
    review := review.(request := Some(ClearedRequest));
    var outSerializer := GetOutputSerializer(r.accept);
    if outSerializer.None? {
      return ConvertHttpError(400, "invalid accept header `" + r.accept.raw + "`");
    }
    return Encoded(outSerializer.value, review);
  }
}
