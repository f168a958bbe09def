/**
 * The response envelopes of the Open Service Broker API server: the JSON
 * shape of every success and error body. Each envelope is a struct whose
 * fields carry JSON tags; this module records those tags as schemas and
 * derives the encoder (which keys appear) and the decoder from them.
 */
module ApiResponses {
  import opened Options
  import opened JsonEncoding

  /** The fields of a bind response; GetBindingResponse embeds them. */
  datatype BindingResponse<A> = BindingResponse(
    credentials: Option<A>,
    syslogDrainUrl: string,
    routeServiceUrl: string,
    volumeMounts: seq<A>,
    backupAgentUrl: string,
    endpoints: seq<A>,
    metadata: Option<A>)

  /** Every body a handler can write. `A` is the type of opaque payloads. */
  datatype Envelope<A> =
    | EmptyResponse
    | ErrorResponse(error: string, description: string)
    | CatalogResponse(services: seq<A>)
    | ProvisioningResponse(dashboardUrl: string, operationData: string, metadata: Option<A>)
    | GetInstanceResponse(serviceId: string, planId: string, dashboardUrl: string,
                          parameters: Option<A>, metadata: Option<A>)
    | UpdateResponse(dashboardUrl: string, operationData: string, metadata: Option<A>)
    | DeprovisionResponse(operationData: string)
    | LastOperationResponse(state: string, description: string)
    | AsyncBindResponse(operationData: string)
    | Binding(binding: BindingResponse<A>)
    | GetBindingResponse(binding: BindingResponse<A>, parameters: Option<A>)
    | UnbindResponse(operationData: string)

  /** Which struct a body is; a decoder is always asked for a particular one. */
  datatype Shape =
    | EmptyShape | ErrorShape | CatalogShape | ProvisioningShape | GetInstanceShape
    | UpdateShape | DeprovisionShape | LastOperationShape | AsyncBindShape
    | BindingShape | GetBindingShape | UnbindShape

  function ShapeOf<A>(e: Envelope<A>): Shape {
    match e
    case EmptyResponse => EmptyShape
    case ErrorResponse(_, _) => ErrorShape
    case CatalogResponse(_) => CatalogShape
    case ProvisioningResponse(_, _, _) => ProvisioningShape
    case GetInstanceResponse(_, _, _, _, _) => GetInstanceShape
    case UpdateResponse(_, _, _) => UpdateShape
    case DeprovisionResponse(_) => DeprovisionShape
    case LastOperationResponse(_, _) => LastOperationShape
    case AsyncBindResponse(_) => AsyncBindShape
    case Binding(_) => BindingShape
    case GetBindingResponse(_, _) => GetBindingShape
    case UnbindResponse(_) => UnbindShape
  }

  /** The member names the envelopes declare, each with its text on the wire. */
  datatype Key =
    | ErrorKey | DescriptionKey | ServicesKey | DashboardUrlKey | OperationKey | MetadataKey
    | ServiceIdKey | PlanIdKey | ParametersKey | StateKey | CredentialsKey | SyslogDrainUrlKey
    | RouteServiceUrlKey | VolumeMountsKey | BackupAgentUrlKey | EndpointsKey
  {
    function Name(): string {
      match this
      case ErrorKey => "error"
      case DescriptionKey => "description"
      case ServicesKey => "services"
      case DashboardUrlKey => "dashboard_url"
      case OperationKey => "operation"
      case MetadataKey => "metadata"
      case ServiceIdKey => "service_id"
      case PlanIdKey => "plan_id"
      case ParametersKey => "parameters"
      case StateKey => "state"
      case CredentialsKey => "credentials"
      case SyslogDrainUrlKey => "syslog_drain_url"
      case RouteServiceUrlKey => "route_service_url"
      case VolumeMountsKey => "volume_mounts"
      case BackupAgentUrlKey => "backup_agent_url"
      case EndpointsKey => "endpoints"
    }
  }

  /** Distinct keys have distinct names on the wire, so an object keyed by Key is one keyed by name (see `Wire`). */
  lemma NamesDistinct(k1: Key, k2: Key)
    requires k1 != k2
    ensures k1.Name() != k2.Name()
  {
  }

  type Field = FieldSpec<Key>

  /** `json:"name"`: always written. */
  function Always(key: Key, kind: Kind): Field { FieldSpec(key, kind, false) }

  /** `json:"name,omitempty"`: written only when not empty. */
  function OmitEmpty(key: Key, kind: Kind): Field { FieldSpec(key, kind, true) }

  /** A struct holding only `OperationData string` tagged `json:"operation,omitempty"`. */
  const OperationSchema: seq<Field> := [OmitEmpty(OperationKey, Text)]

  const BindingSchema: seq<Field> := [
    OmitEmpty(CredentialsKey, Opaque),
    OmitEmpty(SyslogDrainUrlKey, Text),
    OmitEmpty(RouteServiceUrlKey, Text),
    OmitEmpty(VolumeMountsKey, Array),
    OmitEmpty(BackupAgentUrlKey, Text),
    OmitEmpty(EndpointsKey, Array),
    OmitEmpty(MetadataKey, Opaque)]

  const BindingKeys: set<Key> := {
    CredentialsKey, SyslogDrainUrlKey, RouteServiceUrlKey, VolumeMountsKey,
    BackupAgentUrlKey, EndpointsKey, MetadataKey}

  /**
   * The fields of each struct in declaration order, with their tags. No
   * struct declares the same key twice, GetBindingResponse's promoted
   * fields included.
   */
  function Schema(t: Shape): (s: seq<Field>)
    ensures DistinctKeys(s)
  {
    match t
    case EmptyShape => []
    case ErrorShape => [OmitEmpty(ErrorKey, Text), Always(DescriptionKey, Text)]
    case CatalogShape => [Always(ServicesKey, Array)]
    case ProvisioningShape =>
      [OmitEmpty(DashboardUrlKey, Text), OmitEmpty(OperationKey, Text), OmitEmpty(MetadataKey, Opaque)]
    case GetInstanceShape =>
      [Always(ServiceIdKey, Text), Always(PlanIdKey, Text), OmitEmpty(DashboardUrlKey, Text),
       OmitEmpty(ParametersKey, Opaque), OmitEmpty(MetadataKey, Opaque)]
    case UpdateShape =>
      [OmitEmpty(DashboardUrlKey, Text), OmitEmpty(OperationKey, Text), OmitEmpty(MetadataKey, Opaque)]
    case DeprovisionShape => OperationSchema
    case LastOperationShape => [Always(StateKey, Text), OmitEmpty(DescriptionKey, Text)]
    case AsyncBindShape => OperationSchema
    case BindingShape => BindingSchema
    // the embedded struct's fields are promoted to the top level
    case GetBindingShape => BindingSchema + [OmitEmpty(ParametersKey, Opaque)]
    case UnbindShape => OperationSchema
  }

  function BindingValues<A>(b: BindingResponse<A>): seq<Value<A>> {
    [Any(b.credentials), Str(b.syslogDrainUrl), Str(b.routeServiceUrl), List(b.volumeMounts),
     Str(b.backupAgentUrl), List(b.endpoints), Any(b.metadata)]
  }

  /** The field values of a body, in the order of its schema. */
  function Values<A>(e: Envelope<A>): seq<Value<A>> {
    match e
    case EmptyResponse => []
    case ErrorResponse(error, description) => [Str(error), Str(description)]
    case CatalogResponse(services) => [List(services)]
    case ProvisioningResponse(url, op, metadata) => [Str(url), Str(op), Any(metadata)]
    case GetInstanceResponse(serviceId, planId, url, parameters, metadata) =>
      [Str(serviceId), Str(planId), Str(url), Any(parameters), Any(metadata)]
    case UpdateResponse(url, op, metadata) => [Str(url), Str(op), Any(metadata)]
    case DeprovisionResponse(op) => [Str(op)]
    case LastOperationResponse(state, description) => [Str(state), Str(description)]
    case AsyncBindResponse(op) => [Str(op)]
    case Binding(b) => BindingValues(b)
    case GetBindingResponse(b, parameters) => BindingValues(b) + [Any(parameters)]
    case UnbindResponse(op) => [Str(op)]
  }

  /** A bind response's values fit the binding schema. */
  lemma BindingConforms<A>(b: BindingResponse<A>)
    ensures Conforms(BindingSchema, BindingValues(b))
  {
  }

  /** Every body's values fit the kinds its schema declares. */
  lemma ValuesConform<A>(e: Envelope<A>)
    ensures Conforms(Schema(ShapeOf(e)), Values(e))
  {
    match e
    case EmptyResponse =>
    case ErrorResponse(_, _) =>
    case CatalogResponse(_) =>
    case ProvisioningResponse(_, _, _) =>
    case GetInstanceResponse(_, _, _, _, _) =>
    case UpdateResponse(_, _, _) =>
    case DeprovisionResponse(_) =>
    case LastOperationResponse(_, _) =>
    case AsyncBindResponse(_) =>
    case Binding(b) => BindingConforms(b);
    case GetBindingResponse(b, p) =>
      BindingConforms(b);
      ConformsAppend(BindingSchema, BindingValues(b), [OmitEmpty(ParametersKey, Opaque)], [Any(p)]);
    case UnbindResponse(_) =>
  }

  function BuildBinding<A>(vals: seq<Value<A>>): BindingResponse<A>
    requires Conforms(BindingSchema, vals)
  {
    BindingResponse(vals[0].payload, vals[1].s, vals[2].s, vals[3].items, vals[4].s, vals[5].items,
                    vals[6].payload)
  }

  /** The body of shape `t` whose fields hold `vals`. */
  function Build<A>(t: Shape, vals: seq<Value<A>>): (e: Envelope<A>)
    requires Conforms(Schema(t), vals)
    ensures ShapeOf(e) == t && Values(e) == vals
  {
    match t
    case EmptyShape => EmptyResponse
    case ErrorShape => ErrorResponse(vals[0].s, vals[1].s)
    case CatalogShape => CatalogResponse(vals[0].items)
    case ProvisioningShape => ProvisioningResponse(vals[0].s, vals[1].s, vals[2].payload)
    case GetInstanceShape =>
      GetInstanceResponse(vals[0].s, vals[1].s, vals[2].s, vals[3].payload, vals[4].payload)
    case UpdateShape => UpdateResponse(vals[0].s, vals[1].s, vals[2].payload)
    case DeprovisionShape => DeprovisionResponse(vals[0].s)
    case LastOperationShape => LastOperationResponse(vals[0].s, vals[1].s)
    case AsyncBindShape => AsyncBindResponse(vals[0].s)
    case BindingShape => Binding(BuildBinding(vals))
    case GetBindingShape =>
      assert Conforms(BindingSchema, vals[..7]);
      assert vals == vals[..7] + [vals[7]];
      GetBindingResponse(BuildBinding(vals[..7]), vals[7].payload)
    case UnbindShape => UnbindResponse(vals[0].s)
  }

  /** Rebuilding a body of its own shape from its own field values gives the body back. */
  lemma BuildValues<A>(e: Envelope<A>)
    ensures Conforms(Schema(ShapeOf(e)), Values(e)) && Build(ShapeOf(e), Values(e)) == e
  {
    ValuesConform(e);
    match e
    case EmptyResponse =>
    case ErrorResponse(_, _) =>
    case CatalogResponse(_) =>
    case ProvisioningResponse(_, _, _) =>
    case GetInstanceResponse(_, _, _, _, _) =>
    case UpdateResponse(_, _, _) =>
    case DeprovisionResponse(_) =>
    case LastOperationResponse(_, _) =>
    case AsyncBindResponse(_) =>
    case Binding(_) =>
    case GetBindingResponse(b, _) =>
      assert Values(e)[..7] == BindingValues(b);
    case UnbindResponse(_) =>
  }

  /** The JSON object a body serialises to: it holds exactly the keys of the emitted fields. */
  function Encode<A>(e: Envelope<A>): (obj: Object<Key, A>)
    ensures obj.Keys == Keys(e)
  {
    EmitKeySet(Schema(ShapeOf(e)), Values(e));
    Emit(Schema(ShapeOf(e)), Values(e))
  }

  /**
   * Decoding a JSON object into a fresh struct of shape `t`: a body of that
   * shape whose every field holds what it takes from the object (the member
   * under its key, or its zero value), or None exactly when some member has
   * a kind its field cannot take.
   */
  function Decode<A>(t: Shape, obj: Object<Key, A>): (r: Option<Envelope<A>>)
    ensures r.Some? ==> ShapeOf(r.value) == t
    ensures r.Some? ==> Read(Schema(t), obj).Some? && Values(r.value) == Read(Schema(t), obj).value
    ensures r.Some? ==> forall i :: 0 <= i < |Schema(t)| ==> Taken(Schema(t)[i], obj) == Some(Values(r.value)[i])
    ensures r.None? <==> exists i :: 0 <= i < |Schema(t)| && Taken(Schema(t)[i], obj).None?
  {
    match Read(Schema(t), obj)
    case None => None
    case Some(vals) => Some(Build(t, vals))
  }

  /** Decoding an encoded body into its own struct restores every field. */
  lemma EncodeDecode<A>(e: Envelope<A>)
    ensures Decode(ShapeOf(e), Encode(e)) == Some(e)
  {
    BuildValues(e);
    ReadEmit(Schema(ShapeOf(e)), Values(e));
  }

  /**
   * JSON `null` under a key decodes to the field's zero value, and a member
   * of another kind is a type error: `{"description": null}` is an
   * ErrorResponse with an empty description, `{"services": null}` a
   * CatalogResponse with no services, `{"description": []}` no ErrorResponse.
   */
  lemma NullDecodesToZero<A>()
    ensures Decode(ErrorShape, map[DescriptionKey := Value<A>.Any(None)]) == Some(Envelope<A>.ErrorResponse("", ""))
    ensures Decode(CatalogShape, map[ServicesKey := Value<A>.Any(None)]) == Some(Envelope<A>.CatalogResponse([]))
    ensures Decode(ErrorShape, map[DescriptionKey := Value<A>.List([])]) == None
  {
    var s := Schema(ErrorShape);
    assert Taken(s[1], map[DescriptionKey := Value<A>.List([])]).None?;
  }

  /** The object as written on the wire: each member named by its tag's text. */
  function Wire<A>(obj: Object<Key, A>): (w: map<string, Value<A>>)
    ensures forall k :: k in obj ==> k.Name() in w && w[k.Name()] == obj[k]
    ensures forall n :: n in w ==> exists k :: k in obj && k.Name() == n
  {
    assert forall k1: Key, k2: Key :: k1 != k2 ==> k1.Name() != k2.Name() by {
      forall k1: Key, k2: Key | k1 != k2 ensures k1.Name() != k2.Name() {
        NamesDistinct(k1, k2);
      }
    }
    map k | k in obj :: k.Name() := obj[k]
  }

  /** An object with one member is, on the wire, that member under its tag's text. */
  lemma WireSingleton<A>(k: Key, v: Value<A>)
    ensures Wire(map[k := v]) == map[k.Name() := v]
  {
    var w := Wire(map[k := v]);
    assert k.Name() in w && w[k.Name()] == v;
    assert w.Keys == {k.Name()};
  }

  // ---- Which keys each envelope writes ----

  /** The keys of the fields a body's encoder writes. */
  function Keys<A>(e: Envelope<A>): set<Key> {
    KeySet(Schema(ShapeOf(e)), Values(e))
  }

  /** EmptyResponse has no fields: it encodes to `{}`. */
  lemma EmptyResponseKeys<A>()
    ensures Keys(Envelope<A>.EmptyResponse) == {}
  {
  }

  /** ErrorResponse always writes `description`; `error` only when it is not empty. */
  lemma ErrorResponseKeys<A>(error: string, description: string)
    ensures DescriptionKey in Keys(Envelope<A>.ErrorResponse(error, description))
    ensures ErrorKey in Keys(Envelope<A>.ErrorResponse(error, description)) <==> error != ""
    ensures Keys(Envelope<A>.ErrorResponse(error, description)) <= {ErrorKey, DescriptionKey}
  {
    var e := Envelope<A>.ErrorResponse(error, description);
    var s, v := Schema(ShapeOf(e)), Values(e);
    assert s[0].key == ErrorKey && (Emitted(s[0], v[0]) <==> error != "");
    assert s[1].key == DescriptionKey && Emitted(s[1], v[1]);
  }

  /** An ErrorResponse without an error key encodes to an object holding only its description. */
  lemma DescriptionOnlyEncoded<A>(description: string)
    ensures Encode(Envelope<A>.ErrorResponse("", description)) == map[DescriptionKey := Str(description)]
    ensures Wire(Encode(Envelope<A>.ErrorResponse("", description))) == map["description" := Str(description)]
  {
    var e := Envelope<A>.ErrorResponse("", description);
    ErrorResponseKeys<A>("", description);
    EmitLookup(Schema(ErrorShape), Values(e), 1);
    assert Encode(e) == map[DescriptionKey := Str(description)];
    WireSingleton(DescriptionKey, Value<A>.Str(description));
  }

  /** CatalogResponse always writes `services`, even when there are none. */
  lemma CatalogResponseKeys<A>(services: seq<A>)
    ensures Keys(CatalogResponse(services)) == {ServicesKey}
  {
    var e := CatalogResponse(services);
    var s, v := Schema(ShapeOf(e)), Values(e);
    assert s[0].key == ServicesKey && Emitted(s[0], v[0]);
  }

  /** ProvisioningResponse writes each of its three fields only when it is set. */
  lemma ProvisioningResponseKeys<A>(dashboardUrl: string, operationData: string, metadata: Option<A>)
    ensures DashboardUrlKey in Keys(ProvisioningResponse(dashboardUrl, operationData, metadata)) <==> dashboardUrl != ""
    ensures OperationKey in Keys(ProvisioningResponse(dashboardUrl, operationData, metadata)) <==> operationData != ""
    ensures MetadataKey in Keys(ProvisioningResponse(dashboardUrl, operationData, metadata)) <==> metadata.Some?
    ensures Keys(ProvisioningResponse(dashboardUrl, operationData, metadata)) <= {DashboardUrlKey, OperationKey, MetadataKey}
  {
    var e := ProvisioningResponse(dashboardUrl, operationData, metadata);
    var s, v := Schema(ShapeOf(e)), Values(e);
    assert s[0].key == DashboardUrlKey && (Emitted(s[0], v[0]) <==> dashboardUrl != "");
    assert s[1].key == OperationKey && (Emitted(s[1], v[1]) <==> operationData != "");
    assert s[2].key == MetadataKey && (Emitted(s[2], v[2]) <==> metadata.Some?);
  }

  /** UpdateResponse has the same tags as ProvisioningResponse. */
  lemma UpdateResponseKeys<A>(dashboardUrl: string, operationData: string, metadata: Option<A>)
    ensures DashboardUrlKey in Keys(UpdateResponse(dashboardUrl, operationData, metadata)) <==> dashboardUrl != ""
    ensures OperationKey in Keys(UpdateResponse(dashboardUrl, operationData, metadata)) <==> operationData != ""
    ensures MetadataKey in Keys(UpdateResponse(dashboardUrl, operationData, metadata)) <==> metadata.Some?
    ensures Keys(UpdateResponse(dashboardUrl, operationData, metadata)) <= {DashboardUrlKey, OperationKey, MetadataKey}
  {
    var e := UpdateResponse(dashboardUrl, operationData, metadata);
    var s, v := Schema(ShapeOf(e)), Values(e);
    assert s[0].key == DashboardUrlKey && (Emitted(s[0], v[0]) <==> dashboardUrl != "");
    assert s[1].key == OperationKey && (Emitted(s[1], v[1]) <==> operationData != "");
    assert s[2].key == MetadataKey && (Emitted(s[2], v[2]) <==> metadata.Some?);
  }

  /** GetInstanceResponse always writes the service and plan ids; the rest only when set. */
  lemma GetInstanceResponseKeys<A>(serviceId: string, planId: string, dashboardUrl: string,
                                   parameters: Option<A>, metadata: Option<A>)
    ensures ServiceIdKey in Keys(GetInstanceResponse(serviceId, planId, dashboardUrl, parameters, metadata))
    ensures PlanIdKey in Keys(GetInstanceResponse(serviceId, planId, dashboardUrl, parameters, metadata))
    ensures DashboardUrlKey in Keys(GetInstanceResponse(serviceId, planId, dashboardUrl, parameters, metadata)) <==> dashboardUrl != ""
    ensures ParametersKey in Keys(GetInstanceResponse(serviceId, planId, dashboardUrl, parameters, metadata)) <==> parameters.Some?
    ensures MetadataKey in Keys(GetInstanceResponse(serviceId, planId, dashboardUrl, parameters, metadata)) <==> metadata.Some?
    ensures Keys(GetInstanceResponse(serviceId, planId, dashboardUrl, parameters, metadata)) <= {ServiceIdKey, PlanIdKey, DashboardUrlKey, ParametersKey, MetadataKey}
  {
    var e := GetInstanceResponse(serviceId, planId, dashboardUrl, parameters, metadata);
    var s, v := Schema(ShapeOf(e)), Values(e);
    assert s[0].key == ServiceIdKey && Emitted(s[0], v[0]);
    assert s[1].key == PlanIdKey && Emitted(s[1], v[1]);
    assert s[2].key == DashboardUrlKey && (Emitted(s[2], v[2]) <==> dashboardUrl != "");
    assert s[3].key == ParametersKey && (Emitted(s[3], v[3]) <==> parameters.Some?);
    assert s[4].key == MetadataKey && (Emitted(s[4], v[4]) <==> metadata.Some?);
  }

  /** LastOperationResponse always writes `state`; `description` only when it is not empty. */
  lemma LastOperationResponseKeys<A>(state: string, description: string)
    ensures StateKey in Keys(Envelope<A>.LastOperationResponse(state, description))
    ensures DescriptionKey in Keys(Envelope<A>.LastOperationResponse(state, description)) <==> description != ""
    ensures Keys(Envelope<A>.LastOperationResponse(state, description)) <= {StateKey, DescriptionKey}
  {
    var e := Envelope<A>.LastOperationResponse(state, description);
    var s, v := Schema(ShapeOf(e)), Values(e);
    assert s[0].key == StateKey && Emitted(s[0], v[0]);
    assert s[1].key == DescriptionKey && (Emitted(s[1], v[1]) <==> description != "");
  }

  /** DeprovisionResponse, AsyncBindResponse and UnbindResponse write only `operation`, and only when set. */
  lemma OperationResponseKeys<A>(e: Envelope<A>)
    requires e.DeprovisionResponse? || e.AsyncBindResponse? || e.UnbindResponse?
    ensures Keys(e) == if e.operationData != "" then {OperationKey} else {}
  {
    var s, v := Schema(ShapeOf(e)), Values(e);
    assert s == OperationSchema && v == [Str(e.operationData)];
    assert s[0].key == OperationKey && (Emitted(s[0], v[0]) <==> e.operationData != "");
  }

  lemma BindingKeySet<A>(b: BindingResponse<A>)
    ensures Keys(Binding(b)) == KeySet(BindingSchema, BindingValues(b))
  {
  }

  /** BindingResponse writes each of its seven fields only when it is set. */
  lemma BindingResponseKeys<A>(b: BindingResponse<A>)
    ensures CredentialsKey in Keys(Binding(b)) <==> b.credentials.Some?
    ensures SyslogDrainUrlKey in Keys(Binding(b)) <==> b.syslogDrainUrl != ""
    ensures RouteServiceUrlKey in Keys(Binding(b)) <==> b.routeServiceUrl != ""
    ensures VolumeMountsKey in Keys(Binding(b)) <==> b.volumeMounts != []
    ensures BackupAgentUrlKey in Keys(Binding(b)) <==> b.backupAgentUrl != ""
    ensures EndpointsKey in Keys(Binding(b)) <==> b.endpoints != []
    ensures MetadataKey in Keys(Binding(b)) <==> b.metadata.Some?
    ensures Keys(Binding(b)) <= BindingKeys
  {
    var s, v := BindingSchema, BindingValues(b);
    BindingKeySet(b);
    KeySetMember(s, v, 0);
    KeySetMember(s, v, 1);
    KeySetMember(s, v, 2);
    KeySetMember(s, v, 3);
    KeySetMember(s, v, 4);
    KeySetMember(s, v, 5);
    KeySetMember(s, v, 6);
    KeySetDeclared(s, v, BindingKeys);
  }

  /**
   * GetBindingResponse's keys are BindingResponse's keys with `parameters`
   * beside them when set: the embedded struct is flattened, not nested.
   */
  lemma GetBindingResponseKeys<A>(b: BindingResponse<A>, parameters: Option<A>)
    ensures Keys(GetBindingResponse(b, parameters)) ==
      Keys(Binding(b)) + (if parameters.Some? then {ParametersKey} else {})
  {
    var tail, extra := [OmitEmpty(ParametersKey, Opaque)], [Any(parameters)];
    assert Schema(GetBindingShape) == Schema(BindingShape) + tail;
    assert Values(GetBindingResponse(b, parameters)) == Values(Binding(b)) + extra;
    KeySetAppend(Schema(BindingShape), Values(Binding(b)), tail, extra);
    assert KeySet(tail, extra) == if parameters.Some? then {ParametersKey} else {} by {
      assert tail[0].key == ParametersKey && (Emitted(tail[0], extra[0]) <==> parameters.Some?);
    }
  }

  /**
   * GetBindingResponse encodes to BindingResponse's members with the
   * `parameters` member beside them when set: the embedded struct's fields
   * are promoted to the top level, values as well as keys.
   */
  lemma GetBindingResponseEncoded<A>(b: BindingResponse<A>, parameters: Option<A>)
    ensures Encode(GetBindingResponse(b, parameters)) ==
      Encode(Binding(b)) + (if parameters.Some? then map[ParametersKey := Any(parameters)] else map[])
  {
    var tail, extra := OmitEmpty(ParametersKey, Opaque), Value<A>.Any(parameters);
    EncodeSnoc(Binding(b), GetBindingResponse(b, parameters), tail, extra);
    assert Member(tail, extra) == if parameters.Some? then map[ParametersKey := extra] else map[];
  }

  /** A body whose fields are another's followed by one more encodes to the other's members plus that field's. */
  lemma EncodeSnoc<A>(e1: Envelope<A>, e2: Envelope<A>, f: Field, v: Value<A>)
    requires Schema(ShapeOf(e2)) == Schema(ShapeOf(e1)) + [f] && Values(e2) == Values(e1) + [v]
    ensures Encode(e2) == Encode(e1) + Member(f, v)
  {
    EmitSnoc(Schema(ShapeOf(e1)), Values(e1), f, v);
  }
}
