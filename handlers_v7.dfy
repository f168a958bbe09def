/**
 * The v7 GetBinding handler: fetches a binding from the backend and writes
 * it back in the shape of GetBindingResponse. Fetching bindings exists from
 * OSB API version 2.14 on; this handler's gate looks at the minor version
 * number only. v7's respond writes no request-id header.
 */
module HandlersV7 {
  import opened Options
  import opened ApiResponses
  import F = FailureResponses
  import opened Handlers

  const StatusPreconditionFailed := 412
  const MinimumMinorVersion := 14
  const GetBindingVersionError := "get binding endpoint only supported starting with OSB version 2.14"

  /** The API version of the request, as read from its version header. */
  datatype Version = Version(major: int, minor: int)

  /** The request as the handler reads it: route variables, query values and version. */
  datatype GetBindingRequest = GetBindingRequest(
    instanceId: string,
    bindingId: string,
    serviceIdQuery: string,
    planIdQuery: string,
    version: Version)

  datatype FetchDetails = FetchDetails(serviceId: string, planId: string)

  /** The backend's binding; `A` is the type of opaque payloads. */
  datatype GetBindingSpec<A> = GetBindingSpec(
    credentials: Option<A>,
    syslogDrainUrl: string,
    routeServiceUrl: string,
    volumeMounts: seq<A>,
    parameters: Option<A>)

  /** The arguments of the backend's GetBinding. */
  datatype GetBindingCall = GetBindingCall(instanceId: string, bindingId: string, details: FetchDetails)

  type GetBindingBackend<A> = GetBindingCall -> BackendResult<GetBindingSpec<A>>

  /** The version gate: the minor version must be at least 14. */
  predicate Supported(v: Version) {
    v.minor >= MinimumMinorVersion
  }

  /**
   * The success body: the binding's credentials, drain and route-service
   * URLs and volume mounts in the embedded BindingResponse, its parameters
   * beside them; the backup agent URL, endpoints and metadata stay empty.
   */
  function BindingBody<A>(spec: GetBindingSpec<A>): (e: Envelope<A>)
    ensures e.GetBindingResponse? && e.parameters == spec.parameters
    ensures e.binding.credentials == spec.credentials && e.binding.syslogDrainUrl == spec.syslogDrainUrl
    ensures e.binding.routeServiceUrl == spec.routeServiceUrl && e.binding.volumeMounts == spec.volumeMounts
    ensures e.binding.backupAgentUrl == "" && e.binding.endpoints == [] && e.binding.metadata.None?
  {
    GetBindingResponse(
      BindingResponse(spec.credentials, spec.syslogDrainUrl, spec.routeServiceUrl, spec.volumeMounts, "", [], None),
      spec.parameters)
  }

  /**
   * What GetBinding does, as a value: it delegates exactly when the version
   * is supported, writes no request id, and answers with an error status
   * exactly when it refused the version or the backend failed.
   */
  function GetBindingOutcome<A>(req: GetBindingRequest, backend: GetBindingBackend<A>): (o: Outcome<GetBindingCall, A>)
    ensures o.call.Some? <==> Supported(req.version)
    ensures o.response.requestId.None?
    ensures F.IsErrorStatus(o.response.status) <==> o.call.None? || !backend(o.call.value).Ok?
  {
    if !Supported(req.version) then
      Outcome(None, Write(StatusPreconditionFailed, None, Envelope<A>.ErrorResponse("", GetBindingVersionError)))
    else
      var call := GetBindingCall(req.instanceId, req.bindingId, FetchDetails(req.serviceIdQuery, req.planIdQuery));
      var result := backend(call);
      if !result.Ok? then Outcome(Some(call), ErrorWrite(result, None))
      else Outcome(Some(call), Write(StatusOK, None, BindingBody(result.value)))
  }

  /** The handler: version gate, delegation, one response; returns the backend call it made. */
  method GetBinding<A>(rec: ResponseRecorder<A>, req: GetBindingRequest, backend: GetBindingBackend<A>)
    returns (call: Option<GetBindingCall>)
    modifies rec
    ensures rec.writes == old(rec.writes) + [GetBindingOutcome(req, backend).response]
    ensures call == GetBindingOutcome(req, backend).call
  {
    var instanceId, bindingId := req.instanceId, req.bindingId;

    if req.version.minor < MinimumMinorVersion {
      rec.Respond(StatusPreconditionFailed, None, Envelope<A>.ErrorResponse("", GetBindingVersionError));
      return None;
    }

    var details := FetchDetails(req.serviceIdQuery, req.planIdQuery);
    var c := GetBindingCall(instanceId, bindingId, details);
    call := Some(c);
    var result := backend(c);
    if !result.Ok? {
      RespondToError(rec, result, None);
      return;
    }

    var binding := result.value;
    rec.Respond(StatusOK, None, BindingBody(binding));
  }

  /** Below minor version 14 the answer is 412 with the fixed description, and nothing is delegated. */
  lemma GetBindingTooOld<A>(req: GetBindingRequest, backend: GetBindingBackend<A>)
    requires req.version.minor < 14
    ensures GetBindingOutcome(req, backend)
         == Outcome(None, Write(412, None, Envelope<A>.ErrorResponse("", GetBindingVersionError)))
    ensures Keys(GetBindingOutcome(req, backend).response.body) == {DescriptionKey}
  {
    ErrorResponseKeys<A>("", GetBindingVersionError);
  }

  /** Only the minor version is compared: the major version never changes the outcome. */
  lemma GetBindingIgnoresMajor<A>(req: GetBindingRequest, backend: GetBindingBackend<A>, major: int)
    ensures GetBindingOutcome(req.(version := Version(major, req.version.minor)), backend)
         == GetBindingOutcome(req, backend)
  {
  }

  /**
   * From 2.14 on the backend is asked once, with the instance and binding
   * ids unchanged and the details taken from the service_id and plan_id queries.
   */
  lemma GetBindingDelegates<A>(req: GetBindingRequest, backend: GetBindingBackend<A>)
    ensures GetBindingOutcome(req, backend).call.Some? <==> req.version.minor >= 14
    ensures GetBindingOutcome(req, backend).call.Some? ==>
      var c := GetBindingOutcome(req, backend).call.value;
      c.instanceId == req.instanceId && c.bindingId == req.bindingId
      && c.details.serviceId == req.serviceIdQuery && c.details.planId == req.planIdQuery
  {
  }

  /** A classified failure gives its validated status and its own body. */
  lemma GetBindingFailure<A>(req: GetBindingRequest, backend: GetBindingBackend<A>)
    requires Supported(req.version)
    requires backend(GetBindingOutcome(req, backend).call.value).Failure?
    ensures var f := backend(GetBindingOutcome(req, backend).call.value).failure;
      GetBindingOutcome(req, backend).response == Write(f.ValidatedStatusCode(true).0, None, f.ErrorResponse<A>())
  {
  }

  /** Any other error is a 500 describing it. */
  lemma GetBindingUnknownError<A>(req: GetBindingRequest, backend: GetBindingBackend<A>)
    requires Supported(req.version)
    requires backend(GetBindingOutcome(req, backend).call.value).Other?
    ensures var m := backend(GetBindingOutcome(req, backend).call.value).message;
      GetBindingOutcome(req, backend).response
        == Write(F.StatusInternalServerError, None, Envelope<A>.ErrorResponse("", m))
  {
  }

  /**
   * Success is 200; the body carries the copied fields at the top level,
   * never a backup agent URL, endpoints or metadata, and `parameters` when set.
   */
  lemma GetBindingSuccess<A>(req: GetBindingRequest, backend: GetBindingBackend<A>)
    requires Supported(req.version)
    requires backend(GetBindingOutcome(req, backend).call.value).Ok?
    ensures var spec := backend(GetBindingOutcome(req, backend).call.value).value;
      var w := GetBindingOutcome(req, backend).response;
      w.status == StatusOK && w.body == BindingBody(spec)
      && BackupAgentUrlKey !in Keys(w.body) && EndpointsKey !in Keys(w.body) && MetadataKey !in Keys(w.body)
      && (CredentialsKey in Keys(w.body) <==> spec.credentials.Some?)
      && (VolumeMountsKey in Keys(w.body) <==> spec.volumeMounts != [])
      && (ParametersKey in Keys(w.body) <==> spec.parameters.Some?)
  {
    var spec := backend(GetBindingOutcome(req, backend).call.value).value;
    var body := BindingBody(spec);
    BindingResponseKeys(body.binding);
    GetBindingResponseKeys(body.binding, spec.parameters);
  }

  /** Every path writes exactly one response. */
  method GetBindingWritesOnce<A>(req: GetBindingRequest, backend: GetBindingBackend<A>)
    returns (writes: seq<Write<A>>)
    ensures |writes| == 1 && writes[0] == GetBindingOutcome(req, backend).response
  {
    var rec := new ResponseRecorder<A>();
    var _ := GetBinding(rec, req, backend);
    writes := rec.writes;
  }
}
