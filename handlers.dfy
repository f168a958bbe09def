/**
 * The request handlers of the broker API: each takes the parameters already
 * extracted from the HTTP request and the backend's answer, and writes
 * exactly one response — a status, the request-identity header and a body.
 *
 * The backend is a parameter: a total function from the arguments of the
 * call to its result. A handler that rejects a request before delegating
 * never applies it, and each handler reports which call it made, if any.
 */
module Handlers {
  import opened Options
  import opened JsonEncoding
  import opened ApiResponses
  import F = FailureResponses

  const StatusOK := 200
  const StatusAccepted := 202
  const StatusBadRequest := 400

  /** The messages of the missing-parameter errors the handlers share. */
  const ServiceIdError := "service_id missing"
  const PlanIdError := "plan_id missing"

  /** What a backend method returns: a value, a classified failure or any other error. */
  datatype BackendResult<T> = Ok(value: T) | Failure(failure: F.FailureResponse) | Other(message: string)

  /** One call of `respond`: the status, the request id echoed in a header (if any) and the body. */
  datatype Write<A> = Write(status: int, requestId: Option<string>, body: Envelope<A>)

  /** What a handler did: the backend call it made (None when it made none) and the response it wrote. */
  datatype Outcome<C, A> = Outcome(call: Option<C>, response: Write<A>)

  /** The response writer: every response written, in order. */
  class ResponseRecorder<A> {
    var writes: seq<Write<A>>

    constructor ()
      ensures writes == []
    {
      writes := [];
    }

    /** Writes one response. */
    method Respond(status: int, requestId: Option<string>, body: Envelope<A>)
      modifies this
      ensures writes == old(writes) + [Write(status, requestId, body)]
    {
      writes := writes + [Write(status, requestId, body)];
    }
  }

  /**
   * The response to a backend error: a classified failure chooses its own
   * (validated) status and body; any other error is a 500 whose body
   * describes the error.
   */
  function ErrorWrite<T, A>(err: BackendResult<T>, requestId: Option<string>): (w: Write<A>)
    requires !err.Ok?
    ensures F.IsErrorStatus(w.status) && w.requestId == requestId
    ensures err.Failure? ==> w.status == err.failure.ValidatedStatusCode(true).0
    ensures err.Failure? ==> w.body == err.failure.ErrorResponse<A>()
    ensures err.Other? ==> w.status == F.StatusInternalServerError
    ensures err.Other? ==> w.body == Envelope<A>.ErrorResponse("", err.message)
  {
    match err
    case Failure(f) => Write(f.ValidatedStatusCode(true).0, requestId, f.ErrorResponse<A>())
    case Other(message) => Write(F.StatusInternalServerError, requestId, Envelope<A>.ErrorResponse("", message))
  }

  /** Writes the response to a backend error (the type switch of every handler). */
  method RespondToError<T, A>(rec: ResponseRecorder<A>, err: BackendResult<T>, requestId: Option<string>)
    requires !err.Ok?
    modifies rec
    ensures rec.writes == old(rec.writes) + [ErrorWrite(err, requestId)]
  {
    match err {
      case Failure(f) =>
        var (status, _) := f.ValidatedStatusCode(true);
        rec.Respond(status, requestId, f.ErrorResponse<A>());
      case Other(message) =>
        rec.Respond(F.StatusInternalServerError, requestId, Envelope<A>.ErrorResponse("", message));
    }
  }

  // ---- Deprovision ----

  /** The request as the handler reads it: path and form values, and the request id of the context. */
  datatype DeprovisionRequest = DeprovisionRequest(
    instanceId: string,
    planId: string,
    serviceId: string,
    force: string,
    acceptsIncomplete: string,
    requestId: string)

  datatype DeprovisionDetails = DeprovisionDetails(planId: string, serviceId: string, force: bool)

  datatype DeprovisionServiceSpec = DeprovisionServiceSpec(isAsync: bool, operationData: string)

  /** The arguments of the backend's Deprovision. */
  datatype DeprovisionCall = DeprovisionCall(instanceId: string, details: DeprovisionDetails, asyncAllowed: bool)

  type DeprovisionBackend = DeprovisionCall -> BackendResult<DeprovisionServiceSpec>

  /** The details built from the form values; `force` holds only for the exact text "true". */
  function Details(req: DeprovisionRequest): (d: DeprovisionDetails)
    ensures d.planId == req.planId && d.serviceId == req.serviceId
    ensures d.force <==> req.force == "true"
  {
    DeprovisionDetails(req.planId, req.serviceId, req.force == "true")
  }

  /**
   * What Deprovision does, as a value: it delegates exactly when both ids
   * are present, always echoes the request id, and answers with an error
   * status exactly when it rejected the request or the backend failed.
   */
  function DeprovisionOutcome<A>(req: DeprovisionRequest, backend: DeprovisionBackend): (o: Outcome<DeprovisionCall, A>)
    ensures o.call.Some? <==> req.serviceId != "" && req.planId != ""
    ensures o.response.requestId == Some(req.requestId)
    ensures F.IsErrorStatus(o.response.status) <==> o.call.None? || !backend(o.call.value).Ok?
  {
    var rid := Some(req.requestId);
    var details := Details(req);
    if details.serviceId == "" then
      Outcome(None, Write(StatusBadRequest, rid, Envelope<A>.ErrorResponse("", ServiceIdError)))
    else if details.planId == "" then
      Outcome(None, Write(StatusBadRequest, rid, Envelope<A>.ErrorResponse("", PlanIdError)))
    else
      var call := DeprovisionCall(req.instanceId, details, req.acceptsIncomplete == "true");
      var result := backend(call);
      if !result.Ok? then Outcome(Some(call), ErrorWrite(result, rid))
      else if result.value.isAsync then
        Outcome(Some(call), Write(StatusAccepted, rid, Envelope<A>.DeprovisionResponse(result.value.operationData)))
      else
        Outcome(Some(call), Write(StatusOK, rid, Envelope<A>.EmptyResponse))
  }

  /**
   * The handler: checks the required parameters, delegates, and writes
   * exactly one response; returns the backend call it made.
   */
  method Deprovision<A>(rec: ResponseRecorder<A>, req: DeprovisionRequest, backend: DeprovisionBackend)
    returns (call: Option<DeprovisionCall>)
    modifies rec
    ensures rec.writes == old(rec.writes) + [DeprovisionOutcome<A>(req, backend).response]
    ensures call == DeprovisionOutcome<A>(req, backend).call
  {
    var details := Details(req);
    var requestId := Some(req.requestId);

    if details.serviceId == "" {
      rec.Respond(StatusBadRequest, requestId, Envelope<A>.ErrorResponse("", ServiceIdError));
      return None;
    }

    if details.planId == "" {
      rec.Respond(StatusBadRequest, requestId, Envelope<A>.ErrorResponse("", PlanIdError));
      return None;
    }

    var asyncAllowed := req.acceptsIncomplete == "true";
    var c := DeprovisionCall(req.instanceId, details, asyncAllowed);
    call := Some(c);
    var result := backend(c);
    if !result.Ok? {
      RespondToError(rec, result, requestId);
      return;
    }

    if result.value.isAsync {
      rec.Respond(StatusAccepted, requestId, Envelope<A>.DeprovisionResponse(result.value.operationData));
    } else {
      rec.Respond(StatusOK, requestId, Envelope<A>.EmptyResponse);
    }
  }

  /** A missing service_id is a 400 naming it, even when plan_id is missing too; nothing is delegated. */
  lemma DeprovisionMissingServiceId<A>(req: DeprovisionRequest, backend: DeprovisionBackend)
    requires req.serviceId == ""
    ensures DeprovisionOutcome<A>(req, backend)
         == Outcome(None, Write(StatusBadRequest, Some(req.requestId), Envelope<A>.ErrorResponse("", ServiceIdError)))
  {
  }

  /** With service_id present, a missing plan_id is a 400 naming it; nothing is delegated. */
  lemma DeprovisionMissingPlanId<A>(req: DeprovisionRequest, backend: DeprovisionBackend)
    requires req.serviceId != "" && req.planId == ""
    ensures DeprovisionOutcome<A>(req, backend)
         == Outcome(None, Write(StatusBadRequest, Some(req.requestId), Envelope<A>.ErrorResponse("", PlanIdError)))
  {
  }

  /**
   * A request with both ids is delegated once, with the instance id, the
   * form's details, and async allowed exactly when accepts_incomplete is "true".
   */
  lemma DeprovisionDelegates<A>(req: DeprovisionRequest, backend: DeprovisionBackend)
    ensures DeprovisionOutcome<A>(req, backend).call.Some? <==> req.serviceId != "" && req.planId != ""
    ensures DeprovisionOutcome<A>(req, backend).call.Some? ==>
      var c := DeprovisionOutcome<A>(req, backend).call.value;
      c.instanceId == req.instanceId && c.details.serviceId == req.serviceId && c.details.planId == req.planId
      && (c.details.force <==> req.force == "true") && (c.asyncAllowed <==> req.acceptsIncomplete == "true")
  {
  }

  /** A classified failure gives its validated status and its own body. */
  lemma DeprovisionFailure<A>(req: DeprovisionRequest, backend: DeprovisionBackend)
    requires req.serviceId != "" && req.planId != ""
    requires backend(DeprovisionOutcome<A>(req, backend).call.value).Failure?
    ensures var f := backend(DeprovisionOutcome<A>(req, backend).call.value).failure;
      DeprovisionOutcome<A>(req, backend).response
        == Write(f.ValidatedStatusCode(true).0, Some(req.requestId), f.ErrorResponse<A>())
  {
  }

  /** Any other error is a 500 describing it. */
  lemma DeprovisionUnknownError<A>(req: DeprovisionRequest, backend: DeprovisionBackend)
    requires req.serviceId != "" && req.planId != ""
    requires backend(DeprovisionOutcome<A>(req, backend).call.value).Other?
    ensures var m := backend(DeprovisionOutcome<A>(req, backend).call.value).message;
      DeprovisionOutcome<A>(req, backend).response
        == Write(F.StatusInternalServerError, Some(req.requestId), Envelope<A>.ErrorResponse("", m))
  {
  }

  /** Success is 202 with the operation when asynchronous, and 200 with an empty body otherwise. */
  lemma DeprovisionSuccess<A>(req: DeprovisionRequest, backend: DeprovisionBackend)
    requires req.serviceId != "" && req.planId != ""
    requires backend(DeprovisionOutcome<A>(req, backend).call.value).Ok?
    ensures var spec := backend(DeprovisionOutcome<A>(req, backend).call.value).value;
      DeprovisionOutcome<A>(req, backend).response
        == if spec.isAsync then Write(StatusAccepted, Some(req.requestId), Envelope<A>.DeprovisionResponse(spec.operationData))
           else Write(StatusOK, Some(req.requestId), Envelope<A>.EmptyResponse)
  {
  }

  /** Every path writes exactly one response. */
  method DeprovisionWritesOnce<A>(req: DeprovisionRequest, backend: DeprovisionBackend)
    returns (writes: seq<Write<A>>)
    ensures |writes| == 1 && writes[0] == DeprovisionOutcome<A>(req, backend).response
  {
    var rec := new ResponseRecorder<A>();
    var _ := Deprovision(rec, req, backend);
    writes := rec.writes;
  }

  // ---- Catalog ----

  /** The backend's Services takes no arguments beyond the request's context. */
  datatype ServicesCall = ServicesCall

  /**
   * What Catalog does, as a value: the backend is always asked, the request
   * id is echoed, and the status is an error status exactly when the backend failed.
   */
  function CatalogOutcome<A>(requestId: string, services: BackendResult<seq<A>>): (o: Outcome<ServicesCall, A>)
    ensures o.call == Some(ServicesCall) && o.response.requestId == Some(requestId)
    ensures F.IsErrorStatus(o.response.status) <==> !services.Ok?
  {
    var rid := Some(requestId);
    if !services.Ok? then Outcome(Some(ServicesCall), ErrorWrite(services, rid))
    else Outcome(Some(ServicesCall), Write(StatusOK, rid, CatalogResponse(services.value)))
  }

  /** The handler: asks the backend for its services and writes one response. */
  method Catalog<A>(rec: ResponseRecorder<A>, requestId: string, services: () -> BackendResult<seq<A>>)
    returns (call: Option<ServicesCall>)
    modifies rec
    ensures rec.writes == old(rec.writes) + [CatalogOutcome(requestId, services()).response]
    ensures call == CatalogOutcome(requestId, services()).call
  {
    var rid := Some(requestId);
    call := Some(ServicesCall);
    var result := services();
    if !result.Ok? {
      RespondToError(rec, result, rid);
      return;
    }
    rec.Respond(StatusOK, rid, CatalogResponse(result.value));
  }

  /** Services found: 200 with a catalog body, which always has its `services` member. */
  lemma CatalogOk<A>(requestId: string, services: seq<A>)
    ensures CatalogOutcome(requestId, Ok(services)).response.status == StatusOK
    ensures CatalogOutcome(requestId, Ok(services)).response.body == CatalogResponse(services)
    ensures Keys(CatalogOutcome(requestId, Ok(services)).response.body) == {ServicesKey}
  {
    CatalogResponseKeys(services);
  }

  /** An unknown error "some error" is a 500 whose body is exactly `{"description":"some error"}`. */
  lemma CatalogUnknownError<A>(requestId: string)
    ensures CatalogOutcome<A>(requestId, Other("some error")).response.status == F.StatusInternalServerError
    ensures Encode(CatalogOutcome<A>(requestId, Other("some error")).response.body)
         == map[DescriptionKey := Str("some error")]
    ensures Wire(Encode(CatalogOutcome<A>(requestId, Other("some error")).response.body))
         == map["description" := Str("some error")]
  {
    var body := CatalogOutcome<A>(requestId, Other("some error")).response.body;
    assert body == Envelope<A>.ErrorResponse("", "some error");
    DescriptionOnlyEncoded<A>("some error");
  }

  /** A failure with status 501 and cause "TODO" gives 501 and exactly `{"description":"TODO"}`. */
  lemma CatalogFailure<A>(requestId: string)
    ensures var f := F.NewFailureResponse("TODO", 501, "Not Implemented");
      CatalogOutcome<A>(requestId, Failure(f)).response.status == 501
      && Encode(CatalogOutcome<A>(requestId, Failure(f)).response.body) == map[DescriptionKey := Str("TODO")]
      && Wire(Encode(CatalogOutcome<A>(requestId, Failure(f)).response.body)) == map["description" := Str("TODO")]
  {
    var f := F.NewFailureResponse("TODO", 501, "Not Implemented");
    var body := CatalogOutcome<A>(requestId, Failure(f)).response.body;
    assert body == Envelope<A>.ErrorResponse("", "TODO");
    DescriptionOnlyEncoded<A>("TODO");
  }
}
