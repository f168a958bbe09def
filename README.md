# Open Service Broker API server: protocol layer in Dafny

This project models the protocol-compliance layer of `brokerapi`, the Go
library that implements the server side of the Open Service Broker API. That
layer turns an HTTP request plus the answer of a pluggable backend (the
"service broker") into one HTTP status and one JSON body. The model covers:

- **FailureResponse** (`failure_response.dfy`). This is the structured error a
  backend returns. It carries the cause's message, a status code, a
  log-correlation tag (the logger action), an optional public error key and an
  "empty body" flag. The model includes its builder, `ErrorResponse()`,
  `ValidatedStatusCode` (a code outside 4xx/5xx becomes 500, with a warning),
  `AppendErrorMessage` and `LoggerAction`.
- **Response envelopes** (`api_responses.dfy`, over the generic
  `json_encoding.dfy`). Every body struct is listed with its JSON tags as a
  schema.
  - Encoding writes one member per field and drops an `omitempty` field when
    its value is empty.
  - Decoding into a fresh struct reads the fields back, leaving zero values
    for absent keys and for JSON `null`.
  - The lemmas state which keys each envelope writes, that GetBindingResponse
    flattens its embedded BindingResponse, and that decoding an encoded body
    restores it (for payloads that are JSON values and strings that are
    valid Unicode text).
- **Context store** (`context.dfy`). A request's context carries the resolved
  service and plan. Adding nil is a no-op, and retrieving an absent value
  yields nil. Adding never disturbs another key.
- **Handlers** (`handlers.dfy`, `handlers_v7.dfy`).
  - **Deprovision**: parameter checks, delegation, error classification and the
    200/202 choice.
  - **Catalog**: success, an unclassified error, and a FailureResponse.
  - **v7 GetBinding**: the version gate, delegation, error classification and
    the mapping to GetBindingResponse.

  Each handler has two forms:
  - a pure outcome function (the backend call made, if any, and the response
    written);
  - a method that appends to a `ResponseRecorder`. Its `ensures` says the
    method writes exactly that one response and makes exactly that call.

  The backend is a total function parameter, so "the backend was not invoked"
  is stated as an outcome whose call is `None`.

`decimal.dfy` renders integers the way Go's `%d` does. It is used for the
status-code warning, and the lemmas there prove the rendering can be parsed
back.

## Model

| member | source | states |
|---|---|---|
| `Decimal.NatToString` | failure_response_test.go:109 | the numeral of a natural is non-empty, all digits, and has no leading zero unless the value is 0 |
| `Decimal.IntToString` | failure_response_test.go:109 | `%d` of an int is non-empty; it starts with '-' exactly for negatives; a non-negative value gets only digits |
| `Decimal.ParseNatToString` | failure_response_test.go:109 | parsing the numeral of n gives n back |
| `Decimal.ParseIntToString` | failure_response_test.go:109 | parsing `%d` of i gives i back |
| `Decimal.IntToStringInjective` | failure_response_test.go:109 | different integers render differently |
| `JsonEncoding.Zero` | domain/apiresponses/responses.go:22-81 | the value a decoder leaves for an absent key has the field's kind and is empty |
| `JsonEncoding.ConformsAppend` | domain/apiresponses/responses.go:74-77 | values that fit two field lists fit their concatenation, as the fields of an embedded struct are promoted |
| `JsonEncoding.EmitDomain` | domain/apiresponses/responses.go:22-81 | every emitted field's key is in the encoded object, and every key in it belongs to an emitted field |
| `JsonEncoding.Accept` | domain/apiresponses/responses.go:22-81 | a field takes a member of its own kind as it is, takes JSON `null` as its zero value, and refuses anything else; a string or an array under an `any` field is refused, which Go accepts (see "## Left out") |
| `JsonEncoding.Read` | domain/apiresponses/responses.go:22-81 | a successful decode yields values of the declared kinds, each what its field takes from the member under its key, or the zero value when the key is absent; the decode fails exactly when some member cannot be taken |
| `JsonEncoding.EmitLookup` | domain/apiresponses/responses.go:22-81 | with distinct keys, an emitted field's member holds its value and a dropped field leaves no member |
| `JsonEncoding.EmitKeySet` | domain/apiresponses/responses.go:22-81 | the encoded object's keys are exactly the keys of the emitted fields |
| `JsonEncoding.KeySetMember` | domain/apiresponses/responses.go:22-81 | with distinct keys, a field's key is written if and only if the field is emitted |
| `JsonEncoding.KeySetDeclared` | domain/apiresponses/responses.go:22-81 | no key outside the struct's declared keys is written |
| `JsonEncoding.KeySetAppend` | domain/apiresponses/responses.go:74-77 | the keys of concatenated fields (an embedded struct's promoted fields plus the outer struct's) are the union of both parts' keys |
| `JsonEncoding.EmitSnoc` | domain/apiresponses/responses.go:74-77 | encoding fields followed by one more adds exactly that field's member, if it is emitted |
| `JsonEncoding.EmitAppend` | domain/apiresponses/responses.go:74-77 | encoding concatenated fields gives the union of the two parts' objects |
| `JsonEncoding.ReadEmit` | domain/apiresponses/responses.go:22-81 | for well-kinded values and distinct keys, decoding the encoding restores every value, including omitted empty ones |
| `ApiResponses.NamesDistinct` | domain/apiresponses/responses.go:22-81 | different JSON keys have different wire names |
| `ApiResponses.Wire` | domain/apiresponses/responses.go:22-81 | renaming an object's keys to their tag text keeps every member and adds none |
| `ApiResponses.WireSingleton` | domain/apiresponses/responses.go:22-81 | a one-member object is, on the wire, that member under its tag text |
| `ApiResponses.NullDecodesToZero` | domain/apiresponses/responses.go:22-29 | `null` under `description` or `services` decodes to "" or no services; an array under `description` is a decode error |
| `ApiResponses.Schema` | domain/apiresponses/responses.go:20-81 | definition of every envelope's fields: tags, kinds and omitempty flags in declaration order, with GetBindingResponse's embedded fields promoted ahead of `parameters`. Its contract: no envelope declares the same key twice. The key lemmas below and `EncodeDecode` characterise it |
| `ApiResponses.BindingConforms` | domain/apiresponses/responses.go:64-72 | a bind response's values have the kinds its fields declare |
| `ApiResponses.ValuesConform` | domain/apiresponses/responses.go:20-81 | each envelope's field values have the kinds its struct declares |
| `ApiResponses.Build` | domain/apiresponses/responses.go:20-81 | a body built from field values has the requested shape and holds exactly those values (`Values(Build(t, vals)) == vals`); with `BuildValues` this makes Build and Values inverse |
| `ApiResponses.BuildValues` | domain/apiresponses/responses.go:20-81 | rebuilding an envelope of its own shape from its field values gives it back |
| `ApiResponses.EncodeDecode` | domain/apiresponses/responses.go:22-81 | decoding an encoded envelope into its own struct restores every field, with an omitted "" decoding back to ""; payloads and strings are taken as in "## Left out" |
| `ApiResponses.Encode` | domain/apiresponses/responses.go:20-81 | definition of marshalling an envelope. Its contract: the object holds exactly the keys of the emitted fields (`Keys`). The key lemmas below, `EncodeDecode` and `GetBindingResponseEncoded` characterise it further |
| `ApiResponses.Decode` | domain/apiresponses/responses.go:20-81 | definition of unmarshalling into a fresh struct of a given shape. Its contract: a result has that shape, its field values are exactly those `Read` produced, each being what its field takes from the object (the member under its key, or the zero value), and decoding fails exactly when some member cannot be taken by its field. `EncodeDecode` and `NullDecodesToZero` characterise it further |
| `ApiResponses.EmptyResponseKeys` | domain/apiresponses/responses.go:20 | EmptyResponse encodes to an object without keys |
| `ApiResponses.ErrorResponseKeys` | domain/apiresponses/responses.go:22-25 | `description` is always written; `error` is written if and only if it is non-empty; nothing else is written |
| `ApiResponses.DescriptionOnlyEncoded` | domain/apiresponses/responses.go:22-25 | an ErrorResponse without error key encodes to exactly `{"description": d}`, also with the keys written as their tag text |
| `ApiResponses.CatalogResponseKeys` | domain/apiresponses/responses.go:27-29 | CatalogResponse writes exactly `services`, even with no services |
| `ApiResponses.ProvisioningResponseKeys` | domain/apiresponses/responses.go:31-35 | `dashboard_url`, `operation` and `metadata` are each written if and only if set; nothing else is written |
| `ApiResponses.GetInstanceResponseKeys` | domain/apiresponses/responses.go:37-43 | `service_id` and `plan_id` are always written; `dashboard_url`, `parameters` and `metadata` only when set; nothing else |
| `ApiResponses.UpdateResponseKeys` | domain/apiresponses/responses.go:45-49 | `dashboard_url`, `operation` and `metadata` are each written if and only if set; nothing else is written |
| `ApiResponses.LastOperationResponseKeys` | domain/apiresponses/responses.go:55-58 | `state` is always written; `description` if and only if non-empty; nothing else |
| `ApiResponses.OperationResponseKeys` | domain/apiresponses/responses.go:51-81 | DeprovisionResponse, AsyncBindResponse and UnbindResponse write `operation` when it is non-empty, and nothing otherwise |
| `ApiResponses.BindingKeySet` | domain/apiresponses/responses.go:64-72 | a BindingResponse's keys are those of its seven tagged fields |
| `ApiResponses.BindingResponseKeys` | domain/apiresponses/responses.go:64-72 | each of the seven binding fields is written if and only if it is set, and no other key is written |
| `ApiResponses.EncodeSnoc` | domain/apiresponses/responses.go:74-77 | a body whose fields are another's plus one more encodes to the other's members plus that field's member, if emitted |
| `ApiResponses.GetBindingResponseEncoded` | domain/apiresponses/responses.go:74-77 | GetBindingResponse encodes to exactly BindingResponse's members plus `parameters` when set: the embedded fields are flattened, values as well as keys |
| `ApiResponses.GetBindingResponseKeys` | domain/apiresponses/responses.go:74-77 | GetBindingResponse's keys are BindingResponse's keys plus `parameters` when set, all at the top level |
| `FailureResponses.InvalidStatusWarning` | failure_response_test.go:104-110 | the warning text about an invalid status is non-empty; its form for codes other than 600 is an assumption (see "## Left out") |
| `FailureResponses.FailureResponse.Error` | failure_response_test.go:60-64 | a failure's message is its cause's message |
| `FailureResponses.FailureResponse.ErrorResponse` | failure_response_test.go:31-54 | the body is EmptyResponse exactly when built with an empty response; otherwise it is an ErrorResponse whose description is the message and whose error is the error key |
| `FailureResponses.FailureResponse.ValidatedStatusCode` | failure_response_test.go:87-111 | the result is always 4xx or 5xx; a 4xx/5xx code is returned unchanged with no warning; any other code gives 500; the warning, naming the code, is produced exactly when a logger is given and the code is invalid |
| `FailureResponses.FailureResponse.AppendErrorMessage` | failure_response_test.go:58-84 | the new message is the old one, a space, and the extra text; status, logger action, error key and empty flag are kept |
| `FailureResponses.FailureResponse.LoggerAction` | failure_response_test.go:114-123 | the logger action is the one the failure was created with |
| `FailureResponses.NewFailureResponse` | failure_response_test.go:33 | the constructor keeps cause, status and logger action, with no error key and a non-empty body |
| `FailureResponses.FailureResponseBuilder.WithErrorKey` | failure_response_test.go:41 | sets the error key and keeps every other setting |
| `FailureResponses.FailureResponseBuilder.WithEmptyResponse` | failure_response_test.go:51 | sets the empty-body flag and keeps every other setting |
| `FailureResponses.FailureResponseBuilder.Build` | failure_response_test.go:41 | the failure carries every accumulated setting |
| `FailureResponses.NewFailureResponseBuilder` | failure_response_test.go:41 | a builder starts from cause, status and logger action, with no error key and a non-empty body |
| `FailureResponses.BuilderDefault` | failure_response_test.go:88-96 | building with no options gives the same failure as the constructor |
| `FailureResponses.PlainErrorResponse` | failure_response_test.go:32-37 | a plain failure's body is `ErrorResponse{Description: cause}`, which writes only `description` |
| `FailureResponses.KeyedErrorResponse` | failure_response_test.go:40-46 | with an error key, the body carries that key and the cause |
| `FailureResponses.EmptyErrorResponse` | failure_response_test.go:49-53 | with an empty response, the body is EmptyResponse whatever the cause and error key |
| `FailureResponses.AppendKeepsClassification` | failure_response_test.go:58-84 | after appending, the validated status and logger action are unchanged; a non-empty body describes the longer message with the same key; an empty body stays the same |
| `FailureResponses.ValidStatusUnchanged` | failure_response_test.go:88-96 | a 4xx/5xx status is returned unchanged, with or without an error key or an empty body |
| `FailureResponses.Status600Replaced` | failure_response_test.go:98-111 | status 600 is returned as 500; with a logger, the warning reads "Invalid failure http response code: 600, expected 4xx or 5xx, returning internal server error: 500." |
| `FailureResponses.ValidatedStatusIdempotent` | failure_response_test.go:87-111 | a failure carrying an already validated status keeps it and logs nothing |
| `FailureResponses.WarningNamesCode` | failure_response_test.go:104-110 | with the assumed warning form, the warning identifies the invalid code: two codes with the same warning are equal |
| `FailureResponses.LoggerActionKept` | failure_response_test.go:114-123 | the logger action survives the constructor and every builder step |
| `ContextStore.Background` | utils/context_test.go:24 | the empty context is well-typed and holds no key |
| `ContextStore.WithValue` | utils/context_test.go:25 | a derived context holds the new value under its key and keeps every other key and value |
| `ContextStore.Value` | utils/context_test.go:34 | a value is returned exactly when the key holds one, and None otherwise |
| `ContextStore.AddServiceToContext` | utils/context_test.go:28-51 | a nil service returns the same context; otherwise the service key holds the service; every other key and value is kept |
| `ContextStore.RetrieveServiceFromContext` | utils/context_test.go:33-48 | a service is returned only when one is stored; in a well-typed context, None means no service is stored |
| `ContextStore.AddServicePlanToContext` | utils/context_test.go:54-74 | a nil plan returns the same context; otherwise the plan key holds the plan; every other key and value is kept |
| `ContextStore.RetrieveServicePlanFromContext` | utils/context_test.go:59-72 | a plan is returned only when one is stored; in a well-typed context, None means no plan is stored |
| `ContextStore.AddPreservesWellTyped` | utils/context_test.go:28-74 | adding a service or a plan keeps each private key holding its own type |
| `ContextStore.AddNilService` | utils/context_test.go:29-36 | adding a nil service returns the original context; with no service stored, retrieval gives nil; another package's value is unchanged |
| `ContextStore.AddThenRetrieveService` | utils/context_test.go:38-51 | the service added is the service retrieved |
| `ContextStore.AddNilPlan` | utils/context_test.go:55-62 | adding a nil plan returns the original context; with no plan stored, retrieval gives nil; another package's value is unchanged |
| `ContextStore.AddThenRetrievePlan` | utils/context_test.go:64-74 | the plan added is the plan retrieved |
| `ContextStore.AddLeavesOthers` | utils/context_test.go:34-71 | adding a service or a plan leaves another package's values, and the other record, as they were |
| `ContextStore.RequestScenario` | utils/context_test.go:21-74 | on a context holding one foreign value: nil additions give nil on retrieval, real additions are retrieved, and the foreign value stays |
| `Handlers.ResponseRecorder.constructor` | handlers/catalog_test.go:35-36 | a fresh writer has recorded nothing |
| `Handlers.ResponseRecorder.Respond` | handlers/deprovision.go:30 | a respond call appends exactly one write |
| `Handlers.ErrorWrite` | handlers/deprovision.go:48-59 | an error response always has a 4xx/5xx status and echoes the request id; a FailureResponse gives its validated status and its own body; any other error gives 500 with the message as description |
| `Handlers.RespondToError` | handlers/deprovision.go:49-58 | the type switch writes exactly the error response above |
| `Handlers.Details` | handlers/deprovision.go:21-25 | the details carry the form's plan and service ids; `force` is true if and only if the form value is exactly "true" |
| `Handlers.DeprovisionOutcome` | handlers/deprovision.go:16-67 | definition of the handler's branching. Its contract: it delegates exactly when both ids are present, always echoes the request id, and answers 4xx/5xx exactly when it rejected the request or the backend failed. The `Deprovision*` lemmas below characterise each branch |
| `Handlers.Deprovision` | handlers/deprovision.go:16-67 | the handler appends exactly the one response of the deprovision outcome and makes exactly its backend call |
| `Handlers.DeprovisionMissingServiceId` | handlers/deprovision.go:29-35 | an empty service_id gives 400 with the service-id error, checked before plan_id, and the backend is not called |
| `Handlers.DeprovisionMissingPlanId` | handlers/deprovision.go:37-43 | with service_id present, an empty plan_id gives 400 with the plan-id error, and the backend is not called |
| `Handlers.DeprovisionDelegates` | handlers/deprovision.go:21-47 | the backend is called if and only if both ids are present, with the instance id and the form's details; `asyncAllowed` is true exactly for accepts_incomplete "true" and `force` exactly for force "true" |
| `Handlers.DeprovisionFailure` | handlers/deprovision.go:50-52 | a backend FailureResponse gives its validated status and its ErrorResponse() |
| `Handlers.DeprovisionUnknownError` | handlers/deprovision.go:53-58 | any other backend error gives 500 with the error message as description |
| `Handlers.DeprovisionSuccess` | handlers/deprovision.go:62-66 | success gives 202 with the operation data when asynchronous, and 200 with EmptyResponse otherwise |
| `Handlers.DeprovisionWritesOnce` | handlers/deprovision.go:29-66 | every path writes exactly one response |
| `Handlers.CatalogOutcome` | handlers/catalog_test.go:39-90 | definition of the catalog handler's branching. Its contract: it always delegates, echoes the request id, and answers 4xx/5xx exactly when the backend failed. `CatalogOk`, `CatalogUnknownError` and `CatalogFailure` characterise each branch |
| `Handlers.Catalog` | handlers/catalog_test.go:39-90 | the handler always asks the backend and appends exactly the one response of the catalog outcome |
| `Handlers.CatalogOk` | handlers/catalog_test.go:39-57 | services found give 200 and a CatalogResponse body, which always writes `services` |
| `Handlers.CatalogUnknownError` | handlers/catalog_test.go:59-70 | an unclassified error "some error" gives 500 and exactly `{"description":"some error"}`, keyed by the wire name |
| `Handlers.CatalogFailure` | handlers/catalog_test.go:72-90 | a FailureResponse with status 501 and cause "TODO" gives 501 and exactly `{"description":"TODO"}`, keyed by the wire name |
| `HandlersV7.BindingBody` | v7/handlers/get_binding.go:57-65 | the success body copies credentials, syslog drain URL, route service URL, volume mounts and parameters; backup agent URL, endpoints and metadata stay empty |
| `HandlersV7.GetBindingOutcome` | v7/handlers/get_binding.go:17-66 | definition of the handler's branching. Its contract: it delegates exactly when the minor version is at least 14, writes no request id, and answers 4xx/5xx exactly when it refused the version or the backend failed. The `GetBinding*` lemmas below characterise each branch |
| `HandlersV7.GetBinding` | v7/handlers/get_binding.go:17-66 | the handler appends exactly the one response of the get-binding outcome and makes exactly its backend call |
| `HandlersV7.GetBindingTooOld` | v7/handlers/get_binding.go:27-35 | a minor version below 14 gives 412 with the fixed "only supported starting with OSB version 2.14" description only, and the backend is not called |
| `HandlersV7.GetBindingIgnoresMajor` | v7/handlers/get_binding.go:28 | the major version never changes the outcome |
| `HandlersV7.GetBindingDelegates` | v7/handlers/get_binding.go:19-42 | the backend is called if and only if the minor version is at least 14, with the path's instance and binding ids unchanged and the query's service_id and plan_id as details |
| `HandlersV7.GetBindingFailure` | v7/handlers/get_binding.go:44-47 | a backend FailureResponse gives its validated status and its ErrorResponse() |
| `HandlersV7.GetBindingUnknownError` | v7/handlers/get_binding.go:48-53 | any other error gives 500 with the message as description |
| `HandlersV7.GetBindingSuccess` | v7/handlers/get_binding.go:57-65 | success gives 200 with the copied binding; `backup_agent_url`, `endpoints` and `metadata` are never written; credentials, volume mounts and parameters are written exactly when set |
| `HandlersV7.GetBindingWritesOnce` | v7/handlers/get_binding.go:27-65 | every path writes exactly one response |

## Left out

- Logging is not modelled: logger sessions, `logger.Error` calls and the outcome log lines. The one exception is the warning of `ValidatedStatusCode`, which is returned as an optional string. Whether a logger is supplied is a boolean. The handlers always supply one.
- HTTP plumbing is not modelled: `req.PathValue`, `req.FormValue`, `mux.Vars`, `URL.Query`, header handling and the byte-level JSON writing of `respond`.
  - Parameters arrive as already-extracted strings.
  - A write is a status, the request id and an envelope.
  - A JSON object is a map from key to value, with no member order or whitespace.
- The API version is a given (major, minor) pair. `getAPIVersion`, which parses the header, is not part of this model.
- The request id is an opaque string. The `fmt.Sprintf("%v", ...)` of the context value (handlers/deprovision.go:27) is not modelled.
- Go context cancellation and `ctx.Err()` are not modelled. The context is only an immutable map.
- Backend implementations are not modelled. The backend is a total function parameter.
- Opaque payloads are not told apart. Service, VolumeMount, Endpoint and `any` values share one type parameter, so the model does not distinguish their types. A nil slice and an empty slice are the same value, so `"services": null` and `"services": []` are not distinguished.
- The file that defines `serviceIdError` and `planIdError` is not part of this model. Their messages are taken as "service_id missing" and "plan_id missing". `unknownErrorKey` is used only for logging.
- The FailureResponse implementation file is not part of this model. The value is modelled from its tests, its use in the handlers and the library's documented design.
  - Valid statuses are taken as 400 to 599.
  - The builder is modelled as a value whose steps each return a builder with one more setting. How Go's builder stores its settings is not modelled.
  - v7's FailureResponse is assumed to behave like the one modelled. Likewise v7's `apiresponses` types, which are not part of this model, are assumed to be the ones of domain/apiresponses/responses.go. In particular v7's GetBindingResponse is assumed to embed the same BindingResponse, with backup agent URL, endpoints and metadata.
- InvalidStatusWarning: the tests fix the warning text only for status 600. For any other code the text assumes that the code is interpolated with `%d`, following the documented design (a warning naming the invalid code). `WarningNamesCode` rests on that assumption.
- JsonEncoding.Accept, JsonEncoding.Read: a field declared `any` accepts only an opaque payload or `null`. Go's decoder stores any JSON value there, such as a string or an array, but the model cannot build a payload from those, so such an object is a decode error here. On the encoder's own output the decoder is exact (`JsonEncoding.ReadEmit`).
- ApiResponses.EncodeDecode: payloads are taken as JSON values. Go decodes an `any` payload into generic JSON values (`map[string]any`, `float64`, ...), so the round trip restores a payload only when it already is such a value. Strings are taken as valid Unicode text (sequences of characters). Go strings are byte strings, and `json.Marshal` replaces invalid UTF-8 with U+FFFD, so a description holding such bytes would not come back unchanged. That replacement is not modelled.
- The Catalog handler's source file is not part of this model. Catalog is modelled from its tests with the same structure as Deprovision: always delegate, the shared error switch, then 200 with a CatalogResponse.
- ExperimentalVolumeMountBindingResponse (domain/apiresponses/responses.go:83-89) is not modelled. No modelled handler uses it.
- v7 GetBinding's version gate compares only the minor number, following the code (v7/handlers/get_binding.go:28), although the endpoint is described as needing version 2.14 or later. A version 3.0 is therefore refused, as `GetBindingIgnoresMajor` shows.
