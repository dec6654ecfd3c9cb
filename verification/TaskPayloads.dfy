// A request travels in the payload of a task and comes back.
module TaskPayloads {
  import opened Capabilities
  import opened CapabilityContracts
  import opened Options
  import opened PlannerLaws
  import opened Texts

  const CAPABILITY_TASK := "CAPABILITY_REQUEST"
  const LEGACY_SEARCH_TASK := "X_KEYWORD_SEARCH"

  function OptionalText(s: Option<string>): Value {
    if s.Some? then Str(s.value) else Null
  }

  function ToTaskPayload(request: CapabilityRequest): Params {
    map["capability_id" := Str(request.capabilityId),
        "capability_contract_version" := Str(request.contractVersion),
        "params" := Object(request.params),
        "cursor" := OptionalText(request.cursor),
        "page_size" := if request.pageSize.Some? then Int(request.pageSize.value) else Null,
        "correlation_id" := OptionalText(request.correlation)]
  }

  // payload.get(name)
  function Get(payload: Params, name: string): Value {
    if name in payload then payload[name] else Null
  }

  // not value; an opaque value counts as true
  predicate Falsy(v: Value) {
    v == Null || v == Str("") || v == Int(0) || v == Bool(false) || v == Object(map[])
  }

  // str(value or otherwise)
  function TextOr(v: Value, otherwise: string, conversions: Conversions): string {
    if Falsy(v) then otherwise else if v.Str? then v.text else conversions.render(v)
  }

  function OptionalString(v: Value): Result<Option<string>, ContractError> {
    match v
    case Null => Ok(None)
    case Str(text) => Ok(Some(text))
    case _ => Err(BadOptionalString)
  }

  function OptionalInteger(v: Value): Result<Option<int>, ContractError> {
    match v
    case Null => Ok(None)
    case Int(n) => Ok(Some(n))
    case _ => Err(BadOptionalInteger)
  }

  function LegacyPositiveInteger(v: Value, conversions: Conversions): Result<int, ContractError> {
    var n := ToInt(v, conversions);
    if n.None? || n.value <= 0 then Err(BadLegacyNumber) else Ok(n.value)
  }

  function CapabilityRequestFrom(payload: Params, correlation: Option<string>, conversions: Conversions)
    : Result<CapabilityRequest, ContractError>
  {
    var params := Get(payload, "params");
    if !params.Object? then Err(BadParams)
    else
      var cursor := OptionalString(Get(payload, "cursor"));
      var pageSize := OptionalInteger(Get(payload, "page_size"));
      var given := Get(payload, "correlation_id");
      var correlated := OptionalString(if Falsy(given) then OptionalText(correlation) else given);
      if cursor.Err? then Err(cursor.error)
      else if pageSize.Err? then Err(pageSize.error)
      else if correlated.Err? then Err(correlated.error)
      else Checked(CapabilityRequest(
        TextOr(Get(payload, "capability_id"), "", conversions),
        TextOr(Get(payload, "capability_contract_version"), "", conversions),
        params.fields, cursor.value, pageSize.value, correlated.value))
  }

  function LegacyRequestFrom(payload: Params, correlation: Option<string>, conversions: Conversions)
    : Result<CapabilityRequest, ContractError>
  {
    var query := Strip(TextOr(Get(payload, "search_keyword"), "", conversions));
    var product := TextOr(Get(payload, "product"), "Latest", conversions);
    var pages := LegacyPositiveInteger(if "max_pages" in payload then payload["max_pages"] else Int(1), conversions);
    var cursor := OptionalString(Get(payload, "cursor"));
    var size := Get(payload, "page_size");
    var pageSize := if size.Null? then Ok(1) else LegacyPositiveInteger(size, conversions);
    if pages.Err? then Err(pages.error)
    else if cursor.Err? then Err(cursor.error)
    else if pageSize.Err? then Err(pageSize.error)
    else Checked(CapabilityRequest(
      "SEARCH_TWEETS", "1",
      map["query" := Str(query), "product" := Str(product), "max_pages" := Int(pages.value)],
      cursor.value, if size.Null? then None else Some(pageSize.value), correlation))
  }

  function RequestFromTask(taskType: string, payload: Params, correlation: Option<string>, conversions: Conversions)
    : Result<CapabilityRequest, ContractError>
  {
    if taskType == CAPABILITY_TASK then CapabilityRequestFrom(payload, correlation, conversions)
    else if taskType == LEGACY_SEARCH_TASK then LegacyRequestFrom(payload, correlation, conversions)
    else Err(UnsupportedTaskType)
  }

  // ---- what is read, stated on the payload ----

  // Python's truth: null, empty texts, zero, False and empty objects are false.
  predicate Truthy(v: Value) {
    match v
    case Null => false
    case Str(text) => |text| > 0
    case Int(n) => n != 0
    case Bool(b) => b
    case Object(fields) => |fields| > 0
    case Opaque(_) => true
  }

  lemma TextOrExactly(v: Value, otherwise: string, conversions: Conversions)
    ensures TextOr(v, otherwise, conversions)
         == if !Truthy(v) then otherwise else (match v case Str(text) => text case _ => conversions.render(v))
  {}

  // The value under the name, or null.
  predicate Holds(payload: Params, name: string, v: Value) {
    if name in payload then v == payload[name] else v == Null
  }

  // A capability payload is read exactly when params is an object, cursor a text or null, page size a positive number
  // or null, the correlation - the task's, where it is missing or false - a text or null, and the identity not empty.
  lemma CapabilityPayloadIsReadExactlyWhen(payload: Params, correlation: Option<string>, conversions: Conversions,
                                           params: Value, cursor: Value, size: Value, own: Value, id: Value,
                                           version: Value)
    requires Holds(payload, "params", params) && Holds(payload, "cursor", cursor) && Holds(payload, "page_size", size)
    requires Holds(payload, "correlation_id", own) && Holds(payload, "capability_id", id)
    requires Holds(payload, "capability_contract_version", version)
    ensures var result := RequestFromTask("CAPABILITY_REQUEST", payload, correlation, conversions);
            && (result.Ok? <==>
                  && params.Object? && (cursor.Null? || cursor.Str?)
                  && (size.Null? || (size.Int? && size.n > 0))
                  && (!Truthy(own) || own.Str?)
                  && IsNamed(id, conversions) && IsNamed(version, conversions))
            && (result.Ok? ==>
                  var request := result.value;
                  && request.params == params.fields
                  && request.cursor == (if cursor.Str? then Some(cursor.text) else None)
                  && request.pageSize == (if size.Int? then Some(size.n) else None)
                  && request.correlation == (if Truthy(own) then Some(own.text) else correlation)
                  && request.capabilityId == (if id.Str? then id.text else conversions.render(id))
                  && request.contractVersion == (if version.Str? then version.text else conversions.render(version)))
  {
    TextOrExactly(id, "", conversions);
    TextOrExactly(version, "", conversions);
  }

  // str(value or "") is not empty.
  predicate IsNamed(v: Value, conversions: Conversions) {
    Truthy(v) && (v.Str? || conversions.render(v) != "")
  }

  // int(value) is a positive number.
  predicate ReadsPositive(v: Value, conversions: Conversions) {
    match v
    case Int(n) => n > 0
    case Bool(b) => b
    case Str(text) => conversions.parseInt(text).Some? && conversions.parseInt(text).value > 0
    case _ => false
  }

  // A legacy payload is read exactly when the page limit, if given, and the page size, unless null, are positive
  // numbers and the cursor is a text or null.
  lemma LegacyPayloadIsReadExactlyWhen(payload: Params, correlation: Option<string>, conversions: Conversions,
                                       cursor: Value, size: Value)
    requires Holds(payload, "cursor", cursor) && Holds(payload, "page_size", size)
    ensures var result := RequestFromTask("X_KEYWORD_SEARCH", payload, correlation, conversions);
            && (result.Ok? <==>
                  && ("max_pages" in payload ==> ReadsPositive(payload["max_pages"], conversions))
                  && (cursor.Null? || cursor.Str?)
                  && (size.Null? || ReadsPositive(size, conversions)))
            && (result.Ok? ==>
                  && result.value.cursor == (if cursor.Str? then Some(cursor.text) else None)
                  && result.value.correlation == correlation)
  {}

  // Any other task type but the legacy search is refused.
  lemma OtherTasksAreRefused(taskType: string, payload: Params, correlation: Option<string>, conversions: Conversions)
    requires taskType != "CAPABILITY_REQUEST" && taskType != "X_KEYWORD_SEARCH"
    ensures RequestFromTask(taskType, payload, correlation, conversions) == Err(UnsupportedTaskType)
  {}

  // The correlation a request comes back with: its own unless that is missing or empty.
  function Correlated(request: CapabilityRequest, correlation: Option<string>): CapabilityRequest {
    if request.correlation.None? || request.correlation.value == "" then request.(correlation := correlation)
    else request
  }

  // A request comes back from its task payload as it was.
  lemma PayloadRoundTrip(request: CapabilityRequest, correlation: Option<string>, conversions: Conversions)
    requires request.Valid()
    ensures RequestFromTask(CAPABILITY_TASK, ToTaskPayload(request), correlation, conversions)
            == Ok(Correlated(request, correlation))
  {}

  // Planning a planned request that travelled through a task gives the same plan, up to its correlation.
  lemma PlanSurvivesTheTask(catalog: Catalog, routes: seq<CapabilityRoute>, request: CapabilityRequest,
                            correlation: Option<string>, conversions: Conversions)
    requires PlanOf(catalog, routes, request, conversions).Ok?
    requires WellFormedSpec(catalog[(request.capabilityId, request.contractVersion)], conversions.isDate)
    ensures var plan := PlanOf(catalog, routes, request, conversions).value;
            var returned := RequestFromTask(CAPABILITY_TASK, ToTaskPayload(plan.request), correlation, conversions);
            && returned == Ok(Correlated(plan.request, correlation))
            && PlanOf(catalog, routes, returned.value, conversions) == Ok(plan.(request := returned.value))
  {
    PlanIsCanonical(catalog, routes, request, conversions);
    var plan := PlanOf(catalog, routes, request, conversions).value;
    PayloadRoundTrip(plan.request, correlation, conversions);
    var returned := Correlated(plan.request, correlation);
    CorrelationIsCarried(catalog, routes, plan.request, conversions, returned.correlation);
    assert plan.request.(correlation := returned.correlation) == returned;
  }

  // ... and so does planning the original request after its travel.
  lemma RequestSurvivesTheTask(catalog: Catalog, routes: seq<CapabilityRoute>, request: CapabilityRequest,
                               correlation: Option<string>, conversions: Conversions)
    requires request.Valid() && PlanOf(catalog, routes, request, conversions).Ok?
    ensures var plan := PlanOf(catalog, routes, request, conversions).value;
            var returned := RequestFromTask(CAPABILITY_TASK, ToTaskPayload(request), correlation, conversions);
            && returned.Ok?
            && PlanOf(catalog, routes, returned.value, conversions)
               == Ok(plan.(request := plan.request.(correlation := returned.value.correlation)))
  {
    PayloadRoundTrip(request, correlation, conversions);
    var returned := Correlated(request, correlation);
    CorrelationIsCarried(catalog, routes, request, conversions, returned.correlation);
    assert request.(correlation := returned.correlation) == returned;
  }
}
