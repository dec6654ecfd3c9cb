// The capability catalog and the planner: which route serves a request, and with which sizes.
module Capabilities {
  import opened CapabilityContracts
  import opened Options
  import opened Texts

  datatype CapabilitySpec = CapabilitySpec(
    capabilityId: string, contractVersion: string, inputs: seq<Input>,
    defaultPageSize: Option<int>, maximumPageSize: Option<int>)

  datatype CapabilityRequest = CapabilityRequest(
    capabilityId: string, contractVersion: string, params: Params,
    cursor: Option<string>, pageSize: Option<int>, correlation: Option<string>)
  {
    predicate Valid() {
      capabilityId != "" && contractVersion != "" && (pageSize.Some? ==> pageSize.value > 0)
    }
  }

  // The checks every new request goes through.
  function Checked(request: CapabilityRequest): Result<CapabilityRequest, ContractError> {
    if request.capabilityId == "" || request.contractVersion == "" then Err(MissingIdentity)
    else if request.pageSize.Some? && request.pageSize.value <= 0 then Err(BadPageSize)
    else Ok(request)
  }

  datatype ExecutorKind = LegacySourceAdapter | XrevProtocolRuntime | Fixture

  datatype CapabilityRoute = CapabilityRoute(
    routeId: string, capabilityId: string, contractVersion: string, kind: ExecutorKind, priority: int, enabled: bool,
    supportedProducts: seq<string>, supportedInputs: seq<string>,
    maximumPageSize: Option<int>, maximumPages: Option<int>)

  datatype Warning = PageSizeClamped | MaxPagesClamped

  datatype AcquisitionPlan = AcquisitionPlan(
    request: CapabilityRequest, route: CapabilityRoute, pageSize: int, maxPages: int, warnings: seq<Warning>)

  // Conversions of the language: date.fromisoformat, int(str) and str() of what is no string.
  datatype Conversions = Conversions(isDate: DateCheck, parseInt: string -> Option<int>, render: Value -> string)

  // ---- the catalog ----

  type Catalog = map<(string, string), CapabilitySpec>

  function ContractKey(spec: CapabilitySpec): (string, string) {
    (spec.capabilityId, spec.contractVersion)
  }

  ghost predicate DistinctKeys(specs: seq<CapabilitySpec>) {
    forall i, j | 0 <= i < j < |specs| :: ContractKey(specs[i]) != ContractKey(specs[j])
  }

  method BuildCatalog(specs: seq<CapabilitySpec>, schemaVersion: string)
    returns (result: Result<Catalog, ContractError>)
    ensures result.Ok? <==> schemaVersion != "" && specs != [] && DistinctKeys(specs)
    ensures result.Ok? ==>
              && (forall i | 0 <= i < |specs| ::
                    var key := (specs[i].capabilityId, specs[i].contractVersion);
                    key in result.value && result.value[key] == specs[i])
              && (forall key <- result.value :: exists i | 0 <= i < |specs| :: ContractKey(specs[i]) == key)
    ensures result.Err? && schemaVersion != "" && specs != [] ==>
              exists i, j | 0 <= i < j < |specs| ::
                ContractKey(specs[i]) == ContractKey(specs[j]) &&
                  result.error == DuplicateContract(specs[j].capabilityId, specs[j].contractVersion)
  {
    if schemaVersion == "" {
      return Err(NoSchemaVersion);
    }
    if specs == [] {
      return Err(EmptyCatalog);
    }
    var byKey: Catalog := map[];
    for i := 0 to |specs|
      invariant forall j | 0 <= j < i :: ContractKey(specs[j]) in byKey && byKey[ContractKey(specs[j])] == specs[j]
      invariant forall key <- byKey :: exists j | 0 <= j < i :: ContractKey(specs[j]) == key
      invariant DistinctKeys(specs[..i])
    {
      var key := ContractKey(specs[i]);
      if key in byKey {
        return Err(DuplicateContract(specs[i].capabilityId, specs[i].contractVersion));
      }
      byKey := byKey[key := specs[i]];
    }
    assert specs[..|specs|] == specs;
    result := Ok(byKey);
  }

  function Require(catalog: Catalog, capabilityId: string, contractVersion: string)
    : Result<CapabilitySpec, ContractError>
  {
    if (capabilityId, contractVersion) in catalog then Ok(catalog[(capabilityId, contractVersion)])
    else Err(UnsupportedCapability)
  }

  function Validate(catalog: Catalog, request: CapabilityRequest, isDate: DateCheck)
    : Result<CapabilityRequest, ContractError>
  {
    match Require(catalog, request.capabilityId, request.contractVersion)
    case Err(e) => Err(e)
    case Ok(spec) =>
      if request.pageSize.Some? && spec.maximumPageSize.Some? &&
        spec.maximumPageSize.value < request.pageSize.value then
        Err(PageSizeExceeded)
      else
        match Validated(spec.inputs, request.params, isDate)
        case Err(e) => Err(e)
        case Ok(params) => Checked(request.(params := params))
  }

  // ---- routes ----

  function DefaultOf(inputs: seq<Input>, name: string): Option<Value> {
    if inputs == [] then None
    else if inputs[0].name == name then inputs[0].spec.default
    else DefaultOf(inputs[1..], name)
  }

  // A value the route need not support: null, or the contract's default.
  predicate Dispensable(spec: CapabilitySpec, name: string, v: Value) {
    v.Null? || (DefaultOf(spec.inputs, name).Some? && Equals(v, DefaultOf(spec.inputs, name).value))
  }

  ghost predicate SupportsParams(route: CapabilityRoute, spec: CapabilitySpec, params: Params) {
    route.supportedInputs == [] ||
    forall name <- params :: name in route.supportedInputs || Dispensable(spec, name, params[name])
  }

  method RouteSupportsParams(route: CapabilityRoute, spec: CapabilitySpec, params: Params) returns (supported: bool)
    ensures supported <==> SupportsParams(route, spec, params)
  {
    if route.supportedInputs == [] {
      return true;
    }
    var todo := params.Keys;
    while todo != {}
      invariant todo <= params.Keys
      invariant forall name <- params.Keys - todo ::
                  name in route.supportedInputs || Dispensable(spec, name, params[name])
      decreases |todo|
    {
      var name :| name in todo;
      if name !in route.supportedInputs && !Dispensable(spec, name, params[name]) {
        return false;
      }
      todo := todo - {name};
    }
    supported := true;
  }

  predicate ServesProduct(route: CapabilityRoute, params: Params) {
    || route.supportedProducts == []
    || "product" !in params || params["product"].Null?
    || (params["product"].Str? && params["product"].text in route.supportedProducts)
  }

  predicate Offered(route: CapabilityRoute, request: CapabilityRequest) {
    && route.enabled
    && route.capabilityId == request.capabilityId
    && route.contractVersion == request.contractVersion
    && ServesProduct(route, request.params)
  }

  ghost predicate Admissible(route: CapabilityRoute, spec: CapabilitySpec, request: CapabilityRequest) {
    Offered(route, request) && SupportsParams(route, spec, request.params)
  }

  // (priority, route_id)
  predicate Preferred(r: CapabilityRoute, s: CapabilityRoute) {
    r.priority < s.priority || (r.priority == s.priority && ComesBefore(r.routeId, s.routeId))
  }

  lemma PreferenceIsTotal(r: CapabilityRoute, s: CapabilityRoute)
    ensures Preferred(r, s) || Preferred(s, r) || (r.priority == s.priority && r.routeId == s.routeId)
    ensures !(Preferred(r, s) && Preferred(s, r))
  {
    OrderIsTotal(r.routeId, s.routeId);
  }

  lemma PreferenceIsTransitive(r: CapabilityRoute, s: CapabilityRoute, t: CapabilityRoute)
    requires Preferred(r, s) && Preferred(s, t)
    ensures Preferred(r, t)
  {
    if r.priority == s.priority == t.priority {
      OrderIsTransitive(r.routeId, s.routeId, t.routeId);
    }
  }

  // sorted(candidates, key=...)[0]: nothing comes before it, and the sort is stable.
  predicate IsBest(routes: seq<CapabilityRoute>, i: nat) {
    && i < |routes|
    && (forall j | 0 <= j < |routes| :: !Preferred(routes[j], routes[i]))
    && (forall j | 0 <= j < i :: Preferred(routes[i], routes[j]))
  }

  function BestIndex(routes: seq<CapabilityRoute>): (i: nat)
    requires routes != []
    ensures IsBest(routes, i)
  {
    var n := |routes| - 1;
    if n == 0 then (PreferenceIsTotal(routes[0], routes[0]); 0)
    else
      var best := BestIndex(routes[..n]);
      StillBest(routes, best);
      if Preferred(routes[n], routes[best]) then n else best
  }

  lemma StillBest(routes: seq<CapabilityRoute>, best: nat)
    requires routes != [] && IsBest(routes[..|routes| - 1], best)
    ensures var n := |routes| - 1;
            IsBest(routes, if Preferred(routes[n], routes[best]) then n else best)
  {
    var n := |routes| - 1;
    forall j | 0 <= j < n
      ensures !Preferred(routes[j], routes[best]) && (j < best ==> Preferred(routes[best], routes[j]))
    {
      assert routes[..n][j] == routes[j];
    }
    PreferenceIsTotal(routes[n], routes[n]);
    PreferenceIsTotal(routes[n], routes[best]);
    if Preferred(routes[n], routes[best]) {
      forall j | 0 <= j < n ensures Preferred(routes[n], routes[j]) && !Preferred(routes[j], routes[n]) {
        NotAfterBest(routes[n], routes[best], routes[j]);
      }
    }
  }

  lemma NotAfterBest(r: CapabilityRoute, best: CapabilityRoute, other: CapabilityRoute)
    requires Preferred(r, best) && !Preferred(other, best)
    ensures Preferred(r, other) && !Preferred(other, r)
  {
    PreferenceIsTotal(r, other);
    PreferenceIsTotal(best, other);
    if Preferred(best, other) {
      PreferenceIsTransitive(r, best, other);
    }
  }

  ghost function Candidates(routes: seq<CapabilityRoute>, spec: CapabilitySpec,
                            request: CapabilityRequest): (r: seq<CapabilityRoute>)
    ensures forall route :: route in r <==> route in routes && Admissible(route, spec, request)
  {
    if routes == [] then []
    else
      var n := |routes| - 1;
      assert routes == routes[..n] + [routes[n]];
      Candidates(routes[..n], spec, request) + if Admissible(routes[n], spec, request) then [routes[n]] else []
  }

  // ---- the plan ----

  function ToInt(v: Value, conversions: Conversions): Option<int> {
    match v
    case Int(_) => Some(Number(v))
    case Bool(_) => Some(Number(v))
    case Str(text) => conversions.parseInt(text)
    case _ => None
  }

  function RequestedPages(params: Params, conversions: Conversions): Option<int> {
    if "max_pages" in params then ToInt(params["max_pages"], conversions) else Some(1)
  }

  function RequestedPageSize(spec: CapabilitySpec, request: CapabilityRequest): int {
    if request.pageSize.Some? then request.pageSize.value
    else if spec.defaultPageSize.Some? then spec.defaultPageSize.value
    else 20
  }

  predicate Exceeds(requested: int, cap: Option<int>) {
    cap.Some? && cap.value < requested
  }

  function Capped(requested: int, cap: Option<int>): int {
    if Exceeds(requested, cap) then cap.value else requested
  }

  function PlanWith(request: CapabilityRequest, route: CapabilityRoute, pageSize: int, pages: int): AcquisitionPlan {
    AcquisitionPlan(request, route, Capped(pageSize, route.maximumPageSize), Capped(pages, route.maximumPages),
      (if Exceeds(pageSize, route.maximumPageSize) then [PageSizeClamped] else []) +
      (if Exceeds(pages, route.maximumPages) then [MaxPagesClamped] else []))
  }

  ghost function PlanValidated(spec: CapabilitySpec, routes: seq<CapabilityRoute>, request: CapabilityRequest,
                               conversions: Conversions)
    : Result<AcquisitionPlan, ContractError>
  {
    var candidates := Candidates(routes, spec, request);
    if candidates == [] then Err(NoApprovedRoute)
    else
      var pages := RequestedPages(request.params, conversions);
      if pages.None? then Err(ConversionFailure)
      else Ok(PlanWith(request, candidates[BestIndex(candidates)], RequestedPageSize(spec, request), pages.value))
  }

  ghost function PlanOf(catalog: Catalog, routes: seq<CapabilityRoute>, request: CapabilityRequest,
                        conversions: Conversions)
    : Result<AcquisitionPlan, ContractError>
  {
    match Validate(catalog, request, conversions.isDate)
    case Err(e) => Err(e)
    case Ok(validated) =>
      PlanValidated(catalog[(validated.capabilityId, validated.contractVersion)], routes, validated, conversions)
  }

  method Plan(catalog: Catalog, routes: seq<CapabilityRoute>, request: CapabilityRequest, conversions: Conversions)
    returns (result: Result<AcquisitionPlan, ContractError>)
    ensures result == PlanOf(catalog, routes, request, conversions)
  {
    var validation := Validate(catalog, request, conversions.isDate);
    if validation.Err? {
      return Err(validation.error);
    }
    var validated := validation.value;
    var spec := catalog[(validated.capabilityId, validated.contractVersion)];
    var candidates: seq<CapabilityRoute> := [];
    for i := 0 to |routes|
      invariant candidates == Candidates(routes[..i], spec, validated)
    {
      assert routes[..i + 1][..i] == routes[..i];
      if Offered(routes[i], validated) {
        var supported := RouteSupportsParams(routes[i], spec, validated.params);
        if supported {
          candidates := candidates + [routes[i]];
        }
      }
    }
    assert routes[..|routes|] == routes;
    if candidates == [] {
      return Err(NoApprovedRoute);
    }
    var route := candidates[BestIndex(candidates)];
    var pageSize := RequestedPageSize(spec, validated);
    var pages := RequestedPages(validated.params, conversions);
    if pages.None? {
      return Err(ConversionFailure);
    }
    var warnings := [];
    if route.maximumPageSize.Some? && pageSize > route.maximumPageSize.value {
      pageSize := route.maximumPageSize.value;
      warnings := warnings + [PageSizeClamped];
    }
    var maxPages := pages.value;
    if route.maximumPages.Some? && maxPages > route.maximumPages.value {
      maxPages := route.maximumPages.value;
      warnings := warnings + [MaxPagesClamped];
    }
    assert warnings == PlanWith(validated, route, RequestedPageSize(spec, validated), pages.value).warnings;
    result := Ok(AcquisitionPlan(validated, route, pageSize, maxPages, warnings));
  }
}
