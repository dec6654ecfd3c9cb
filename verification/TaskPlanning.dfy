// From a leased task to the search its payload plans.
module TaskPlanning {
  import opened Capabilities
  import opened CapabilityContracts
  import opened Collector
  import opened FeedTables
  import opened Options
  import opened PlannerLaws
  import opened SearchContract
  import opened Tables
  import opened TaskPayloads

  datatype PlannedSearch = PlannedSearch(search: Search, maxPages: nat)

  // How the planner is set up; decode reads the JSON of a payload.
  datatype PlanningSetup = PlanningSetup(
    catalog: Catalog, routes: seq<CapabilityRoute>, conversions: Conversions, decode: string -> Params,
    collectorMaxPages: int)

  const CONTRACT_BROKEN := Collection(CollectionError(PermanentTaskFailure, None))

  // A legacy payload without a page limit gets the configured one.
  function TaskPayload(lease: TaskLease, setup: PlanningSetup): Params {
    var payload := setup.decode(lease.payload);
    if lease.taskType == LEGACY_SEARCH_TASK && "max_pages" !in payload then
      payload["max_pages" := Int(setup.collectorMaxPages)]
    else payload
  }

  function CorrelationOf(lease: TaskLease): string {
    "task:" + Decimal(lease.id) + ":generation:" + Decimal(lease.generation)
  }

  // A contract error fails the task for good; a failing int() is nothing the collection knows.
  function RaisedBy(error: ContractError): Raised {
    if error.ConversionFailure? then Unexpected else CONTRACT_BROKEN
  }

  // str(value)
  function AsText(v: Value, conversions: Conversions): string {
    if v.Str? then v.text else conversions.render(v)
  }

  // Other executors are not supported; a missing query or product is a KeyError.
  function SearchOf(plan: AcquisitionPlan, conversions: Conversions): Result<PlannedSearch, Raised> {
    var params := plan.request.params;
    if !plan.route.kind.LegacySourceAdapter? then Err(CONTRACT_BROKEN)
    else if "query" !in params || "product" !in params then Err(Unexpected)
    else
      var search := Search(AsText(params["query"], conversions), AsText(params["product"], conversions),
                           plan.request.cursor, plan.pageSize);
      Ok(PlannedSearch(search, if plan.maxPages < 0 then 0 else plan.maxPages))
  }

  function RequestOf(lease: TaskLease, setup: PlanningSetup): Result<CapabilityRequest, ContractError> {
    RequestFromTask(lease.taskType, TaskPayload(lease, setup), Some(CorrelationOf(lease)), setup.conversions)
  }

  ghost function PlannedFor(lease: TaskLease, setup: PlanningSetup): Result<PlannedSearch, Raised> {
    match RequestOf(lease, setup)
    case Err(e) => Err(RaisedBy(e))
    case Ok(request) =>
      SearchPlannedBy(PlanOf(setup.catalog, setup.routes, request, setup.conversions), setup.conversions)
  }

  function SearchPlannedBy(planned: Result<AcquisitionPlan, ContractError>, conversions: Conversions)
    : Result<PlannedSearch, Raised>
  {
    match planned
    case Err(e) => Err(RaisedBy(e))
    case Ok(plan) => SearchOf(plan, conversions)
  }

  method PlanTask(lease: TaskLease, setup: PlanningSetup) returns (result: Result<PlannedSearch, Raised>)
    ensures result == PlannedFor(lease, setup)
  {
    var request := RequestOf(lease, setup);
    if request.Err? {
      return Err(RaisedBy(request.error));
    }
    var plan := Plan(setup.catalog, setup.routes, request.value, setup.conversions);
    result := SearchPlannedBy(plan, setup.conversions);
  }

  // ---- how planning fails ----

  // Whatever a plan fails with is permanent, unless a number could not be read or the plan lacks query or product.
  lemma PlanFailsForGood(lease: TaskLease, setup: PlanningSetup)
    requires PlannedFor(lease, setup).Err?
    ensures var (request, failure) := (RequestOf(lease, setup), PlannedFor(lease, setup).error);
            if request.Err? then
              failure == if request.error == ConversionFailure then Unexpected
                         else Collection(CollectionError(PermanentTaskFailure, None))
            else
              match PlanOf(setup.catalog, setup.routes, request.value, setup.conversions)
              case Err(e) =>
                failure == if e == ConversionFailure then Unexpected
                           else Collection(CollectionError(PermanentTaskFailure, None))
              case Ok(plan) =>
                if plan.route.kind != LegacySourceAdapter then
                  failure == Collection(CollectionError(PermanentTaskFailure, None))
                else failure == Unexpected && !({"query", "product"} <= plan.request.params.Keys)
  {}

  // What a plan that is collected asks for, page by page.
  lemma PlannedSearchAsks(lease: TaskLease, setup: PlanningSetup)
    requires PlannedFor(lease, setup).Ok?
    ensures RequestOf(lease, setup).Ok?
    ensures PlanOf(setup.catalog, setup.routes, RequestOf(lease, setup).value, setup.conversions).Ok?
    ensures var (plan, planned) := (PlanOf(setup.catalog, setup.routes, RequestOf(lease, setup).value,
                                           setup.conversions).value, PlannedFor(lease, setup).value);
            && plan.route.kind == LegacySourceAdapter
            && {"query", "product"} <= plan.request.params.Keys
            && planned.search.first == plan.request.cursor && planned.search.pageSize == plan.pageSize
            && IsText(planned.search.query, plan.request.params["query"], setup.conversions)
            && IsText(planned.search.product, plan.request.params["product"], setup.conversions)
            && (plan.maxPages >= 0 ==> planned.maxPages == plan.maxPages)
            && (plan.maxPages < 0 ==> planned.maxPages == 0)
  {}

  // str(value)
  predicate IsText(text: string, v: Value, conversions: Conversions) {
    match v
    case Str(t) => text == t
    case _ => text == conversions.render(v)
  }

  // ---- legacy tasks under the shipped contract ----

  predicate LegacySetup(setup: PlanningSetup, maximumPageSize: int, maximumPages: int) {
    setup.catalog == CATALOG && setup.routes == [LegacyRoute(maximumPageSize, maximumPages)]
  }

  function NoLessThanZero(n: int): nat {
    if n < 0 then 0 else n
  }

  // A legacy task is collected exactly when its payload can be read, its query is not blank, it wants the latest posts
  // and its sizes respect the contract; what is collected is then exactly what it asks for, within the route's sizes.
  lemma LegacyTaskIsCollectedExactlyWhen(lease: TaskLease, setup: PlanningSetup, maximumPageSize: int,
                                         maximumPages: int)
    returns (search: LegacySearch)
    requires lease.taskType == LEGACY_SEARCH_TASK && LegacySetup(setup, maximumPageSize, maximumPages)
    requires RequestOf(lease, setup).Ok?
    ensures Asks(RequestOf(lease, setup).value, search)
    ensures var payload := setup.decode(lease.payload);
            Some(search.pages) == if "max_pages" in payload then PagesWanted(payload, setup.conversions)
                                  else Some(setup.collectorMaxPages)
    ensures RequestOf(lease, setup).value.correlation
         == Some("task:" + Decimal(lease.id) + ":generation:" + Decimal(lease.generation))
    ensures PlannedFor(lease, setup)
            == if !search.Allowed() then Err(CONTRACT_BROKEN)
               else Ok(Within(search, RequestOf(lease, setup).value.cursor, maximumPageSize, maximumPages))
  {
    var request := RequestOf(lease, setup).value;
    search := LegacyRequestAsks(TaskPayload(lease, setup), Some(CorrelationOf(lease)), setup.conversions);
    LegacyRequestIsCollected(request, search, maximumPageSize, maximumPages, setup.conversions);
  }

  lemma LegacyRequestIsCollected(request: CapabilityRequest, search: LegacySearch, maximumPageSize: int,
                                 maximumPages: int, conversions: Conversions)
    requires Asks(request, search)
    ensures SearchPlannedBy(PlanOf(CATALOG, [LegacyRoute(maximumPageSize, maximumPages)], request, conversions),
                            conversions)
            == if !search.Allowed() then Err(CONTRACT_BROKEN)
               else Ok(Within(search, request.cursor, maximumPageSize, maximumPages))
  {
    LegacySearchIsPlannedExactlyWhen(request, search, maximumPageSize, maximumPages, conversions);
    LegacyRequestNeverConverts(request, search, maximumPageSize, maximumPages, conversions);
    var result := PlanOf(CATALOG, [LegacyRoute(maximumPageSize, maximumPages)], request, conversions);
    if result.Ok? {
      PlannedByLegacyRoute(request, maximumPageSize, maximumPages, conversions);
      PlanIsWithin(result.value, request, search, maximumPageSize, maximumPages, conversions);
    }
  }

  lemma PlanIsWithin(plan: AcquisitionPlan, request: CapabilityRequest, search: LegacySearch, maximumPageSize: int,
                     maximumPages: int, conversions: Conversions)
    requires plan.route.kind == LegacySourceAdapter
    requires plan.request == request.(params := Completed(search.query, "Latest", search.pages))
    requires plan.maxPages == Clamped(search.pages, maximumPages)
    requires plan.pageSize == Clamped(if search.pageSize.Some? then search.pageSize.value else 20, maximumPageSize)
    ensures SearchOf(plan, conversions) == Ok(Within(search, request.cursor, maximumPageSize, maximumPages))
  {}

  function Within(search: LegacySearch, cursor: Option<string>, maximumPageSize: int, maximumPages: int)
    : PlannedSearch
  {
    PlannedSearch(
      Search(search.query, "Latest", cursor,
             Clamped(if search.pageSize.Some? then search.pageSize.value else 20, maximumPageSize)),
      NoLessThanZero(Clamped(search.pages, maximumPages)))
  }

  // A legacy search that is not planned breaks the contract or finds no route.
  lemma LegacyRequestNeverConverts(request: CapabilityRequest, search: LegacySearch, maximumPageSize: int,
                                   maximumPages: int, conversions: Conversions)
    requires Asks(request, search)
    ensures PlanOf(CATALOG, [LegacyRoute(maximumPageSize, maximumPages)], request, conversions)
            != Err(ConversionFailure)
  {
    LegacyIsValidated(request, search, conversions.isDate);
    NormalizeNeverConverts(INPUTS, request.params, conversions.isDate);
    assert Require(CATALOG, "SEARCH_TWEETS", "1") == Ok(SPEC);
    var completed := Completed(search.query, search.product, search.pages);
    assert completed["max_pages"] == Int(search.pages);
    assert RequestedPages(completed, conversions) == Some(search.pages);
  }

  lemma PlannedByLegacyRoute(request: CapabilityRequest, maximumPageSize: int, maximumPages: int,
                             conversions: Conversions)
    requires PlanOf(CATALOG, [LegacyRoute(maximumPageSize, maximumPages)], request, conversions).Ok?
    ensures PlanOf(CATALOG, [LegacyRoute(maximumPageSize, maximumPages)], request, conversions).value.route.kind
            == LegacySourceAdapter
  {
    PlanKeepsItsPromises(CATALOG, [LegacyRoute(maximumPageSize, maximumPages)], request, conversions);
  }
}
