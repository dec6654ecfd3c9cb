// Planning is canonical.
module PlannerLaws {
  import opened Capabilities
  import opened CapabilityContracts
  import opened ContractMeaning
  import opened Options
  import opened Texts

  // ---- the plan of a plan ----

  ghost predicate WellFormedSpec(spec: CapabilitySpec, isDate: DateCheck) {
    DistinctNames(spec.inputs) && AllWellFormed(spec.inputs, isDate)
  }

  lemma ValidationIsStable(catalog: Catalog, request: CapabilityRequest, isDate: DateCheck)
    requires Validate(catalog, request, isDate).Ok?
    requires WellFormedSpec(catalog[(request.capabilityId, request.contractVersion)], isDate)
    ensures var validated := Validate(catalog, request, isDate).value;
            Validate(catalog, validated, isDate) == Ok(validated) && validated.Valid()
  {
    ValidationIsIdempotent(catalog[(request.capabilityId, request.contractVersion)].inputs, request.params, isDate);
  }

  // Planning what has been planned gives the same plan.
  lemma PlanIsCanonical(catalog: Catalog, routes: seq<CapabilityRoute>, request: CapabilityRequest,
                        conversions: Conversions)
    requires PlanOf(catalog, routes, request, conversions).Ok?
    requires WellFormedSpec(catalog[(request.capabilityId, request.contractVersion)], conversions.isDate)
    ensures var plan := PlanOf(catalog, routes, request, conversions).value;
            PlanOf(catalog, routes, plan.request, conversions) == Ok(plan) && plan.request.Valid()
  {
    ValidationIsStable(catalog, request, conversions.isDate);
  }

  // ---- the route chosen ----

  ghost predicate DistinctIds(routes: seq<CapabilityRoute>) {
    forall i, j | 0 <= i < |routes| && 0 <= j < |routes| &&
      routes[i].routeId == routes[j].routeId :: routes[i] == routes[j]
  }

  // The least admissible route by (priority, route id).
  ghost predicate IsLeast(routes: seq<CapabilityRoute>, spec: CapabilitySpec, request: CapabilityRequest,
                          route: CapabilityRoute) {
    && route in routes && Admissible(route, spec, request)
    && forall other <- routes :: Admissible(other, spec, request) ==> other == route || Preferred(route, other)
  }

  lemma BestIsLeast(routes: seq<CapabilityRoute>, spec: CapabilitySpec, request: CapabilityRequest)
    requires DistinctIds(routes) && Candidates(routes, spec, request) != []
    ensures var candidates := Candidates(routes, spec, request);
            IsLeast(routes, spec, request, candidates[BestIndex(candidates)])
  {
    var candidates := Candidates(routes, spec, request);
    var best := BestIndex(candidates);
    assert candidates[best] in routes;
    forall other <- routes | Admissible(other, spec, request)
      ensures other == candidates[best] || Preferred(candidates[best], other)
    {
      assert other in candidates;
      var j :| 0 <= j < |candidates| && candidates[j] == other;
      PreferenceIsTotal(candidates[j], candidates[best]);
    }
  }

  lemma LeastIsUnique(routes: seq<CapabilityRoute>, spec: CapabilitySpec, request: CapabilityRequest,
                      r: CapabilityRoute, s: CapabilityRoute)
    requires IsLeast(routes, spec, request, r) && IsLeast(routes, spec, request, s)
    ensures r == s
  {
    PreferenceIsTotal(r, s);
  }

  // Listing the routes in another order changes nothing.
  lemma RouteOrderIsIrrelevant(catalog: Catalog, routes: seq<CapabilityRoute>, shuffled: seq<CapabilityRoute>,
                               request: CapabilityRequest, conversions: Conversions)
    requires DistinctIds(routes) && multiset(routes) == multiset(shuffled)
    ensures PlanOf(catalog, shuffled, request, conversions) == PlanOf(catalog, routes, request, conversions)
  {
    forall r ensures r in routes <==> r in shuffled {
      assert r in multiset(routes) <==> r in multiset(shuffled);
    }
    assert DistinctIds(shuffled) by {
      forall i, j | 0 <= i < |shuffled| && 0 <= j < |shuffled| && shuffled[i].routeId == shuffled[j].routeId
        ensures shuffled[i] == shuffled[j]
      {
        assert shuffled[i] in routes && shuffled[j] in routes;
      }
    }
    var validation := Validate(catalog, request, conversions.isDate);
    if validation.Ok? {
      var validated := validation.value;
      var spec := catalog[(validated.capabilityId, validated.contractVersion)];
      var a, b := Candidates(routes, spec, validated), Candidates(shuffled, spec, validated);
      SameEmptiness(a, b);
      if a != [] {
        BestIsLeast(routes, spec, validated);
        BestIsLeast(shuffled, spec, validated);
        LeastIsUnique(routes, spec, validated, a[BestIndex(a)], b[BestIndex(b)]);
      }
    }
  }

  lemma SameEmptiness(a: seq<CapabilityRoute>, b: seq<CapabilityRoute>)
    requires forall r :: r in a <==> r in b
    ensures a == [] <==> b == []
  {
    if a != [] {
      assert a[0] in b;
    }
    if b != [] {
      assert b[0] in a;
    }
  }

  // ---- what a plan promises ----

  // The chosen route can do what the request asks: every parameter it does not support is null or the default.
  // The sizes are the smaller of what was asked and the cap, with a warning exactly where they were cut.
  lemma PlanKeepsItsPromises(catalog: Catalog, routes: seq<CapabilityRoute>, request: CapabilityRequest,
                             conversions: Conversions)
    requires PlanOf(catalog, routes, request, conversions).Ok?
    ensures var plan := PlanOf(catalog, routes, request, conversions).value;
            var spec := catalog[(request.capabilityId, request.contractVersion)];
            && plan.route in routes && plan.route.enabled
            && (forall name <- plan.request.params ::
                  plan.route.supportedInputs != [] && name !in plan.route.supportedInputs &&
                    !plan.request.params[name].Null? ==>
                    DefaultOf(spec.inputs, name).Some? &&
                      Equals(plan.request.params[name], DefaultOf(spec.inputs, name).value))
            && (plan.route.maximumPageSize.Some? ==> plan.pageSize <= plan.route.maximumPageSize.value)
            && plan.pageSize <= RequestedPageSize(spec, plan.request)
            && (PageSizeClamped in plan.warnings <==> plan.pageSize < RequestedPageSize(spec, plan.request))
            && (PageSizeClamped !in plan.warnings || Some(plan.pageSize) == plan.route.maximumPageSize)
            && RequestedPages(plan.request.params, conversions).Some?
            && (plan.route.maximumPages.Some? ==> plan.maxPages <= plan.route.maximumPages.value)
            && plan.maxPages <= RequestedPages(plan.request.params, conversions).value
            && (MaxPagesClamped in plan.warnings <==>
              plan.maxPages < RequestedPages(plan.request.params, conversions).value)
            && (MaxPagesClamped !in plan.warnings || Some(plan.maxPages) == plan.route.maximumPages)
            && |plan.warnings| <= 2
  {
    var validated := Validate(catalog, request, conversions.isDate).value;
    var spec := catalog[(validated.capabilityId, validated.contractVersion)];
    var candidates := Candidates(routes, spec, validated);
    var route := candidates[BestIndex(candidates)];
    assert route in candidates;
    assert Admissible(route, spec, validated);
  }

  // ---- which plan, stated on requests and routes ----

  // The default of the first input of that name.
  ghost predicate IsDefault(inputs: seq<Input>, name: string, v: Value) {
    exists i | 0 <= i < |inputs| ::
      IsFirstNamed(inputs, name, i) && inputs[i].spec.default.Some? && SameInPython(v, inputs[i].spec.default.value)
  }

  predicate IsFirstNamed(inputs: seq<Input>, name: string, i: nat)
    requires i < |inputs|
  {
    inputs[i].name == name && forall j | 0 <= j < i :: inputs[j].name != name
  }

  lemma {:induction false} DefaultIsOfFirst(inputs: seq<Input>, name: string, v: Value)
    ensures DefaultOf(inputs, name).Some? && Equals(v, DefaultOf(inputs, name).value) <==> IsDefault(inputs, name, v)
  {
    if inputs == [] {
    } else if inputs[0].name == name {
      assert IsFirstNamed(inputs, name, 0);
      if inputs[0].spec.default.Some? {
        EqualsIsSame(v, inputs[0].spec.default.value);
      }
    } else {
      DefaultIsOfFirst(inputs[1..], name, v);
      if i :| 0 <= i < |inputs| && IsFirstNamed(inputs, name, i) && inputs[i].spec.default.Some?
              && SameInPython(v, inputs[i].spec.default.value) {
        assert inputs[1..][i - 1] == inputs[i] && IsFirstNamed(inputs[1..], name, i - 1);
      }
      if i :| 0 <= i < |inputs[1..]| && IsFirstNamed(inputs[1..], name, i) && inputs[1..][i].spec.default.Some?
              && SameInPython(v, inputs[1..][i].spec.default.value) {
        NamedLater(inputs, name, i);
      }
    }
  }

  lemma NamedLater(inputs: seq<Input>, name: string, i: nat)
    requires inputs != [] && inputs[0].name != name && i < |inputs| - 1 && IsFirstNamed(inputs[1..], name, i)
    ensures inputs[i + 1] == inputs[1..][i] && IsFirstNamed(inputs, name, i + 1)
  {
    forall j | 0 <= j < i + 1 ensures inputs[j].name != name {
      assert j > 0 ==> inputs[j] == inputs[1..][j - 1];
    }
  }

  // Enabled for this capability and version, for the product asked for, and for every parameter that is neither null
  // nor left at its default.
  ghost predicate Serves(route: CapabilityRoute, inputs: seq<Input>, request: CapabilityRequest) {
    && route.enabled == true
    && route.capabilityId == request.capabilityId && route.contractVersion == request.contractVersion
    && (route.supportedProducts != [] && "product" in request.params && request.params["product"] != Null ==>
          request.params["product"].Str? && request.params["product"].text in route.supportedProducts)
    && (route.supportedInputs != [] ==>
          forall name <- request.params ::
            || name in route.supportedInputs || request.params[name] == Null
            || IsDefault(inputs, name, request.params[name]))
  }

  lemma AdmissibleServes(route: CapabilityRoute, spec: CapabilitySpec, request: CapabilityRequest)
    ensures Admissible(route, spec, request) <==> Serves(route, spec.inputs, request)
  {
    forall name <- request.params
      ensures Dispensable(spec, name, request.params[name])
              <==> request.params[name] == Null || IsDefault(spec.inputs, name, request.params[name])
    {
      DefaultIsOfFirst(spec.inputs, name, request.params[name]);
    }
  }

  // The lower priority number wins, then the lower route id, character by character.
  ghost predicate WinsOver(r: CapabilityRoute, s: CapabilityRoute) {
    r.priority < s.priority || (r.priority == s.priority && exists k: nat :: PartsAt(r.routeId, s.routeId, k))
  }

  // The size given, or the contract's default, or 20.
  function PageSizeWanted(spec: CapabilitySpec, request: CapabilityRequest): int {
    match (request.pageSize, spec.defaultPageSize)
    case (Some(size), _) => size
    case (None, Some(size)) => size
    case (None, None) => 20
  }

  // int(max_pages), or 1 if it is not given.
  function PagesWanted(params: Params, conversions: Conversions): Option<int> {
    if "max_pages" !in params then Some(1)
    else
      match params["max_pages"]
      case Int(n) => Some(n)
      case Bool(b) => Some(if b then 1 else 0)
      case Str(text) => conversions.parseInt(text)
      case Null => None
      case Object(_) => None
      case Opaque(_) => None
  }

  // Cut to the cap, with the warning exactly where it was cut.
  predicate CutTo(wanted: int, cap: Option<int>, effective: int, warned: bool) {
    if cap.Some? && wanted > cap.value then effective == cap.value && warned else effective == wanted && !warned
  }

  // The plan for a validated request: of the routes that serve it, the first that no other wins over.
  ghost predicate IsPlan(plan: AcquisitionPlan, spec: CapabilitySpec, routes: seq<CapabilityRoute>,
                         request: CapabilityRequest, conversions: Conversions)
  {
    && plan.request == request
    && plan.route in routes && Serves(plan.route, spec.inputs, request)
    && (forall other <- routes | Serves(other, spec.inputs, request) :: !WinsOver(other, plan.route))
    && PagesWanted(request.params, conversions).Some?
    && CutTo(PageSizeWanted(spec, request), plan.route.maximumPageSize, plan.pageSize,
             PageSizeClamped in plan.warnings)
    && CutTo(PagesWanted(request.params, conversions).value, plan.route.maximumPages, plan.maxPages,
             MaxPagesClamped in plan.warnings)
  }

  lemma BestWins(routes: seq<CapabilityRoute>, spec: CapabilitySpec, request: CapabilityRequest)
    ensures var candidates := Candidates(routes, spec, request);
            && (candidates == [] <==> forall route <- routes :: !Serves(route, spec.inputs, request))
            && (candidates != [] ==>
                  var best := candidates[BestIndex(candidates)];
                  && best in routes && Serves(best, spec.inputs, request)
                  && forall other <- routes | Serves(other, spec.inputs, request) :: !WinsOver(other, best))
  {
    var candidates := Candidates(routes, spec, request);
    forall route ensures route in candidates <==> route in routes && Serves(route, spec.inputs, request) {
      AdmissibleServes(route, spec, request);
    }
    if candidates == [] {
    } else {
      assert candidates[0] in candidates;
      var best := candidates[BestIndex(candidates)];
      assert best in candidates;
      forall other <- routes | Serves(other, spec.inputs, request) ensures !WinsOver(other, best) {
        assert other in candidates;
        ComesBeforeExactlyWhen(other.routeId, best.routeId);
      }
    }
  }

  // What validation asks of a request as a whole.
  ghost predicate Permitted(catalog: Catalog, request: CapabilityRequest, isDate: DateCheck) {
    && (request.capabilityId, request.contractVersion) in catalog
    && var spec := catalog[(request.capabilityId, request.contractVersion)];
    && AllSupplied(spec.inputs, request.params, isDate)
    && (request.pageSize.Some? ==>
          && 0 < request.pageSize.value
          && (spec.maximumPageSize.Some? ==> request.pageSize.value <= spec.maximumPageSize.value))
    && request.capabilityId != "" && request.contractVersion != ""
  }

  lemma ValidExactlyWhenPermitted(catalog: Catalog, request: CapabilityRequest, isDate: DateCheck)
    requires (request.capabilityId, request.contractVersion) in catalog ==>
               DistinctNames(catalog[(request.capabilityId, request.contractVersion)].inputs)
    ensures Validate(catalog, request, isDate).Ok? <==> Permitted(catalog, request, isDate)
    ensures Permitted(catalog, request, isDate) ==>
              var validated := Validate(catalog, request, isDate).value;
              && AllKept(catalog[(request.capabilityId, request.contractVersion)].inputs, request.params,
                         validated.params)
              && validated == request.(params := validated.params)
  {
    if (request.capabilityId, request.contractVersion) in catalog {
      ValidatedExactlyWhen(catalog[(request.capabilityId, request.contractVersion)].inputs, request.params, isDate);
    }
  }

  // A request is planned exactly when it is permitted, a route serves it and its page limit is a number; the plan is
  // then the one described, for the request with its parameters as they are kept.
  lemma PlannedExactlyWhen(catalog: Catalog, routes: seq<CapabilityRoute>, request: CapabilityRequest,
                           conversions: Conversions) returns (validated: CapabilityRequest)
    requires (request.capabilityId, request.contractVersion) in catalog ==>
               DistinctNames(catalog[(request.capabilityId, request.contractVersion)].inputs)
    ensures var result := PlanOf(catalog, routes, request, conversions);
            if !Permitted(catalog, request, conversions.isDate) then result.Err? && !result.error.ConversionFailure?
            else
              var spec := catalog[(request.capabilityId, request.contractVersion)];
              && validated == request.(params := validated.params)
              && AllKept(spec.inputs, request.params, validated.params)
              && (result == Err(NoApprovedRoute) <==>
                    forall route <- routes :: !Serves(route, spec.inputs, validated))
              && (result == Err(ConversionFailure) <==>
                    && (exists route <- routes :: Serves(route, spec.inputs, validated))
                    && PagesWanted(validated.params, conversions).None?)
              && (result.Ok? ==> IsPlan(result.value, spec, routes, validated, conversions))
              && (result.Err? ==> result.error in {NoApprovedRoute, ConversionFailure})
  {
    ValidExactlyWhenPermitted(catalog, request, conversions.isDate);
    validated := request;
    if Permitted(catalog, request, conversions.isDate) {
      validated := Validate(catalog, request, conversions.isDate).value;
      PlannedValidated(catalog[(request.capabilityId, request.contractVersion)], routes, validated, conversions);
    } else {
      ValidationNeverConverts(catalog, request, conversions.isDate);
    }
  }

  lemma PlannedValidated(spec: CapabilitySpec, routes: seq<CapabilityRoute>, request: CapabilityRequest,
                         conversions: Conversions)
    ensures var result := PlanValidated(spec, routes, request, conversions);
            && (result == Err(NoApprovedRoute) <==> forall route <- routes :: !Serves(route, spec.inputs, request))
            && (result == Err(ConversionFailure) <==>
                  && (exists route <- routes :: Serves(route, spec.inputs, request))
                  && PagesWanted(request.params, conversions).None?)
            && (result.Ok? ==> IsPlan(result.value, spec, routes, request, conversions))
            && (result.Err? ==> result.error in {NoApprovedRoute, ConversionFailure})
  {
    BestWins(routes, spec, request);
  }

  lemma ValidationNeverConverts(catalog: Catalog, request: CapabilityRequest, isDate: DateCheck)
    ensures Validate(catalog, request, isDate) != Err(ConversionFailure)
  {
    if (request.capabilityId, request.contractVersion) in catalog {
      NormalizeNeverConverts(catalog[(request.capabilityId, request.contractVersion)].inputs, request.params, isDate);
    }
  }

  lemma {:induction false} NormalizeNeverConverts(inputs: seq<Input>, params: Params, isDate: DateCheck)
    ensures Normalize(inputs, params, isDate) != Err(ConversionFailure)
  {
    if inputs == [] {
    } else {
      NormalizeNeverConverts(inputs[..|inputs| - 1], params, isDate);
    }
  }

  // ---- who asks does not matter ----

  lemma CandidatesIgnoreCorrelation(routes: seq<CapabilityRoute>, spec: CapabilitySpec, request: CapabilityRequest,
                                    correlation: Option<string>)
    ensures Candidates(routes, spec, request.(correlation := correlation)) == Candidates(routes, spec, request)
  {
    if routes == [] {
    } else {
      CandidatesIgnoreCorrelation(routes[..|routes| - 1], spec, request, correlation);
    }
  }

  lemma CorrelationIsCarried(catalog: Catalog, routes: seq<CapabilityRoute>, request: CapabilityRequest,
                             conversions: Conversions, correlation: Option<string>)
    requires PlanOf(catalog, routes, request, conversions).Ok?
    ensures var plan := PlanOf(catalog, routes, request, conversions).value;
            PlanOf(catalog, routes, request.(correlation := correlation), conversions)
            == Ok(plan.(request := plan.request.(correlation := correlation)))
  {
    var validated := Validate(catalog, request, conversions.isDate).value;
    var spec := catalog[(validated.capabilityId, validated.contractVersion)];
    CandidatesIgnoreCorrelation(routes, spec, validated, correlation);
  }
}
