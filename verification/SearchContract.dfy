// The shipped search contract, and what becomes of a legacy search task.
module SearchContract {
  import opened Capabilities
  import opened CapabilityContracts
  import opened ContractMeaning
  import opened Options
  import opened PlannerLaws
  import opened TaskPayloads
  import opened Texts

  function NullableText(format: Option<string>): FieldSpec {
    FieldSpec("string", false, true, None, [], None, None, None, format)
  }

  const FLAG := FieldSpec("boolean", false, false, Some(Bool(true)), [], None, None, None, None)

  const INPUTS: seq<Input> := [
    Input("from_user", NullableText(None)),
    Input("include_replies", FLAG),
    Input("include_reposts", FLAG),
    Input("language", NullableText(None)),
    Input("max_pages", FieldSpec("integer", false, false, Some(Int(2)), [], Some(1), Some(10), None, None)),
    Input("product", FieldSpec("string", false, false, Some(Str("Latest")), [Str("Latest"), Str("Top"), Str("Media")],
                               None, None, None, None)),
    Input("query", FieldSpec("string", true, false, None, [], None, None, Some(1), None)),
    Input("since", NullableText(Some("date"))),
    Input("to_user", NullableText(None)),
    Input("until", NullableText(Some("date")))]

  const SPEC := CapabilitySpec("SEARCH_TWEETS", "1", INPUTS, Some(20), Some(200))

  // The catalog of the one contract.
  const CATALOG: Catalog := map[("SEARCH_TWEETS", "1") := SPEC]

  // legacy_search_planner
  function LegacyRoute(maximumPageSize: int, maximumPages: int): CapabilityRoute {
    CapabilityRoute("legacy-source-adapter/search-tweets/v1", "SEARCH_TWEETS", "1", LegacySourceAdapter, 100, true,
                    ["Latest"], ["query", "product", "max_pages"], Some(maximumPageSize), Some(maximumPages))
  }

  lemma NamesAreDistinct()
    ensures DistinctNames(INPUTS)
  {
    assert |INPUTS| == 10;
  }

  // The shipped contract is well formed, whatever counts as a date: planning with it is canonical.
  lemma ShippedContractIsWellFormed(isDate: DateCheck)
    ensures WellFormedSpec(SPEC, isDate)
    ensures CATALOG.Keys == {(SPEC.capabilityId, SPEC.contractVersion)}
    ensures CATALOG[(SPEC.capabilityId, SPEC.contractVersion)] == SPEC
  {
    NamesAreDistinct();
    assert WellFormed(INPUTS[5], isDate) by {
      var listed := INPUTS[5].spec.listed;
      assert listed[0] in listed && listed[1] in listed && listed[2] in listed;
      ListedText("Latest", listed);
    }
  }

  // A parameter that may be left out, or must be a text or null.
  predicate TextOrNull(params: Params, name: string) {
    name in params ==> params[name].Str? || params[name].Null?
  }

  predicate DateOrNull(params: Params, name: string, isDate: DateCheck) {
    name in params ==> params[name].Null? || (params[name].Str? && isDate(params[name].text))
  }

  predicate FlagIfGiven(params: Params, name: string) {
    name in params ==> params[name].Bool?
  }

  // What the shipped contract accepts.
  predicate Shipped(params: Params, isDate: DateCheck) {
    && params.Keys <= {"from_user", "include_replies", "include_reposts", "language", "max_pages", "product", "query",
                       "since", "to_user", "until"}
    && "query" in params && params["query"].Str? && Strip(params["query"].text) != ""
    && ("product" in params ==> params["product"] in {Str("Latest"), Str("Top"), Str("Media")})
    && ("max_pages" in params ==> params["max_pages"].Int? && 1 <= params["max_pages"].n <= 10)
    && TextOrNull(params, "from_user") && TextOrNull(params, "to_user") && TextOrNull(params, "language")
    && DateOrNull(params, "since", isDate) && DateOrNull(params, "until", isDate)
    && FlagIfGiven(params, "include_replies") && FlagIfGiven(params, "include_reposts")
  }

  lemma ShippedNames()
    ensures forall name :: Declared(name, INPUTS) <==>
              name in {"from_user", "include_replies", "include_reposts", "language", "max_pages", "product", "query",
                       "since", "to_user", "until"}
  {
    assert INPUTS[0].name == "from_user" && INPUTS[1].name == "include_replies" && INPUTS[2].name == "include_reposts";
    assert INPUTS[3].name == "language" && INPUTS[4].name == "max_pages" && INPUTS[5].name == "product";
    assert INPUTS[6].name == "query" && INPUTS[7].name == "since" && INPUTS[8].name == "to_user";
    assert INPUTS[9].name == "until" && |INPUTS| == 10;
  }

  // The shipped contract accepts exactly these parameters; it adds two pages, the latest posts and both flags where
  // they are not given, and strips the query.
  lemma ShippedContractAcceptsExactly(params: Params, isDate: DateCheck)
    ensures Validated(INPUTS, params, isDate).Ok? <==> Shipped(params, isDate)
    ensures Shipped(params, isDate) ==>
              var kept := Validated(INPUTS, params, isDate).value;
              && {"query", "product", "max_pages", "include_replies", "include_reposts"} <= kept.Keys
              && kept["query"] == Str(Strip(params["query"].text))
              && kept["product"] == (if "product" in params then params["product"] else Str("Latest"))
              && kept["max_pages"] == (if "max_pages" in params then params["max_pages"] else Int(2))
              && kept["include_replies"]
                 == (if "include_replies" in params then params["include_replies"] else Bool(true))
              && kept["include_reposts"]
                 == (if "include_reposts" in params then params["include_reposts"] else Bool(true))
  {
    NamesAreDistinct();
    ShippedNames();
    ValidatedExactlyWhen(INPUTS, params, isDate);
    ShippedSupplied(params, isDate);
    if Shipped(params, isDate) {
      ShippedKept(params, Validated(INPUTS, params, isDate).value);
    }
  }

  // What the contract asks of input i alone.
  predicate ShippedAt(i: nat, params: Params, isDate: DateCheck) {
    match i
    case 0 => TextOrNull(params, "from_user")
    case 1 => FlagIfGiven(params, "include_replies")
    case 2 => FlagIfGiven(params, "include_reposts")
    case 3 => TextOrNull(params, "language")
    case 4 => "max_pages" in params ==> params["max_pages"].Int? && 1 <= params["max_pages"].n <= 10
    case 5 => "product" in params ==> params["product"] in {Str("Latest"), Str("Top"), Str("Media")}
    case 6 => "query" in params && params["query"].Str? && Strip(params["query"].text) != ""
    case 7 => DateOrNull(params, "since", isDate)
    case 8 => TextOrNull(params, "to_user")
    case 9 => DateOrNull(params, "until", isDate)
    case _ => true
  }

  lemma SuppliedAt(i: nat, params: Params, isDate: DateCheck)
    requires i < |INPUTS|
    ensures Supplied(INPUTS[i], params, isDate) <==> ShippedAt(i, params, isDate)
  {
    if i == 5 && "product" in params {
      var listed := INPUTS[5].spec.listed;
      assert listed[0] in listed && listed[1] in listed && listed[2] in listed;
    }
  }

  lemma ShippedEverywhere(params: Params, isDate: DateCheck)
    requires params.Keys <= {"from_user", "include_replies", "include_reposts", "language", "max_pages", "product",
                             "query", "since", "to_user", "until"}
    ensures Shipped(params, isDate) <==> forall i: nat | i < 10 :: ShippedAt(i, params, isDate)
  {
    if forall i: nat | i < 10 :: ShippedAt(i, params, isDate) {
      assert ShippedAt(0, params, isDate) && ShippedAt(1, params, isDate) && ShippedAt(2, params, isDate);
      assert ShippedAt(3, params, isDate) && ShippedAt(4, params, isDate) && ShippedAt(5, params, isDate);
      assert ShippedAt(6, params, isDate) && ShippedAt(7, params, isDate) && ShippedAt(8, params, isDate);
      assert ShippedAt(9, params, isDate);
    }
  }

  lemma ShippedSupplied(params: Params, isDate: DateCheck)
    ensures AllSupplied(INPUTS, params, isDate) <==> Shipped(params, isDate)
  {
    ShippedNames();
    assert |INPUTS| == 10;
    forall i: nat | i < |INPUTS| ensures Supplied(INPUTS[i], params, isDate) <==> ShippedAt(i, params, isDate) {
      SuppliedAt(i, params, isDate);
    }
    if forall name <- params :: Declared(name, INPUTS) {
      ShippedEverywhere(params, isDate);
    }
  }

  lemma ShippedKept(params: Params, kept: Params)
    requires AllKept(INPUTS, params, kept)
    requires "query" in params && params["query"].Str?
    requires "product" in params ==> params["product"] in {Str("Latest"), Str("Top"), Str("Media")}
    ensures {"query", "product", "max_pages", "include_replies", "include_reposts"} <= kept.Keys
    ensures kept["query"] == Str(Strip(params["query"].text))
    ensures kept["product"] == (if "product" in params then params["product"] else Str("Latest"))
    ensures kept["max_pages"] == (if "max_pages" in params then params["max_pages"] else Int(2))
    ensures kept["include_replies"] == (if "include_replies" in params then params["include_replies"] else Bool(true))
    ensures kept["include_reposts"] == (if "include_reposts" in params then params["include_reposts"] else Bool(true))
  {
    assert IsKept(INPUTS[6], params, kept) && IsKept(INPUTS[5], params, kept) && IsKept(INPUTS[4], params, kept);
    assert IsKept(INPUTS[1], params, kept) && IsKept(INPUTS[2], params, kept);
  }

  function Asked(query: string, product: string, pages: int): Params {
    map["query" := Str(query), "product" := Str(product), "max_pages" := Int(pages)]
  }

  predicate Acceptable(query: string, product: string, pages: int) {
    query != "" && product in {"Latest", "Top", "Media"} && 1 <= pages <= 10
  }

  lemma ProductListed(product: string)
    ensures Listed(Str(product), INPUTS[5].spec.listed) <==> product in {"Latest", "Top", "Media"}
  {
    var listed := INPUTS[5].spec.listed;
    ListedText(product, listed);
    assert listed[0] in listed && listed[1] in listed && listed[2] in listed;
  }

  // What the three given inputs become.
  lemma GivenOutcomes(query: string, product: string, pages: int, isDate: DateCheck)
    requires query == Strip(query)
    ensures var params := Asked(query, product, pages);
            && (Outcome(INPUTS[6], params, isDate).Ok? <==> query != "")
            && (Outcome(INPUTS[6], params, isDate).Ok? ==> Outcome(INPUTS[6], params, isDate).value == Some(Str(query)))
            && (Outcome(INPUTS[5], params, isDate).Ok? <==> product in {"Latest", "Top", "Media"})
            && (Outcome(INPUTS[5], params, isDate).Ok? ==>
                  Outcome(INPUTS[5], params, isDate).value == Some(Str(product)))
            && (Outcome(INPUTS[4], params, isDate).Ok? <==> 1 <= pages <= 10)
            && (Outcome(INPUTS[4], params, isDate).Ok? ==> Outcome(INPUTS[4], params, isDate).value == Some(Int(pages)))
  {
    ProductListed(product);
  }

  // What the others become: the flags get their default, the rest stays absent.
  lemma OtherOutcomes(i: nat, query: string, product: string, pages: int, isDate: DateCheck)
    requires i < |INPUTS| && i !in {4, 5, 6}
    ensures Outcome(INPUTS[i], Asked(query, product, pages), isDate)
            == Ok(if i == 1 || i == 2 then Some(Bool(true)) else None)
  {}

  function Completed(query: string, product: string, pages: int): Params {
    Asked(query, product, pages)["include_replies" := Bool(true)]["include_reposts" := Bool(true)]
  }

  lemma CompletedAt(i: nat, query: string, product: string, pages: int)
    requires i < |INPUTS|
    ensures INPUTS[i].name in Completed(query, product, pages) <==> i in {1, 2, 4, 5, 6}
    ensures i == 1 || i == 2 ==> Completed(query, product, pages)[INPUTS[i].name] == Bool(true)
    ensures i == 4 ==> Completed(query, product, pages)[INPUTS[i].name] == Int(pages)
    ensures i == 5 ==> Completed(query, product, pages)[INPUTS[i].name] == Str(product)
    ensures i == 6 ==> Completed(query, product, pages)[INPUTS[i].name] == Str(query)
  {}

  lemma CompletedIsOutcome(i: nat, query: string, product: string, pages: int, isDate: DateCheck)
    requires query == Strip(query) && Acceptable(query, product, pages) && i < |INPUTS|
    ensures IsOutcome(INPUTS[i], Asked(query, product, pages), Completed(query, product, pages), isDate)
  {
    CompletedAt(i, query, product, pages);
    if i in {4, 5, 6} {
      GivenOutcomes(query, product, pages, isDate);
    } else {
      OtherOutcomes(i, query, product, pages, isDate);
    }
  }

  lemma NamesCover(query: string, product: string, pages: int)
    ensures Asked(query, product, pages).Keys <= Completed(query, product, pages).Keys <= Names(INPUTS)
  {
    assert {INPUTS[1].name, INPUTS[2].name, INPUTS[4].name, INPUTS[5].name, INPUTS[6].name} <= Names(INPUTS);
  }

  lemma AcceptableIsCompleted(query: string, product: string, pages: int, isDate: DateCheck)
    requires query == Strip(query) && Acceptable(query, product, pages)
    ensures Normalize(INPUTS, Asked(query, product, pages), isDate) == Ok(Completed(query, product, pages))
  {
    var params := Asked(query, product, pages);
    NamesAreDistinct();
    NamesCover(query, product, pages);
    NormalizeNormalizes(INPUTS, params, isDate);
    forall i | 0 <= i < |INPUTS| ensures IsOutcome(INPUTS[i], params, Completed(query, product, pages), isDate) {
      CompletedIsOutcome(i, query, product, pages, isDate);
    }
    NormalizesIsFunctional(INPUTS, params, Normalize(INPUTS, params, isDate), Ok(Completed(query, product, pages)),
                           isDate);
  }

  lemma NormalizedIsAcceptable(query: string, product: string, pages: int, isDate: DateCheck)
    requires query == Strip(query) && Normalize(INPUTS, Asked(query, product, pages), isDate).Ok?
    ensures Acceptable(query, product, pages)
  {
    NamesAreDistinct();
    GivenOutcomes(query, product, pages, isDate);
    AcceptedOutcomes(INPUTS, Asked(query, product, pages), isDate);
    assert |INPUTS| == 10;
  }

  lemma LegacyValidation(query: string, product: string, pages: int, isDate: DateCheck)
    requires query == Strip(query)
    ensures Validated(INPUTS, Asked(query, product, pages), isDate).Ok? <==> Acceptable(query, product, pages)
    ensures Acceptable(query, product, pages) ==>
              Validated(INPUTS, Asked(query, product, pages), isDate) == Ok(Completed(query, product, pages))
  {
    NamesCover(query, product, pages);
    if Acceptable(query, product, pages) {
      AcceptableIsCompleted(query, product, pages, isDate);
    }
    if Normalize(INPUTS, Asked(query, product, pages), isDate).Ok? {
      NormalizedIsAcceptable(query, product, pages, isDate);
    }
  }

  // ---- the legacy planner ----

  function Clamped(a: int, b: int): int {
    if a <= b then a else b
  }

  // What a legacy payload asks for, once its numbers are read.
  datatype LegacySearch = LegacySearch(query: string, product: string, pages: int, pageSize: Option<int>)
  {
    predicate Allowed() {
      query != "" && product == "Latest" && pages <= 10 && (pageSize.Some? ==> pageSize.value <= 200)
    }
  }

  ghost predicate Asks(request: CapabilityRequest, search: LegacySearch) {
    && request.capabilityId == "SEARCH_TWEETS" && request.contractVersion == "1"
    && request.params == Asked(search.query, search.product, search.pages)
    && request.pageSize == search.pageSize
    && search.query == Strip(search.query) && search.pages > 0
    && (search.pageSize.Some? ==> search.pageSize.value > 0)
  }

  lemma LegacyRequestAsks(payload: Params, correlation: Option<string>, conversions: Conversions)
    returns (search: LegacySearch)
    requires RequestFromTask(LEGACY_SEARCH_TASK, payload, correlation, conversions).Ok?
    ensures Asks(RequestFromTask(LEGACY_SEARCH_TASK, payload, correlation, conversions).value, search)
    ensures search.query == Strip(TextOr(Get(payload, "search_keyword"), "", conversions))
    ensures search.product == TextOr(Get(payload, "product"), "Latest", conversions)
    ensures Some(search.pages) == if "max_pages" in payload then ToInt(payload["max_pages"], conversions) else Some(1)
    ensures search.pageSize
         == if Get(payload, "page_size").Null? then None else ToInt(Get(payload, "page_size"), conversions)
  {
    var request := RequestFromTask(LEGACY_SEARCH_TASK, payload, correlation, conversions).value;
    StripAgain(TextOr(Get(payload, "search_keyword"), "", conversions));
    search := LegacySearch(request.params["query"].text, request.params["product"].text,
                           request.params["max_pages"].n, request.pageSize);
  }

  lemma LegacyCandidates(route: CapabilityRoute, request: CapabilityRequest, search: LegacySearch)
    requires exists pageSize, pages :: route == LegacyRoute(pageSize, pages)
    requires request.capabilityId == "SEARCH_TWEETS" && request.contractVersion == "1"
    requires request.params == Completed(search.query, search.product, search.pages)
    ensures Candidates([route], SPEC, request) == if search.product == "Latest" then [route] else []
  {
    LegacySupport(search.query, search.product, search.pages, route);
    assert Admissible(route, SPEC, request) <==> search.product == "Latest";
    assert [route][..0] == [];
    assert Candidates([route][..0], SPEC, request) == [];
  }

  lemma LegacyIsValidated(request: CapabilityRequest, search: LegacySearch, isDate: DateCheck)
    requires Asks(request, search)
    ensures Validate(CATALOG, request, isDate).Ok? <==>
              && Acceptable(search.query, search.product, search.pages)
              && (search.pageSize.Some? ==> search.pageSize.value <= 200)
    ensures Validate(CATALOG, request, isDate).Ok? ==>
              Validate(CATALOG, request, isDate).value ==
                request.(params := Completed(search.query, search.product, search.pages))
  {
    LegacyValidation(search.query, search.product, search.pages, isDate);
    assert Require(CATALOG, "SEARCH_TWEETS", "1") == Ok(SPEC);
  }

  lemma LegacyIsPlanned(request: CapabilityRequest, search: LegacySearch, maximumPageSize: int, maximumPages: int,
                        conversions: Conversions)
    requires Asks(request.(params := Asked(search.query, search.product, search.pages)), search)
    requires request.params == Completed(search.query, search.product, search.pages)
    ensures var result := PlanValidated(SPEC, [LegacyRoute(maximumPageSize, maximumPages)], request, conversions);
            && (result.Ok? <==> search.product == "Latest")
            && (result.Ok? ==>
                  && result.value.route.routeId == "legacy-source-adapter/search-tweets/v1"
                  && result.value.request == request
                  && result.value.maxPages == Clamped(search.pages, maximumPages)
                  && result.value.pageSize == Clamped(if search.pageSize.Some? then search.pageSize.value else 20,
                                                    maximumPageSize))
  {
    LegacyCandidates(LegacyRoute(maximumPageSize, maximumPages), request, search);
  }

  // A legacy search is planned exactly when its query is not blank, it wants the latest posts, and its sizes
  // respect the contract; the plan asks for no more than the route allows.
  lemma LegacySearchIsPlannedExactlyWhen(request: CapabilityRequest, search: LegacySearch, maximumPageSize: int,
                                         maximumPages: int, conversions: Conversions)
    requires Asks(request, search)
    ensures var result := PlanOf(CATALOG, [LegacyRoute(maximumPageSize, maximumPages)], request, conversions);
            && (result.Ok? <==> search.Allowed())
            && (result.Ok? ==>
                  && result.value.route.routeId == "legacy-source-adapter/search-tweets/v1"
                  && result.value.request == request.(params := Completed(search.query, "Latest", search.pages))
                  && result.value.maxPages == Clamped(search.pages, maximumPages)
                  && result.value.pageSize == Clamped(if search.pageSize.Some? then search.pageSize.value else 20,
                                                    maximumPageSize))
  {
    LegacyIsValidated(request, search, conversions.isDate);
    if Validate(CATALOG, request, conversions.isDate).Ok? {
      LegacyIsPlanned(request.(params := Completed(search.query, search.product, search.pages)), search,
                      maximumPageSize, maximumPages, conversions);
    }
  }

  // The legacy route supports what a legacy request leaves at its defaults.
  lemma LegacySupport(query: string, product: string, pages: int, route: CapabilityRoute)
    requires route.supportedInputs == ["query", "product", "max_pages"]
    ensures SupportsParams(route, SPEC, Completed(query, product, pages))
  {
    assert route.supportedInputs[0] == "query" && route.supportedInputs[1] == "product" &&
      route.supportedInputs[2] == "max_pages";
    DefaultsAreTrue();
  }

  lemma DefaultsAreTrue()
    ensures DefaultOf(INPUTS, "include_replies") == DefaultOf(INPUTS, "include_reposts") == Some(Bool(true))
  {
    assert DefaultOf(INPUTS[2..], "include_reposts") == Some(Bool(true));
    assert INPUTS[1..][1..] == INPUTS[2..];
  }
}
