// Input contracts: validation and normalisation of the parameters of a capability.
module CapabilityContracts {
  import opened Options
  import opened Texts

  // JSON values. Arrays and non-integral numbers are not looked into.
  datatype Value =
    | Null
    | Str(text: string)
    | Int(n: int)
    | Bool(b: bool)
    | Object(fields: map<string, Value>)
    | Opaque(json: string)

  // Python's ==: True equals 1, False equals 0.
  predicate Equals(a: Value, b: Value) {
    if (a.Int? || a.Bool?) && (b.Int? || b.Bool?) then Number(a) == Number(b) else a == b
  }

  function Number(v: Value): int {
    match v
    case Int(n) => n
    case Bool(b) => if b then 1 else 0
    case _ => 0
  }

  predicate Listed(v: Value, enum_: seq<Value>) {
    exists i | 0 <= i < |enum_| :: Equals(v, enum_[i])
  }

  datatype FieldSpec = FieldSpec(
    valueType: string, required: bool, nullable: bool, default: Option<Value>, listed: seq<Value>,
    minimum: Option<int>, maximum: Option<int>, minimumLength: Option<int>, format: Option<string>)

  datatype Input = Input(name: string, spec: FieldSpec)

  type Params = map<string, Value>

  datatype ContractError =
    | NullInput(name: string) | UnknownType(name: string) | WrongType(name: string) | NotListed(name: string)
    | TooShort(name: string) | NotADate(name: string) | BelowMinimum(name: string) | AboveMaximum(name: string)
    | UnsupportedInputs(names: set<string>) | MissingInput(name: string)
    | DuplicateContract(capabilityId: string, version: string) | EmptyCatalog | NoSchemaVersion
    | UnsupportedCapability | PageSizeExceeded | NoApprovedRoute
    | MissingIdentity | BadPageSize | BadOptionalString | BadOptionalInteger | BadParams | BadLegacyNumber
    | UnsupportedTaskType | BadRoute
    // int() of something that is no integer: not a contract error in the source, raised all the same
    | ConversionFailure

  // date.fromisoformat, whatever it accepts
  type DateCheck = string -> bool

  // ---- one input ----

  predicate Typed(v: Value, valueType: string) {
    match valueType
    case "string" => v.Str?
    case "integer" => v.Int?
    case "boolean" => v.Bool?
    case _ => false
  }

  function NormalText(text: string, spec: FieldSpec): string {
    if spec.minimumLength.Some? then Strip(text) else text
  }

  function ValidateText(name: string, text: string, spec: FieldSpec, isDate: DateCheck): Result<Value, ContractError> {
    var normal := NormalText(text, spec);
    if spec.minimumLength.Some? && |normal| < spec.minimumLength.value then Err(TooShort(name))
    else if spec.format == Some("date") && !isDate(normal) then Err(NotADate(name))
    else Ok(Str(normal))
  }

  function ValidateNumber(name: string, n: int, spec: FieldSpec): Result<Value, ContractError> {
    if spec.minimum.Some? && n < spec.minimum.value then Err(BelowMinimum(name))
    else if spec.maximum.Some? && spec.maximum.value < n then Err(AboveMaximum(name))
    else Ok(Int(n))
  }

  function ValidateInput(name: string, v: Value, spec: FieldSpec, isDate: DateCheck): Result<Value, ContractError> {
    if v.Null? then if spec.nullable then Ok(Null) else Err(NullInput(name))
    else if spec.valueType !in {"string", "integer", "boolean"} then Err(UnknownType(name))
    else if !Typed(v, spec.valueType) then Err(WrongType(name))
    else if spec.listed != [] && !Listed(v, spec.listed) then Err(NotListed(name))
    else if v.Str? then ValidateText(name, v.text, spec, isDate)
    else if v.Int? then ValidateNumber(name, v.n, spec)
    else Ok(v)
  }

  // Stripping an acceptable listed text leads to a listed text.
  predicate StaysListed(name: string, spec: FieldSpec, isDate: DateCheck) {
    spec.valueType == "string" ==>
      forall i | 0 <= i < |spec.listed| ::
        spec.listed[i].Str? && ValidateText(name, spec.listed[i].text, spec, isDate).Ok? ==>
          Str(NormalText(spec.listed[i].text, spec)) in spec.listed
  }

  lemma ListedText(text: string, listed: seq<Value>)
    ensures Listed(Str(text), listed) <==> Str(text) in listed
  {}

  // Validation of an input is idempotent exactly when stripping does not leave the list. The list is checked
  // before the text is stripped, so a list entry with surrounding blanks breaks it.
  lemma InputIdempotentExactlyWhen(name: string, spec: FieldSpec, isDate: DateCheck)
    ensures StaysListed(name, spec, isDate) <==>
            forall v :: ValidateInput(name, v, spec, isDate).Ok? ==>
              Canonical(name, ValidateInput(name, v, spec, isDate).value, spec, isDate)
  {
    if StaysListed(name, spec, isDate) {
      forall v | ValidateInput(name, v, spec, isDate).Ok?
        ensures Canonical(name, ValidateInput(name, v, spec, isDate).value, spec, isDate)
      {
        ValidatedStaysValid(name, v, spec, isDate);
      }
    } else {
      var i :| 0 <= i < |spec.listed| && spec.listed[i].Str?
        && ValidateText(name, spec.listed[i].text, spec, isDate).Ok?
        && Str(NormalText(spec.listed[i].text, spec)) !in spec.listed;
      var v := spec.listed[i];
      ListedText(v.text, spec.listed);
      ListedText(NormalText(v.text, spec), spec.listed);
      assert ValidateInput(name, v, spec, isDate) == Ok(Str(NormalText(v.text, spec)));
      assert !Canonical(name, ValidateInput(name, v, spec, isDate).value, spec, isDate);
    }
  }

  // Validating the value again changes nothing.
  predicate Canonical(name: string, v: Value, spec: FieldSpec, isDate: DateCheck) {
    ValidateInput(name, v, spec, isDate) == Ok(v)
  }

  lemma ValidatedStaysValid(name: string, v: Value, spec: FieldSpec, isDate: DateCheck)
    requires StaysListed(name, spec, isDate) && ValidateInput(name, v, spec, isDate).Ok?
    ensures Canonical(name, ValidateInput(name, v, spec, isDate).value, spec, isDate)
  {
    if v.Str? {
      StripAgain(v.text);
      ListedText(v.text, spec.listed);
      ListedText(NormalText(v.text, spec), spec.listed);
    }
  }

  // ---- all inputs of a capability ----

  // What an input becomes: absent without a default it stays absent; a default is taken as it is.
  function Outcome(input: Input, params: Params, isDate: DateCheck): Result<Option<Value>, ContractError> {
    if input.name in params then
      match ValidateInput(input.name, params[input.name], input.spec, isDate)
      case Ok(v) => Ok(Some(v))
      case Err(e) => Err(e)
    else if input.spec.default.Some? then Ok(input.spec.default)
    else if input.spec.required then Err(MissingInput(input.name))
    else Ok(None)
  }

  function Names(inputs: seq<Input>): set<string> {
    set i | 0 <= i < |inputs| :: inputs[i].name
  }

  ghost predicate DistinctNames(inputs: seq<Input>) {
    forall i, j | 0 <= i < |inputs| && 0 <= j < |inputs| && inputs[i].name == inputs[j].name :: i == j
  }

  // The first error met, or every outcome under its name and nothing else.
  ghost predicate Normalizes(inputs: seq<Input>, params: Params, result: Result<Params, ContractError>,
                             isDate: DateCheck) {
    match result
    case Ok(normalized) =>
      && (forall i | 0 <= i < |inputs| :: IsOutcome(inputs[i], params, normalized, isDate))
      && normalized.Keys <= Names(inputs)
    case Err(e) =>
      exists i | 0 <= i < |inputs| ::
        Outcome(inputs[i], params, isDate) == Err(e) && forall j | 0 <= j < i :: Outcome(inputs[j], params, isDate).Ok?
  }

  ghost predicate IsOutcome(input: Input, params: Params, normalized: Params, isDate: DateCheck) {
    Outcome(input, params, isDate) ==
      Ok(if input.name in normalized then Some(normalized[input.name]) else None)
  }

  // A result is determined by this description.
  lemma NormalizesIsFunctional(inputs: seq<Input>, params: Params, r: Result<Params, ContractError>,
                               r': Result<Params, ContractError>, isDate: DateCheck)
    requires Normalizes(inputs, params, r, isDate) && Normalizes(inputs, params, r', isDate)
    ensures r == r'
  {
    if r.Ok? && r'.Ok? {
      forall name ensures name in r.value <==> name in r'.value {
        if name in r.value || name in r'.value {
          var i :| 0 <= i < |inputs| && inputs[i].name == name;
          assert IsOutcome(inputs[i], params, r.value, isDate) && IsOutcome(inputs[i], params, r'.value, isDate);
        }
      }
      forall name | name in r.value ensures r.value[name] == r'.value[name] {
        var i :| 0 <= i < |inputs| && inputs[i].name == name;
        assert IsOutcome(inputs[i], params, r.value, isDate) && IsOutcome(inputs[i], params, r'.value, isDate);
      }
      assert r.value == r'.value;
    }
  }

  function WithOutcome(normalized: Params, name: string, outcome: Option<Value>): Params {
    if outcome.Some? then normalized[name := outcome.value] else normalized
  }

  function Normalize(inputs: seq<Input>, params: Params, isDate: DateCheck): Result<Params, ContractError> {
    if inputs == [] then Ok(map[])
    else
      var last := inputs[|inputs| - 1];
      match Normalize(inputs[..|inputs| - 1], params, isDate)
      case Err(e) => Err(e)
      case Ok(normalized) =>
        match Outcome(last, params, isDate)
        case Err(e) => Err(e)
        case Ok(outcome) => Ok(WithOutcome(normalized, last.name, outcome))
  }

  function Validated(inputs: seq<Input>, params: Params, isDate: DateCheck): Result<Params, ContractError> {
    if params.Keys <= Names(inputs) then Normalize(inputs, params, isDate)
    else Err(UnsupportedInputs(params.Keys - Names(inputs)))
  }

  lemma {:induction false} ErrorStays(inputs: seq<Input>, upTo: nat, params: Params, isDate: DateCheck)
    requires upTo <= |inputs| && Normalize(inputs[..upTo], params, isDate).Err?
    ensures Normalize(inputs, params, isDate) == Normalize(inputs[..upTo], params, isDate)
    decreases |inputs| - upTo
  {
    if upTo == |inputs| {
      assert inputs[..upTo] == inputs;
    } else {
      assert inputs[..upTo + 1][..upTo] == inputs[..upTo];
      ErrorStays(inputs, upTo + 1, params, isDate);
    }
  }

  // The loop over the inputs, in the order of their names.
  method ValidateParams(inputs: seq<Input>, params: Params, isDate: DateCheck)
    returns (result: Result<Params, ContractError>)
    ensures result == Validated(inputs, params, isDate)
  {
    var unknown := params.Keys - Names(inputs);
    if unknown == {} {
    } else {
      return Err(UnsupportedInputs(unknown));
    }
    assert forall name <- params :: name !in unknown ==> name in Names(inputs);
    var normalized: Params := map[];
    for i := 0 to |inputs|
      invariant Normalize(inputs[..i], params, isDate) == Ok(normalized)
    {
      var (name, spec) := (inputs[i].name, inputs[i].spec);
      assert inputs[..i + 1][..i] == inputs[..i];
      if name !in params {
        if spec.default.Some? {
          normalized := normalized[name := spec.default.value];
        } else if spec.required {
          ErrorStays(inputs, i + 1, params, isDate);
          return Err(MissingInput(name));
        }
        continue;
      }
      var v := ValidateInput(name, params[name], spec, isDate);
      if v.Err? {
        ErrorStays(inputs, i + 1, params, isDate);
        assert Normalize(inputs[..i + 1], params, isDate) == Err(v.error);
        return Err(v.error);
      }
      normalized := normalized[name := v.value];
    }
    assert inputs[..|inputs|] == inputs;
    result := Ok(normalized);
  }

  lemma OneMoreInput(inputs: seq<Input>, i: nat, params: Params, before: Params, after: Params, isDate: DateCheck)
    requires DistinctNames(inputs) && i < |inputs|
    requires Normalizes(inputs[..i], params, Ok(before), isDate)
    requires IsOutcome(inputs[i], params, after, isDate)
    requires before.Keys <= after.Keys <= before.Keys + {inputs[i].name}
    requires forall name <- before :: name != inputs[i].name ==> after[name] == before[name]
    ensures Normalizes(inputs[..i + 1], params, Ok(after), isDate)
  {
    forall j | 0 <= j < i + 1 ensures IsOutcome(inputs[j], params, after, isDate) {
      if j < i {
        assert inputs[..i][j] == inputs[j];
        assert IsOutcome(inputs[..i][j], params, before, isDate);
      }
    }
    assert Names(inputs[..i + 1]) >= Names(inputs[..i]) + {inputs[i].name} by {
      assert inputs[..i + 1][i] == inputs[i];
      forall name <- Names(inputs[..i]) ensures name in Names(inputs[..i + 1]) {
        var j :| 0 <= j < i && inputs[..i][j].name == name;
        assert inputs[..i + 1][j].name == name;
      }
    }
  }

  // The loop computes what the description says.
  lemma {:induction false} NormalizeNormalizes(inputs: seq<Input>, params: Params, isDate: DateCheck)
    requires DistinctNames(inputs)
    ensures Normalizes(inputs, params, Normalize(inputs, params, isDate), isDate)
  {
    if inputs == [] {
    } else {
      var n := |inputs| - 1;
      NormalizeNormalizes(inputs[..n], params, isDate);
      var before, outcome := Normalize(inputs[..n], params, isDate), Outcome(inputs[n], params, isDate);
      assert inputs[..n + 1] == inputs;
      if before.Err? {
        var i :| 0 <= i < n && Outcome(inputs[..n][i], params, isDate) == Err(before.error)
          && forall j | 0 <= j < i :: Outcome(inputs[..n][j], params, isDate).Ok?;
        assert forall j | 0 <= j <= i :: inputs[..n][j] == inputs[j];
      } else if outcome.Err? {
        forall j | 0 <= j < n ensures Outcome(inputs[j], params, isDate).Ok? {
          assert IsOutcome(inputs[..n][j], params, before.value, isDate);
        }
      } else {
        NewName(inputs, before.value);
        OneMoreInput(inputs, n, params, before.value, WithOutcome(before.value, inputs[n].name, outcome.value), isDate);
      }
    }
  }

  lemma NewName(inputs: seq<Input>, normalized: Params)
    requires DistinctNames(inputs) && inputs != []
    requires normalized.Keys <= Names(inputs[..|inputs| - 1])
    ensures inputs[|inputs| - 1].name !in normalized
  {
    var n := |inputs| - 1;
    forall j | 0 <= j < n ensures inputs[..n][j].name != inputs[n].name {
      assert inputs[..n][j] == inputs[j];
    }
  }

  lemma AcceptedOutcomes(inputs: seq<Input>, params: Params, isDate: DateCheck)
    requires DistinctNames(inputs) && Normalize(inputs, params, isDate).Ok?
    ensures forall i | 0 <= i < |inputs| :: Outcome(inputs[i], params, isDate).Ok?
  {
    NormalizeNormalizes(inputs, params, isDate);
    var normalized := Normalize(inputs, params, isDate).value;
    forall i | 0 <= i < |inputs| ensures Outcome(inputs[i], params, isDate).Ok? {
      assert IsOutcome(inputs[i], params, normalized, isDate);
    }
  }

  // ---- validation is idempotent ----

  // Defaults are valid and already in their normal form, and stripping never leaves a list.
  predicate WellFormed(input: Input, isDate: DateCheck) {
    && StaysListed(input.name, input.spec, isDate)
    && (input.spec.default.Some? ==> Canonical(input.name, input.spec.default.value, input.spec, isDate))
  }

  predicate AllWellFormed(inputs: seq<Input>, isDate: DateCheck) {
    forall i | 0 <= i < |inputs| :: WellFormed(inputs[i], isDate)
  }

  lemma OutcomeAgain(input: Input, params: Params, normalized: Params, isDate: DateCheck)
    requires WellFormed(input, isDate) && IsOutcome(input, params, normalized, isDate)
    ensures IsOutcome(input, normalized, normalized, isDate)
  {
    if input.name in params {
      ValidatedStaysValid(input.name, params[input.name], input.spec, isDate);
    }
  }

  lemma ValidationIsIdempotent(inputs: seq<Input>, params: Params, isDate: DateCheck)
    requires DistinctNames(inputs) && AllWellFormed(inputs, isDate) && Validated(inputs, params, isDate).Ok?
    ensures Validated(inputs, Validated(inputs, params, isDate).value, isDate) == Validated(inputs, params, isDate)
  {
    var normalized := Validated(inputs, params, isDate).value;
    NormalizeNormalizes(inputs, params, isDate);
    NormalizeNormalizes(inputs, normalized, isDate);
    forall i | 0 <= i < |inputs| ensures IsOutcome(inputs[i], normalized, normalized, isDate) {
      OutcomeAgain(inputs[i], params, normalized, isDate);
    }
    NormalizesIsFunctional(inputs, normalized, Normalize(inputs, normalized, isDate), Ok(normalized), isDate);
  }

  ghost predicate Idempotent(inputs: seq<Input>, isDate: DateCheck) {
    forall params :: Validated(inputs, params, isDate).Ok? ==>
      Stable(inputs, Validated(inputs, params, isDate).value, isDate)
  }

  predicate Stable(inputs: seq<Input>, params: Params, isDate: DateCheck) {
    Validated(inputs, params, isDate) == Ok(params)
  }

  // For a contract that accepts anything at all, validation is idempotent exactly when every input is well formed.
  lemma IdempotentExactlyWhen(inputs: seq<Input>, sample: Params, isDate: DateCheck)
    requires DistinctNames(inputs) && Validated(inputs, sample, isDate).Ok?
    ensures Idempotent(inputs, isDate) <==> AllWellFormed(inputs, isDate)
  {
    if AllWellFormed(inputs, isDate) {
      forall params | Validated(inputs, params, isDate).Ok?
        ensures Stable(inputs, Validated(inputs, params, isDate).value, isDate)
      {
        ValidationIsIdempotent(inputs, params, isDate);
      }
    }
    if Idempotent(inputs, isDate) {
      forall i | 0 <= i < |inputs| ensures WellFormed(inputs[i], isDate) {
        IdempotentImpliesWellFormed(inputs, sample, i, isDate);
      }
    }
  }

  // Replacing or dropping one parameter leaves the other outcomes as they were.
  lemma VariantAccepted(inputs: seq<Input>, sample: Params, variant: Params, i: nat, isDate: DateCheck)
    requires DistinctNames(inputs) && Validated(inputs, sample, isDate).Ok? && i < |inputs|
    requires variant.Keys <= sample.Keys + {inputs[i].name}
    requires forall name | name != inputs[i].name ::
               (name in variant <==> name in sample) && (name in sample ==> variant[name] == sample[name])
    requires Outcome(inputs[i], variant, isDate).Ok?
    ensures Validated(inputs, variant, isDate).Ok?
    ensures IsOutcome(inputs[i], variant, Validated(inputs, variant, isDate).value, isDate)
  {
    AcceptedOutcomes(inputs, sample, isDate);
    forall j | 0 <= j < |inputs| ensures Outcome(inputs[j], variant, isDate).Ok? {
      assert j != i ==> Outcome(inputs[j], variant, isDate) == Outcome(inputs[j], sample, isDate);
    }
    assert variant.Keys <= Names(inputs);
    NormalizeNormalizes(inputs, variant, isDate);
  }

  // A listed text that breaks StaysListed, or a default that is not settled, breaks idempotence.
  lemma IdempotentImpliesWellFormed(inputs: seq<Input>, sample: Params, i: nat, isDate: DateCheck)
    requires DistinctNames(inputs) && Validated(inputs, sample, isDate).Ok? && i < |inputs|
    requires Idempotent(inputs, isDate)
    ensures WellFormed(inputs[i], isDate)
  {
    var (name, spec) := (inputs[i].name, inputs[i].spec);
    if spec.default.Some? {
      var variant := map other | other in sample && other != name :: sample[other];
      VariantAccepted(inputs, sample, variant, i, isDate);
      StableOutcome(inputs, Validated(inputs, variant, isDate).value, i, isDate);
    }
    forall v | ValidateInput(name, v, spec, isDate).Ok?
      ensures Canonical(name, ValidateInput(name, v, spec, isDate).value, spec, isDate)
    {
      var variant := sample[name := v];
      VariantAccepted(inputs, sample, variant, i, isDate);
      StableOutcome(inputs, Validated(inputs, variant, isDate).value, i, isDate);
    }
    InputIdempotentExactlyWhen(name, spec, isDate);
  }

  lemma StableOutcome(inputs: seq<Input>, params: Params, i: nat, isDate: DateCheck)
    requires DistinctNames(inputs) && Stable(inputs, params, isDate) && i < |inputs|
    ensures IsOutcome(inputs[i], params, params, isDate)
  {
    NormalizeNormalizes(inputs, params, isDate);
  }
}
