// What validation accepts and what it makes of it, stated on the values.
module ContractMeaning {
  import opened CapabilityContracts
  import opened Options
  import opened Texts

  // Equal, or a number and the truth value that counts as this number.
  predicate SameInPython(a: Value, b: Value) {
    || a == b
    || (a.Int? && b.Bool? && a.n == (if b.b then 1 else 0))
    || (a.Bool? && b.Int? && b.n == (if a.b then 1 else 0))
  }

  lemma EqualsIsSame(a: Value, b: Value)
    ensures Equals(a, b) <==> SameInPython(a, b)
  {}

  // The text that is looked at, and kept.
  function Kept(text: string, spec: FieldSpec): string {
    match spec.minimumLength
    case Some(_) => Strip(text)
    case None => text
  }

  predicate MeetsText(text: string, spec: FieldSpec, isDate: DateCheck) {
    && (spec.minimumLength.Some? ==> spec.minimumLength.value <= |Kept(text, spec)|)
    && (spec.format.Some? && spec.format.value == "date" ==> isDate(Kept(text, spec)))
  }

  predicate MeetsNumber(n: int, spec: FieldSpec) {
    && (spec.minimum.Some? ==> spec.minimum.value <= n)
    && (spec.maximum.Some? ==> n <= spec.maximum.value)
  }

  // Null where null is allowed; or of the declared type, on the list if there is one, long enough, a date if it has to
  // be one, and within the bounds.
  predicate Meets(v: Value, spec: FieldSpec, isDate: DateCheck) {
    if v == Null then spec.nullable
    else
      && (|| (v.Str? && spec.valueType == "string")
          || (v.Int? && spec.valueType == "integer")
          || (v.Bool? && spec.valueType == "boolean"))
      && (spec.listed != [] ==> exists i | 0 <= i < |spec.listed| :: SameInPython(v, spec.listed[i]))
      && (v.Str? ==> MeetsText(v.text, spec, isDate))
      && (v.Int? ==> MeetsNumber(v.n, spec))
  }

  lemma ListedIsSame(v: Value, listed: seq<Value>)
    ensures Listed(v, listed) <==> exists i | 0 <= i < |listed| :: SameInPython(v, listed[i])
  {
    forall i | 0 <= i < |listed| ensures Equals(v, listed[i]) <==> SameInPython(v, listed[i]) {
      EqualsIsSame(v, listed[i]);
    }
  }

  // An input is accepted exactly when it meets its specification; only texts with a minimum length are changed.
  lemma AcceptedExactlyWhenMet(name: string, v: Value, spec: FieldSpec, isDate: DateCheck)
    ensures ValidateInput(name, v, spec, isDate).Ok? <==> Meets(v, spec, isDate)
    ensures Meets(v, spec, isDate) ==>
              ValidateInput(name, v, spec, isDate).value == if v.Str? then Str(Kept(v.text, spec)) else v
  {
    ListedIsSame(v, spec.listed);
  }

  // ---- all inputs ----

  ghost predicate Declared(name: string, inputs: seq<Input>) {
    exists i | 0 <= i < |inputs| :: inputs[i].name == name
  }

  // Given and fit, or not given and not needed.
  predicate Supplied(input: Input, params: Params, isDate: DateCheck) {
    if input.name in params then Meets(params[input.name], input.spec, isDate)
    else input.spec.default.Some? || !input.spec.required
  }

  // What was given, as it is kept; or else the default, if there is one.
  predicate IsKept(input: Input, params: Params, normalized: Params) {
    if input.name in params then
      && input.name in normalized
      && normalized[input.name]
         == (match params[input.name] case Str(text) => Str(Kept(text, input.spec)) case v => v)
    else if input.spec.default.Some? then
      input.name in normalized && normalized[input.name] == input.spec.default.value
    else input.name !in normalized
  }

  ghost predicate AllSupplied(inputs: seq<Input>, params: Params, isDate: DateCheck) {
    && (forall name <- params :: Declared(name, inputs))
    && (forall i | 0 <= i < |inputs| :: Supplied(inputs[i], params, isDate))
  }

  ghost predicate AllKept(inputs: seq<Input>, params: Params, normalized: Params) {
    && (forall name <- normalized :: Declared(name, inputs))
    && (forall i | 0 <= i < |inputs| :: IsKept(inputs[i], params, normalized))
  }

  lemma SuppliedOutcome(input: Input, params: Params, isDate: DateCheck)
    ensures Outcome(input, params, isDate).Ok? <==> Supplied(input, params, isDate)
    ensures forall normalized ::
              IsOutcome(input, params, normalized, isDate) ==> IsKept(input, params, normalized)
  {
    if input.name in params {
      AcceptedExactlyWhenMet(input.name, params[input.name], input.spec, isDate);
    }
  }

  // Parameters are accepted exactly when all are declared and every input is supplied; the result holds every input as
  // it is kept, and nothing else.
  lemma ValidatedExactlyWhen(inputs: seq<Input>, params: Params, isDate: DateCheck)
    requires DistinctNames(inputs)
    ensures Validated(inputs, params, isDate).Ok? <==> AllSupplied(inputs, params, isDate)
    ensures AllSupplied(inputs, params, isDate) ==> AllKept(inputs, params, Validated(inputs, params, isDate).value)
  {
    forall i | 0 <= i < |inputs|
      ensures Outcome(inputs[i], params, isDate).Ok? <==> Supplied(inputs[i], params, isDate)
      ensures forall normalized ::
                IsOutcome(inputs[i], params, normalized, isDate) ==> IsKept(inputs[i], params, normalized)
    {
      SuppliedOutcome(inputs[i], params, isDate);
    }
    assert params.Keys <= Names(inputs) <==> forall name <- params :: Declared(name, inputs);
    NormalizeNormalizes(inputs, params, isDate);
    if Normalize(inputs, params, isDate).Ok? {
      AcceptedOutcomes(inputs, params, isDate);
    }
  }
}
