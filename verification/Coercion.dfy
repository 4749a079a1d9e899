/** Dropping optional nulls, coercing primitives, and validating the result. */
module Coercion {
  import opened Wrappers
  import opened JsNumbers
  import opened Json
  import opened Schema
  import opened Checker

  // ------------------------------------------------------------ primitives

  /** The integer an integral double stands for. */
  function IntegerValue(d: FiniteDouble): int
    requires IsIntegral(d)
  {
    match d
    case Zero(_) => 0
    case Finite(neg, digits, exponent) =>
      var magnitude := DecimalValue(digits + Zeros(exponent + 1 - |digits|));
      if neg then 0 - magnitude else magnitude
  }

  const I64_BOUND: int := 0x8000_0000_0000_0000

  /** Integral values in the `i64` range become integers. */
  function NumberValue(d: FiniteDouble): Value {
    if IsIntegral(d) && -I64_BOUND <= IntegerValue(d) < I64_BOUND
    then Num(Int(IntegerValue(d), if d.Zero? then Zero(false) else d))
    else Num(Float(d))
  }

  const ZERO := Num(Int(0, Zero(false)))
  const ONE := Num(Int(1, Finite(false, "1", 0)))

  function CoercePrimitive(env: Env, value: Value, kind: string): Value {
    match kind
    case "number" => CoerceToNumber(env, value, false)
    case "integer" => CoerceToNumber(env, value, true)
    case "boolean" =>
      (match value
       case Null => Bool(false)
       case Str(text) => if text == "true" then Bool(true) else if text == "false" then Bool(false) else value
       case Num(number) =>
         if number.asF64 == Finite(false, "1", 0) then Bool(true)
         else if number.asF64.Zero? then Bool(false)
         else value
       case _ => value)
    case "string" =>
      (match value
       case Null => Str("")
       case Num(number) => Str(NumberText(number.asF64))
       case Bool(flag) => Str(if flag then "true" else "false")
       case _ => value)
    case "null" =>
      (match value
       case Str(text) => if text == "" then Null else value
       case Num(number) => if number.asF64.Zero? then Null else value
       case Bool(flag) => if flag then value else Null
       case _ => value)
    case _ => value
  }

  function CoerceToNumber(env: Env, value: Value, integral: bool): Value {
    match value
    case Null => ZERO
    case Bool(flag) => if flag then ONE else ZERO
    case Str(text) =>
      if env.isBlank(text) then value
      else
        (match env.parseNumber(text)
         case Some(parsed) =>
           if (parsed.Zero? || parsed.Finite?) && (!integral || IsIntegral(parsed)) then NumberValue(parsed) else value
         case None => value)
    case _ => value
  }

  /** The first kind that changes the value decides. */
  function CoerceByKinds(env: Env, value: Value, kinds: seq<string>): Value {
    if kinds == [] then value
    else
      var candidate := CoercePrimitive(env, value, kinds[0]);
      if candidate != value then candidate else CoerceByKinds(env, value, kinds[1..])
  }

  function CoerceByType(env: Env, value: Value, schema: Value): Value {
    var kinds := SchemaTypes(schema);
    if |kinds| > 1 && exists kind | kind in kinds :: MatchesType(value, kind) then value
    else CoerceByKinds(env, value, kinds)
  }

  /** A value of the right kind is left alone. */
  lemma TypedUnchanged(env: Env, value: Value, schema: Value)
    requires TypeHolds(schema, value)
    ensures CoerceByType(env, value, schema) == value
  {
    var kinds := SchemaTypes(schema);
    if |kinds| == 1 {
      var kind :| kind in kinds && MatchesType(value, kind);
      assert CoercePrimitive(env, value, kind) == value;
      assert CoerceByKinds(env, value, kinds[1..]) == value;
    }
  }

  // --------------------------------------------------- reference functions

  predicate IsRequired(schema: Value, key: string) {
    var required := GetItems(schema, "required");
    required.Some? && key in TextsOf(required.value)
  }

  /** A null member counts as omitted when it is optional and its schema,
      unless a reference, rejects null. */
  ghost predicate Drops(env: Env, schema: Value, key: string, property: Value, member: Value) {
    member.Null? && !IsRequired(schema, key) && GetText(property, "$ref").None? && !Accepts(env, property, Null, 0)
  }

  /** `value` without the nulls that count as omitted. */
  ghost function Normalized(env: Env, value: Value, schema: Value): Value
    decreases value
  {
    match value
    case Arr(items) =>
      Arr(seq(|items|, i requires 0 <= i < |items| =>
        var itemSchema := CoercedItemSchema(schema, i);
        if itemSchema.Some? then Normalized(env, items[i], itemSchema.value) else items[i]))
    case Obj(members) =>
      var properties := PropertiesOf(schema);
      Obj(map key | key in members && !(key in properties && Drops(env, schema, key, properties[key], members[key])) ::
        if key in properties then Normalized(env, members[key], properties[key]) else members[key])
    case _ => value
  }

  function PropertiesOf(schema: Value): (properties: map<string, Value>)
    ensures forall key | key in properties :: properties[key] < schema
  {
    var properties := GetMembers(schema, "properties");
    if properties.Some? then properties.value else map[]
  }

  /** The schema that normalisation and coercion use for item `i`: a tuple's own
      member, or one `items` schema for all of them. */
  function CoercedItemSchema(schema: Value, i: nat): (r: Option<Value>)
    ensures r.Some? ==> r.value < schema
  {
    match Get(schema, "items")
    case Some(Arr(tuple)) => if i < |tuple| then Some(tuple[i]) else None
    case Some(itemSchema) => Some(itemSchema)
    case None => None
  }

  /** `additionalProperties` when it is an object, which is when it coerces. */
  function CoercingAdditional(schema: Value): (r: Option<Value>)
    ensures r.Some? ==> r.value < schema && r == Get(schema, "additionalProperties")
  {
    match Get(schema, "additionalProperties")
    case Some(additional) => if additional.Obj? then Some(additional) else None
    case None => None
  }

  ghost function Coerced(env: Env, value: Value, schema: Value): Value
    decreases schema, 3
  {
    var next := if GetItems(schema, "allOf").Some? then CoercedThrough(env, value, schema, GetItems(schema, "allOf").value) else value;
    var next := if GetItems(schema, "anyOf").Some? then CoercedUnion(env, next, schema, GetItems(schema, "anyOf").value) else next;
    var next := if GetItems(schema, "oneOf").Some? then CoercedUnion(env, next, schema, GetItems(schema, "oneOf").value) else next;
    CoercedShape(env, CoerceByType(env, next, schema), schema)
  }

  /** Members of an object, items of an array, when the schema names that kind. */
  ghost function CoercedShape(env: Env, value: Value, schema: Value): Value
    decreases schema, 2
  {
    if "object" in SchemaTypes(schema) && value.Obj? then Obj(CoercedMembers(env, value.members, schema))
    else if "array" in SchemaTypes(schema) && value.Arr? then Arr(CoercedItems(env, value.items, schema))
    else value
  }

  /** Through every `allOf` branch in turn. */
  ghost function CoercedThrough(env: Env, value: Value, schema: Value, branches: seq<Value>): Value
    requires forall i | 0 <= i < |branches| :: branches[i] < schema
    decreases schema, 0, |branches|
  {
    if branches == [] then value
    else CoercedThrough(env, Coerced(env, value, branches[0]), schema, branches[1..])
  }

  /** A value some branch accepts is kept; otherwise the first branch that
      accepts what it coerces the value to decides. */
  ghost function CoercedUnion(env: Env, value: Value, schema: Value, branches: seq<Value>): Value
    requires forall i | 0 <= i < |branches| :: branches[i] < schema
    decreases schema, 0, |branches| + 1
  {
    if AnyMatches(env, branches, value) then value
    else FirstCoercion(env, value, schema, branches)
  }

  ghost predicate AnyMatches(env: Env, branches: seq<Value>, value: Value) {
    exists i | 0 <= i < |branches| :: Accepts(env, branches[i], value, 0)
  }

  ghost function FirstCoercion(env: Env, value: Value, schema: Value, branches: seq<Value>): Value
    requires forall i | 0 <= i < |branches| :: branches[i] < schema
    decreases schema, 0, |branches|
  {
    if branches == [] then value
    else
      var coerced := Coerced(env, value, branches[0]);
      if Accepts(env, branches[0], coerced, 0) then coerced
      else FirstCoercion(env, value, schema, branches[1..])
  }

  /** Declared members by their own schema, the rest by the additional one. */
  ghost function CoercedMembers(env: Env, members: map<string, Value>, schema: Value): map<string, Value>
    decreases schema, 1
  {
    map key | key in members :: CoercedMember(env, members[key], schema, key)
  }

  ghost function CoercedMember(env: Env, member: Value, schema: Value, key: string): Value
    decreases schema, 0
  {
    var properties := PropertiesOf(schema);
    var additional := CoercingAdditional(schema);
    if key in properties then Coerced(env, member, properties[key])
    else if additional.Some? then Coerced(env, member, additional.value)
    else member
  }

  ghost function CoercedItems(env: Env, items: seq<Value>, schema: Value): (r: seq<Value>)
    ensures |r| == |items|
    decreases schema, 1
  {
    seq(|items|, i requires 0 <= i < |items| => CoercedItem(env, items[i], schema, i))
  }

  /** Only a tuple or an object schema coerces items. */
  ghost function CoercedItem(env: Env, item: Value, schema: Value, i: nat): Value
    decreases schema, 0
  {
    var itemSchema := CoercedItemSchema(schema, i);
    if itemSchema.Some? && (GetItems(schema, "items").Some? || itemSchema.value.Obj?)
    then Coerced(env, item, itemSchema.value)
    else item
  }

  /** What validation returns with steps to spare: the accepted arguments. */
  ghost function Validated(env: Env, parameters: Value, arguments: Value): Option<Value> {
    var args := Normalized(env, arguments, parameters);
    var coerced := Coerced(env, args, parameters);
    if args.Obj? && coerced.Obj? then
      if Accepts(env, parameters, coerced, 0) then Some(coerced) else None
    else if coerced != args then
      Some(if Accepts(env, parameters, coerced, 0) then coerced else args)
    else
      if Accepts(env, parameters, args, 0) then Some(args) else None
  }

  // -------------------------------------------------- depth makes no change

  /** `sub` on `part` is one of the evaluations the keywords of `schema` can ask
      for on `value`, one level down. */
  ghost predicate Evaluates(env: Env, schema: Value, value: Value, sub: Value, part: Value) {
    || (part == value && EvaluatesSame(env, schema, sub))
    || (value.Obj? && exists key | key in value.members ::
          || (part == value.members[key] && EvaluatesMember(schema, sub))
          || (part == Str(key) && Get(schema, "propertyNames") == Some(sub)))
    || (value.Arr? && exists i | 0 <= i < |value.items| ::
          part == value.items[i] && (Get(schema, "contains") == Some(sub) || ItemSchema(schema, i) == Some(sub)))
  }

  ghost predicate EvaluatesSame(env: Env, schema: Value, sub: Value) {
    || (GetText(schema, "$ref").Some? && env.resolve(GetText(schema, "$ref").value) == Some(sub))
    || Get(schema, "if") == Some(sub)
    || Get(schema, "then") == Some(sub)
    || Get(schema, "else") == Some(sub)
    || Get(schema, "not") == Some(sub)
    || (GetItems(schema, "allOf").Some? && sub in GetItems(schema, "allOf").value)
    || (GetItems(schema, "anyOf").Some? && sub in GetItems(schema, "anyOf").value)
    || (GetItems(schema, "oneOf").Some? && sub in GetItems(schema, "oneOf").value)
  }

  ghost predicate EvaluatesMember(schema: Value, sub: Value) {
    || Get(schema, "additionalProperties") == Some(sub)
    || (GetMembers(schema, "patternProperties").Some? && sub in GetMembers(schema, "patternProperties").value.Values)
    || (GetMembers(schema, "properties").Some? && sub in GetMembers(schema, "properties").value.Values)
  }

  /** Evaluating `schema` on `value` needs at most `levels` levels, so a depth
      limit that far away never cuts it short. */
  ghost predicate Fits(env: Env, schema: Value, value: Value, levels: nat)
    decreases levels
  {
    && levels > 0
    && forall sub, part | Evaluates(env, schema, value, sub, part) :: Fits(env, sub, part, levels - 1)
  }

  /** The evaluations below agree at two depths. */
  ghost predicate AgreeBelow(env: Env, schema: Value, value: Value, d: nat, e: nat) {
    forall sub, part | Evaluates(env, schema, value, sub, part) :: Accepts(env, sub, part, d) == Accepts(env, sub, part, e)
  }

  /** An evaluation that fits gives one verdict at every depth. */
  lemma {:induction false} DepthMakesNoChange(env: Env, schema: Value, value: Value, levels: nat, d: nat, e: nat)
    requires Fits(env, schema, value, levels) && d + levels <= MAX_DEPTH + 1 && e + levels <= MAX_DEPTH + 1
    ensures Accepts(env, schema, value, d) == Accepts(env, schema, value, e)
    decreases levels, 1
  {
    BelowAgrees(env, schema, value, levels, d, e);
    VerdictAgrees(env, schema, value, d, e);
  }

  lemma {:induction false} BelowAgrees(env: Env, schema: Value, value: Value, levels: nat, d: nat, e: nat)
    requires Fits(env, schema, value, levels) && d + levels <= MAX_DEPTH + 1 && e + levels <= MAX_DEPTH + 1
    ensures AgreeBelow(env, schema, value, d + 1, e + 1)
    decreases levels, 0
  {
    forall sub, part | Evaluates(env, schema, value, sub, part)
      ensures Accepts(env, sub, part, d + 1) == Accepts(env, sub, part, e + 1)
    {
      assert Fits(env, sub, part, levels - 1);
      DepthMakesNoChange(env, sub, part, levels - 1, d + 1, e + 1);
    }
  }

  lemma VerdictAgrees(env: Env, schema: Value, value: Value, d: nat, e: nat)
    requires d <= MAX_DEPTH && e <= MAX_DEPTH && AgreeBelow(env, schema, value, d + 1, e + 1)
    ensures Accepts(env, schema, value, d) == Accepts(env, schema, value, e)
  {
    if schema.Obj? {
      ShapeAgrees(env, schema, value, d + 1, e + 1);
      SameAgrees(env, schema, value, d + 1, e + 1);
    }
  }

  lemma SameAgrees(env: Env, schema: Value, value: Value, d: nat, e: nat)
    requires AgreeBelow(env, schema, value, d, e)
    ensures RefAccepts(env, schema, value, d) == RefAccepts(env, schema, value, e)
    ensures IfAccepts(env, schema, value, d) == IfAccepts(env, schema, value, e)
    ensures NotAccepts(env, schema, value, d) == NotAccepts(env, schema, value, e)
    ensures AllOfAccepts(env, schema, value, d) == AllOfAccepts(env, schema, value, e)
    ensures AnyOfAccepts(env, schema, value, d) == AnyOfAccepts(env, schema, value, e)
    ensures OneOfAccepts(env, schema, value, d) == OneOfAccepts(env, schema, value, e)
  {
    SinglesAgree(env, schema, value, d, e);
    BranchesAgree(env, schema, value, "allOf", d, e);
    BranchesAgree(env, schema, value, "anyOf", d, e);
    BranchesAgree(env, schema, value, "oneOf", d, e);
    OneOfAgrees(env, schema, value, d, e);
  }

  lemma SinglesAgree(env: Env, schema: Value, value: Value, d: nat, e: nat)
    requires AgreeBelow(env, schema, value, d, e)
    ensures RefAccepts(env, schema, value, d) == RefAccepts(env, schema, value, e)
    ensures IfAccepts(env, schema, value, d) == IfAccepts(env, schema, value, e)
    ensures NotAccepts(env, schema, value, d) == NotAccepts(env, schema, value, e)
  {
    var reference := GetText(schema, "$ref");
    if reference.Some? && env.resolve(reference.value).Some? {
      SubAgrees(env, schema, value, env.resolve(reference.value).value, d, e);
    }
    forall key | key in {"if", "then", "else", "not"} && Get(schema, key).Some?
      ensures Accepts(env, Get(schema, key).value, value, d) == Accepts(env, Get(schema, key).value, value, e)
    {
      SubAgrees(env, schema, value, Get(schema, key).value, d, e);
    }
  }

  lemma SubAgrees(env: Env, schema: Value, value: Value, sub: Value, d: nat, e: nat)
    requires AgreeBelow(env, schema, value, d, e) && EvaluatesSame(env, schema, sub)
    ensures Accepts(env, sub, value, d) == Accepts(env, sub, value, e)
  {
    assert Evaluates(env, schema, value, sub, value);
  }

  lemma BranchesAgree(env: Env, schema: Value, value: Value, key: string, d: nat, e: nat)
    requires key in {"allOf", "anyOf", "oneOf"} && AgreeBelow(env, schema, value, d, e)
    ensures GetItems(schema, key).Some? ==> forall i | 0 <= i < |GetItems(schema, key).value| ::
      Accepts(env, GetItems(schema, key).value[i], value, d) == Accepts(env, GetItems(schema, key).value[i], value, e)
  {
    var branches := GetItems(schema, key);
    if branches.Some? {
      forall i | 0 <= i < |branches.value|
        ensures Accepts(env, branches.value[i], value, d) == Accepts(env, branches.value[i], value, e)
      {
        assert branches.value[i] in branches.value;
        SubAgrees(env, schema, value, branches.value[i], d, e);
      }
    }
  }

  lemma OneOfAgrees(env: Env, schema: Value, value: Value, d: nat, e: nat)
    requires GetItems(schema, "oneOf").Some? ==> forall i | 0 <= i < |GetItems(schema, "oneOf").value| ::
      Accepts(env, GetItems(schema, "oneOf").value[i], value, d) == Accepts(env, GetItems(schema, "oneOf").value[i], value, e)
    ensures OneOfAccepts(env, schema, value, d) == OneOfAccepts(env, schema, value, e)
  {
  }

  lemma ShapeAgrees(env: Env, schema: Value, value: Value, d: nat, e: nat)
    requires AgreeBelow(env, schema, value, d, e)
    ensures ShapeAccepts(env, schema, value, d) == ShapeAccepts(env, schema, value, e)
  {
    if value.Obj? {
      MembersAgree(env, schema, value, d, e);
    } else if value.Arr? {
      ItemsAgree(env, schema, value, d, e);
    }
  }

  lemma ItemsAgree(env: Env, schema: Value, value: Value, d: nat, e: nat)
    requires value.Arr? && AgreeBelow(env, schema, value, d, e)
    ensures ArrayAccepts(env, schema, value.items, d) == ArrayAccepts(env, schema, value.items, e)
  {
    forall i, sub | 0 <= i < |value.items| && (Get(schema, "contains") == Some(sub) || ItemSchema(schema, i) == Some(sub))
      ensures Accepts(env, sub, value.items[i], d) == Accepts(env, sub, value.items[i], e)
    {
      assert Evaluates(env, schema, value, sub, value.items[i]);
    }
    assert ContainsAccepts(env, schema, value.items, d) == ContainsAccepts(env, schema, value.items, e);
    assert ItemsAccept(env, schema, value.items, d) == ItemsAccept(env, schema, value.items, e);
  }

  lemma MembersAgree(env: Env, schema: Value, value: Value, d: nat, e: nat)
    requires value.Obj? && AgreeBelow(env, schema, value, d, e)
    ensures ObjectAccepts(env, schema, value.members, d) == ObjectAccepts(env, schema, value.members, e)
  {
    var members := value.members;
    MemberEvaluations(env, schema, value, d, e);
    PatternsAgree(env, schema, value, d, e);
    var names := Get(schema, "propertyNames");
    if names.Some? {
      forall key | key in members
        ensures Accepts(env, names.value, Str(key), d) == Accepts(env, names.value, Str(key), e)
      {
        assert Evaluates(env, schema, value, names.value, Str(key));
      }
    }
    assert NamesAccept(env, schema, members, d) == NamesAccept(env, schema, members, e);
    assert forall sub | Get(schema, "additionalProperties") == Some(sub) :: EvaluatesMember(schema, sub);
    assert AdditionalAccepts(env, schema, members, d) == AdditionalAccepts(env, schema, members, e);
    var properties := GetMembers(schema, "properties");
    if properties.Some? {
      assert forall key | key in properties.value :: properties.value[key] in properties.value.Values;
    }
    assert PropertiesAccept(env, schema, members, d) == PropertiesAccept(env, schema, members, e);
  }

  lemma MemberEvaluations(env: Env, schema: Value, value: Value, d: nat, e: nat)
    requires value.Obj? && AgreeBelow(env, schema, value, d, e)
    ensures forall key, sub | key in value.members && EvaluatesMember(schema, sub) ::
      Accepts(env, sub, value.members[key], d) == Accepts(env, sub, value.members[key], e)
  {
    forall key, sub | key in value.members && EvaluatesMember(schema, sub)
      ensures Accepts(env, sub, value.members[key], d) == Accepts(env, sub, value.members[key], e)
    {
      assert Evaluates(env, schema, value, sub, value.members[key]);
    }
  }

  lemma PatternsAgree(env: Env, schema: Value, value: Value, d: nat, e: nat)
    requires value.Obj? && AgreeBelow(env, schema, value, d, e)
    ensures PatternsAccept(env, schema, value.members, d) == PatternsAccept(env, schema, value.members, e)
  {
    MemberEvaluations(env, schema, value, d, e);
    var patterns := GetMembers(schema, "patternProperties");
    if patterns.Some? {
      forall pattern | pattern in patterns.value
        ensures PatternAccepts(env, pattern, patterns.value[pattern], value.members, d)
             == PatternAccepts(env, pattern, patterns.value[pattern], value.members, e)
      {
        assert patterns.value[pattern] in patterns.value.Values;
        assert EvaluatesMember(schema, patterns.value[pattern]);
      }
    }
  }

  // ------------------------------------------------------------ fixed point

  /** Normalisation and coercion reach no value through a schema that checking
      does not apply to it: no `items` schema beside `prefixItems`, no coercing
      `additionalProperties` beside `patternProperties`, here and below. */
  ghost predicate Aligned(schema: Value)
    decreases schema
  {
    && AlignedItems(schema)
    && AlignedMembers(schema)
    && (GetItems(schema, "allOf").Some? ==> forall i | 0 <= i < |GetItems(schema, "allOf").value| :: Aligned(GetItems(schema, "allOf").value[i]))
    && (forall key | key in PropertiesOf(schema) :: Aligned(PropertiesOf(schema)[key]))
    && (CoercingAdditional(schema).Some? ==> Aligned(CoercingAdditional(schema).value))
    && (forall i: nat | CoercedItemSchema(schema, i).Some? :: Aligned(CoercedItemSchema(schema, i).value))
  }

  predicate AlignedItems(schema: Value) {
    GetItems(schema, "items").None? && Get(schema, "items").Some? && GetItems(schema, "prefixItems").Some?
    ==> GetItems(schema, "prefixItems").value == []
  }

  predicate AlignedMembers(schema: Value) {
    CoercingAdditional(schema).Some? && GetMembers(schema, "patternProperties").Some?
    ==> GetMembers(schema, "patternProperties").value == map[]
  }

  /** `sub` accepts `part` one level down, and evaluating it still fits. */
  ghost predicate Passes(env: Env, sub: Value, part: Value, levels: nat, depth: nat) {
    && levels > 0
    && Accepts(env, sub, part, depth + 1)
    && Fits(env, sub, part, levels - 1)
  }

  lemma ItemPasses(env: Env, schema: Value, value: Value, i: nat, levels: nat, depth: nat)
    requires schema.Obj? && value.Arr? && i < |value.items| && AlignedItems(schema)
    requires Accepts(env, schema, value, depth) && Fits(env, schema, value, levels)
    requires CoercedItemSchema(schema, i).Some?
    ensures Passes(env, CoercedItemSchema(schema, i).value, value.items[i], levels, depth)
  {
    var sub := CoercedItemSchema(schema, i).value;
    assert ItemSchema(schema, i) == Some(sub);
    assert ShapeAccepts(env, schema, value, depth + 1);
    assert ArrayAccepts(env, schema, value.items, depth + 1);
    assert ItemsAccept(env, schema, value.items, depth + 1);
    assert Evaluates(env, schema, value, sub, value.items[i]);
  }

  lemma PropertyPasses(env: Env, schema: Value, value: Value, key: string, levels: nat, depth: nat)
    requires schema.Obj? && value.Obj? && key in value.members && key in PropertiesOf(schema)
    requires Accepts(env, schema, value, depth) && Fits(env, schema, value, levels)
    ensures Passes(env, PropertiesOf(schema)[key], value.members[key], levels, depth)
  {
    assert ShapeAccepts(env, schema, value, depth + 1);
    assert ObjectAccepts(env, schema, value.members, depth + 1);
    assert PropertiesAccept(env, schema, value.members, depth + 1);
    assert PropertiesOf(schema)[key] in PropertiesOf(schema).Values;
    assert Evaluates(env, schema, value, PropertiesOf(schema)[key], value.members[key]);
  }

  lemma AdditionalPasses(env: Env, schema: Value, value: Value, key: string, levels: nat, depth: nat)
    requires schema.Obj? && value.Obj? && key in value.members && key !in PropertiesOf(schema)
    requires CoercingAdditional(schema).Some? && AlignedMembers(schema)
    requires Accepts(env, schema, value, depth) && Fits(env, schema, value, levels)
    ensures Passes(env, CoercingAdditional(schema).value, value.members[key], levels, depth)
  {
    assert !IsDeclaredKey(env, schema, key);
    assert ShapeAccepts(env, schema, value, depth + 1);
    assert ObjectAccepts(env, schema, value.members, depth + 1);
    assert AdditionalAccepts(env, schema, value.members, depth + 1);
    assert Evaluates(env, schema, value, CoercingAdditional(schema).value, value.members[key]);
  }

  lemma AllOfPasses(env: Env, schema: Value, value: Value, i: nat, levels: nat, depth: nat)
    requires schema.Obj? && GetItems(schema, "allOf").Some? && i < |GetItems(schema, "allOf").value|
    requires Accepts(env, schema, value, depth) && Fits(env, schema, value, levels)
    ensures Passes(env, GetItems(schema, "allOf").value[i], value, levels, depth)
  {
    assert AllOfAccepts(env, schema, value, depth + 1);
    assert GetItems(schema, "allOf").value[i] in GetItems(schema, "allOf").value;
    assert Evaluates(env, schema, value, GetItems(schema, "allOf").value[i], value);
  }

  /** Some union member accepts the value, at depth 0 too. */
  lemma UnionMatches(env: Env, schema: Value, value: Value, key: string, levels: nat, depth: nat)
    requires schema.Obj? && key in {"anyOf", "oneOf"} && GetItems(schema, key).Some?
    requires Accepts(env, schema, value, depth) && Fits(env, schema, value, levels) && depth + levels <= MAX_DEPTH + 1
    ensures AnyMatches(env, GetItems(schema, key).value, value)
  {
    var branches := GetItems(schema, key).value;
    var i := MatchingMember(env, schema, value, key, depth);
    BranchEvaluated(env, schema, key, i);
    SameFits(env, schema, value, branches[i], levels);
    DepthMakesNoChange(env, branches[i], value, levels - 1, depth + 1, 0);
  }

  lemma BranchEvaluated(env: Env, schema: Value, key: string, i: nat)
    requires key in {"anyOf", "oneOf"} && GetItems(schema, key).Some? && i < |GetItems(schema, key).value|
    ensures EvaluatesSame(env, schema, GetItems(schema, key).value[i])
  {
  }

  lemma SameFits(env: Env, schema: Value, value: Value, sub: Value, levels: nat)
    requires EvaluatesSame(env, schema, sub) && Fits(env, schema, value, levels)
    ensures levels > 0 && Fits(env, sub, value, levels - 1)
  {
    assert Evaluates(env, schema, value, sub, value);
  }

  lemma MatchingMember(env: Env, schema: Value, value: Value, key: string, depth: nat) returns (i: nat)
    requires schema.Obj? && key in {"anyOf", "oneOf"} && GetItems(schema, key).Some? && Accepts(env, schema, value, depth)
    ensures i < |GetItems(schema, key).value| && Accepts(env, GetItems(schema, key).value[i], value, depth + 1)
  {
    var branches := GetItems(schema, key).value;
    if key == "anyOf" {
      assert AnyOfAccepts(env, schema, value, depth + 1);
      i :| 0 <= i < |branches| && Accepts(env, branches[i], value, depth + 1);
    } else {
      assert OneOfAccepts(env, schema, value, depth + 1);
      i :| 0 <= i < |branches| && Accepts(env, branches[i], value, depth + 1);
    }
  }

  lemma {:induction false} CoercionLeavesAccepted(env: Env, value: Value, schema: Value, levels: nat, depth: nat)
    requires Accepts(env, schema, value, depth) && Fits(env, schema, value, levels) && depth + levels <= MAX_DEPTH + 1
    requires Aligned(schema)
    ensures Coerced(env, value, schema) == value
    decreases schema, 2
  {
    if schema.Obj? {
      BranchesLeaveAccepted(env, value, schema, levels, depth);
      TypedUnchanged(env, value, schema);
      if "object" in SchemaTypes(schema) && value.Obj? {
        MembersLeftAlone(env, value, schema, levels, depth);
      }
      if "array" in SchemaTypes(schema) && value.Arr? {
        ItemsLeftAlone(env, value, schema, levels, depth);
      }
    } else {
      assert SchemaTypes(schema) == [];
    }
  }

  lemma {:induction false} BranchesLeaveAccepted(env: Env, value: Value, schema: Value, levels: nat, depth: nat)
    requires schema.Obj? && Accepts(env, schema, value, depth) && Fits(env, schema, value, levels) && depth + levels <= MAX_DEPTH + 1
    requires Aligned(schema)
    ensures GetItems(schema, "allOf").Some? ==> CoercedThrough(env, value, schema, GetItems(schema, "allOf").value) == value
    ensures GetItems(schema, "anyOf").Some? ==> CoercedUnion(env, value, schema, GetItems(schema, "anyOf").value) == value
    ensures GetItems(schema, "oneOf").Some? ==> CoercedUnion(env, value, schema, GetItems(schema, "oneOf").value) == value
    decreases schema, 0
  {
    var allOf := GetItems(schema, "allOf");
    if allOf.Some? {
      forall i | 0 <= i < |allOf.value| ensures Coerced(env, value, allOf.value[i]) == value {
        AllOfPasses(env, schema, value, i, levels, depth);
        CoercionLeavesAccepted(env, value, allOf.value[i], levels - 1, depth + 1);
      }
      ThroughUnchanged(env, value, schema, allOf.value);
    }
    if GetItems(schema, "anyOf").Some? { UnionMatches(env, schema, value, "anyOf", levels, depth); }
    if GetItems(schema, "oneOf").Some? { UnionMatches(env, schema, value, "oneOf", levels, depth); }
  }

  lemma {:induction false} ThroughUnchanged(env: Env, value: Value, schema: Value, branches: seq<Value>)
    requires forall i | 0 <= i < |branches| :: branches[i] < schema
    requires forall i | 0 <= i < |branches| :: Coerced(env, value, branches[i]) == value
    ensures CoercedThrough(env, value, schema, branches) == value
    decreases |branches|
  {
    if branches != [] { ThroughUnchanged(env, value, schema, branches[1..]); }
  }

  lemma {:induction false} MembersLeftAlone(env: Env, value: Value, schema: Value, levels: nat, depth: nat)
    requires value.Obj? && schema.Obj? && Accepts(env, schema, value, depth) && Fits(env, schema, value, levels) && depth + levels <= MAX_DEPTH + 1
    requires Aligned(schema)
    ensures CoercedMembers(env, value.members, schema) == value.members
    decreases schema, 1
  {
    forall key | key in value.members ensures CoercedMember(env, value.members[key], schema, key) == value.members[key] {
      MemberLeftAlone(env, value, schema, key, levels, depth);
    }
  }

  lemma {:induction false} MemberLeftAlone(env: Env, value: Value, schema: Value, key: string, levels: nat, depth: nat)
    requires value.Obj? && schema.Obj? && Accepts(env, schema, value, depth) && Fits(env, schema, value, levels) && depth + levels <= MAX_DEPTH + 1
    requires Aligned(schema) && key in value.members
    ensures CoercedMember(env, value.members[key], schema, key) == value.members[key]
    decreases schema, 0
  {
    var member := value.members[key];
    var properties, additional := PropertiesOf(schema), CoercingAdditional(schema);
    if key in properties {
      PropertyPasses(env, schema, value, key, levels, depth);
      CoercionLeavesAccepted(env, member, properties[key], levels - 1, depth + 1);
    } else if additional.Some? {
      AdditionalPasses(env, schema, value, key, levels, depth);
      CoercionLeavesAccepted(env, member, additional.value, levels - 1, depth + 1);
    }
  }

  lemma {:induction false} ItemsLeftAlone(env: Env, value: Value, schema: Value, levels: nat, depth: nat)
    requires value.Arr? && schema.Obj? && Accepts(env, schema, value, depth) && Fits(env, schema, value, levels) && depth + levels <= MAX_DEPTH + 1
    requires Aligned(schema)
    ensures CoercedItems(env, value.items, schema) == value.items
    decreases schema, 0
  {
    forall i | 0 <= i < |value.items| ensures CoercedItem(env, value.items[i], schema, i) == value.items[i] {
      var itemSchema := CoercedItemSchema(schema, i);
      if itemSchema.Some? {
        ItemPasses(env, schema, value, i, levels, depth);
        CoercionLeavesAccepted(env, value.items[i], itemSchema.value, levels - 1, depth + 1);
      }
    }
  }

  lemma NothingToNormalise(env: Env, value: Value, schema: Value)
    requires !schema.Obj?
    ensures Normalized(env, value, schema) == value
  {
    assert PropertiesOf(schema) == map[];
    if value.Arr? { assert Normalized(env, value, schema).items == value.items; }
    if value.Obj? { assert Normalized(env, value, schema).members == value.members; }
  }

  lemma {:induction false} NormalisationLeavesAccepted(env: Env, value: Value, schema: Value, levels: nat, depth: nat)
    requires Accepts(env, schema, value, depth) && Fits(env, schema, value, levels) && depth + levels <= MAX_DEPTH + 1
    requires Aligned(schema)
    ensures Normalized(env, value, schema) == value
    decreases value, 2
  {
    if !schema.Obj? {
      NothingToNormalise(env, value, schema);
    } else if value.Arr? {
      ItemsNormal(env, value, schema, levels, depth);
    } else if value.Obj? {
      MembersNormal(env, value, schema, levels, depth);
    }
  }

  lemma {:induction false} ItemsNormal(env: Env, value: Value, schema: Value, levels: nat, depth: nat)
    requires schema.Obj? && value.Arr? && Accepts(env, schema, value, depth) && Fits(env, schema, value, levels) && depth + levels <= MAX_DEPTH + 1
    requires Aligned(schema)
    ensures Normalized(env, value, schema) == value
    decreases value, 0
  {
    var normal := Normalized(env, value, schema).items;
    forall i | 0 <= i < |value.items| ensures normal[i] == value.items[i] {
      var itemSchema := CoercedItemSchema(schema, i);
      if itemSchema.Some? {
        ItemPasses(env, schema, value, i, levels, depth);
        NormalisationLeavesAccepted(env, value.items[i], itemSchema.value, levels - 1, depth + 1);
      }
    }
    assert normal == value.items;
  }

  lemma {:induction false} MembersNormal(env: Env, value: Value, schema: Value, levels: nat, depth: nat)
    requires schema.Obj? && value.Obj? && Accepts(env, schema, value, depth) && Fits(env, schema, value, levels) && depth + levels <= MAX_DEPTH + 1
    requires Aligned(schema)
    ensures Normalized(env, value, schema) == value
    decreases value, 1
  {
    var properties := PropertiesOf(schema);
    forall key | key in value.members && key in properties
      ensures !Drops(env, schema, key, properties[key], value.members[key])
      ensures Normalized(env, value.members[key], properties[key]) == value.members[key]
    {
      MemberNormal(env, value, schema, key, levels, depth);
    }
    assert Normalized(env, value, schema).members == value.members;
  }

  lemma {:induction false} MemberNormal(env: Env, value: Value, schema: Value, key: string, levels: nat, depth: nat)
    requires schema.Obj? && value.Obj? && Accepts(env, schema, value, depth) && Fits(env, schema, value, levels) && depth + levels <= MAX_DEPTH + 1
    requires Aligned(schema) && key in value.members && key in PropertiesOf(schema)
    ensures !Drops(env, schema, key, PropertiesOf(schema)[key], value.members[key])
    ensures Normalized(env, value.members[key], PropertiesOf(schema)[key]) == value.members[key]
    decreases value, 0
  {
    var property, member := PropertiesOf(schema)[key], value.members[key];
    PropertyPasses(env, schema, value, key, levels, depth);
    assert Aligned(property);
    DepthMakesNoChange(env, property, member, levels - 1, depth + 1, 0);
    NormalisationLeavesAccepted(env, member, property, levels - 1, depth + 1);
  }

  /** Dropping nulls a second time drops nothing more. */
  lemma {:induction false} NormalisationIdempotent(env: Env, value: Value, schema: Value)
    ensures Normalized(env, Normalized(env, value, schema), schema) == Normalized(env, value, schema)
    decreases value
  {
    var once := Normalized(env, value, schema);
    if value.Arr? {
      forall i | 0 <= i < |value.items| && CoercedItemSchema(schema, i).Some?
        ensures Normalized(env, once.items[i], CoercedItemSchema(schema, i).value) == once.items[i]
      {
        NormalisationIdempotent(env, value.items[i], CoercedItemSchema(schema, i).value);
      }
      assert Normalized(env, once, schema).items == once.items;
    } else if value.Obj? {
      var properties := PropertiesOf(schema);
      forall key | key in once.members && key in properties
        ensures Normalized(env, once.members[key], properties[key]) == once.members[key]
        ensures once.members[key].Null? <==> value.members[key].Null?
      {
        NormalisationIdempotent(env, value.members[key], properties[key]);
      }
      assert Normalized(env, once, schema).members == once.members;
    }
  }

  // --------------------------------------------------- what a caller checks

  const SINGLE_KEYWORDS := {"if", "then", "else", "not", "additionalProperties", "propertyNames", "contains", "items", "additionalItems"}
  const LIST_KEYWORDS := {"allOf", "anyOf", "oneOf", "prefixItems", "items"}
  const MEMBER_KEYWORDS := {"properties", "patternProperties"}

  /** The schemas one step below `schema`: its sub-schemas and, when it has a
      reference, the reference's target. */
  function Parts(env: Env, schema: Value): set<Value> {
    SingleParts(schema) + ListParts(schema) + MemberParts(schema) + ReferenceParts(env, schema)
  }

  function SingleParts(schema: Value): set<Value> {
    set key | key in SINGLE_KEYWORDS && Get(schema, key).Some? :: Get(schema, key).value
  }

  function ListParts(schema: Value): set<Value> {
    set key, i | key in LIST_KEYWORDS && GetItems(schema, key).Some? && 0 <= i < |GetItems(schema, key).value| ::
      GetItems(schema, key).value[i]
  }

  function MemberParts(schema: Value): set<Value> {
    set key, name | key in MEMBER_KEYWORDS && GetMembers(schema, key).Some? && name in GetMembers(schema, key).value ::
      GetMembers(schema, key).value[name]
  }

  function ReferenceParts(env: Env, schema: Value): set<Value> {
    var reference := GetText(schema, "$ref");
    if reference.Some? && env.resolve(reference.value).Some? then {env.resolve(reference.value).value} else {}
  }

  /** No path down from `schema` is longer than `n`, reference hops included.
      Without references that is how deep the schema is nested; with a cycle of
      them no `n` is enough. */
  predicate NestedWithin(env: Env, schema: Value, n: nat)
    decreases n
  {
    forall sub | sub in Parts(env, schema) :: n > 0 && NestedWithin(env, sub, n - 1)
  }

  /** Only parts of a schema are ever evaluated for it. */
  lemma EvaluatedIsPart(env: Env, schema: Value, value: Value, sub: Value, part: Value)
    requires Evaluates(env, schema, value, sub, part)
    ensures sub in Parts(env, schema)
  {
    if i: nat :| ItemSchema(schema, i) == Some(sub) {
      ItemSchemaIsPart(env, schema, i);
    } else if EvaluatesSame(env, schema, sub) {
      SameIsPart(env, schema, sub);
    } else if EvaluatesMember(schema, sub) {
      MemberIsPart(env, schema, sub);
    } else {
      assert Get(schema, "propertyNames") == Some(sub) || Get(schema, "contains") == Some(sub);
    }
  }

  lemma SameIsPart(env: Env, schema: Value, sub: Value)
    requires EvaluatesSame(env, schema, sub)
    ensures sub in Parts(env, schema)
  {
  }

  lemma MemberIsPart(env: Env, schema: Value, sub: Value)
    requires EvaluatesMember(schema, sub)
    ensures sub in Parts(env, schema)
  {
  }

  lemma ItemSchemaIsPart(env: Env, schema: Value, i: nat)
    requires ItemSchema(schema, i).Some?
    ensures ItemSchema(schema, i).value in Parts(env, schema)
  {
    var sub := ItemSchema(schema, i).value;
    if GetItems(schema, "items").Some? {
      assert (i < |GetItems(schema, "items").value| && GetItems(schema, "items").value[i] == sub) || Get(schema, "additionalItems") == Some(sub);
    } else {
      assert (GetItems(schema, "prefixItems").Some? && i < |GetItems(schema, "prefixItems").value| && GetItems(schema, "prefixItems").value[i] == sub)
        || Get(schema, "items") == Some(sub);
    }
  }

  /** A schema nested within `n` is evaluated within `n + 1` levels, whatever
      the value. */
  lemma {:induction false} NestedFits(env: Env, schema: Value, value: Value, n: nat)
    requires NestedWithin(env, schema, n)
    ensures Fits(env, schema, value, n + 1)
    decreases n
  {
    forall sub, part | Evaluates(env, schema, value, sub, part) ensures Fits(env, sub, part, n) {
      EvaluatedIsPart(env, schema, value, sub, part);
      NestedFits(env, sub, part, n - 1);
    }
  }

  /** Valid arguments pass through validation untouched. */
  lemma FittingPassThrough(env: Env, parameters: Value, arguments: Value)
    requires Aligned(parameters) && Fits(env, parameters, arguments, MAX_DEPTH + 1)
    requires Accepts(env, parameters, arguments, 0)
    ensures Validated(env, parameters, arguments) == Some(arguments)
  {
    NormalisationLeavesAccepted(env, arguments, parameters, MAX_DEPTH + 1, 0);
    CoercionLeavesAccepted(env, arguments, parameters, MAX_DEPTH + 1, 0);
  }

  /** The same under a condition on the schema alone. */
  lemma AcceptedPassThrough(env: Env, parameters: Value, arguments: Value)
    requires Aligned(parameters) && NestedWithin(env, parameters, MAX_DEPTH)
    requires Accepts(env, parameters, arguments, 0)
    ensures Validated(env, parameters, arguments) == Some(arguments)
  {
    NestedFits(env, parameters, arguments, MAX_DEPTH);
    FittingPassThrough(env, parameters, arguments);
  }

  /** Accepted arguments are a fixed point: validating them again accepts them
      unchanged. */
  lemma FittingIsFixedPoint(env: Env, parameters: Value, arguments: Value, accepted: Value)
    requires Aligned(parameters) && Validated(env, parameters, arguments) == Some(accepted)
    requires Accepts(env, parameters, accepted, 0) ==> Fits(env, parameters, accepted, MAX_DEPTH + 1)
    ensures Validated(env, parameters, accepted) == Some(accepted)
  {
    if Accepts(env, parameters, accepted, 0) {
      FittingPassThrough(env, parameters, accepted);
    } else {
      NormalisationIdempotent(env, arguments, parameters);
    }
  }

  /** The same under a condition on the schema alone. */
  lemma AcceptedIsFixedPoint(env: Env, parameters: Value, arguments: Value, accepted: Value)
    requires Aligned(parameters) && NestedWithin(env, parameters, MAX_DEPTH)
    requires Validated(env, parameters, arguments) == Some(accepted)
    ensures Validated(env, parameters, accepted) == Some(accepted)
  {
    NestedFits(env, parameters, accepted, MAX_DEPTH);
    FittingIsFixedPoint(env, parameters, arguments, accepted);
  }
}
