/** What it means for a value to match a schema: the reference the two
    evaluators, the coercer and the step budget are measured against. */
module Schema {
  import opened Wrappers
  import opened JsNumbers
  import opened Json

  /** How many levels down an evaluation may go; a reference is a level. */
  const MAX_DEPTH: nat := 256

  /** What evaluation takes from outside: where a `$ref` leads, whether a
      pattern matches (`None` when it does not compile), whether one double is a
      multiple of another within the tolerance, and how JavaScript reads a text
      as a number. Nothing below depends on which functions these are. */
  datatype Env = Env(
    resolve: string -> Option<Value>,
    matches: (string, string) -> Option<bool>,
    isMultiple: (Double, Double) -> bool,
    isBlank: string -> bool,
    parseNumber: string -> Option<Double>
  )

  // -------------------------------------------------------------- keywords

  function TextsOf(items: seq<Value>): (texts: seq<string>)
    ensures forall t :: t in texts <==> Str(t) in items
  {
    if items == [] then []
    else (if items[0].Str? then [items[0].text] else []) + TextsOf(items[1..])
  }

  /** The names `type` allows; none when it is absent. */
  function SchemaTypes(schema: Value): seq<string> {
    match Get(schema, "type")
    case Some(Str(kind)) => [kind]
    case Some(Arr(kinds)) => TextsOf(kinds)
    case _ => []
  }

  predicate IsIntegral(d: Double) {
    d.Zero? || (d.Finite? && d.exponent + 1 >= |d.digits|)
  }

  predicate MatchesType(value: Value, kind: string) {
    match kind
    case "number" => value.Num?
    case "integer" => value.Num? && (value.number.Int? || IsIntegral(value.number.asF64))
    case "boolean" => value.Bool?
    case "string" => value.Str?
    case "null" => value.Null?
    case "array" => value.Arr?
    case "object" => value.Obj?
    case _ => false
  }

  predicate TypeHolds(schema: Value, value: Value) {
    var kinds := SchemaTypes(schema);
    kinds == [] || exists kind | kind in kinds :: MatchesType(value, kind)
  }

  /** A limit counts only when it is stored as a non-negative integer. */
  function AsCount(schema: Value, key: string): Option<nat> {
    match Get(schema, key)
    case Some(Num(Int(i, _))) => if i >= 0 then Some(i) else None
    case _ => None
  }

  predicate AtMost(count: nat, limit: Option<nat>) { limit.Some? ==> count <= limit.value }

  predicate AtLeast(count: nat, limit: Option<nat>) { limit.Some? ==> count >= limit.value }

  function PowerOfTen(e: int): real
    decreases if e < 0 then -e else e
  {
    if e == 0 then 1.0 else if e > 0 then 10.0 * PowerOfTen(e - 1) else PowerOfTen(e + 1) / 10.0
  }

  function RealValue(d: FiniteDouble): real {
    match d
    case Zero(_) => 0.0
    case Finite(neg, digits, exponent) =>
      var magnitude := DecimalValue(digits) as real * PowerOfTen(exponent + 1 - |digits|);
      if neg then 0.0 - magnitude else magnitude
  }

  const BOUNDS := ["exclusiveMaximum", "exclusiveMinimum", "maximum", "minimum"]

  /** A numeric bound keyword. */
  predicate BoundHolds(schema: Value, keyword: string, value: FiniteDouble) {
    match Get(schema, keyword)
    case Some(Num(limit)) =>
      var v, l := RealValue(value), RealValue(limit.asF64);
      if keyword == "exclusiveMaximum" then v < l
      else if keyword == "exclusiveMinimum" then v > l
      else if keyword == "maximum" then v <= l
      else v >= l
    case _ => true
  }

  predicate MultipleHolds(env: Env, schema: Value, value: Double) {
    match Get(schema, "multipleOf")
    case Some(Num(step)) => (step.asF64.Finite? && !step.asF64.neg) ==> env.isMultiple(value, step.asF64)
    case _ => true
  }

  predicate NumberHolds(env: Env, schema: Value, number: Number) {
    && (forall i | 0 <= i < |BOUNDS| :: BoundHolds(schema, BOUNDS[i], number.asF64))
    && MultipleHolds(env, schema, number.asF64)
  }

  /** Length in UTF-16 units, as JavaScript counts. */
  function Utf16Length(text: string): nat {
    if text == "" then 0 else (if text[0] as int >= 0x1_0000 then 2 else 1) + Utf16Length(text[1..])
  }

  predicate PatternHolds(env: Env, schema: Value, text: string) {
    var pattern := GetText(schema, "pattern");
    pattern.Some? ==> env.matches(pattern.value, text) != Some(false)
  }

  predicate TextHolds(env: Env, schema: Value, text: string) {
    && AtMost(Utf16Length(text), AsCount(schema, "maxLength"))
    && AtLeast(Utf16Length(text), AsCount(schema, "minLength"))
    && PatternHolds(env, schema, text)
  }

  predicate PropertyCountHolds(schema: Value, count: nat) {
    AtLeast(count, AsCount(schema, "minProperties")) && AtMost(count, AsCount(schema, "maxProperties"))
  }

  ghost predicate HasEqualPair(items: seq<Value>) {
    exists i, j | 0 <= i < j < |items| :: JsonEqual(items[i], items[j])
  }

  /** `uniqueItems`, section 6.4.3 of JSON Schema Validation 2020-12. */
  ghost predicate ItemCountHolds(schema: Value, items: seq<Value>) {
    && AtMost(|items|, AsCount(schema, "maxItems"))
    && AtLeast(|items|, AsCount(schema, "minItems"))
    && (Get(schema, "uniqueItems") == Some(Bool(true)) ==> !HasEqualPair(items))
  }

  /** Whether `additionalProperties` leaves `key` alone. */
  predicate IsDeclaredKey(env: Env, schema: Value, key: string) {
    || (GetMembers(schema, "properties").Some? && key in GetMembers(schema, "properties").value)
    || (GetMembers(schema, "patternProperties").Some?
        && exists pattern | pattern in GetMembers(schema, "patternProperties").value :: env.matches(pattern, key) == Some(true))
  }

  /** The schemas by position, and the one for the items after them. */
  function ArrayItemSchemas(schema: Value): (seq<Value>, Option<Value>) {
    match (Get(schema, "prefixItems"), Get(schema, "items"))
    case (_, Some(Arr(tuple))) => (tuple, Get(schema, "additionalItems"))
    case (Some(Arr(prefix)), rest) => (prefix, rest)
    case (_, rest) => ([], rest)
  }

  function ItemSchema(schema: Value, index: nat): Option<Value> {
    var (prefix, rest) := ArrayItemSchemas(schema);
    if index < |prefix| then Some(prefix[index]) else rest
  }

  predicate RequiredHolds(schema: Value, members: map<string, Value>) {
    var required := GetItems(schema, "required");
    required.Some? ==> forall key | key in TextsOf(required.value) :: key in members
  }

  predicate ConstHolds(schema: Value, value: Value) {
    var constant := Get(schema, "const");
    constant.Some? ==> JsonEqual(constant.value, value)
  }

  predicate EnumHolds(schema: Value, value: Value) {
    var allowed := GetItems(schema, "enum");
    allowed.Some? ==> exists i | 0 <= i < |allowed.value| :: JsonEqual(allowed.value[i], value)
  }

  // ------------------------------------------------------------- reference

  /** Levels left at `depth`; the measure every evaluation decreases. */
  function Left(depth: nat): nat { if depth > MAX_DEPTH then 0 else MAX_DEPTH + 1 - depth }

  /** Whether `value` matches `schema`, evaluated `depth` levels down. */
  ghost predicate Accepts(env: Env, schema: Value, value: Value, depth: nat)
    decreases Left(depth), 0
  {
    && depth <= MAX_DEPTH
    && match schema
       case Bool(accept) => accept
       case Obj(_) =>
         && TypeHolds(schema, value)
         && ShapeAccepts(env, schema, value, depth + 1)
         && RefAccepts(env, schema, value, depth + 1)
         && ConstHolds(schema, value)
         && EnumHolds(schema, value)
         && IfAccepts(env, schema, value, depth + 1)
         && NotAccepts(env, schema, value, depth + 1)
         && AllOfAccepts(env, schema, value, depth + 1)
         && AnyOfAccepts(env, schema, value, depth + 1)
         && OneOfAccepts(env, schema, value, depth + 1)
       case _ => true
  }

  /** The keywords of the value's own kind. */
  ghost predicate ShapeAccepts(env: Env, schema: Value, value: Value, depth: nat)
    decreases Left(depth), 4
  {
    match value
    case Obj(members) => ObjectAccepts(env, schema, members, depth)
    case Arr(items) => ArrayAccepts(env, schema, items, depth)
    case Str(text) => TextHolds(env, schema, text)
    case Num(number) => NumberHolds(env, schema, number)
    case _ => true
  }

  ghost predicate ObjectAccepts(env: Env, schema: Value, members: map<string, Value>, depth: nat)
    decreases Left(depth), 3
  {
    && RequiredHolds(schema, members)
    && AdditionalAccepts(env, schema, members, depth)
    && PatternsAccept(env, schema, members, depth)
    && PropertiesAccept(env, schema, members, depth)
    && NamesAccept(env, schema, members, depth)
    && PropertyCountHolds(schema, |members|)
  }

  ghost predicate AdditionalAccepts(env: Env, schema: Value, members: map<string, Value>, depth: nat)
    decreases Left(depth), 2
  {
    var additional := Get(schema, "additionalProperties");
    additional.Some? ==> forall key | key in members && !IsDeclaredKey(env, schema, key) ::
      Accepts(env, additional.value, members[key], depth)
  }

  ghost predicate PatternsAccept(env: Env, schema: Value, members: map<string, Value>, depth: nat)
    decreases Left(depth), 2
  {
    var patterns := GetMembers(schema, "patternProperties");
    patterns.Some? ==> forall pattern | pattern in patterns.value ::
      PatternAccepts(env, pattern, patterns.value[pattern], members, depth)
  }

  ghost predicate PatternAccepts(env: Env, pattern: string, nested: Value, members: map<string, Value>, depth: nat)
    decreases Left(depth), 1
  {
    forall key | key in members && env.matches(pattern, key) == Some(true) :: Accepts(env, nested, members[key], depth)
  }

  ghost predicate PropertiesAccept(env: Env, schema: Value, members: map<string, Value>, depth: nat)
    decreases Left(depth), 2
  {
    var properties := GetMembers(schema, "properties");
    properties.Some? ==> forall key | key in properties.value && key in members ::
      Accepts(env, properties.value[key], members[key], depth)
  }

  ghost predicate NamesAccept(env: Env, schema: Value, members: map<string, Value>, depth: nat)
    decreases Left(depth), 2
  {
    var names := Get(schema, "propertyNames");
    names.Some? ==> forall key | key in members :: Accepts(env, names.value, Str(key), depth)
  }

  ghost predicate ArrayAccepts(env: Env, schema: Value, items: seq<Value>, depth: nat)
    decreases Left(depth), 3
  {
    && ContainsAccepts(env, schema, items, depth)
    && ItemsAccept(env, schema, items, depth)
    && ItemCountHolds(schema, items)
  }

  ghost predicate ContainsAccepts(env: Env, schema: Value, items: seq<Value>, depth: nat)
    decreases Left(depth), 2
  {
    var contains := Get(schema, "contains");
    contains.Some? ==> exists i | 0 <= i < |items| :: Accepts(env, contains.value, items[i], depth)
  }

  ghost predicate ItemsAccept(env: Env, schema: Value, items: seq<Value>, depth: nat)
    decreases Left(depth), 2
  {
    forall i | 0 <= i < |items| && ItemSchema(schema, i).Some? ::
      Accepts(env, ItemSchema(schema, i).value, items[i], depth)
  }

  ghost predicate RefAccepts(env: Env, schema: Value, value: Value, depth: nat)
    decreases Left(depth), 2
  {
    var reference := GetText(schema, "$ref");
    reference.Some? ==>
      var target := env.resolve(reference.value);
      target.Some? && Accepts(env, target.value, value, depth)
  }

  ghost predicate IfAccepts(env: Env, schema: Value, value: Value, depth: nat)
    decreases Left(depth), 2
  {
    var condition := Get(schema, "if");
    condition.Some? ==>
      var branch := Get(schema, if Accepts(env, condition.value, value, depth) then "then" else "else");
      branch.Some? ==> Accepts(env, branch.value, value, depth)
  }

  ghost predicate NotAccepts(env: Env, schema: Value, value: Value, depth: nat)
    decreases Left(depth), 2
  {
    var negated := Get(schema, "not");
    negated.Some? ==> !Accepts(env, negated.value, value, depth)
  }

  ghost predicate AllOfAccepts(env: Env, schema: Value, value: Value, depth: nat)
    decreases Left(depth), 2
  {
    var branches := GetItems(schema, "allOf");
    branches.Some? ==> forall i | 0 <= i < |branches.value| :: Accepts(env, branches.value[i], value, depth)
  }

  ghost predicate AnyOfAccepts(env: Env, schema: Value, value: Value, depth: nat)
    decreases Left(depth), 2
  {
    var branches := GetItems(schema, "anyOf");
    branches.Some? ==> exists i | 0 <= i < |branches.value| :: Accepts(env, branches.value[i], value, depth)
  }

  /** Exactly one branch matches. */
  ghost predicate OneOfAccepts(env: Env, schema: Value, value: Value, depth: nat)
    decreases Left(depth), 2
  {
    var branches := GetItems(schema, "oneOf");
    branches.Some? ==> exists i | 0 <= i < |branches.value| ::
      && Accepts(env, branches.value[i], value, depth)
      && forall j | 0 <= j < |branches.value| && j != i :: !Accepts(env, branches.value[j], value, depth)
  }
}
