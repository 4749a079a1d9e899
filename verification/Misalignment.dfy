/** Why the fixed point needs its conditions: three schemas, one for each
    condition, under which validation changes arguments it has accepted. All
    three send `""` to `null` and `null` to `"false"` and accept both. */
module Misalignment {
  import opened Wrappers
  import opened JsNumbers
  import opened Json
  import opened Schema
  import opened Coercion

  /** Validation accepts `{"x": first}` as `{"x": second}`, which it then accepts
      as `{"x": third}`, something else again. */
  ghost predicate KeepsChanging(env: Env, parameters: Value, first: Value, second: Value, third: Value) {
    && second != third
    && Validated(env, parameters, Member(first)) == Some(Member(second))
    && Validated(env, parameters, Member(second)) == Some(Member(third))
  }

  const EMPTY := Str("")
  const FALSE_TEXT := Str("false")

  predicate IsSimple(value: Value) { value.Str? || value.Null? || value.Bool? }

  function Member(value: Value): Value { Obj(map["x" := value]) }

  function Typed(kind: string): Value { Obj(map["type" := Str(kind)]) }

  function AllOf(branches: seq<Value>): Value { Obj(map["allOf" := Arr(branches)]) }

  function AnyOf(branches: seq<Value>): Value { Obj(map["anyOf" := Arr(branches)]) }

  // ------------------------------------------------------ coercion that turns

  /** Coercing by `schema` turns `""` into `null` and `null` into `"false"`. */
  ghost predicate Turns(env: Env, schema: Value) {
    Coerced(env, EMPTY, schema) == Null && Coerced(env, Null, schema) == FALSE_TEXT
  }

  /** One step of the turn: `schema` coerces to `kind` what it does not accept. */
  ghost predicate CoercesTo(env: Env, schema: Value, kind: string) {
    forall value: Value | IsSimple(value) ::
      Coerced(env, value, schema) == CoercePrimitive(env, value, kind)
  }

  lemma TypedCoercesTo(env: Env, kind: string)
    requires kind in {"boolean", "string", "null"}
    ensures CoercesTo(env, Typed(kind), kind)
  {
    var schema := Typed(kind);
    assert SchemaTypes(schema) == [kind];
    forall value: Value | IsSimple(value) ensures Coerced(env, value, schema) == CoercePrimitive(env, value, kind) {
      assert CoerceByKinds(env, value, [kind][1..]) == value;
      assert CoerceByType(env, value, schema) == CoercePrimitive(env, value, kind);
    }
  }

  ghost predicate AllOfAlone(schema: Value, branches: seq<Value>) {
    && GetItems(schema, "allOf") == Some(branches) && SchemaTypes(schema) == []
    && GetItems(schema, "anyOf") == GetItems(schema, "oneOf") == None
  }

  lemma AllOfIsAlone(branches: seq<Value>)
    ensures AllOfAlone(AllOf(branches), branches)
  {
  }

  lemma ThroughNext(env: Env, value: Value, schema: Value, branches: seq<Value>, rest: seq<Value>)
    requires branches != [] && branches[1..] == rest && forall i | 0 <= i < |branches| :: branches[i] < schema
    ensures CoercedThrough(env, value, schema, branches) == CoercedThrough(env, Coerced(env, value, branches[0]), schema, rest)
  {
  }

  lemma ThroughThree(env: Env, value: Value, schema: Value, a: Value, b: Value, c: Value)
    requires AllOfAlone(schema, [a, b, c])
    ensures Coerced(env, value, schema) == Coerced(env, Coerced(env, Coerced(env, value, a), b), c)
  {
    var second := Coerced(env, value, a);
    var third := Coerced(env, second, b);
    var branches := GetItems(schema, "allOf").value;
    assert branches[1..] == [b, c] && [b, c][1..] == [c] && [c][1..] == [];
    assert branches[0] == a && branches[1] == b && branches[2] == c;
    ThroughNext(env, value, schema, branches, [b, c]);
    ThroughNext(env, second, schema, [b, c], [c]);
    ThroughNext(env, third, schema, [c], []);
  }

  ghost predicate Steps(env: Env, a: Value, b: Value, c: Value) {
    BooleanSteps(env, a) && StringSteps(env, b) && NullSteps(env, c)
  }

  ghost predicate BooleanSteps(env: Env, a: Value) { Coerced(env, EMPTY, a) == EMPTY && Coerced(env, Null, a) == Bool(false) }

  ghost predicate StringSteps(env: Env, b: Value) { Coerced(env, EMPTY, b) == EMPTY && Coerced(env, Bool(false), b) == FALSE_TEXT }

  ghost predicate NullSteps(env: Env, c: Value) { Coerced(env, EMPTY, c) == Null && Coerced(env, FALSE_TEXT, c) == FALSE_TEXT }

  lemma KindStep(env: Env, schema: Value, kind: string, value: Value)
    requires CoercesTo(env, schema, kind) && IsSimple(value)
    ensures Coerced(env, value, schema) == CoercePrimitive(env, value, kind)
  {
  }

  lemma KindsStep(env: Env, a: Value, b: Value, c: Value)
    requires CoercesTo(env, a, "boolean") && CoercesTo(env, b, "string") && CoercesTo(env, c, "null")
    ensures Steps(env, a, b, c)
  {
    BooleanStep(env, a);
    StringStep(env, b);
    NullStep(env, c);
  }

  lemma BooleanStep(env: Env, a: Value)
    requires CoercesTo(env, a, "boolean")
    ensures BooleanSteps(env, a)
  {
  }

  lemma StringStep(env: Env, b: Value)
    requires CoercesTo(env, b, "string")
    ensures StringSteps(env, b)
  {
  }

  lemma NullStep(env: Env, c: Value)
    requires CoercesTo(env, c, "null")
    ensures NullSteps(env, c)
  {
  }

  lemma StepsTurn(env: Env, schema: Value, a: Value, b: Value, c: Value)
    requires AllOfAlone(schema, [a, b, c]) && Steps(env, a, b, c)
    ensures Turns(env, schema)
  {
    ThroughThree(env, EMPTY, schema, a, b, c);
    ThroughThree(env, Null, schema, a, b, c);
  }

  /** Turns and accepts nothing. */
  function Turning(): Value { AllOf([Typed("boolean"), Typed("string"), Typed("null")]) }

  lemma TurningTurns(env: Env)
    ensures Turns(env, Turning())
  {
    AllOfIsAlone([Typed("boolean"), Typed("string"), Typed("null")]);
    TypedCoercesTo(env, "boolean");
    TypedCoercesTo(env, "string");
    TypedCoercesTo(env, "null");
    KindsStep(env, Typed("boolean"), Typed("string"), Typed("null"));
    StepsTurn(env, Turning(), Typed("boolean"), Typed("string"), Typed("null"));
  }

  // ---------------------------------------------------------------- nesting

  ghost predicate OnlyKeys(schema: Value, keys: set<string>) {
    forall key | key !in keys :: Get(schema, key) == None
  }

  lemma SinglePart(schema: Value, key: string, part: Value)
    requires OnlyKeys(schema, {"type", "prefixItems", "properties", "patternProperties", key}) && Get(schema, key) == Some(part)
    ensures SingleParts(schema) <= {part}
  {
  }

  lemma NoSinglePart(schema: Value)
    requires OnlyKeys(schema, {"type", "allOf", "properties"})
    ensures SingleParts(schema) == {}
  {
  }

  lemma NoListPart(schema: Value)
    requires OnlyKeys(schema, {"type", "properties", "patternProperties", "additionalProperties"})
    ensures ListParts(schema) == {}
  {
  }

  lemma NoMemberPart(schema: Value)
    requires OnlyKeys(schema, {"type", "prefixItems", "items", "allOf"})
    ensures MemberParts(schema) == {}
  {
  }

  lemma MemberPart(schema: Value, key: string, name: string, part: Value)
    requires OnlyKeys(schema, {"type", "additionalProperties", key}) && GetMembers(schema, key) == Some(map[name := part])
    ensures MemberParts(schema) <= {part}
  {
  }

  lemma TypedNested(env: Env, kind: string, n: nat)
    ensures NestedWithin(env, Typed(kind), n)
  {
    assert OnlyKeys(Typed(kind), {"type"});
    NoSinglePart(Typed(kind));
    NoListPart(Typed(kind));
    NoMemberPart(Typed(kind));
  }

  lemma TurningNested(env: Env, n: nat)
    requires n > 0
    ensures NestedWithin(env, Turning(), n)
  {
    var branches := [Typed("boolean"), Typed("string"), Typed("null")];
    TypedNested(env, "boolean", n - 1);
    TypedNested(env, "string", n - 1);
    TypedNested(env, "null", n - 1);
    AllOfNested(env, Turning(), branches, n);
  }

  lemma AllOfNested(env: Env, schema: Value, branches: seq<Value>, n: nat)
    requires schema == AllOf(branches) && n > 0 && forall i | 0 <= i < |branches| :: NestedWithin(env, branches[i], n - 1)
    ensures NestedWithin(env, schema, n)
  {
    assert OnlyKeys(schema, {"allOf"});
    NoSinglePart(schema);
    NoMemberPart(schema);
    AllOfParts(schema, branches);
    assert ReferenceParts(env, schema) == {};
  }

  lemma AllOfParts(schema: Value, branches: seq<Value>)
    requires schema == AllOf(branches)
    ensures forall sub | sub in ListParts(schema) :: sub in branches
  {
    assert OnlyKeys(schema, {"allOf"}) && GetItems(schema, "allOf") == Some(branches);
  }

  // ------------------------------------------------------------- one member

  /** `parameters` coerces `{"x": from}` to `{"x": to}` and accepts that. */
  ghost predicate Takes(env: Env, parameters: Value, from: Value, to: Value) {
    && Normalized(env, Member(from), parameters) == Member(from)
    && Coerced(env, Member(from), parameters) == Member(to)
    && Accepts(env, parameters, Member(to), 0)
  }

  lemma TakesBoth(env: Env, parameters: Value, first: Value, second: Value, third: Value)
    requires second != third
    requires Takes(env, parameters, first, second) && Takes(env, parameters, second, third)
    ensures KeepsChanging(env, parameters, first, second, third)
  {
    assert Member(second).members["x"] == second;
  }

  /** No keyword but `type` and those of the value's own kind. */
  ghost predicate Plain(schema: Value) {
    && schema.Obj?
    && Get(schema, "$ref") == Get(schema, "const") == Get(schema, "enum") == Get(schema, "if") == None
    && Get(schema, "not") == Get(schema, "allOf") == Get(schema, "anyOf") == Get(schema, "oneOf") == None
  }

  lemma PlainVerdict(env: Env, schema: Value, value: Value, kind: string, depth: nat)
    requires Plain(schema) && SchemaTypes(schema) == [kind] && MatchesType(value, kind) && depth <= MAX_DEPTH
    ensures Accepts(env, schema, value, depth) <==> ShapeAccepts(env, schema, value, depth + 1)
  {
    assert [kind][0] == kind;
  }

  lemma PlainCoercion(env: Env, value: Value, schema: Value, kind: string)
    requires Plain(schema) && SchemaTypes(schema) == [kind]
    requires (kind == "array" && value.Arr?) || (kind == "object" && value.Obj?)
    ensures Coerced(env, value, schema) == CoercedShape(env, value, schema)
  {
    assert CoercePrimitive(env, value, kind) == value;
    assert CoerceByKinds(env, value, [kind][1..]) == value;
    assert CoerceByType(env, value, schema) == value;
  }

  lemma MemberCoercion(env: Env, schema: Value, from: Value, to: Value)
    requires Plain(schema) && SchemaTypes(schema) == ["object"] && CoercedMember(env, from, schema, "x") == to
    ensures Coerced(env, Member(from), schema) == Member(to)
  {
    PlainCoercion(env, Member(from), schema, "object");
    assert CoercedMembers(env, Member(from).members, schema) == Member(to).members;
  }

  /** No keyword for objects but the three that apply a schema to members. */
  ghost predicate Uncounted(schema: Value) {
    && Get(schema, "required") == Get(schema, "propertyNames") == None
    && Get(schema, "minProperties") == Get(schema, "maxProperties") == None
  }

  lemma MembersAccepted(env: Env, schema: Value, value: Value)
    requires Plain(schema) && SchemaTypes(schema) == ["object"] && Uncounted(schema)
    requires AdditionalAccepts(env, schema, Member(value).members, 1) && PatternsAccept(env, schema, Member(value).members, 1)
    requires PropertiesAccept(env, schema, Member(value).members, 1)
    ensures Accepts(env, schema, Member(value), 0)
  {
    PlainVerdict(env, schema, Member(value), "object", 0);
  }

  // ------------------------------- `additionalProperties` beside patternProperties

  function ByPattern(): Value {
    Obj(map["type" := Str("object"), "patternProperties" := Obj(map["^x" := Bool(true)]), "additionalProperties" := Turning()])
  }

  ghost predicate Patterned(schema: Value, additional: Value) {
    && Plain(schema) && SchemaTypes(schema) == ["object"] && Uncounted(schema)
    && GetMembers(schema, "patternProperties") == Some(map["^x" := Bool(true)])
    && CoercingAdditional(schema) == Some(additional) && GetMembers(schema, "properties") == None
  }

  lemma ByPatternIsPatterned()
    ensures Patterned(ByPattern(), Turning())
  {
  }

  /** Built from schemas that are nested less deep. */
  lemma BuiltNested(env: Env, schema: Value, rest: Value, n: nat)
    requires n > 0 && Parts(env, schema) <= {rest, Bool(true)} && NestedWithin(env, rest, n - 1)
    ensures NestedWithin(env, schema, n)
  {
    assert Parts(env, Bool(true)) == {};
  }

  lemma ByPatternParts(env: Env, schema: Value, rest: Value)
    requires OnlyKeys(schema, {"type", "patternProperties", "additionalProperties"})
    requires GetMembers(schema, "patternProperties") == Some(map["^x" := Bool(true)])
    requires Get(schema, "additionalProperties") == Some(rest) && !rest.Arr?
    ensures Parts(env, schema) <= {rest, Bool(true)}
  {
    SinglePart(schema, "additionalProperties", rest);
    NoListPart(schema);
    MemberPart(schema, "patternProperties", "^x", Bool(true));
  }

  lemma ByPatternNested(env: Env, n: nat)
    requires n > 1
    ensures NestedWithin(env, ByPattern(), n)
  {
    TurningNested(env, n - 1);
    ByPatternKeys();
    ByPatternParts(env, ByPattern(), Turning());
    BuiltNested(env, ByPattern(), Turning(), n);
  }

  lemma ByPatternKeys()
    ensures OnlyKeys(ByPattern(), {"type", "patternProperties", "additionalProperties"})
  {
  }

  lemma PatternedTakes(env: Env, schema: Value, additional: Value, from: Value, to: Value)
    requires Patterned(schema, additional)
    requires env.matches("^x", "x") == Some(true) && Coerced(env, from, additional) == to
    ensures Takes(env, schema, from, to)
  {
    assert Normalized(env, Member(from), schema).members == Member(from).members;
    MemberCoercion(env, schema, from, to);
    assert "^x" in GetMembers(schema, "patternProperties").value;
    assert PatternAccepts(env, "^x", Bool(true), Member(to).members, 1);
    MembersAccepted(env, schema, to);
  }

  /** A member that a pattern covers is coerced by `additionalProperties` all
      the same. */
  lemma PatternPropertiesBreakTheFixedPoint(env: Env)
    requires env.matches("^x", "x") == Some(true)
    ensures KeepsChanging(env, ByPattern(), EMPTY, Null, FALSE_TEXT) && NestedWithin(env, ByPattern(), MAX_DEPTH)
  {
    ByPatternNested(env, MAX_DEPTH);
    TurningTurns(env);
    ByPatternIsPatterned();
    PatternedTakes(env, ByPattern(), Turning(), EMPTY, Null);
    PatternedTakes(env, ByPattern(), Turning(), Null, FALSE_TEXT);
    TakesBoth(env, ByPattern(), EMPTY, Null, FALSE_TEXT);
  }

  // --------------------------------------------------- one declared property

  ghost predicate Declares(schema: Value, nested: Value) {
    && Plain(schema) && SchemaTypes(schema) == ["object"] && Uncounted(schema)
    && GetMembers(schema, "properties") == Some(map["x" := nested])
    && Get(schema, "additionalProperties") == Get(schema, "patternProperties") == None
  }

  lemma DeclaredTakes(env: Env, schema: Value, nested: Value, from: Value, to: Value)
    requires Declares(schema, nested)
    requires from.Null? ==> Accepts(env, nested, Null, 0)
    requires Normalized(env, from, nested) == from && Coerced(env, from, nested) == to && Accepts(env, nested, to, 1)
    ensures Takes(env, schema, from, to)
  {
    DeclaredNormal(env, schema, nested, from);
    MemberCoercion(env, schema, from, to);
    MembersAccepted(env, schema, to);
  }

  lemma DeclaredNormal(env: Env, schema: Value, nested: Value, from: Value)
    requires GetMembers(schema, "properties") == Some(map["x" := nested])
    requires Normalized(env, from, nested) == from && (from.Null? ==> Accepts(env, nested, Null, 0))
    ensures Normalized(env, Member(from), schema) == Member(from)
  {
    assert PropertiesOf(schema)["x"] == nested;
    assert Normalized(env, Member(from), schema).members == Member(from).members;
  }

  // ------------------------------------------------- `items` beside prefixItems

  function Positioned(): Value {
    Obj(map["type" := Str("array"), "prefixItems" := Arr([Bool(true)]), "items" := Turning()])
  }

  function ByPosition(): Value {
    Obj(map["type" := Str("object"), "properties" := Obj(map["x" := Positioned()])])
  }

  ghost predicate PositionedBy(schema: Value, rest: Value) {
    && Plain(schema) && SchemaTypes(schema) == ["array"] && PropertiesOf(schema) == map[]
    && GetItems(schema, "prefixItems") == Some([Bool(true)]) && Get(schema, "items") == Some(rest) && rest.Obj?
    && Get(schema, "contains") == Get(schema, "maxItems") == Get(schema, "minItems") == Get(schema, "uniqueItems") == None
  }

  lemma PositionedParts(env: Env, schema: Value, rest: Value)
    requires OnlyKeys(schema, {"type", "prefixItems", "items"})
    requires GetItems(schema, "prefixItems") == Some([Bool(true)]) && Get(schema, "items") == Some(rest) && !rest.Arr?
    ensures Parts(env, schema) <= {rest, Bool(true)}
  {
    SinglePart(schema, "items", rest);
    PrefixPart(schema, Bool(true));
    NoMemberPart(schema);
  }

  lemma PrefixPart(schema: Value, part: Value)
    requires OnlyKeys(schema, {"type", "prefixItems", "items"}) && GetItems(schema, "prefixItems") == Some([part])
    requires GetItems(schema, "items") == None
    ensures ListParts(schema) <= {part}
  {
  }

  lemma PositionedKeys()
    ensures OnlyKeys(Positioned(), {"type", "prefixItems", "items"})
  {
  }

  lemma ByPositionParts(env: Env, schema: Value, nested: Value)
    requires OnlyKeys(schema, {"type", "properties"}) && GetMembers(schema, "properties") == Some(map["x" := nested])
    ensures Parts(env, schema) <= {nested, Bool(true)}
  {
    NoSinglePart(schema);
    NoListPart(schema);
    MemberPart(schema, "properties", "x", nested);
  }

  lemma ByPositionNested(env: Env, n: nat)
    requires n > 2
    ensures NestedWithin(env, ByPosition(), n)
  {
    TurningNested(env, n - 2);
    PositionedKeys();
    PositionedParts(env, Positioned(), Turning());
    BuiltNested(env, Positioned(), Turning(), n - 1);
    assert OnlyKeys(ByPosition(), {"type", "properties"});
    ByPositionParts(env, ByPosition(), Positioned());
    BuiltNested(env, ByPosition(), Positioned(), n);
  }

  lemma PositionedIs()
    ensures PositionedBy(Positioned(), Turning())
  {
  }

  lemma ByPositionDeclares()
    ensures Declares(ByPosition(), Positioned())
  {
  }

  lemma PositionedCoerces(env: Env, schema: Value, rest: Value, from: Value, to: Value)
    requires PositionedBy(schema, rest) && Coerced(env, from, rest) == to
    ensures Coerced(env, Arr([from]), schema) == Arr([to])
  {
    PlainCoercion(env, Arr([from]), schema, "array");
    assert CoercedItem(env, from, schema, 0) == to;
    assert CoercedItems(env, [from], schema) == [to];
  }

  lemma PositionedAccepts(env: Env, schema: Value, rest: Value, item: Value)
    requires PositionedBy(schema, rest)
    ensures Accepts(env, schema, Arr([item]), 1)
  {
    var items := [item];
    PlainVerdict(env, schema, Arr(items), "array", 1);
    assert ItemSchema(schema, 0) == Some(Bool(true));
    assert ItemsAccept(env, schema, items, 2);
    assert ArrayAccepts(env, schema, items, 2);
  }

  lemma PositionedNormal(env: Env, schema: Value, rest: Value, item: Value)
    requires PositionedBy(schema, rest) && (item.Str? || item.Null?)
    ensures Normalized(env, Arr([item]), schema) == Arr([item])
  {
    assert Normalized(env, item, rest) == item;
    assert Normalized(env, Arr([item]), schema).items == [item];
  }

  lemma ByPositionTakes(env: Env, schema: Value, nested: Value, rest: Value, from: Value, to: Value)
    requires Declares(schema, nested) && PositionedBy(nested, rest)
    requires (from.Str? || from.Null?) && Coerced(env, from, rest) == to
    ensures Takes(env, schema, Arr([from]), Arr([to]))
  {
    PositionedNormal(env, nested, rest, from);
    PositionedCoerces(env, nested, rest, from, to);
    PositionedAccepts(env, nested, rest, to);
    DeclaredTakes(env, schema, nested, Arr([from]), Arr([to]));
  }

  /** An item that `prefixItems` covers is coerced by `items` all the same. */
  lemma PrefixItemsBreakTheFixedPoint(env: Env)
    ensures KeepsChanging(env, ByPosition(), Arr([EMPTY]), Arr([Null]), Arr([FALSE_TEXT])) && NestedWithin(env, ByPosition(), MAX_DEPTH)
  {
    ByPositionNested(env, MAX_DEPTH);
    TurningTurns(env);
    PositionedIs();
    ByPositionDeclares();
    ByPositionTakes(env, ByPosition(), Positioned(), Turning(), EMPTY, Null);
    ByPositionTakes(env, ByPosition(), Positioned(), Turning(), Null, FALSE_TEXT);
    assert [Null][0] != [FALSE_TEXT][0];
    TakesBoth(env, ByPosition(), Arr([EMPTY]), Arr([Null]), Arr([FALSE_TEXT]));
  }

  // ------------------------------------------------------ a cycle of references

  const DENIAL_POINTER := "#/$defs/denial"

  function Reference(): Value { Obj(map["$ref" := Str(DENIAL_POINTER)]) }

  /** Matches what it does not match. */
  function Denial(): Value { Obj(map["not" := Reference()]) }

  /** `Denial` one level down: refused at depth 0, accepted at depths 2 and 3. */
  function Hidden(): Value { AllOf([Denial()]) }

  function Guarded(kind: string): Value { AnyOf([Hidden(), Typed(kind)]) }

  const KINDS := ["boolean", "string", "null"]

  function GuardedAll(): seq<Value> { seq(|KINDS|, i requires 0 <= i < |KINDS| => Guarded(KINDS[i])) }

  function Cyclic(): Value { AllOf(GuardedAll()) }

  function ByDepth(): Value {
    Obj(map["type" := Str("object"), "properties" := Obj(map["x" := Cyclic()]), "$defs" := Obj(map["denial" := Denial()])])
  }

  const SAME_KEYWORDS := {"$ref", "const", "enum", "if", "not", "allOf", "anyOf", "oneOf", "maxLength", "minLength", "pattern"}

  /** No keyword but `key` that says anything about a simple value. */
  ghost predicate Only(schema: Value, key: string) {
    schema.Obj? && SchemaTypes(schema) == [] && forall other | other in SAME_KEYWORDS && other != key :: Get(schema, other) == None
  }

  ghost predicate OnlyItems(schema: Value, key: string, branches: seq<Value>) {
    Only(schema, key) && GetItems(schema, key) == Some(branches)
  }

  ghost predicate DeniesItself(env: Env, denial: Value, reference: Value) {
    && Only(denial, "not") && Get(denial, "not") == Some(reference)
    && Only(reference, "$ref") && GetText(reference, "$ref") == Some(DENIAL_POINTER)
    && env.resolve(DENIAL_POINTER) == Some(denial)
  }

  lemma DenialAlternates(env: Env, denial: Value, reference: Value, value: Value, depth: nat)
    requires depth <= MAX_DEPTH && DeniesItself(env, denial, reference) && IsSimple(value)
    ensures Accepts(env, denial, value, depth) <==> !(depth + 1 <= MAX_DEPTH && Accepts(env, denial, value, depth + 2))
  {
    assert RefAccepts(env, reference, value, depth + 2) <==> Accepts(env, denial, value, depth + 2);
    assert Accepts(env, reference, value, depth + 1) <==> depth + 1 <= MAX_DEPTH && RefAccepts(env, reference, value, depth + 2);
    assert NotAccepts(env, denial, value, depth + 1) <==> !Accepts(env, reference, value, depth + 1);
  }

  lemma {:induction false} Alternating(verdicts: seq<bool>, depth: nat)
    requires depth <= MAX_DEPTH && |verdicts| == MAX_DEPTH + 1
    requires forall d | 0 <= d <= MAX_DEPTH :: verdicts[d] <==> (d + 2 <= MAX_DEPTH ==> !verdicts[d + 2])
    ensures verdicts[depth] <==> depth % 4 == 0 || depth % 4 == 3
    decreases MAX_DEPTH - depth
  {
    assert verdicts[depth] <==> (depth + 2 <= MAX_DEPTH ==> !verdicts[depth + 2]);
    if depth + 2 <= MAX_DEPTH { Alternating(verdicts, depth + 2); }
  }

  /** The verdict of a schema that denies itself depends on how deep it is met:
      the depth limit decides. */
  lemma DepthDecidesACycle(env: Env, denial: Value, reference: Value, value: Value, depth: nat)
    requires depth <= MAX_DEPTH && DeniesItself(env, denial, reference) && IsSimple(value)
    ensures Accepts(env, denial, value, depth) <==> depth % 4 == 0 || depth % 4 == 3
  {
    var verdicts := seq(MAX_DEPTH + 1, d requires 0 <= d <= MAX_DEPTH => Accepts(env, denial, value, d));
    forall d | 0 <= d <= MAX_DEPTH ensures verdicts[d] <==> (d + 2 <= MAX_DEPTH ==> !verdicts[d + 2]) {
      DenialAlternates(env, denial, reference, value, d);
    }
    Alternating(verdicts, depth);
  }

  lemma AllOfVerdict(env: Env, schema: Value, branches: seq<Value>, value: Value, depth: nat)
    requires OnlyItems(schema, "allOf", branches) && IsSimple(value) && depth <= MAX_DEPTH
    ensures Accepts(env, schema, value, depth) <==> forall i | 0 <= i < |branches| :: Accepts(env, branches[i], value, depth + 1)
  {
    assert AllOfAccepts(env, schema, value, depth + 1) <==> forall i | 0 <= i < |branches| :: Accepts(env, branches[i], value, depth + 1);
  }

  lemma AnyOfVerdict(env: Env, schema: Value, branches: seq<Value>, value: Value, depth: nat)
    requires OnlyItems(schema, "anyOf", branches) && IsSimple(value) && depth <= MAX_DEPTH
    ensures Accepts(env, schema, value, depth) <==> exists i | 0 <= i < |branches| :: Accepts(env, branches[i], value, depth + 1)
  {
    assert AnyOfAccepts(env, schema, value, depth + 1) <==> exists i | 0 <= i < |branches| :: Accepts(env, branches[i], value, depth + 1);
  }

  lemma TypedVerdict(env: Env, value: Value, kind: string, depth: nat)
    requires IsSimple(value) && depth <= MAX_DEPTH
    ensures Accepts(env, Typed(kind), value, depth) <==> MatchesType(value, kind)
  {
    assert SchemaTypes(Typed(kind)) == [kind];
    assert [kind][0] == kind;
    if MatchesType(value, kind) { PlainVerdict(env, Typed(kind), value, kind, depth); }
  }

  lemma HiddenVerdict(env: Env, hidden: Value, denial: Value, reference: Value, value: Value, depth: nat)
    requires depth < MAX_DEPTH && DeniesItself(env, denial, reference) && OnlyItems(hidden, "allOf", [denial]) && IsSimple(value)
    ensures Accepts(env, hidden, value, depth) <==> depth % 4 == 3 || depth % 4 == 2
  {
    DepthDecidesACycle(env, denial, reference, value, depth + 1);
    OneBranchVerdict(env, hidden, denial, value, depth);
  }

  lemma OneBranchVerdict(env: Env, schema: Value, sub: Value, value: Value, depth: nat)
    requires OnlyItems(schema, "allOf", [sub]) && IsSimple(value) && depth <= MAX_DEPTH
    ensures Accepts(env, schema, value, depth) <==> Accepts(env, sub, value, depth + 1)
  {
    AllOfVerdict(env, schema, [sub], value, depth);
    assert [sub][0] == sub;
  }

  lemma HiddenAccepts(env: Env, hidden: Value, denial: Value, reference: Value, depth: nat)
    requires DeniesItself(env, denial, reference) && OnlyItems(hidden, "allOf", [denial]) && 2 <= depth <= 3
    ensures AcceptsSimple(env, hidden, depth)
  {
    forall value: Value | IsSimple(value) ensures Accepts(env, hidden, value, depth) {
      HiddenVerdict(env, hidden, denial, reference, value, depth);
    }
  }

  lemma HiddenRefuses(env: Env, hidden: Value, denial: Value, reference: Value)
    requires DeniesItself(env, denial, reference) && OnlyItems(hidden, "allOf", [denial])
    ensures Refuses(env, hidden)
  {
    forall value: Value | IsSimple(value) ensures Coerced(env, value, hidden) == value && !Accepts(env, hidden, value, 0) {
      HiddenVerdict(env, hidden, denial, reference, value, 0);
      HiddenLeaves(env, value, hidden, denial);
    }
  }

  lemma HiddenLeaves(env: Env, value: Value, hidden: Value, denial: Value)
    requires OnlyItems(hidden, "allOf", [denial]) && Only(denial, "not")
    ensures Coerced(env, value, hidden) == value
  {
    assert [denial][1..] == [];
    assert Coerced(env, value, denial) == value;
    assert GetItems(hidden, "allOf").value[0] == denial;
    ThroughNext(env, value, hidden, [denial], []);
  }

  /** The guard is refused where coercion looks, so the kind decides. */
  ghost predicate GuardedBy(env: Env, schema: Value, hidden: Value, kind: string) {
    && OnlyItems(schema, "anyOf", [hidden, Typed(kind)]) && kind in {"boolean", "string", "null"}
    && Refuses(env, hidden)
  }

  /** What `hidden` does to simple values where coercion looks. */
  ghost predicate Refuses(env: Env, hidden: Value) {
    forall value: Value | IsSimple(value) :: Coerced(env, value, hidden) == value && !Accepts(env, hidden, value, 0)
  }

  lemma GuardedCoerces(env: Env, schema: Value, hidden: Value, kind: string, value: Value)
    requires GuardedBy(env, schema, hidden, kind) && IsSimple(value)
    ensures Coerced(env, value, schema) == CoercePrimitive(env, value, kind)
  {
    var branches := GetItems(schema, "anyOf").value;
    var coerced := CoercePrimitive(env, value, kind);
    assert branches[0] == hidden && branches[1] == Typed(kind);
    TypedVerdict(env, value, kind, 0);
    TypedVerdict(env, coerced, kind, 0);
    TypedCoercesTo(env, kind);
    KindStep(env, Typed(kind), kind, value);
    GuardedUnion(env, schema, branches, value, coerced);
  }

  /** When the first branch leaves and refuses a value, the second decides. */
  lemma GuardedUnion(env: Env, schema: Value, branches: seq<Value>, value: Value, coerced: Value)
    requires GetItems(schema, "anyOf") == Some(branches) && |branches| == 2
    requires Coerced(env, value, branches[0]) == value && !Accepts(env, branches[0], value, 0)
    requires Coerced(env, value, branches[1]) == coerced
    ensures CoercedUnion(env, value, schema, branches) ==
      if !Accepts(env, branches[1], value, 0) && Accepts(env, branches[1], coerced, 0) then coerced else value
  {
    var rest := branches[1..];
    assert rest[0] == branches[1] && rest[1..] == [];
    assert FirstCoercion(env, value, schema, rest) == if Accepts(env, branches[1], coerced, 0) then coerced else value;
    assert FirstCoercion(env, value, schema, branches) == FirstCoercion(env, value, schema, rest);
  }

  lemma GuardedCoercesTo(env: Env, schema: Value, hidden: Value, kind: string)
    requires GuardedBy(env, schema, hidden, kind)
    ensures CoercesTo(env, schema, kind)
  {
    forall value: Value | IsSimple(value) ensures Coerced(env, value, schema) == CoercePrimitive(env, value, kind) {
      GuardedCoerces(env, schema, hidden, kind, value);
    }
  }

  ghost predicate AcceptsSimple(env: Env, schema: Value, depth: nat) {
    forall value: Value | IsSimple(value) :: Accepts(env, schema, value, depth)
  }

  lemma GuardedAccepts(env: Env, schema: Value, hidden: Value, other: Value, depth: nat)
    requires OnlyItems(schema, "anyOf", [hidden, other]) && AcceptsSimple(env, hidden, depth + 1) && depth <= MAX_DEPTH
    ensures AcceptsSimple(env, schema, depth)
  {
    assert [hidden, other][0] == hidden;
    forall value: Value | IsSimple(value) ensures Accepts(env, schema, value, depth) {
      AnyOfVerdict(env, schema, [hidden, other], value, depth);
    }
  }

  lemma BranchesAccept(env: Env, schema: Value, branches: seq<Value>, depth: nat)
    requires OnlyItems(schema, "allOf", branches) && depth <= MAX_DEPTH
    requires forall i | 0 <= i < |branches| :: AcceptsSimple(env, branches[i], depth + 1)
    ensures AcceptsSimple(env, schema, depth)
  {
    forall value: Value | IsSimple(value) ensures Accepts(env, schema, value, depth) {
      AllOfVerdict(env, schema, branches, value, depth);
    }
  }

  ghost predicate GuardedEach(guarded: seq<Value>, hidden: Value, kinds: seq<string>) {
    |guarded| == |kinds| && forall i | 0 <= i < |guarded| :: OnlyItems(guarded[i], "anyOf", [hidden, Typed(kinds[i])])
  }

  /** The schemas above put together, as values nothing else is known about. */
  ghost predicate Knotted(env: Env, schema: Value, guarded: seq<Value>, hidden: Value, denial: Value, reference: Value) {
    && OnlyItems(schema, "allOf", guarded) && |guarded| == 3
    && GuardedEach(guarded, hidden, KINDS)
    && OnlyItems(hidden, "allOf", [denial]) && DeniesItself(env, denial, reference)
  }

  lemma CyclicIsKnotted(env: Env)
    requires env.resolve(DENIAL_POINTER) == Some(Denial())
    ensures Knotted(env, Cyclic(), GuardedAll(), Hidden(), Denial(), Reference())
  {
    AllOfIsOnly(GuardedAll());
    forall i | 0 <= i < |KINDS| ensures OnlyItems(GuardedAll()[i], "anyOf", [Hidden(), Typed(KINDS[i])]) {
      GuardedIsOnly(KINDS[i]);
    }
    AllOfIsOnly([Denial()]);
    DenialDenies(env);
  }

  lemma GuardedIsOnly(kind: string)
    ensures OnlyItems(Guarded(kind), "anyOf", [Hidden(), Typed(kind)])
  {
    AnyOfIsOnly([Hidden(), Typed(kind)]);
  }

  lemma DenialDenies(env: Env)
    requires env.resolve(DENIAL_POINTER) == Some(Denial())
    ensures DeniesItself(env, Denial(), Reference())
  {
  }

  lemma AllOfIsOnly(branches: seq<Value>)
    ensures OnlyItems(AllOf(branches), "allOf", branches)
  {
  }

  lemma AnyOfIsOnly(branches: seq<Value>)
    ensures OnlyItems(AnyOf(branches), "anyOf", branches)
  {
  }

  lemma GuardedBranchesAccept(env: Env, schema: Value, guarded: seq<Value>, hidden: Value, kinds: seq<string>, depth: nat)
    requires OnlyItems(schema, "allOf", guarded) && depth < MAX_DEPTH && GuardedEach(guarded, hidden, kinds)
    requires AcceptsSimple(env, hidden, depth + 2)
    ensures AcceptsSimple(env, schema, depth)
  {
    forall i | 0 <= i < |guarded| ensures AcceptsSimple(env, guarded[i], depth + 1) {
      GuardedAccepts(env, guarded[i], hidden, Typed(kinds[i]), depth + 1);
    }
    BranchesAccept(env, schema, guarded, depth);
  }

  lemma KnottedAccepts(env: Env, schema: Value, guarded: seq<Value>, hidden: Value, denial: Value, reference: Value, depth: nat)
    requires Knotted(env, schema, guarded, hidden, denial, reference) && depth <= 1
    ensures AcceptsSimple(env, schema, depth)
  {
    HiddenAccepts(env, hidden, denial, reference, depth + 2);
    GuardedBranchesAccept(env, schema, guarded, hidden, KINDS, depth);
  }

  lemma KnottedTurns(env: Env, schema: Value, guarded: seq<Value>, hidden: Value, denial: Value, reference: Value)
    requires Knotted(env, schema, guarded, hidden, denial, reference)
    ensures Turns(env, schema)
  {
    HiddenRefuses(env, hidden, denial, reference);
    GuardedSteps(env, guarded, hidden);
    ThreeTurn(env, schema, guarded);
  }

  lemma GuardedSteps(env: Env, guarded: seq<Value>, hidden: Value)
    requires GuardedEach(guarded, hidden, KINDS) && Refuses(env, hidden)
    ensures Steps(env, guarded[0], guarded[1], guarded[2])
  {
    forall i | 0 <= i < |KINDS| ensures CoercesTo(env, guarded[i], KINDS[i]) {
      GuardedCoercesTo(env, guarded[i], hidden, KINDS[i]);
    }
    KindsStep(env, guarded[0], guarded[1], guarded[2]);
  }

  lemma ThreeTurn(env: Env, schema: Value, guarded: seq<Value>)
    requires OnlyItems(schema, "allOf", guarded) && |guarded| == 3 && Steps(env, guarded[0], guarded[1], guarded[2])
    ensures Turns(env, schema)
  {
    assert guarded == [guarded[0], guarded[1], guarded[2]];
    StepsTurn(env, schema, guarded[0], guarded[1], guarded[2]);
  }

  lemma ByDepthDeclares()
    ensures Declares(ByDepth(), Cyclic())
  {
    ByDepthIsPlain();
  }

  lemma GuardedAligned(kind: string)
    ensures Aligned(Guarded(kind))
  {
    forall key | key != "anyOf" ensures Get(Guarded(kind), key) == None { }
  }

  lemma CyclicAligned()
    ensures Aligned(Cyclic())
  {
    forall key | key != "allOf" ensures Get(Cyclic(), key) == None { }
    forall i | 0 <= i < |KINDS| ensures Aligned(GuardedAll()[i]) {
      GuardedAligned(KINDS[i]);
    }
  }

  lemma ByDepthAligned()
    ensures Aligned(ByDepth())
  {
    var schema := ByDepth();
    CyclicAligned();
    forall key | key !in {"type", "properties", "$defs"} ensures Get(schema, key) == None { }
    assert PropertiesOf(schema) == map["x" := Cyclic()];
  }

  lemma ByDepthIsPlain()
    ensures Plain(ByDepth())
  {
  }

  /** Every `x` is accepted where checking meets it, and refused where coercion
      looks for a branch that takes it as it is. */
  lemma CyclesBreakTheFixedPoint(env: Env)
    requires env.resolve(DENIAL_POINTER) == Some(Denial())
    ensures KeepsChanging(env, ByDepth(), EMPTY, Null, FALSE_TEXT) && Aligned(ByDepth())
  {
    ByDepthAligned();
    CyclicIsKnotted(env);
    ByDepthDeclares();
    KnottedKeepsChanging(env, ByDepth(), Cyclic(), GuardedAll(), Hidden(), Denial(), Reference());
  }

  lemma KnottedKeepsChanging(env: Env, parameters: Value, schema: Value, guarded: seq<Value>, hidden: Value, denial: Value, reference: Value)
    requires Declares(parameters, schema) && Knotted(env, schema, guarded, hidden, denial, reference)
    ensures KeepsChanging(env, parameters, EMPTY, Null, FALSE_TEXT)
  {
    KnottedTurns(env, schema, guarded, hidden, denial, reference);
    KnottedAccepts(env, schema, guarded, hidden, denial, reference, 0);
    KnottedAccepts(env, schema, guarded, hidden, denial, reference, 1);
    DeclaredTakes(env, parameters, schema, EMPTY, Null);
    DeclaredTakes(env, parameters, schema, Null, FALSE_TEXT);
    TakesBoth(env, parameters, EMPTY, Null, FALSE_TEXT);
  }
}
