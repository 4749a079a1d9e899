/** Tool-argument validation as it runs: normalise, coerce, check and report
    within one step budget. */
module Validation {
  import opened Wrappers
  import opened JsNumbers
  import opened Json
  import opened Schema
  import opened Checker
  import opened Coercion

  method Normalize(v: Validator, value: Value, schema: Value) returns (result: Value)
    modifies v.budget
    ensures v.budget.Since(old(v.budget.exhausted), old(v.budget.remaining))
    ensures !v.budget.exhausted ==> result == Normalized(v.env, value, schema)
    decreases value
  {
    match value {
      case Arr(items) =>
        var normal: seq<Value> := [];
        for i := 0 to |items|
          invariant v.budget.Since(old(v.budget.exhausted), old(v.budget.remaining))
          invariant |normal| == i
          invariant !v.budget.exhausted ==> forall j | 0 <= j < i :: normal[j] == NormalizedItem(v.env, items[j], schema, j)
        {
          var itemSchema := CoercedItemSchema(schema, i);
          var item := items[i];
          if itemSchema.Some? { item := Normalize(v, item, itemSchema.value); }
          normal := normal + [item];
        }
        result := Arr(normal);
        assert !v.budget.exhausted ==> normal == Normalized(v.env, value, schema).items;
      case Obj(members) => result := NormalizeMembers(v, value, schema);
      case _ => result := value;
    }
  }

  ghost function NormalizedItem(env: Env, item: Value, schema: Value, i: nat): Value {
    var itemSchema := CoercedItemSchema(schema, i);
    if itemSchema.Some? then Normalized(env, item, itemSchema.value) else item
  }

  /** A member's value afterwards; `None` when it is dropped. */
  ghost function NormalizedMember(env: Env, members: map<string, Value>, schema: Value, key: string): Option<Value>
  {
    var properties := PropertiesOf(schema);
    if key !in members then None
    else if key !in properties then Some(members[key])
    else if Drops(env, schema, key, properties[key], members[key]) then None
    else Some(Normalized(env, members[key], properties[key]))
  }

  function Lookup(members: map<string, Value>, key: string): Option<Value> {
    if key in members then Some(members[key]) else None
  }

  method NormalizeMembers(v: Validator, value: Value, schema: Value) returns (result: Value)
    requires value.Obj?
    modifies v.budget
    ensures v.budget.Since(old(v.budget.exhausted), old(v.budget.remaining))
    ensures !v.budget.exhausted ==> result == Normalized(v.env, value, schema)
    decreases value, 0
  {
    var members := value.members;
    var properties := PropertiesOf(schema);
    var current := members;
    var todo := properties.Keys;
    while todo != {}
      invariant todo <= properties.Keys && (v.budget.Since(old(v.budget.exhausted), old(v.budget.remaining)))
      invariant forall key | key in todo || key !in properties :: Lookup(current, key) == Lookup(members, key)
      invariant !v.budget.exhausted ==> forall key | key in properties && key !in todo ::
        Lookup(current, key) == NormalizedMember(v.env, members, schema, key)
      decreases |todo|
    {
      var key :| key in todo;
      todo := todo - {key};
      assert Lookup(current, key) == Lookup(members, key);
      if key in members {
        var drop := members[key].Null? && !IsRequired(schema, key) && GetText(properties[key], "$ref").None?;
        if drop {
          var nullable := v.Check(properties[key], Null, 0);
          drop := !nullable;
        }
        if drop {
          current := current - {key};
        } else {
          var member := Normalize(v, members[key], properties[key]);
          current := current[key := member];
        }
      }
    }
    result := Obj(current);
    if !v.budget.exhausted { SameMembers(v.env, value, schema, current); }
  }

  lemma SameMembers(env: Env, value: Value, schema: Value, current: map<string, Value>)
    requires value.Obj?
    requires forall key | key !in PropertiesOf(schema) :: Lookup(current, key) == Lookup(value.members, key)
    requires forall key | key in PropertiesOf(schema) :: Lookup(current, key) == NormalizedMember(env, value.members, schema, key)
    ensures Obj(current) == Normalized(env, value, schema)
  {
    var normal := Normalized(env, value, schema).members;
    forall key ensures Lookup(current, key) == Lookup(normal, key) {
      if key in PropertiesOf(schema) { assert Lookup(current, key) == NormalizedMember(env, value.members, schema, key); }
    }
    assert forall key :: key in current <==> Lookup(current, key).Some?;
    assert forall key :: key in normal <==> Lookup(normal, key).Some?;
    assert current.Keys == normal.Keys;
    assert forall key | key in current :: Lookup(current, key).value == Lookup(normal, key).value;
    assert current == normal;
  }

  method Coerce(v: Validator, value: Value, schema: Value) returns (next: Value)
    modifies v.budget
    ensures v.budget.Since(old(v.budget.exhausted), old(v.budget.remaining))
    ensures !v.budget.exhausted ==> next == Coerced(v.env, value, schema)
    decreases schema, 3
  {
    next := value;
    var allOf := GetItems(schema, "allOf");
    if allOf.Some? { next := CoerceThrough(v, next, schema, allOf.value); }
    next := CoerceUnionAt(v, next, schema, "anyOf");
    next := CoerceUnionAt(v, next, schema, "oneOf");
    next := CoerceShape(v, CoerceByType(v.env, next, schema), schema);
  }

  method CoerceUnionAt(v: Validator, value: Value, schema: Value, key: string) returns (next: Value)
    modifies v.budget
    ensures v.budget.Since(old(v.budget.exhausted), old(v.budget.remaining))
    ensures !v.budget.exhausted ==>
      next == if GetItems(schema, key).Some? then CoercedUnion(v.env, value, schema, GetItems(schema, key).value) else value
    decreases schema, 2
  {
    next := value;
    var branches := GetItems(schema, key);
    if branches.Some? { next := CoerceUnion(v, next, schema, branches.value); }
  }

  method CoerceShape(v: Validator, value: Value, schema: Value) returns (next: Value)
    modifies v.budget
    ensures v.budget.Since(old(v.budget.exhausted), old(v.budget.remaining))
    ensures !v.budget.exhausted ==> next == CoercedShape(v.env, value, schema)
    decreases schema, 2
  {
    next := value;
    if "object" in SchemaTypes(schema) && next.Obj? {
      var members := CoerceMembers(v, next.members, schema);
      next := Obj(members);
    }
    if "array" in SchemaTypes(schema) && next.Arr? {
      var items := CoerceItems(v, next.items, schema);
      next := Arr(items);
    }
  }

  method CoerceThrough(v: Validator, value: Value, schema: Value, branches: seq<Value>) returns (next: Value)
    requires forall i | 0 <= i < |branches| :: branches[i] < schema
    modifies v.budget
    ensures v.budget.Since(old(v.budget.exhausted), old(v.budget.remaining))
    ensures !v.budget.exhausted ==> next == CoercedThrough(v.env, value, schema, branches)
    decreases schema, 1
  {
    next := value;
    assert branches[0..] == branches;
    for i := 0 to |branches|
      invariant v.budget.Since(old(v.budget.exhausted), old(v.budget.remaining))
      invariant !v.budget.exhausted ==>
        CoercedThrough(v.env, next, schema, branches[i..]) == CoercedThrough(v.env, value, schema, branches)
    {
      assert branches[i..][0] == branches[i] && branches[i..][1..] == branches[i + 1..];
      next := Coerce(v, next, branches[i]);
    }
  }

  method CoerceUnion(v: Validator, value: Value, schema: Value, branches: seq<Value>) returns (next: Value)
    requires forall i | 0 <= i < |branches| :: branches[i] < schema
    modifies v.budget
    ensures v.budget.Since(old(v.budget.exhausted), old(v.budget.remaining))
    ensures !v.budget.exhausted ==> next == CoercedUnion(v.env, value, schema, branches)
    decreases schema, 1
  {
    var any := AnyMatch(v, branches, value);
    if any { return value; }
    next := CoerceToFirst(v, value, schema, branches);
  }

  method AnyMatch(v: Validator, branches: seq<Value>, value: Value) returns (any: bool)
    modifies v.budget
    ensures v.budget.Since(old(v.budget.exhausted), old(v.budget.remaining))
    ensures !v.budget.exhausted ==> any == AnyMatches(v.env, branches, value)
  {
    for i := 0 to |branches|
      invariant v.budget.Since(old(v.budget.exhausted), old(v.budget.remaining))
      invariant !v.budget.exhausted ==> forall j | 0 <= j < i :: !Accepts(v.env, branches[j], value, 0)
    {
      any := v.Check(branches[i], value, 0);
      if any { return true; }
    }
    return false;
  }

  method CoerceToFirst(v: Validator, value: Value, schema: Value, branches: seq<Value>) returns (next: Value)
    requires forall i | 0 <= i < |branches| :: branches[i] < schema
    modifies v.budget
    ensures v.budget.Since(old(v.budget.exhausted), old(v.budget.remaining))
    ensures !v.budget.exhausted ==> next == FirstCoercion(v.env, value, schema, branches)
    decreases schema, 0
  {
    assert branches[0..] == branches;
    for i := 0 to |branches|
      invariant v.budget.Since(old(v.budget.exhausted), old(v.budget.remaining))
      invariant !v.budget.exhausted ==>
        FirstCoercion(v.env, value, schema, branches[i..]) == FirstCoercion(v.env, value, schema, branches)
    {
      assert branches[i..][0] == branches[i] && branches[i..][1..] == branches[i + 1..];
      var coerced := Coerce(v, value, branches[i]);
      var matched := v.Check(branches[i], coerced, 0);
      if matched { return coerced; }
    }
    return value;
  }

  method CoerceMembers(v: Validator, members: map<string, Value>, schema: Value) returns (result: map<string, Value>)
    modifies v.budget
    ensures v.budget.Since(old(v.budget.exhausted), old(v.budget.remaining))
    ensures !v.budget.exhausted ==> result == CoercedMembers(v.env, members, schema)
    decreases schema, 1
  {
    result := CoerceDeclared(v, members, schema);
    if CoercingAdditional(schema).Some? {
      result := CoerceAdditional(v, members, schema, result);
    }
    if !v.budget.exhausted {
      forall key | key in members ensures result[key] == CoercedMember(v.env, members[key], schema, key) {
        if key in PropertiesOf(schema) { }
      }
      assert result == CoercedMembers(v.env, members, schema);
    }
  }

  method CoerceDeclared(v: Validator, members: map<string, Value>, schema: Value) returns (result: map<string, Value>)
    modifies v.budget
    ensures v.budget.Since(old(v.budget.exhausted), old(v.budget.remaining))
    ensures result.Keys == members.Keys
    ensures forall key | key in members && key !in PropertiesOf(schema) :: result[key] == members[key]
    ensures !v.budget.exhausted ==> forall key | key in members && key in PropertiesOf(schema) ::
      result[key] == CoercedMember(v.env, members[key], schema, key)
    decreases schema, 0
  {
    var properties := PropertiesOf(schema);
    result := members;
    var todo := properties.Keys;
    while todo != {}
      invariant todo <= properties.Keys && (v.budget.Since(old(v.budget.exhausted), old(v.budget.remaining)))
      invariant result.Keys == members.Keys
      invariant forall key | key in members && (key in todo || key !in properties) :: result[key] == members[key]
      invariant !v.budget.exhausted ==> forall key | key in members && key in properties && key !in todo ::
        result[key] == CoercedMember(v.env, members[key], schema, key)
      decreases |todo|
    {
      var key :| key in todo;
      todo := todo - {key};
      if key in members {
        var member := Coerce(v, members[key], properties[key]);
        result := result[key := member];
      }
    }
  }

  method CoerceAdditional(v: Validator, members: map<string, Value>, schema: Value, declared: map<string, Value>)
      returns (result: map<string, Value>)
    requires CoercingAdditional(schema).Some? && declared.Keys == members.Keys
    requires forall key | key in members && key !in PropertiesOf(schema) :: declared[key] == members[key]
    modifies v.budget
    ensures v.budget.Since(old(v.budget.exhausted), old(v.budget.remaining))
    ensures result.Keys == members.Keys
    ensures forall key | key in members && key in PropertiesOf(schema) :: result[key] == declared[key]
    ensures !v.budget.exhausted ==> forall key | key in members && key !in PropertiesOf(schema) ::
      result[key] == CoercedMember(v.env, members[key], schema, key)
    decreases schema, 0
  {
    var properties := PropertiesOf(schema);
    result := declared;
    var todo := members.Keys;
    while todo != {}
      invariant todo <= members.Keys && (v.budget.Since(old(v.budget.exhausted), old(v.budget.remaining)))
      invariant result.Keys == members.Keys
      invariant forall key | key in members && (key in todo || key in properties) :: result[key] == declared[key]
      invariant !v.budget.exhausted ==> forall key | key in members && key !in properties && key !in todo ::
        result[key] == CoercedMember(v.env, members[key], schema, key)
      decreases |todo|
    {
      var key :| key in todo;
      todo := todo - {key};
      if key !in properties {
        var member := Coerce(v, members[key], CoercingAdditional(schema).value);
        result := result[key := member];
      }
    }
  }

  method CoerceItems(v: Validator, items: seq<Value>, schema: Value) returns (result: seq<Value>)
    modifies v.budget
    ensures v.budget.Since(old(v.budget.exhausted), old(v.budget.remaining))
    ensures !v.budget.exhausted ==> result == CoercedItems(v.env, items, schema)
    decreases schema, 1
  {
    result := [];
    for i := 0 to |items|
      invariant v.budget.Since(old(v.budget.exhausted), old(v.budget.remaining))
      invariant |result| == i
      invariant !v.budget.exhausted ==> forall j | 0 <= j < i :: result[j] == CoercedItem(v.env, items[j], schema, j)
    {
      var itemSchema := CoercedItemSchema(schema, i);
      var item := items[i];
      if itemSchema.Some? && (GetItems(schema, "items").Some? || itemSchema.value.Obj?) {
        item := Coerce(v, item, itemSchema.value);
      }
      result := result + [item];
    }
  }

  datatype Outcome =
    | Valid(arguments: Value)
    | Invalid(errors: seq<SchemaError>)
    | TooComplex

  /** Every answer short of `TooComplex` is the exact one: accepted arguments are
      the reference's, a refusal is the reference's refusal and names at least
      one failed keyword, at most eight. `TooComplex` is given exactly when the
      call's budget, returned as it was left, ran out. */
  method ValidateArguments(env: Env, parameters: Value, arguments: Value, steps: nat) returns (outcome: Outcome, budget: Budget)
    ensures outcome.Valid? ==> Validated(env, parameters, arguments) == Some(outcome.arguments)
    ensures outcome.Invalid? ==> Validated(env, parameters, arguments) == None && 1 <= |outcome.errors| <= MAX_ERRORS
    ensures outcome.TooComplex? <==> budget.exhausted
    ensures budget.Since(false, steps)
  {
    budget := new Budget(steps);
    var v := new Validator(env, budget);
    outcome := ValidateWithin(v, parameters, arguments);
    if budget.exhausted { outcome := TooComplex; }
  }

  method ValidateWithin(v: Validator, parameters: Value, arguments: Value) returns (outcome: Outcome)
    modifies v.budget
    ensures outcome != TooComplex
    ensures v.budget.Since(old(v.budget.exhausted), old(v.budget.remaining))
    ensures !v.budget.exhausted && outcome.Valid? ==> Validated(v.env, parameters, arguments) == Some(outcome.arguments)
    ensures !v.budget.exhausted && outcome.Invalid? ==>
      Validated(v.env, parameters, arguments) == None && 1 <= |outcome.errors| <= MAX_ERRORS
  {
    var args := Normalize(v, arguments, parameters);
    var coerced := Coerce(v, args, parameters);
    if args.Obj? && coerced.Obj? {
      args := coerced;
    } else if coerced != args {
      // The uncoerced arguments are returned unchecked.
      var ok := v.Check(parameters, coerced, 0);
      return Valid(if ok then coerced else args);
    }
    outcome := CheckArguments(v, parameters, args);
  }

  method CheckArguments(v: Validator, parameters: Value, args: Value) returns (outcome: Outcome)
    modifies v.budget
    ensures v.budget.Since(old(v.budget.exhausted), old(v.budget.remaining))
    ensures outcome == Valid(args) || outcome.Invalid?
    ensures !v.budget.exhausted ==> (outcome.Valid? <==> Accepts(v.env, parameters, args, 0))
    ensures !v.budget.exhausted && outcome.Invalid? ==> 1 <= |outcome.errors| <= MAX_ERRORS
  {
    var ok := v.Check(parameters, args, 0);
    if ok { return Valid(args); }
    var errors := new Errors();
    var _ := v.ErrorsOf(parameters, args, "", 0, errors);
    return Invalid(errors.list);
  }

  /** The two evaluators agree: started on an empty list, the collecting one
      returns what the stopping one does, adds nothing when the value matches
      and something when it does not. */
  method EvaluatorsAgree(v: Validator, schema: Value, value: Value, path: string, depth: nat)
      returns (ok: bool, valid: bool, list: seq<SchemaError>)
    modifies v.budget
    ensures !v.budget.exhausted ==> ok == valid && (ok <==> list == []) && |list| <= MAX_ERRORS
  {
    ok := v.Check(schema, value, depth);
    var errors := new Errors();
    valid := v.ErrorsOf(schema, value, path, depth, errors);
    list := errors.list;
  }

  /** An object that validation accepts is an object that matches, whatever the
      schema. */
  lemma AcceptedObjectMatches(env: Env, parameters: Value, arguments: Value)
    requires arguments.Obj? && Validated(env, parameters, arguments).Some?
    ensures var accepted := Validated(env, parameters, arguments).value;
            accepted.Obj? && Accepts(env, parameters, accepted, 0)
  {
    CoercionKeepsObjects(env, Normalized(env, arguments, parameters), parameters);
  }

  lemma {:induction false} CoercionKeepsObjects(env: Env, value: Value, schema: Value)
    requires value.Obj?
    ensures Coerced(env, value, schema).Obj?
    decreases schema, 1
  {
    var next := value;
    var allOf, anyOf, oneOf := GetItems(schema, "allOf"), GetItems(schema, "anyOf"), GetItems(schema, "oneOf");
    if allOf.Some? {
      ThroughKeepsObjects(env, next, schema, allOf.value);
      next := CoercedThrough(env, next, schema, allOf.value);
    }
    if anyOf.Some? {
      UnionKeepsObjects(env, next, schema, anyOf.value);
      next := CoercedUnion(env, next, schema, anyOf.value);
    }
    if oneOf.Some? {
      UnionKeepsObjects(env, next, schema, oneOf.value);
      next := CoercedUnion(env, next, schema, oneOf.value);
    }
    KindsKeepObjects(env, next, SchemaTypes(schema));
  }

  lemma {:induction false} ThroughKeepsObjects(env: Env, value: Value, schema: Value, branches: seq<Value>)
    requires value.Obj? && forall i | 0 <= i < |branches| :: branches[i] < schema
    ensures CoercedThrough(env, value, schema, branches).Obj?
    decreases schema, 0, |branches|
  {
    if branches != [] {
      CoercionKeepsObjects(env, value, branches[0]);
      ThroughKeepsObjects(env, Coerced(env, value, branches[0]), schema, branches[1..]);
    }
  }

  lemma {:induction false} UnionKeepsObjects(env: Env, value: Value, schema: Value, branches: seq<Value>)
    requires value.Obj? && forall i | 0 <= i < |branches| :: branches[i] < schema
    ensures CoercedUnion(env, value, schema, branches).Obj? && FirstCoercion(env, value, schema, branches).Obj?
    decreases schema, 0, |branches|
  {
    if branches != [] {
      CoercionKeepsObjects(env, value, branches[0]);
      UnionKeepsObjects(env, value, schema, branches[1..]);
    }
  }

  lemma {:induction false} KindsKeepObjects(env: Env, value: Value, kinds: seq<string>)
    requires value.Obj?
    ensures CoerceByKinds(env, value, kinds) == value
  {
    if kinds != [] { KindsKeepObjects(env, value, kinds[1..]); }
  }
}
