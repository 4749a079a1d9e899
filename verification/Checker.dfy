/** The two evaluators of the tool-argument validator and the step budget they
    share. Every evaluation that ends with budget to spare is exact. */
module Checker {
  import opened Wrappers
  import opened JsNumbers
  import opened Json
  import opened Schema
  import opened CanonicalJson

  /** Errors kept per context. */
  const MAX_ERRORS: nat := 8

  class Budget {
    var remaining: nat
    var exhausted: bool
    var timedOut: bool

    constructor (steps: nat)
      ensures remaining == steps && !exhausted && !timedOut
    {
      remaining := steps;
      exhausted := false;
      timedOut := false;
    }

    /** What evaluation leaves of a budget that stood at `left`: it never grows,
        and it is exhausted only when nothing is left of it. */
    ghost predicate Since(was: bool, left: nat)
      reads this
    {
      && (was ==> exhausted)
      && remaining <= left
      && (exhausted && !was ==> remaining == 0)
    }

    /** Spends one step, refused only when none is left or the deadline has
        passed. The clock may pass it at any moment, which takes the steps that
        are left. */
    method Spend() returns (ok: bool)
      modifies this
      ensures ok ==> remaining == old(remaining) - 1 && exhausted == old(exhausted) && timedOut == old(timedOut)
      ensures !ok ==> exhausted && remaining == 0 && (old(remaining) == 0 || timedOut)
    {
      var late: bool := *;
      if late {
        timedOut := true;
        remaining := 0;
      }
      if remaining > 0 {
        remaining := remaining - 1;
        return true;
      }
      exhausted := true;
      return false;
    }
  }

  /** One failed keyword at an instance path. */
  datatype SchemaError = SchemaError(path: string, keyword: string, missing: Option<string>)

  /** How many of `count` errors still fit beside `recorded` ones. */
  function Room(recorded: nat, count: nat): (r: nat)
    ensures r <= count
  {
    if recorded >= MAX_ERRORS then 0 else if count <= MAX_ERRORS - recorded then count else MAX_ERRORS - recorded
  }

  /** What has gone wrong so far, up to the cap. */
  class Errors {
    var list: seq<SchemaError>

    constructor ()
      ensures list == []
    {
      list := [];
    }

    predicate AtCapacity()
      reads this
    {
      |list| >= MAX_ERRORS
    }

    /** Appends an error unless the list is full. */
    method Add(error: SchemaError) returns (failed: bool)
      modifies this
      ensures list == if |old(list)| < MAX_ERRORS then old(list) + [error] else old(list)
      ensures !failed
    {
      if !AtCapacity() { list := list + [error]; }
      return false;
    }

    method Fail(path: string, keyword: string) returns (failed: bool)
      modifies this
      ensures list == if |old(list)| < MAX_ERRORS then old(list) + [SchemaError(path, keyword, None)] else old(list)
      ensures !failed
    {
      failed := Add(SchemaError(path, keyword, None));
    }

    /** Takes over, as far as they fit, the errors of a list that failed. */
    method Absorb(nested: seq<SchemaError>)
      modifies this
      ensures list == old(list) + nested[..Room(|old(list)|, |nested|)]
      ensures |old(list)| <= MAX_ERRORS ==> |list| <= MAX_ERRORS
      ensures |old(list)| < MAX_ERRORS && nested != [] ==> |list| > |old(list)|
    {
      for i := 0 to |nested|
        invariant list == old(list) + nested[..Room(|old(list)|, i)]
      {
        var _ := Add(nested[i]);
      }
    }
  }

  // ----------------------------------------------- keywords without schemas

  function TextErrors(env: Env, schema: Value, text: string): (failed: seq<string>)
    ensures failed == [] <==> TextHolds(env, schema, text)
  {
    (if AtMost(Utf16Length(text), AsCount(schema, "maxLength")) then [] else ["maxLength"])
    + (if AtLeast(Utf16Length(text), AsCount(schema, "minLength")) then [] else ["minLength"])
    + (if PatternHolds(env, schema, text) then [] else ["pattern"])
  }

  function BoundErrors(schema: Value, value: FiniteDouble, i: nat): (failed: seq<string>)
    requires i <= |BOUNDS|
    ensures failed == [] <==> forall j | i <= j < |BOUNDS| :: BoundHolds(schema, BOUNDS[j], value)
    decreases |BOUNDS| - i
  {
    if i == |BOUNDS| then []
    else (if BoundHolds(schema, BOUNDS[i], value) then [] else [BOUNDS[i]]) + BoundErrors(schema, value, i + 1)
  }

  function NumberErrors(env: Env, schema: Value, number: Number): (failed: seq<string>)
    ensures failed == [] <==> NumberHolds(env, schema, number)
  {
    BoundErrors(schema, number.asF64, 0)
    + (if MultipleHolds(env, schema, number.asF64) then [] else ["multipleOf"])
  }

  function PropertyCountErrors(schema: Value, count: nat): (failed: seq<string>)
    ensures failed == [] <==> PropertyCountHolds(schema, count)
  {
    (if AtLeast(count, AsCount(schema, "minProperties")) then [] else ["minProperties"])
    + (if AtMost(count, AsCount(schema, "maxProperties")) then [] else ["maxProperties"])
  }

  function ChildPath(path: string, key: string): string {
    if path == "" then key else path + "." + key
  }

  /** Whether two items are equal, found by hashing canonical texts and spending
      one step an item. */
  method HasDuplicate(items: seq<Value>, budget: Budget) returns (found: bool)
    modifies budget
    ensures budget.Since(old(budget.exhausted), old(budget.remaining))
    ensures !budget.exhausted ==> (found <==> HasEqualPair(items))
  {
    var seen: set<string> := {};
    for i := 0 to |items|
      invariant budget.Since(old(budget.exhausted), old(budget.remaining))
      invariant AreTexts(seen, items[..i])
      invariant !HasEqualPair(items[..i])
    {
      var ok := budget.Spend();
      if !ok { return false; }
      var key := new TextBuffer();
      AppendCanonical(items[i], key);
      assert key.text == Canonical(items[i]);
      if key.text in seen {
        SeenIsEqual(seen, items, i);
        return true;
      }
      NewItemIsDistinct(seen, items, i);
      seen := seen + {key.text};
    }
    assert items[..|items|] == items;
    return false;
  }

  ghost predicate AreTexts(seen: set<string>, items: seq<Value>) {
    forall text :: text in seen <==> exists j :: 0 <= j < |items| && text == Canonical(items[j])
  }

  lemma SeenIsEqual(seen: set<string>, items: seq<Value>, i: nat)
    requires i < |items| && AreTexts(seen, items[..i]) && Canonical(items[i]) in seen
    ensures HasEqualPair(items)
  {
    var j :| 0 <= j < i && Canonical(items[i]) == Canonical(items[..i][j]);
    CanonicalIffEqual(items[j], items[i]);
  }

  lemma NewItemIsDistinct(seen: set<string>, items: seq<Value>, i: nat)
    requires i < |items| && !HasEqualPair(items[..i])
    requires AreTexts(seen, items[..i]) && Canonical(items[i]) !in seen
    ensures !HasEqualPair(items[..i + 1]) && AreTexts(seen + {Canonical(items[i])}, items[..i + 1])
  {
    assert items[..i + 1] == items[..i] + [items[i]];
    forall j, k | 0 <= j < k < i + 1 ensures !JsonEqual(items[j], items[k]) {
      if k < i {
        assert !JsonEqual(items[..i][j], items[..i][k]);
      } else {
        assert Canonical(items[..i][j]) in seen;
        CanonicalIffEqual(items[j], items[i]);
      }
    }
    SeenGrows(seen, items[..i], items[i]);
  }

  lemma SeenGrows(seen: set<string>, items: seq<Value>, item: Value)
    requires AreTexts(seen, items)
    ensures AreTexts(seen + {Canonical(item)}, items + [item])
  {
    forall text | text in seen + {Canonical(item)} ensures exists j :: 0 <= j < |items + [item]| && text == Canonical((items + [item])[j]) {
      if text in seen {
        var j :| 0 <= j < |items| && text == Canonical(items[j]);
        assert (items + [item])[j] == items[j];
      } else {
        assert (items + [item])[|items|] == item;
      }
    }
  }

  // ------------------------------------------------------------ evaluators

  /** What an error-collecting step did to its context: the list only grows and
      stays within its cap, a pass adds nothing, a failure adds something while
      there is room, and with budget to spare the verdict is the reference's,
      unless the context was full before it. */
  ghost predicate Reported(before: seq<SchemaError>, after: seq<SchemaError>, valid: bool, exhausted: bool, accepts: bool) {
    && |before| <= |after| <= MAX_ERRORS
    && (valid ==> after == before)
    && (!valid && |before| < MAX_ERRORS ==> |after| > |before|)
    && (!exhausted && valid ==> accepts)
    && (!exhausted && |before| < MAX_ERRORS && accepts ==> valid)
  }

  class Validator {
    const env: Env
    const budget: Budget

    constructor (env: Env, budget: Budget)
      ensures this.env == env && this.budget == budget
    {
      this.env := env;
      this.budget := budget;
    }

    /** Whether `value` matches `schema`. Stops at the first failure. */
    method Check(schema: Value, value: Value, depth: nat) returns (ok: bool)
      modifies budget
      ensures budget.Since(old(budget.exhausted), old(budget.remaining))
      ensures !budget.exhausted ==> ok == Accepts(env, schema, value, depth)
      decreases Left(depth), 0
    {
      if depth > MAX_DEPTH { return false; }
      var spent := budget.Spend();
      if !spent { return false; }
      if schema.Bool? { return schema.flag; }
      if !schema.Obj? { return true; }
      var deeper := depth + 1;
      if !TypeHolds(schema, value) { return false; }
      ok := CheckShape(schema, value, deeper);
      if !ok { return false; }
      ok := CheckRef(schema, value, deeper);
      if !ok { return false; }
      if !ConstHolds(schema, value) { return false; }
      if !EnumHolds(schema, value) { return false; }
      ok := CheckCombined(schema, value, deeper);
    }

    method CheckShape(schema: Value, value: Value, depth: nat) returns (ok: bool)
      modifies budget
      ensures budget.Since(old(budget.exhausted), old(budget.remaining))
      ensures !budget.exhausted ==> ok == ShapeAccepts(env, schema, value, depth)
      decreases Left(depth), 4
    {
      match value {
        case Obj(members) => ok := CheckObject(schema, members, depth);
        case Arr(items) => ok := CheckArray(schema, items, depth);
        case Str(text) => ok := TextErrors(env, schema, text) == [];
        case Num(number) => ok := NumberErrors(env, schema, number) == [];
        case _ => ok := true;
      }
    }

    ghost predicate CombinedAccept(schema: Value, value: Value, depth: nat) {
      && IfAccepts(env, schema, value, depth) && NotAccepts(env, schema, value, depth)
      && AllOfAccepts(env, schema, value, depth) && AnyOfAccepts(env, schema, value, depth) && OneOfAccepts(env, schema, value, depth)
    }

    /** The keywords that combine verdicts on the same value. */
    method CheckCombined(schema: Value, value: Value, depth: nat) returns (ok: bool)
      modifies budget
      ensures budget.Since(old(budget.exhausted), old(budget.remaining))
      ensures !budget.exhausted ==> ok == CombinedAccept(schema, value, depth)
      decreases Left(depth), 2
    {
      ok := CheckIf(schema, value, depth);
      if !ok { return false; }
      ok := CheckNot(schema, value, depth);
      if !ok { return false; }
      ok := CheckAllOf(schema, value, depth);
      if !ok { return false; }
      ok := CheckAnyOf(schema, value, depth);
      if !ok { return false; }
      ok := CheckOneOf(schema, value, depth);
    }

    method CheckRef(schema: Value, value: Value, depth: nat) returns (ok: bool)
      modifies budget
      ensures budget.Since(old(budget.exhausted), old(budget.remaining))
      ensures !budget.exhausted ==> ok == RefAccepts(env, schema, value, depth)
      decreases Left(depth), 1
    {
      var reference := GetText(schema, "$ref");
      if reference.None? { return true; }
      var target := env.resolve(reference.value);
      if target.None? { return false; }
      ok := Check(target.value, value, depth);
    }

    method CheckIf(schema: Value, value: Value, depth: nat) returns (ok: bool)
      modifies budget
      ensures budget.Since(old(budget.exhausted), old(budget.remaining))
      ensures !budget.exhausted ==> ok == IfAccepts(env, schema, value, depth)
      decreases Left(depth), 1
    {
      var condition := Get(schema, "if");
      if condition.None? { return true; }
      var met := Check(condition.value, value, depth);
      var branch := Get(schema, if met then "then" else "else");
      if branch.None? { return true; }
      ok := Check(branch.value, value, depth);
    }

    method CheckNot(schema: Value, value: Value, depth: nat) returns (ok: bool)
      modifies budget
      ensures budget.Since(old(budget.exhausted), old(budget.remaining))
      ensures !budget.exhausted ==> ok == NotAccepts(env, schema, value, depth)
      decreases Left(depth), 1
    {
      var negated := Get(schema, "not");
      if negated.None? { return true; }
      var matched := Check(negated.value, value, depth);
      return !matched;
    }

    method CheckAllOf(schema: Value, value: Value, depth: nat) returns (ok: bool)
      modifies budget
      ensures budget.Since(old(budget.exhausted), old(budget.remaining))
      ensures !budget.exhausted ==> ok == AllOfAccepts(env, schema, value, depth)
      decreases Left(depth), 1
    {
      var branches := GetItems(schema, "allOf");
      if branches.None? { return true; }
      for i := 0 to |branches.value|
        invariant budget.Since(old(budget.exhausted), old(budget.remaining))
        invariant !budget.exhausted ==> forall j | 0 <= j < i :: Accepts(env, branches.value[j], value, depth)
      {
        var matched := Check(branches.value[i], value, depth);
        if !matched { return false; }
      }
      return true;
    }

    method CheckAnyOf(schema: Value, value: Value, depth: nat) returns (ok: bool)
      modifies budget
      ensures budget.Since(old(budget.exhausted), old(budget.remaining))
      ensures !budget.exhausted ==> ok == AnyOfAccepts(env, schema, value, depth)
      decreases Left(depth), 1
    {
      var branches := GetItems(schema, "anyOf");
      if branches.None? { return true; }
      for i := 0 to |branches.value|
        invariant budget.Since(old(budget.exhausted), old(budget.remaining))
        invariant !budget.exhausted ==> forall j | 0 <= j < i :: !Accepts(env, branches.value[j], value, depth)
      {
        var matched := Check(branches.value[i], value, depth);
        if matched { return true; }
      }
      return false;
    }

    method CheckOneOf(schema: Value, value: Value, depth: nat) returns (ok: bool)
      modifies budget
      ensures budget.Since(old(budget.exhausted), old(budget.remaining))
      ensures !budget.exhausted ==> ok == OneOfAccepts(env, schema, value, depth)
      decreases Left(depth), 1
    {
      var branches := GetItems(schema, "oneOf");
      if branches.None? { return true; }
      var passing := 0;
      ghost var first := 0;
      for i := 0 to |branches.value|
        invariant budget.Since(old(budget.exhausted), old(budget.remaining))
        invariant 0 <= passing <= 1
        invariant passing == 1 ==> first < i
        invariant !budget.exhausted ==> forall j | 0 <= j < i ::
          Accepts(env, branches.value[j], value, depth) <==> (passing == 1 && j == first)
      {
        var matched := Check(branches.value[i], value, depth);
        if matched {
          assert !budget.exhausted ==> Accepts(env, branches.value[i], value, depth);
          assert passing == 1 && !budget.exhausted ==> Accepts(env, branches.value[first], value, depth);
          if passing == 1 { return false; }
          passing := passing + 1;
          first := i;
        }
      }
      assert !budget.exhausted && passing == 1 ==> Accepts(env, branches.value[first], value, depth);
      return passing == 1;
    }

    method CheckObject(schema: Value, members: map<string, Value>, depth: nat) returns (ok: bool)
      modifies budget
      ensures budget.Since(old(budget.exhausted), old(budget.remaining))
      ensures !budget.exhausted ==> ok == ObjectAccepts(env, schema, members, depth)
      decreases Left(depth), 3
    {
      if !RequiredHolds(schema, members) { return false; }
      ok := CheckAdditional(schema, members, depth);
      if !ok { return false; }
      ok := CheckPatterns(schema, members, depth);
      if !ok { return false; }
      ok := CheckProperties(schema, members, depth);
      if !ok { return false; }
      ok := CheckNames(schema, members, depth);
      if !ok { return false; }
      ok := PropertyCountErrors(schema, |members|) == [];
    }

    method CheckAdditional(schema: Value, members: map<string, Value>, depth: nat) returns (ok: bool)
      modifies budget
      ensures budget.Since(old(budget.exhausted), old(budget.remaining))
      ensures !budget.exhausted ==> ok == AdditionalAccepts(env, schema, members, depth)
      decreases Left(depth), 1
    {
      var additional := Get(schema, "additionalProperties");
      if additional.None? { return true; }
      var todo := members.Keys;
      while todo != {}
        invariant todo <= members.Keys && (budget.Since(old(budget.exhausted), old(budget.remaining)))
        invariant !budget.exhausted ==> forall key | key in members && key !in todo && !IsDeclaredKey(env, schema, key) ::
          Accepts(env, additional.value, members[key], depth)
        decreases |todo|
      {
        var key :| key in todo;
        todo := todo - {key};
        if !IsDeclaredKey(env, schema, key) {
          var matched := Check(additional.value, members[key], depth);
          if !matched { return false; }
        }
      }
      return true;
    }

    method CheckPatterns(schema: Value, members: map<string, Value>, depth: nat) returns (ok: bool)
      modifies budget
      ensures budget.Since(old(budget.exhausted), old(budget.remaining))
      ensures !budget.exhausted ==> ok == PatternsAccept(env, schema, members, depth)
      decreases Left(depth), 2
    {
      var patterns := GetMembers(schema, "patternProperties");
      if patterns.None? { return true; }
      var todo := patterns.value.Keys;
      while todo != {}
        invariant todo <= patterns.value.Keys && (budget.Since(old(budget.exhausted), old(budget.remaining)))
        invariant !budget.exhausted ==> forall pattern | pattern in patterns.value && pattern !in todo ::
          PatternAccepts(env, pattern, patterns.value[pattern], members, depth)
        decreases |todo|
      {
        var pattern :| pattern in todo;
        todo := todo - {pattern};
        var matched := CheckPattern(pattern, patterns.value[pattern], members, depth);
        if !matched { return false; }
      }
      return true;
    }

    method CheckPattern(pattern: string, nested: Value, members: map<string, Value>, depth: nat) returns (ok: bool)
      modifies budget
      ensures budget.Since(old(budget.exhausted), old(budget.remaining))
      ensures !budget.exhausted ==> ok == PatternAccepts(env, pattern, nested, members, depth)
      decreases Left(depth), 1
    {
      var todo := members.Keys;
      while todo != {}
        invariant todo <= members.Keys && (budget.Since(old(budget.exhausted), old(budget.remaining)))
        invariant !budget.exhausted ==> forall key | key in members && key !in todo && env.matches(pattern, key) == Some(true) ::
          Accepts(env, nested, members[key], depth)
        decreases |todo|
      {
        var key :| key in todo;
        todo := todo - {key};
        if env.matches(pattern, key) == Some(true) {
          var matched := Check(nested, members[key], depth);
          if !matched { return false; }
        }
      }
      return true;
    }

    method CheckProperties(schema: Value, members: map<string, Value>, depth: nat) returns (ok: bool)
      modifies budget
      ensures budget.Since(old(budget.exhausted), old(budget.remaining))
      ensures !budget.exhausted ==> ok == PropertiesAccept(env, schema, members, depth)
      decreases Left(depth), 1
    {
      var properties := GetMembers(schema, "properties");
      if properties.None? { return true; }
      var todo := properties.value.Keys;
      while todo != {}
        invariant todo <= properties.value.Keys && (budget.Since(old(budget.exhausted), old(budget.remaining)))
        invariant !budget.exhausted ==> forall key | key in properties.value && key !in todo && key in members ::
          Accepts(env, properties.value[key], members[key], depth)
        decreases |todo|
      {
        var key :| key in todo;
        todo := todo - {key};
        if key in members {
          var matched := Check(properties.value[key], members[key], depth);
          if !matched { return false; }
        }
      }
      return true;
    }

    method CheckNames(schema: Value, members: map<string, Value>, depth: nat) returns (ok: bool)
      modifies budget
      ensures budget.Since(old(budget.exhausted), old(budget.remaining))
      ensures !budget.exhausted ==> ok == NamesAccept(env, schema, members, depth)
      decreases Left(depth), 1
    {
      var names := Get(schema, "propertyNames");
      if names.None? { return true; }
      var todo := members.Keys;
      while todo != {}
        invariant todo <= members.Keys && (budget.Since(old(budget.exhausted), old(budget.remaining)))
        invariant !budget.exhausted ==> forall key | key in members && key !in todo :: Accepts(env, names.value, Str(key), depth)
        decreases |todo|
      {
        var key :| key in todo;
        todo := todo - {key};
        var matched := Check(names.value, Str(key), depth);
        if !matched { return false; }
      }
      return true;
    }

    method CheckArray(schema: Value, items: seq<Value>, depth: nat) returns (ok: bool)
      modifies budget
      ensures budget.Since(old(budget.exhausted), old(budget.remaining))
      ensures !budget.exhausted ==> ok == ArrayAccepts(env, schema, items, depth)
      decreases Left(depth), 2
    {
      ok := CheckContains(schema, items, depth);
      if !ok { return false; }
      for i := 0 to |items|
        invariant budget.Since(old(budget.exhausted), old(budget.remaining))
        invariant !budget.exhausted ==> ContainsAccepts(env, schema, items, depth)
        invariant !budget.exhausted ==> forall j | 0 <= j < i && ItemSchema(schema, j).Some? ::
          Accepts(env, ItemSchema(schema, j).value, items[j], depth)
      {
        var itemSchema := ItemSchema(schema, i);
        if itemSchema.Some? {
          var matched := Check(itemSchema.value, items[i], depth);
          if !matched { return false; }
        }
      }
      var failed := ItemCountErrors(schema, items);
      ok := failed == [];
    }

    method CheckContains(schema: Value, items: seq<Value>, depth: nat) returns (ok: bool)
      modifies budget
      ensures budget.Since(old(budget.exhausted), old(budget.remaining))
      ensures !budget.exhausted ==> ok == ContainsAccepts(env, schema, items, depth)
      decreases Left(depth), 1
    {
      var contains := Get(schema, "contains");
      if contains.None? { return true; }
      for i := 0 to |items|
        invariant budget.Since(old(budget.exhausted), old(budget.remaining))
        invariant !budget.exhausted ==> forall j | 0 <= j < i :: !Accepts(env, contains.value, items[j], depth)
      {
        var matched := Check(contains.value, items[i], depth);
        if matched { return true; }
      }
      return false;
    }

    method ItemCountErrors(schema: Value, items: seq<Value>) returns (failed: seq<string>)
      modifies budget
      ensures budget.Since(old(budget.exhausted), old(budget.remaining))
      ensures !budget.exhausted ==> (failed == [] <==> ItemCountHolds(schema, items))
    {
      failed := if AtMost(|items|, AsCount(schema, "maxItems")) then [] else ["maxItems"];
      failed := failed + if AtLeast(|items|, AsCount(schema, "minItems")) then [] else ["minItems"];
      if Get(schema, "uniqueItems") == Some(Bool(true)) {
        var duplicate := HasDuplicate(items, budget);
        if duplicate { failed := failed + ["uniqueItems"]; }
      }
    }

    /** Records why `value` fails `schema`, keyword by keyword, and returns
        whether it matched. */
    method ErrorsOf(schema: Value, value: Value, path: string, depth: nat, errors: Errors) returns (valid: bool)
      requires |errors.list| <= MAX_ERRORS
      modifies budget, errors
      ensures budget.Since(old(budget.exhausted), old(budget.remaining))
      ensures Reported(old(errors.list), errors.list, valid, budget.exhausted, Accepts(env, schema, value, depth))
      decreases Left(depth), 0
    {
      if depth > MAX_DEPTH {
        valid := errors.Fail(path, "depth");
        return;
      }
      var spent := budget.Spend();
      if !spent {
        valid := errors.Fail(path, "depth");
        return;
      }
      if schema.Bool? {
        if schema.flag { return true; }
        valid := errors.Fail(path, "false");
        return;
      }
      if !schema.Obj? { return true; }
      if errors.AtCapacity() { return false; }
      valid := KeywordErrors(schema, value, path, depth + 1, errors);
    }

    method KeywordErrors(schema: Value, value: Value, path: string, depth: nat, errors: Errors) returns (valid: bool)
      requires |errors.list| <= MAX_ERRORS
      modifies budget, errors
      ensures budget.Since(old(budget.exhausted), old(budget.remaining))
      ensures Reported(old(errors.list), errors.list, valid, budget.exhausted, KeywordsAccept(schema, value, depth))
      decreases Left(depth), 6
    {
      valid := OwnKeywordErrors(schema, value, path, depth, errors);
      var held := ValueKeywordErrors(schema, value, path, depth, errors);
      valid := valid && held;
      held := BranchKeywordErrors(schema, value, path, depth, errors);
      valid := valid && held;
    }

    ghost predicate KeywordsAccept(schema: Value, value: Value, depth: nat) {
      && TypeHolds(schema, value) && ShapeAccepts(env, schema, value, depth) && RefAccepts(env, schema, value, depth)
      && ConstHolds(schema, value) && EnumHolds(schema, value)
      && CombinedAccept(schema, value, depth)
    }

    method OwnKeywordErrors(schema: Value, value: Value, path: string, depth: nat, errors: Errors) returns (valid: bool)
      requires |errors.list| <= MAX_ERRORS
      modifies budget, errors
      ensures budget.Since(old(budget.exhausted), old(budget.remaining))
      ensures Reported(old(errors.list), errors.list, valid, budget.exhausted,
                       TypeHolds(schema, value) && ShapeAccepts(env, schema, value, depth) && RefAccepts(env, schema, value, depth))
      decreases Left(depth), 5
    {
      valid := true;
      if !TypeHolds(schema, value) { valid := errors.Fail(path, "type"); }
      var held := ShapeErrors(schema, value, path, depth, errors);
      valid := valid && held;
      held := RefErrors(schema, value, path, depth, errors);
      valid := valid && held;
    }

    method ValueKeywordErrors(schema: Value, value: Value, path: string, depth: nat, errors: Errors) returns (valid: bool)
      requires |errors.list| <= MAX_ERRORS
      modifies budget, errors
      ensures budget.Since(old(budget.exhausted), old(budget.remaining))
      ensures Reported(old(errors.list), errors.list, valid, budget.exhausted,
                       ConstHolds(schema, value) && EnumHolds(schema, value) && IfAccepts(env, schema, value, depth) && NotAccepts(env, schema, value, depth))
      decreases Left(depth), 3
    {
      valid := true;
      if !ConstHolds(schema, value) { valid := errors.Fail(path, "const"); }
      if !EnumHolds(schema, value) { valid := errors.Fail(path, "enum"); }
      var held := IfErrors(schema, value, path, depth, errors);
      valid := valid && held;
      held := CheckNot(schema, value, depth);
      if !held { valid := errors.Fail(path, "not"); }
    }

    method BranchKeywordErrors(schema: Value, value: Value, path: string, depth: nat, errors: Errors) returns (valid: bool)
      requires |errors.list| <= MAX_ERRORS
      modifies budget, errors
      ensures budget.Since(old(budget.exhausted), old(budget.remaining))
      ensures Reported(old(errors.list), errors.list, valid, budget.exhausted,
                       AllOfAccepts(env, schema, value, depth) && AnyOfAccepts(env, schema, value, depth) && OneOfAccepts(env, schema, value, depth))
      decreases Left(depth), 3
    {
      valid := AllOfErrors(schema, value, path, depth, errors);
      var held := AnyOfErrors(schema, value, path, depth, errors);
      valid := valid && held;
      held := OneOfErrors(schema, value, path, depth, errors);
      valid := valid && held;
    }

    method AddAll(path: string, failed: seq<string>, errors: Errors) returns (valid: bool)
      requires |errors.list| <= MAX_ERRORS
      modifies errors
      ensures Reported(old(errors.list), errors.list, valid, false, failed == [])
    {
      valid := true;
      for i := 0 to |failed|
        invariant Reported(old(errors.list), errors.list, valid, false, i == 0)
      {
        valid := errors.Fail(path, failed[i]);
      }
    }

    method ShapeErrors(schema: Value, value: Value, path: string, depth: nat, errors: Errors) returns (valid: bool)
      requires |errors.list| <= MAX_ERRORS
      modifies budget, errors
      ensures budget.Since(old(budget.exhausted), old(budget.remaining))
      ensures Reported(old(errors.list), errors.list, valid, budget.exhausted, ShapeAccepts(env, schema, value, depth))
      decreases Left(depth), 4
    {
      match value {
        case Obj(members) => valid := ObjectErrors(schema, members, path, depth, errors);
        case Arr(items) => valid := ArrayErrors(schema, items, path, depth, errors);
        case Str(text) => valid := AddAll(path, TextErrors(env, schema, text), errors);
        case Num(number) => valid := AddAll(path, NumberErrors(env, schema, number), errors);
        case _ => valid := true;
      }
    }

    method RefErrors(schema: Value, value: Value, path: string, depth: nat, errors: Errors) returns (valid: bool)
      requires |errors.list| <= MAX_ERRORS
      modifies budget, errors
      ensures budget.Since(old(budget.exhausted), old(budget.remaining))
      ensures Reported(old(errors.list), errors.list, valid, budget.exhausted, RefAccepts(env, schema, value, depth))
      decreases Left(depth), 1
    {
      var reference := GetText(schema, "$ref");
      if reference.None? { return true; }
      match env.resolve(reference.value) {
        case Some(target) =>
          var nested := new Errors();
          valid := ErrorsOf(target, value, path, depth, nested);
          if !valid { errors.Absorb(nested.list); }
        case None => valid := errors.Fail(path, "$ref");
      }
    }

    method IfErrors(schema: Value, value: Value, path: string, depth: nat, errors: Errors) returns (valid: bool)
      requires |errors.list| <= MAX_ERRORS
      modifies budget, errors
      ensures budget.Since(old(budget.exhausted), old(budget.remaining))
      ensures Reported(old(errors.list), errors.list, valid, budget.exhausted, IfAccepts(env, schema, value, depth))
      decreases Left(depth), 1
    {
      var condition := Get(schema, "if");
      if condition.None? { return true; }
      // The errors of `if` and `then` are dropped, those of `else` kept.
      var discarded := new Errors();
      var met := ErrorsOf(condition.value, value, path, depth, discarded);
      valid := true;
      var branch := Get(schema, if met then "then" else "else");
      if branch.Some? {
        if met {
          valid := ErrorsOf(branch.value, value, path, depth, discarded);
          if !valid { valid := errors.Fail(path, "then"); }
        } else {
          valid := ErrorsOf(branch.value, value, path, depth, errors);
          if !valid { valid := errors.Fail(path, "else"); }
        }
      }
    }

    method AllOfErrors(schema: Value, value: Value, path: string, depth: nat, errors: Errors) returns (valid: bool)
      requires |errors.list| <= MAX_ERRORS
      modifies budget, errors
      ensures budget.Since(old(budget.exhausted), old(budget.remaining))
      ensures Reported(old(errors.list), errors.list, valid, budget.exhausted, AllOfAccepts(env, schema, value, depth))
      decreases Left(depth), 1
    {
      valid := true;
      var branches := GetItems(schema, "allOf");
      if branches.None? { return; }
      ghost var good := true;
      for i := 0 to |branches.value|
        invariant budget.Since(old(budget.exhausted), old(budget.remaining))
        invariant |errors.list| <= MAX_ERRORS
        invariant Reported(old(errors.list), errors.list, valid, budget.exhausted, good)
        invariant good <==> forall j | 0 <= j < i :: Accepts(env, branches.value[j], value, depth)
      {
        var nested := new Errors();
        var matched := ErrorsOf(branches.value[i], value, path, depth, nested);
        good := good && Accepts(env, branches.value[i], value, depth);
        if !matched {
          errors.Absorb(nested.list);
          valid := false;
        }
      }
    }

    /** Evaluates each branch in its own context: how many matched, and the
        errors of those that did not. */
    method BranchErrors(branches: seq<Value>, value: Value, path: string, depth: nat)
        returns (passing: nat, failed: seq<seq<SchemaError>>)
      modifies budget
      ensures budget.Since(old(budget.exhausted), old(budget.remaining))
      ensures passing + |failed| == |branches|
      ensures forall i | 0 <= i < |failed| :: failed[i] != []
      ensures !budget.exhausted ==> passing == Matching(branches, value, depth)
      decreases Left(depth), 1
    {
      passing, failed := 0, [];
      for i := 0 to |branches|
        invariant budget.Since(old(budget.exhausted), old(budget.remaining))
        invariant passing + |failed| == i
        invariant forall j | 0 <= j < |failed| :: failed[j] != []
        invariant !budget.exhausted ==> passing == Matching(branches[..i], value, depth)
      {
        assert branches[..i + 1] == branches[..i] + [branches[i]];
        var nested := new Errors();
        var matched := ErrorsOf(branches[i], value, path, depth, nested);
        if matched { passing := passing + 1; } else { failed := failed + [nested.list]; }
      }
      assert branches[..|branches|] == branches;
    }

    /** How many branches match. */
    ghost function Matching(branches: seq<Value>, value: Value, depth: nat): nat {
      if branches == [] then 0
      else Matching(branches[..|branches| - 1], value, depth)
           + (if Accepts(env, branches[|branches| - 1], value, depth) then 1 else 0)
    }

    lemma {:induction false} MatchingNone(branches: seq<Value>, value: Value, depth: nat)
      ensures Matching(branches, value, depth) == 0
              <==> forall i | 0 <= i < |branches| :: !Accepts(env, branches[i], value, depth)
    {
      if branches != [] {
        var rest := branches[..|branches| - 1];
        MatchingNone(rest, value, depth);
        assert forall i | 0 <= i < |rest| :: branches[i] == rest[i];
      }
    }

    /** `only` is the one branch that matches. */
    ghost predicate OnlyMatch(branches: seq<Value>, value: Value, depth: nat, only: nat) {
      && only < |branches|
      && Accepts(env, branches[only], value, depth)
      && forall j | 0 <= j < |branches| && j != only :: !Accepts(env, branches[j], value, depth)
    }

    lemma {:induction false} MatchingOne(branches: seq<Value>, value: Value, depth: nat) returns (only: nat)
      ensures Matching(branches, value, depth) == 1 ==> OnlyMatch(branches, value, depth, only)
    {
      only := 0;
      if Matching(branches, value, depth) == 1 {
        var rest := branches[..|branches| - 1];
        assert forall i | 0 <= i < |rest| :: branches[i] == rest[i];
        MatchingNone(rest, value, depth);
        only := |rest|;
        if !Accepts(env, branches[|rest|], value, depth) {
          only := MatchingOne(rest, value, depth);
        }
      }
    }

    lemma {:induction false} OneMatching(branches: seq<Value>, value: Value, depth: nat, only: nat)
      requires OnlyMatch(branches, value, depth, only)
      ensures Matching(branches, value, depth) == 1
    {
      var rest := branches[..|branches| - 1];
      assert forall i | 0 <= i < |rest| :: branches[i] == rest[i];
      MatchingNone(rest, value, depth);
      if only < |rest| { OneMatching(rest, value, depth, only); }
    }

    lemma OneOfCounts(schema: Value, value: Value, depth: nat)
      requires GetItems(schema, "oneOf").Some?
      ensures OneOfAccepts(env, schema, value, depth) <==> Matching(GetItems(schema, "oneOf").value, value, depth) == 1
    {
      var branches := GetItems(schema, "oneOf").value;
      var only := MatchingOne(branches, value, depth);
      if OneOfAccepts(env, schema, value, depth) {
        var i := OneOfMatch(schema, value, depth);
        OneMatching(branches, value, depth, i);
      }
    }

    lemma OneOfMatch(schema: Value, value: Value, depth: nat) returns (only: nat)
      requires GetItems(schema, "oneOf").Some? && OneOfAccepts(env, schema, value, depth)
      ensures OnlyMatch(GetItems(schema, "oneOf").value, value, depth, only)
    {
      var branches := GetItems(schema, "oneOf").value;
      only :| 0 <= only < |branches| && Accepts(env, branches[only], value, depth)
              && forall j | 0 <= j < |branches| && j != only :: !Accepts(env, branches[j], value, depth);
    }

    method AbsorbAll(failed: seq<seq<SchemaError>>, errors: Errors)
      requires |errors.list| <= MAX_ERRORS
      modifies errors
      ensures old(errors.list) <= errors.list && |errors.list| <= MAX_ERRORS
      ensures |errors.list| >= |old(errors.list)|
    {
      for i := 0 to |failed|
        invariant old(errors.list) <= errors.list && |old(errors.list)| <= |errors.list| <= MAX_ERRORS
      {
        errors.Absorb(failed[i]);
      }
    }

    method AnyOfErrors(schema: Value, value: Value, path: string, depth: nat, errors: Errors) returns (valid: bool)
      requires |errors.list| <= MAX_ERRORS
      modifies budget, errors
      ensures budget.Since(old(budget.exhausted), old(budget.remaining))
      ensures Reported(old(errors.list), errors.list, valid, budget.exhausted, AnyOfAccepts(env, schema, value, depth))
      decreases Left(depth), 2
    {
      var branches := GetItems(schema, "anyOf");
      if branches.None? { return true; }
      var passing, failed := BranchErrors(branches.value, value, path, depth);
      MatchingNone(branches.value, value, depth);
      valid := true;
      if passing == 0 {
        AbsorbAll(failed, errors);
        valid := errors.Fail(path, "anyOf");
        assert |old(errors.list)| < MAX_ERRORS ==> |errors.list| > |old(errors.list)|;
      }
    }

    method OneOfErrors(schema: Value, value: Value, path: string, depth: nat, errors: Errors) returns (valid: bool)
      requires |errors.list| <= MAX_ERRORS
      modifies budget, errors
      ensures budget.Since(old(budget.exhausted), old(budget.remaining))
      ensures Reported(old(errors.list), errors.list, valid, budget.exhausted, OneOfAccepts(env, schema, value, depth))
      decreases Left(depth), 2
    {
      var branches := GetItems(schema, "oneOf");
      if branches.None? { return true; }
      var passing, failed := BranchErrors(branches.value, value, path, depth);
      OneOfCounts(schema, value, depth);
      valid := true;
      if passing != 1 {
        if passing == 0 { AbsorbAll(failed, errors); }
        valid := errors.Fail(path, "oneOf");
        assert |old(errors.list)| < MAX_ERRORS ==> |errors.list| > |old(errors.list)|;
      }
    }

    method ObjectErrors(schema: Value, members: map<string, Value>, path: string, depth: nat, errors: Errors) returns (valid: bool)
      requires |errors.list| <= MAX_ERRORS
      modifies budget, errors
      ensures budget.Since(old(budget.exhausted), old(budget.remaining))
      ensures Reported(old(errors.list), errors.list, valid, budget.exhausted, ObjectAccepts(env, schema, members, depth))
      decreases Left(depth), 3
    {
      valid := RequiredErrors(schema, members, path, errors);
      var held := AdditionalErrors(schema, members, path, depth, errors);
      valid := valid && held;
      held := PatternsErrors(schema, members, path, depth, errors);
      valid := valid && held;
      held := PropertiesErrors(schema, members, path, depth, errors);
      valid := valid && held;
      held := NamesErrors(schema, members, path, depth, errors);
      valid := valid && held;
      held := AddAll(path, PropertyCountErrors(schema, |members|), errors);
      valid := valid && held;
    }

    method RequiredErrors(schema: Value, members: map<string, Value>, path: string, errors: Errors) returns (valid: bool)
      requires |errors.list| <= MAX_ERRORS
      modifies errors
      ensures Reported(old(errors.list), errors.list, valid, false, RequiredHolds(schema, members))
    {
      valid := true;
      var required := GetItems(schema, "required");
      if required.None? { return; }
      var keys := TextsOf(required.value);
      for i := 0 to |keys|
        invariant errors.list == old(errors.list) && valid
        invariant forall j | 0 <= j < i :: keys[j] in members
      {
        if keys[i] !in members {
          // The first missing property names the whole error.
          valid := errors.Add(SchemaError(path, "required", Some(keys[i])));
          return;
        }
      }
    }

    method AdditionalErrors(schema: Value, members: map<string, Value>, path: string, depth: nat, errors: Errors) returns (valid: bool)
      requires |errors.list| <= MAX_ERRORS
      modifies budget, errors
      ensures budget.Since(old(budget.exhausted), old(budget.remaining))
      ensures Reported(old(errors.list), errors.list, valid, budget.exhausted, AdditionalAccepts(env, schema, members, depth))
      decreases Left(depth), 1
    {
      valid := true;
      var additional := Get(schema, "additionalProperties");
      if additional.None? { return; }
      var todo := members.Keys;
      ghost var good := true;
      while todo != {}
        invariant todo <= members.Keys && (budget.Since(old(budget.exhausted), old(budget.remaining)))
        invariant |errors.list| <= MAX_ERRORS
        invariant Reported(old(errors.list), errors.list, valid, budget.exhausted, good)
        invariant good <==> forall key | key in members && key !in todo && !IsDeclaredKey(env, schema, key) :: Accepts(env, additional.value, members[key], depth)
        decreases |todo|
      {
        var key :| key in todo;
        todo := todo - {key};
        if !IsDeclaredKey(env, schema, key) {
          var matched := ErrorsOf(additional.value, members[key], ChildPath(path, key), depth, errors);
          good := good && Accepts(env, additional.value, members[key], depth);
          valid := valid && matched;
        }
      }
      if !valid { valid := errors.Fail(path, "additionalProperties"); }
    }

    method PatternsErrors(schema: Value, members: map<string, Value>, path: string, depth: nat, errors: Errors) returns (valid: bool)
      requires |errors.list| <= MAX_ERRORS
      modifies budget, errors
      ensures budget.Since(old(budget.exhausted), old(budget.remaining))
      ensures Reported(old(errors.list), errors.list, valid, budget.exhausted, PatternsAccept(env, schema, members, depth))
      decreases Left(depth), 2
    {
      valid := true;
      var patterns := GetMembers(schema, "patternProperties");
      if patterns.None? { return; }
      var todo := patterns.value.Keys;
      ghost var good := true;
      while todo != {}
        invariant todo <= patterns.value.Keys && (budget.Since(old(budget.exhausted), old(budget.remaining)))
        invariant |errors.list| <= MAX_ERRORS
        invariant Reported(old(errors.list), errors.list, valid, budget.exhausted, good)
        invariant good <==> forall pattern | pattern in patterns.value && pattern !in todo :: PatternAccepts(env, pattern, patterns.value[pattern], members, depth)
        decreases |todo|
      {
        var pattern :| pattern in todo;
        todo := todo - {pattern};
        var matched := PatternErrors(pattern, patterns.value[pattern], members, path, depth, errors);
        good := good && PatternAccepts(env, pattern, patterns.value[pattern], members, depth);
        valid := valid && matched;
      }
    }

    method PatternErrors(pattern: string, nested: Value, members: map<string, Value>, path: string, depth: nat, errors: Errors) returns (valid: bool)
      requires |errors.list| <= MAX_ERRORS
      modifies budget, errors
      ensures budget.Since(old(budget.exhausted), old(budget.remaining))
      ensures Reported(old(errors.list), errors.list, valid, budget.exhausted, PatternAccepts(env, pattern, nested, members, depth))
      decreases Left(depth), 1
    {
      valid := true;
      var todo := members.Keys;
      ghost var good := true;
      while todo != {}
        invariant todo <= members.Keys && (budget.Since(old(budget.exhausted), old(budget.remaining)))
        invariant |errors.list| <= MAX_ERRORS
        invariant Reported(old(errors.list), errors.list, valid, budget.exhausted, good)
        invariant good <==> forall key | key in members && key !in todo && env.matches(pattern, key) == Some(true) :: Accepts(env, nested, members[key], depth)
        decreases |todo|
      {
        var key :| key in todo;
        todo := todo - {key};
        if env.matches(pattern, key) == Some(true) {
          var matched := ErrorsOf(nested, members[key], ChildPath(path, key), depth, errors);
          good := good && Accepts(env, nested, members[key], depth);
          valid := valid && matched;
        }
      }
    }

    method PropertiesErrors(schema: Value, members: map<string, Value>, path: string, depth: nat, errors: Errors) returns (valid: bool)
      requires |errors.list| <= MAX_ERRORS
      modifies budget, errors
      ensures budget.Since(old(budget.exhausted), old(budget.remaining))
      ensures Reported(old(errors.list), errors.list, valid, budget.exhausted, PropertiesAccept(env, schema, members, depth))
      decreases Left(depth), 1
    {
      valid := true;
      var properties := GetMembers(schema, "properties");
      if properties.None? { return; }
      var todo := properties.value.Keys;
      ghost var good := true;
      while todo != {}
        invariant todo <= properties.value.Keys && (budget.Since(old(budget.exhausted), old(budget.remaining)))
        invariant |errors.list| <= MAX_ERRORS
        invariant Reported(old(errors.list), errors.list, valid, budget.exhausted, good)
        invariant good <==> forall key | key in properties.value && key !in todo && key in members :: Accepts(env, properties.value[key], members[key], depth)
        decreases |todo|
      {
        var key :| key in todo;
        todo := todo - {key};
        if key in members {
          var matched := ErrorsOf(properties.value[key], members[key], ChildPath(path, key), depth, errors);
          good := good && Accepts(env, properties.value[key], members[key], depth);
          valid := valid && matched;
        }
      }
    }

    method NamesErrors(schema: Value, members: map<string, Value>, path: string, depth: nat, errors: Errors) returns (valid: bool)
      requires |errors.list| <= MAX_ERRORS
      modifies budget, errors
      ensures budget.Since(old(budget.exhausted), old(budget.remaining))
      ensures Reported(old(errors.list), errors.list, valid, budget.exhausted, NamesAccept(env, schema, members, depth))
      decreases Left(depth), 1
    {
      valid := true;
      var names := Get(schema, "propertyNames");
      if names.None? { return; }
      var todo := members.Keys;
      ghost var good := true;
      while todo != {}
        invariant todo <= members.Keys && (budget.Since(old(budget.exhausted), old(budget.remaining)))
        invariant |errors.list| <= MAX_ERRORS
        invariant Reported(old(errors.list), errors.list, valid, budget.exhausted, good)
        invariant good <==> forall key | key in members && key !in todo :: Accepts(env, names.value, Str(key), depth)
        decreases |todo|
      {
        var key :| key in todo;
        todo := todo - {key};
        var matched := ErrorsOf(names.value, Str(key), ChildPath(path, key), depth, errors);
        good := good && Accepts(env, names.value, Str(key), depth);
        valid := valid && matched;
      }
      if !valid { valid := errors.Fail(path, "propertyNames"); }
    }

    /** Every item from `from` on against one schema, or by position. */
    method ItemsErrors(schemas: seq<Value>, rest: Option<Value>, items: seq<Value>, from: nat, to: nat, path: string, depth: nat, errors: Errors)
        returns (valid: bool)
      requires from <= to <= |items| && |errors.list| <= MAX_ERRORS
      modifies budget, errors
      ensures budget.Since(old(budget.exhausted), old(budget.remaining))
      ensures Reported(old(errors.list), errors.list, valid, budget.exhausted,
                       PartAccepts(schemas, rest, items, from, to, depth))
      decreases Left(depth), 1
    {
      valid := true;
      ghost var good := true;
      for i := from to to
        invariant budget.Since(old(budget.exhausted), old(budget.remaining))
        invariant |errors.list| <= MAX_ERRORS
        invariant Reported(old(errors.list), errors.list, valid, budget.exhausted, good)
        invariant good <==> PartAccepts(schemas, rest, items, from, i, depth)
      {
        var itemSchema := At(schemas, rest, i);
        if itemSchema.Some? {
          var matched := ErrorsOf(itemSchema.value, items[i], ChildPath(path, DecimalText(i)), depth, errors);
          good := good && Accepts(env, itemSchema.value, items[i], depth);
          valid := valid && matched;
        }
      }
    }

    function At(schemas: seq<Value>, rest: Option<Value>, i: nat): Option<Value> {
      if i < |schemas| then Some(schemas[i]) else rest
    }

    /** The items from `from` up to `to` match the schemas at their positions. */
    ghost predicate PartAccepts(schemas: seq<Value>, rest: Option<Value>, items: seq<Value>, from: nat, to: nat, depth: nat)
      requires to <= |items|
    {
      forall i | from <= i < to && At(schemas, rest, i).Some? :: Accepts(env, At(schemas, rest, i).value, items[i], depth)
    }

    lemma ItemsInParts(schema: Value, items: seq<Value>, split: nat, depth: nat)
      requires split <= |items|
      ensures var (prefix, rest) := ArrayItemSchemas(schema);
              ItemsAccept(env, schema, items, depth)
              <==> PartAccepts(prefix, rest, items, 0, split, depth) && PartAccepts(prefix, rest, items, split, |items|, depth)
    {
      var (prefix, rest) := ArrayItemSchemas(schema);
      assert forall i: nat :: ItemSchema(schema, i) == At(prefix, rest, i);
    }

    method ArrayErrors(schema: Value, items: seq<Value>, path: string, depth: nat, errors: Errors) returns (valid: bool)
      requires |errors.list| <= MAX_ERRORS
      modifies budget, errors
      ensures budget.Since(old(budget.exhausted), old(budget.remaining))
      ensures Reported(old(errors.list), errors.list, valid, budget.exhausted, ArrayAccepts(env, schema, items, depth))
      decreases Left(depth), 3
    {
      var (prefix, rest) := ArrayItemSchemas(schema);
      var split := if |prefix| < |items| then |prefix| else |items|;
      var tupleItems := GetItems(schema, "items").Some?;
      ItemsInParts(schema, items, split, depth);
      // `additionalItems` and `contains` come before `items`, and
      // `uniqueItems` after `prefixItems`.
      valid := true;
      if tupleItems {
        valid := ItemsErrors(prefix, rest, items, split, |items|, path, depth, errors);
      }
      var held := CheckContains(schema, items, depth);
      if !held { valid := errors.Fail(path, "contains"); }
      held := LaterArrayErrors(schema, items, split, path, depth, errors);
      valid := valid && held;
    }

    method LaterArrayErrors(schema: Value, items: seq<Value>, split: nat, path: string, depth: nat, errors: Errors) returns (valid: bool)
      requires split <= |items| && |errors.list| <= MAX_ERRORS
      modifies budget, errors
      ensures budget.Since(old(budget.exhausted), old(budget.remaining))
      ensures var (prefix, rest) := ArrayItemSchemas(schema);
              Reported(old(errors.list), errors.list, valid, budget.exhausted,
                       && PartAccepts(prefix, rest, items, 0, split, depth)
                       && (GetItems(schema, "items").Some? || PartAccepts(prefix, rest, items, split, |items|, depth))
                       && ItemCountHolds(schema, items))
      decreases Left(depth), 2
    {
      var (prefix, rest) := ArrayItemSchemas(schema);
      var tupleItems := GetItems(schema, "items").Some?;
      if tupleItems {
        valid := ItemsErrors(prefix, rest, items, 0, split, path, depth, errors);
      } else {
        valid := ItemsErrors(prefix, rest, items, split, |items|, path, depth, errors);
      }
      var counts := ItemCountErrors(schema, items);
      var unique := "uniqueItems" in counts;
      var held := AddAll(path, Without(counts, "uniqueItems"), errors);
      valid := valid && held;
      if !tupleItems {
        held := ItemsErrors(prefix, rest, items, 0, split, path, depth, errors);
        valid := valid && held;
      }
      if unique { valid := errors.Fail(path, "uniqueItems"); }
    }
  }

  function Without(keywords: seq<string>, keyword: string): (kept: seq<string>)
    ensures kept == [] && keyword !in keywords ==> keywords == []
    ensures keywords == [] ==> kept == []
  {
    if keywords == [] then []
    else (if keywords[0] == keyword then [] else [keywords[0]]) + Without(keywords[1..], keyword)
  }
}
