/** The canonical text two values share exactly when they are equal, and the
    duplicate test that hashes it. */
module CanonicalJson {
  import opened JsNumbers
  import opened Json

  // -------------------------------------------------------- concatenation

  lemma Regroup(a: string, b: string, c: string)
    ensures a + b + c == a + (b + c)
  {
  }

  lemma Regroup4(a: string, b: string, c: string, d: string)
    ensures a + b + c + d == a + (b + (c + d))
  {
  }

  lemma Cancel(p: string, s: string, t: string)
    requires p + s == p + t
    ensures s == t
  {
    assert (p + s)[|p|..] == s && (p + t)[|p|..] == t;
  }

  lemma HeadOf(p: string, s: string)
    requires p != ""
    ensures p + s != "" && (p + s)[0] == p[0]
  {
  }

  // ------------------------------------------------------------ key order

  predicate TextLess(a: string, b: string) {
    b != "" && (a == "" || a[0] < b[0] || (a[0] == b[0] && TextLess(a[1..], b[1..])))
  }

  lemma {:induction false} TextLessTotal(a: string, b: string)
    ensures !(TextLess(a, b) && TextLess(b, a))
    ensures a == b || TextLess(a, b) || TextLess(b, a)
  {
    if a != "" && b != "" {
      TextLessTotal(a[1..], b[1..]);
      assert a[0] == b[0] && a[1..] == b[1..] ==> [a[0]] + a[1..] == [b[0]] + b[1..];
    }
  }

  lemma {:induction false} TextLessTransitive(a: string, b: string, c: string)
    requires TextLess(a, b) && TextLess(b, c)
    ensures TextLess(a, c)
  {
    if a != "" && a[0] == b[0] && b[0] == c[0] {
      TextLessTransitive(a[1..], b[1..], c[1..]);
    }
  }

  predicate IsLeast(key: string, keys: set<string>) {
    key in keys && forall k | k in keys :: k == key || TextLess(key, k)
  }

  lemma {:induction false} LeastExists(keys: set<string>) returns (least: string)
    requires keys != {}
    ensures IsLeast(least, keys)
  {
    var k :| k in keys;
    var rest := keys - {k};
    assert keys == {k} + rest;
    if rest == {} {
      least := k;
    } else {
      var m := LeastExists(rest);
      TextLessTotal(k, m);
      if TextLess(k, m) {
        forall j | j in keys ensures j == k || TextLess(k, j) {
          if j != k && j != m { TextLessTransitive(k, m, j); }
        }
        least := k;
      } else {
        least := m;
      }
    }
  }

  lemma LeastIsOne(keys: set<string>)
    requires keys != {}
    ensures exists key :: key in keys && IsLeast(key, keys)
    ensures forall a, b | IsLeast(a, keys) && IsLeast(b, keys) :: a == b
  {
    var _ := LeastExists(keys);
    forall a, b | IsLeast(a, keys) && IsLeast(b, keys) ensures a == b { TextLessTotal(a, b); }
  }

  function LeastKey(keys: set<string>): (key: string)
    requires keys != {}
    ensures IsLeast(key, keys)
  {
    LeastIsOne(keys);
    var key :| key in keys && IsLeast(key, keys);
    key
  }

  /** The keys in ascending order. */
  function SortedKeys(keys: set<string>): (sorted: seq<string>)
    ensures |sorted| == |keys|
    ensures forall k :: k in sorted <==> k in keys
    ensures forall i, j | 0 <= i < j < |sorted| :: TextLess(sorted[i], sorted[j])
  {
    if keys == {} then [] else
      var least := LeastKey(keys);
      [least] + SortedKeys(keys - {least})
  }

  // ---------------------------------------------------------- quoted text

  function HexChar(d: nat): (c: char)
    requires d < 16
    ensures c != '"' && c != '\\'
  {
    if d < 10 then DigitChar(d) else (d - 10 + 'a' as int) as char
  }

  function EscapedChar(c: char): (s: string)
    ensures |s| > 0 && s[0] != '"'
  {
    if c == '"' then "\\\""
    else if c == '\\' then "\\\\"
    else if c == 8 as char then "\\b"
    else if c == 12 as char then "\\f"
    else if c == '\n' then "\\n"
    else if c == '\r' then "\\r"
    else if c == '\t' then "\\t"
    else if c < ' ' then ['\\', 'u', '0', '0', HexChar(c as int / 16), HexChar(c as int % 16)]
    else [c]
  }

  function Escaped(s: string): string {
    if s == "" then "" else EscapedChar(s[0]) + Escaped(s[1..])
  }

  /** A JSON string literal. */
  function Quoted(s: string): string { "\"" + (Escaped(s) + "\"") }

  method WriteString(text: string, s: string) returns (out: string)
    ensures out == text + Quoted(s)
  {
    out := text + "\"";
    var body := "";
    for i := 0 to |s|
      invariant body == Escaped(s[..i])
      invariant out == text + "\"" + body
    {
      var piece := EscapedChar(s[i]);
      EscapedAppend(s[..i], s[i]);
      assert s[..i + 1] == s[..i] + [s[i]];
      Regroup(text + "\"", body, piece);
      body := body + piece;
      out := out + piece;
    }
    assert s[..|s|] == s;
    out := out + "\"";
    Regroup4(text, "\"", body, "\"");
  }

  lemma {:induction false} EscapedAppend(s: string, c: char)
    ensures Escaped(s + [c]) == Escaped(s) + EscapedChar(c)
  {
    if s == "" {
      assert [c][1..] == "";
    } else {
      assert (s + [c])[1..] == s[1..] + [c];
      EscapedAppend(s[1..], c);
      Regroup(EscapedChar(s[0]), Escaped(s[1..]), EscapedChar(c));
    }
  }

  lemma EscapedCharUnambiguous(c: char, d: char, x: string, y: string)
    requires EscapedChar(c) + x == EscapedChar(d) + y
    ensures c == d && x == y
  {
    var p, q := EscapedChar(c), EscapedChar(d);
    var s := p + x;
    assert s[0] == p[0] == q[0];
    if p[0] == '\\' {
      assert s[1] == p[1] == q[1];
      if p[1] == 'u' {
        assert s[4] == p[4] == q[4];
        assert s[5] == p[5] == q[5];
      }
    }
    assert |p| == |q|;
    assert s[|p|..] == x && s[|q|..] == y;
  }

  lemma {:induction false} EscapedUnambiguous(a: string, b: string, x: string, y: string)
    requires Escaped(a) + ("\"" + x) == Escaped(b) + ("\"" + y)
    ensures a == b && x == y
    decreases |a| + |b|
  {
    EscapedFirst(a, x);
    EscapedFirst(b, y);
    if a == "" || b == "" {
      Cancel("\"", x, y);
    } else {
      EscapedCharUnambiguous(a[0], b[0], Escaped(a[1..]) + ("\"" + x), Escaped(b[1..]) + ("\"" + y));
      EscapedUnambiguous(a[1..], b[1..], x, y);
      assert a == [a[0]] + a[1..] && b == [b[0]] + b[1..];
    }
  }

  lemma EscapedFirst(a: string, x: string)
    ensures var s := Escaped(a) + ("\"" + x);
            && s != ""
            && (a == "" <==> s[0] == '"')
            && (a == "" ==> s == "\"" + x)
            && (a != "" ==> s == EscapedChar(a[0]) + (Escaped(a[1..]) + ("\"" + x)))
  {
    if a != "" {
      Regroup(EscapedChar(a[0]), Escaped(a[1..]), "\"" + x);
      HeadOf(EscapedChar(a[0]), Escaped(a[1..]) + ("\"" + x));
    }
  }

  /** A quoted text ends where it says: nothing after it can change it. */
  lemma QuotedUnambiguous(a: string, b: string, x: string, y: string)
    requires Quoted(a) + x == Quoted(b) + y
    ensures a == b && x == y
  {
    forall s, z ensures Quoted(s) + z == "\"" + (Escaped(s) + ("\"" + z)) {
      Regroup("\"", Escaped(s) + "\"", z);
      Regroup(Escaped(s), "\"", z);
    }
    Cancel("\"", Escaped(a) + ("\"" + x), Escaped(b) + ("\"" + y));
    EscapedUnambiguous(a, b, x, y);
  }

  // -------------------------------------------------------- canonical text

  function Canonical(value: Value): string
    decreases value
  {
    match value
    case Null => "null"
    case Bool(flag) => if flag then "true" else "false"
    case Num(number) => NumberText(number.asF64)
    case Str(text) => Quoted(text)
    case Arr(items) => "[" + ItemsText(items, true)
    case Obj(members) => "{" + MembersText(value, SortedKeys(members.Keys), true)
  }

  /** The items left to write, with the closing bracket. */
  function ItemsText(items: seq<Value>, first: bool): string
    decreases items, 0
  {
    if items == [] then "]"
    else Separator(first) + (Canonical(items[0]) + ItemsText(items[1..], false))
  }

  function Separator(first: bool): string { if first then "" else "," }

  /** The members left to write, with the closing brace. */
  function MembersText(owner: Value, keys: seq<string>, first: bool): string
    requires owner.Obj? && forall k | k in keys :: k in owner.members
    decreases owner, 0, |keys|
  {
    if keys == [] then "}"
    else
      Separator(first)
      + (Quoted(keys[0]) + (":" + (Canonical(owner.members[keys[0]]) + MembersText(owner, keys[1..], false))))
  }

  predicate IsDelimiter(c: char) { c == ',' || c == ']' || c == '}' }

  /** Text that may follow a value inside a larger text. */
  predicate Delimited(s: string) { s == "" || IsDelimiter(s[0]) }

  predicate NoDelimiter(s: string) { forall i | 0 <= i < |s| :: !IsDelimiter(s[i]) }

  predicate IsScalar(value: Value) { value.Null? || value.Bool? || value.Num? }

  lemma ScalarText(value: Value)
    requires IsScalar(value)
    ensures NoDelimiter(Canonical(value)) && |Canonical(value)| > 0
    ensures Canonical(value)[0] !in {'"', '[', '{'}
    ensures value.Num? <==> Canonical(value)[0] == '-' || IsDigit(Canonical(value)[0])
  {
    if value.Num? { NumberHasNoDelimiter(value.number.asF64); }
  }

  lemma NumberHasNoDelimiter(d: Double)
    requires d.Zero? || d.Finite?
    ensures NoDelimiter(NumberText(d))
  {
    if d.Finite? {
      BodyHasNoDelimiter(d.digits, d.exponent + 1);
    }
  }

  lemma DigitsAreNoDelimiters(s: string)
    requires AllDigits(s)
    ensures NoDelimiter(s)
  {
    forall i | 0 <= i < |s| ensures !IsDelimiter(s[i]) { assert IsDigit(s[i]); }
  }

  lemma BodyHasNoDelimiter(digits: Digits, n: int)
    ensures NoDelimiter(Body(digits, n))
  {
    DigitsAreNoDelimiters(digits);
    if -6 < n <= 21 {
      forall m: nat ensures NoDelimiter(Zeros(m)) { DigitsAreNoDelimiters(Zeros(m)); }
    } else {
      var power := DecimalText(if n >= 1 then n - 1 else 1 - n);
      DigitsAreNoDelimiters(power);
      assert NoDelimiter(Power(n - 1));
    }
  }

  lemma NotShorter(s: string, t: string, x: string, y: string)
    requires NoDelimiter(t) && Delimited(x)
    requires s + x == t + y
    ensures |s| >= |t|
  {
    assert forall i | 0 <= i < |t| :: (t + y)[i] == t[i];
    assert x != "" ==> (s + x)[|s|] == x[0];
    assert |s + x| == |t + y|;
  }

  lemma ScalarUnambiguous(s: string, t: string, x: string, y: string)
    requires NoDelimiter(s) && NoDelimiter(t) && Delimited(x) && Delimited(y)
    requires s + x == t + y
    ensures s == t && x == y
  {
    NotShorter(s, t, x, y);
    NotShorter(t, s, y, x);
    assert (s + x)[..|s|] == s && (t + y)[..|t|] == t;
    Cancel(s, x, y);
  }

  lemma FirstChar(value: Value)
    ensures var s := Canonical(value);
            && s != "" && !IsDelimiter(s[0])
            && (value.Str? <==> s[0] == '"')
            && (value.Arr? <==> s[0] == '[')
            && (value.Obj? <==> s[0] == '{')
  {
    if IsScalar(value) { ScalarText(value); }
  }

  /** The unambiguous-prefix property: a canonical text cannot be read as
      another value's, whatever delimited text follows either. */
  lemma {:induction false} CanonicalUnambiguous(a: Value, b: Value, x: string, y: string)
    requires Delimited(x) && Delimited(y)
    requires Canonical(a) + x == Canonical(b) + y
    ensures JsonEqual(a, b) && x == y
    decreases a
  {
    FirstChar(a);
    FirstChar(b);
    HeadOf(Canonical(a), x);
    HeadOf(Canonical(b), y);
    if IsScalar(a) {
      ScalarText(a);
      ScalarText(b);
      ScalarUnambiguous(Canonical(a), Canonical(b), x, y);
      if a.Num? { NumberTextInjective(a.number.asF64, b.number.asF64); }
    } else if a.Str? {
      QuotedUnambiguous(a.text, b.text, x, y);
    } else if a.Arr? {
      Regroup("[", ItemsText(a.items, true), x);
      Regroup("[", ItemsText(b.items, true), y);
      Cancel("[", ItemsText(a.items, true) + x, ItemsText(b.items, true) + y);
      ItemsUnambiguous(a.items, b.items, true, x, y);
    } else {
      ObjectsUnambiguous(a, b, x, y);
    }
  }

  lemma {:induction false} ObjectsUnambiguous(a: Value, b: Value, x: string, y: string)
    requires a.Obj? && b.Obj? && Canonical(a) + x == Canonical(b) + y
    ensures JsonEqual(a, b) && x == y
    decreases a, 1
  {
    var ka, kb := SortedKeys(a.members.Keys), SortedKeys(b.members.Keys);
    Regroup("{", MembersText(a, ka, true), x);
    Regroup("{", MembersText(b, kb, true), y);
    Cancel("{", MembersText(a, ka, true) + x, MembersText(b, kb, true) + y);
    MembersUnambiguous(a, b, ka, kb, true, x, y);
    SameKeys(a.members.Keys, b.members.Keys);
  }

  lemma SameKeys(a: set<string>, b: set<string>)
    requires SortedKeys(a) == SortedKeys(b)
    ensures a == b
  {
    assert forall k :: k in a <==> k in SortedKeys(a);
    assert forall k :: k in b <==> k in SortedKeys(b);
  }

  lemma {:induction false} ItemsUnambiguous(a: seq<Value>, b: seq<Value>, first: bool, x: string, y: string)
    requires ItemsText(a, first) + x == ItemsText(b, first) + y
    ensures |a| == |b| && (forall i | 0 <= i < |a| :: JsonEqual(a[i], b[i])) && x == y
    decreases a, 0
  {
    ItemsFirst(a, first, x);
    ItemsFirst(b, first, y);
    if a == [] || b == [] {
      Cancel("]", x, y);
    } else {
      var restA, restB := ItemsText(a[1..], false) + x, ItemsText(b[1..], false) + y;
      Cancel(Separator(first), Canonical(a[0]) + restA, Canonical(b[0]) + restB);
      ItemsFirst(a[1..], false, x);
      ItemsFirst(b[1..], false, y);
      CanonicalUnambiguous(a[0], b[0], restA, restB);
      ItemsUnambiguous(a[1..], b[1..], false, x, y);
      assert a == [a[0]] + a[1..] && b == [b[0]] + b[1..];
    }
  }

  lemma ItemsFirst(a: seq<Value>, first: bool, x: string)
    ensures var s := ItemsText(a, first) + x;
            && s != ""
            && (a == [] <==> s[0] == ']')
            && (a == [] ==> s == "]" + x)
            && (a != [] ==> s == Separator(first) + (Canonical(a[0]) + (ItemsText(a[1..], false) + x)))
            && (!first ==> Delimited(s))
  {
    if a != [] {
      var c, r := Canonical(a[0]), ItemsText(a[1..], false);
      FirstChar(a[0]);
      HeadOf(c, r + x);
      Regroup(Separator(first), c + r, x);
      Regroup(c, r, x);
    }
  }

  lemma {:induction false} MembersUnambiguous(a: Value, b: Value, ka: seq<string>, kb: seq<string>, first: bool, x: string, y: string)
    requires a.Obj? && b.Obj?
    requires (forall k | k in ka :: k in a.members) && forall k | k in kb :: k in b.members
    requires MembersText(a, ka, first) + x == MembersText(b, kb, first) + y
    ensures ka == kb && x == y
    ensures forall k | k in ka :: JsonEqual(a.members[k], b.members[k])
    decreases a, 0, |ka|
  {
    MembersFirst(a, ka, first, x);
    MembersFirst(b, kb, first, y);
    if ka == [] || kb == [] {
      Cancel("}", x, y);
    } else {
      var restA, restB := MembersText(a, ka[1..], false) + x, MembersText(b, kb[1..], false) + y;
      var va, vb := Canonical(a.members[ka[0]]) + restA, Canonical(b.members[kb[0]]) + restB;
      Cancel(Separator(first), Quoted(ka[0]) + (":" + va), Quoted(kb[0]) + (":" + vb));
      QuotedUnambiguous(ka[0], kb[0], ":" + va, ":" + vb);
      Cancel(":", va, vb);
      MembersFirst(a, ka[1..], false, x);
      MembersFirst(b, kb[1..], false, y);
      CanonicalUnambiguous(a.members[ka[0]], b.members[kb[0]], restA, restB);
      MembersUnambiguous(a, b, ka[1..], kb[1..], false, x, y);
      assert ka == [ka[0]] + ka[1..] && kb == [kb[0]] + kb[1..];
    }
  }

  lemma MembersFirst(a: Value, keys: seq<string>, first: bool, x: string)
    requires a.Obj? && forall k | k in keys :: k in a.members
    ensures var s := MembersText(a, keys, first) + x;
            && s != ""
            && (keys == [] <==> s[0] == '}')
            && (keys == [] ==> s == "}" + x)
            && (keys != [] ==>
                s == Separator(first) + (Quoted(keys[0]) + (":" + (Canonical(a.members[keys[0]]) + (MembersText(a, keys[1..], false) + x)))))
            && (!first ==> Delimited(s))
  {
    if keys != [] {
      var q, c, r := Quoted(keys[0]), Canonical(a.members[keys[0]]), MembersText(a, keys[1..], false);
      HeadOf(q, (":" + (c + r)) + x);
      Regroup(Separator(first), q + (":" + (c + r)), x);
      Regroup(q, ":" + (c + r), x);
      Regroup(":", c + r, x);
      Regroup(c, r, x);
    }
  }

  lemma {:induction false} EqualSameText(a: Value, b: Value)
    requires JsonEqual(a, b)
    ensures Canonical(a) == Canonical(b)
    decreases a
  {
    match a {
      case Num(number) => NumberTextInjective(number.asF64, b.number.asF64);
      case Arr(items) => EqualItemsSameText(items, b.items, true);
      case Obj(members) =>
        EqualKeys(members, b.members);
        EqualMembersSameText(a, b, SortedKeys(members.Keys), true);
      case _ =>
    }
  }

  lemma {:induction false} EqualItemsSameText(a: seq<Value>, b: seq<Value>, first: bool)
    requires |a| == |b| && forall i | 0 <= i < |a| :: JsonEqual(a[i], b[i])
    ensures ItemsText(a, first) == ItemsText(b, first)
    decreases a, 0
  {
    if a != [] {
      EqualSameText(a[0], b[0]);
      EqualItemsSameText(a[1..], b[1..], false);
    }
  }

  lemma {:induction false} EqualMembersSameText(a: Value, b: Value, keys: seq<string>, first: bool)
    requires a.Obj? && b.Obj?
    requires forall k | k in keys :: k in a.members && k in b.members && JsonEqual(a.members[k], b.members[k])
    ensures MembersText(a, keys, first) == MembersText(b, keys, first)
    decreases a, 0, |keys|
  {
    if keys != [] {
      EqualSameText(a.members[keys[0]], b.members[keys[0]]);
      EqualMembersSameText(a, b, keys[1..], false);
    }
  }

  /** As many members, all of them also in the other object: the same keys. */
  lemma EqualKeys(a: map<string, Value>, b: map<string, Value>)
    requires |a| == |b| && forall k | k in a :: k in b
    ensures a.Keys == b.Keys
  {
    SubsetOfSameSize(a.Keys, b.Keys);
  }

  lemma {:induction false} SubsetOfSameSize(a: set<string>, b: set<string>)
    requires a <= b && |a| == |b|
    ensures a == b
  {
    assert |b - a| == |b| - |a|;
    assert b == a + (b - a);
  }

  /** Two values have one canonical text exactly when they are equal. */
  lemma CanonicalIffEqual(a: Value, b: Value)
    ensures Canonical(a) == Canonical(b) <==> JsonEqual(a, b)
  {
    if Canonical(a) == Canonical(b) {
      assert Canonical(a) + "" == Canonical(b) + "";
      CanonicalUnambiguous(a, b, "", "");
    }
    if JsonEqual(a, b) { EqualSameText(a, b); }
  }

  class TextBuffer {
    var text: string

    constructor ()
      ensures text == ""
    {
      text := "";
    }

    method Push(s: string)
      modifies this
      ensures text == old(text) + s
    {
      text := text + s;
    }
  }

  method AppendCanonical(value: Value, out: TextBuffer)
    modifies out
    ensures out.text == old(out.text) + Canonical(value)
    decreases value, 2
  {
    match value {
      case Arr(_) => AppendArray(value, out);
      case Obj(_) => AppendObject(value, out);
      case _ => out.Push(Canonical(value));
    }
  }

  method AppendArray(value: Value, out: TextBuffer)
    requires value.Arr?
    modifies out
    ensures out.text == old(out.text) + Canonical(value)
    decreases value, 1
  {
    var items := value.items;
    Regroup(out.text, "[", ItemsText(items, true));
    out.Push("[");
    assert items[0..] == items;
    for i := 0 to |items|
      invariant out.text + ItemsText(items[i..], i == 0) == old(out.text) + Canonical(value)
    {
      AppendItem(items, i, out);
    }
    out.Push("]");
  }

  method AppendObject(value: Value, out: TextBuffer)
    requires value.Obj?
    modifies out
    ensures out.text == old(out.text) + Canonical(value)
    decreases value, 1
  {
    var keys := SortedKeys(value.members.Keys);
    Regroup(out.text, "{", MembersText(value, keys, true));
    out.Push("{");
    assert keys[0..] == keys;
    for i := 0 to |keys|
      invariant out.text + MembersText(value, keys[i..], i == 0) == old(out.text) + Canonical(value)
    {
      AppendMember(value, keys, i, out);
    }
    out.Push("}");
  }

  method AppendItem(items: seq<Value>, i: nat, out: TextBuffer)
    requires i < |items|
    modifies out
    ensures out.text + ItemsText(items[i + 1..], false) == old(out.text) + ItemsText(items[i..], i == 0)
    decreases items, 0
  {
    var rest, item := ItemsText(items[i + 1..], false), Canonical(items[i]);
    assert items[i..][0] == items[i] && items[i..][1..] == items[i + 1..];
    Regroup(out.text, Separator(i == 0), item + rest);
    if i > 0 { out.Push(","); } else { assert out.text + "" == out.text; }
    Regroup(out.text, item, rest);
    AppendCanonical(items[i], out);
  }

  method AppendMember(owner: Value, keys: seq<string>, i: nat, out: TextBuffer)
    requires owner.Obj? && (forall k | k in keys :: k in owner.members) && i < |keys|
    modifies out
    ensures out.text + MembersText(owner, keys[i + 1..], false) == old(out.text) + MembersText(owner, keys[i..], i == 0)
    decreases owner, 0
  {
    var rest := MembersText(owner, keys[i + 1..], false);
    var name, member := Quoted(keys[i]), Canonical(owner.members[keys[i]]);
    assert keys[i..][0] == keys[i] && keys[i..][1..] == keys[i + 1..];
    Regroup(out.text, Separator(i == 0), name + (":" + (member + rest)));
    if i > 0 { out.Push(","); } else { assert out.text + "" == out.text; }
    Regroup(out.text, name, ":" + (member + rest));
    out.Push(name);
    Regroup(out.text, ":", member + rest);
    out.Push(":");
    Regroup(out.text, member, rest);
    AppendCanonical(owner.members[keys[i]], out);
  }
}
