/** Lone surrogates in text that leaves the script. In JSON they are escapes,
    which are rewritten before parsing; see section 7 of RFC 8259 for strings.
    Every character the rewriting looks at is ASCII, so counting characters
    counts bytes alike. */
module Surrogates {
  import opened Wrappers
  import opened Folding

  predicate IsHigh(u: nat) { 0xd800 <= u <= 0xdbff }

  predicate IsLow(u: nat) { 0xdc00 <= u <= 0xdfff }

  predicate IsSurrogate(u: nat) { 0xd800 <= u <= 0xdfff }

  predicate IsHex(c: char) { '0' <= c <= '9' || 'a' <= c <= 'f' || 'A' <= c <= 'F' }

  function HexValue(c: char): (v: nat)
    ensures v < 16
  {
    if '0' <= c <= '9' then c as int - '0' as int
    else if 'a' <= c <= 'f' then c as int - 'a' as int + 10
    else if 'A' <= c <= 'F' then c as int - 'A' as int + 10
    else 0
  }

  function UnitOf(digits: string): (u: nat)
    requires |digits| == 4
    ensures u <= 0xffff
  {
    4096 * HexValue(digits[0]) + 256 * HexValue(digits[1]) + 16 * HexValue(digits[2]) + HexValue(digits[3])
  }

  /** The number in four digits. A sign is accepted, as the parser in use does. */
  function ParseHex(digits: string): Option<nat>
    requires |digits| == 4
  {
    if IsHex(digits[1]) && IsHex(digits[2]) && IsHex(digits[3]) && (IsHex(digits[0]) || digits[0] == '+') then Some(UnitOf(digits))
    else None
  }

  /** The unit of the escape a text starts with. */
  function UnicodeEscape(s: string): Option<nat> {
    if |s| >= 6 && s[0] == '\\' && s[1] == 'u' then ParseHex(s[2..6]) else None
  }

  predicate IsPaired(s: string) {
    |s| >= 6 && UnicodeEscape(s).Some? && IsHigh(UnicodeEscape(s).value)
    && UnicodeEscape(s[6..]).Some? && IsLow(UnicodeEscape(s[6..]).value)
  }

  const REPLACEMENT := "\\uFFFD"

  /** How much of a nonempty text one step of the scan takes. */
  function Taken(s: string, inString: bool): (n: nat)
    requires s != ""
    ensures 1 <= n <= |s|
  {
    if s[0] == '\\' && inString then
      if UnicodeEscape(s).None? then if |s| < 2 then 1 else 2
      else if IsPaired(s) then 12
      else 6
    else 1
  }

  /** Whether that step finds an escape for half of a pair. */
  predicate IsLone(s: string, inString: bool) {
    s != "" && s[0] == '\\' && inString && UnicodeEscape(s).Some? && IsSurrogate(UnicodeEscape(s).value) && !IsPaired(s)
  }

  predicate Flips(s: string) { s != "" && s[0] == '"' }

  /** The rewriting of a text, from inside or outside a string. */
  function Rewritten(s: string, inString: bool): (r: string)
    ensures |r| == |s|
    decreases |s|
  {
    if s == "" then ""
    else
      var n := Taken(s, inString);
      (if IsLone(s, inString) then REPLACEMENT else s[..n]) + Rewritten(s[n..], inString != Flips(s))
  }

  /** `rest` is the rewriting of what the scan has not come to. */
  ghost predicate IsRest(json: string, at: nat, inString: bool, rest: string) {
    at <= |json| && forall u | Unfold(u) && u == Part :: rest == Rewritten(json[at..], inString)
  }

  lemma Starts(json: string) returns (rest: string)
    ensures IsRest(json, 0, false, rest) && rest == Rewritten(json, false)
  {
    assert json[0..] == json;
    rest := Rewritten(json, false);
  }

  lemma Ends(json: string, inString: bool, rest: string)
    requires IsRest(json, |json|, inString, rest)
    ensures rest == ""
  {
    assert Unfold(Part);
  }

  /** What one step of the scan adds to the result. */
  lemma Advances(json: string, at: nat, inString: bool, rest: string) returns (step: string, after: string)
    requires IsRest(json, at, inString, rest) && at < |json|
    ensures rest == step + after
    ensures at + Taken(json[at..], inString) <= |json| && (IsLone(json[at..], inString) ==> Taken(json[at..], inString) == 6)
    ensures step == if IsLone(json[at..], inString) then REPLACEMENT else json[at..at + Taken(json[at..], inString)]
    ensures IsRest(json, at + Taken(json[at..], inString), inString != Flips(json[at..]), after)
  {
    assert Unfold(Part);
    var s := json[at..];
    var n := Taken(s, inString);
    step := if IsLone(s, inString) then REPLACEMENT else s[..n];
    after := Rewritten(s[n..], inString != Flips(s));
    assert s[n..] == json[at + n..] && s[..n] == json[at..at + n];
  }

  lemma Regroup(done: string, step: string, after: string)
    ensures done + (step + after) == (done + step) + after
  {
  }

  lemma Copies(out: string, json: string, copied: nat, at: nat, next: nat)
    requires copied <= at <= next <= |json|
    ensures out + json[copied..at] + json[at..next] == out + json[copied..next]
  {
    assert json[copied..at] + json[at..next] == json[copied..next];
  }

  /** One step over what is kept; it may pass the end after a backslash. */
  method StepOver(json: string, index: nat, inString: bool) returns (next: nat, now: bool)
    requires index < |json| && !IsLone(json[index..], inString)
    ensures now == (inString != Flips(json[index..]))
    ensures next == index + Taken(json[index..], inString) || (next == |json| + 1 && index + Taken(json[index..], inString) == |json|)
  {
    if json[index] == '"' {
      return index + 1, !inString;
    }
    if json[index] == '\\' && inString {
      if UnicodeEscape(json[index..]).None? {
        return index + 2, inString;
      }
      return index + (if IsPaired(json[index..]) then 12 else 6), inString;
    }
    return index + 1, inString;
  }

  method ReplaceLoneSurrogateEscapes(json: string) returns (r: string)
    ensures r == Rewritten(json, false)
  {
    var out, changed, copied, index, inString := "", false, 0, 0, false;
    ghost var at: nat := 0;
    ghost var rest := Starts(json);
    ghost var whole := rest;
    while index < |json|
      invariant copied <= at <= |json| && at == (if index <= |json| then index else |json|)
      invariant IsRest(json, at, inString, rest) && out + json[copied..at] + rest == whole
      invariant !changed ==> copied == 0 && out == ""
      decreases |json| - index
    {
      ghost var step, after := Advances(json, at, inString, rest);
      ghost var next := at + Taken(json[at..], inString);
      Regroup(out + json[copied..at], step, after);
      if IsLone(json[index..], inString) {
        out, changed := out + json[copied..index] + REPLACEMENT, true;
        index := index + 6;
        copied := index;
        assert out + json[copied..next] == out;
      } else {
        Copies(out, json, copied, at, next);
        index, inString := StepOver(json, index, inString);
      }
      at, rest := next, after;
    }
    Ends(json, inString, rest);
    assert json[copied..at] == json[copied..];
    assert out + json[copied..] + "" == out + json[copied..];
    return if changed then out + json[copied..] else json;
  }
}
