/** Text leaving the script unescaped: the engine writes a lone surrogate as
    three bytes no Rust string can hold, and a replacement character takes its place. */
module Wtf8 {
  import opened Wrappers
  import opened Surrogates

  type Bytes = seq<nat>

  datatype Unit = Scalar(c: char) | Lone(u: nat)

  function Utf8(c: char): (b: Bytes)
    ensures 1 <= |b| <= 4
  {
    var n := c as int;
    if n < 0x80 then [n]
    else if n < 0x800 then [0xc0 + n / 64, 0x80 + n % 64]
    else if n < 0x1_0000 then [0xe0 + n / 4096, 0x80 + n / 64 % 64, 0x80 + n % 64]
    else [0xf0 + n / 262144, 0x80 + n / 4096 % 64, 0x80 + n / 64 % 64, 0x80 + n % 64]
  }

  function Utf8All(cs: string): Bytes {
    if cs == "" then [] else Utf8(cs[0]) + Utf8All(cs[1..])
  }

  predicate UnitsOk(units: seq<Unit>) {
    forall i | 0 <= i < |units| && units[i].Lone? :: IsSurrogate(units[i].u)
  }

  function Encoded(u: Unit): Bytes {
    match u
    case Scalar(c) => Utf8(c)
    case Lone(n) => [0xe0 + n / 4096, 0x80 + n / 64 % 64, 0x80 + n % 64]
  }

  function EncodedAll(units: seq<Unit>): Bytes {
    if units == [] then [] else Encoded(units[0]) + EncodedAll(units[1..])
  }

  const REPLACED: char := '\U{FFFD}'

  /** The text with every lone surrogate replaced. */
  function Lossy(units: seq<Unit>): string {
    if units == [] then "" else [if units[0].Scalar? then units[0].c else REPLACED] + Lossy(units[1..])
  }

  function Length16(c: char): nat { if c as int < 0x1_0000 then 1 else 2 }

  function TextLength16(cs: string): nat {
    if cs == "" then 0 else Length16(cs[0]) + TextLength16(cs[1..])
  }

  function UnitsLength16(units: seq<Unit>): nat {
    if units == [] then 0 else (if units[0].Scalar? then Length16(units[0].c) else 1) + UnitsLength16(units[1..])
  }

  /** The standard library's strict and lossy decoders of UTF-8. */
  datatype Decoders = Decoders(strict: Bytes -> Option<string>, lossy: Bytes -> string)

  ghost predicate DecodersOk(d: Decoders) {
    && (forall cs: string :: d.lossy(Utf8All(cs)) == cs)
    && (forall b: Bytes :: d.strict(b).Some? ==> b == Utf8All(d.strict(b).value))
  }

  predicate IsSurrogateStart(b: Bytes) {
    |b| >= 3 && b[0] == 0xed && 0xa0 <= b[1] <= 0xbf && 0x80 <= b[2] <= 0xbf
  }

  /** The decoding of the rest, with a chunk still to be decoded before it. */
  function DecodedFrom(lossy: Bytes -> string, chunk: Bytes, rest: Bytes): string
    decreases |rest|
  {
    if rest == [] then lossy(chunk)
    else if IsSurrogateStart(rest) then lossy(chunk) + [REPLACED] + DecodedFrom(lossy, [], rest[3..])
    else DecodedFrom(lossy, chunk + [rest[0]], rest[1..])
  }

  method DecodeWtf8(d: Decoders, bytes: Bytes) returns (decoded: string)
    ensures decoded == match d.strict(bytes) case Some(text) => text case None => DecodedFrom(d.lossy, [], bytes)
  {
    if d.strict(bytes).Some? {
      return d.strict(bytes).value;
    }
    decoded := "";
    var copied, index := 0, 0;
    assert bytes[0..0] == [] && bytes[0..] == bytes;
    while index < |bytes|
      invariant 0 <= copied <= index <= |bytes|
      invariant decoded + DecodedFrom(d.lossy, bytes[copied..index], bytes[index..]) == DecodedFrom(d.lossy, [], bytes)
    {
      if IsSurrogateStart(bytes[index..]) {
        assert bytes[index..][3..] == bytes[index + 3..];
        assert bytes[index + 3..index + 3] == [];
        Regroup3(decoded, d.lossy(bytes[copied..index]), [REPLACED], DecodedFrom(d.lossy, [], bytes[index + 3..]));
        decoded := decoded + d.lossy(bytes[copied..index]) + [REPLACED];
        index := index + 3;
        copied := index;
      } else {
        assert bytes[copied..index + 1] == bytes[copied..index] + [bytes[index..][0]];
        assert bytes[index..][1..] == bytes[index + 1..];
        index := index + 1;
      }
    }
    assert bytes[copied..index] == bytes[copied..];
    decoded := decoded + d.lossy(bytes[copied..]);
  }

  lemma Regroup3(a: string, b: string, c: string, e: string)
    ensures a + (b + c + e) == a + b + c + e
  {
  }

  // ------------------------------------------------------------- meaning

  /** No step inside the encoding of a character looks like a surrogate. */
  lemma NoSurrogateInside(c: char, k: nat, tail: Bytes)
    requires k < |Utf8(c)|
    ensures !IsSurrogateStart(Utf8(c)[k..] + tail)
  {
  }

  lemma {:induction false} ScalarJoinsChunk(lossy: Bytes -> string, c: char, k: nat, chunk: Bytes, tail: Bytes)
    requires k <= |Utf8(c)|
    ensures DecodedFrom(lossy, chunk, Utf8(c)[k..] + tail) == DecodedFrom(lossy, chunk + Utf8(c)[k..], tail)
    decreases |Utf8(c)| - k
  {
    var b := Utf8(c);
    if k == |b| {
      assert b[k..] + tail == tail && chunk + b[k..] == chunk;
    } else {
      NoSurrogateInside(c, k, tail);
      ScalarJoinsChunk(lossy, c, k + 1, chunk + [b[k]], tail);
      assert (b[k..] + tail)[1..] == b[k + 1..] + tail && (b[k..] + tail)[0] == b[k];
      assert chunk + [b[k]] + b[k + 1..] == chunk + b[k..];
    }
  }

  lemma {:induction false} Utf8AllAppend(cs: string, c: char)
    ensures Utf8All(cs + [c]) == Utf8All(cs) + Utf8(c)
  {
    if cs == "" {
      assert cs + [c] == [c] && [c][1..] == "";
    } else {
      Utf8AllAppend(cs[1..], c);
      assert (cs + [c])[1..] == cs[1..] + [c];
    }
  }

  /** With some characters read already, the rest decodes to its lossy text. */
  lemma {:induction false} DecodesToLossy(d: Decoders, read: string, units: seq<Unit>)
    requires DecodersOk(d) && UnitsOk(units)
    ensures DecodedFrom(d.lossy, Utf8All(read), EncodedAll(units)) == read + Lossy(units)
    decreases |units|
  {
    if units == [] {
      assert read + "" == read;
    } else {
      var tail := EncodedAll(units[1..]);
      match units[0]
      case Scalar(c) =>
        ScalarJoinsChunk(d.lossy, c, 0, Utf8All(read), tail);
        assert Utf8(c)[0..] == Utf8(c);
        Utf8AllAppend(read, c);
        DecodesToLossy(d, read + [c], units[1..]);
        assert read + [c] + Lossy(units[1..]) == read + Lossy(units);
      case Lone(u) =>
        var rest := Encoded(units[0]) + tail;
        assert IsSurrogateStart(rest) && rest[3..] == tail;
        assert Utf8All("") == [];
        DecodesToLossy(d, "", units[1..]);
        assert "" + Lossy(units[1..]) == Lossy(units[1..]);
        assert read + [REPLACED] + Lossy(units[1..]) == read + Lossy(units);
    }
  }

  function Scalars(cs: string): (units: seq<Unit>)
    ensures UnitsOk(units) && EncodedAll(units) == Utf8All(cs) && Lossy(units) == cs
  {
    if cs == "" then [] else
      var rest := Scalars(cs[1..]);
      assert ([Scalar(cs[0])] + rest)[1..] == rest;
      [Scalar(cs[0])] + rest
  }

  /** The decoded text is the lossy text, whichever decoder ran. */
  lemma DecodingIsLossy(d: Decoders, units: seq<Unit>)
    requires DecodersOk(d) && UnitsOk(units)
    ensures (match d.strict(EncodedAll(units)) case Some(text) => text case None => DecodedFrom(d.lossy, [], EncodedAll(units)))
         == Lossy(units)
  {
    DecodesToLossy(d, "", units);
    assert Utf8All("") == [] && "" + Lossy(units) == Lossy(units);
    if d.strict(EncodedAll(units)).Some? {
      var text := d.strict(EncodedAll(units)).value;
      DecodesToLossy(d, "", Scalars(text));
      assert "" + text == text;
    }
  }

  /** It keeps the length in UTF-16 units, which the output limits count, and
      in bytes. */
  lemma {:induction false} LossyKeepsLengths(units: seq<Unit>)
    requires UnitsOk(units)
    ensures TextLength16(Lossy(units)) == UnitsLength16(units)
    ensures |Utf8All(Lossy(units))| == |EncodedAll(units)|
    decreases |units|
  {
    if units != [] {
      LossyKeepsLengths(units[1..]);
      assert Lossy(units)[1..] == Lossy(units[1..]);
    }
  }
}
