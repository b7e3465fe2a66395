/**
 * The text primitives the file readers are built on: whitespace-separated
 * tokens (stream extraction of strings), fields between delimiters
 * (getline with a delimiter), the decimal rendering of unsigned integers,
 * the integer conversions of the C++ library (stoul, stoi), and the
 * case-insensitive "true" test.
 *
 * Floating-point text is not modelled: a `RealText` value supplies the
 * parse and the two renderings the program uses, and a proof that needs a
 * rendering to read back says so in its `requires`.
 */
module Text {
  import opened Wrappers

  /** The characters isspace accepts in the C locale. */
  predicate IsSpace(c: char) {
    c == ' ' || c == '\t' || c == '\n' || c == '\r' || c == '\U{000B}' || c == '\U{000C}'
  }

  predicate NoSpace(s: string) {
    forall i :: 0 <= i < |s| ==> !IsSpace(s[i])
  }

  // ----- tokens -----

  /** The longest prefix without whitespace. */
  function Word(s: string): (w: string)
    ensures w <= s && NoSpace(w)
    ensures |w| < |s| ==> IsSpace(s[|w|])
    ensures s != [] && !IsSpace(s[0]) ==> |w| >= 1
  {
    if s == [] || IsSpace(s[0]) then [] else [s[0]] + Word(s[1..])
  }

  /** The strings `>>` extracts from a line, in order. */
  function Tokens(s: string): (r: seq<string>)
    ensures forall i :: 0 <= i < |r| ==> r[i] != [] && NoSpace(r[i])
    decreases |s|
  {
    if s == [] then []
    else if IsSpace(s[0]) then Tokens(s[1..])
    else var w := Word(s); [w] + Tokens(s[|w|..])
  }

  /** Words joined by single spaces. */
  function Spaced(words: seq<string>): string {
    if words == [] then "" else if |words| == 1 then words[0] else words[0] + " " + Spaced(words[1..])
  }

  lemma {:induction false} WordOfJoin(w: string, rest: string)
    requires NoSpace(w) && (rest == [] || IsSpace(rest[0]))
    ensures Word(w + rest) == w
    decreases |w|
  {
    if w != [] {
      assert (w + rest)[1..] == w[1..] + rest;
      WordOfJoin(w[1..], rest);
    }
  }

  /** Tokenising words joined by spaces gives the words back. */
  lemma {:induction false} TokensOfSpaced(words: seq<string>)
    requires forall i :: 0 <= i < |words| ==> words[i] != [] && NoSpace(words[i])
    ensures Tokens(Spaced(words)) == words
    decreases |words|
  {
    if words == [] {
    } else if |words| == 1 {
      WordOfJoin(words[0], []);
      assert words[0] + [] == words[0];
      assert Spaced(words)[|words[0]|..] == [];
    } else {
      var w, rest := words[0], Spaced(words[1..]);
      assert Spaced(words) == w + (" " + rest);
      WordOfJoin(w, " " + rest);
      assert Spaced(words)[|w|..] == " " + rest;
      assert (" " + rest)[1..] == rest;
      TokensOfSpaced(words[1..]);
    }
  }

  // ----- delimited fields -----

  /** The fields of `s` between occurrences of `d`: one more field than
      there are delimiters. */
  function Split(s: string, d: char): (r: seq<string>)
    ensures |r| >= 1
    ensures forall i :: 0 <= i < |r| ==> d !in r[i]
  {
    if s == [] then [""]
    else if s[0] == d then [""] + Split(s[1..], d)
    else var r := Split(s[1..], d); [[s[0]] + r[0]] + r[1..]
  }

  /** Fields joined by the delimiter. */
  function Joined(parts: seq<string>, d: char): string
    requires |parts| >= 1
  {
    if |parts| == 1 then parts[0] else parts[0] + [d] + Joined(parts[1..], d)
  }

  lemma {:induction false} SplitPrefix(w: string, rest: string, d: char)
    requires d !in w
    ensures Split(w + rest, d)[0] == w + Split(rest, d)[0]
    ensures Split(w + rest, d)[1..] == Split(rest, d)[1..]
    decreases |w|
  {
    if w == [] {
      assert w + rest == rest;
    } else {
      assert (w + rest)[1..] == w[1..] + rest;
      assert (w + rest)[0] == w[0] != d;
      SplitPrefix(w[1..], rest, d);
      var r := Split(w[1..] + rest, d);
      assert Split(w + rest, d) == [[w[0]] + r[0]] + r[1..];
      assert [w[0]] + w[1..] == w;
    }
  }

  /** Splitting joined fields gives the fields back. */
  lemma {:induction false} SplitOfJoined(parts: seq<string>, d: char)
    requires |parts| >= 1 && forall i :: 0 <= i < |parts| ==> d !in parts[i]
    ensures Split(Joined(parts, d), d) == parts
    decreases |parts|
  {
    if |parts| == 1 {
      SplitPrefix(parts[0], [], d);
      assert parts[0] + [] == parts[0];
    } else {
      var rest := Joined(parts[1..], d);
      assert Joined(parts, d) == parts[0] + ([d] + rest);
      SplitPrefix(parts[0], [d] + rest, d);
      assert ([d] + rest)[1..] == rest;
      assert Split([d] + rest, d) == [""] + Split(rest, d);
      SplitOfJoined(parts[1..], d);
      var r := Split(Joined(parts, d), d);
      assert r[0] == parts[0] + "" == parts[0];
      assert r[1..] == parts[1..];
      assert r == [r[0]] + r[1..];
    }
  }

  /** The i-th field as getline reads it: empty once the fields run out. */
  function Field(s: string, d: char, i: nat): string {
    var parts := Split(s, d);
    if i < |parts| then parts[i] else ""
  }

  // ----- decimal integers -----

  predicate IsDigit(c: char) { '0' <= c <= '9' }

  function DigitChar(d: nat): (c: char)
    requires d < 10
    ensures IsDigit(c) && DigitValue(c) == d
  {
    ('0' as int + d) as char
  }

  /** The value of a string of digits. */
  function DigitsValue(s: string): nat
    requires forall i :: 0 <= i < |s| ==> IsDigit(s[i])
  {
    if s == [] then 0 else 10 * DigitsValue(s[..|s| - 1]) + DigitValue(s[|s| - 1])
  }

  function DigitValue(c: char): (d: nat)
    requires IsDigit(c)
    ensures d < 10
  {
    c as int - '0' as int
  }

  /** std::format("{}") of an unsigned integer: no sign, no leading zero. */
  function NatToString(n: nat): (s: string)
    ensures s != [] && forall i :: 0 <= i < |s| ==> IsDigit(s[i])
    ensures DigitsValue(s) == n
  {
    if n < 10 then [DigitChar(n)]
    else
      var s := NatToString(n / 10) + [DigitChar(n % 10)];
      assert s[..|s| - 1] == NatToString(n / 10);
      s
  }

  /** The longest prefix of digits. */
  function LeadingDigits(s: string): (r: string)
    ensures r <= s && forall i :: 0 <= i < |r| ==> IsDigit(s[i])
    ensures |r| < |s| ==> !IsDigit(s[|r|])
  {
    if s == [] || !IsDigit(s[0]) then [] else [s[0]] + LeadingDigits(s[1..])
  }

  lemma {:induction false} LeadingDigitsAll(s: string)
    requires forall i :: 0 <= i < |s| ==> IsDigit(s[i])
    ensures LeadingDigits(s) == s
  {
    if s != [] {
      LeadingDigitsAll(s[1..]);
    }
  }

  function TrimLeft(s: string): (r: string)
    ensures r == [] || !IsSpace(r[0])
    ensures |r| <= |s| && r == s[|s| - |r|..]
  {
    if s != [] && IsSpace(s[0]) then TrimLeft(s[1..]) else s
  }

  /** A sign and the digits after it, as strtol and strtoul read them after
      leading whitespace: (negative, digits). */
  function SignedDigits(s: string): (r: (bool, string))
    ensures forall i :: 0 <= i < |r.1| ==> IsDigit(r.1[i])
  {
    var t := TrimLeft(s);
    if t != [] && (t[0] == '-' || t[0] == '+') then (t[0] == '-', LeadingDigits(t[1..]))
    else (false, LeadingDigits(t))
  }

  const ULongMax: nat := 0xFFFF_FFFF_FFFF_FFFF
  const IntMin: int := -0x8000_0000
  const IntMax: int := 0x7FFF_FFFF

  /** std::stoul with a 64-bit unsigned long: no digits is an invalid
      argument, a magnitude above the maximum is out of range, and a minus
      sign negates modulo 2^64. Trailing characters are ignored. */
  function Stoul(s: string): (r: Result<nat>)
    ensures r.Ok? ==> r.value <= ULongMax
  {
    var (negative, digits) := SignedDigits(s);
    if digits == [] then Failure("stoul")
    else
      var v := DigitsValue(digits);
      if v > ULongMax then Failure("stoul")
      else if negative then Ok((ULongMax + 1 - v) % (ULongMax + 1))
      else Ok(v)
  }

  /** std::stoi with a 32-bit int. */
  function Stoi(s: string): (r: Result<int>)
    ensures r.Ok? ==> IntMin <= r.value <= IntMax
  {
    var (negative, digits) := SignedDigits(s);
    if digits == [] then Failure("stoi")
    else
      var magnitude: int := DigitsValue(digits);
      var v := if negative then -magnitude else magnitude;
      if v < IntMin || v > IntMax then Failure("stoi") else Ok(v)
  }

  /** A string of digits is read as unsigned, all of it. */
  lemma SignedDigitsOfDigits(s: string)
    requires s != [] && forall i :: 0 <= i < |s| ==> IsDigit(s[i])
    ensures SignedDigits(s) == (false, s)
  {
    LeadingDigitsAll(s);
    assert TrimLeft(s) == s;
    assert !(s[0] == '-' || s[0] == '+');
  }

  /** The decimal rendering of an unsigned integer reads back through stoul. */
  lemma StoulOfNatToString(n: nat)
    requires n <= ULongMax
    ensures Stoul(NatToString(n)) == Ok(n)
  {
    SignedDigitsOfDigits(NatToString(n));
  }

  /** The decimal rendering of an int-sized natural reads back through stoi. */
  lemma StoiOfNatToString(n: nat)
    requires n <= IntMax
    ensures Stoi(NatToString(n)) == Ok(n)
  {
    SignedDigitsOfDigits(NatToString(n));
  }

  // ----- floating-point text -----

  /** Reading a float from a token, and the two renderings the program
      writes: fixed with six decimals, and the stream default. */
  datatype RealText = RealText(parse: string -> Option<real>, fixed6: real -> string, general: real -> string)

  /** A rendering that is one token, free of the delimiters the file formats
      use, and reads back to the value it renders. Rounding to the printed
      precision is not part of the model. */
  ghost predicate ReadsBack(rt: RealText, render: real -> string) {
    forall x: real :: render(x) != [] && NoSpace(render(x)) && '/' !in render(x) && ',' !in render(x)
      && rt.parse(render(x)) == Some(x)
  }

  // ----- "true" -----

  /** tolower in the C locale. */
  function ToLower(c: char): (l: char)
    ensures 'A' <= c <= 'Z' ==> l as int == c as int + 32
    ensures !('A' <= c <= 'Z') ==> l == c
  {
    if 'A' <= c <= 'Z' then (c as int + 32) as char else c
  }

  /** saysTrue: exactly four characters spelling "true" in any case. */
  function SaysTrue(s: string): (b: bool)
    ensures b <==> |s| == 4 && forall i :: 0 <= i < 4 ==> s[i] == "true"[i] || s[i] == "TRUE"[i]
  {
    |s| == 4 && ToLower(s[0]) == 't' && ToLower(s[1]) == 'r' && ToLower(s[2]) == 'u' && ToLower(s[3]) == 'e'
  }
}
