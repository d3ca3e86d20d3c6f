/**
 Base58 and did:key (web/callsec.js:20-62): digit lists grown in place by nested carry
 loops, and the round trip between keys and identifiers.
 */
module Base58 {
  import opened Prelude

  const ALPHABET: string :=
    "123456789" + "ABCDEFGH" + "JKLMN" + "PQRSTUVWXYZ" + "abcdefghijk" + "mnopqrstuvwxyz"

  predicate Digits(ds: seq<nat>, base: nat) { forall i :: 0 <= i < |ds| ==> ds[i] < base }

  predicate Bytes(bs: seq<nat>) { Digits(bs, 256) }

  // ---- Positional notation, least significant digit first ----

  function Value(ds: seq<nat>, base: nat): nat {
    if ds == [] then 0 else ds[0] + base * Value(ds[1..], base)
  }

  /** Multiply by mul and add carry, digit by digit, pushing what is left over. */
  function MulAdd(ds: seq<nat>, mul: nat, carry: nat, base: nat): seq<nat>
    requires base >= 2
    decreases |ds|, carry
  {
    if ds != [] then
      var c := ds[0] * mul + carry;
      [c % base] + MulAdd(ds[1..], mul, c / base, base)
    else if carry > 0 then [carry % base] + MulAdd([], mul, carry / base, base)
    else []
  }

  /** One step of a place: quotient and remainder rebuild the carry. */
  lemma Split(c: nat, base: nat, rest: nat)
    requires base >= 2
    ensures c % base + base * (c / base + rest) == c + base * rest
  {
  }

  lemma Spread(d: nat, mul: nat, base: nat, rest: nat)
    ensures mul * (d + base * rest) == d * mul + base * (mul * rest)
  {
    calc {
      mul * (d + base * rest);
      mul * d + mul * (base * rest);
      mul * d + (mul * base) * rest;
      mul * d + base * (mul * rest);
    }
  }

  lemma Step(d: nat, mul: nat, carry: nat, base: nat, rest: nat, v: nat)
    requires base >= 2 && v == mul * rest + (d * mul + carry) / base
    ensures (d * mul + carry) % base + base * v == mul * (d + base * rest) + carry
  {
    Split(d * mul + carry, base, mul * rest);
    Spread(d, mul, base, rest);
  }

  /** The last carry pushed is nonzero. */
  lemma Pushed(carry: nat, base: nat)
    requires base >= 2 && carry > 0
    ensures carry / base < carry && (carry / base == 0 ==> carry % base != 0)
  {
  }

  lemma ValueCons(d: nat, rest: seq<nat>, base: nat)
    ensures Value([d] + rest, base) == d + base * Value(rest, base)
  {
    assert ([d] + rest)[1..] == rest;
  }

  lemma {:induction false} PushValue(mul: nat, carry: nat, base: nat)
    requires base >= 2
    ensures Value(MulAdd([], mul, carry, base), base) == carry
    decreases carry
  {
    if carry > 0 {
      Pushed(carry, base);
      PushValue(mul, carry / base, base);
      ValueCons(carry % base, MulAdd([], mul, carry / base, base), base);
      Split(carry, base, 0);
    }
  }

  lemma {:induction false} MulAddValue(ds: seq<nat>, mul: nat, carry: nat, base: nat)
    requires base >= 2
    ensures Value(MulAdd(ds, mul, carry, base), base) == mul * Value(ds, base) + carry
    decreases |ds|
  {
    if ds == [] {
      PushValue(mul, carry, base);
    } else {
      var c := ds[0] * mul + carry;
      var tail := MulAdd(ds[1..], mul, c / base, base);
      MulAddValue(ds[1..], mul, c / base, base);
      ValueCons(c % base, tail, base);
      Step(ds[0], mul, carry, base, Value(ds[1..], base), Value(tail, base));
    }
  }

  lemma {:induction false} MulAddDigits(ds: seq<nat>, mul: nat, carry: nat, base: nat)
    requires base >= 2
    ensures Digits(MulAdd(ds, mul, carry, base), base)
    decreases |ds|, carry
  {
    if ds != [] { MulAddDigits(ds[1..], mul, (ds[0] * mul + carry) / base, base); }
    else if carry > 0 { MulAddDigits([], mul, carry / base, base); }
  }

  /** The digit list of both functions starts as a single zero digit; the top digit is
      nonzero as soon as the value is. */
  predicate Canonical(ds: seq<nat>) {
    ds != [] && (ds == [0] || ds[|ds| - 1] != 0)
  }

  lemma {:induction false} PushedTop(carry: nat, mul: nat, base: nat)
    requires base >= 2 && carry > 0
    ensures var r := MulAdd([], mul, carry, base); r != [] && r[|r| - 1] != 0
    decreases carry
  {
    Pushed(carry, base);
    var rest := MulAdd([], mul, carry / base, base);
    if carry / base > 0 { PushedTop(carry / base, mul, base); }
    assert MulAdd([], mul, carry, base) == [carry % base] + rest;
  }

  lemma {:induction false} MulAddTop(ds: seq<nat>, mul: nat, carry: nat, base: nat)
    requires base >= 2 && 1 <= base <= mul + base && mul >= 1 && ds != [] && ds[|ds| - 1] != 0
    ensures var r := MulAdd(ds, mul, carry, base); r != [] && r[|r| - 1] != 0
    decreases |ds|
  {
    var c := ds[0] * mul + carry;
    if |ds| > 1 {
      MulAddTop(ds[1..], mul, c / base, base);
    } else {
      assert ds[0] * mul >= 1 by { Grow(ds[0], mul); }
      if c / base > 0 { PushedTop(c / base, mul, base); }
    }
  }

  lemma Grow(a: nat, b: nat)
    requires a >= 1 && b >= 1
    ensures a * b >= 1
  {
  }

  lemma MulAddCanonical(ds: seq<nat>, mul: nat, carry: nat, base: nat)
    requires base >= 2 && mul >= 1 && Canonical(ds)
    ensures Canonical(MulAdd(ds, mul, carry, base))
  {
    if ds == [0] {
      assert MulAdd(ds, mul, carry, base) == [carry % base] + MulAdd([], mul, carry / base, base);
      if carry / base > 0 { PushedTop(carry / base, mul, base); }
    } else {
      MulAddTop(ds, mul, carry, base);
    }
  }

  /** Digit lists without a leading zero are determined by their value. */
  lemma {:induction false} ValueUnique(a: seq<nat>, b: seq<nat>, base: nat)
    requires base >= 2 && Digits(a, base) && Digits(b, base)
    requires (a == [] || a[|a| - 1] != 0) && (b == [] || b[|b| - 1] != 0)
    requires Value(a, base) == Value(b, base)
    ensures a == b
    decreases |a|
  {
    if a == [] {
      if b != [] { ValuePositive(b, base); }
    } else {
      ValuePositive(a, base);
      assert b != [];
      SameHead(a[0], Value(a[1..], base), b[0], Value(b[1..], base), base);
      ValueUnique(a[1..], b[1..], base);
      assert a == [a[0]] + a[1..] && b == [b[0]] + b[1..];
    }
  }

  lemma SameHead(x: nat, p: nat, y: nat, q: nat, base: nat)
    requires x < base && y < base && x + base * p == y + base * q
    ensures x == y && p == q
  {
    if p < q { Mono(base, p + 1, q); } else if q < p { Mono(base, q + 1, p); }
  }

  lemma Mono(base: nat, p: nat, q: nat)
    requires p <= q
    ensures base * p <= base * q
  {
  }

  lemma {:induction false} ValuePositive(ds: seq<nat>, base: nat)
    requires base >= 1 && ds != [] && ds[|ds| - 1] != 0
    ensures Value(ds, base) > 0
  {
    if |ds| > 1 {
      ValuePositive(ds[1..], base);
      Grow(base, Value(ds[1..], base));
    }
  }

  // ---- Whole strings ----

  /** Most significant digit first. */
  function BigEndian(ds: seq<nat>, base: nat): nat {
    if ds == [] then 0 else base * BigEndian(ds[..|ds| - 1], base) + ds[|ds| - 1]
  }

  /** Read big-endian digits in base mul into a growing little-endian list in base. */
  function Convert(ds: seq<nat>, mul: nat, base: nat): seq<nat>
    requires base >= 2
  {
    if ds == [] then [0] else MulAdd(Convert(ds[..|ds| - 1], mul, base), mul, ds[|ds| - 1], base)
  }

  lemma {:induction false} ConvertValue(ds: seq<nat>, mul: nat, base: nat)
    requires base >= 2 && mul >= 1
    ensures var r := Convert(ds, mul, base);
      Value(r, base) == BigEndian(ds, mul) && Digits(r, base) && Canonical(r)
  {
    if ds != [] {
      var before := Convert(ds[..|ds| - 1], mul, base);
      ConvertValue(ds[..|ds| - 1], mul, base);
      MulAddValue(before, mul, ds[|ds| - 1], base);
      MulAddDigits(before, mul, ds[|ds| - 1], base);
      MulAddCanonical(before, mul, ds[|ds| - 1], base);
    }
  }

  function Reverse(ds: seq<nat>): (r: seq<nat>)
    ensures |r| == |ds| && forall i :: 0 <= i < |r| ==> r[i] == ds[|ds| - 1 - i]
  {
    if ds == [] then [] else Reverse(ds[1..]) + [ds[0]]
  }

  lemma {:induction false} ReverseValue(ds: seq<nat>, base: nat)
    ensures BigEndian(Reverse(ds), base) == Value(ds, base)
  {
    if ds != [] {
      ReverseValue(ds[1..], base);
      var r := Reverse(ds);
      assert r[..|r| - 1] == Reverse(ds[1..]);
    }
  }

  function Zeros(n: nat): (r: seq<nat>)
    ensures |r| == n && forall i :: 0 <= i < n ==> r[i] == 0
  {
    Repeat(0, n)
  }

  lemma {:induction false} LeadingZerosValue(n: nat, ds: seq<nat>, base: nat)
    ensures BigEndian(Zeros(n) + ds, base) == BigEndian(ds, base)
  {
    if ds == [] {
      assert Zeros(n) + ds == Zeros(n);
      if n > 0 {
        assert Zeros(n)[..n - 1] == Zeros(n - 1) + [];
        LeadingZerosValue(n - 1, [], base);
      }
    } else {
      assert (Zeros(n) + ds)[..n + |ds| - 1] == Zeros(n) + ds[..|ds| - 1];
      LeadingZerosValue(n, ds[..|ds| - 1], base);
    }
  }

  function LeadingZeros(ds: seq<nat>): (n: nat)
    ensures n <= |ds| && (forall i :: 0 <= i < n ==> ds[i] == 0) && (n < |ds| ==> ds[n] != 0)
  {
    if ds == [] || ds[0] != 0 then 0 else 1 + LeadingZeros(ds[1..])
  }

  /** Position of a character in the alphabet, or 58 for a foreign one. */
  function DigitOf(c: char): (d: nat)
    ensures d <= 58 && (d < 58 ==> ALPHABET[d] == c) && (d == 58 ==> c !in ALPHABET)
  {
    FindIn(ALPHABET, c)
  }

  function FindIn(s: string, c: char): (d: nat)
    ensures d <= |s| && (d < |s| ==> s[d] == c) && (d == |s| ==> c !in s)
  {
    if s == "" || s[0] == c then 0 else 1 + FindIn(s[1..], c)
  }

  predicate Increasing(s: string) { forall i :: 0 <= i < |s| - 1 ==> s[i] < s[i + 1] }

  lemma {:induction false} FindIncreasing(s: string, d: nat)
    requires d < |s| && Increasing(s)
    ensures FindIn(s, s[d]) == d
    ensures s[0] <= s[d]
  {
    if d > 0 {
      assert s[1..][d - 1] == s[d];
      FindIncreasing(s[1..], d - 1);
      assert s[0] < s[1] == s[1..][0];
    }
  }

  lemma Join(s: string, t: string)
    requires Increasing(s) && Increasing(t) && s != "" && t != "" && s[|s| - 1] < t[0]
    ensures Increasing(s + t)
  {
  }

  lemma RunsIncrease()
    ensures Increasing("123456789") && Increasing("ABCDEFGH") && Increasing("JKLMN")
  {
  }

  lemma UpperIncrease()
    ensures Increasing("PQRSTUVWXYZ")
  {
  }

  lemma LowerIncrease()
    ensures Increasing("abcdefghijk")
  {
  }

  lemma LastIncrease()
    ensures Increasing("mnopqrstuvwxyz")
  {
  }

  /** The alphabet has 58 characters, in code order. */
  lemma AlphabetIncreases()
    ensures Increasing(ALPHABET) && |ALPHABET| == 58
  {
    RunsIncrease();
    UpperIncrease();
    LowerIncrease();
    LastIncrease();
    Join("123456789", "ABCDEFGH");
    Join("123456789" + "ABCDEFGH", "JKLMN");
    Join("123456789" + "ABCDEFGH" + "JKLMN", "PQRSTUVWXYZ");
    Join("123456789" + "ABCDEFGH" + "JKLMN" + "PQRSTUVWXYZ", "abcdefghijk");
    Join("123456789" + "ABCDEFGH" + "JKLMN" + "PQRSTUVWXYZ" + "abcdefghijk", "mnopqrstuvwxyz");
  }

  function Letters(ds: seq<nat>): string
    requires Digits(ds, 58)
  {
    seq(|ds|, i requires 0 <= i < |ds| => ALPHABET[ds[i]])
  }

  function DigitsOf(s: string): seq<nat> { seq(|s|, i requires 0 <= i < |s| => DigitOf(s[i])) }

  lemma LettersBack(ds: seq<nat>)
    requires Digits(ds, 58)
    ensures DigitsOf(Letters(ds)) == ds
  {
    AlphabetIncreases();
    forall i | 0 <= i < |ds| ensures DigitOf(ALPHABET[ds[i]]) == ds[i] {
      FindIncreasing(ALPHABET, ds[i]);
    }
  }

  function Encode(bytes: seq<nat>): string
    requires Bytes(bytes)
  {
    var r := Convert(bytes, 256, 58);
    ConvertValue(bytes, 256, 58);
    Letters(Zeros(LeadingZeros(bytes)) + Reverse(r))
  }

  function Decode(s: string): Result<seq<nat>, string> {
    var ds := DigitsOf(s);
    if 58 in ds then Err("bad base58 char")
    else Ok(Reverse(Convert(ds, 58, 256) + Zeros(LeadingZeros(ds))))
  }

  // ---- Round trip ----

  lemma ReverseAppendZeros(ds: seq<nat>, n: nat)
    ensures Reverse(ds + Zeros(n)) == Zeros(n) + Reverse(ds)
  {
  }

  /** Decoding the digits of an encoding, whatever the bytes. */
  lemma DecodeEncode(b: seq<nat>)
    requires Bytes(b)
    ensures var z, r := LeadingZeros(b), Convert(b, 256, 58);
      var ds := Zeros(z) + Reverse(r);
      && Decode(Encode(b)) == Ok(Zeros(LeadingZeros(ds)) + Reverse(Convert(ds, 58, 256)))
      && Value(Convert(ds, 58, 256), 256) == BigEndian(b, 256)
      && Bytes(Convert(ds, 58, 256)) && Canonical(Convert(ds, 58, 256))
  {
    var z, r := LeadingZeros(b), Convert(b, 256, 58);
    ConvertValue(b, 256, 58);
    var ds := Zeros(z) + Reverse(r);
    LettersBack(ds);
    ConvertValue(ds, 58, 256);
    LeadingZerosValue(z, Reverse(r), 58);
    ReverseValue(r, 58);
    ReverseAppendZeros(Convert(ds, 58, 256), LeadingZeros(ds));
  }

  lemma {:induction false} AllZeroConvert(n: nat, mul: nat, base: nat)
    requires base >= 2
    ensures Convert(Zeros(n), mul, base) == [0]
  {
    if n > 0 {
      assert Zeros(n)[..n - 1] == Zeros(n - 1);
      AllZeroConvert(n - 1, mul, base);
      assert MulAdd([0], mul, 0, base) == [0 % base] + MulAdd([], mul, 0 / base, base);
    }
  }

  lemma ReverseTwice(ds: seq<nat>)
    ensures Reverse(Reverse(ds)) == ds
  {
  }

  lemma DropZeros(b: seq<nat>)
    ensures Zeros(LeadingZeros(b)) + b[LeadingZeros(b)..] == b
  {
  }

  lemma TopDigit(tail: seq<nat>, base: nat)
    requires Digits(tail, base) && tail != [] && tail[0] != 0
    ensures var r := Reverse(tail); Digits(r, base) && r != [] && r[|r| - 1] != 0
  {
  }

  /** Below its leading zeros a byte string is a digit list without a top zero. */
  lemma Significant(b: seq<nat>, base: nat) returns (rest: seq<nat>)
    requires Digits(b, base) && LeadingZeros(b) < |b|
    ensures Zeros(LeadingZeros(b)) + Reverse(rest) == b
    ensures Digits(rest, base) && rest != [] && rest[|rest| - 1] != 0
    ensures BigEndian(b, base) == Value(rest, base)
  {
    var tail := b[LeadingZeros(b)..];
    rest := Reverse(tail);
    ReverseTwice(tail);
    DropZeros(b);
    TopDigit(tail, base);
    LeadingZerosValue(LeadingZeros(b), tail, base);
    ReverseValue(rest, base);
  }

  lemma LeadingZerosAt(z: nat, r: seq<nat>)
    requires r != [] && r[|r| - 1] != 0
    ensures LeadingZeros(Zeros(z) + Reverse(r)) == z
  {
    var ds := Zeros(z) + Reverse(r);
    assert ds[z] == r[|r| - 1];
  }

  /** A canonical digit list of positive value has a nonzero top digit. */
  lemma CanonicalTop(r: seq<nat>, base: nat)
    requires Canonical(r) && Value(r, base) > 0
    ensures r != [] && r[|r| - 1] != 0
  {
    ZeroValue(base);
  }

  /** Canonical digit lists are determined by their value. */
  lemma CanonicalUnique(a: seq<nat>, b: seq<nat>, base: nat)
    requires base >= 2 && Digits(a, base) && Digits(b, base) && Canonical(a)
    requires b != [] && b[|b| - 1] != 0 && Value(a, base) == Value(b, base)
    ensures a == b
  {
    ValuePositive(b, base);
    CanonicalTop(a, base);
    ValueUnique(a, b, base);
  }

  /** The encoder's digits of a byte string with a nonzero byte have a nonzero top digit. */
  lemma EncodedTop(b: seq<nat>)
    requires Bytes(b) && LeadingZeros(b) < |b|
    ensures var r := Convert(b, 256, 58); r != [] && r[|r| - 1] != 0
  {
    ConvertValue(b, 256, 58);
    var rest := Significant(b, 256);
    ValuePositive(rest, 256);
    CanonicalTop(Convert(b, 256, 58), 58);
  }

  /** Any byte string with a nonzero byte comes back, leading zeros included. */
  lemma RoundTripNonzero(b: seq<nat>)
    requires Bytes(b) && LeadingZeros(b) < |b|
    ensures Decode(Encode(b)) == Ok(b)
  {
    var z, r := LeadingZeros(b), Convert(b, 256, 58);
    DecodeEncode(b);
    EncodedTop(b);
    LeadingZerosAt(z, r);
    var rest := Significant(b, 256);
    CanonicalUnique(Convert(Zeros(z) + Reverse(r), 58, 256), rest, 256);
  }

  lemma ZeroValue(base: nat)
    ensures Value([0], base) == 0
  {
    assert [0][1..] == [];
  }

  lemma ZerosFacts(n: nat)
    ensures LeadingZeros(Zeros(n)) == n && Zeros(n) + Reverse([0]) == Zeros(n + 1)
  {
  }

  /** Zero bytes gain two more zeros: both functions seed a zero digit. */
  lemma RoundTripZero(n: nat)
    ensures Decode(Encode(Zeros(n))) == Ok(Zeros(n + 2))
  {
    DecodeEncode(Zeros(n));
    AllZeroConvert(n, 256, 58);
    AllZeroConvert(n + 1, 58, 256);
    ZerosFacts(n);
    ZerosFacts(n + 1);
  }

  /** decode(encode(b)) is b exactly when some byte of b is nonzero. */
  lemma RoundTripIff(b: seq<nat>)
    requires Bytes(b)
    ensures Decode(Encode(b)) == Ok(b) <==> exists i :: 0 <= i < |b| && b[i] != 0
  {
    if LeadingZeros(b) < |b| {
      RoundTripNonzero(b);
      assert b[LeadingZeros(b)] != 0;
    } else {
      assert b == Zeros(|b|);
      RoundTripZero(|b|);
      assert |Zeros(|b| + 2)| != |b|;
    }
  }

  // ---- What the text says ----

  /** The alphabet, and the digit a character stands for. */
  lemma AlphabetIs(c: char, d: nat)
    requires d < 58
    ensures |ALPHABET| == 58
    ensures ALPHABET == "123456789" + "ABCDEFGH" + "JKLMN" + "PQRSTUVWXYZ" + "abcdefghijk" + "mnopqrstuvwxyz"
    ensures DigitOf(c) == d <==> c == ALPHABET[d]
  {
    AlphabetIncreases();
    FindIncreasing(ALPHABET, d);
  }

  /** One byte below 58 is spelled by its letter. */
  lemma EncodesOneByte(d: nat)
    requires 1 <= d < 58
    ensures |ALPHABET| == 58 && Encode([d]) == [ALPHABET[d]]
  {
    AlphabetIncreases();
    OneDigit(d);
    assert Zeros(LeadingZeros([d])) + Reverse([d]) == [d];
  }

  lemma OneDigit(d: nat)
    requires 1 <= d < 58
    ensures Convert([d], 256, 58) == [d]
  {
    assert [d][..0] == [];
    assert [0][1..] == [];
    assert MulAdd([0], 256, d, 58) == [d % 58] + MulAdd([], 256, d / 58, 58);
  }

  lemma NumeralValue(z: nat, r: seq<nat>, base: nat)
    ensures BigEndian(Zeros(z) + Reverse(r), base) == Value(r, base)
  {
    LeadingZerosValue(z, Reverse(r), base);
    ReverseValue(r, base);
  }

  lemma NumeralDigits(z: nat, r: seq<nat>, base: nat)
    requires Digits(r, base) && base >= 1
    ensures Digits(Zeros(z) + Reverse(r), base)
  {
  }

  lemma EncodedDigits(b: seq<nat>)
    requires Bytes(b)
    ensures var ds := DigitsOf(Encode(b));
      ds == Zeros(LeadingZeros(b)) + Reverse(Convert(b, 256, 58)) && Digits(ds, 58)
  {
    ConvertValue(b, 256, 58);
    NumeralDigits(LeadingZeros(b), Convert(b, 256, 58), 58);
    LettersBack(Zeros(LeadingZeros(b)) + Reverse(Convert(b, 256, 58)));
  }

  /** Of a byte string with a nonzero byte the text is its base-58 numeral, after one zero digit for each
      leading zero byte. */
  lemma EncodeIsTheNumeral(b: seq<nat>)
    requires Bytes(b) && LeadingZeros(b) < |b|
    ensures var ds := DigitsOf(Encode(b));
      Digits(ds, 58) && BigEndian(ds, 58) == BigEndian(b, 256) && LeadingZeros(ds) == LeadingZeros(b)
  {
    EncodedDigits(b);
    EncodedTop(b);
    ConvertValue(b, 256, 58);
    NumeralValue(LeadingZeros(b), Convert(b, 256, 58), 58);
    LeadingZerosAt(LeadingZeros(b), Convert(b, 256, 58));
  }

  lemma ForeignIff(s: string)
    ensures 58 in DigitsOf(s) <==> !Digits(DigitsOf(s), 58)
  {
  }

  lemma DecodedBytes(ds: seq<nat>, z: nat)
    ensures var r := Reverse(Convert(ds, 58, 256) + Zeros(z)); Bytes(r) && BigEndian(r, 256) == BigEndian(ds, 58)
  {
    var c := Convert(ds, 58, 256);
    ConvertValue(ds, 58, 256);
    ReverseAppendZeros(c, z);
    NumeralDigits(z, c, 256);
    NumeralValue(z, c, 256);
  }

  /** A text decodes exactly if all its characters are of the alphabet, and then to bytes of the same value. */
  lemma DecodeMeans(s: string)
    ensures var ds, r := DigitsOf(s), Decode(s);
      if Digits(ds, 58) then r.Ok? && Bytes(r.value) && BigEndian(r.value, 256) == BigEndian(ds, 58)
      else r == Err("bad base58 char")
  {
    ForeignIff(s);
    DecodedBytes(DigitsOf(s), LeadingZeros(DigitsOf(s)));
  }

  // ---- did:key ----

  const DID_PREFIX: string := "did:key:z"

  function PubToDid(pub: seq<nat>): string
    requires Bytes(pub)
  {
    DID_PREFIX + Encode([0xed, 0x01] + pub)
  }

  function DidToPub(did: string): Result<seq<nat>, string> {
    if !(DID_PREFIX <= did) then Err("not a did:key")
    else
      var mc := Decode(did[|DID_PREFIX|..]);
      if mc.Err? then mc
      else if |mc.value| < 34 || mc.value[0] != 0xed || mc.value[1] != 0x01 then Err("not an ed25519 did:key")
      else Ok(mc.value[2..34])
  }

  /** A key of at least 32 bytes comes back as its first 32; a shorter one is refused. */
  lemma DidRoundTrip(pub: seq<nat>)
    requires Bytes(pub)
    ensures DidToPub(PubToDid(pub)) ==
      if |pub| >= 32 then Ok(pub[..32]) else Err("not an ed25519 did:key")
  {
    var mc := [0xed, 0x01] + pub;
    RoundTripNonzero(mc);
    assert PubToDid(pub)[|DID_PREFIX|..] == Encode(mc);
    if |pub| >= 32 { assert mc[2..34] == pub[..32]; }
  }

  /** An identifier stands for a key exactly if it is did:key:z and the base-58 text of the bytes 237 and 1,
      the key's 32 bytes and possibly more. */
  lemma DidNamesKeyIff(did: string, pub: seq<nat>)
    ensures DidToPub(did) == Ok(pub) <==>
      && |pub| == 32 && "did:key:z" <= did && Decode(did[9..]).Ok? && [237, 1] + pub <= Decode(did[9..]).value
    ensures Bytes(pub) && |pub| == 32 ==> DidToPub("did:key:z" + Encode([237, 1] + pub)) == Ok(pub)
  {
    if |pub| == 32 && DID_PREFIX <= did && Decode(did[9..]).Ok? {
      FirstOf(Decode(did[9..]).value, pub);
    }
    if Bytes(pub) && |pub| == 32 {
      assert [0xed, 0x01] + pub == [237, 1] + pub;
      DidRoundTrip(pub);
      assert pub[..32] == pub;
    }
  }

  lemma FirstOf(mc: seq<nat>, pub: seq<nat>)
    requires |pub| == 32
    ensures [237, 1] + pub <= mc <==> |mc| >= 34 && mc[0] == 237 && mc[1] == 1 && mc[2..34] == pub
  {
    if |mc| >= 34 && mc[0] == 237 && mc[1] == 1 && mc[2..34] == pub {
      assert mc[..34] == [237, 1] + mc[2..34];
    }
    if [237, 1] + pub <= mc {
      assert mc[..34] == [237, 1] + pub;
      assert mc[2..34] == mc[..34][2..34];
    }
  }

  // ---- The loops ----

  lemma MulAddCons(ds: seq<nat>, mul: nat, carry: nat, base: nat)
    requires base >= 2 && ds != []
    ensures MulAdd(ds, mul, carry, base) ==
      [(ds[0] * mul + carry) % base] + MulAdd(ds[1..], mul, (ds[0] * mul + carry) / base, base)
  {
  }

  lemma MulAddPush(mul: nat, carry: nat, base: nat)
    requires base >= 2 && carry > 0
    ensures MulAdd([], mul, carry, base) == [carry % base] + MulAdd([], mul, carry / base, base)
  {
  }

  lemma CarryStep(before: seq<nat>, done: seq<nat>, j: nat, mul: nat, carry: nat, base: nat)
    requires base >= 2 && j < |before|
    ensures var c := carry + before[j] * mul;
      done + MulAdd(before[j..], mul, carry, base) ==
      (done + [c % base]) + MulAdd(before[j + 1..], mul, c / base, base)
  {
    MulAddCons(before[j..], mul, carry, base);
    assert before[j..][1..] == before[j + 1..];
  }

  lemma UpdateAt(done: seq<nat>, before: seq<nat>, j: nat, x: nat)
    requires |done| == j < |before|
    ensures (done + before[j..])[j] == before[j]
    ensures (done + before[j..])[j := x] == (done + [x]) + before[j + 1..]
  {
  }

  /** The carry loops of _b58encode for one byte.  The carry stays below 256, so 32-bit
      arithmetic is exact. */
  method EncodeByte(before: seq<nat>, b: nat) returns (digits: seq<nat>)
    requires Digits(before, 58) && b < 256
    ensures digits == MulAdd(before, 256, b, 58)
  {
    digits := before;
    var carry := b;
    var j := 0;
    ghost var done: seq<nat> := [];
    while j < |digits|
      invariant 0 <= j <= |digits| == |before| && |done| == j && carry < 256
      invariant digits == done + before[j..]
      invariant done + MulAdd(before[j..], 256, carry, 58) == MulAdd(before, 256, b, 58)
    {
      CarryStep(before, done, j, 256, carry, 58);
      carry := carry + digits[j] * 256;
      UpdateAt(done, before, j, carry % 58);
      digits := digits[j := carry % 58];
      done := done + [carry % 58];
      carry := carry / 58;
      j := j + 1;
    }
    assert before[j..] == [] && done == digits;
    digits := PushDigits(digits, carry);
  }

  method PushDigits(before: seq<nat>, left: nat) returns (digits: seq<nat>)
    requires left < 256
    ensures digits == before + MulAdd([], 256, left, 58)
  {
    digits := before;
    var carry := left;
    while carry > 0
      invariant carry < 256 && digits + MulAdd([], 256, carry, 58) == before + MulAdd([], 256, left, 58)
    {
      MulAddPush(256, carry, 58);
      digits := digits + [carry % 58];
      carry := carry / 58;
    }
  }

  /** The carry loops of _b58decode for one digit.  The carry stays below 58. */
  method DecodeDigit(before: seq<nat>, val: nat) returns (bytes: seq<nat>)
    requires Digits(before, 256) && val < 58
    ensures bytes == MulAdd(before, 58, val, 256)
  {
    bytes := before;
    var carry := val;
    var j := 0;
    ghost var done: seq<nat> := [];
    while j < |bytes|
      invariant 0 <= j <= |bytes| == |before| && |done| == j && carry < 58
      invariant bytes == done + before[j..]
      invariant done + MulAdd(before[j..], 58, carry, 256) == MulAdd(before, 58, val, 256)
    {
      CarryStep(before, done, j, 58, carry, 256);
      carry := carry + bytes[j] * 58;
      UpdateAt(done, before, j, carry % 256);
      bytes := bytes[j := carry % 256];
      done := done + [carry % 256];
      carry := carry / 256;
      j := j + 1;
    }
    assert before[j..] == [] && done == bytes;
    bytes := PushBytes(bytes, carry);
  }

  method PushBytes(before: seq<nat>, left: nat) returns (bytes: seq<nat>)
    requires left < 58
    ensures bytes == before + MulAdd([], 58, left, 256)
  {
    bytes := before;
    var carry := left;
    while carry > 0
      invariant carry < 58 && bytes + MulAdd([], 58, carry, 256) == before + MulAdd([], 58, left, 256)
    {
      MulAddPush(58, carry, 256);
      bytes := bytes + [carry % 256];
      carry := carry / 256;
    }
  }

  lemma ConvertNext(ds: seq<nat>, n: nat, mul: nat, base: nat)
    requires base >= 2 && mul >= 1 && n < |ds|
    ensures Convert(ds[..n + 1], mul, base) == MulAdd(Convert(ds[..n], mul, base), mul, ds[n], base)
    ensures Digits(Convert(ds[..n], mul, base), base)
  {
    assert ds[..n + 1][..n] == ds[..n];
    ConvertValue(ds[..n], mul, base);
  }

  /** The text of zero bytes and little-endian digits. */
  method Spell(bytes: seq<nat>, digits: seq<nat>) returns (s: string)
    requires Digits(digits, 58)
    ensures s == Letters(Zeros(LeadingZeros(bytes)) + Reverse(digits))
  {
    s := "";
    var k := 0;
    while k < |bytes| && bytes[k] == 0
      invariant 0 <= k <= LeadingZeros(bytes)
      invariant |s| == k && forall i :: 0 <= i < k ==> s[i] == '1'
    {
      s := s + "1";
      k := k + 1;
    }
    var i := |digits|;
    ghost var all := Zeros(k) + Reverse(digits);
    while i > 0
      invariant 0 <= i <= |digits| && k == LeadingZeros(bytes) && |s| == k + |digits| - i
      invariant forall x :: 0 <= x < |s| ==> s[x] == ALPHABET[all[x]]
    {
      i := i - 1;
      assert all[|s|] == digits[i];
      s := s + [ALPHABET[digits[i]]];
    }
  }

  /** _b58encode. */
  method EncodeLoop(bytes: seq<nat>) returns (s: string)
    requires Bytes(bytes)
    ensures s == Encode(bytes)
  {
    var digits: seq<nat> := [0];
    var n := 0;
    while n < |bytes|
      invariant 0 <= n <= |bytes| && digits == Convert(bytes[..n], 256, 58)
    {
      ConvertNext(bytes, n, 256, 58);
      digits := EncodeByte(digits, bytes[n]);
      n := n + 1;
    }
    assert bytes[..n] == bytes;
    ConvertValue(bytes, 256, 58);
    s := Spell(bytes, digits);
  }

  lemma OneIsZero(c: char)
    ensures DigitOf(c) == 0 <==> c == '1'
  {
    AlphabetIncreases();
    FindIncreasing(ALPHABET, 0);
  }

  /** _b58decode. */
  method DecodeLoop(s: string) returns (r: Result<seq<nat>, string>)
    ensures r == Decode(s)
  {
    ghost var ds := DigitsOf(s);
    var bytes: seq<nat> := [0];
    var n := 0;
    while n < |s|
      invariant 0 <= n <= |s| && 58 !in ds[..n] && bytes == Convert(ds[..n], 58, 256)
    {
      var val := DigitOf(s[n]);
      if val == 58 {
        assert ds[n] == 58;
        return Err("bad base58 char");
      }
      ConvertNext(ds, n, 58, 256);
      bytes := DecodeDigit(bytes, val);
      n := n + 1;
    }
    assert ds[..n] == ds;
    bytes := PushZeros(s, ds, bytes);
    r := Ok(Reverse(bytes));
  }

  method PushZeros(s: string, ghost ds: seq<nat>, body: seq<nat>) returns (bytes: seq<nat>)
    requires ds == DigitsOf(s)
    ensures bytes == body + Zeros(LeadingZeros(ds))
  {
    bytes := body;
    var k := 0;
    while k < |s| && s[k] == '1'
      invariant 0 <= k <= LeadingZeros(ds) && bytes == body + Zeros(k)
    {
      OneIsZero(s[k]);
      assert ds[k] == 0;
      assert body + Zeros(k + 1) == body + Zeros(k) + [0];
      bytes := bytes + [0];
      k := k + 1;
    }
    if k < |s| { OneIsZero(s[k]); assert ds[k] == DigitOf(s[k]); }
  }
}
