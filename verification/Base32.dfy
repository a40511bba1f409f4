// Base32 without padding (section 6 of RFC 4648) over a 32-bit accumulator
// that is never masked: encoding and decoding are inverse all the same.
module Base32 {

  datatype Result = Ok(bytes: seq<nat>) | Invalid

  const WORD := 0x1_0000_0000

  predicate AreBytes(bytes: seq<nat>) {
    forall i :: 0 <= i < |bytes| ==> bytes[i] < 256
  }

  // -------------------------------------------------------------------- bits

  function Pow2(n: nat): (p: nat)
    ensures p >= 1
  {
    if n == 0 then 1 else 2 * Pow2(n - 1)
  }

  // The shifts: `>>>` and `<<` on non-negative numbers.
  function Right(v: nat, k: nat): nat {
    if k == 0 then v else Right(v / 2, k - 1)
  }

  function Left(v: nat, k: nat): nat {
    if k == 0 then v else 2 * Left(v, k - 1)
  }

  // The n low bits of a number, highest first.
  function Bits(v: nat, n: nat): (bits: seq<int>)
    ensures |bits| == n
  {
    if n == 0 then [] else Bits(v / 2, n - 1) + [v % 2]
  }

  function Join(numbers: seq<nat>, width: nat): seq<int> {
    if numbers == [] then [] else Join(numbers[..|numbers| - 1], width) + Bits(numbers[|numbers| - 1], width)
  }

  lemma {:induction false} JoinLengths(numbers: seq<nat>)
    ensures |Join(numbers, 5)| == 5 * |numbers| && |Join(numbers, 8)| == 8 * |numbers|
  {
    if numbers != [] {
      JoinLengths(numbers[..|numbers| - 1]);
    }
  }

  lemma {:induction false} JoinSameLength(a: seq<nat>, b: seq<nat>, width: nat)
    requires |a| == |b|
    ensures |Join(a, width)| == |Join(b, width)|
  {
    if a != [] {
      JoinSameLength(a[..|a| - 1], b[..|b| - 1], width);
    }
  }

  function Zeros(n: nat): (bits: seq<int>)
    ensures |bits| == n
  {
    if n == 0 then [] else Zeros(n - 1) + [0]
  }

  lemma DivideHalf(x: nat, p: nat)
    requires p >= 1
    ensures x % (2 * p) % 2 == x % 2
    ensures x % (2 * p) / 2 == x / 2 % p
    ensures x / (2 * p) == x / 2 / p
  {
    var q, r := x / (2 * p), x % (2 * p);
    assert x == 2 * (p * q) + r by {
      assert x == q * (2 * p) + r;
      assert q * (2 * p) == 2 * (p * q);
    }
    assert x / 2 == p * q + r / 2;
    assert 0 <= r / 2 < p;
    Quotient(x / 2, p, q, r / 2);
  }

  lemma Multiple(p: nat, d: int)
    requires p >= 1
    ensures d >= 1 ==> p * d >= p
    ensures d <= -1 ==> p * d <= -(p as int)
  {
    if d >= 1 {
      assert p * d == p + p * (d - 1);
    } else if d <= -1 {
      assert p * d == -(p as int) + p * (d + 1);
    }
  }

  lemma Quotient(x: nat, p: nat, q: nat, r: nat)
    requires p >= 1 && x == p * q + r && r < p
    ensures x / p == q && x % p == r
  {
    var d := x / p - q;
    assert p * d == r - x % p by {
      assert x == p * (x / p) + x % p;
      assert p * (x / p) - p * q == p * (x / p - q);
    }
    Multiple(p, d);
  }

  // Only the low bits matter.
  lemma {:induction false} BitsLow(v: nat, n: nat, k: nat)
    requires n <= k
    ensures Bits(v % Pow2(k), n) == Bits(v, n)
  {
    if n > 0 {
      DivideHalf(v, Pow2(k - 1));
      BitsLow(v / 2, n - 1, k - 1);
    }
  }

  // Appending a number of known width.
  lemma {:induction false} BitsAppend(v: nat, n: nat, b: nat, k: nat)
    requires b < Pow2(k)
    ensures Bits(Left(v, k) + b, n + k) == Bits(v, n) + Bits(b, k)
  {
    if k > 0 {
      assert (Left(v, k) + b) / 2 == Left(v, k - 1) + b / 2 && (Left(v, k) + b) % 2 == b % 2;
      BitsAppend(v, n, b / 2, k - 1);
    }
  }

  // Taking the high bits off.
  lemma {:induction false} BitsSplit(v: nat, n: nat, k: nat)
    ensures Bits(v, n + k) == Bits(Right(v, k), n) + Bits(v, k)
  {
    if k > 0 {
      BitsSplit(v / 2, n, k - 1);
    }
  }

  lemma {:induction false} BitsShift(v: nat, n: nat, k: nat)
    ensures Bits(Left(v, k), n + k) == Bits(v, n) + Zeros(k)
  {
    BitsAppend(v, n, 0, k);
    BitsZero(k);
  }

  lemma {:induction false} BitsZero(k: nat)
    ensures Bits(0, k) == Zeros(k)
  {
    if k > 0 {
      BitsZero(k - 1);
    }
  }

  lemma {:induction false} BitsInjective(a: nat, b: nat, n: nat)
    requires a < Pow2(n) && b < Pow2(n) && Bits(a, n) == Bits(b, n)
    ensures a == b
  {
    if n > 0 {
      var x, y := Bits(a / 2, n - 1), Bits(b / 2, n - 1);
      assert (x + [a % 2])[n - 1] == (y + [b % 2])[n - 1];
      assert x == (x + [a % 2])[..n - 1] && y == (y + [b % 2])[..n - 1];
      BitsInjective(a / 2, b / 2, n - 1);
    }
  }

  lemma Powers()
    ensures Pow2(5) == 32 && Pow2(8) == 256 && Pow2(32) == WORD
  {
    assert Pow2(4) == 16 && Pow2(8) == 256;
    assert Pow2(12) == 4096 && Pow2(16) == 65536;
    assert Pow2(20) == 0x10_0000 && Pow2(24) == 0x100_0000 && Pow2(28) == 0x1000_0000;
  }

  lemma SmallPowers()
    ensures Pow2(5) == 32 && Pow2(8) == 256
  {
    Powers();
  }

  // ---------------------------------------------------------------- characters

  function Symbol(index: nat): char
    requires index < 32
  {
    if index < 26 then 'A' + index as char else '2' + (index - 26) as char
  }

  predicate IsSymbol(c: char) {
    'A' <= c <= 'Z' || '2' <= c <= '7'
  }

  function IndexOf(c: char): (index: nat)
    requires IsSymbol(c)
    ensures index < 32
  {
    if 'A' <= c <= 'Z' then c as int - 'A' as int else c as int - '2' as int + 26
  }

  lemma SymbolIndex(index: nat)
    requires index < 32
    ensures IsSymbol(Symbol(index)) && IndexOf(Symbol(index)) == index
  {
  }

  function Indices(text: string): (indices: seq<nat>)
    requires forall i :: 0 <= i < |text| ==> IsSymbol(text[i])
    ensures |indices| == |text| && forall i :: 0 <= i < |text| ==> indices[i] == IndexOf(text[i])
  {
    seq(|text|, i requires 0 <= i < |text| => IndexOf(text[i]))
  }

  // The blanks and line ends that `trim` removes.
  predicate IsSpace(c: char) {
    || '\U{0009}' <= c <= '\U{000D}' || c in {' ', '\U{00A0}', '\U{1680}'} || '\U{2000}' <= c <= '\U{200A}'
    || c in {'\U{2028}', '\U{2029}', '\U{202F}', '\U{205F}', '\U{3000}', '\U{FEFF}'}
  }

  function TrimStart(text: string): string {
    if text != "" && IsSpace(text[0]) then TrimStart(text[1..]) else text
  }

  function TrimEnd(text: string): string {
    if text != "" && IsSpace(text[|text| - 1]) then TrimEnd(text[..|text| - 1]) else text
  }

  function StripPadding(text: string): string {
    if text != "" && text[|text| - 1] == '=' then StripPadding(text[..|text| - 1]) else text
  }

  // The upper case of a character. Beside ASCII letters these are all that
  // have symbols for upper case: dotless i, long s, sharp s and the Latin
  // ligatures. Any other character leaves a text that is refused either way.
  function UpperOf(c: char): string {
    if 'a' <= c <= 'z' then [c - 'a' + 'A']
    else
      match c
      case '\U{00DF}' => "SS"
      case '\U{0131}' => "I"
      case '\U{017F}' => "S"
      case '\U{FB00}' => "FF"
      case '\U{FB01}' => "FI"
      case '\U{FB02}' => "FL"
      case '\U{FB03}' => "FFI"
      case '\U{FB04}' => "FFL"
      case '\U{FB05}' => "ST"
      case '\U{FB06}' => "ST"
      case _ => [c]
  }

  function Upper(text: string): string {
    if text == "" then "" else UpperOf(text[0]) + Upper(text[1..])
  }

  function Normalized(input: string): string {
    StripPadding(Upper(TrimStart(TrimEnd(input))))
  }

  predicate AllSymbols(text: string) {
    forall i :: 0 <= i < |text| ==> IsSymbol(text[i])
  }

  // ----------------------------------------------------------- what is computed

  // The bits of the text are the bits of the bytes, filled up with zeros.
  ghost predicate IsEncoding(bytes: seq<nat>, text: string) {
    && AllSymbols(text)
    && |text| == (8 * |bytes| + 4) / 5
    && Join(Indices(text), 5) == Join(bytes, 8) + Zeros(5 * |text| - 8 * |bytes|)
  }

  // The bits of the bytes are those of the text, but for an incomplete rest.
  ghost predicate IsDecoding(input: string, result: Result) {
    var text := Normalized(input);
    if text == "" || !AllSymbols(text) then result == Invalid
    else
      && result.Ok? && AreBytes(result.bytes)
      && |result.bytes| == 5 * |text| / 8
      && 8 * |result.bytes| <= |Join(Indices(text), 5)|
      && Join(result.bytes, 8) == Join(Indices(text), 5)[..8 * |result.bytes|]
  }

  lemma {:induction false} JoinInjective(a: seq<nat>, b: seq<nat>, width: nat)
    requires |a| == |b| && Join(a, width) == Join(b, width)
    requires forall i :: 0 <= i < |a| ==> a[i] < Pow2(width) && b[i] < Pow2(width)
    ensures a == b
  {
    hide Bits, Pow2;
    if a != [] {
      var n := |a| - 1;
      var x, y := Join(a[..n], width), Join(b[..n], width);
      JoinSameLength(a[..n], b[..n], width);
      assert x == (x + Bits(a[n], width))[..|x|] && y == (y + Bits(b[n], width))[..|y|];
      assert Bits(a[n], width) == (x + Bits(a[n], width))[|x|..] && Bits(b[n], width) == (y + Bits(b[n], width))[|y|..];
      forall i | 0 <= i < n
        ensures a[..n][i] < Pow2(width) && b[..n][i] < Pow2(width)
      {
        assert a[..n][i] == a[i] && b[..n][i] == b[i];
      }
      JoinInjective(a[..n], b[..n], width);
      BitsInjective(a[n], b[n], width);
      assert a == a[..n] + [a[n]] && b == b[..n] + [b[n]];
    }
  }

  lemma {:induction false} SymbolsAreUpper(text: string)
    requires AllSymbols(text)
    ensures Upper(text) == text
  {
    if text != "" {
      assert IsSymbol(text[0]);
      assert forall i :: 0 <= i < |text[1..]| ==> IsSymbol(text[1..][i]) by {
        assert forall i :: 0 <= i < |text[1..]| ==> text[1..][i] == text[i + 1];
      }
      SymbolsAreUpper(text[1..]);
    }
  }

  lemma EncodedIsNormal(text: string)
    requires AllSymbols(text)
    ensures Normalized(text) == text
  {
    assert text != "" ==> IsSymbol(text[0]) && IsSymbol(text[|text| - 1]);
    assert TrimEnd(text) == text && TrimStart(text) == text;
    SymbolsAreUpper(text);
  }

  // Decoding what was encoded gives the bytes back, exactly when there are any.
  lemma RoundTrip(bytes: seq<nat>, text: string, result: Result)
    requires AreBytes(bytes) && IsEncoding(bytes, text) && IsDecoding(text, result)
    ensures result == Ok(bytes) <==> bytes != []
    ensures bytes == [] ==> result == Invalid
  {
    EncodedIsNormal(text);
    if bytes != [] {
      var bits := Join(Indices(text), 5);
      JoinLengths(bytes);
      assert |result.bytes| == |bytes|;
      assert bits[..8 * |bytes|] == Join(bytes, 8);
      Powers();
      JoinInjective(result.bytes, bytes, 8);
    }
  }

  // ------------------------------------------------------------------ the loops

  function ShiftIn(value: nat, width: nat, x: nat): nat {
    (Left(value, width) + x) % WORD
  }

  // The next group of bits, high ones first.
  function Group(value: nat, bits: nat, width: nat): nat
    requires bits >= width
  {
    Right(value, bits - width) % Pow2(width)
  }

  lemma ShiftedIn(value: nat, bits: nat, width: nat, x: nat)
    requires x < Pow2(width) && bits + width <= 32
    ensures Bits(ShiftIn(value, width, x), bits + width) == Bits(value, bits) + Bits(x, width)
  {
    hide Bits, Pow2;
    Powers();
    BitsAppend(value, bits, x, width);
    BitsLow(Left(value, width) + x, bits + width, 32);
  }

  lemma GroupTaken(value: nat, bits: nat, width: nat)
    requires bits >= width
    ensures Bits(value, bits) == Bits(Group(value, bits, width), width) + Bits(value, bits - width)
    ensures Group(value, bits, width) < Pow2(width)
  {
    hide Bits, Pow2;
    BitsSplit(value, width, bits - width);
    BitsLow(Right(value, bits - width), width, width);
  }

  lemma JoinOne(numbers: seq<nat>, x: nat, width: nat)
    ensures Join(numbers + [x], width) == Join(numbers, width) + Bits(x, width)
  {
    assert (numbers + [x])[..|numbers|] == numbers;
  }

  // The numbers put out and the bits held back are the first n numbers taken in.
  ghost predicate Carries(output: seq<nat>, outWidth: nat, value: nat, bits: nat, input: seq<nat>, n: nat, inWidth: nat) {
    n <= |input| && Join(output, outWidth) + Bits(value, bits) == Join(input[..n], inWidth)
  }

  lemma CarriesNothing(outWidth: nat, value: nat, input: seq<nat>, inWidth: nat)
    ensures Carries([], outWidth, value, 0, input, 0, inWidth)
  {
  }

  lemma TakeIn(output: seq<nat>, outWidth: nat, value: nat, bits: nat, input: seq<nat>, n: nat, inWidth: nat, x: nat)
    requires n < |input| && x == input[n] < Pow2(inWidth) && bits + inWidth <= 32
    requires Carries(output, outWidth, value, bits, input, n, inWidth)
    ensures Carries(output, outWidth, ShiftIn(value, inWidth, x), bits + inWidth, input, n + 1, inWidth)
  {
    hide Join, Bits, ShiftIn, Pow2;
    assert input[..n + 1] == input[..n] + [x];
    JoinOne(input[..n], x, inWidth);
    ShiftedIn(value, bits, inWidth, x);
    Regroup(Join(output, outWidth), Bits(value, bits), Bits(x, inWidth));
  }

  lemma PutOut(output: seq<nat>, outWidth: nat, value: nat, bits: nat, input: seq<nat>, n: nat, inWidth: nat)
    requires bits >= outWidth && Carries(output, outWidth, value, bits, input, n, inWidth)
    ensures Group(value, bits, outWidth) < Pow2(outWidth)
    ensures Carries(output + [Group(value, bits, outWidth)], outWidth, value, bits - outWidth, input, n, inWidth)
  {
    hide Join, Bits, Group, Pow2;
    GroupTaken(value, bits, outWidth);
    JoinOne(output, Group(value, bits, outWidth), outWidth);
    Regroup(Join(output, outWidth), Bits(Group(value, bits, outWidth), outWidth), Bits(value, bits - outWidth));
  }

  lemma Regroup(a: seq<int>, b: seq<int>, c: seq<int>)
    ensures a + (b + c) == a + b + c
  {
  }

  // Filling up the last group with zeros.
  lemma FillUp(output: seq<nat>, value: nat, bits: nat, input: seq<nat>)
    requires 0 < bits < 5 && Carries(output, 5, value, bits, input, |input|, 8)
    ensures Join(output + [ShiftIn(value, 5 - bits, 0) % 32], 5) == Join(input, 8) + Zeros(5 - bits)
  {
    hide Join, Bits, ShiftIn, Zeros;
    assert input[..|input|] == input;
    LastGroup(value, bits);
    JoinOne(output, ShiftIn(value, 5 - bits, 0) % 32, 5);
    Regroup(Join(output, 5), Bits(value, bits), Zeros(5 - bits));
  }

  lemma NothingToFill(output: seq<nat>, value: nat, input: seq<nat>)
    requires Carries(output, 5, value, 0, input, |input|, 8)
    ensures Join(output, 5) == Join(input, 8) + Zeros(0)
  {
    assert input[..|input|] == input;
  }

  // All full groups; fewer than five bits are held back.
  method EncodeGroups(bytes: seq<nat>) returns (output: string, ghost indices: seq<nat>, value: nat, bits: nat)
    requires AreBytes(bytes)
    ensures bits < 5 && 5 * |indices| + bits == 8 * |bytes|
    ensures Spells(output, indices) && Carries(indices, 5, value, bits, bytes, |bytes|, 8)
  {
    bits, value, output, indices := 0, 0, "", [];
    SmallPowers();
    assert Spells(output, indices);
    hide Bits, Join, Pow2, ShiftIn, Group, Carries, Spells, Symbol;
    CarriesNothing(5, value, bytes, 8);
    for i := 0 to |bytes|
      invariant bits < 5 && 5 * |indices| + bits == 8 * i
      invariant Spells(output, indices) && Carries(indices, 5, value, bits, bytes, i, 8)
    {
      TakeIn(indices, 5, value, bits, bytes, i, 8, bytes[i]);
      value := ShiftIn(value, 8, bytes[i]);
      bits := bits + 8;
      while bits >= 5
        invariant bits < 13 && 5 * |indices| + bits == 8 * (i + 1)
        invariant Spells(output, indices) && Carries(indices, 5, value, bits, bytes, i + 1, 8)
      {
        PutOut(indices, 5, value, bits, bytes, i + 1, 8);
        var index := Group(value, bits, 5);
        SpellsOne(output, indices, index);
        output := output + [Symbol(index)];
        indices := indices + [index];
        bits := bits - 5;
      }
    }
  }

  method Base32Encode(bytes: seq<nat>) returns (output: string)
    requires AreBytes(bytes)
    ensures IsEncoding(bytes, output)
  {
    var value: nat, bits: nat;
    ghost var indices: seq<nat>;
    output, indices, value, bits := EncodeGroups(bytes);
    hide Bits, Join, Pow2, Zeros, ShiftIn, Carries, Symbol, IsEncoding, Spells, AreBytes, Left;
    if bits > 0 {
      FillUp(indices, value, bits, bytes);
      var index := ShiftIn(value, 5 - bits, 0) % 32;
      SpellsOne(output, indices, index);
      SpelledOut(output + [Symbol(index)], indices + [index], bytes, 5 - bits);
      output := output + [Symbol(index)];
    } else {
      NothingToFill(indices, value, bytes);
      SpelledOut(output, indices, bytes, 0);
    }
  }

  lemma SpelledOut(text: string, indices: seq<nat>, bytes: seq<nat>, pad: nat)
    requires Spells(text, indices) && 5 * |indices| == 8 * |bytes| + pad && pad < 5
    requires Join(indices, 5) == Join(bytes, 8) + Zeros(pad)
    ensures IsEncoding(bytes, text)
  {
    hide Join, Zeros, Bits, Pow2, Symbol;
    SpellsIndices(text, indices);
  }

  // The remaining bits, moved up to fill a group.
  lemma LastGroup(value: nat, bits: nat)
    requires 0 < bits < 5
    ensures Bits(ShiftIn(value, 5 - bits, 0) % 32, 5) == Bits(value, bits) + Zeros(5 - bits)
  {
    hide Bits, Zeros, Pow2;
    Powers();
    BitsLow(ShiftIn(value, 5 - bits, 0), 5, 5);
    BitsLow(Left(value, 5 - bits) + 0, 5, 32);
    BitsShift(value, bits, 5 - bits);
  }

  ghost predicate Spells(text: string, indices: seq<nat>) {
    && |text| == |indices|
    && forall i :: 0 <= i < |text| ==> indices[i] < 32 && text[i] == Symbol(indices[i])
  }

  lemma SpellsOne(text: string, indices: seq<nat>, index: nat)
    requires Spells(text, indices) && index < 32
    ensures Spells(text + [Symbol(index)], indices + [index])
  {
  }

  lemma SpellsIndices(text: string, indices: seq<nat>)
    requires Spells(text, indices)
    ensures AllSymbols(text) && Indices(text) == indices
  {
    forall i | 0 <= i < |text|
      ensures IsSymbol(text[i]) && IndexOf(text[i]) == indices[i]
    {
      SymbolIndex(indices[i]);
    }
  }

  lemma HoldsBack(output: seq<nat>, value: nat, bits: nat, input: seq<nat>)
    requires Carries(output, 8, value, bits, input, |input|, 5)
    ensures 8 * |output| <= |Join(input, 5)| && Join(output, 8) == Join(input, 5)[..8 * |output|]
  {
    JoinLengths(output);
    assert input[..|input|] == input;
  }

  lemma SpelledAt(text: string, indices: seq<nat>, i: nat)
    requires Spells(text, indices) && i < |text|
    ensures IsSymbol(text[i]) && indices[i] == IndexOf(text[i]) < 32
  {
    SymbolIndex(indices[i]);
  }

  lemma IndicesSpell(text: string)
    requires AllSymbols(text)
    ensures Spells(text, Indices(text))
  {
    forall i | 0 <= i < |text|
      ensures text[i] == Symbol(IndexOf(text[i]))
    {
    }
  }

  // Between two symbols: fewer than eight bits are held back.
  ghost predicate Decoding(output: seq<nat>, value: nat, bits: nat, indices: seq<nat>, n: nat) {
    && bits < 8 && 8 * |output| + bits == 5 * n && AreBytes(output)
    && Carries(output, 8, value, bits, indices, n, 5)
  }

  lemma DecodingStarts(indices: seq<nat>)
    ensures Decoding([], 0, 0, indices, 0)
  {
    CarriesNothing(8, 0, indices, 5);
  }

  // One symbol, which may complete a byte.
  method DecodeSymbol(output: seq<nat>, value: nat, bits: nat, index: nat, ghost indices: seq<nat>, ghost n: nat)
    returns (output': seq<nat>, value': nat, bits': nat)
    requires n < |indices| && index == indices[n] < 32 && Decoding(output, value, bits, indices, n)
    ensures Decoding(output', value', bits', indices, n + 1)
  {
    hide Carries, ShiftIn, Group, Pow2;
    SmallPowers();
    TakeIn(output, 8, value, bits, indices, n, 5, index);
    output', value', bits' := output, ShiftIn(value, 5, index), bits + 5;
    if bits' >= 8 {
      PutOut(output, 8, value', bits', indices, n + 1, 5);
      output' := output + [Group(value', bits', 8)];
      bits' := bits' - 8;
    }
  }

  method DecodeSymbols(text: string, ghost indices: seq<nat>) returns (output: seq<nat>, value: nat, bits: nat)
    requires Spells(text, indices)
    ensures Decoding(output, value, bits, indices, |indices|)
  {
    output, value, bits := [], 0, 0;
    assert |indices| == |text|;
    hide Decoding, Spells;
    DecodingStarts(indices);
    for i := 0 to |text|
      invariant Decoding(output, value, bits, indices, i)
    {
      SpelledAt(text, indices, i);
      output, value, bits := DecodeSymbol(output, value, bits, IndexOf(text[i]), indices, i);
    }
  }

  method Base32Decode(input: string) returns (result: Result)
    ensures IsDecoding(input, result)
  {
    var normalized := Normalized(input);
    if normalized == "" || !AllSymbols(normalized) {
      return Invalid;
    }
    IndicesSpell(normalized);
    var output, value, bits := DecodeSymbols(normalized, Indices(normalized));
    HoldsBack(output, value, bits, Indices(normalized));
    result := Ok(output);
  }
}
