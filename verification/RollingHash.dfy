/** The rolling content hash of `internal/hash/hash.go`: a base-31 polynomial over bytes or
    UTF-16 code units in wrapping 32-bit arithmetic, with sampling for large files. */
module RollingHash {
  import opened ByteTypes

  const TWO31: int := 0x8000_0000
  const TWO32: int := 0x1_0000_0000

  // ----- 32-bit wrap-around ------------------------------------------------------------------

  /** The signed 32-bit residue of `x`. */
  function Wrap32(x: int): int {
    (x + TWO31) % TWO32 - TWO31
  }

  /** `Wrap32(x)` is the only representable number congruent to `x`. */
  lemma WrapMeaning(x: int, r: int)
    ensures r == Wrap32(x) <==> -TWO31 <= r < TWO31 && exists k :: r == x + k * TWO32
  {
    var k := -((x + TWO31) / TWO32);
    assert Wrap32(x) == x + k * TWO32;
  }

  lemma WrapShift(x: int, k: int)
    ensures Wrap32(x + k * TWO32) == Wrap32(x)
  {
    WrapMeaning(x, Wrap32(x));
    var j :| Wrap32(x) == x + j * TWO32;
    assert Wrap32(x) == (x + k * TWO32) + (j - k) * TWO32;
    WrapMeaning(x + k * TWO32, Wrap32(x));
  }

  /** Wrapping early does not change a later wrapped result. */
  lemma WrapEarly(x: int, m: int, c: int)
    ensures Wrap32(Wrap32(x) * m + c) == Wrap32(x * m + c)
  {
    WrapMeaning(x, Wrap32(x));
    var r, k :| r == Wrap32(x) && r == x + k * TWO32;
    hide Wrap32;
    assert r * m + c == (x * m + c) + (k * m) * TWO32;
    WrapShift(x * m + c, k * m);
  }

  // ----- The polynomial ----------------------------------------------------------------------

  function Pow31(n: nat): int {
    if n == 0 then 1 else 31 * Pow31(n - 1)
  }

  /** The sum of `units[i] * 31^(n-1-i)`, over unbounded integers. */
  function Poly(units: seq<int>): int {
    if units == [] then 0 else units[0] * Pow31(|units| - 1) + Poly(units[1..])
  }

  /** What a hash means: the signed 32-bit residue of the polynomial. */
  function Residue(units: seq<int>): int {
    Wrap32(Poly(units))
  }

  lemma Pow31Add(m: nat, n: nat)
    ensures Pow31(m + n) == Pow31(m) * Pow31(n)
  {
    if m != 0 {
      Pow31Add(m - 1, n);
      assert 31 * (Pow31(m - 1) * Pow31(n)) == (31 * Pow31(m - 1)) * Pow31(n);
    }
  }

  lemma {:induction false} PolyConcat(a: seq<int>, b: seq<int>)
    ensures Poly(a + b) == Poly(a) * Pow31(|b|) + Poly(b)
  {
    if a == [] {
      assert a + b == b;
    } else {
      var n, p, q := a[0], Pow31(|a| - 1), Pow31(|b|);
      assert (a + b)[1..] == a[1..] + b;
      PolyConcat(a[1..], b);
      Pow31Add(|a| - 1, |b|);
      Factor(n, p, q, Poly(a[1..]));
    }
  }

  lemma Factor(n: int, p: int, q: int, x: int)
    ensures n * (p * q) + x * q == (n * p + x) * q
  {
  }

  lemma PolySnoc(a: seq<int>, x: int)
    ensures Poly(a + [x]) == 31 * Poly(a) + x
  {
    PolyConcat(a, [x]);
    assert Pow31(1) == 31 * Pow31(0);
    assert Poly([x]) == x * Pow31(0) + Poly([]) by { assert [x][1..] == []; }
  }

  lemma WrapBoth(p: int, x: int, m: int, y: int)
    requires p == x * m + y
    ensures Wrap32(p) == Wrap32(Wrap32(x) * m + Wrap32(y))
  {
    hide Wrap32;
    WrapEarly(x, m, Wrap32(y));
    var xm := x * m;
    WrapEarly(y, 1, xm);
    assert Wrap32(y) * 1 == Wrap32(y) && y * 1 == y;
  }

  /** The hash of a concatenation follows from the two hashes and the length of the second part. */
  lemma ConcatLaw(a: seq<int>, b: seq<int>)
    ensures Residue(a + b) == Wrap32(Residue(a) * Pow31(|b|) + Residue(b))
  {
    hide Wrap32, Poly, Pow31;
    PolyConcat(a, b);
    WrapBoth(Poly(a + b), Poly(a), Pow31(|b|), Poly(b));
  }

  // ----- The loops ---------------------------------------------------------------------------

  lemma RollStep(a: seq<int>, x: int)
    ensures Wrap32(Wrap32(Residue(a) * 31) + x) == Residue(a + [x])
  {
    hide Wrap32;
    PolySnoc(a, x);
    WrapEarly(Poly(a), 31, 0);
    WrapEarly(Poly(a) * 31, 1, x);
  }

  /** `Content`: both the product and the sum wrap. */
  method Content(data: Bytes) returns (sum: int)
    ensures sum == Residue(data)
  {
    sum := 0;
    var i := 0;
    assert data[..0] == [];
    while i < |data|
      invariant 0 <= i <= |data|
      invariant sum == Residue(data[..i])
    {
      RollStep(data[..i], data[i]);
      assert data[..i + 1] == data[..i] + [data[i]];
      sum := Wrap32(Wrap32(sum * 31) + data[i]);
      i := i + 1;
    }
    assert data[..i] == data;
  }

  lemma UnsignedRoll(p: int, x: int)
    ensures (p % TWO32 * 31 + x) % TWO32 == (31 * p + x) % TWO32
  {
  }

  lemma UnsignedStep(a: seq<int>, x: int)
    ensures (Poly(a) % TWO32 * 31 + x) % TWO32 == Poly(a + [x]) % TWO32
  {
    PolySnoc(a, x);
    UnsignedRoll(Poly(a), x);
  }

  lemma SignedOfUnsigned(p: int)
    ensures Wrap32(p) == (if p % TWO32 >= TWO31 then p % TWO32 - TWO32 else p % TWO32)
  {
    var k := p / TWO32;
    assert p == p % TWO32 + k * TWO32;
    WrapShift(p % TWO32, k);
  }

  /** The smoke tests keep the running value unsigned and convert once at the end. */
  method UnsignedThenSigned(units: Bytes) returns (hash: int)
    ensures hash == Residue(units)
  {
    hash := 0;
    var i := 0;
    assert units[..0] == [];
    while i < |units|
      invariant 0 <= i <= |units|
      invariant hash == Poly(units[..i]) % TWO32
    {
      UnsignedStep(units[..i], units[i]);
      assert units[..i + 1] == units[..i] + [units[i]];
      hash := (hash * 31 + units[i]) % TWO32;
      i := i + 1;
    }
    assert units[..i] == units;
    if hash >= TWO31 {
      hash := hash - TWO32;
    }
    SignedOfUnsigned(Poly(units));
  }

  // ----- Sampling of large files -------------------------------------------------------------

  const FULL_FILE_HASH_LIMIT: int := 10 * 1024 * 1024
  const FILE_HASH_SAMPLE: int := 5 * 1024 * 1024

  /** Position in a large file of the `k`th sampled byte. */
  function SampleOffset(size: nat, k: nat): int {
    if k < FILE_HASH_SAMPLE then k
    else if k < 2 * FILE_HASH_SAMPLE then size / 2 - FILE_HASH_SAMPLE / 2 + (k - FILE_HASH_SAMPLE)
    else size - 3 * FILE_HASH_SAMPLE + k
  }

  /** Every sampled position lies inside the file; the first and the last byte are sampled. */
  lemma SamplesInBounds(size: nat)
    requires size > FULL_FILE_HASH_LIMIT
    ensures forall k: nat | k < 3 * FILE_HASH_SAMPLE :: 0 <= SampleOffset(size, k) < size
    ensures SampleOffset(size, 0) == 0
    ensures SampleOffset(size, 3 * FILE_HASH_SAMPLE - 1) == size - 1
  {
  }

  /** The bytes that are hashed, given position by position. */
  ghost function Sample(data: Bytes): (sample: Bytes)
    ensures |data| > FULL_FILE_HASH_LIMIT ==> |sample| == 3 * FILE_HASH_SAMPLE
  {
    if |data| <= FULL_FILE_HASH_LIMIT then data
    else
      SamplesInBounds(|data|);
      seq(3 * FILE_HASH_SAMPLE, k requires 0 <= k < 3 * FILE_HASH_SAMPLE => data[SampleOffset(|data|, k)])
  }

  lemma ThreeSlices(data: Bytes, sample: Bytes, n: nat, middle: nat)
    requires |sample| == 3 * n && n <= |data| && middle + n <= |data|
    requires forall k: nat | k < n :: sample[k] == data[k]
    requires forall k: nat | n <= k < 2 * n :: sample[k] == data[middle + (k - n)]
    requires forall k: nat | 2 * n <= k < 3 * n :: sample[k] == data[|data| - 3 * n + k]
    ensures sample == data[..n] + data[middle..middle + n] + data[|data| - n..]
  {
  }

  lemma SampleAt(data: Bytes, k: nat)
    requires |data| > FULL_FILE_HASH_LIMIT && k < 3 * FILE_HASH_SAMPLE
    ensures 0 <= SampleOffset(|data|, k) < |data| && Sample(data)[k] == data[SampleOffset(|data|, k)]
  {
    SamplesInBounds(|data|);
  }

  /** For a large file these are three slices: the head, the middle and the tail. */
  lemma SampleIsThreeSlices(data: Bytes)
    requires |data| > FULL_FILE_HASH_LIMIT
    ensures var middle := |data| / 2 - FILE_HASH_SAMPLE / 2;
      && 0 <= middle && middle + FILE_HASH_SAMPLE <= |data|
      && Sample(data) ==
         data[..FILE_HASH_SAMPLE] + data[middle..middle + FILE_HASH_SAMPLE] + data[|data| - FILE_HASH_SAMPLE..]
  {
    hide Sample;
    forall k: nat | k < 3 * FILE_HASH_SAMPLE
      ensures 0 <= SampleOffset(|data|, k) < |data| && Sample(data)[k] == data[SampleOffset(|data|, k)] {
      SampleAt(data, k);
    }
    ThreeSlices(data, Sample(data), FILE_HASH_SAMPLE, |data| / 2 - FILE_HASH_SAMPLE / 2);
  }

  /** Up to ten mebibytes a file is hashed whole; above it, three times five mebibytes of it are. */
  lemma SampleSizes(data: Bytes)
    ensures |data| <= 10_485_760 ==> Sample(data) == data
    ensures |data| > 10_485_760 ==> |Sample(data)| == 15_728_640
  {
  }

  /** `FileContent`: slices appended from a whole buffer. */
  method FileContent(data: Bytes) returns (hash: int)
    ensures hash == Residue(Sample(data))
  {
    if |data| <= FULL_FILE_HASH_LIMIT {
      hash := Content(data);
      return;
    }
    SampleIsThreeSlices(data);
    hide Sample, Residue;
    var middle := |data| / 2 - FILE_HASH_SAMPLE / 2;
    var s: Bytes := [];
    s := s + data[..FILE_HASH_SAMPLE];
    s := s + data[middle..middle + FILE_HASH_SAMPLE];
    s := s + data[|data| - FILE_HASH_SAMPLE..];
    assert s == Sample(data);
    hash := Content(s);
  }

  /** `readFileSamples`: three reads at offsets into one preallocated buffer. */
  method ReadFileSamples(file: Bytes) returns (sample: array<Byte>)
    requires |file| > FULL_FILE_HASH_LIMIT
    ensures sample[..] == Sample(file)
  {
    sample := new Byte[3 * FILE_HASH_SAMPLE];
    var middle := |file| / 2 - FILE_HASH_SAMPLE / 2;
    var offsets := [0, middle, |file| - FILE_HASH_SAMPLE];
    SamplesInBounds(|file|);
    for index := 0 to 3
      invariant forall k: nat | k < index * FILE_HASH_SAMPLE ::
                  sample[k] == file[SampleOffset(|file|, k)]
    {
      var base, offset := index * FILE_HASH_SAMPLE, offsets[index];
      forall k | base <= k < base + FILE_HASH_SAMPLE {
        sample[k] := file[offset + (k - base)];
      }
    }
  }

  /** `File` streams the samples of a large file instead of loading it, and still agrees with
      `FileContent` at every length. */
  method File(file: Bytes) returns (hash: int, size: int)
    ensures size == |file| && hash == Residue(Sample(file))
  {
    if |file| <= FULL_FILE_HASH_LIMIT {
      hash := Content(file);
    } else {
      var sample := ReadFileSamples(file);
      hash := Content(sample[..]);
    }
    size := |file|;
  }

  // ----- Text: UTF-8 bytes to runes to UTF-16 code units ---------------------------------------

  const RUNE_ERROR: int := 0xFFFD

  /** Go's decoding of the first rune of non-empty UTF-8 text, with its width in bytes. */
  function DecodeRune(s: Bytes): (d: (int, nat))
    requires s != []
    ensures 1 <= d.1 <= |s|
    ensures s[0] < 0x80 ==> d == (s[0] as int, 1)
    ensures s[0] >= 0x80 && d.1 == 1 ==> d.0 == RUNE_ERROR
    ensures d.0 >= 0x1_0000 ==> d.1 == 4
    ensures IsScalar(d.0)
  {
    var b0: int := s[0];
    var b1: int := if |s| > 1 then s[1] else 0;
    var b2: int := if |s| > 2 then s[2] else 0;
    var b3: int := if |s| > 3 then s[3] else 0;
    if b0 < 0x80 then (b0, 1)
    else if 0xC2 <= b0 <= 0xDF && 0x80 <= b1 <= 0xBF then
      ((b0 - 0xC0) * 0x40 + (b1 - 0x80), 2)
    else if 0xE0 <= b0 <= 0xEF && 0x80 <= b2 <= 0xBF
            && (if b0 == 0xE0 then 0xA0 else 0x80) <= b1 <= (if b0 == 0xED then 0x9F else 0xBF) then
      ((b0 - 0xE0) * 0x1000 + (b1 - 0x80) * 0x40 + (b2 - 0x80), 3)
    else if 0xF0 <= b0 <= 0xF4 && 0x80 <= b2 <= 0xBF && 0x80 <= b3 <= 0xBF
            && (if b0 == 0xF0 then 0x90 else 0x80) <= b1 <= (if b0 == 0xF4 then 0x8F else 0xBF) then
      ((b0 - 0xF0) * 0x4_0000 + (b1 - 0x80) * 0x1000 + (b2 - 0x80) * 0x40 + (b3 - 0x80), 4)
    else (RUNE_ERROR, 1)
  }

  /** Unicode scalar values: everything but the surrogate range. */
  predicate IsScalar(r: int) { 0 <= r < 0xD800 || 0xE000 <= r < 0x11_0000 }

  /** The UTF-8 encoding of section 3 of RFC 3629. */
  function EncodeUtf8(r: int): (b: Bytes)
    requires IsScalar(r)
    ensures 1 <= |b| <= 4
  {
    if r < 0x80 then [r]
    else if r < 0x800 then [0xC0 + r / 0x40, 0x80 + r % 0x40]
    else if r < 0x1_0000 then [0xE0 + r / 0x1000, 0x80 + r / 0x40 % 0x40, 0x80 + r % 0x40]
    else [0xF0 + r / 0x4_0000, 0x80 + r / 0x1000 % 0x40, 0x80 + r / 0x40 % 0x40, 0x80 + r % 0x40]
  }

  /** Decoding undoes encoding, whatever follows. */
  lemma DecodeEncoded(r: int, rest: Bytes)
    requires IsScalar(r)
    ensures DecodeRune(EncodeUtf8(r) + rest) == (r, |EncodeUtf8(r)|)
  {
    var s := EncodeUtf8(r) + rest;
    assert forall i | 0 <= i < |EncodeUtf8(r)| :: s[i] == EncodeUtf8(r)[i];
    Digits(r);
  }

  lemma Digits(r: int)
    requires 0 <= r
    ensures r == r / 0x40 * 0x40 + r % 0x40 && r / 0x40 == r / 0x1000 * 0x40 + r / 0x40 % 0x40
    ensures r / 0x1000 == r / 0x4_0000 * 0x40 + r / 0x1000 % 0x40
  {
    assert r / 0x1000 == r / 0x40 / 0x40 && r / 0x4_0000 == r / 0x1000 / 0x40;
  }

  /** What is decoded is the encoding at the front of the text, if there is one, and one bad byte otherwise. */
  lemma DecodeExactly(s: Bytes)
    requires s != []
    ensures var d := DecodeRune(s);
      if exists r :: IsScalar(r) && EncodeUtf8(r) <= s then EncodeUtf8(d.0) == s[..d.1] else d == (RUNE_ERROR, 1)
  {
    if r :| IsScalar(r) && EncodeUtf8(r) <= s {
      DecodeEncoded(r, s[|EncodeUtf8(r)|..]);
      assert EncodeUtf8(r) + s[|EncodeUtf8(r)|..] == s;
    } else {
      GoodIsEncoded(s);
    }
  }

  lemma DivMod(q: int, m: int)
    requires 0 <= m < 0x40
    ensures (q * 0x40 + m) / 0x40 == q && (q * 0x40 + m) % 0x40 == m
  {
  }

  lemma ThreeDigits(x: int, y: int, z: int)
    requires 0 <= y < 0x40 && 0 <= z < 0x40
    ensures var r := x * 0x1000 + y * 0x40 + z; r / 0x1000 == x && r / 0x40 % 0x40 == y && r % 0x40 == z
  {
    var r := x * 0x1000 + y * 0x40 + z;
    DivMod(x * 0x40 + y, z);
    DivMod(x, y);
    assert r / 0x1000 == r / 0x40 / 0x40;
  }

  lemma FourDigits(w: int, x: int, y: int, z: int)
    requires 0 <= x < 0x40 && 0 <= y < 0x40 && 0 <= z < 0x40
    ensures var r := w * 0x4_0000 + x * 0x1000 + y * 0x40 + z;
      r / 0x4_0000 == w && r / 0x1000 % 0x40 == x && r / 0x40 % 0x40 == y && r % 0x40 == z
  {
    var r := w * 0x4_0000 + x * 0x1000 + y * 0x40 + z;
    ThreeDigits(w * 0x40 + x, y, z);
    DivMod(w, x);
    assert r / 0x4_0000 == r / 0x1000 / 0x40;
  }

  lemma GoodIsEncoded(s: Bytes)
    requires s != []
    ensures DecodeRune(s) == (RUNE_ERROR, 1) || EncodeUtf8(DecodeRune(s).0) == s[..DecodeRune(s).1]
  {
    var d := DecodeRune(s);
    if d.1 == 2 {
      DivMod(s[0] as int - 0xC0, s[1] as int - 0x80);
    } else if d.1 == 3 {
      ThreeDigits(s[0] as int - 0xE0, s[1] as int - 0x80, s[2] as int - 0x80);
    } else if d.1 == 4 {
      FourDigits(s[0] as int - 0xF0, s[1] as int - 0x80, s[2] as int - 0x80, s[3] as int - 0x80);
    }
  }

  function EncodedText(runes: seq<int>): Bytes
    requires forall r | r in runes :: IsScalar(r)
  {
    if runes == [] then [] else EncodeUtf8(runes[0]) + EncodedText(runes[1..])
  }

  /** The characters of an encoded text are the ones that were encoded. */
  lemma {:induction false} RunesOfText(runes: seq<int>)
    requires forall r | r in runes :: IsScalar(r)
    ensures Runes(EncodedText(runes)) == runes
  {
    if runes != [] {
      var head, tail := EncodeUtf8(runes[0]), EncodedText(runes[1..]);
      hide EncodeUtf8, DecodeRune;
      DecodeEncoded(runes[0], tail);
      RunesOfText(runes[1..]);
      assert (head + tail)[|head|..] == tail;
    }
  }

  /** RFC 2781, section 2.1. */
  function EncodeUtf16(r: int): (units: seq<int>)
    requires IsScalar(r)
    ensures |units| == (if r < 0x1_0000 then 1 else 2)
  {
    if r < 0x1_0000 then [r]
    else [0xD800 + (r - 0x1_0000) / 0x400, 0xDC00 + (r - 0x1_0000) % 0x400]
  }

  /** The UTF-16 code units of UTF-8 text: `utf16.Encode([]rune(value))`. */
  function Units(text: Bytes): seq<int> {
    if text == [] then [] else
      var (r, width) := DecodeRune(text);
      EncodeUtf16(r) + Units(text[width..])
  }

  /** RFC 2781, section 2.2. */
  function DecodeUtf16(units: seq<int>): seq<int> {
    if units == [] then []
    else if |units| >= 2 && 0xD800 <= units[0] < 0xDC00 && 0xDC00 <= units[1] < 0xE000 then
      [0x1_0000 + (units[0] - 0xD800) * 0x400 + (units[1] - 0xDC00)] + DecodeUtf16(units[2..])
    else [units[0]] + DecodeUtf16(units[1..])
  }

  function Runes(text: Bytes): seq<int> {
    if text == [] then [] else
      var (r, width) := DecodeRune(text);
      [r] + Runes(text[width..])
  }

  /** No two texts with different characters share their code units. */
  lemma {:induction false} UnitsKeepRunes(text: Bytes)
    ensures DecodeUtf16(Units(text)) == Runes(text)
  {
    if text != [] {
      var (r, width) := DecodeRune(text);
      var head, tail := EncodeUtf16(r), Units(text[width..]);
      UnitsKeepRunes(text[width..]);
      assert (head + tail)[|head|..] == tail;
    }
  }

  predicate Ascii(text: Bytes) { forall i | 0 <= i < |text| :: text[i] < 0x80 }

  lemma {:induction false} UnitsNoLonger(text: Bytes)
    ensures |Units(text)| <= |text|
  {
    if text != [] {
      UnitsNoLonger(text[DecodeRune(text).1..]);
    }
  }

  /** Code units and bytes are the same sequence exactly on ASCII text. */
  lemma {:induction false} AsciiUnits(text: Bytes)
    ensures Units(text) == text <==> Ascii(text)
  {
    if text != [] {
      var (r, width) := DecodeRune(text);
      var rest := text[width..];
      UnitsNoLonger(rest);
      if width == 1 {
        AsciiUnits(rest);
        assert text == [text[0]] + rest;
        assert Ascii(text) <==> text[0] < 0x80 && Ascii(rest);
        if text[0] < 0x80 {
          assert Units(text) == [text[0] as int] + Units(rest);
          assert Units(text) == text ==> Units(text)[1..] == text[1..];
        } else {
          assert Units(text)[0] == RUNE_ERROR;
        }
      } else {
        assert text[0] >= 0x80;
        assert |Units(text)| < |text|;
      }
    }
  }

  /** `Text`. */
  method Text(value: Bytes) returns (sum: int)
    ensures sum == Residue(Units(value))
  {
    sum := 0;
    var units := Units(value);
    var i := 0;
    assert units[..0] == [];
    while i < |units|
      invariant 0 <= i <= |units|
      invariant sum == Residue(units[..i])
    {
      RollStep(units[..i], units[i]);
      assert units[..i + 1] == units[..i] + [units[i]];
      sum := Wrap32(Wrap32(sum * 31) + units[i]);
      i := i + 1;
    }
    assert units[..i] == units;
  }

  /** On ASCII, notes (hashed as text) and attachments (hashed as bytes) get equal hashes. */
  lemma TextIsContentOnAscii(value: Bytes)
    requires Ascii(value)
    ensures Residue(Units(value)) == Residue(value)
  {
    AsciiUnits(value);
  }

  // ----- Known hashes ------------------------------------------------------------------------------

  /** `hello`, the empty text, and a text with a character outside the basic plane. */
  lemma KnownHashes()
    ensures Residue([104, 101, 108, 108, 111]) == 99162322 && Residue([]) == 0
    ensures Residue(Units([0x41, 0xF0, 0x9F, 0x98, 0x80])) == 1835364
  {
    PolyOfFive(104, 101, 108, 108, 111);
    EmojiUnits();
    PolyOfThree(0x41, 0xD83D, 0xDE00);
  }

  lemma PolyOfThree(a: int, b: int, c: int)
    ensures Poly([a, b, c]) == (a * 31 + b) * 31 + c
  {
    var two := [a] + [b];
    PolySnoc([], a);
    PolySnoc([a], b);
    PolySnoc(two, c);
    hide Poly;
    assert [] + [a] == [a] && two + [c] == [a, b, c];
    assert Poly([]) == 0 by { PolyOfNone(); }
  }

  lemma PolyOfNone()
    ensures Poly([]) == 0
  {
  }

  lemma PolyOfFive(a: int, b: int, c: int, d: int, e: int)
    ensures Poly([a, b, c, d, e]) == (((a * 31 + b) * 31 + c) * 31 + d) * 31 + e
  {
    hide Poly;
    PolyOfThree(a, b, c);
    PolySnoc([a, b, c], d);
    PolySnoc([a, b, c] + [d], e);
    assert [a, b, c] + [d] + [e] == [a, b, c, d, e];
  }

  lemma EmojiUnits()
    ensures Units([0x41, 0xF0, 0x9F, 0x98, 0x80]) == [0x41, 0xD83D, 0xDE00]
  {
    var text: Bytes := [0x41, 0xF0, 0x9F, 0x98, 0x80];
    assert text[1..] == [0xF0, 0x9F, 0x98, 0x80] && text[1..][4..] == [];
    assert DecodeRune(text) == (0x41, 1) && DecodeRune(text[1..]) == (0x1_F600, 4);
  }
}
