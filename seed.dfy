/** hdwrap/seed.go: the Seed byte buffer, its hex codec, zeroing, seed
    generation from a byte source, and the word layout used to print a
    mnemonic. */
module Seed {
  import opened Common
  import Foreign

  /** A Seed is just a byte slice. */
  type Seed = seq<byte>

  // ---------------------------------------------------------------- hex codec

  /** ASCII code of the lowercase hex digit for `v` ("0123456789abcdef"). */
  function HexDigit(v: nat): byte
    requires v < 16
  {
    if v < 10 then 0x30 + v else 0x61 + (v - 10)
  }

  /** '0'..'9' or 'a'..'f' */
  predicate IsLowerHexDigit(c: byte) {
    0x30 <= c <= 0x39 || 0x61 <= c <= 0x66
  }

  /** The characters the decoder accepts: '0'..'9', 'a'..'f', 'A'..'F'. */
  predicate IsHexDigit(c: byte) {
    IsLowerHexDigit(c) || 0x41 <= c <= 0x46
  }

  function HexValue(c: byte): (v: nat)
    requires IsHexDigit(c)
    ensures v < 16
  {
    if c <= 0x39 then c - 0x30 else if c <= 0x46 then c - 0x41 + 10 else c - 0x61 + 10
  }

  /** An upper-case hex letter turned into its lower-case form; anything else kept. */
  function LowerHexChar(c: byte): byte {
    if 0x41 <= c <= 0x46 then c + 0x20 else c
  }

  lemma HexValueOfDigit(v: nat)
    requires v < 16
    ensures IsLowerHexDigit(HexDigit(v)) && HexValue(HexDigit(v)) == v
  {
  }

  /** `Seed.EncodeHex`: two lowercase hex digits per byte, high nibble first. */
  function EncodeHex(s: Seed): (r: seq<byte>)
    ensures |r| == 2 * |s|
    ensures forall j :: 0 <= j < |r| ==> IsLowerHexDigit(r[j])
    ensures forall i :: 0 <= i < |s| ==>
      r[2 * i] == HexDigit(s[i] / 16) && r[2 * i + 1] == HexDigit(s[i] % 16)
  {
    if s == [] then []
    else
      var rest := EncodeHex(s[1..]);
      assert forall i :: 1 <= i < |s| ==> s[i] == s[1..][i - 1];
      [HexDigit(s[0] / 16), HexDigit(s[0] % 16)] + rest
  }

  /** `NewSeedFromHex`, with Go's encoding/hex decoding rules: pairs of digits
      in either case; the first character that is not a hex digit is reported,
      and an input of odd length whose characters are all digits fails with
      ErrLength. On success the seed has half as many bytes as the input. */
  function NewSeedFromHex(input: seq<byte>): (r: Res<Seed>)
    ensures r.Ok? <==> |input| % 2 == 0 && forall j :: 0 <= j < |input| ==> IsHexDigit(input[j])
    ensures r.Ok? ==> |r.value| == |input| / 2
    ensures r.Ok? ==> forall i :: 0 <= i < |r.value| ==>
      r.value[i] == 16 * HexValue(input[2 * i]) + HexValue(input[2 * i + 1])
    ensures r.Fail? ==>
      r.error == ErrLength || (r.error.InvalidByte? && r.error.b in input && !IsHexDigit(r.error.b))
  {
    if input == [] then Ok([])
    else if !IsHexDigit(input[0]) then Fail(InvalidByte(input[0]))
    else if |input| == 1 then Fail(ErrLength)
    else if !IsHexDigit(input[1]) then Fail(InvalidByte(input[1]))
    else
      var tail := input[2..];
      assert forall j :: 2 <= j < |input| ==> input[j] == tail[j - 2];
      match NewSeedFromHex(tail)
      case Fail(e) => Fail(e)
      case Ok(rest) => Ok([16 * HexValue(input[0]) + HexValue(input[1])] + rest)
  }

  /** Decoding the two digits of byte `b` in front of a tail that decodes to
      `rest`: `b`, then `rest`. */
  lemma DecodePair(e: seq<byte>, b: byte, tail: seq<byte>, rest: Seed)
    requires e == [HexDigit(b / 16), HexDigit(b % 16)] + tail
    requires NewSeedFromHex(tail) == Ok(rest)
    ensures NewSeedFromHex(e) == Ok([b] + rest)
  {
    var hi, lo := HexDigit(b / 16), HexDigit(b % 16);
    HexValueOfDigit(b / 16);
    HexValueOfDigit(b % 16);
    assert e[0] == hi && e[1] == lo && e[2..] == tail;
    assert 16 * HexValue(hi) + HexValue(lo) == b;
  }

  /** The first step of EncodeHex: the digits of the first byte, then the
      encoding of the rest. */
  lemma EncodeHexFirst(s: Seed)
    requires s != []
    ensures EncodeHex(s) == [HexDigit(s[0] / 16), HexDigit(s[0] % 16)] + EncodeHex(s[1..])
    ensures [s[0]] + s[1..] == s
  {
  }

  /** Decoding what EncodeHex produced gives the seed back. */
  lemma {:induction false} HexRoundTrip(s: Seed)
    ensures NewSeedFromHex(EncodeHex(s)) == Ok(s)
  {
    if s != [] {
      EncodeHexFirst(s);
      HexRoundTrip(s[1..]);
      DecodePair(EncodeHex(s), s[0], EncodeHex(s[1..]), s[1..]);
    }
  }

  /** `input` with its upper-case hex letters in lower case. */
  function LowerHex(input: seq<byte>): (r: seq<byte>)
    ensures |r| == |input|
  {
    seq(|input|, j requires 0 <= j < |input| => LowerHexChar(input[j]))
  }

  lemma DigitOfValue(c: byte)
    requires IsHexDigit(c)
    ensures HexDigit(HexValue(c)) == LowerHexChar(c)
  {
  }

  /** Encoding what NewSeedFromHex accepted gives the input back, with its
      upper-case hex letters in lower case. */
  lemma {:induction false} HexDecodeEncode(input: seq<byte>)
    requires NewSeedFromHex(input).Ok?
    ensures EncodeHex(NewSeedFromHex(input).value) == LowerHex(input)
  {
    if input != [] {
      var tail := input[2..];
      assert forall j :: 2 <= j < |input| ==> input[j] == tail[j - 2];
      HexDecodeEncode(tail);
      var v := NewSeedFromHex(input).value;
      var hi, lo := HexValue(input[0]), HexValue(input[1]);
      assert v == [16 * hi + lo] + NewSeedFromHex(tail).value;
      assert v[0] / 16 == hi && v[0] % 16 == lo;
      DigitOfValue(input[0]);
      DigitOfValue(input[1]);
      assert EncodeHex(v) == [LowerHexChar(input[0]), LowerHexChar(input[1])] + LowerHex(tail);
      assert LowerHex(input) == [LowerHexChar(input[0]), LowerHexChar(input[1])] + LowerHex(tail);
    }
  }

  /** `NewSeedFromBytes`: the caller's byte buffer itself, not a copy. */
  method NewSeedFromBytes(b: array<byte>) returns (s: array<byte>)
    ensures s == b
  {
    s := b;
  }

  /** `Seed.Bytes`: the seed's own buffer, not a copy. */
  method Bytes(s: array<byte>) returns (b: array<byte>)
    ensures b == s
  {
    b := s;
  }

  // ---------------------------------------------------------------- zeroing

  /** `Seed.Zero`: overwrites every byte of the buffer, in place, with 0. */
  method Zero(s: array<byte>)
    modifies s
    ensures s[..] == seq(s.Length, _ => 0)
  {
    var lens := s.Length;
    for i := 0 to lens
      invariant forall j :: 0 <= j < i ==> s[j] == 0
    {
      s[i] := 0;
    }
  }

  /** A seed made from a caller's buffer shares it: zeroing the seed clears
      the caller's bytes and the bytes `Bytes` handed out earlier, and no
      other buffer. */
  method ZeroSharedSeed(buffer: array<byte>) returns (seed: array<byte>, handedOut: array<byte>)
    modifies buffer
    ensures seed == buffer && handedOut == buffer
    ensures buffer[..] == seq(buffer.Length, _ => 0)
    ensures handedOut[..] == seq(handedOut.Length, _ => 0)
  {
    seed := NewSeedFromBytes(buffer);
    handedOut := Bytes(seed);
    Zero(seed);
  }

  // ---------------------------------------------------------------- generation

  /** `GenerateCustom`: read exactly `randLen` bytes from the source (whose
      contents are `source`) and return SHA-512 of them followed by `extraRand`.
      A source with fewer bytes fails as io.ReadFull does; bytes past `randLen`
      are never read. */
  function GenerateCustom(lib: Foreign.Libraries, randLen: nat, source: seq<byte>, extraRand: seq<byte>): (r: Res<Seed>)
    ensures r.Ok? <==> randLen <= |source|
    ensures r.Ok? ==> |r.value| == 64 && r.value == lib.sha512(source[..randLen] + extraRand)
    ensures r.Fail? ==> r.error == if source == [] then EOF else UnexpectedEOF
  {
    if |source| < randLen then
      Fail(if source == [] then EOF else UnexpectedEOF)
    else
      var randBytes := source[..randLen];
      Ok(lib.sha512(randBytes + extraRand))
  }

  /** Only the first `randLen` bytes of the source matter. */
  lemma GenerateCustomReadsOnlyRandLen(lib: Foreign.Libraries, randLen: nat, s1: seq<byte>, s2: seq<byte>, extraRand: seq<byte>)
    requires randLen <= |s1| && randLen <= |s2| && s1[..randLen] == s2[..randLen]
    ensures GenerateCustom(lib, randLen, s1, extraRand) == GenerateCustom(lib, randLen, s2, extraRand)
  {
  }

  // ---------------------------------------------------------------- mnemonic layout

  /** What `PrintMnemonic` writes after word `i`: a newline when Go's
      `(i+wordsPerLine+1)%wordsPerLine` is 0, a space otherwise. The sum is
      computed in Go's 64-bit `int` and wraps. Go's `%` truncates toward zero
      and Dafny's is Euclidean, but the two agree on whether the remainder is 0. */
  function Separator(i: nat, wordsPerLine: nat): char
    requires wordsPerLine >= 1
  {
    if Wrap64(i + wordsPerLine + 1) % wordsPerLine == 0 then '\n' else ' '
  }

  /** The text `PrintMnemonic` writes for `words`: each word, in order,
      followed by its separator. */
  function Layout(words: seq<string>, wordsPerLine: nat): string
    requires wordsPerLine >= 1
    decreases |words|
  {
    if words == [] then ""
    else
      var n := |words| - 1;
      Layout(words[..n], wordsPerLine) + words[n] + [Separator(n, wordsPerLine)]
  }

  /** Where word `i` starts in that text: every earlier word plus its separator. */
  function Offset(words: seq<string>, i: nat): nat
    requires i <= |words|
  {
    if i == 0 then 0 else Offset(words, i - 1) + |words[i - 1]| + 1
  }

  lemma {:induction false} OffsetOfPrefix(words: seq<string>, k: nat, i: nat)
    requires i <= k <= |words|
    ensures Offset(words[..k], i) == Offset(words, i)
  {
    if i > 0 {
      OffsetOfPrefix(words, k, i - 1);
    }
  }

  lemma {:induction false} LayoutLength(words: seq<string>, wordsPerLine: nat)
    requires wordsPerLine >= 1
    ensures |Layout(words, wordsPerLine)| == Offset(words, |words|)
  {
    if words != [] {
      var n := |words| - 1;
      LayoutLength(words[..n], wordsPerLine);
      OffsetOfPrefix(words, n, n);
    }
  }

  /** Word `i` sits, unchanged, at its offset and is followed by its
      separator, so the words stay in order. Where the separator is a newline
      is `Separator`'s rule; `SeparatorWithoutOverflow` states it. */
  lemma {:induction false} LayoutAt(words: seq<string>, wordsPerLine: nat, i: nat)
    requires wordsPerLine >= 1 && i < |words|
    ensures |Layout(words, wordsPerLine)| == Offset(words, |words|)
    ensures Offset(words, i) + |words[i]| < |Layout(words, wordsPerLine)|
    ensures Layout(words, wordsPerLine)[Offset(words, i)..Offset(words, i) + |words[i]|] == words[i]
    ensures Layout(words, wordsPerLine)[Offset(words, i) + |words[i]|] == Separator(i, wordsPerLine)
  {
    var n := |words| - 1;
    var prefix := words[..n];
    LayoutLength(words, wordsPerLine);
    LayoutLength(prefix, wordsPerLine);
    OffsetOfPrefix(words, n, n);
    var text := Layout(words, wordsPerLine);
    var before := Layout(prefix, wordsPerLine);
    assert text == before + words[n] + [Separator(n, wordsPerLine)];
    if i < n {
      LayoutAt(prefix, wordsPerLine, i);
      OffsetOfPrefix(words, n, i);
      assert text[..|before|] == before;
    } else {
      assert text[|before|..|before| + |words[n]|] == words[n];
    }
  }

  lemma {:induction false} ProductAtLeast(m: int, k: int)
    requires m >= 1 && k >= 1
    ensures m * k >= m
  {
    if k > 1 {
      ProductAtLeast(m, k - 1);
      assert m * k == m * (k - 1) + m;
    }
  }

  /** The only multiple of `m` strictly between -m and m is 0. */
  lemma MultipleInRange(m: int, k: int)
    requires m >= 1 && -m < m * k < m
    ensures k == 0
  {
    if k >= 1 {
      ProductAtLeast(m, k);
    } else if k <= -1 {
      ProductAtLeast(m, -k);
    }
  }

  lemma ShiftedRemainder(i: nat, m: nat)
    requires m >= 1
    ensures (i + m + 1) % m == (i + 1) % m
  {
    var x := i + 1;
    var q, r := x / m, x % m;
    var q2, r2 := (x + m) / m, (x + m) % m;
    assert x == m * q + r && x + m == m * q2 + r2;
    assert m * (q2 - q - 1) == r - r2;
    MultipleInRange(m, q2 - q - 1);
  }

  /** Where the sum does not overflow, a newline follows every
      `wordsPerLine`-th word and only those. */
  lemma SeparatorWithoutOverflow(i: nat, wordsPerLine: nat)
    requires wordsPerLine >= 1 && i + wordsPerLine + 1 <= MaxInt64
    ensures Separator(i, wordsPerLine) == '\n' <==> (i + 1) % wordsPerLine == 0
    ensures Separator(i, wordsPerLine) == ' ' <==> (i + 1) % wordsPerLine != 0
  {
    ShiftedRemainder(i, wordsPerLine);
  }

  /** With `wordsPerLine` at Go's largest `int`, the sum wraps at the second
      word and a newline follows it, although the line holds two words. */
  lemma SeparatorWrapsAtMaxInt()
    ensures (1 + 1) % MaxInt64 != 0
    ensures Separator(1, MaxInt64) == '\n'
  {
    assert Wrap64(1 + MaxInt64 + 1) == -MaxInt64;
  }

  /** `Seed.PrintMnemonic` for the word list the mnemonic encoder produced:
      returns the text written to standard output. Go panics when
      `wordsPerLine` is not positive, and the flag value is a Go `int`. */
  method PrintMnemonic(words: seq<string>, wordsPerLine: int) returns (out: string)
    requires 1 <= wordsPerLine <= MaxInt64
    ensures out == Layout(words, wordsPerLine)
  {
    out := "";
    for i := 0 to |words|
      invariant out == Layout(words[..i], wordsPerLine)
    {
      assert words[..i + 1][..i] == words[..i];
      out := out + words[i];
      if Wrap64(i + wordsPerLine + 1) % wordsPerLine == 0 {
        out := out + "\n";
      } else {
        out := out + " ";
      }
    }
    assert words[..|words|] == words;
  }
}
