/**
  The base64 decoder of the screenshot path.  Bytes of the text are characters; int is 32 bits wide,
  in two's complement, and shifts wrap.
 */
module Base64 {
  import opened Common

  type Byte = n: int | 0 <= n < 256

  const UPPER := "ABCDEFGHIJKLMNOPQRSTUVWXYZ"
  const LOWER := "abcdefghijklmnopqrstuvwxyz"
  const OTHER := "0123456789+/"
  const ALPHABET := UPPER + LOWER + OTHER
  const NUL: char := 0 as char

  /** The character for a digit, as in section 4 of RFC 4648. */
  function Symbol(n: nat): char
    requires n < 64
  {
    if n < 26 then 'A' + n as char
    else if n < 52 then 'a' + (n - 26) as char
    else if n < 62 then '0' + (n - 52) as char
    else if n == 62 then '+' else '/'
  }

  /** What strchr finds in the table: a position, 64 at the terminating NUL, or -1. */
  function Strchr(c: char): (r: int)
    ensures -1 <= r <= 64
  {
    if 'A' <= c <= 'Z' then (c - 'A') as int
    else if 'a' <= c <= 'z' then (c - 'a') as int + 26
    else if '0' <= c <= '9' then (c - '0') as int + 52
    else if c == '+' then 62
    else if c == '/' then 63
    else if c == NUL then 64
    else -1
  }

  /** The two functions above are the table: the symbol for n stands at position n, and strchr finds
      a character there if and only if it is that symbol. */
  lemma TableAgrees(c: char, n: nat)
    requires n < 64
    ensures |ALPHABET| == 64 && ALPHABET[n] == Symbol(n)
    ensures c == Symbol(n) <==> Strchr(c) == n
  {
    SymbolFound(c, n);
    TableLengths();
    hide Strchr;
    if n < 26 { UpperTable(n); } else if n < 52 { LowerTable(n - 26); } else { OtherTable(n - 52); }
  }

  lemma TableLengths()
    ensures |UPPER| == 26 && |LOWER| == 26 && |OTHER| == 12
  {
  }

  /** The same with the table as the program writes it. */
  lemma Table(c: char, n: nat)
    requires n < 64
    ensures var table := "ABCDEFGHIJKLMNOPQRSTUVWXYZ" + "abcdefghijklmnopqrstuvwxyz" + "0123456789+/";
            |table| == 64 && (Strchr(c) == n <==> c == table[n])
  {
    TableAgrees(c, n);
    hide Strchr, Symbol;
  }

  lemma SymbolFound(c: char, n: nat)
    requires n < 64
    ensures c == Symbol(n) <==> Strchr(c) == n
  {
  }

  lemma UpperTable(n: nat)
    requires n < 26
    ensures UPPER[n] == 'A' + n as char
  {
  }

  lemma LowerTable(n: nat)
    requires n < 26
    ensures LOWER[n] == 'a' + n as char
  {
  }

  lemma OtherTable(n: nat)
    requires n < 12
    ensures OTHER[n] == Symbol(n + 52)
  {
  }

  function Clean(input: string): string {
    if input == [] then []
    else (if IsSpace(input[0]) then [] else [input[0]]) + Clean(input[1..])
  }

  /** The positions found in the table before the first '='. */
  function Digits(clean: string): (ds: seq<int>)
    ensures forall i :: 0 <= i < |ds| ==> 0 <= ds[i] <= 64
  {
    if clean == [] || clean[0] == '=' then []
    else (if Strchr(clean[0]) < 0 then [] else [Strchr(clean[0])]) + Digits(clean[1..])
  }

  /** n >> k, which rounds down */
  function Shr(n: int, k: nat): int
    decreases k
  {
    if k == 0 then n else Shr(n / 2, k - 1)
  }

  lemma ShrValues(n: int)
    ensures Shr(n, 0) == n && Shr(n, 2) == n / 4 && Shr(n, 4) == n / 16
  {
    assert Shr(n, 2) == Shr(n / 2, 1) == Shr(n / 2 / 2, 0);
    assert Shr(n, 4) == Shr(n / 2, 3) == Shr(n / 2 / 2, 2) == Shr(n / 2 / 2 / 2, 1) == Shr(n / 2 / 2 / 2 / 2, 0);
  }

  /** (val << 6) | d on unbounded integers.  Bit 6 of the position 64 meets bit 0 of val. */
  function ShiftIn(val: int, d: int): int {
    if d < 64 then val * 64 + d else (if val % 2 == 0 then val + 1 else val) * 64
  }

  /** The decoder on unbounded integers. */
  function Decode(ds: seq<int>, val: int, bits: int): seq<Byte>
    requires bits in {-8, -6, -4, -2}
    decreases ds
  {
    if ds == [] then []
    else
      var v := ShiftIn(val, ds[0]);
      if bits == -8 then Decode(ds[1..], v, -2)
      else [Shr(v, bits + 6) % 256] + Decode(ds[1..], v, bits - 2)
  }

  function DecodeText(input: string): seq<Byte> {
    Decode(Digits(Clean(input)), 0, -8)
  }

  // ---- the wrapping accumulator ----

  lemma LowPart(n: int, k: int)
    ensures (n + 4096 * k) % 4096 == n % 4096
  {
  }

  lemma WrapLow(n: int)
    ensures Wrap32(n) % 4096 == n % 4096
  {
    var q := (n + 0x8000_0000) / 0x1_0000_0000;
    assert Wrap32(n) == n + 4096 * (-q * 0x10_0000);
    LowPart(n, -q * 0x10_0000);
  }

  /** Accumulators that agree in their low 12 bits agree again after a digit. */
  lemma ShiftLow(v: int, w: int, d: int)
    requires v % 4096 == w % 4096 && 0 <= d <= 64
    ensures Wrap32(ShiftIn(v, d)) % 4096 == ShiftIn(w, d) % 4096
  {
    hide Wrap32, ShiftIn;
    WrapLow(ShiftIn(v, d));
    var k := v / 4096 - w / 4096;
    ShiftMultiple(w, k, d);
    LowPart(ShiftIn(w, d), 64 * k);
  }

  lemma ShiftMultiple(w: int, k: int, d: int)
    ensures ShiftIn(w + 4096 * k, d) == ShiftIn(w, d) + 4096 * (64 * k)
  {
    assert (w + 4096 * k) % 2 == w % 2;
  }

  lemma LowByte0(q: int, r: int)
    ensures (4096 * q + r) % 256 == r % 256
  {
  }

  lemma LowByte2(q: int, r: int)
    ensures (4096 * q + r) / 4 % 256 == r / 4 % 256
  {
    assert (4096 * q + r) / 4 == 1024 * q + r / 4;
  }

  lemma LowByte4(q: int, r: int)
    ensures (4096 * q + r) / 16 % 256 == r / 16 % 256
  {
    assert (4096 * q + r) / 16 == 256 * q + r / 16;
  }

  lemma LowBytes(v: int)
    ensures v % 256 == v % 4096 % 256 && v / 4 % 256 == v % 4096 / 4 % 256 && v / 16 % 256 == v % 4096 / 16 % 256
  {
    LowByte0(v / 4096, v % 4096);
    LowByte2(v / 4096, v % 4096);
    LowByte4(v / 4096, v % 4096);
  }

  /** Only the low 12 bits reach the output. */
  lemma TakeLow(v: int, w: int, bits: int)
    requires v % 4096 == w % 4096 && bits in {0, 2, 4}
    ensures Shr(v, bits) % 256 == Shr(w, bits) % 256
  {
    ShrValues(v);
    ShrValues(w);
    hide Shr;
    LowBytes(v);
    LowBytes(w);
  }

  method StripSpace(input: string) returns (clean: string)
    ensures clean == Clean(input)
  {
    clean := [];
    for i := 0 to |input|
      invariant Clean(input) == clean + Clean(input[i..])
    {
      if !IsSpace(input[i]) {
        clean := clean + [input[i]];
      }
      assert input[i..][1..] == input[i + 1..];
    }
  }

  /** The decoder as it is: the accumulator is a 32-bit int, never masked, whose shifts wrap; between
      characters, bits is one of -8, -6, -4 and -2. */
  function Decode32(ds: seq<int>, val: Int32, bits: int): seq<Byte>
    requires bits in {-8, -6, -4, -2}
    decreases ds
  {
    if ds == [] then []
    else
      var v := Wrap32(ShiftIn(val, ds[0]));
      if bits == -8 then Decode32(ds[1..], v, -2)
      else [Shr(v, bits + 6) % 256] + Decode32(ds[1..], v, bits - 2)
  }

  /** Whatever the accumulator holds, only its low 12 bits matter, and wrapping does not: any unbounded
      accumulator that agrees with it in those bits decodes to the same bytes. */
  lemma {:induction false} OnlyLowBits(ds: seq<int>, val: Int32, v: int, bits: int)
    requires bits in {-8, -6, -4, -2} && val % 4096 == v % 4096
    requires forall i :: 0 <= i < |ds| ==> 0 <= ds[i] <= 64
    ensures Decode32(ds, val, bits) == Decode(ds, v, bits)
    decreases ds
  {
    if ds != [] {
      var val' := Wrap32(ShiftIn(val, ds[0]));
      var v' := ShiftIn(v, ds[0]);
      ShiftLow(val, v, ds[0]);
      hide Wrap32, ShiftIn, Shr;
      OnlyLowBits(ds[1..], val', v', if bits == -8 then -2 else bits - 2);
      if bits != -8 { TakeLow(val', v', bits + 6); }
    }
  }

  lemma SameAsUnbounded(input: string)
    ensures Decode32(Digits(Clean(input)), 0, -8) == DecodeText(input)
  {
    OnlyLowBits(Digits(Clean(input)), 0, 0, -8);
    hide Decode32, Decode, Digits, Clean;
  }

  /** base64_decode does what the decoder on unbounded integers does. */
  method Base64Decode(input: string) returns (out: seq<Byte>)
    ensures out == Decode32(Digits(Clean(input)), 0, -8) == DecodeText(input)
  {
    hide DecodeText, Decode32, Clean, Digits, Strchr, ShiftIn, Wrap32, Shr;
    SameAsUnbounded(input);
    var clean := StripSpace(input);
    out := [];
    var val: Int32 := 0;
    var bits := -8;
    var rest := clean;
    while rest != [] && rest[0] != '='
      invariant bits in {-8, -6, -4, -2}
      invariant Decode32(Digits(clean), 0, -8) == out + Decode32(Digits(rest), val, bits)
      decreases |rest|
    {
      var p := Strchr(rest[0]);
      OneCharacter(rest, val, bits);
      if p >= 0 {
        val := Wrap32(ShiftIn(val, p));
        bits := bits + 6;
        if bits >= 0 {
          out := out + [Shr(val, bits) % 256];
          bits := bits - 8;
        }
      }
      rest := rest[1..];
    }
    NoMoreDigits(rest, val, bits);
  }

  lemma NoMoreDigits(s: string, val: Int32, bits: int)
    requires (s == [] || s[0] == '=') && bits in {-8, -6, -4, -2}
    ensures Decode32(Digits(s), val, bits) == []
  {
  }

  lemma OneCharacter(s: string, val: Int32, bits: int)
    requires s != [] && s[0] != '=' && bits in {-8, -6, -4, -2}
    ensures var p := Strchr(s[0]);
            Decode32(Digits(s), val, bits) ==
            if p < 0 then Decode32(Digits(s[1..]), val, bits)
            else
              var v := Wrap32(ShiftIn(val, p));
              if bits == -8 then Decode32(Digits(s[1..]), v, -2)
              else [Shr(v, bits + 6) % 256] + Decode32(Digits(s[1..]), v, bits - 2)
  {
    var p := Strchr(s[0]);
    hide Wrap32, ShiftIn, Shr;
    if p < 0 {
      assert Digits(s) == Digits(s[1..]);
    } else {
      assert Digits(s) == [p] + Digits(s[1..]);
      assert Digits(s)[1..] == Digits(s[1..]);
    }
  }

  // ---- what the decoder computes: a bit stream cut into bytes ----

  /** The low w bits of n, most significant first. */
  function Bits(n: int, w: nat): (b: seq<bool>)
    ensures |b| == w
    decreases w
  {
    if w == 0 then [] else Bits(n / 2, w - 1) + [n % 2 == 1]
  }

  function SextetBits(ds: seq<int>): (b: seq<bool>)
    ensures |b| == 6 * |ds|
  {
    if ds == [] then [] else Bits(ds[0], 6) + SextetBits(ds[1..])
  }

  function ByteBits(bs: seq<Byte>): (b: seq<bool>)
    ensures |b| == 8 * |bs|
  {
    if bs == [] then [] else Bits(bs[0], 8) + ByteBits(bs[1..])
  }

  /** Bits of a number come in a high and a low part. */
  lemma {:induction false} BitsSplit(n: int, w: nat, k: nat)
    ensures Bits(n, w + k) == Bits(Shr(n, k), w) + Bits(n, k)
    decreases k
  {
    if k > 0 {
      BitsSplit(n / 2, w, k - 1);
    }
  }

  function Pow2(n: nat): (p: int)
    ensures p > 0
  {
    if n == 0 then 1 else 2 * Pow2(n - 1)
  }

  /** Bits above position w do not matter. */
  lemma {:induction false} BitsLow(n: int, k: int, w: nat)
    ensures Bits(n + Pow2(w) * k, w) == Bits(n, w)
    decreases w
  {
    if w > 0 {
      var t := Pow2(w - 1) * k;
      assert Pow2(w) * k == 2 * t;
      assert (n + 2 * t) / 2 == n / 2 + t;
      BitsLow(n / 2, k, w - 1);
    }
  }

  lemma Pow2s()
    ensures Pow2(2) == 4 && Pow2(4) == 16 && Pow2(6) == 64 && Pow2(8) == 256
  {
    assert Pow2(1) == 2 && Pow2(3) == 8 && Pow2(5) == 32 && Pow2(7) == 128;
  }

  lemma {:induction false} BitsInjective(m: int, n: int, w: nat)
    requires 0 <= m < Pow2(w) && 0 <= n < Pow2(w) && Bits(m, w) == Bits(n, w)
    ensures m == n
    decreases w
  {
    if w > 0 {
      assert Bits(m, w)[..w - 1] == Bits(m / 2, w - 1) && Bits(n, w)[..w - 1] == Bits(n / 2, w - 1);
      BitsInjective(m / 2, n / 2, w - 1);
      assert Bits(m, w)[w - 1] == Bits(n, w)[w - 1];
    }
  }

  lemma {:induction false} ByteBitsInjective(a: seq<Byte>, b: seq<Byte>)
    requires ByteBits(a) == ByteBits(b)
    ensures a == b
    decreases a
  {
    if a != [] {
      assert |a| == |b|;
      assert ByteBits(a)[..8] == Bits(a[0], 8) && ByteBits(b)[..8] == Bits(b[0], 8);
      assert ByteBits(a)[8..] == ByteBits(a[1..]) && ByteBits(b)[8..] == ByteBits(b[1..]);
      Pow2s();
      BitsInjective(a[0], b[0], 8);
      ByteBitsInjective(a[1..], b[1..]);
    }
  }

  ghost predicate NulFree(ds: seq<int>) {
    forall i :: 0 <= i < |ds| ==> 0 <= ds[i] < 64
  }

  lemma Low6(q: int, r: int)
    ensures Bits(q * 64 + r, 6) == Bits(r, 6)
  {
    Pow2s();
    BitsLow(r, q, 6);
    assert Pow2(6) * q == q * 64;
  }

  lemma Low4(q: int, r: int)
    ensures Bits(q * 16 + r, 4) == Bits(r, 4)
  {
    Pow2s();
    BitsLow(r, q, 4);
    assert Pow2(4) * q == q * 16;
  }

  lemma Low2(q: int, r: int)
    ensures Bits(q * 4 + r, 2) == Bits(r, 2)
  {
    Pow2s();
    BitsLow(r, q, 2);
    assert Pow2(2) * q == q * 4;
  }

  /** The pending bits and one more digit. */
  lemma DigitBits(val: int, d: int, w: nat)
    requires 0 <= d < 64
    ensures Bits(val * 64 + d, w + 6) == Bits(val, w) + Bits(d, 6)
  {
    hide Bits, Shr;
    BitsSplit(val * 64 + d, w, 6);
    Low6(val, d);
    Shr6(val, d);
  }

  lemma Shr6(val: int, d: int)
    requires 0 <= d < 64
    ensures Shr(val * 64 + d, 6) == val
  {
    var n := val * 64 + d;
    assert n / 2 == val * 32 + d / 2;
    assert n / 2 / 2 == val * 16 + d / 2 / 2;
    ShrValues(n / 2 / 2);
    assert Shr(n, 6) == Shr(n / 2, 5) == Shr(n / 2 / 2, 4);
  }

  lemma Low8(n: int)
    ensures Bits(n % 256, 8) == Bits(n, 8)
  {
    Pow2s();
    BitsLow(n % 256, n / 256, 8);
  }

  lemma ByteOut(v: int, bits: nat)
    ensures Bits(v, bits + 8) == Bits(Shr(v, bits) % 256, 8) + Bits(v, bits)
  {
    BitsSplit(v, 8, bits);
    Low8(Shr(v, bits));
  }

  /** On NUL-free text the output is the stream of six-bit digits cut into bytes; what is left over
      is shorter than a byte. */
  lemma {:induction false} DecodeIsStream(ds: seq<int>, val: int, bits: int) returns (rest: seq<bool>)
    requires NulFree(ds) && bits in {-8, -6, -4, -2}
    ensures Bits(val, bits + 8) + SextetBits(ds) == ByteBits(Decode(ds, val, bits)) + rest
    ensures |rest| < 8
    decreases ds
  {
    hide Bits, SextetBits, ByteBits, Decode, Shr, ShiftIn;
    if ds == [] {
      rest := Bits(val, bits + 8);
      EmptyStream(val, bits);
      return;
    }
    var v := ShiftIn(val, ds[0]);
    ShiftDigit(val, ds[0]);
    DigitBits(val, ds[0], bits + 8);
    if bits == -8 {
      rest := DecodeIsStream(ds[1..], v, -2);
      FirstStep(ds, val, v, rest);
    } else {
      rest := DecodeIsStream(ds[1..], v, bits - 2);
      ByteOut(v, bits + 6);
      StreamStep(ds, val, bits, v, rest);
    }
  }

  lemma ShiftDigit(val: int, d: int)
    requires 0 <= d < 64
    ensures ShiftIn(val, d) == val * 64 + d
  {
  }

  lemma EmptyStream(val: int, bits: int)
    requires bits in {-8, -6, -4, -2}
    ensures Bits(val, bits + 8) + SextetBits([]) == ByteBits(Decode([], val, bits)) + Bits(val, bits + 8)
  {
    hide Bits;
  }

  lemma FirstStep(ds: seq<int>, val: int, v: int, rest: seq<bool>)
    requires ds != [] && v == ShiftIn(val, ds[0]) && Bits(v, 6) == Bits(val, 0) + Bits(ds[0], 6)
    requires Bits(v, 6) + SextetBits(ds[1..]) == ByteBits(Decode(ds[1..], v, -2)) + rest
    ensures Bits(val, 0) + SextetBits(ds) == ByteBits(Decode(ds, val, -8)) + rest
  {
    hide Bits, ByteBits, ShiftIn;
    assert SextetBits(ds) == Bits(ds[0], 6) + SextetBits(ds[1..]);
    hide SextetBits;
    assert Bits(val, 0) + (Bits(ds[0], 6) + SextetBits(ds[1..])) == (Bits(val, 0) + Bits(ds[0], 6)) + SextetBits(ds[1..]);
  }

  lemma StreamStep(ds: seq<int>, val: int, bits: int, v: int, rest: seq<bool>)
    requires ds != [] && bits in {-6, -4, -2} && v == ShiftIn(val, ds[0])
    requires Bits(val, bits + 8) + Bits(ds[0], 6) == Bits(Shr(v, bits + 6) % 256, 8) + Bits(v, bits + 6)
    requires Bits(v, bits + 6) + SextetBits(ds[1..]) == ByteBits(Decode(ds[1..], v, bits - 2)) + rest
    ensures Bits(val, bits + 8) + SextetBits(ds) == ByteBits(Decode(ds, val, bits)) + rest
  {
    var out := Decode(ds[1..], v, bits - 2);
    var byte: Byte := Shr(v, bits + 6) % 256;
    assert Decode(ds, val, bits) == [byte] + out;
    hide Bits, Decode, Shr, ShiftIn;
    assert ByteBits([byte] + out) == Bits(byte, 8) + ByteBits(out) by { assert ([byte] + out)[1..] == out; }
    assert SextetBits(ds) == Bits(ds[0], 6) + SextetBits(ds[1..]);
    hide SextetBits, ByteBits;
    Regroup(Bits(val, bits + 8), Bits(ds[0], 6), SextetBits(ds[1..]), Bits(byte, 8), Bits(v, bits + 6), ByteBits(out), rest);
  }

  lemma Regroup(a: seq<bool>, b: seq<bool>, c: seq<bool>, d: seq<bool>, e: seq<bool>, f: seq<bool>, g: seq<bool>)
    requires a + b == d + e && e + c == f + g
    ensures a + (b + c) == (d + f) + g
  {
    assert a + (b + c) == (a + b) + c;
    assert (d + e) + c == d + (e + c);
    assert d + (f + g) == (d + f) + g;
  }

  /** A byte sequence whose bits begin the stream and leave less than a byte is the output. */
  lemma StreamDecides(ds: seq<int>, bs: seq<Byte>, tail: seq<bool>)
    requires NulFree(ds) && SextetBits(ds) == ByteBits(bs) + tail && |tail| < 8
    ensures Decode(ds, 0, -8) == bs
  {
    var rest := DecodeIsStream(ds, 0, -8);
    var out := Decode(ds, 0, -8);
    assert Bits(0, 0) + SextetBits(ds) == SextetBits(ds);
    assert |out| == |bs|;
    assert ByteBits(out) == SextetBits(ds)[..8 * |out|] == ByteBits(bs);
    ByteBitsInjective(out, bs);
  }

  // ---- characters that are not digits ----

  /** Neither of the alphabet, nor the padding, nor the end of the table. */
  predicate Junk(c: char) {
    c !in ALPHABET && c != '=' && c as int != 0
  }

  /** input is t with junk inserted anywhere. */
  ghost predicate Inserted(t: string, input: string)
    decreases input
  {
    if input == [] then t == []
    else
      || (Junk(input[0]) && Inserted(t, input[1..]))
      || (t != [] && t[0] == input[0] && Inserted(t[1..], input[1..]))
  }

  /** strchr finds exactly the alphabet and the NUL that ends the table. */
  lemma FoundIff(c: char)
    ensures Strchr(c) >= 0 <==> c in ALPHABET || c as int == 0
    ensures Strchr(c) == 64 <==> c as int == 0
  {
    NulFound(c);
    hide Strchr, Symbol;
    TableAgrees('A', 0);
    if 0 <= Strchr(c) < 64 {
      TableAgrees(c, Strchr(c));
      assert ALPHABET[Strchr(c)] == c;
    }
    if c in ALPHABET {
      var n :| 0 <= n < |ALPHABET| && ALPHABET[n] == c;
      TableAgrees(c, n);
    }
  }

  lemma NulFound(c: char)
    ensures Strchr(c) == 64 <==> c as int == 0
  {
  }

  lemma NotFound(c: char)
    requires c as int in {9, 10, 11, 12, 13, 32}
    ensures Strchr(c) < 0 && Junk(c)
  {
    FoundIff(c);
  }

  /** White space is junk: the first loop drops nothing that the second would use. */
  lemma {:induction false} DigitsOfClean(input: string)
    ensures Digits(Clean(input)) == Digits(input)
  {
    if input != [] {
      DigitsOfClean(input[1..]);
      if IsSpace(input[0]) {
        NotFound(input[0]);
        hide Strchr, IsSpace;
        assert Clean(input) == [] + Clean(input[1..]) == Clean(input[1..]);
      } else {
        hide Strchr, IsSpace;
        var clean := Clean(input[1..]);
        assert Clean(input) == [input[0]] + clean;
        assert ([input[0]] + clean)[1..] == clean;
      }
    }
  }

  lemma {:induction false} DigitsOfInserted(t: string, input: string)
    requires Inserted(t, input)
    ensures Digits(input) == Digits(t)
    decreases input
  {
    if input != [] {
      FoundIff(input[0]);
      hide Strchr;
      if Junk(input[0]) && Inserted(t, input[1..]) {
        DigitsOfInserted(t, input[1..]);
      } else {
        DigitsOfInserted(t[1..], input[1..]);
      }
    }
  }

  // ---- length, NUL included ----

  /** How many characters before the first '=' are among `chars`. */
  function Count(input: string, chars: string): nat {
    if input == [] || input[0] == '=' then 0
    else (if input[0] in chars then 1 else 0) + Count(input[1..], chars)
  }

  function Symbols(input: string): nat {
    Count(input, ALPHABET)
  }

  function Nuls(input: string): nat {
    Count(input, [0 as char])
  }

  lemma {:induction false} CountDigits(input: string)
    ensures |Digits(input)| == Symbols(input) + Nuls(input)
  {
    if input != [] && input[0] != '=' {
      var c := input[0];
      CountDigits(input[1..]);
      FoundIff(c);
      CountFirst(input, ALPHABET);
      CountFirst(input, [0 as char]);
      DigitsFirst(input);
      NulNotInTable();
      hide Strchr, Count, Digits;
    }
  }

  lemma CountFirst(input: string, chars: string)
    requires input != [] && input[0] != '='
    ensures Count(input, chars) == (if input[0] in chars then 1 else 0) + Count(input[1..], chars)
  {
  }

  lemma DigitsFirst(input: string)
    requires input != [] && input[0] != '='
    ensures |Digits(input)| == (if Strchr(input[0]) < 0 then 0 else 1) + |Digits(input[1..])|
  {
  }

  lemma NulNotInTable()
    ensures 0 as char !in ALPHABET
  {
    if 0 as char in ALPHABET {
      var n :| 0 <= n < |ALPHABET| && ALPHABET[n] == 0 as char;
      TableAgrees(0 as char, n);
      assert false;
    }
  }

  lemma {:induction false} DecodeLength(ds: seq<int>, val: int, bits: int)
    requires bits in {-8, -6, -4, -2}
    ensures |Decode(ds, val, bits)| == (6 * |ds| + bits + 8) / 8
    decreases ds
  {
    if ds != [] {
      DecodeLength(ds[1..], ShiftIn(val, ds[0]), if bits == -8 then -2 else bits - 2);
    }
  }

  /** k alphabet characters before the first '=' give floor(6k/8) bytes exactly when no NUL precedes
      it, or a single one that lands on a group boundary: strchr finds NUL at the end of the table,
      so it counts as a digit. */
  lemma LengthIff(input: string)
    ensures var k, m := Symbols(input), Nuls(input);
            |DecodeText(input)| == 6 * k / 8 <==> m == 0 || (m == 1 && k % 4 == 0)
  {
    hide Symbols, Nuls, Clean, Digits, Decode;
    DigitsOfClean(input);
    CountDigits(input);
    DecodeLength(Digits(input), 0, -8);
    SameBytes(Symbols(input), Nuls(input));
  }

  lemma SameBytes(k: nat, m: nat)
    ensures 6 * (k + m) / 8 == 6 * k / 8 <==> m == 0 || (m == 1 && k % 4 == 0)
  {
    var q, r := k / 4, k % 4;
    assert 6 * k == 8 * (3 * q) + 6 * r;
    WholeBytes(3 * q, 6 * r);
    WholeBytes(3 * q, 6 * (r + m));
    if m >= 2 {
      Monotone(6 * r + 12, 6 * (r + m));
    }
  }

  lemma WholeBytes(q: nat, n: nat)
    ensures (8 * q + n) / 8 == q + n / 8
  {
  }

  lemma Monotone(a: nat, b: nat)
    requires a <= b
    ensures a / 8 <= b / 8
  {
  }

  /** A NUL among the text changes what is decoded, not only how long it is. */
  lemma NulCounts()
    ensures DecodeText("QQ" + [NUL]) == [65, 16] && DecodeText("QQ") == [65]
  {
    NulDigits();
    NulDecoded();
  }

  lemma NulDigits()
    ensures Digits(Clean("QQ" + [NUL])) == [16, 16, 64] && Digits(Clean("QQ")) == [16, 16]
  {
    OneDigit('Q', []);
    OneDigit('Q', ['Q']);
    OneDigit(NUL, []);
    OneDigit('Q', [NUL]);
    OneDigit('Q', ['Q', NUL]);
    hide Clean, Digits, Strchr;
    assert "QQ" + [NUL] == ['Q'] + ['Q', NUL] && ['Q'] + [NUL] == ['Q', NUL];
    EmptyText();
  }

  lemma EmptyText()
    ensures Digits(Clean([])) == []
  {
  }

  lemma OneDigit(c: char, rest: string)
    requires c == 'Q' || c == NUL
    ensures Digits(Clean([c] + rest)) == [if c == NUL then 64 else 16] + Digits(Clean(rest))
  {
    assert ([c] + rest)[1..] == rest;
    assert Clean([c] + rest) == [c] + Clean(rest);
    assert ([c] + Clean(rest))[1..] == Clean(rest);
  }

  lemma NulDecoded()
    ensures Decode([16, 16, 64], 0, -8) == [65, 16] && Decode([16, 16], 0, -8) == [65]
  {
    ShrValues(1040);
    ShrValues(1041 * 64);
    hide Shr;
    assert ShiftIn(1040, 64) == 1041 * 64 && ShiftIn(16, 16) == 1040;
    assert Decode([64], 1040, -4) == [Shr(1041 * 64, 2) % 256];
    assert [16, 64][1..] == [64] && [16, 16, 64][1..] == [16, 64] && [16, 16][1..] == [16] && [16][1..] == [];
    assert Decode([16, 64], 16, -2) == [Shr(1040, 4) % 256] + Decode([64], 1040, -4);
    assert Decode([16, 16, 64], 0, -8) == Decode([16, 64], 16, -2);
    assert Decode([16], 16, -2) == [65];
    assert ShiftIn(0, 16) == 16;
    assert Decode([16, 16], 0, -8) == Decode([16], 16, -2);
    assert 1041 * 64 / 4 % 256 == 16 && 1040 / 16 % 256 == 65;
  }

  // ---- the encoding of RFC 4648, and the round trip ----

  function Group(a: Byte, b: Byte, c: Byte): (ds: seq<int>)
    ensures NulFree(ds)
  {
    [a / 4, a % 4 * 16 + b / 16, b % 16 * 4 + c / 64, c % 64]
  }

  function Sextets(bs: seq<Byte>): (ds: seq<int>)
    ensures NulFree(ds)
  {
    if bs == [] then []
    else if |bs| == 1 then [bs[0] / 4, bs[0] % 4 * 16]
    else if |bs| == 2 then [bs[0] / 4, bs[0] % 4 * 16 + bs[1] / 16, bs[1] % 16 * 4]
    else Group(bs[0], bs[1], bs[2]) + Sextets(bs[3..])
  }

  function Text(ds: seq<int>): string
    requires NulFree(ds)
  {
    if ds == [] then [] else [Symbol(ds[0])] + Text(ds[1..])
  }

  function Encode(bs: seq<Byte>, padded: bool): string {
    Text(Sextets(bs)) + if !padded || |bs| % 3 == 0 then "" else if |bs| % 3 == 1 then "==" else "="
  }

  lemma HeadTail(c: char, t: string, u: string)
    ensures (([c] + t) + u)[0] == c && (([c] + t) + u)[1..] == t + u
  {
  }

  lemma {:induction false} DigitsOfText(ds: seq<int>, tail: string)
    requires NulFree(ds) && (tail == "" || tail[0] == '=')
    ensures Digits(Text(ds) + tail) == ds
    decreases ds
  {
    if ds == [] {
      assert Text(ds) + tail == tail;
    } else {
      TableAgrees(Symbol(ds[0]), ds[0]);
      DigitsOfText(ds[1..], tail);
      HeadTail(Symbol(ds[0]), Text(ds[1..]), tail);
      hide Symbol, Strchr;
    }
  }

  /** The bits of a byte, cut after its first 6, 4 or 2. */
  lemma ByteCuts(a: Byte)
    ensures Bits(a, 8) == Bits(a / 4, 6) + Bits(a % 4, 2)
    ensures Bits(a, 8) == Bits(a / 16, 4) + Bits(a % 16, 4)
    ensures Bits(a, 8) == Bits(a / 64, 2) + Bits(a % 64, 6)
  {
    Cut(a, 6, 2);
    Cut(a, 4, 4);
    Cut(a, 2, 6);
    Pow2s();
    ShrValues(a);
    Shr6(a / 64, a % 64);
  }

  lemma Cut(n: int, w: nat, k: nat)
    ensures Bits(n, w + k) == Bits(Shr(n, k), w) + Bits(n % Pow2(k), k)
  {
    BitsSplit(n, w, k);
    var q := n / Pow2(k);
    assert n == n % Pow2(k) + Pow2(k) * q;
    BitsLow(n % Pow2(k), q, k);
  }

  /** A sextet made of the last bits of one byte and the first of the next. */
  lemma Joined2(a: int, b: int)
    requires 0 <= b < 16
    ensures Bits(a * 16 + b, 6) == Bits(a, 2) + Bits(b, 4)
  {
    hide Bits, Shr;
    BitsSplit(a * 16 + b, 2, 4);
    ShrValues(a * 16 + b);
    Low4(a, b);
  }

  lemma Joined4(a: int, b: int)
    requires 0 <= b < 4
    ensures Bits(a * 4 + b, 6) == Bits(a, 4) + Bits(b, 2)
  {
    hide Bits, Shr;
    BitsSplit(a * 4 + b, 4, 2);
    ShrValues(a * 4 + b);
    Low2(a, b);
  }

  lemma SextetBitsAppend(a: seq<int>, b: seq<int>)
    ensures SextetBits(a + b) == SextetBits(a) + SextetBits(b)
    decreases a
  {
    if a == [] {
      assert a + b == b;
    } else {
      assert (a + b)[1..] == a[1..] + b;
      SextetBitsAppend(a[1..], b);
    }
  }

  /** The digits of the encoding spell the bits of the bytes, and at most four bits more. */
  lemma {:induction false} SextetsSpell(bs: seq<Byte>) returns (tail: seq<bool>)
    ensures SextetBits(Sextets(bs)) == ByteBits(bs) + tail && |tail| <= 4
    decreases |bs|
  {
    if bs == [] {
      tail := [];
    } else if |bs| < 3 {
      tail := LastSpell(bs);
    } else {
      hide Sextets, SextetBits, ByteBits;
      tail := SextetsSpell(bs[3..]);
      var front := FrontSpells(bs);
      Behind(front, ByteBits(bs[3..]), tail);
    }
  }

  lemma Behind(a: seq<bool>, b: seq<bool>, c: seq<bool>)
    ensures a + (b + c) == (a + b) + c
  {
  }

  lemma FrontSpells(bs: seq<Byte>) returns (front: seq<bool>)
    requires |bs| >= 3
    ensures SextetBits(Sextets(bs)) == front + SextetBits(Sextets(bs[3..])) && ByteBits(bs) == front + ByteBits(bs[3..])
  {
    front := Bits(bs[0], 8) + Bits(bs[1], 8) + Bits(bs[2], 8);
    var group := Group(bs[0], bs[1], bs[2]);
    assert Sextets(bs) == group + Sextets(bs[3..]);
    hide Group, Sextets, SextetBits, ByteBits, Bits;
    SextetBitsAppend(group, Sextets(bs[3..]));
    GroupSpells(bs[0], bs[1], bs[2]);
    ByteBits3(bs);
  }

  lemma GroupSpells(a: Byte, b: Byte, c: Byte)
    ensures SextetBits(Group(a, b, c)) == Bits(a, 8) + Bits(b, 8) + Bits(c, 8)
  {
    hide Bits, SextetBits, Group;
    GroupBits(a, b, c);
    ByteCuts(a);
    ByteCuts(b);
    ByteCuts(c);
    Recut(Bits(a / 4, 6), Bits(a % 4, 2), Bits(b / 16, 4), Bits(b % 16, 4), Bits(c / 64, 2), Bits(c % 64, 6));
  }

  lemma GroupBits(a: Byte, b: Byte, c: Byte)
    ensures SextetBits(Group(a, b, c))
         == Bits(a / 4, 6) + (Bits(a % 4, 2) + Bits(b / 16, 4)) + (Bits(b % 16, 4) + Bits(c / 64, 2)) + Bits(c % 64, 6)
  {
    hide Bits, SextetBits;
    SextetBits4(a / 4, a % 4 * 16 + b / 16, b % 16 * 4 + c / 64, c % 64);
    Joined2(a % 4, b / 16);
    Joined4(b % 16, c / 64);
  }

  lemma Recut(a: seq<bool>, b: seq<bool>, c: seq<bool>, d: seq<bool>, e: seq<bool>, f: seq<bool>)
    ensures (a + b) + (c + d) + (e + f) == a + (b + c) + (d + e) + f
  {
  }

  lemma ByteBitsAt(bs: seq<Byte>, i: nat)
    requires i < |bs|
    ensures ByteBits(bs[i..]) == Bits(bs[i], 8) + ByteBits(bs[i + 1..])
  {
    assert bs[i..][1..] == bs[i + 1..];
  }

  lemma Nest(a: seq<bool>, b: seq<bool>, c: seq<bool>, d: seq<bool>)
    ensures a + (b + (c + d)) == a + b + c + d
  {
  }

  lemma ByteBits3(bs: seq<Byte>)
    requires |bs| >= 3
    ensures ByteBits(bs) == Bits(bs[0], 8) + Bits(bs[1], 8) + Bits(bs[2], 8) + ByteBits(bs[3..])
  {
    hide Bits;
    ByteBitsAt(bs, 0);
    ByteBitsAt(bs, 1);
    ByteBitsAt(bs, 2);
    assert bs[0..] == bs;
    hide ByteBits;
    Nest(Bits(bs[0], 8), Bits(bs[1], 8), Bits(bs[2], 8), ByteBits(bs[3..]));
  }

  lemma SextetBits4(d1: int, d2: int, d3: int, d4: int)
    ensures SextetBits([d1, d2]) == Bits(d1, 6) + Bits(d2, 6)
    ensures SextetBits([d1, d2, d3]) == Bits(d1, 6) + Bits(d2, 6) + Bits(d3, 6)
    ensures SextetBits([d1, d2, d3, d4]) == Bits(d1, 6) + Bits(d2, 6) + Bits(d3, 6) + Bits(d4, 6)
  {
    hide Bits;
    SextetBitsAppend([d1], [d2]);
    SextetBitsAppend([d1, d2], [d3]);
    SextetBitsAppend([d1, d2, d3], [d4]);
    One(d1);
    One(d2);
    One(d3);
    One(d4);
    hide SextetBits;
    assert [d1] + [d2] == [d1, d2] && [d1, d2] + [d3] == [d1, d2, d3] && [d1, d2, d3] + [d4] == [d1, d2, d3, d4];
  }

  lemma One(d: int)
    ensures SextetBits([d]) == Bits(d, 6)
  {
    assert SextetBits([d]) == Bits(d, 6) + SextetBits([]);
  }

  lemma LastSpell(bs: seq<Byte>) returns (tail: seq<bool>)
    requires 1 <= |bs| <= 2
    ensures SextetBits(Sextets(bs)) == ByteBits(bs) + tail && |tail| <= 4
  {
    hide Bits;
    var a := bs[0];
    ByteCuts(a);
    if |bs| == 1 {
      tail := Bits(0, 4);
      assert Sextets(bs) == [a / 4, a % 4 * 16];
      assert ByteBits(bs) == Bits(a, 8) + ByteBits([]);
      SextetBits4(a / 4, a % 4 * 16, 0, 0);
      Joined2(a % 4, 0);
    } else {
      var b := bs[1];
      tail := Bits(0, 2);
      assert Sextets(bs) == [a / 4, a % 4 * 16 + b / 16, b % 16 * 4];
      assert ByteBits(bs) == Bits(a, 8) + Bits(b, 8) by { assert ByteBits(bs[1..]) == Bits(b, 8) + ByteBits([]); }
      hide Sextets, ByteBits, SextetBits;
      SextetBits4(a / 4, a % 4 * 16 + b / 16, b % 16 * 4, 0);
      ByteCuts(b);
      Joined2(a % 4, b / 16);
      Joined4(b % 16, 0);
    }
  }

  /** Decoding the encoding of any bytes, padded or not and with junk inserted anywhere, such as white
      space, gives them back. */
  lemma RoundTrip(bs: seq<Byte>, padded: bool, input: string)
    requires Inserted(Encode(bs, padded), input)
    ensures DecodeText(input) == bs
  {
    var ds := Sextets(bs);
    DigitsOfInserted(Encode(bs, padded), input);
    DigitsOfClean(input);
    hide Inserted, Clean;
    DigitsOfText(ds, Encode(bs, padded)[|Text(ds)|..]);
    assert Encode(bs, padded) == Text(ds) + Encode(bs, padded)[|Text(ds)|..];
    var tail := SextetsSpell(bs);
    StreamDecides(ds, bs, tail);
  }

  lemma {:induction false} InsertedItself(t: string)
    ensures Inserted(t, t)
  {
    if t != [] {
      InsertedItself(t[1..]);
    }
  }

  /** White space can be inserted at any place. */
  lemma {:induction false} SpaceInserted(t: string, u: string, c: char)
    requires c as int in {9, 10, 11, 12, 13, 32}
    ensures Inserted(t + u, t + [c] + u)
  {
    NotFound(c);
    hide Junk;
    if t == [] {
      InsertedItself(u);
      assert ([] + [c] + u)[1..] == u && [] + u == u;
    } else {
      SpaceInserted(t[1..], u, c);
      assert (t + u)[1..] == t[1..] + u && (t + [c] + u)[1..] == t[1..] + [c] + u;
    }
  }

  lemma TextFirst(d: int, ds: seq<int>)
    requires NulFree([d] + ds) && NulFree(ds) && 0 <= d < 64
    ensures Text([d] + ds) == [Symbol(d)] + Text(ds)
  {
    hide Symbol;
    assert ([d] + ds)[1..] == ds;
  }

  lemma FourText(a: int, b: int, c: int, d: int, ds: seq<int>)
    requires NulFree([a, b, c, d] + ds) && NulFree(ds) && 0 <= a < 64 && 0 <= b < 64 && 0 <= c < 64 && 0 <= d < 64
    ensures Text([a, b, c, d] + ds) == [Symbol(a), Symbol(b), Symbol(c), Symbol(d)] + Text(ds)
  {
    hide Symbol, Text;
    assert [c] + ([d] + ds) == [c, d] + ds && [b] + ([c, d] + ds) == [b, c, d] + ds;
    assert [a] + ([b, c, d] + ds) == [a, b, c, d] + ds;
    TextFirst(d, ds);
    TextFirst(c, [d] + ds);
    TextFirst(b, [c, d] + ds);
    TextFirst(a, [b, c, d] + ds);
    hide NulFree;
    assert [Symbol(a)] + ([Symbol(b)] + ([Symbol(c)] + ([Symbol(d)] + Text(ds))))
        == [Symbol(a), Symbol(b), Symbol(c), Symbol(d)] + Text(ds);
  }

  lemma GroupText(a: Byte, b: Byte, c: Byte, rest: seq<Byte>)
    ensures var g := Group(a, b, c);
            Text(Sextets([a, b, c] + rest)) == [Symbol(g[0]), Symbol(g[1]), Symbol(g[2]), Symbol(g[3])] + Text(Sextets(rest))
  {
    var g := Group(a, b, c);
    assert ([a, b, c] + rest)[3..] == rest;
    assert Sextets([a, b, c] + rest) == g + Sextets(rest);
    hide Sextets, Symbol, Text;
    FourText(g[0], g[1], g[2], g[3], Sextets(rest));
  }

  lemma NoText()
    ensures Text(Sextets([])) == ""
  {
  }

  lemma OneGroup(a: Byte, b: Byte, c: Byte)
    ensures var g := Group(a, b, c);
            Text(Sextets([a, b, c])) == [Symbol(g[0]), Symbol(g[1]), Symbol(g[2]), Symbol(g[3])]
  {
    GroupText(a, b, c, []);
    NoText();
    hide Text, Sextets, Group, Symbol;
    assert [a, b, c] + [] == [a, b, c];
  }

  lemma Encoded(a: Byte, b: Byte, c: Byte, padded: bool)
    ensures Encode([a, b, c], padded) == Text(Sextets([a, b, c]))
  {
    hide Text, Sextets;
  }

  lemma TestVector(a: Byte, b: Byte, c: Byte, padded: bool)
    ensures [a, b, c] == [102, 111, 111] ==> Encode([a, b, c], padded) == "Zm9v" && DecodeText("Zm9v") == [a, b, c]
    ensures [a, b, c] == [98, 97, 114] ==> Encode([a, b, c], padded) == "YmFy" && DecodeText("YmFy") == [a, b, c]
    ensures [a, b, c] == [251, 239, 190] ==> Encode([a, b, c], padded) == "++++" && DecodeText("++++") == [a, b, c]
    ensures [a, b, c] == [255, 255, 255] ==> Encode([a, b, c], padded) == "////" && DecodeText("////") == [a, b, c]
  {
    OneGroup(a, b, c);
    Encoded(a, b, c, padded);
    hide Text, Sextets, Encode, Inserted, DecodeText;
    InsertedItself(Encode([a, b, c], padded));
    RoundTrip([a, b, c], padded, Encode([a, b, c], padded));
  }

  /** Vectors of section 10 of RFC 4648, and of the last two symbols. */
  lemma TestVectors()
    ensures Encode([102, 111, 111], true) == "Zm9v" && DecodeText("Zm9v") == [102, 111, 111]
    ensures Encode([98, 97, 114], true) == "YmFy" && DecodeText("YmFy") == [98, 97, 114]
    ensures Encode([251, 239, 190], true) == "++++" && DecodeText("++++") == [251, 239, 190]
    ensures Encode([255, 255, 255], true) == "////" && DecodeText("////") == [255, 255, 255]
    ensures Encode([102], true) == "Zg==" && Encode([102], false) == "Zg" && DecodeText("Zg==") == DecodeText("Zg") == [102]
    ensures Encode([102, 111], true) == "Zm8=" && Encode([102, 111], false) == "Zm8" && DecodeText("Zm8=") == [102, 111]
  {
    TestVector(102, 111, 111, true);
    TestVector(98, 97, 114, true);
    TestVector(251, 239, 190, true);
    TestVector(255, 255, 255, true);
    PaddedVectors();
    hide *;
  }

  lemma SmallTexts()
    ensures Text(Sextets([102])) == "Zg" && Text(Sextets([102, 111])) == "Zm8"
  {
    assert Sextets([102]) == [25, 32] && Sextets([102, 111]) == [25, 38, 60];
    hide Sextets;
    assert [25, 32][1..] == [32] && [32][1..] == [] && [25, 38, 60][1..] == [38, 60] && [38, 60][1..] == [60] && [60][1..] == [];
    assert Text([32]) == [Symbol(32)] + Text([]);
    assert Text([60]) == [Symbol(60)] + Text([]);
    assert Text([38, 60]) == [Symbol(38)] + Text([60]);
    assert Text([25, 32]) == [Symbol(25)] + Text([32]);
    assert Text([25, 38, 60]) == [Symbol(25)] + Text([38, 60]);
  }

  lemma PaddedVectors()
    ensures Encode([102], true) == "Zg==" && Encode([102], false) == "Zg" && DecodeText("Zg==") == DecodeText("Zg") == [102]
    ensures Encode([102, 111], true) == "Zm8=" && Encode([102, 111], false) == "Zm8" && DecodeText("Zm8=") == [102, 111]
  {
    SmallTexts();
    hide Text, Sextets, Inserted, DecodeText;
    InsertedItself(Encode([102], true));
    InsertedItself(Encode([102], false));
    InsertedItself(Encode([102, 111], true));
    RoundTrip([102], true, Encode([102], true));
    RoundTrip([102], false, Encode([102], false));
    RoundTrip([102, 111], true, Encode([102, 111], true));
    assert "Zg" + "" == "Zg" && "Zm8" + "" == "Zm8";
  }
}
