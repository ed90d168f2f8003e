/**
  The hex codec: Base16 as in section 8 of RFC 4648, but lower-case on output and either case
  on input. A character that is not ASCII is refused whatever its bytes, so strings are read
  character by character.
*/
module Hex {
  import opened Directory

  // ---------- digits ----------

  predicate IsHex(c: char) {
    '0' <= c <= '9' || 'a' <= c <= 'f' || 'A' <= c <= 'F'
  }

  predicate AllHex(s: string) {
    forall i :: 0 <= i < |s| ==> IsHex(s[i])
  }

  function Nibble(c: char): (n: int)
    requires IsHex(c)
    ensures 0 <= n < 16
  {
    if 'A' <= c <= 'F' then c as int - 'A' as int + 10
    else if 'a' <= c <= 'f' then c as int - 'a' as int + 10
    else c as int - '0' as int
  }

  function Digit(n: int): (c: char)
    requires 0 <= n < 16
    ensures IsHex(c) && !('A' <= c <= 'F') && Nibble(c) == n
  {
    if n < 10 then ('0' as int + n) as char else ('a' as int + n - 10) as char
  }

  function LowerChar(c: char): char {
    if 'A' <= c <= 'F' then (c as int - 'A' as int + 'a' as int) as char else c
  }

  function Lower(s: string): (l: string)
    ensures |l| == |s|
  {
    seq(|s|, i requires 0 <= i < |s| => LowerChar(s[i]))
  }

  // ---------- what the codec computes ----------

  /** Two digits a byte; a last digit without a partner says nothing. */
  function Decode(s: string): (v: Bytes)
    requires AllHex(s)
  {
    if |s| < 2 then [] else [16 * Nibble(s[0]) + Nibble(s[1])] + Decode(s[2..])
  }

  function Pair(b: Byte): string {
    [Digit(b / 16), Digit(b % 16)]
  }

  function Encode(v: Bytes): string {
    if v == [] then "" else Pair(v[0]) + Encode(v[1..])
  }

  lemma {:induction false} DecodeMore(s: string, t: string)
    requires AllHex(s) && AllHex(t) && |s| % 2 == 0
    ensures AllHex(s + t) && Decode(s + t) == Decode(s) + Decode(t)
  {
    hide IsHex;
    hide Nibble;
    if s == "" {
      assert s + t == t;
    } else {
      assert (s + t)[2..] == s[2..] + t;
      assert (s + t)[0] == s[0] && (s + t)[1] == s[1];
      assert |s[2..]| % 2 == 0 && AllHex(s[2..]) && AllHex(s + t);
      DecodeMore(s[2..], t);
      assert Decode(s) == [16 * Nibble(s[0]) + Nibble(s[1])] + Decode(s[2..]);
      assert Decode(s + t) == [16 * Nibble(s[0]) + Nibble(s[1])] + Decode((s + t)[2..]);
    }
  }

  lemma {:induction false} EncodeMore(v: Bytes, w: Bytes)
    ensures Encode(v + w) == Encode(v) + Encode(w)
  {
    if v == [] {
      assert v + w == w;
    } else {
      assert (v + w)[1..] == v[1..] + w;
      EncodeMore(v[1..], w);
    }
  }

  lemma DecodeNothing(s: string)
    ensures Decode(s[..0]) == []
  {
  }

  /** One more digit completes a byte, or waits for the next. */
  lemma DecodeStep(s: string, i: nat)
    requires i < |s| && AllHex(s[..i+1])
    ensures AllHex(s[..i])
    ensures i % 2 == 0 ==> Decode(s[..i+1]) == Decode(s[..i])
    ensures i % 2 == 1 ==> IsHex(s[i-1]) && Decode(s[..i+1]) == Decode(s[..i]) + [16 * Nibble(s[i-1]) + Nibble(s[i])]
  {
    hide IsHex;
    hide Nibble;
    assert forall j :: 0 <= j <= i ==> s[..i+1][j] == s[j];
    assert AllHex(s[..i]);
    if i % 2 == 0 {
      assert s[..i+1] == s[..i] + [s[i]];
      DecodeMore(s[..i], [s[i]]);
    } else {
      assert s[..i] == s[..i-1] + [s[i-1]];
      assert s[..i+1] == s[..i-1] + [s[i-1], s[i]];
      DecodeMore(s[..i-1], [s[i-1]]);
      DecodeMore(s[..i-1], [s[i-1], s[i]]);
      assert [s[i-1], s[i]][2..] == "";
    }
  }

  /** The digits, spelled out. */
  lemma HexIs(c: char)
    ensures IsHex(c) <==> c in "0123456789abcdefABCDEF"
  {
  }

  lemma NibbleIs(c: char)
    requires IsHex(c)
    ensures DigitOf(c, Nibble(c))
  {
  }

  /** Each byte is read from the two digits at its place. */
  lemma {:induction false} DecodeAt(s: string, j: nat)
    requires AllHex(s) && j < |s| / 2
    ensures |Decode(s)| == |s| / 2 && Decode(s)[j] == 16 * Nibble(s[2 * j]) + Nibble(s[2 * j + 1])
  {
    hide Nibble;
    DecodeLength(s);
    if j > 0 {
      DecodeAt(s[2..], j - 1);
    }
  }

  /** Each byte is printed as the two digits at its place. */
  lemma {:induction false} EncodeAt(v: Bytes, j: nat)
    requires j < |v|
    ensures |Encode(v)| == 2 * |v| && Encode(v)[2 * j] == Digit(v[j] / 16) && Encode(v)[2 * j + 1] == Digit(v[j] % 16)
  {
    EncodeLength(v);
    if j > 0 {
      EncodeAt(v[1..], j - 1);
    }
  }

  // ---------- what the digits are, spelled out ----------

  ghost predicate Digits(s: string) {
    forall c :: c in s ==> c in "0123456789abcdefABCDEF"
  }

  predicate DigitOf(c: char, n: int) {
    0 <= n < 16 && (c == "0123456789abcdef"[n] || c == "0123456789ABCDEF"[n])
  }

  /** The digits `h` and `l`, in either case, stand for the byte `v`. */
  ghost predicate ReadAs(h: char, l: char, v: Byte) {
    exists a, b :: DigitOf(h, a) && DigitOf(l, b) && v == 16 * a + b
  }

  /** In lower case they are what is printed for it. */
  ghost predicate PrintedAs(h: char, l: char, v: Byte) {
    h == "0123456789abcdef"[v / 16] && l == "0123456789abcdef"[v % 16]
  }

  lemma DigitsAre(s: string)
    ensures Digits(s) <==> AllHex(s)
  {
    hide IsHex;
    forall c ensures IsHex(c) <==> c in "0123456789abcdefABCDEF" {
      HexIs(c);
    }
  }

  lemma ReadAsIs(h: char, l: char)
    requires IsHex(h) && IsHex(l)
    ensures ReadAs(h, l, 16 * Nibble(h) + Nibble(l))
  {
    hide IsHex;
    hide Nibble;
    hide DigitOf;
    NibbleIs(h);
    NibbleIs(l);
  }

  lemma HighAndLow(a: int, b: int)
    requires 0 <= a < 16 && 0 <= b < 16
    ensures (16 * a + b) / 16 == a && (16 * a + b) % 16 == b
  {
  }

  lemma PrintedAsIs(v: Byte)
    ensures PrintedAs(Digit(v / 16), Digit(v % 16), v)
  {
    hide IsHex;
    hide Digit;
    DigitPrints(v / 16);
    DigitPrints(v % 16);
  }

  lemma DigitPrints(n: int)
    requires 0 <= n < 16
    ensures Digit(n) == "0123456789abcdef"[n]
  {
  }

  lemma ReadsAs(s: string)
    requires AllHex(s)
    ensures |Decode(s)| == |s| / 2
    ensures forall j :: 0 <= j < |Decode(s)| ==> ReadAs(s[2 * j], s[2 * j + 1], Decode(s)[j])
  {
    hide ReadAs;
    hide IsHex;
    DecodeLength(s);
    forall j | 0 <= j < |Decode(s)| ensures ReadAs(s[2 * j], s[2 * j + 1], Decode(s)[j]) {
      DecodeAt(s, j);
      ReadAsIs(s[2 * j], s[2 * j + 1]);
    }
  }

  lemma PrintsAs(v: Bytes)
    ensures |Encode(v)| == 2 * |v|
    ensures forall j :: 0 <= j < |v| ==> PrintedAs(Encode(v)[2 * j], Encode(v)[2 * j + 1], v[j])
  {
    hide PrintedAs;
    EncodeLength(v);
    forall j | 0 <= j < |v| ensures PrintedAs(Encode(v)[2 * j], Encode(v)[2 * j + 1], v[j]) {
      EncodeAt(v, j);
      PrintedAsIs(v[j]);
    }
  }

  // ---------- the two loops ----------

  /** One pass with an accumulator of eight bits, pushed at every second digit. */
  method ToVec(hex: string) returns (out: Option<Bytes>)
    ensures out.Some? <==> AllHex(hex)
    ensures out.Some? ==> out.value == Decode(hex)
    ensures out.Some? <==> Digits(hex)
    ensures out.Some? ==> |out.value| == |hex| / 2
    ensures out.Some? ==> forall j :: 0 <= j < |out.value| ==> ReadAs(hex[2 * j], hex[2 * j + 1], out.value[j])
  {
    hide Digits;
    hide ReadAs;
    hide Decode;
    DecodeNothing(hex);
    DigitsAre(hex);
    var bytes: Bytes := [];
    var b := 0;
    for idx := 0 to |hex|
      invariant AllHex(hex[..idx]) && bytes == Decode(hex[..idx])
      invariant b == if idx % 2 == 1 then Nibble(hex[..idx][idx-1]) else 0
    {
      b := (b * 16) % 256;
      assert b == if idx % 2 == 1 then 16 * Nibble(hex[idx-1]) else 0;
      var c := hex[idx];
      if 'A' <= c <= 'F' {
        b := b + (c as int - 'A' as int + 10);
      } else if 'a' <= c <= 'f' {
        b := b + (c as int - 'a' as int + 10);
      } else if '0' <= c <= '9' {
        b := b + (c as int - '0' as int);
      } else {
        return None;
      }
      assert AllHex(hex[..idx+1]) by {
        assert hex[..idx+1] == hex[..idx] + [c];
      }
      DecodeStep(hex, idx);
      if idx % 2 == 1 {
        bytes := bytes + [b];
        b := 0;
      }
    }
    assert hex[..|hex|] == hex;
    out := Some(bytes);
    ReadsAs(hex);
  }

  method HexStr(value: Bytes) returns (res: string)
    ensures res == Encode(value) && |res| == 2 * |value|
    ensures forall j :: 0 <= j < |value| ==> PrintedAs(res[2 * j], res[2 * j + 1], value[j])
  {
    hide PrintedAs;
    res := "";
    for i := 0 to |value|
      invariant res == Encode(value[..i])
    {
      assert value[..i+1] == value[..i] + [value[i]];
      EncodeMore(value[..i], [value[i]]);
      res := res + Pair(value[i]);
    }
    assert value[..|value|] == value;
    PrintsAs(value);
  }

  // ---------- the codec's laws ----------

  /** Every byte string survives being printed and read back. */
  lemma {:induction false} RoundTrip(v: Bytes)
    ensures AllHex(Encode(v)) && Decode(Encode(v)) == v
  {
    if v != [] {
      RoundTrip(v[1..]);
      var s := Encode(v);
      assert s[2..] == Encode(v[1..]);
      assert forall i :: 2 <= i < |s| ==> s[i] == Encode(v[1..])[i-2];
    }
  }

  lemma {:induction false} DecodeLength(s: string)
    requires AllHex(s)
    ensures |Decode(s)| == |s| / 2
  {
    if |s| >= 2 {
      DecodeLength(s[2..]);
    }
  }

  lemma {:induction false} EncodeLength(v: Bytes)
    ensures |Encode(v)| == 2 * |v|
  {
    if v != [] {
      EncodeLength(v[1..]);
    }
  }

  lemma NibbleDigit(c: char)
    requires IsHex(c)
    ensures Digit(Nibble(c)) == LowerChar(c)
  {
  }

  lemma PairOfDigits(a: char, b: char)
    requires IsHex(a) && IsHex(b)
    ensures Pair(16 * Nibble(a) + Nibble(b)) == [LowerChar(a), LowerChar(b)]
  {
    hide IsHex;
    hide Nibble;
    hide Digit;
    hide LowerChar;
    HighAndLow(Nibble(a), Nibble(b));
    NibbleDigit(a);
    NibbleDigit(b);
  }

  lemma LowerTail(s: string)
    requires |s| >= 2
    ensures Lower(s)[..2 * (|s| / 2)] == [LowerChar(s[0]), LowerChar(s[1])] + Lower(s[2..])[..2 * (|s[2..]| / 2)]
  {
  }

  /** Reading and printing back gives the input in lower case, less an odd last digit. */
  lemma {:induction false} Normalizes(s: string)
    requires AllHex(s)
    ensures Encode(Decode(s)) == Lower(s)[..2 * (|s| / 2)]
  {
    if |s| >= 2 {
      Normalizes(s[2..]);
      LowerTail(s);
      PairOfDigits(s[0], s[1]);
      assert Decode(s)[1..] == Decode(s[2..]);
      hide Lower;
    }
  }

  /** Two strings are read alike exactly when they print the same digits, case aside. */
  lemma DecodeSame(s: string, t: string)
    requires AllHex(s) && AllHex(t)
    ensures Decode(s) == Decode(t) <==> Lower(s)[..2 * (|s| / 2)] == Lower(t)[..2 * (|t| / 2)]
  {
    Normalizes(s);
    Normalizes(t);
    RoundTrip(Decode(s));
    RoundTrip(Decode(t));
  }
}
