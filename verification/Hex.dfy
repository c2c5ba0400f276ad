/** The hexadecimal form of secret keys (tintin-core/src/keys.rs), base 16 as in section 8 of
    RFC 4648: written in lower case, read in either case.
 */
module Hex {
  import opened Crypto

  newtype Byte = x: int | 0 <= x < 256

  function Digit(n: int): char
    requires 0 <= n < 16
  {
    if n < 10 then '0' + n as char else 'a' + (n - 10) as char
  }

  /** The value of a hexadecimal digit. */
  function Value(c: char): (v: Option<int>)
    ensures v.Some? ==> 0 <= v.value < 16
  {
    if '0' <= c <= '9' then Some((c - '0') as int)
    else if 'a' <= c <= 'f' then Some((c - 'a') as int + 10)
    else if 'A' <= c <= 'F' then Some((c - 'A') as int + 10)
    else None
  }

  function Pair(b: Byte): (char, char) {
    (Digit(b as int / 16), Digit(b as int % 16))
  }

  function Unpair(hi: char, lo: char): Option<Byte> {
    match (Value(hi), Value(lo))
    case (Some(h), Some(l)) => Some((h * 16 + l) as Byte)
    case _ => None
  }

  function Encode(bytes: seq<Byte>): string {
    if bytes == [] then "" else [Pair(bytes[0]).0, Pair(bytes[0]).1] + Encode(bytes[1..])
  }

  function Decode(s: string): Option<seq<Byte>> {
    if s == "" then Some([])
    else if |s| == 1 then None
    else
      match (Unpair(s[0], s[1]), Decode(s[2..]))
      case (Some(b), Some(rest)) => Some([b] + rest)
      case _ => None
  }

  /** Reading a key: exactly thirty-two bytes. */
  function DecodeKey(s: string): Option<seq<Byte>> {
    if |s| == 64 then Decode(s) else None
  }

  predicate IsDigit(c: char) {
    Value(c).Some?
  }

  predicate AllDigits(s: string) {
    forall i :: 0 <= i < |s| ==> IsDigit(s[i])
  }

  function LowerChar(c: char): char {
    if 'A' <= c <= 'F' then c - 'A' + 'a' else c
  }

  /** Capital hexadecimal digits made small. */
  function Lower(s: string): string {
    seq(|s|, (i: nat) requires i < |s| => LowerChar(s[i]))
  }

  lemma {:induction false} DigitValue(c: char, n: int)
    requires 0 <= n < 16
    ensures Value(c) == Some(n) <==> LowerChar(c) == Digit(n)
  {
  }

  /** Two digits stand for a byte exactly when they are its digits, up to case. */
  lemma {:induction false} PairExactly(hi: char, lo: char, b: Byte)
    ensures Unpair(hi, lo) == Some(b) <==> (LowerChar(hi), LowerChar(lo)) == Pair(b)
    ensures LowerChar(Pair(b).0) == Pair(b).0 && LowerChar(Pair(b).1) == Pair(b).1
    ensures IsDigit(Pair(b).0) && IsDigit(Pair(b).1)
  {
    DigitValue(hi, b as int / 16);
    DigitValue(lo, b as int % 16);
    DigitValue(Pair(b).0, b as int / 16);
    DigitValue(Pair(b).1, b as int % 16);
  }

  /** What is written is made of digits, two per byte, and is read back. */
  lemma {:induction false} RoundTrip(bytes: seq<Byte>)
    ensures Decode(Encode(bytes)) == Some(bytes)
    ensures |Encode(bytes)| == 2 * |bytes| && AllDigits(Encode(bytes))
  {
    if bytes != [] {
      RoundTrip(bytes[1..]);
      PairExactly(Pair(bytes[0]).0, Pair(bytes[0]).1, bytes[0]);
      assert Encode(bytes)[2..] == Encode(bytes[1..]);
      assert [bytes[0]] + bytes[1..] == bytes;
    }
  }

  lemma {:induction false} KeyRoundTrip(key: seq<Byte>)
    requires |key| == 32
    ensures DecodeKey(Encode(key)) == Some(key)
  {
    RoundTrip(key);
  }

  /** Reading succeeds exactly on an even number of digits. */
  lemma {:induction false} DecodeSucceeds(s: string)
    ensures Decode(s).Some? <==> |s| % 2 == 0 && AllDigits(s)
  {
    if |s| >= 2 {
      DecodeSucceeds(s[2..]);
      assert Decode(s).Some? <==> IsDigit(s[0]) && IsDigit(s[1]) && Decode(s[2..]).Some?;
      DigitsSplit(s);
    }
  }

  lemma {:induction false} DigitsSplit(s: string)
    requires |s| >= 2
    ensures AllDigits(s) <==> IsDigit(s[0]) && IsDigit(s[1]) && AllDigits(s[2..])
  {
    if IsDigit(s[0]) && IsDigit(s[1]) && AllDigits(s[2..]) {
      forall i | 2 <= i < |s| ensures IsDigit(s[i]) {
        assert s[i] == s[2..][i - 2];
      }
    }
  }

  /** Reading is the inverse of writing, up to the case of the digits, and of nothing else. */
  lemma {:induction false} DecodeExactly(s: string, bytes: seq<Byte>)
    ensures Decode(s) == Some(bytes) <==> Lower(s) == Encode(bytes)
  {
    RoundTrip(bytes);
    if |s| >= 2 && bytes != [] {
      DecodeExactly(s[2..], bytes[1..]);
      PairExactly(s[0], s[1], bytes[0]);
      assert Lower(s) == [LowerChar(s[0]), LowerChar(s[1])] + Lower(s[2..]);
      SameParts([LowerChar(s[0]), LowerChar(s[1])], Lower(s[2..]),
                [Pair(bytes[0]).0, Pair(bytes[0]).1], Encode(bytes[1..]));
      assert bytes == [bytes[0]] + bytes[1..];
    }
  }

  lemma {:induction false} SameParts(a: string, b: string, c: string, d: string)
    requires |a| == |c|
    ensures a + b == c + d <==> a == c && b == d
  {
    if a + b == c + d {
      assert a == (a + b)[..|a|] == c && b == (a + b)[|a|..] == d;
    }
  }

  /** What is written, place by place: two characters per byte, the high half first, each half as its
      hexadecimal digit in lower case. */
  lemma {:induction false} EncodedAt(bytes: seq<Byte>, i: nat)
    requires i < |bytes|
    ensures |Encode(bytes)| == 2 * |bytes|
    ensures Encode(bytes)[2 * i] == "0123456789abcdef"[bytes[i] as int / 16]
    ensures Encode(bytes)[2 * i + 1] == "0123456789abcdef"[bytes[i] as int % 16]
  {
    RoundTrip(bytes);
    if i > 0 {
      EncodedAt(bytes[1..], i - 1);
    } else {
      DigitIs(bytes[0] as int / 16);
      DigitIs(bytes[0] as int % 16);
    }
  }

  lemma {:induction false} DigitIs(n: int)
    requires 0 <= n < 16
    ensures Digit(n) == "0123456789abcdef"[n]
  {
  }
}
