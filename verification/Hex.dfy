/** Lower-case hex, as sent to the MPC signer, and the reader on the other side. */
module Hex {
  import opened Types

  function Digit(n: nat): char
    requires n < 16
  {
    if n < 10 then '0' + n as char else 'a' + (n - 10) as char
  }

  function ToHexSpec(bytes: Bytes): string {
    if bytes == [] then [] else [Digit(bytes[0] / 16), Digit(bytes[0] % 16)] + ToHexSpec(bytes[1..])
  }

  lemma {:induction false} ToHexSnoc(bytes: Bytes, b: byte)
    ensures ToHexSpec(bytes + [b]) == ToHexSpec(bytes) + [Digit(b / 16), Digit(b % 16)]
  {
    if bytes == [] {
      assert ToHexSpec([b]) == [Digit(b / 16), Digit(b % 16)] + ToHexSpec([]);
    } else {
      assert (bytes + [b])[1..] == bytes[1..] + [b];
      ToHexSnoc(bytes[1..], b);
    }
  }

  method ToHex(bytes: Bytes) returns (s: string)
    ensures s == ToHexSpec(bytes)
  {
    s := [];
    for i := 0 to |bytes|
      invariant s == ToHexSpec(bytes[..i])
    {
      ToHexSnoc(bytes[..i], bytes[i]);
      assert bytes[..i + 1] == bytes[..i] + [bytes[i]];
      s := s + [Digit(bytes[i] / 16)];
      s := s + [Digit(bytes[i] % 16)];
    }
    assert bytes[..|bytes|] == bytes;
  }

  /** None where the contract panics on the character. */
  function Nibble(c: char): Option<nat> {
    if '0' <= c <= '9' then Some(c as int - '0' as int)
    else if 'a' <= c <= 'f' then Some(c as int - 'a' as int + 10)
    else if 'A' <= c <= 'F' then Some(c as int - 'A' as int + 10)
    else None
  }

  function FromHex(s: string): Option<Bytes> {
    if s == [] then Some([])
    else if |s| == 1 then None
    else
      match (Nibble(s[0]), Nibble(s[1]), FromHex(s[2..]))
      case (Some(hi), Some(lo), Some(rest)) => Some([16 * hi + lo] + rest)
      case _ => None
  }

  lemma DigitNibble(n: nat)
    requires n < 16
    ensures Nibble(Digit(n)) == Some(n)
  {}

  lemma {:induction false} HexRoundTrip(bytes: Bytes)
    ensures FromHex(ToHexSpec(bytes)) == Some(bytes)
  {
    if bytes != [] {
      var hi, lo := bytes[0] / 16, bytes[0] % 16;
      DigitNibble(hi);
      DigitNibble(lo);
      HexRoundTrip(bytes[1..]);
      assert ToHexSpec(bytes)[2..] == ToHexSpec(bytes[1..]);
      assert bytes == [bytes[0]] + bytes[1..];
    }
  }

  predicate LowerCase(c: char) {
    !('A' <= c <= 'F')
  }

  ghost predicate AllLowerCase(s: string) {
    forall i :: 0 <= i < |s| ==> LowerCase(s[i])
  }

  lemma AllLowerCaseSplit(s: string)
    requires |s| >= 2
    ensures AllLowerCase(s) <==> LowerCase(s[0]) && LowerCase(s[1]) && AllLowerCase(s[2..])
  {
    if LowerCase(s[0]) && LowerCase(s[1]) && AllLowerCase(s[2..]) {
      forall i | 0 <= i < |s| ensures LowerCase(s[i]) {
        if i >= 2 { assert s[i] == s[2..][i - 2]; }
      }
    }
  }

  lemma PairInFront(a: char, b: char, tail: string, s: string)
    requires |s| >= 2
    ensures [a, b] + tail == s <==> a == s[0] && b == s[1] && tail == s[2..]
  {
    assert s == [s[0], s[1]] + s[2..];
    assert ([a, b] + tail)[2..] == tail;
  }

  lemma NibbleDigit(c: char)
    requires Nibble(c).Some?
    ensures Nibble(c).value < 16 && (Digit(Nibble(c).value) == c <==> LowerCase(c))
  {}

  lemma PairOfDigits(hi: nat, lo: nat, rest: Bytes)
    requires hi < 16 && lo < 16
    ensures ToHexSpec([16 * hi + lo] + rest) == [Digit(hi), Digit(lo)] + ToHexSpec(rest)
  {
    var b: byte := 16 * hi + lo;
    assert b / 16 == hi && b % 16 == lo;
    assert ([b] + rest)[1..] == rest;
  }

  /** The reader also takes capitals; writing back returns the input exactly when there are none. */
  lemma {:induction false} HexCanonical(s: string)
    requires FromHex(s).Some?
    ensures ToHexSpec(FromHex(s).value) == s <==> AllLowerCase(s)
  {
    if s != [] {
      var rest := FromHex(s[2..]).value;
      NibbleDigit(s[0]);
      NibbleDigit(s[1]);
      var hi, lo := Nibble(s[0]).value, Nibble(s[1]).value;
      HexCanonical(s[2..]);
      PairOfDigits(hi, lo, rest);
      PairInFront(Digit(hi), Digit(lo), ToHexSpec(rest), s);
      AllLowerCaseSplit(s);
    }
  }
}
