/** Hexadecimal transaction ids (section 8 of RFC 4648): lower-case encoder, decoder that takes either case. */
module Hex {
  import opened ByteTypes
  import opened Wrappers

  function Digit(n: nat): (c: char)
    requires n < 16
  {
    if n < 10 then '0' + n as char else 'a' + (n - 10) as char
  }

  function Nibble(c: char): (r: Option<nat>)
    ensures r.Some? ==> r.value < 16
  {
    if '0' <= c <= '9' then Some((c - '0') as nat)
    else if 'a' <= c <= 'f' then Some((c - 'a') as nat + 10)
    else if 'A' <= c <= 'F' then Some((c - 'A') as nat + 10)
    else None
  }

  function Lower(s: string): string {
    seq(|s|, i requires 0 <= i < |s| => if 'A' <= s[i] <= 'Z' then 'a' + (s[i] - 'A') else s[i])
  }

  function Encode(bs: Bytes): string {
    if bs == [] then "" else [Digit(bs[0] / 16), Digit(bs[0] % 16)] + Encode(bs[1..])
  }

  function Decode(s: string): Option<Bytes> {
    if s == "" then Some([])
    else if |s| == 1 then None
    else
      match (Nibble(s[0]), Nibble(s[1]), Decode(s[2..]))
      case (Some(hi), Some(lo), Some(rest)) => Some([16 * hi + lo] + rest)
      case _ => None
  }

  lemma {:induction false} DecodeEncode(bs: Bytes)
    ensures Decode(Encode(bs)) == Some(bs)
  {
    if bs == [] {
    } else {
      DecodeEncode(bs[1..]);
      assert Encode(bs)[2..] == Encode(bs[1..]);
      assert bs == [bs[0]] + bs[1..];
    }
  }

  lemma EncodeInjective(a: Bytes, b: Bytes)
    requires Encode(a) == Encode(b)
    ensures a == b
  {
    DecodeEncode(a);
    DecodeEncode(b);
  }

  lemma LowerTail(s: string)
    requires |s| >= 2
    ensures Lower(s) == Lower(s[..2]) + Lower(s[2..]) && Lower(s)[2..] == Lower(s[2..])
  {
  }

  lemma EncodeTail(bs: Bytes)
    requires bs != []
    ensures |Encode(bs)| >= 2 && Encode(bs)[2..] == Encode(bs[1..])
    ensures Encode(bs)[0] == Digit(bs[0] / 16) && Encode(bs)[1] == Digit(bs[0] % 16)
  {
  }

  lemma SameHead(a: string, b: string)
    requires |a| >= 2 && |b| >= 2
    ensures a == b <==> a[0] == b[0] && a[1] == b[1] && a[2..] == b[2..]
  {
    assert a == [a[0], a[1]] + a[2..] && b == [b[0], b[1]] + b[2..];
  }

  lemma NibbleIff(c: char, n: nat)
    requires n < 16
    ensures Nibble(c) == Some(n) <==> Lower([c])[0] == Digit(n)
  {
  }

  lemma ByteIff(hi: nat, lo: nat, b: Byte)
    requires hi < 16 && lo < 16
    ensures 16 * hi + lo == b <==> hi == b / 16 && lo == b % 16
  {
  }

  /** The decoder accepts exactly the strings that spell some bytes, in either case, and returns those bytes. */
  lemma {:induction false} DecodeIff(s: string, bs: Bytes)
    ensures Decode(s) == Some(bs) <==> Lower(s) == Encode(bs)
  {
    if s == "" || bs == [] {
    } else if |s| == 1 {
      EncodeTail(bs);
    } else {
      DecodeIff(s[2..], bs[1..]);
      LowerTail(s);
      EncodeTail(bs);
      SameHead(Lower(s), Encode(bs));
      NibbleIff(s[0], bs[0] / 16);
      NibbleIff(s[1], bs[0] % 16);
      hide Encode, Nibble, Digit;
      if Nibble(s[0]).Some? && Nibble(s[1]).Some? {
        ByteIff(Nibble(s[0]).value, Nibble(s[1]).value, bs[0]);
      }
      assert bs == [bs[0]] + bs[1..];
    }
  }
}
