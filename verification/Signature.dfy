/** Unsigned big-endian numerals: what math/big's SetBytes and Bytes compute. */
module BigEndian {
  import opened ByteTypes

  function Pow(k: nat): (p: nat)
    ensures p >= 1
  {
    if k == 0 then 1 else 256 * Pow(k - 1)
  }

  function FromBytes(bs: Bytes): nat {
    if bs == [] then 0 else 256 * FromBytes(bs[..|bs| - 1]) + bs[|bs| - 1]
  }

  /** The shortest numeral; zero is the empty one. */
  function ToBytes(n: nat): Bytes {
    if n == 0 then [] else ToBytes(n / 256) + [n % 256]
  }

  function Zeros(k: nat): Bytes {
    seq(k, _ => 0)
  }

  lemma {:induction false} FromTo(n: nat)
    ensures FromBytes(ToBytes(n)) == n
  {
    if n == 0 {
    } else {
      FromTo(n / 256);
      assert ToBytes(n)[..|ToBytes(n)| - 1] == ToBytes(n / 256);
    }
  }

  lemma {:induction false} LengthIff(n: nat, k: nat)
    ensures |ToBytes(n)| <= k <==> n < Pow(k)
  {
    if n == 0 || k == 0 {
    } else {
      LengthIff(n / 256, k - 1);
    }
  }

  lemma {:induction false} LeadingZeros(k: nat, bs: Bytes)
    ensures FromBytes(Zeros(k) + bs) == FromBytes(bs)
    decreases k + |bs|
  {
    if k == 0 && bs == [] {
    } else if bs == [] {
      LeadingZeros(k - 1, []);
      assert (Zeros(k) + bs)[..k - 1] == Zeros(k - 1) + [];
    } else {
      LeadingZeros(k, bs[..|bs| - 1]);
      assert (Zeros(k) + bs)[..k + |bs| - 1] == Zeros(k) + bs[..|bs| - 1];
    }
  }
}

/**
 * Serialization of threshold signatures (misc/helper.go:59-117) and inversion of the EIP-155 recovery value
 * (misc/helper.go:131-155).
 */
module Signature {
  import opened ByteTypes
  import opened Config
  import opened Wrappers
  import opened BigEndian

  /** The order of secp256k1 and the largest value the code leaves unfolded. */
  const N: nat := 0xFFFFFFFF_FFFFFFFF_FFFFFFFF_FFFFFFFE_BAAEDCE6_AF48A03B_BFD25E8C_D0364141
  const HALF_ORDER: nat := N / 2
  const TWO_256: nat := 0x1_00000000_00000000_00000000_00000000_00000000_00000000_00000000_00000000

  /** The absolute value of S after folding, which is all that Bytes looks at. */
  function Fold(s: nat): nat {
    if s > HALF_ORDER then (if s <= N then N - s else s - N) else s
  }

  /** A buffer after `copy(buf[at:], src)`. */
  function Write(buf: Bytes, at: nat, src: Bytes): (r: Bytes)
    requires at + |src| <= |buf|
    ensures |r| == |buf|
  {
    buf[..at] + src + buf[at + |src|..]
  }

  /** R ends at offset 32 and S at offset 64; a numeral of S beyond 32 bytes runs over R, as in the source. */
  function Layout(r: nat, s: nat, size: nat): (sig: Bytes)
    requires |ToBytes(r)| <= 32 && |ToBytes(s)| <= 64 <= size
    ensures |sig| == size
  {
    Write(Write(Zeros(size), 32 - |ToBytes(r)|, ToBytes(r)), 64 - |ToBytes(s)|, ToBytes(s))
  }

  function Serialized(r: nat, s: nat, v: nat, needRecovery: bool): (sig: Bytes)
    requires |ToBytes(r)| <= 32 && |ToBytes(Fold(s))| <= 64
    requires needRecovery ==> |ToBytes(v)| <= 65
    ensures |sig| == if needRecovery then 65 else 64
  {
    if needRecovery then Write(Layout(r, Fold(s), 65), 65 - |ToBytes(v)|, ToBytes(v)) else Layout(r, Fold(s), 64)
  }

  function Made(r: nat, s: nat, v: nat): (sig: Bytes)
    requires |ToBytes(r)| <= 32 && |ToBytes(s)| <= 64
    ensures |sig| == 65
  {
    Layout(r, s, 65)[64 := v % TWO_64 % 256]
  }

  lemma WriteOneMore(buf: Bytes, at: nat, src: Bytes, i: nat)
    requires at + |src| <= |buf| && i < |src|
    ensures Write(buf, at, src[..i + 1]) == Write(buf, at, src[..i])[at + i := src[i]]
  {
  }

  method Copy(buf: array<Byte>, at: nat, src: Bytes)
    requires at + |src| <= buf.Length
    modifies buf
    ensures buf[..] == Write(old(buf[..]), at, src)
  {
    for i := 0 to |src|
      invariant buf[..] == Write(old(buf[..]), at, src[..i])
    {
      hide Write;
      WriteOneMore(old(buf[..]), at, src, i);
      buf[at + i] := src[i];
    }
    assert src[..|src|] == src;
  }

  /** The copies of R and S into a fresh buffer, with which each writer of the source begins. */
  method WriteScalars(r: nat, s: nat, size: nat) returns (buf: array<Byte>)
    requires |ToBytes(r)| <= 32 && |ToBytes(s)| <= 64 <= size
    ensures fresh(buf) && buf[..] == Layout(r, s, size)
  {
    hide ToBytes, Write;
    var rb, sb := ToBytes(r), ToBytes(s);
    buf := new Byte[size](_ => 0);
    assert buf[..] == Zeros(size);
    Copy(buf, 32 - |rb|, rb);
    Copy(buf, 64 - |sb|, sb);
  }

  /** Decoded inputs are None where base64 rejects the text; the preconditions are the bounds of the slices. */
  method SerializeSig(rBytes: Option<Bytes>, sBytes: Option<Bytes>, vBytes: Option<Bytes>, needRecovery: bool)
      returns (sigBytes: array?<Byte>)
    requires rBytes.Some? && sBytes.Some? && vBytes.Some? ==>
               && |ToBytes(FromBytes(rBytes.value))| <= 32
               && |ToBytes(Fold(FromBytes(sBytes.value)))| <= 64
               && (needRecovery ==> |ToBytes(FromBytes(vBytes.value))| <= 65)
    ensures sigBytes == null <==> rBytes.None? || sBytes.None? || vBytes.None?
    ensures sigBytes != null ==>
              && fresh(sigBytes)
              && sigBytes[..] == Serialized(FromBytes(rBytes.value), FromBytes(sBytes.value), FromBytes(vBytes.value),
                                            needRecovery)
  {
    if rBytes.None? || sBytes.None? || vBytes.None? {
      return null;
    }
    hide ToBytes, FromBytes;
    var r, s, v := FromBytes(rBytes.value), FromBytes(sBytes.value) as int, FromBytes(vBytes.value);
    if s > HALF_ORDER {
      s := N - s;
    }
    var folded: nat := if s < 0 then -s else s;
    assert folded == Fold(FromBytes(sBytes.value));
    hide Zeros, Write, Fold, Layout;
    var buf := WriteScalars(r, folded, if needRecovery then 65 else 64);
    if needRecovery {
      var vb := ToBytes(v);
      Copy(buf, 65 - |vb|, vb);
    }
    sigBytes := buf;
  }

  method MakeSignature(r: nat, s: nat, v: nat) returns (sigBytes: array<Byte>)
    requires |ToBytes(r)| <= 32 && |ToBytes(s)| <= 64
    ensures fresh(sigBytes) && sigBytes[..] == Made(r, s, v)
  {
    sigBytes := WriteScalars(r, s, 65);
    sigBytes[64] := v % TWO_64 % 256;
  }

  /** A reader of the 65-byte form, independent of the writers. */
  function Parse(sig: Bytes): (nat, nat, nat)
    requires |sig| == 65
  {
    (FromBytes(sig[..32]), FromBytes(sig[32..64]), sig[64])
  }

  lemma PowerOf256()
    ensures Pow(32) == TWO_256
  {
    assert Pow(8) == TWO_64;
    PowAdd(8, 8);
    PowAdd(16, 16);
  }

  lemma {:induction false} PowAdd(a: nat, b: nat)
    ensures Pow(a + b) == Pow(a) * Pow(b)
  {
    if a == 0 {
    } else {
      PowAdd(a - 1, b);
    }
  }

  /** Two numerals of at most 32 bytes land in two padded words, and nothing else is written. */
  lemma WriteWords(rb: Bytes, sb: Bytes, size: nat)
    requires |rb| <= 32 && |sb| <= 32 && size >= 64
    ensures Write(Write(Zeros(size), 32 - |rb|, rb), 64 - |sb|, sb)
            == (Zeros(32 - |rb|) + rb) + (Zeros(32 - |sb|) + sb) + Zeros(size - 64)
  {
  }

  function Word(n: nat): (w: Bytes)
    requires |ToBytes(n)| <= 32
    ensures |w| == 32
  {
    Zeros(32 - |ToBytes(n)|) + ToBytes(n)
  }

  lemma WordValue(n: nat)
    requires n < TWO_256
    ensures |ToBytes(n)| <= 32 && FromBytes(Word(n)) == n
  {
    PowerOf256();
    LengthIff(n, 32);
    LeadingZeros(32 - |ToBytes(n)|, ToBytes(n));
    FromTo(n);
  }

  lemma LayoutFields(r: nat, s: nat, size: nat)
    requires r < TWO_256 && s < TWO_256 && size >= 64
    ensures |ToBytes(r)| <= 32 && |ToBytes(s)| <= 32
    ensures Layout(r, s, size) == Word(r) + Word(s) + Zeros(size - 64)
    ensures FromBytes(Word(r)) == r && FromBytes(Word(s)) == s
  {
    WordValue(r);
    WordValue(s);
    WriteWords(ToBytes(r), ToBytes(s), size);
  }

  /** Reading two words and a last byte. */
  lemma ParseWords(a: Bytes, b: Bytes, v: Byte)
    requires |a| == |b| == 32
    ensures (a + b + Zeros(1))[64 := v] == a + b + [v]
    ensures Parse(a + b + [v]) == (FromBytes(a), FromBytes(b), v)
  {
    var sig := a + b + [v];
    assert sig[..32] == a && sig[32..64] == b;
  }

  lemma VBytes(v: nat)
    requires v < 256
    ensures |ToBytes(v)| <= 1
    ensures v == 0 ==> ToBytes(v) == []
    ensures v != 0 ==> ToBytes(v) == [v]
  {
    if v != 0 {
      assert ToBytes(v / 256) == [];
    }
  }

  /** EIP-2: a scalar of the group comes out in the lower half, as itself or as its negative. */
  lemma FoldIsLow(s: nat)
    requires 0 < s < N
    ensures 0 < Fold(s) <= HALF_ORDER && Fold(s) == if s <= N - s then s else N - s
    ensures Fold(Fold(s)) == Fold(s) && Fold(N - s) == Fold(s)
  {
  }

  /** Beyond the group too the folded S is S up to sign and order; the lower half stays as it is. */
  lemma FoldIsCongruent(s: nat)
    ensures s <= HALF_ORDER ==> Fold(s) == s
    ensures s > HALF_ORDER ==> s + Fold(s) == N || s == N + Fold(s)
  {
  }

  /** Byte `i` of a buffer in which a numeral ends at `end`, and of what was there before. */
  function ByteAt(numeral: Bytes, end: nat, i: nat, before: Byte): Byte {
    if i < end && end - i <= |numeral| then numeral[|numeral| - (end - i)] else before
  }

  lemma LayoutAt(r: nat, s: nat, size: nat, i: nat)
    requires |ToBytes(r)| <= 32 && |ToBytes(s)| <= 64 <= size && i < size
    ensures Layout(r, s, size)[i] == ByteAt(ToBytes(s), 64, i, ByteAt(ToBytes(r), 32, i, 0))
  {
  }

  /**
   * Byte by byte, for all numerals the buffer holds: R ends at 32, S at 64 and V at 65, each padded with zeros on the
   * left and written over what came before it.
   */
  lemma SerializedAt(r: nat, s: nat, v: nat, needRecovery: bool, i: nat)
    requires |ToBytes(r)| <= 32 && |ToBytes(Fold(s))| <= 64 && |ToBytes(v)| <= 65
    requires i < if needRecovery then 65 else 64
    ensures var scalars := ByteAt(ToBytes(Fold(s)), 64, i, ByteAt(ToBytes(r), 32, i, 0));
            Serialized(r, s, v, needRecovery)[i] == if needRecovery then ByteAt(ToBytes(v), 65, i, scalars) else scalars
  {
    LayoutAt(r, Fold(s), if needRecovery then 65 else 64, i);
    hide Layout, ToBytes, Fold;
  }

  lemma MadeAt(r: nat, s: nat, v: nat, i: nat)
    requires |ToBytes(r)| <= 32 && |ToBytes(s)| <= 64 && i < 65
    ensures Made(r, s, v)[i] == if i == 64 then v % 256 else ByteAt(ToBytes(s), 64, i, ByteAt(ToBytes(r), 32, i, 0))
  {
    LayoutAt(r, s, 65, i);
    LowByte(v);
    hide Layout, ToBytes;
  }

  lemma SerializedFields(r: nat, s: nat, v: nat)
    requires r < TWO_256 && s < N && v < 256
    ensures |ToBytes(r)| <= 32 && |ToBytes(Fold(s))| <= 32 && |ToBytes(v)| <= 1
    ensures Serialized(r, s, v, true) == Word(r) + Word(Fold(s)) + [v]
    ensures Serialized(r, s, v, false) == Word(r) + Word(Fold(s))
    ensures FromBytes(Word(r)) == r && FromBytes(Word(Fold(s))) == Fold(s)
  {
    LayoutFields(r, Fold(s), 65);
    LayoutFields(r, Fold(s), 64);
    VBytes(v);
    LastByte(Word(r), Word(Fold(s)), v);
  }

  lemma LastByte(a: Bytes, b: Bytes, v: Byte)
    requires |a| == |b| == 32
    ensures |ToBytes(v)| <= 1 && Write(a + b + Zeros(1), 65 - |ToBytes(v)|, ToBytes(v)) == a + b + [v]
  {
    VBytes(v);
  }

  lemma Shifted(x: int, p: int, f: int, last: int)
    ensures 256 * (x * p + f) + last == x * (256 * p) + (256 * f + last)
  {
  }

  lemma {:induction false} FromBytesAppend(a: Bytes, b: Bytes)
    ensures FromBytes(a + b) == FromBytes(a) * Pow(|b|) + FromBytes(b)
    decreases |b|
  {
    if b == [] {
      assert a + b == a;
    } else {
      var front, last := b[..|b| - 1], b[|b| - 1];
      assert a + b == (a + front) + [last];
      assert (a + b)[..|a + b| - 1] == a + front;
      FromBytesAppend(a, front);
      Shifted(FromBytes(a), Pow(|front|), FromBytes(front), last);
      assert Pow(|b|) == 256 * Pow(|front|);
      assert FromBytes(a + b) == 256 * FromBytes(a + front) + last && FromBytes(b) == 256 * FromBytes(front) + last;
      hide FromBytes, Pow;
    }
  }

  lemma {:induction false} FromBytesBound(bs: Bytes)
    ensures FromBytes(bs) < Pow(|bs|)
  {
    if bs == [] {
    } else {
      FromBytesBound(bs[..|bs| - 1]);
    }
  }

  lemma Remainder(q: int, p: int, r: int)
    requires 0 <= r < p
    ensures (q * p + r) % p == r
  {
    var x := q * p + r;
    var d := q - x / p;
    assert p * d == x % p - r;
    assert d >= 1 ==> p * d >= p;
    assert d <= -1 ==> p * d <= -p;
  }

  /** Replacing the tail of a numeral by another of the same length. */
  lemma TailReplaced(w: Bytes, t: Bytes)
    requires |t| <= |w|
    ensures FromBytes(w[..|w| - |t|] + t) == FromBytes(w) - FromBytes(w) % Pow(|t|) + FromBytes(t)
  {
    hide FromBytes, Pow;
    var head, tail := w[..|w| - |t|], w[|w| - |t|..];
    assert w == head + tail;
    FromBytesAppend(head, t);
    FromBytesAppend(head, tail);
    FromBytesBound(tail);
    Remainder(FromBytes(head), Pow(|t|), FromBytes(tail));
  }

  /** R and S as one numeral of 64 bytes. */
  function Scalars(r: nat, s: nat): nat {
    r * TWO_256 + s
  }

  /** The bytes of V beyond its last, which run over the tail of S, and from 33 of them on over that of R. */
  function Overrun(v: nat): nat {
    if |ToBytes(v)| == 0 then 0 else |ToBytes(v)| - 1
  }

  lemma ToBytesTail(v: nat)
    requires v != 0
    ensures ToBytes(v) == ToBytes(v / 256) + [v % 256] && |ToBytes(v / 256)| == Overrun(v)
  {
  }

  lemma WriteTail(w: Bytes, t: Bytes, last: Byte)
    requires |w| == 64 && |t| <= 64
    ensures Write(w + Zeros(1), 64 - |t|, t + [last]) == (w[..64 - |t|] + t) + [last]
  {
  }

  lemma WriteOverrun(w: Bytes, v: nat)
    requires |w| == 64 && |ToBytes(v)| <= 65
    ensures |ToBytes(v / 256)| == Overrun(v)
    ensures Write(w + Zeros(1), 65 - |ToBytes(v)|, ToBytes(v)) == (w[..64 - Overrun(v)] + ToBytes(v / 256)) + [v % 256]
  {
    if v == 0 {
      assert Write(w + Zeros(1), 65, []) == w + Zeros(1);
      assert w[..64] + [] == w && Zeros(1) == [0];
    } else {
      hide Write, Zeros;
      ToBytesTail(v);
      WriteTail(w, ToBytes(v / 256), v % 256);
    }
  }

  /** R and S as one numeral after SerializeSig. */
  function WrittenScalars(r: nat, s: nat, v: nat): int {
    var x := Scalars(r, Fold(s));
    x - x % Pow(Overrun(v)) + v / 256
  }

  /**
   * What the 65 bytes read as, for every V that the buffer holds: R and the smaller of S and N - S, with as many of
   * their last bytes as V has beyond its own last replaced by those, and then the last byte of V.
   */
  lemma SerializedReads(r: nat, s: nat, v: nat)
    requires r < TWO_256 && 0 < s < N && |ToBytes(v)| <= 65
    ensures |ToBytes(r)| <= 32 && |ToBytes(Fold(s))| <= 64
    ensures var sig := Serialized(r, s, v, true);
            FromBytes(sig[..64]) == WrittenScalars(r, s, v) && sig[64] == v % 256
  {
    FoldIsLow(s);
    LayoutFields(r, Fold(s), 65);
    PowerOf256();
    hide ToBytes, FromBytes, Layout, Fold, Word, Write, Zeros, Pow;
    var w := Word(r) + Word(Fold(s));
    WriteOverrun(w, v);
    var t := ToBytes(v / 256);
    TailReplaced(w, t);
    FromTo(v / 256);
    FromBytesAppend(Word(r), Word(Fold(s)));
    assert FromBytes(w) == Scalars(r, Fold(s));
    var sig := Serialized(r, s, v, true);
    assert sig == (w[..64 - |t|] + t) + [v % 256];
    assert sig[..64] == w[..64 - |t|] + t;
  }

  lemma ScalarsInjective(r: nat, s: nat, r': nat, s': nat)
    requires s < TWO_256 && s' < TWO_256
    ensures Scalars(r, s) == Scalars(r', s') <==> r == r' && s == s'
  {
  }

  lemma ParseScalars(sig: Bytes)
    requires |sig| == 65
    ensures FromBytes(sig[..64]) == Scalars(Parse(sig).0, Parse(sig).1) && Parse(sig).1 < TWO_256
  {
    hide FromBytes;
    assert sig[..64] == sig[..32] + sig[32..64];
    FromBytesAppend(sig[..32], sig[32..64]);
    FromBytesBound(sig[32..64]);
    PowerOf256();
  }

  /**
   * Reading back what SerializeSig wrote gives R and the smaller of S and N - S exactly if the bytes of V beyond its
   * last agree with the last bytes of these; always so for a V of one byte. The V read is the last byte of V.
   */
  lemma SerializeRoundTrip(r: nat, s: nat, v: nat)
    requires r < TWO_256 && 0 < s < N && |ToBytes(v)| <= 65
    ensures |ToBytes(r)| <= 32 && |ToBytes(Fold(s))| <= 64
    ensures var (r', s', v') := Parse(Serialized(r, s, v, true));
            var low := if s <= N - s then s else N - s;
            && v' == v % 256
            && (r' == r && s' == low <==> v / 256 == Scalars(r, low) % Pow(Overrun(v)))
            && (v < 256 ==> r' == r && s' == low && v' == v)
  {
    FoldIsLow(s);
    SerializedReads(r, s, v);
    var sig := Serialized(r, s, v, true);
    ParseScalars(sig);
    ScalarsInjective(r, Fold(s), Parse(sig).0, Parse(sig).1);
    VBytesFew(v);
  }

  lemma VBytesFew(v: nat)
    ensures v < 256 ==> Overrun(v) == 0 && Pow(Overrun(v)) == 1 && v / 256 == 0
  {
    if v < 256 {
      VBytes(v);
    }
  }

  /** A V of two bytes replaces the last byte of S by its first. */
  lemma TwoByteVBreaksS(r: nat, v: nat)
    requires r < TWO_256 && 512 <= v < 65536
    ensures |ToBytes(r)| <= 32 && |ToBytes(Fold(1))| <= 64 && |ToBytes(v)| <= 65
    ensures Parse(Serialized(r, 1, v, true)).1 == v / 256 != 1
  {
    TwoBytes(v);
    SerializedReads(r, 1, v);
    var sig := Serialized(r, 1, v, true);
    ParseScalars(sig);
    LastByteOf(r);
    ScalarsInjective(r, v / 256, Parse(sig).0, Parse(sig).1);
  }

  lemma TwoBytes(v: nat)
    requires 256 <= v < 65536
    ensures |ToBytes(v)| == 2 && Pow(Overrun(v)) == 256
  {
    assert ToBytes(v / 256) == [v / 256] by {
      VBytes(v / 256);
    }
    assert Pow(1) == 256 * Pow(0);
  }

  lemma LastByteOf(r: nat)
    ensures Scalars(r, 1) % 256 == 1 && Fold(1) == 1
  {
    assert TWO_256 == 256 * (TWO_256 / 256);
    Remainder(r * (TWO_256 / 256), 256, 1);
  }

  /** The 64-byte form used on the Cosmos side is the 65-byte form without its last byte. */
  lemma ShortFormIsPrefix(r: nat, s: nat, v: nat)
    requires r < TWO_256 && s < N && v < 256
    ensures |ToBytes(r)| <= 32 && |ToBytes(Fold(s))| <= 64 && |ToBytes(v)| <= 65
    ensures Serialized(r, s, v, false) == Serialized(r, s, v, true)[..64]
    ensures Serialized(r, s, v, true)[64] == v
  {
    SerializedFields(r, s, v);
  }

  lemma LowByte(v: nat)
    ensures v % TWO_64 % 256 == v % 256
  {
    var q, r := v / TWO_64, v % TWO_64;
    assert v == 256 * (0x100_0000_0000_0000 * q) + r;
  }

  lemma MadeFields(r: nat, s: nat, v: nat)
    requires r < TWO_256 && s < TWO_256
    ensures |ToBytes(r)| <= 32 && |ToBytes(s)| <= 32
    ensures Made(r, s, v) == Word(r) + Word(s) + [v % 256]
    ensures Parse(Made(r, s, v)) == (r, s, v % 256)
  {
    hide Layout, Word, Parse, ToBytes, FromBytes;
    LayoutFields(r, s, 65);
    ParseWords(Word(r), Word(s), v % TWO_64 % 256);
    LowByte(v);
  }

  /** The two writers agree exactly on low S; on high S only SerializeSig folds, and neither flips V. */
  lemma WritersAgreeIffLowS(r: nat, s: nat, v: nat)
    requires r < TWO_256 && 0 < s < N && v < 256
    ensures |ToBytes(r)| <= 32 && |ToBytes(s)| <= 64 && |ToBytes(Fold(s))| <= 64 && |ToBytes(v)| <= 65
    ensures Serialized(r, s, v, true) == Made(r, s, v) <==> s <= HALF_ORDER
  {
    SerializedFields(r, s, v);
    ParseWords(Word(r), Word(Fold(s)), v);
    MadeFields(r, s, v);
  }

  lemma MakeSignatureInjective(r: nat, s: nat, v: nat, r': nat, s': nat, v': nat)
    requires r < TWO_256 && s < TWO_256 && r' < TWO_256 && s' < TWO_256
    ensures |ToBytes(r)| <= 32 && |ToBytes(s)| <= 64 && |ToBytes(r')| <= 32 && |ToBytes(s')| <= 64
    ensures Made(r, s, v) == Made(r', s', v') <==> r == r' && s == s' && v % 256 == v' % 256
  {
    MadeFields(r, s, v);
    MadeFields(r', s', v');
  }

  predicate IsProtectedV(v: nat) {
    if v < 256 then v != 27 && v != 28 && v != 1 && v != 0 else true
  }

  /** Subtraction and doubling wrap as uint64 does. */
  function RecoverRecID(chainID: nat, v: nat): nat {
    var low := v % TWO_64;
    if low == 0 || low == 1 then v
    else if IsProtectedV(v) then (low - 35 - 2 * chainID % TWO_64) % TWO_64
    else (low - 27) % TWO_64
  }

  /**
   * EIP-155 inverted. For a chain id whose two protected values fit uint64, the result is a recovery id exactly for the
   * bare, the Homestead and the protected values, and then it is the id they encode.
   */
  lemma RecoverIffValid(chainID: nat, v: nat, id: nat)
    requires 36 + 2 * chainID < TWO_64 && v < TWO_64 && id < 2
    ensures RecoverRecID(chainID, v) == id <==> v == id || v == 27 + id || v == 35 + 2 * chainID + id
  {
    if IsProtectedV(v) {
      var d := v - 35 - 2 * chainID;
      assert d % TWO_64 == if d < 0 then d + TWO_64 else d;
    }
  }

  /**
   * For every chain id and value: a value that reads as 0 or 1 comes back as it is, 27 and 28 give 0 and 1, and of any
   * other the result is the one uint64 that encodes it modulo 2^64.
   */
  lemma RecoverIsInverse(chainID: nat, v: nat)
    ensures v % TWO_64 <= 1 ==> RecoverRecID(chainID, v) == v
    ensures v in {27, 28} ==> RecoverRecID(chainID, v) == v - 27
    ensures v % TWO_64 > 1 && v !in {27, 28} ==>
              && RecoverRecID(chainID, v) < TWO_64
              && (35 + 2 * chainID + RecoverRecID(chainID, v) - v) % TWO_64 == 0
  {
    if v % TWO_64 > 1 && v !in {27, 28} {
      var low, double := v % TWO_64, 2 * chainID % TWO_64;
      var d := low - 35 - double;
      assert v == v / TWO_64 * TWO_64 + low && 2 * chainID == 2 * chainID / TWO_64 * TWO_64 + double;
      assert d == d / TWO_64 * TWO_64 + d % TWO_64;
      var q := 2 * chainID / TWO_64 - v / TWO_64 - d / TWO_64;
      assert 35 + 2 * chainID + d % TWO_64 - v == q * TWO_64;
    }
  }

  /** Beyond that range a protected value is inverted exactly when its low 64 bits are not read as a bare id. */
  lemma RecoverProtectedIff(chainID: nat, id: nat)
    requires chainID < TWO_64 && id < 2
    ensures RecoverRecID(chainID, 35 + 2 * chainID + id) == id <==> (35 + 2 * chainID + id) % TWO_64 !in {0, 1}
  {
    var v := 35 + 2 * chainID + id;
    var low := v % TWO_64;
    var q, q2 := v / TWO_64, 2 * chainID / TWO_64;
    assert low == v - q * TWO_64 && 2 * chainID % TWO_64 == 2 * chainID - q2 * TWO_64;
    assert low - 35 - 2 * chainID % TWO_64 == id + (q2 - q) * TWO_64;
    assert (id + (q2 - q) * TWO_64) % TWO_64 == id;
  }

  /** The last byte of the rebuilt signature is the recovery id for every way of encoding it. */
  lemma RecoveredSignatureEndsInId(chainID: nat, r: nat, s: nat, v: nat, id: nat)
    requires 36 + 2 * chainID < TWO_64 && r < TWO_256 && s < TWO_256 && id < 2
    requires v == id || v == 27 + id || v == 35 + 2 * chainID + id
    ensures |ToBytes(r)| <= 32 && |ToBytes(s)| <= 64
    ensures Parse(Made(r, s, RecoverRecID(chainID, v))) == (r, s, id)
  {
    RecoverIffValid(chainID, v, id);
    MadeFields(r, s, id);
  }
}
