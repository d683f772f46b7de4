/** Feed slugs (live/worker/feeds.ts): base32 of random bytes through an accumulator that is a 32-bit
    signed integer, as the shift operators of the language make it. */
module Slugs {
  import opened Common

  const ALPHABET := "abcdefghijklmnopqrstuvwxyz234567"

  // ---- bit strings ----

  type Bits = seq<bool>

  function Pow2(n: nat): (p: nat)
    ensures p > 0
  {
    if n == 0 then 1 else 2 * Pow2(n - 1)
  }

  /** The number a bit string denotes, most significant bit first. */
  function Num(s: Bits): nat {
    if s == [] then 0 else 2 * Num(s[..|s| - 1]) + (if s[|s| - 1] then 1 else 0)
  }

  /** The low `n` bits of `v`, most significant bit first. */
  function BitsOf(v: nat, n: nat): (s: Bits)
    ensures |s| == n
  {
    if n == 0 then [] else BitsOf(v / 2, n - 1) + [v % 2 == 1]
  }

  function Zeros(n: nat): Bits { seq(n, _ => false) }

  function BitString(bytes: seq<Byte>): (s: Bits)
    ensures |s| == 8 * |bytes|
  {
    if bytes == [] then [] else BitString(bytes[..|bytes| - 1]) + BitsOf(bytes[|bytes| - 1], 8)
  }

  /** Section 6 of RFC 4648: five bits at a time, the last group filled up with zeros. */
  function Groups(s: Bits): (g: seq<nat>)
    ensures |g| == (|s| + 4) / 5
    decreases |s|
  {
    if s == [] then []
    else if |s| < 5 then [Num(s + Zeros(5 - |s|))]
    else [Num(s[..5])] + Groups(s[5..])
  }

  function Ungrouped(g: seq<nat>): (s: Bits)
    ensures |s| == 5 * |g|
  {
    if g == [] then [] else BitsOf(g[0], 5) + Ungrouped(g[1..])
  }

  lemma {:induction false} BitsOfNum(s: Bits)
    ensures BitsOf(Num(s), |s|) == s
  {
    if s != [] { BitsOfNum(s[..|s| - 1]); }
  }

  lemma {:induction false} NumSplit(a: Bits, b: Bits)
    ensures Num(a + b) == Num(a) * Pow2(|b|) + Num(b) && Num(b) < Pow2(|b|)
  {
    if b == [] {
      assert a + b == a;
    } else {
      var rest := b[..|b| - 1];
      NumSplit(a, rest);
      assert (a + b)[..|a + b| - 1] == a + rest;
      assert Num(a + b) == 2 * (Num(a) * Pow2(|rest|) + Num(rest)) + (if b[|b| - 1] then 1 else 0);
      assert Num(a) * Pow2(|b|) == 2 * (Num(a) * Pow2(|rest|));
    }
  }

  /** Decoding the groups and dropping the padding gives the bit string back. */
  lemma {:induction false} UngroupedGroups(s: Bits)
    ensures Ungrouped(Groups(s))[..|s|] == s
    decreases |s|
  {
    if s == [] {
    } else if |s| < 5 {
      BitsOfNum(s + Zeros(5 - |s|));
      assert Groups(s)[1..] == [];
    } else {
      BitsOfNum(s[..5]);
      UngroupedGroups(s[5..]);
      assert Groups(s)[1..] == Groups(s[5..]);
      assert s == s[..5] + s[5..];
    }
  }

  lemma {:induction false} GroupsJoin(a: Bits, b: Bits)
    requires |a| % 5 == 0
    ensures Groups(a + b) == Groups(a) + Groups(b)
    decreases |a|
  {
    if a == [] {
      assert a + b == b;
    } else {
      assert (a + b)[..5] == a[..5] && (a + b)[5..] == a[5..] + b;
      GroupsJoin(a[5..], b);
    }
  }

  // ---- 32-bit integers ----

  const WORD := 0x1_0000_0000

  predicate IsInt32(v: int) { -0x8000_0000 <= v < 0x8000_0000 }

  function ToInt32(v: int): (r: int)
    ensures IsInt32(r) && r % WORD == v % WORD
  {
    if v % WORD < 0x8000_0000 then v % WORD else v % WORD - WORD
  }

  function ShiftLeft(v: int, n: nat): int { ToInt32(v * Pow2(n)) }

  /** The arithmetic shift rounds down. */
  function ShiftRight(v: int, n: nat): int { v / Pow2(n) }

  /** `v & 31` of a two's complement number. */
  function Low5(v: int): (r: nat)
    ensures r < 32
  {
    v % 32
  }

  lemma {:induction false} PowAdds(a: nat, b: nat)
    ensures Pow2(a + b) == Pow2(a) * Pow2(b)
  {
    if a > 0 { PowAdds(a - 1, b); }
  }

  lemma Powers()
    ensures Pow2(5) == 32 && Pow2(8) == 256 && Pow2(32) == WORD
  {
    PowAdds(4, 4);
    PowAdds(8, 8);
    PowAdds(16, 16);
  }

  lemma Distribute(a: int, b: int, d: int)
    ensures (a + b) * d == a * d + b * d
  {
  }

  lemma Associate(a: int, b: int, c: int)
    ensures a * (b * c) == a * b * c
  {
  }

  lemma SmallMultiple(e: int, d: int)
    requires -d < e * d < d
    ensures e == 0
  {
  }

  lemma Quotient(q: int, d: int, r: int)
    requires 0 <= r < d
    ensures (q * d + r) / d == q && (q * d + r) % d == r
  {
    var x := q * d + r;
    var k, rest := x / d, x % d;
    assert x == k * d + rest;
    Distribute(k, -q, d);
    assert (k - q) * d == r - rest;
    SmallMultiple(k - q, d);
  }

  ghost predicate Congruent(value: int, s: Bits) { value % WORD == Num(s) % WORD }

  /** A word congruent to the number of a bit string has that string's low bits, whatever else was shifted out. */
  lemma WordTail(value: int, s: Bits, n: nat)
    requires Congruent(value, s) && n <= |s| && n <= 32
    ensures exists q: int :: value == q * Pow2(n) + Num(s[|s| - n..])
  {
    hide Num, Pow2;
    var a, t := s[..|s| - n], s[|s| - n..];
    assert s == a + t;
    NumSplit(a, t);
    PowAdds(32 - n, n);
    Powers();
    var m := value / WORD - Num(s) / WORD;
    assert value == Num(s) + m * WORD;
    Associate(m, Pow2(32 - n), Pow2(n));
    Distribute(Num(a), m * Pow2(32 - n), Pow2(n));
    var q := Num(a) + m * Pow2(32 - n);
    assert value == q * Pow2(n) + Num(t);
  }

  lemma GroupValue(value: int, q: int, n: nat, g: nat, r: nat)
    requires value == q * Pow2(n + 5) + (g * Pow2(n) + r) && g < 32 && r < Pow2(n)
    ensures Low5(ShiftRight(value, n)) == g
  {
    hide Pow2;
    PowAdds(5, n);
    Powers();
    Associate(q, 32, Pow2(n));
    Distribute(q * 32, g, Pow2(n));
    Quotient(q * 32 + g, Pow2(n), r);
    Quotient(q, 32, g);
  }

  lemma NumBound(s: Bits)
    ensures Num(s) < Pow2(|s|)
  {
  }

  lemma GroupFromWord(value: int, s: Bits, n: nat)
    requires Congruent(value, s) && n + 5 <= |s| && n <= 27
    ensures Low5(ShiftRight(value, n)) == Num(s[|s| - n - 5..|s| - n])
  {
    hide Num, Pow2, Low5, ShiftRight;
    WordTail(value, s, n + 5);
    var t := s[|s| - (n + 5)..];
    var q: int :| value == q * Pow2(n + 5) + Num(t);
    var g, r := s[|s| - n - 5..|s| - n], s[|s| - n..];
    assert t == g + r;
    NumSplit(g, r);
    NumBound(g);
    Powers();
    GroupValue(value, q, n, Num(g), Num(r));
  }

  lemma {:induction false} NumOfZeros(n: nat)
    ensures Num(Zeros(n)) == 0
  {
    if n > 0 {
      NumOfZeros(n - 1);
      assert Zeros(n)[..n - 1] == Zeros(n - 1);
    }
  }

  lemma LastGroupValue(value: int, q: int, n: nat, t: nat)
    requires value == q * Pow2(n) + t && n <= 5 && t * Pow2(5 - n) < 32
    ensures Low5(ShiftLeft(value, 5 - n)) == t * Pow2(5 - n)
  {
    hide Pow2;
    var p := Pow2(5 - n);
    PowAdds(n, 5 - n);
    Powers();
    Distribute(q * Pow2(n), t, p);
    Associate(q, Pow2(n), p);
    Quotient(q, 32, t * p);
    WordKeepsLow5(value * p);
  }

  lemma LastGroupNum(t: Bits)
    requires 0 < |t| < 5
    ensures Num(t + Zeros(5 - |t|)) == Num(t) * Pow2(5 - |t|) < 32
  {
    hide Num, Pow2;
    NumSplit(t, Zeros(5 - |t|));
    NumOfZeros(5 - |t|);
    NumBound(t + Zeros(5 - |t|));
    Powers();
  }

  lemma LastGroupFromWord(value: int, s: Bits, n: nat)
    requires Congruent(value, s) && 0 < n < 5 && n <= |s|
    ensures Low5(ShiftLeft(value, 5 - n)) == Num(s[|s| - n..] + Zeros(5 - n))
  {
    hide *;
    WordTail(value, s, n);
    var t := s[|s| - n..];
    var q: int :| value == q * Pow2(n) + Num(t);
    LastGroupNum(t);
    LastGroupValue(value, q, n, Num(t));
  }

  lemma WordKeepsLow5(v: int)
    ensures ToInt32(v) % 32 == v % 32
  {
    var w := ToInt32(v);
    var m := v / WORD - w / WORD;
    assert v == w + 32 * (m * 0x800_0000);
    Quotient(w / 32 + m * 0x800_0000, 32, w % 32);
  }

  lemma NextByte(value: int, s: Bits, byte: Byte)
    requires Congruent(value, s)
    ensures Congruent(ShiftLeft(value, 8) + byte, s + BitsOf(byte, 8))
  {
    hide Num, Pow2, BitsOf;
    NumSplit(s, BitsOf(byte, 8));
    ByteBits(byte);
    Powers();
    var m := value / WORD - Num(s) / WORD;
    assert value == Num(s) + m * WORD;
    var k := ShiftLeft(value, 8) / WORD - value * 256 / WORD;
    assert ShiftLeft(value, 8) == value * 256 + k * WORD;
    assert ShiftLeft(value, 8) + byte == Num(s + BitsOf(byte, 8)) + (256 * m + k) * WORD;
    SameResidue(Num(s + BitsOf(byte, 8)), 256 * m + k);
  }

  lemma SameResidue(v: int, k: int)
    ensures (v + k * WORD) % WORD == v % WORD
  {
  }

  lemma ByteBits(byte: Byte)
    ensures Num(BitsOf(byte, 8)) == byte
  {
    NumOfBits(byte, 8);
    Powers();
  }

  lemma {:induction false} NumOfBits(v: nat, n: nat)
    requires v < Pow2(n)
    ensures Num(BitsOf(v, n)) == v
  {
    if n > 0 { NumOfBits(v / 2, n - 1); }
  }

  // ---- the loop ----

  function Letter(v: int): char { ALPHABET[Low5(v)] }

  function Text(g: seq<nat>): (t: string)
    requires forall i :: 0 <= i < |g| ==> g[i] < 32
    ensures |t| == |g|
  {
    seq(|g|, i requires 0 <= i < |g| => ALPHABET[g[i]])
  }

  lemma {:induction false} GroupsAreSmall(s: Bits)
    ensures forall i :: 0 <= i < |Groups(s)| ==> Groups(s)[i] < 32
    decreases |s|
  {
    Powers();
    if s == [] {
    } else if |s| < 5 {
      NumSplit([], s + Zeros(5 - |s|));
    } else {
      NumSplit([], s[..5]);
      GroupsAreSmall(s[5..]);
    }
  }

  function Encoded(bytes: seq<Byte>): string {
    GroupsAreSmall(BitString(bytes));
    Text(Groups(BitString(bytes)))
  }

  ghost predicate Written(slug: string, s: Bits) {
    (forall i :: 0 <= i < |Groups(s)| ==> Groups(s)[i] < 32) && slug == Text(Groups(s))
  }

  lemma OneGroup(group: Bits)
    requires 0 < |group| <= 5
    ensures Groups(group) == [Num(group + Zeros(5 - |group|))]
  {
    if |group| == 5 {
      assert group[..5] == group && group[5..] == [] && group + Zeros(0) == group;
    }
  }

  lemma TextAppends(g: seq<nat>, last: nat)
    requires last < 32 && forall i :: 0 <= i < |g| ==> g[i] < 32
    ensures Text(g + [last]) == Text(g) + [ALPHABET[last]]
  {
  }

  lemma WriteGroup(slug: string, s: Bits, group: Bits, g: nat)
    requires Written(slug, s) && |s| == 5 * |slug| && 0 < |group| <= 5
    requires g == Num(group + Zeros(5 - |group|))
    ensures g < 32 && Written(slug + [ALPHABET[g]], s + group)
  {
    hide Num, Pow2, Groups, Text;
    NumBound(group + Zeros(5 - |group|));
    Powers();
    OneGroup(group);
    GroupsJoin(s, group);
    TextAppends(Groups(s), g);
  }

  lemma EmitGroup(slug: string, value: int, s: Bits, bits: nat)
    requires Congruent(value, s) && bits + 5 <= |s| && bits <= 27 && |s| - bits - 5 == 5 * |slug|
    requires Written(slug, s[..|s| - bits - 5])
    ensures Written(slug + [Letter(ShiftRight(value, bits))], s[..|s| - bits])
  {
    hide Groups, Num, Pow2, Low5, ShiftRight, Written, Congruent;
    GroupFromWord(value, s, bits);
    var group := s[|s| - bits - 5..|s| - bits];
    assert group + Zeros(0) == group;
    WriteGroup(slug, s[..|s| - bits - 5], group, Low5(ShiftRight(value, bits)));
    assert s[..|s| - bits - 5] + group == s[..|s| - bits];
  }

  lemma EmitLastGroup(slug: string, value: int, s: Bits, bits: nat)
    requires Congruent(value, s) && 0 < bits < 5 && bits <= |s| && |s| - bits == 5 * |slug|
    requires Written(slug, s[..|s| - bits])
    ensures Written(slug + [Letter(ShiftLeft(value, 5 - bits))], s)
  {
    hide Groups, Num, Pow2, Low5, ShiftLeft, Written, Congruent;
    LastGroupFromWord(value, s, bits);
    WriteGroup(slug, s[..|s| - bits], s[|s| - bits..], Low5(ShiftLeft(value, 5 - bits)));
    assert s[..|s| - bits] + s[|s| - bits..] == s;
  }

  lemma OneMoreByte(bytes: seq<Byte>, k: nat)
    requires k < |bytes|
    ensures BitString(bytes[..k + 1]) == BitString(bytes[..k]) + BitsOf(bytes[k], 8)
  {
    assert bytes[..k + 1][..k] == bytes[..k];
  }

  method Encode(bytes: seq<Byte>) returns (slug: string)
    ensures slug == Encoded(bytes)
  {
    hide *;
    var bits, value := 0, 0;
    slug := "";
    NothingWritten();
    ghost var s: Bits := BitString([]);
    for k := 0 to |bytes|
      invariant 0 <= bits < 5 && bits <= |s| && s == BitString(bytes[..k])
      invariant Congruent(value, s)
      invariant |s| - bits == 5 * |slug| && Written(slug, s[..|s| - bits])
    {
      NextByte(value, s, bytes[k]);
      OneMoreByte(bytes, k);
      ghost var longer := BitString(bytes[..k + 1]);
      assert longer[..|longer| - bits - 8] == s[..|s| - bits];
      s := longer;
      value := ShiftLeft(value, 8) + bytes[k];
      bits := bits + 8;
      while bits >= 5
        invariant 0 <= bits < 13 && bits <= |s|
        invariant |s| - bits == 5 * |slug| && Written(slug, s[..|s| - bits])
      {
        bits := bits - 5;
        EmitGroup(slug, value, s, bits);
        slug := slug + [Letter(ShiftRight(value, bits))];
      }
    }
    assert bytes[..|bytes|] == bytes;
    if bits > 0 {
      EmitLastGroup(slug, value, s, bits);
      slug := slug + [Letter(ShiftLeft(value, 5 - bits))];
    } else {
      assert s[..|s|] == s;
    }
    WrittenIsEncoded(slug, bytes);
  }

  lemma NothingWritten()
    ensures BitString([]) == [] && Congruent(0, []) && Written("", [])
  {
  }

  lemma WrittenIsEncoded(slug: string, bytes: seq<Byte>)
    requires Written(slug, BitString(bytes))
    ensures slug == Encoded(bytes)
  {
  }

  /** The shifted word has eight zero bits for the byte, so or-ing it in is adding it. */
  lemma ShiftedFits(value: int, byte: Byte)
    ensures ShiftLeft(value, 8) % 256 == 0 && IsInt32(ShiftLeft(value, 8) + byte)
  {
    Powers();
    var x := ShiftLeft(value, 8);
    var m := x / WORD - value * 256 / WORD;
    assert x == 256 * (value + m * 0x100_0000);
  }

  // ---- what a slug says ----

  lemma {:induction false} SameBitsSameBytes(a: seq<Byte>, b: seq<Byte>)
    requires |a| == |b| && BitString(a) == BitString(b)
    ensures a == b
  {
    if a != [] {
      var n := |a| - 1;
      assert BitString(a)[..8 * n] == BitString(a[..n]) && BitString(b)[..8 * n] == BitString(b[..n]);
      assert BitString(a)[8 * n..] == BitsOf(a[n], 8) && BitString(b)[8 * n..] == BitsOf(b[n], 8);
      SameBitsSameBytes(a[..n], b[..n]);
      ByteBits(a[n]);
      ByteBits(b[n]);
    }
  }

  function LetterValue(c: char): int { if 'a' <= c <= 'z' then c as int - 'a' as int else c as int - '2' as int + 26 }

  lemma LetterValueOf(i: nat)
    requires i < 32
    ensures LetterValue(ALPHABET[i]) == i
  {
  }

  lemma SameTextSameGroups(a: seq<nat>, b: seq<nat>)
    requires forall i :: 0 <= i < |a| ==> a[i] < 32
    requires forall i :: 0 <= i < |b| ==> b[i] < 32
    requires Text(a) == Text(b)
    ensures a == b
  {
    assert |Text(a)| == |Text(b)|;
    forall i | 0 <= i < |a| ensures a[i] == b[i] {
      assert Text(a)[i] == ALPHABET[a[i]] && Text(b)[i] == ALPHABET[b[i]];
      LetterValueOf(a[i]);
      LetterValueOf(b[i]);
    }
  }

  /** Different random bytes never give the same link. */
  lemma EncodedInjective(a: seq<Byte>, b: seq<Byte>)
    requires |a| == |b| && Encoded(a) == Encoded(b)
    ensures a == b
  {
    hide BitString, Groups, Ungrouped, Text;
    GroupsAreSmall(BitString(a));
    GroupsAreSmall(BitString(b));
    SameTextSameGroups(Groups(BitString(a)), Groups(BitString(b)));
    UngroupedGroups(BitString(a));
    UngroupedGroups(BitString(b));
    SameBitsSameBytes(a, b);
  }

  lemma SlugLength(bytes: seq<Byte>)
    ensures |Encoded(bytes)| == (8 * |bytes| + 4) / 5
    ensures |bytes| == 8 ==> |Encoded(bytes)| == 13
  {
  }
}
