// jenkins_hash, little endian: one function, computed by three loops for three alignments of the key.
module Jenkins {

  const WORD32: nat := 0x1_0000_0000

  type Byte = x: nat | x < 256 witness 0
  type Word = x: nat | x < WORD32 witness 0

  datatype State = State(a: Word, b: Word, c: Word)

  // ---- machine words ----

  // +=, -= and ^= on 32 bits
  function Plus(x: Word, y: Word): Word { if x + y < WORD32 then x + y else x + y - WORD32 }

  function Minus(x: Word, y: Word): Word { if x >= y then x - y else x + WORD32 - y }

  function Pow2(n: nat): (r: nat)
    ensures r >= 1
  {
    if n == 0 then 1 else 2 * Pow2(n - 1)
  }

  lemma Pow32()
    ensures Pow2(32) == WORD32
  {
    assert Pow2(4) == 16;
    assert Pow2(8) == 256;
    assert Pow2(12) == 0x1000;
    assert Pow2(16) == 0x1_0000;
    assert Pow2(20) == 0x10_0000;
    assert Pow2(24) == 0x100_0000;
    assert Pow2(28) == 0x1000_0000;
  }

  function XorBits(x: nat, y: nat, n: nat): (r: nat)
    ensures r < Pow2(n)
  {
    if n == 0 then 0 else (x % 2 + y % 2) % 2 + 2 * XorBits(x / 2, y / 2, n - 1)
  }

  function Xor(x: Word, y: Word): Word {
    Pow32();
    XorBits(x, y, 32)
  }

  lemma BitTwice(x: nat, y: nat, high: nat)
    ensures var low := (x % 2 + y % 2) % 2;
      (low + 2 * high) % 2 == low && (low + 2 * high) / 2 == high && (low + y % 2) % 2 == x % 2
  {
  }

  lemma {:induction false} XorBitsTwice(x: nat, y: nat, n: nat)
    requires x < Pow2(n)
    ensures XorBits(XorBits(x, y, n), y, n) == x
  {
    if n > 0 {
      var high := XorBits(x / 2, y / 2, n - 1);
      var r := XorBits(x, y, n);
      BitTwice(x, y, high);
      XorBitsTwice(x / 2, y / 2, n - 1);
      assert r % 2 == (x % 2 + y % 2) % 2 && r / 2 == high;
      assert XorBits(r, y, n) == (r % 2 + y % 2) % 2 + 2 * XorBits(r / 2, y / 2, n - 1);
    }
  }

  lemma XorTwice(x: Word, y: Word)
    ensures Xor(Xor(x, y), y) == x
  {
    Pow32();
    XorBitsTwice(x, y, 32);
  }

  // rot(x, k), as (x << k) ^ (x >> (32 - k))
  function Rot(x: Word, k: nat): Word
    requires 0 < k < 32
  {
    Xor((x * Pow2(k)) % WORD32, (x / Pow2(32 - k)) % WORD32)
  }

  // ---- mixing ----

  // One line of mix: x -= z; x ^= rot(z, k); z += y
  function Turn(x: Word, z: Word, y: Word, k: nat): (Word, Word)
    requires 0 < k < 32
  {
    (Xor(Minus(x, z), Rot(z, k)), Plus(z, y))
  }

  function Unturn(x: Word, z: Word, y: Word, k: nat): (Word, Word)
    requires 0 < k < 32
  {
    var z0 := Minus(z, y);
    (Plus(Xor(x, Rot(z0, k)), z0), z0)
  }

  function Mix(s: State): State {
    var (a1, c1) := Turn(s.a, s.c, s.b, 4);
    var (b2, a2) := Turn(s.b, a1, c1, 6);
    var (c3, b3) := Turn(c1, b2, a2, 8);
    var (a4, c4) := Turn(a2, c3, b3, 16);
    var (b5, a5) := Turn(b3, a4, c4, 19);
    var (c6, b6) := Turn(c4, b5, a5, 4);
    State(a5, b6, c6)
  }

  function Unmix(s: State): State {
    var (c4, b5) := Unturn(s.c, s.b, s.a, 4);
    var (b3, a4) := Unturn(b5, s.a, c4, 19);
    var (a2, c3) := Unturn(a4, c4, b3, 16);
    var (c1, b2) := Unturn(c3, b3, a2, 8);
    var (b, a1) := Unturn(b2, a2, c1, 6);
    var (a, c) := Unturn(a1, c1, b, 4);
    State(a, b, c)
  }

  // One line of final: x ^= y; x -= rot(y, k)
  function Fold(x: Word, y: Word, k: nat): Word
    requires 0 < k < 32
  {
    Minus(Xor(x, y), Rot(y, k))
  }

  // final, of which the callers take c
  function Final(s: State): State {
    var c1 := Fold(s.c, s.b, 14);
    var a1 := Fold(s.a, c1, 11);
    var b1 := Fold(s.b, a1, 25);
    var c2 := Fold(c1, b1, 16);
    var a2 := Fold(a1, c2, 4);
    var b2 := Fold(b1, a2, 14);
    State(a2, b2, Fold(c2, b2, 24))
  }

  function Unfold(x: Word, y: Word, k: nat): Word
    requires 0 < k < 32
  {
    Xor(Plus(x, Rot(y, k)), y)
  }

  function Unfinal(s: State): State {
    var c2 := Unfold(s.c, s.b, 24);
    var b1 := Unfold(s.b, s.a, 14);
    var a1 := Unfold(s.a, c2, 4);
    var c1 := Unfold(c2, b1, 16);
    var b := Unfold(b1, a1, 25);
    var a := Unfold(a1, c1, 11);
    State(a, b, Unfold(c1, b, 14))
  }

  // ---- the function ----

  // Bytes at their places in a word.
  function Wide(x: Byte): Word { x }

  function At8(x: Byte): Word { x * 0x100 }

  function At16(x: Byte): Word { x * 0x1_0000 }

  function At24(x: Byte): Word { x * 0x100_0000 }

  // Four bytes as a little endian word.
  function Load(b0: Byte, b1: Byte, b2: Byte, b3: Byte): Word { Wide(b0) + At8(b1) + At16(b2) + At24(b3) }

  // w & 0xff, w & 0xffff, w & 0xffffff for n == 1, 2, 3
  function Cut(w: Word, n: nat): Word { if n == 1 then w % 0x100 else if n == 2 then w % 0x1_0000 else w % 0x100_0000 }

  function ByteAt(key: seq<Byte>, i: nat): Byte { if i < |key| then key[i] else 0 }

  // The word at i of a key that is continued with zeros.
  function WordAt(key: seq<Byte>, i: nat): Word {
    Load(ByteAt(key, i), ByteAt(key, i + 1), ByteAt(key, i + 2), ByteAt(key, i + 3))
  }

  function AddBlock(s: State, key: seq<Byte>, i: nat): State {
    State(Plus(s.a, WordAt(key, i)), Plus(s.b, WordAt(key, i + 4)), Plus(s.c, WordAt(key, i + 8)))
  }

  function Start(length: nat): State {
    var x: Word := Plus(0xdeadbeef, length % WORD32);
    State(x, x, x)
  }

  // The state before final, from position i on.
  function Absorb(s: State, key: seq<Byte>, i: nat): State
    requires i <= |key|
    decreases |key| - i
  {
    if |key| - i > 12 then Absorb(Mix(AddBlock(s, key, i)), key, i + 12) else AddBlock(s, key, i)
  }

  function Hash(key: seq<Byte>): Word {
    if key == [] then Start(0).c else Final(Absorb(Start(|key|), key, 0)).c
  }

  // ---- reading the key in words, halves and bytes ----

  function Word32(m: seq<Byte>, p: nat): Word
    requires p + 4 <= |m|
  {
    Load(m[p], m[p + 1], m[p + 2], m[p + 3])
  }

  function Half(m: seq<Byte>, p: nat): (r: Word)
    requires p + 2 <= |m|
    ensures r < 0x1_0000
  {
    Wide(m[p]) + At8(m[p + 1])
  }

  // k[0] + (((uint32_t)k[1])<<16)
  function Pair(lo: Word, hi: Word): Word
    requires lo < 0x1_0000 && hi < 0x1_0000
  {
    lo + hi * 0x1_0000
  }

  lemma LowPart(low: nat, high: nat, d: nat)
    requires (d == 0x100 || d == 0x1_0000 || d == 0x100_0000) && low < d
    ensures (low + high * d) % d == low
  {
    if d == 0x100 {
      LowOne(low, high);
    } else if d == 0x1_0000 {
      LowTwo(low, high);
    } else {
      LowThree(low, high);
    }
  }

  lemma LowOne(low: nat, high: nat)
    requires low < 0x100
    ensures (low + high * 0x100) % 0x100 == low
  {
  }

  lemma LowTwo(low: nat, high: nat)
    requires low < 0x1_0000
    ensures (low + high * 0x1_0000) % 0x1_0000 == low
  {
  }

  lemma LowThree(low: nat, high: nat)
    requires low < 0x100_0000
    ensures (low + high * 0x100_0000) % 0x100_0000 == low
  {
  }

  lemma CutAt(w: Word, n: nat, low: nat, high: nat, d: nat)
    requires (n == 1 && d == 0x100) || (n == 2 && d == 0x1_0000) || (n == 3 && d == 0x100_0000)
    requires low < d && w == low + high * d
    ensures Cut(w, n) == low
  {
    LowPart(low, high, d);
  }

  // Masking a word cuts off its high bytes.
  lemma Masks(b0: Byte, b1: Byte, b2: Byte, b3: Byte)
    ensures Cut(Load(b0, b1, b2, b3), 1) == Load(b0, 0, 0, 0)
    ensures Cut(Load(b0, b1, b2, b3), 2) == Load(b0, b1, 0, 0)
    ensures Cut(Load(b0, b1, b2, b3), 3) == Load(b0, b1, b2, 0)
  {
    hide Cut;
    CutAt(Load(b0, b1, b2, b3), 1, b0, b1 + 0x100 * b2 + 0x1_0000 * b3, 0x100);
    CutAt(Load(b0, b1, b2, b3), 2, b0 + 0x100 * b1, b2 + 0x100 * b3, 0x1_0000);
    CutAt(Load(b0, b1, b2, b3), 3, b0 + 0x100 * b1 + 0x1_0000 * b2, b3, 0x100_0000);
  }

  // Adding the bytes of a word one after the other, from either end, or a half and a byte, adds the word.
  lemma ByBytes(x: Word, b0: Byte, b1: Byte, b2: Byte, b3: Byte)
    ensures Plus(Plus(Plus(Plus(x, Wide(b0)), At8(b1)), At16(b2)), At24(b3)) == Plus(x, Load(b0, b1, b2, b3))
    ensures Plus(Plus(Plus(Plus(x, At24(b3)), At16(b2)), At8(b1)), Wide(b0)) == Plus(x, Load(b0, b1, b2, b3))
    ensures Plus(Plus(Plus(x, At16(b2)), At8(b1)), Wide(b0)) == Plus(x, Load(b0, b1, b2, 0))
    ensures Plus(Plus(x, At8(b1)), Wide(b0)) == Plus(x, Load(b0, b1, 0, 0))
    ensures Plus(x, Wide(b0)) == Plus(x, Load(b0, 0, 0, 0))
    ensures Plus(Plus(x, At16(b2)), Wide(b0) + At8(b1)) == Plus(x, Load(b0, b1, b2, 0))
    ensures Plus(x, Wide(b0) + At8(b1)) == Plus(x, Load(b0, b1, 0, 0))
  {
  }

  lemma HashIs(key: seq<Byte>)
    ensures Hash(key) == if key == [] then Start(0).c else Final(Absorb(Start(|key|), key, 0)).c
  {
  }

  lemma WordsAbsorb(m: seq<Byte>, length: nat, p: nat, s: State)
    requires p + 12 < length <= |m|
    ensures Absorb(s, m[..length], p) ==
      Absorb(Mix(State(Plus(s.a, Word32(m, p)), Plus(s.b, Word32(m, p + 4)), Plus(s.c, Word32(m, p + 8)))),
             m[..length], p + 12)
  {
    hide Mix, Plus, Word32, WordAt;
    WholeBlock(m, length, p);
  }

  lemma LastAbsorb(s: State, key: seq<Byte>, p: nat)
    requires p <= |key| <= p + 12
    ensures Absorb(s, key, p) == AddBlock(s, key, p)
  {
    hide AddBlock;
  }

  // The path for keys at an address divisible by 4. m is the key with what lies behind it, up to the end of its last
  // word; the masks cut that off.
  method HashWords(m: seq<Byte>, length: nat) returns (h: Word)
    requires length <= |m| && |m| % 4 == 0
    ensures h == Hash(m[..length])
  {
    hide Mix, Final, Start, Word32, Absorb, AddBlock;
    ghost var key := m[..length];
    var x := Start(length);
    var a, b, c := x.a, x.b, x.c;
    var p: nat, left: nat := 0, length;
    while left > 12
      invariant left + p == length && p % 4 == 0 && (left == 0 ==> length == 0) && (p == 0 ==> c == Start(length).c)
      invariant Absorb(State(a, b, c), key, p) == Absorb(Start(length), key, 0)
    {
      WordsAbsorb(m, length, p, State(a, b, c));
      var s := Mix(State(Plus(a, Word32(m, p)), Plus(b, Word32(m, p + 4)), Plus(c, Word32(m, p + 8))));
      a, b, c := s.a, s.b, s.c;
      left := left - 12;
      p := p + 12;
    }
    HashIs(key);
    if left == 0 { return c; }
    LastAbsorb(State(a, b, c), key, p);
    h := LastWord32(m, length, p, left, State(a, b, c));
  }

  // The switch on what is left.
  method LastWord32(m: seq<Byte>, length: nat, p: nat, left: nat, s: State) returns (h: Word)
    requires length <= |m| && |m| % 4 == 0 && p % 4 == 0 && p + left == length && 0 < left <= 12
    ensures h == Final(AddBlock(s, m[..length], p)).c
  {
    hide Mix, Final, Load, WordAt, Word32, Plus, Cut;
    MaskedWord(m, length, p);
    MaskedWord(m, length, p + 4);
    MaskedWord(m, length, p + 8);
    assert Plus(s.b, 0) == s.b && Plus(s.c, 0) == s.c by { PlusZero(s.b); PlusZero(s.c); }
    var a, b, c := s.a, s.b, s.c;
    if left == 12 { c := Plus(c, Word32(m, p + 8)); b := Plus(b, Word32(m, p + 4)); a := Plus(a, Word32(m, p)); }
    else if left == 11 {
      c := Plus(c, Cut(Word32(m, p + 8), 3)); b := Plus(b, Word32(m, p + 4));
      a := Plus(a, Word32(m, p));
    }
    else if left == 10 {
      c := Plus(c, Cut(Word32(m, p + 8), 2)); b := Plus(b, Word32(m, p + 4));
      a := Plus(a, Word32(m, p));
    }
    else if left == 9 {
      c := Plus(c, Cut(Word32(m, p + 8), 1)); b := Plus(b, Word32(m, p + 4));
      a := Plus(a, Word32(m, p));
    }
    else if left == 8 { b := Plus(b, Word32(m, p + 4)); a := Plus(a, Word32(m, p)); }
    else if left == 7 { b := Plus(b, Cut(Word32(m, p + 4), 3)); a := Plus(a, Word32(m, p)); }
    else if left == 6 { b := Plus(b, Cut(Word32(m, p + 4), 2)); a := Plus(a, Word32(m, p)); }
    else if left == 5 { b := Plus(b, Cut(Word32(m, p + 4), 1)); a := Plus(a, Word32(m, p)); }
    else if left == 4 { a := Plus(a, Word32(m, p)); }
    else if left == 3 { a := Plus(a, Cut(Word32(m, p), 3)); }
    else if left == 2 { a := Plus(a, Cut(Word32(m, p), 2)); }
    else { a := Plus(a, Cut(Word32(m, p), 1)); }
    h := Final(State(a, b, c)).c;
  }

  lemma WholeBlock(m: seq<Byte>, length: nat, p: nat)
    requires p + 12 <= length <= |m|
    ensures var key := m[..length];
      WordAt(key, p) == Word32(m, p) && WordAt(key, p + 4) == Word32(m, p + 4) && WordAt(key, p + 8) == Word32(m, p + 8)
  {
    hide Load;
  }

  // A word that sticks out of the key is its masked read; a word behind the key is 0.
  lemma MaskedWord(m: seq<Byte>, length: nat, p: nat)
    requires length <= |m| && |m| % 4 == 0 && p % 4 == 0
    ensures p < length ==> p + 4 <= |m|
    ensures length >= p + 4 ==> WordAt(m[..length], p) == Word32(m, p)
    ensures length == p + 3 ==> WordAt(m[..length], p) == Cut(Word32(m, p), 3)
    ensures length == p + 2 ==> WordAt(m[..length], p) == Cut(Word32(m, p), 2)
    ensures length == p + 1 ==> WordAt(m[..length], p) == Cut(Word32(m, p), 1)
    ensures length <= p ==> WordAt(m[..length], p) == 0
  {
    hide Load, Cut;
    if p < length {
      Masks(m[p], m[p + 1], m[p + 2], m[p + 3]);
    } else {
      assert WordAt(m[..length], p) == Load(0, 0, 0, 0);
    }
    LoadNone();
  }

  // The path for keys at an even address, in halves of words.
  method HashHalves(m: seq<Byte>) returns (h: Word)
    ensures h == Hash(m)
  {
    hide Mix, Final, Load, Plus, Start, Half, Word32, WordAt, Pair;
    assert m[..|m|] == m;
    var x := Start(|m|);
    var a, b, c := x.a, x.b, x.c;
    var p: nat, left: nat := 0, |m|;
    while left > 12
      invariant left + p == |m| && (left == 0 ==> |m| == 0) && (p == 0 ==> c == Start(|m|).c)
      invariant Absorb(State(a, b, c), m, p) == Absorb(Start(|m|), m, 0)
    {
      WholeBlock(m, |m|, p);
      PairsAreWords(m, p);
      PairsAreWords(m, p + 4);
      PairsAreWords(m, p + 8);
      var s := Mix(State(Plus(a, Pair(Half(m, p), Half(m, p + 2))), Plus(b, Pair(Half(m, p + 4), Half(m, p + 6))),
                         Plus(c, Pair(Half(m, p + 8), Half(m, p + 10)))));
      a, b, c := s.a, s.b, s.c;
      left := left - 12;
      p := p + 12;
    }
    if left == 0 { return c; }
    h := LastHalves(m, p, left, State(a, b, c));
  }

  lemma PairsAreWords(m: seq<Byte>, p: nat)
    requires p + 4 <= |m|
    ensures Half(m, p) < 0x1_0000 && Half(m, p + 2) < 0x1_0000
    ensures Pair(Half(m, p), Half(m, p + 2)) == Word32(m, p) == WordAt(m, p)
  {
  }

  lemma LoadNone()
    ensures Load(0, 0, 0, 0) == 0
  {
  }

  lemma PlusZero(x: Word)
    ensures Plus(x, 0) == x
  {
  }

  // The last word of a key, of which n bytes are left.
  lemma PartWord(m: seq<Byte>, p: nat, x: Word)
    ensures p + 4 <= |m| ==> Plus(x, Pair(Half(m, p), Half(m, p + 2))) == Plus(x, WordAt(m, p))
    ensures p + 3 == |m| ==> Plus(Plus(x, At16(m[p + 2])), Half(m, p)) == Plus(x, WordAt(m, p))
    ensures p + 2 == |m| ==> Plus(x, Half(m, p)) == Plus(x, WordAt(m, p))
    ensures p + 1 == |m| ==> Plus(x, Wide(m[p])) == Plus(x, WordAt(m, p))
    ensures p >= |m| ==> x == Plus(x, WordAt(m, p))
  {
    hide Load, Pair, Plus, Wide, At8, At16, At24, Word32;
    var b0, b1, b2, b3 := ByteAt(m, p), ByteAt(m, p + 1), ByteAt(m, p + 2), ByteAt(m, p + 3);
    if p + 4 <= |m| { PairsAreWords(m, p); }
    ByBytes(x, b0, b1, b2, b3);
    LoadNone();
    PlusZero(x);
  }

  method LastHalves(m: seq<Byte>, p: nat, left: nat, s: State) returns (h: Word)
    requires p + left == |m| && 0 < left <= 12
    ensures h == Final(AddBlock(s, m, p)).c
  {
    hide Final, Load, WordAt, Half, Plus, Pair, Wide, At16;
    PartWord(m, p, s.a);
    PartWord(m, p + 4, s.b);
    PartWord(m, p + 8, s.c);
    var a, b, c := s.a, s.b, s.c;
    if left == 12 {
      c := Plus(c, Pair(Half(m, p + 8), Half(m, p + 10)));
      b := Plus(b, Pair(Half(m, p + 4), Half(m, p + 6)));
      a := Plus(a, Pair(Half(m, p), Half(m, p + 2)));
    } else if left >= 10 {
      if left == 11 { c := Plus(c, At16(m[p + 10])); }
      c := Plus(c, Half(m, p + 8));
      b := Plus(b, Pair(Half(m, p + 4), Half(m, p + 6)));
      a := Plus(a, Pair(Half(m, p), Half(m, p + 2)));
    } else if left >= 8 {
      if left == 9 { c := Plus(c, Wide(m[p + 8])); }
      b := Plus(b, Pair(Half(m, p + 4), Half(m, p + 6)));
      a := Plus(a, Pair(Half(m, p), Half(m, p + 2)));
    } else if left >= 6 {
      if left == 7 { b := Plus(b, At16(m[p + 6])); }
      b := Plus(b, Half(m, p + 4));
      a := Plus(a, Pair(Half(m, p), Half(m, p + 2)));
    } else if left >= 4 {
      if left == 5 { b := Plus(b, Wide(m[p + 4])); }
      a := Plus(a, Pair(Half(m, p), Half(m, p + 2)));
    } else if left >= 2 {
      if left == 3 { a := Plus(a, At16(m[p + 2])); }
      a := Plus(a, Half(m, p));
    } else {
      a := Plus(a, Wide(m[p]));
    }
    h := Final(State(a, b, c)).c;
  }

  // The path for keys at an odd address, byte by byte.
  method HashBytes(m: seq<Byte>) returns (h: Word)
    ensures h == Hash(m)
  {
    hide Mix, Final, Load, Plus, Start, WordAt, Wide, At8, At16, At24;
    var x := Start(|m|);
    var a, b, c := x.a, x.b, x.c;
    var p: nat, left: nat := 0, |m|;
    while left > 12
      invariant left + p == |m| && (left == 0 ==> |m| == 0) && (p == 0 ==> c == Start(|m|).c)
      invariant Absorb(State(a, b, c), m, p) == Absorb(Start(|m|), m, 0)
    {
      FourBytes(m, p, a);
      FourBytes(m, p + 4, b);
      FourBytes(m, p + 8, c);
      a := Plus(a, Wide(m[p]));
      a := Plus(a, At8(m[p + 1]));
      a := Plus(a, At16(m[p + 2]));
      a := Plus(a, At24(m[p + 3]));
      b := Plus(b, Wide(m[p + 4]));
      b := Plus(b, At8(m[p + 5]));
      b := Plus(b, At16(m[p + 6]));
      b := Plus(b, At24(m[p + 7]));
      c := Plus(c, Wide(m[p + 8]));
      c := Plus(c, At8(m[p + 9]));
      c := Plus(c, At16(m[p + 10]));
      c := Plus(c, At24(m[p + 11]));
      var s := Mix(State(a, b, c));
      a, b, c := s.a, s.b, s.c;
      left := left - 12;
      p := p + 12;
    }
    if left == 0 { return c; }
    h := LastBytes(m, p, left, State(a, b, c));
  }

  lemma FourBytes(m: seq<Byte>, p: nat, x: Word)
    requires p + 4 <= |m|
    ensures Plus(Plus(Plus(Plus(x, Wide(m[p])), At8(m[p + 1])), At16(m[p + 2])), At24(m[p + 3])) == Plus(x, WordAt(m,
        p))
  {
    hide Load, Plus, Wide, At8, At16, At24;
    ByBytes(x, m[p], m[p + 1], m[p + 2], m[p + 3]);
  }

  // The bytes that are left of a word, last one first.
  lemma PartBytes(m: seq<Byte>, p: nat, x: Word)
    ensures p + 4 <= |m| ==>
      Plus(Plus(Plus(Plus(x, At24(m[p + 3])), At16(m[p + 2])), At8(m[p + 1])), Wide(m[p])) == Plus(x, WordAt(m, p))
    ensures p + 3 == |m| ==> Plus(Plus(Plus(x, At16(m[p + 2])), At8(m[p + 1])), Wide(m[p])) == Plus(x, WordAt(m, p))
    ensures p + 2 == |m| ==> Plus(Plus(x, At8(m[p + 1])), Wide(m[p])) == Plus(x, WordAt(m, p))
    ensures p + 1 == |m| ==> Plus(x, Wide(m[p])) == Plus(x, WordAt(m, p))
    ensures p >= |m| ==> x == Plus(x, WordAt(m, p))
  {
    hide Load, Plus, Wide, At8, At16, At24;
    ByBytes(x, ByteAt(m, p), ByteAt(m, p + 1), ByteAt(m, p + 2), ByteAt(m, p + 3));
    LoadNone();
    PlusZero(x);
  }

  // The switch whose cases all fall through.
  method LastBytes(m: seq<Byte>, p: nat, left: nat, s: State) returns (h: Word)
    requires p + left == |m| && 0 < left <= 12
    ensures h == Final(AddBlock(s, m, p)).c
  {
    hide Final, Load, WordAt, Plus, Wide, At8, At16, At24;
    PartBytes(m, p, s.a);
    PartBytes(m, p + 4, s.b);
    PartBytes(m, p + 8, s.c);
    var a, b, c := s.a, s.b, s.c;
    if left >= 12 { c := Plus(c, At24(m[p + 11])); }
    if left >= 11 { c := Plus(c, At16(m[p + 10])); }
    if left >= 10 { c := Plus(c, At8(m[p + 9])); }
    if left >= 9 { c := Plus(c, Wide(m[p + 8])); }
    if left >= 8 { b := Plus(b, At24(m[p + 7])); }
    if left >= 7 { b := Plus(b, At16(m[p + 6])); }
    if left >= 6 { b := Plus(b, At8(m[p + 5])); }
    if left >= 5 { b := Plus(b, Wide(m[p + 4])); }
    if left >= 4 { a := Plus(a, At24(m[p + 3])); }
    if left >= 3 { a := Plus(a, At16(m[p + 2])); }
    if left >= 2 { a := Plus(a, At8(m[p + 1])); }
    a := Plus(a, Wide(m[p]));
    h := Final(State(a, b, c)).c;
  }

  // ---- mixing loses nothing ----

  lemma TurnBack(x: Word, z: Word, y: Word, k: nat)
    requires 0 < k < 32
    ensures Unturn(Turn(x, z, y, k).0, Turn(x, z, y, k).1, y, k) == (x, z)
  {
    hide Rot, Xor;
    assert Minus(Plus(z, y), y) == z && Plus(Minus(x, z), z) == x;
    XorTwice(Minus(x, z), Rot(z, k));
  }

  lemma UnmixMix(s: State)
    ensures Unmix(Mix(s)) == s
  {
    hide Turn, Unturn;
    var (a1, c1) := Turn(s.a, s.c, s.b, 4);
    var (b2, a2) := Turn(s.b, a1, c1, 6);
    var (c3, b3) := Turn(c1, b2, a2, 8);
    var (a4, c4) := Turn(a2, c3, b3, 16);
    var (b5, a5) := Turn(b3, a4, c4, 19);
    TurnBack(s.a, s.c, s.b, 4);
    TurnBack(s.b, a1, c1, 6);
    TurnBack(c1, b2, a2, 8);
    TurnBack(a2, c3, b3, 16);
    TurnBack(b3, a4, c4, 19);
    TurnBack(c4, b5, a5, 4);
  }

  lemma MixInjective(s: State, t: State)
    ensures Mix(s) == Mix(t) ==> s == t
  {
    UnmixMix(s);
    UnmixMix(t);
    hide Mix, Unmix;
  }

  lemma FoldBack(x: Word, y: Word, k: nat)
    requires 0 < k < 32
    ensures Unfold(Fold(x, y, k), y, k) == x
  {
    hide Rot, Xor;
    assert Plus(Minus(Xor(x, y), Rot(y, k)), Rot(y, k)) == Xor(x, y);
    XorTwice(x, y);
  }

  // What is left of the state is cut down to one word only by its caller.
  lemma UnfinalFinal(s: State)
    ensures Unfinal(Final(s)) == s
  {
    hide Fold, Unfold;
    var c1 := Fold(s.c, s.b, 14);
    var a1 := Fold(s.a, c1, 11);
    var b1 := Fold(s.b, a1, 25);
    var c2 := Fold(c1, b1, 16);
    var a2 := Fold(a1, c2, 4);
    var b2 := Fold(b1, a2, 14);
    FoldBack(c2, b2, 24);
    FoldBack(b1, a2, 14);
    FoldBack(a1, c2, 4);
    FoldBack(c1, b1, 16);
    FoldBack(s.b, a1, 25);
    FoldBack(s.a, c1, 11);
    FoldBack(s.c, s.b, 14);
  }

  lemma FinalInjective(s: State, t: State)
    ensures Final(s) == Final(t) ==> s == t
  {
    UnfinalFinal(s);
    UnfinalFinal(t);
    hide Final, Unfinal;
  }

  // ---- what a rotation does ----

  lemma {:induction false} XorNothing(x: nat, n: nat)
    requires x < Pow2(n)
    ensures XorBits(x, 0, n) == x
  {
    if n > 0 {
      XorNothing(x / 2, n - 1);
      assert XorBits(x, 0, n) == (x % 2 + 0 % 2) % 2 + 2 * XorBits(x / 2, 0 / 2, n - 1);
    }
  }

  // One bit less of a number whose low bits are clear.
  lemma Halved(x: nat, h: nat, k: nat)
    requires k > 0 && x == h * Pow2(k)
    ensures x % 2 == 0 && x / 2 == h * Pow2(k - 1)
  {
    assert x == 2 * (h * Pow2(k - 1));
  }

  // The k low bits are clear.
  predicate Clear(x: nat, k: nat) { k > 0 ==> x % 2 == 0 && Clear(x / 2, k - 1) }

  lemma {:induction false} MultipleIsClear(x: nat, h: nat, k: nat)
    requires x == h * Pow2(k)
    ensures Clear(x, k)
  {
    if k > 0 {
      Halved(x, h, k);
      MultipleIsClear(x / 2, h, k - 1);
    }
  }

  // Where two words have no bit in common, ^ is +.
  lemma {:induction false} XorApart(x: nat, l: nat, k: nat, n: nat)
    requires k <= n && Clear(x, k) && l < Pow2(k) && x < Pow2(n)
    ensures XorBits(x, l, n) == x + l
    decreases n
  {
    if k == 0 {
      XorNothing(x, n);
    } else {
      XorApart(x / 2, l / 2, k - 1, n - 1);
      assert XorBits(x, l, n) == (x % 2 + l % 2) % 2 + 2 * XorBits(x / 2, l / 2, n - 1);
    }
  }

  lemma {:induction false} Pow2Adds(i: nat, j: nat)
    ensures Pow2(i + j) == Pow2(i) * Pow2(j)
  {
    if i > 0 {
      Pow2Adds(i - 1, j);
      assert Pow2(i) * Pow2(j) == 2 * (Pow2(i - 1) * Pow2(j));
    }
  }

  lemma Multiple(q: int, d: int)
    requires d > 0
    ensures q > 0 ==> q * d >= d
    ensures q < 0 ==> q * d + d <= 0
  {
    if q > 0 {
      assert (q - 1) * d >= 0;
    } else if q < 0 {
      assert (-1 - q) * d >= 0;
    }
  }

  lemma Divided(x: nat, low: nat, high: nat, d: nat)
    requires low < d && x == high * d + low
    ensures x / d == high && x % d == low
  {
    var q, r := x / d, x % d;
    assert x == d * q + r;
    assert (q - high) * d == low - r;
    Multiple(q - high, d);
  }

  lemma Reordered(x: nat, high: nat, low: nat, p: nat, q: nat)
    requires p * q == WORD32 && x == high * q + low
    ensures x * p == high * WORD32 + low * p
  {
    assert x * p == (high * q) * p + low * p;
    assert (high * q) * p == high * (p * q);
  }

  lemma Below(high: nat, low: nat, p: nat, q: nat)
    requires high < p && low < q
    ensures high * q + low < p * q
  {
    assert (p - high - 1) * q >= 0;
    assert (p - high - 1) * q == p * q - (high * q + q);
  }

  lemma TurnedParts(x: nat, high: nat, low: nat, p: nat, q: nat)
    requires high < p && low < q && p * q == WORD32 && x == high * q + low
    ensures x < WORD32 && x * p % WORD32 == low * p && x / q == high && low * p < WORD32 && high < WORD32
  {
    Below(high, low, p, q);
    Below(low, 0, q, p);
    Divided(x, low, high, q);
    Reordered(x, high, low, p, q);
    Divided(x * p, low * p, high, WORD32);
  }

  // The k high bits become the low ones, and the others move up.
  lemma RotTurns(x: nat, high: nat, low: nat, k: nat)
    requires 0 < k < 32 && high < Pow2(k) && low < Pow2(32 - k) && x == high * Pow2(32 - k) + low
    ensures x < WORD32 && Rot(x, k) == low * Pow2(k) + high
  {
    hide Pow2, XorBits;
    Pow32();
    Pow2Adds(k, 32 - k);
    TurnedParts(x, high, low, Pow2(k), Pow2(32 - k));
    assert high % WORD32 == high;
    MultipleIsClear(low * Pow2(k), low, k);
    XorApart(low * Pow2(k), high, k, 32);
  }

  lemma PlusInjective(x: Word, y: Word, u: Word, v: Word)
    ensures Plus(x, u) == Plus(y, u) ==> x == y
    ensures Plus(x, u) == Plus(x, v) ==> u == v
  {
  }

  lemma LowByte(b: Byte, high: nat, d: Byte, dhigh: nat)
    requires b + 0x100 * high == d + 0x100 * dhigh
    ensures b == d && high == dhigh
  {
  }

  lemma LoadInjective(b0: Byte, b1: Byte, b2: Byte, b3: Byte, d0: Byte, d1: Byte, d2: Byte, d3: Byte)
    requires Load(b0, b1, b2, b3) == Load(d0, d1, d2, d3)
    ensures b0 == d0 && b1 == d1 && b2 == d2 && b3 == d3
  {
    LowByte(b0, b1 + 0x100 * b2 + 0x1_0000 * b3, d0, d1 + 0x100 * d2 + 0x1_0000 * d3);
    LowByte(b1, b2 + 0x100 * b3, d1, d2 + 0x100 * d3);
    LowByte(b2, b3, d2, d3);
  }

  lemma WordDiffers(k1: seq<Byte>, k2: seq<Byte>, p: nat)
    requires WordAt(k1, p) == WordAt(k2, p)
    ensures forall j :: p <= j < p + 4 ==> ByteAt(k1, j) == ByteAt(k2, j)
  {
    LoadInjective(ByteAt(k1, p), ByteAt(k1, p + 1), ByteAt(k1, p + 2), ByteAt(k1, p + 3),
                  ByteAt(k2, p), ByteAt(k2, p + 1), ByteAt(k2, p + 2), ByteAt(k2, p + 3));
    hide Load;
  }

  // The same block keeps different states apart.
  lemma SameBlock(s: State, t: State, key: seq<Byte>, i: nat)
    requires s != t
    ensures AddBlock(s, key, i) != AddBlock(t, key, i)
  {
    hide WordAt, Plus;
    PlusInjective(s.a, t.a, WordAt(key, i), 0);
    PlusInjective(s.b, t.b, WordAt(key, i + 4), 0);
    PlusInjective(s.c, t.c, WordAt(key, i + 8), 0);
  }

  // Different blocks take one state apart.
  lemma DifferentBlock(s: State, k1: seq<Byte>, k2: seq<Byte>, i: nat, j: nat)
    requires i <= j < i + 12 && ByteAt(k1, j) != ByteAt(k2, j)
    ensures AddBlock(s, k1, i) != AddBlock(s, k2, i)
  {
    hide WordAt, Plus, ByteAt;
    PlusInjective(s.a, 0, WordAt(k1, i), WordAt(k2, i));
    PlusInjective(s.b, 0, WordAt(k1, i + 4), WordAt(k2, i + 4));
    PlusInjective(s.c, 0, WordAt(k1, i + 8), WordAt(k2, i + 8));
    if WordAt(k1, i) == WordAt(k2, i) { WordDiffers(k1, k2, i); }
    if WordAt(k1, i + 4) == WordAt(k2, i + 4) { WordDiffers(k1, k2, i + 4); }
    if WordAt(k1, i + 8) == WordAt(k2, i + 8) { WordDiffers(k1, k2, i + 8); }
  }

  lemma SameWords(k1: seq<Byte>, k2: seq<Byte>, i: nat)
    requires |k1| == |k2| && forall j :: i <= j < |k1| ==> k1[j] == k2[j]
    ensures forall s :: AddBlock(s, k1, i) == AddBlock(s, k2, i)
  {
    hide Load, Plus;
  }

  // From a position on where the keys agree, different states stay different.
  lemma {:induction false} StaysApart(s: State, t: State, k1: seq<Byte>, k2: seq<Byte>, i: nat)
    requires s != t && |k1| == |k2| && i <= |k1| && forall j :: i <= j < |k1| ==> k1[j] == k2[j]
    ensures Absorb(s, k1, i) != Absorb(t, k2, i)
    decreases |k1| - i
  {
    hide AddBlock, Mix;
    SameWords(k1, k2, i);
    SameBlock(s, t, k1, i);
    if |k1| - i > 12 {
      MixInjective(AddBlock(s, k1, i), AddBlock(t, k1, i));
      StaysApart(Mix(AddBlock(s, k1, i)), Mix(AddBlock(t, k1, i)), k1, k2, i + 12);
    }
  }

  // The block at 12 * n is not the last one, and is the only one in which the keys differ.
  ghost predicate DifferInOneBlock(k1: seq<Byte>, k2: seq<Byte>, i: nat, n: nat) {
    && |k1| == |k2| && i + 12 * n + 12 < |k1|
    && (forall j :: i <= j < i + 12 * n ==> k1[j] == k2[j])
    && (forall j :: i + 12 * n + 12 <= j < |k1| ==> k1[j] == k2[j])
    && exists j :: i + 12 * n <= j < i + 12 * n + 12 && k1[j] != k2[j]
  }

  lemma {:induction false} ComesApart(s: State, k1: seq<Byte>, k2: seq<Byte>, i: nat, n: nat)
    requires DifferInOneBlock(k1, k2, i, n)
    ensures Absorb(s, k1, i) != Absorb(s, k2, i)
    decreases n
  {
    hide AddBlock, Mix;
    if n == 0 {
      var j :| i <= j < i + 12 && k1[j] != k2[j];
      DifferentBlock(s, k1, k2, i, j);
      MixInjective(AddBlock(s, k1, i), AddBlock(s, k2, i));
      StaysApart(Mix(AddBlock(s, k1, i)), Mix(AddBlock(s, k2, i)), k1, k2, i + 12);
    } else {
      FirstBlock(k1, k2, i);
      ComesApart(Mix(AddBlock(s, k1, i)), k1, k2, i + 12, n - 1);
    }
  }

  lemma FirstBlock(k1: seq<Byte>, k2: seq<Byte>, i: nat)
    requires |k1| == |k2| && i + 12 <= |k1| && forall j :: i <= j < i + 12 ==> k1[j] == k2[j]
    ensures forall s :: AddBlock(s, k1, i) == AddBlock(s, k2, i)
  {
    hide Load, Plus;
  }

  // Two keys of one length that differ in exactly one block, and not in the last, reach final in different states and
  // leave it so.
  lemma OneBlockIsNeverLost(k1: seq<Byte>, k2: seq<Byte>, n: nat)
    requires DifferInOneBlock(k1, k2, 0, n)
    ensures Absorb(Start(|k1|), k1, 0) != Absorb(Start(|k2|), k2, 0)
    ensures Final(Absorb(Start(|k1|), k1, 0)) != Final(Absorb(Start(|k2|), k2, 0))
  {
    hide Absorb, Start, Final, AddBlock;
    ComesApart(Start(|k1|), k1, k2, 0, n);
    FinalInjective(Absorb(Start(|k1|), k1, 0), Absorb(Start(|k2|), k2, 0));
  }
}
