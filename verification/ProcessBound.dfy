/** MaybeRoundUp and ProcessBound (crypto/process_bound_string.cc, crypto/process_bound_string.h). */
module ProcessBound {
  import opened Wrappers

  // ----- words -----

  function Pow2(n: nat): (r: nat)
    ensures r >= 1
  {
    if n == 0 then 1 else 2 * Pow2(n - 1)
  }

  /** The & operator of C++, bit by bit. */
  function BitAnd(x: nat, y: nat): nat {
    if x == 0 || y == 0 then 0 else 2 * BitAnd(x / 2, y / 2) + (x % 2) * (y % 2)
  }

  /** The low k bits. */
  function Low(x: nat, k: nat): (r: nat)
    ensures r < Pow2(k)
  {
    if k == 0 then 0 else 2 * Low(x / 2, k - 1) + x % 2
  }

  lemma Scaled(m: nat, d: int)
    ensures d >= 1 ==> m * d >= m
    ensures d <= -1 ==> m * d <= 0 - m
    ensures d <= 0 ==> m * d <= 0
  {}

  lemma RemainderIs(x: nat, m: nat, q: nat, r: nat)
    requires m >= 1 && x == m * q + r && r < m
    ensures x % m == r && x / m == q
  {
    var d := x / m - q;
    assert m * d == r - x % m by {
      assert x == m * (x / m) + x % m;
      assert m * d == m * (x / m) - m * q;
    }
    Scaled(m, d);
  }

  lemma ModDouble(x: nat, m: nat)
    requires m >= 1
    ensures x % (2 * m) == 2 * (x / 2 % m) + x % 2
  {
    var q, r := x / 2 / m, x / 2 % m;
    assert x / 2 == m * q + r;
    assert x == (2 * m) * q + (2 * r + x % 2);
    RemainderIs(x, 2 * m, q, 2 * r + x % 2);
  }

  lemma {:induction false} LowIsRemainder(x: nat, k: nat)
    ensures Low(x, k) == x % Pow2(k)
  {
    if k > 0 {
      LowIsRemainder(x / 2, k - 1);
      ModDouble(x, Pow2(k - 1));
    }
  }

  lemma {:induction false} LowWhole(x: nat, k: nat)
    requires x < Pow2(k)
    ensures Low(x, k) == x
    decreases k
  {
    if k > 0 { LowWhole(x / 2, k - 1); }
  }

  lemma {:induction false} LowOfLow(x: nat, k: nat, n: nat)
    requires k <= n
    ensures Low(Low(x, n), k) == Low(x, k)
    decreases k
  {
    if k > 0 {
      LowOfLow(x / 2, k - 1, n - 1);
    }
  }

  lemma {:induction false} Pow2Ordered(k: nat, n: nat)
    requires k <= n
    ensures Pow2(k) <= Pow2(n)
    decreases n
  {
    if k < n { Pow2Ordered(k, n - 1); }
  }

  /** The mask with the bits k up to n - 1 set keeps exactly those bits. */
  lemma {:induction false} MaskKeepsBits(x: nat, k: nat, n: nat)
    requires k <= n && Pow2(k) <= Pow2(n)
    ensures BitAnd(x, Pow2(n) - Pow2(k)) == Low(x, n) - Low(x, k)
    decreases n
  {
    if k < n {
      var j := if k == 0 then 0 else k - 1;
      Pow2Ordered(j, n - 1);
      MaskKeepsBits(x / 2, j, n - 1);
      MaskHalves(k, n);
      Halved(x, Pow2(n) - Pow2(k));
    }
  }

  lemma MaskHalves(k: nat, n: nat)
    requires k < n && Pow2(k) <= Pow2(n)
    ensures var y := Pow2(n) - Pow2(k);
            y / 2 == Pow2(n - 1) - Pow2(if k == 0 then 0 else k - 1) && y % 2 == if k == 0 then 1 else 0
  {}

  lemma Halved(x: nat, y: nat)
    ensures BitAnd(x, y) == 2 * BitAnd(x / 2, y / 2) + (x % 2) * (y % 2)
  {}

  /** A masked value is at most the mask. */
  lemma {:induction false} MaskedIsBelow(x: nat, k: nat, n: nat)
    requires k <= n
    ensures Low(x, n) - Low(x, k) <= Pow2(n) - Pow2(k)
    decreases n
  {
    if 0 < k < n {
      MaskedIsBelow(x / 2, k - 1, n - 1);
    }
  }

  // ----- rounding up -----

  /** ~(block - 1u) in the 32 bits of an unsigned int. */
  function Mask(maskBits: nat, blockBits: nat): int { Pow2(maskBits) - 1 - (Pow2(blockBits) - 1) }

  /** MaybeRoundUp on Windows. The sum wraps at the width of size_t; the mask is as wide as an unsigned int. */
  function RoundUp(size: nat, sizeBits: nat, maskBits: nat, blockBits: nat): nat
    requires blockBits <= maskBits <= sizeBits
  {
    Pow2Ordered(blockBits, maskBits);
    BitAnd((size + Pow2(blockBits) - 1) % Pow2(sizeBits), Mask(maskBits, blockBits))
  }

  predicate LeastMultipleAbove(r: nat, size: nat, block: nat)
    requires block >= 1
  {
    Multiple(r, block) && r >= size && (forall m: nat | Multiple(m, block) && m >= size :: r <= m)
  }

  predicate Multiple(m: nat, block: nat)
    requires block >= 1
  {
    m % block == 0
  }

  lemma MaskOfWrapped(sum: nat, sizeBits: nat, maskBits: nat, blockBits: nat)
    requires blockBits <= maskBits <= sizeBits && Pow2(blockBits) <= Pow2(maskBits)
    ensures BitAnd(Low(sum, sizeBits), Pow2(maskBits) - Pow2(blockBits)) == Low(sum, maskBits) - Low(sum, blockBits)
  {
    MaskKeepsBits(Low(sum, sizeBits), blockBits, maskBits);
    LowOfLow(sum, maskBits, sizeBits);
    LowOfLow(sum, blockBits, sizeBits);
  }

  /** What the mask expression computes for every size: only the low 32 bits of the sum, cut to a multiple. */
  lemma RoundUpIs(size: nat, sizeBits: nat, maskBits: nat, blockBits: nat)
    requires blockBits <= maskBits <= sizeBits
    ensures var sum := size + Pow2(blockBits) - 1;
            RoundUp(size, sizeBits, maskBits, blockBits) == Low(sum, maskBits) - Low(sum, blockBits)
  {
    LowIsRemainder(size + Pow2(blockBits) - 1, sizeBits);
    Pow2Ordered(blockBits, maskBits);
    MaskOfWrapped(size + Pow2(blockBits) - 1, sizeBits, maskBits, blockBits);
  }

  lemma MultipleMinusRemainder(x: nat, m: nat)
    requires m >= 1
    ensures (x - x % m) % m == 0
  {
    RemainderIs(x - x % m, m, x / m, 0);
  }

  lemma MultiplesApart(a: nat, b: nat, m: nat)
    requires m >= 1 && a % m == 0 && b % m == 0 && a < b + m
    ensures a <= b
  {
    var d := a / m - b / m;
    assert a == m * (a / m) && b == m * (b / m);
    assert a - b == m * d;
    Scaled(m, d);
  }

  lemma CutIsLeast(size: nat, block: nat, sum: nat, r: int)
    requires block >= 1 && sum == size + block - 1 && r == sum - sum % block
    ensures r >= 0 && LeastMultipleAbove(r, size, block)
  {
    MultipleMinusRemainder(sum, block);
    forall m: nat | Multiple(m, block) && m >= size ensures r <= m {
      MultiplesApart(r, m, block);
    }
  }

  lemma SumCut(sum: nat, maskBits: nat, blockBits: nat)
    requires sum < Pow2(maskBits)
    ensures Low(sum, maskBits) - Low(sum, blockBits) == sum - sum % Pow2(blockBits)
  {
    LowWhole(sum, maskBits);
    LowIsRemainder(sum, blockBits);
  }

  lemma BigSumCut(size: nat, maskBits: nat, blockBits: nat, r: int)
    requires blockBits <= maskBits && size > Pow2(maskBits) - Pow2(blockBits)
    requires r == Low(size + Pow2(blockBits) - 1, maskBits) - Low(size + Pow2(blockBits) - 1, blockBits)
    ensures r < size
  {
    MaskedIsBelow(size + Pow2(blockBits) - 1, blockBits, maskBits);
  }

  lemma SmallSumCut(size: nat, maskBits: nat, blockBits: nat, r: int)
    requires size <= Pow2(maskBits) - Pow2(blockBits)
    requires r == Low(size + Pow2(blockBits) - 1, maskBits) - Low(size + Pow2(blockBits) - 1, blockBits)
    ensures r >= 0 && LeastMultipleAbove(r, size, Pow2(blockBits))
  {
    var sum := size + Pow2(blockBits) - 1;
    SumCut(sum, maskBits, blockBits);
    CutIsLeast(size, Pow2(blockBits), sum, r);
  }

  /** The result is the least multiple of the block not below the size exactly for sizes up to 2^32 minus the block;
      beyond that it is smaller than the size. */
  lemma RoundsUpWithinMask(size: nat, sizeBits: nat, maskBits: nat, blockBits: nat)
    requires blockBits <= maskBits <= sizeBits
    ensures var r := RoundUp(size, sizeBits, maskBits, blockBits);
            && (size <= Pow2(maskBits) - Pow2(blockBits) <==> LeastMultipleAbove(r, size, Pow2(blockBits)))
            && (size <= Pow2(maskBits) - Pow2(blockBits) <==> r >= size)
  {
    var r := RoundUp(size, sizeBits, maskBits, blockBits);
    RoundUpIs(size, sizeBits, maskBits, blockBits);
    if size <= Pow2(maskBits) - Pow2(blockBits) {
      SmallSumCut(size, maskBits, blockBits, r);
    } else {
      BigSumCut(size, maskBits, blockBits, r);
    }
  }

  // ----- the round trip -----

  const MASK_BITS: nat := 32

  /** Whether the feature is on, on Windows, and whether CryptProtectMemory succeeds; the block is a power of two, as
      the code asserts. */
  datatype Platform = Platform(windows: bool, feature: bool, protects: bool, sizeBits: nat, blockBits: nat)

  /** The mask is as wide as an unsigned int. */
  lemma MaskWidth()
    ensures Pow2(MASK_BITS) == 0x1_0000_0000
  {
    Pow2Adds(16, 16);
    Pow2Adds(8, 8);
    assert Pow2(8) == 256;
  }

  lemma {:induction false} Pow2Adds(a: nat, b: nat)
    ensures Pow2(a + b) == Pow2(a) * Pow2(b)
  {
    if a > 0 { Pow2Adds(a - 1, b); }
  }

  predicate ValidPlatform(p: Platform) { p.blockBits <= MASK_BITS <= p.sizeBits }

  /** CryptProtectMemory and CryptUnprotectMemory on buffers, assumed inverse and length preserving. */
  datatype Cipher<!C> = Cipher(protect: seq<C> -> seq<C>, unprotect: seq<C> -> seq<C>)

  ghost predicate Inverse<C(!new)>(c: Cipher<C>) {
    forall s :: |c.protect(s)| == |s| && c.unprotect(c.protect(s)) == s
  }

  function MaybeRoundUp(p: Platform, size: nat): nat
    requires ValidPlatform(p)
  {
    if p.windows then RoundUp(size, p.sizeBits, MASK_BITS, p.blockBits) else size
  }

  function Resized<C>(s: seq<C>, n: nat, zero: C): (r: seq<C>)
    ensures |r| == n
    ensures forall i | 0 <= i < n :: r[i] == if i < |s| then s[i] else zero
    ensures n >= |s| ==> r[..|s|] == s
  {
    if n <= |s| then s[..n] else s + seq(n - |s|, _ => zero)
  }

  /** What the size rules leave of a string: all of it, or what the truncating resize kept. */
  predicate Fits(p: Platform, size: nat)
    requires ValidPlatform(p)
  {
    !p.windows || !p.feature || size <= Pow2(MASK_BITS) - Pow2(p.blockBits)
  }

  lemma FitsIff(p: Platform, size: nat)
    requires ValidPlatform(p) && p.feature
    ensures Fits(p, size) <==> MaybeRoundUp(p, size) >= size
  {
    if p.windows { RoundsUpWithinMask(size, p.sizeBits, MASK_BITS, p.blockBits); }
  }

  /** What reading back gives: a string that fits comes back unchanged, whether encryption is off, fails or succeeds.
      One that does not comes back with the part past the rounded size zeroed, or reading it would leave the buffer;
      so a string that does not end in zero comes back exactly if it fits. */
  ghost predicate ReadsBack<C>(value: seq<C>, p: Platform, zero: C, r: Option<seq<C>>)
    requires ValidPlatform(p)
  {
    && (Fits(p, |value|) ==> r == Some(value))
    && (!Fits(p, |value|) && !p.protects ==> r == None)
    && (!Fits(p, |value|) && p.protects ==>
          && r.Some? && |r.value| == |value|
          && forall i | 0 <= i < |value| :: r.value[i] == if i < MaybeRoundUp(p, |value|) then value[i] else zero)
    && (value != [] && value[|value| - 1] != zero ==> (r == Some(value) <==> Fits(p, |value|)))
  }

  class BoundString<C(!new)> {
    var data: seq<C>          // maybe_encrypted_data_
    var originalSize: nat
    var encrypted: bool
    const cipher: Cipher<C>
    const zero: C
    ghost const value: seq<C>       // the string given to the constructor
    ghost const platform: Platform

    ghost function Plain(): seq<C> reads this { if encrypted then cipher.unprotect(data) else data }

    /** The buffer holds the value as the size rules leave it, encrypted exactly if encryption is on and succeeded. */
    ghost predicate Valid() reads this {
      && ValidPlatform(platform)
      && originalSize == |value|
      && encrypted == (platform.windows && platform.feature && platform.protects)
      && Plain() == if platform.feature then Resized(value, MaybeRoundUp(platform, |value|), zero) else value
    }

    constructor (value: seq<C>, p: Platform, cipher: Cipher<C>, zero: C)
      requires ValidPlatform(p) && Inverse(cipher)
      ensures Valid() && this.value == value && platform == p && this.cipher == cipher && this.zero == zero
      ensures encrypted <==> p.windows && p.feature && p.protects
      ensures encrypted ==> exists buffer :: data == cipher.protect(buffer) && |buffer| == MaybeRoundUp(p, |value|)
    {
      this.cipher, this.zero, this.value, platform := cipher, zero, value, p;
      originalSize := |value|;
      var buffer := value;
      var done := false;
      if p.feature {
        buffer := Resized(buffer, MaybeRoundUp(p, |value|), zero);
        if p.windows && p.protects {
          buffer := cipher.protect(buffer);
          done := true;
        }
      }
      data := buffer;
      encrypted := done;
    }

    /** secure_value and value. None stands for reading past the end of an unencrypted buffer. */
    method Value() returns (r: Option<seq<C>>)
      requires Valid()
      ensures ReadsBack(value, platform, zero, r)
    {
      if platform.feature { FitsIff(platform, |value|); }
      ghost var kept := Plain();
      assert Fits(platform, |value|) ==> |value| <= |kept| && kept[..|value|] == value;
      if !encrypted {
        return if originalSize <= |data| then Some(data[..originalSize]) else None;
      }
      var decrypted := cipher.unprotect(data);
      return Some(Resized(decrypted, originalSize, zero));
    }
  }

  /** Storing a string and reading it back. */
  method StoreThenRead<C(!new)>(value: seq<C>, p: Platform, cipher: Cipher<C>, zero: C) returns (r: Option<seq<C>>)
    requires ValidPlatform(p) && Inverse(cipher)
    ensures ReadsBack(value, p, zero, r)
  {
    var bound := new BoundString<C>(value, p, cipher, zero);
    r := bound.Value();
  }
}
