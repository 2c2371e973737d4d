/**
 The in-place radix-2 transform of the audio front end.

 The reference is the discrete Fourier transform `Bin`: a sum of samples times powers of a
 root of unity. The loops are connected to it through decimation in time: after the pass of
 length L, block b holds the transform of the samples whose index is `Rev(b, n / L)` modulo n / L.
 */
module Fft {
  import opened Bits
  import opened ComplexNumbers

  // ---------- bit reversal ----------

  /** The reversal of the bits of `b` seen as an index below `n`. */
  function Rev(b: nat, n: nat): (r: nat)
    requires IsPow2(n) && b < n
    ensures r < n
    decreases n
  {
    if n == 1 then 0 else (if b % 2 == 1 then n / 2 else 0) + Rev(b / 2, n / 2)
  }

  /** Reversal read from the high end of the index. */
  lemma {:induction false} RevHigh(high: bool, c: nat, n: nat)
    requires n > 1 && IsPow2(n) && c < n / 2
    ensures Rev(if high then n / 2 + c else c, n) == 2 * Rev(c, n / 2) + (if high then 1 else 0)
    decreases n
  {
    var h := n / 2;
    if h > 1 {
      var b := if high then h + c else c;
      assert h == 2 * (h / 2);
      assert b % 2 == c % 2 && b / 2 == (if high then h / 2 + c / 2 else c / 2);
      RevHigh(high, c / 2, h);
    }
  }

  /** Reversing twice gives the index back. */
  lemma {:induction false} RevInvolution(b: nat, n: nat)
    requires IsPow2(n) && b < n
    ensures Rev(Rev(b, n), n) == b
    decreases n
  {
    if n > 1 {
      RevInvolution(b / 2, n / 2);
      RevHigh(b % 2 == 1, Rev(b / 2, n / 2), n);
    }
  }

  /** Adding one from the high end: the carry of the reversed counter. */
  function ReversedIncrement(r: nat, bit: nat): (s: nat)
    requires IsPow2(bit) && r < 2 * bit - 1
    ensures s < 2 * bit
    decreases bit
  {
    if r >= bit then ReversedIncrement(r - bit, bit / 2) else r + bit
  }

  lemma {:induction false} ReversedIncrementIsRev(i: nat, n: nat)
    requires n > 1 && IsPow2(n) && i + 1 < n
    ensures Rev(i, n) < n - 1
    ensures ReversedIncrement(Rev(i, n), n / 2) == Rev(i + 1, n)
    decreases n
  {
    var h := n / 2;
    if i % 2 == 0 {
      assert (i + 1) / 2 == i / 2 && (i + 1) % 2 == 1;
      assert Rev(i, n) == Rev(i / 2, h);
      assert Rev(i + 1, n) == h + Rev(i / 2, h);
    } else {
      assert (i + 1) / 2 == i / 2 + 1 && (i + 1) % 2 == 0;
      assert h > 1;
      ReversedIncrementIsRev(i / 2, h);
      assert Rev(i, n) == h + Rev(i / 2, h);
    }
  }

  // ---------- the reference transform ----------

  /** The first `m` terms of bin `k`: the sum of x[j] * w^(j k). */
  function PartialBin(x: seq<Complex>, w: Complex, k: nat, m: nat): Complex
    requires m <= |x|
  {
    if m == 0 then ZERO
    else Add(PartialBin(x, w, k, m - 1), Mul(x[m - 1], Pow(w, (m - 1) * k)))
  }

  /** Bin `k` of the discrete Fourier transform of `x` for the root `w`. */
  function Bin(x: seq<Complex>, w: Complex, k: nat): Complex {
    PartialBin(x, w, k, |x|)
  }

  /** The polynomial with coefficients `x` at `z`. */
  function Eval(x: seq<Complex>, z: Complex): Complex {
    if x == [] then ZERO else Add(x[0], Mul(z, Eval(x[1..], z)))
  }

  lemma {:induction false} EvalSnoc(x: seq<Complex>, a: Complex, z: Complex)
    ensures Eval(x + [a], z) == Add(Eval(x, z), Mul(a, Pow(z, |x|)))
  {
    if x == [] {
      assert x + [a] == [a];
      assert [a][1..] == [];
      assert Eval([a], z) == Add(a, Mul(z, Eval([], z)));
      MulOne(z);
      MulOne(a);
    } else {
      var rest := x[1..];
      assert (x + [a])[1..] == rest + [a];
      EvalSnoc(rest, a, z);
      var p := Pow(z, |rest|);
      assert Pow(z, |x|) == Mul(p, z);
      MulAddLeft(z, Eval(rest, z), Mul(a, p));
      MulComm(z, Mul(a, p));
      MulAssoc(a, p, z);
      AddAssoc(x[0], Mul(z, Eval(rest, z)), Mul(a, Pow(z, |x|)));
    }
  }

  lemma AddAssoc(a: Complex, b: Complex, c: Complex)
    ensures Add(Add(a, b), c) == Add(a, Add(b, c))
  {
  }

  lemma {:induction false} EvalIsPartialBin(x: seq<Complex>, w: Complex, k: nat, m: nat)
    requires m <= |x|
    ensures Eval(x[..m], Pow(w, k)) == PartialBin(x, w, k, m)
  {
    if m > 0 {
      EvalIsPartialBin(x, w, k, m - 1);
      assert x[..m] == x[..m - 1] + [x[m - 1]];
      EvalSnoc(x[..m - 1], x[m - 1], Pow(w, k));
      PowPow(w, k, m - 1);
      assert k * (m - 1) == (m - 1) * k;
    }
  }

  /** Polynomial evaluation at a power of the root is the transform. */
  lemma EvalIsBin(x: seq<Complex>, w: Complex, k: nat)
    ensures Eval(x, Pow(w, k)) == Bin(x, w, k)
  {
    EvalIsPartialBin(x, w, k, |x|);
    assert x[..|x|] == x;
  }

  // ---------- decimation in time ----------

  function Evens(x: seq<Complex>): (r: seq<Complex>)
    ensures |r| == |x| / 2
  {
    seq(|x| / 2, i requires 0 <= i < |x| / 2 => x[2 * i])
  }

  function Odds(x: seq<Complex>): (r: seq<Complex>)
    ensures |r| == |x| / 2
  {
    seq(|x| / 2, i requires 0 <= i < |x| / 2 => x[2 * i + 1])
  }

  lemma EvalCons(x: seq<Complex>, z: Complex)
    requires |x| >= 2
    ensures Eval(x, z) == Add(x[0], Mul(z, Add(x[1], Mul(z, Eval(x[2..], z)))))
  {
    hide Add, Mul;
    assert x[1..][1..] == x[2..];
  }

  lemma HalvesCons(x: seq<Complex>, y: Complex)
    requires |x| >= 2
    ensures Eval(Evens(x), y) == Add(x[0], Mul(y, Eval(Evens(x[2..]), y)))
    ensures Eval(Odds(x), y) == Add(x[1], Mul(y, Eval(Odds(x[2..]), y)))
  {
    hide Add, Mul;
    assert Evens(x)[1..] == Evens(x[2..]);
    assert Odds(x)[1..] == Odds(x[2..]);
  }

  /** A transform splits into the transforms of the even and of the odd samples. */
  lemma {:induction false} EvalSplit(x: seq<Complex>, z: Complex)
    requires |x| % 2 == 0
    ensures Eval(x, z) == Add(Eval(Evens(x), Mul(z, z)), Mul(z, Eval(Odds(x), Mul(z, z))))
  {
    if x == [] {
      MulOne(z);
    } else {
      hide Add, Mul, Eval;
      var y := Mul(z, z);
      EvalSplit(x[2..], z);
      EvalCons(x, z);
      HalvesCons(x, y);
      SplitAlgebra(x[0], x[1], Eval(Evens(x[2..]), y), Eval(Odds(x[2..]), y), z);
    }
  }

  lemma SplitAlgebra(a: Complex, b: Complex, e: Complex, o: Complex, z: Complex)
    ensures Add(a, Mul(z, Add(b, Mul(z, Add(e, Mul(z, o))))))
         == Add(Add(a, Mul(Mul(z, z), e)), Mul(z, Add(b, Mul(Mul(z, z), o))))
  {
    MulAddLeft(z, e, Mul(z, o));
    MulAddLeft(z, b, Add(Mul(z, e), Mul(z, Mul(z, o))));
    MulAddLeft(z, Mul(z, e), Mul(z, Mul(z, o)));
    MulAssoc(z, z, e);
    MulAssoc(z, z, o);
    MulAddLeft(z, b, Mul(Mul(z, z), o));
    AddShuffle(a, Mul(z, b), Mul(Mul(z, z), e), Mul(z, Mul(Mul(z, z), o)));
  }

  lemma AddShuffle(a: Complex, b: Complex, c: Complex, d: Complex)
    ensures Add(a, Add(b, Add(c, d))) == Add(Add(a, c), Add(b, d))
  {
  }

  /** Where block `b` of blocks of `length` samples starts. */
  function Offset(b: nat, length: nat): nat {
    if b == 0 then 0 else Offset(b - 1, length) + length
  }

  /** Two short blocks take the place of one long block. */
  lemma {:induction false} OffsetHalves(b: nat, half: nat)
    ensures Offset(2 * b, half) == Offset(b, 2 * half)
  {
    if b > 0 {
      OffsetHalves(b - 1, half);
      assert Offset(2 * b, half) == Offset(2 * b - 1, half) + half;
    }
  }

  lemma {:induction false} OffsetInside(b: nat, m: nat, length: nat)
    requires b < m
    ensures Offset(b, length) + length <= Offset(m, length)
  {
    if b + 1 < m {
      OffsetInside(b, m - 1, length);
    }
  }

  lemma {:induction false} OffsetUnits(b: nat)
    ensures Offset(b, 1) == b
  {
    if b > 0 {
      OffsetUnits(b - 1);
    }
  }

  /** The samples whose transform block `b` of `m` blocks holds. */
  function Decimate(x: seq<Complex>, b: nat, m: nat): seq<Complex>
    requires IsPow2(m) && b < m
    decreases m
  {
    if m == 1 then x
    else if b % 2 == 0 then Evens(Decimate(x, b / 2, m / 2))
    else Odds(Decimate(x, b / 2, m / 2))
  }

  lemma {:induction false} DecimateLength(x: seq<Complex>, b: nat, m: nat, length: nat)
    requires IsPow2(m) && b < m && |x| == Offset(m, length)
    ensures |Decimate(x, b, m)| == length
    decreases m
  {
    if m == 1 {
      assert Offset(1, length) == Offset(0, length) + length;
    } else {
      OffsetHalves(m / 2, length);
      DecimateLength(x, b / 2, m / 2, 2 * length);
    }
  }

  /** Block `b` starts at the reversal of `b` and takes every m-th sample. */
  lemma {:induction false} DecimateAt(x: seq<Complex>, b: nat, m: nat, length: nat, j: nat)
    requires IsPow2(m) && b < m && |x| == Offset(m, length) && j < length
    ensures |Decimate(x, b, m)| == length
    ensures Rev(b, m) + Offset(j, m) < |x|
    ensures Decimate(x, b, m)[j] == x[Rev(b, m) + Offset(j, m)]
    decreases m
  {
    DecimateLength(x, b, m, length);
    if m == 1 {
      OffsetUnits(j);
    } else {
      var h := m / 2;
      var i := 2 * j + b % 2;
      OffsetHalves(h, length);
      OffsetHalves(j, h);
      DecimateAt(x, b / 2, h, 2 * length, i);
      if b % 2 == 1 {
        assert Offset(i, h) == Offset(2 * j, h) + h;
      }
      assert Decimate(x, b, m)[j] == Decimate(x, b / 2, h)[i];
    }
  }

  // ---------- the passes ----------

  /** The roots of unity the firmware takes from cosine and sine: base(L) stands for exp(-2 pi i / L). */
  ghost predicate Roots(base: nat -> Complex) {
    && base(2) == Neg(ONE)
    && forall half: nat {:trigger IsPow2(half)} :: half >= 2 && IsPow2(half) ==>
         Mul(base(2 * half), base(2 * half)) == base(half)
  }

  /** Half a turn is minus one. */
  lemma {:induction false} HalfTurn(base: nat -> Complex, half: nat)
    requires Roots(base) && IsPow2(half)
    ensures Pow(base(2 * half), half) == Neg(ONE)
    decreases half
  {
    var w := base(2 * half);
    if half == 1 {
      assert Pow(w, 1) == Mul(Pow(w, 0), w);
      MulOne(w);
    } else {
      HalfTurn(base, half / 2);
      PowTwo(w);
      PowPow(w, 2, half / 2);
    }
  }

  lemma PowTwo(w: Complex)
    ensures Pow(w, 2) == Mul(w, w)
  {
    assert Pow(w, 1) == Mul(ONE, w);
    MulOne(w);
  }

  /** What block `b` of the buffer holds after the pass of length `length`, `m` blocks in all. */
  ghost predicate BlockDone(x: seq<Complex>, s: seq<Complex>, length: nat, m: nat, b: nat, w: Complex)
    requires IsPow2(m) && b < m && |x| == |s| == Offset(m, length)
  {
    OffsetInside(b, m, length);
    forall i: nat :: i < length ==> s[Offset(b, length) + i] == Eval(Decimate(x, b, m), Pow(w, i))
  }

  lemma {:induction false} SquareOfPow(w: Complex, i: nat)
    ensures Mul(Pow(w, i), Pow(w, i)) == Pow(Mul(w, w), i)
  {
    if i == 0 {
      MulOne(ONE);
    } else {
      SquareOfPow(w, i - 1);
      MulSwap(Pow(w, i - 1), w, Pow(w, i - 1), w);
    }
  }

  lemma NegAlgebra(e: Complex, o: Complex, z: Complex)
    ensures Mul(Neg(ONE), z) == Neg(z)
    ensures Mul(Neg(z), Neg(z)) == Mul(z, z)
    ensures Add(e, Mul(Neg(z), o)) == Sub(e, Mul(o, z))
    ensures Add(e, Mul(z, o)) == Add(e, Mul(o, z))
  {
  }

  /** One butterfly joins two bins of length `half` into two bins of twice the length. */
  lemma Butterfly(x: seq<Complex>, base: nat -> Complex, half: nat, m: nat, b: nat, i: nat)
    requires Roots(base) && IsPow2(half) && IsPow2(m) && b < m && i < half
    requires |x| == Offset(2 * m, half)
    ensures var w := base(2 * half);
            var e := Eval(Decimate(x, 2 * b, 2 * m), Pow(base(half), i));
            var o := Mul(Eval(Decimate(x, 2 * b + 1, 2 * m), Pow(base(half), i)), Pow(w, i));
            && Add(e, o) == Eval(Decimate(x, b, m), Pow(w, i))
            && Sub(e, o) == Eval(Decimate(x, b, m), Pow(w, half + i))
  {
    hide Add, Sub, Mul, Pow;
    OffsetHalves(m, half);
    DecimateLength(x, b, m, 2 * half);
    DecimateChildren(x, b, m);
    RootPowers(base, half, i);
    EvalButterfly(Decimate(x, b, m), Pow(base(2 * half), i));
  }

  lemma DecimateChildren(x: seq<Complex>, b: nat, m: nat)
    requires IsPow2(m) && b < m
    ensures Decimate(x, 2 * b, 2 * m) == Evens(Decimate(x, b, m))
    ensures Decimate(x, 2 * b + 1, 2 * m) == Odds(Decimate(x, b, m))
  {
    assert (2 * b) / 2 == b && (2 * b + 1) / 2 == b;
    assert (2 * b) % 2 == 0 && (2 * b + 1) % 2 == 1;
  }

  lemma RootPowers(base: nat -> Complex, half: nat, i: nat)
    requires Roots(base) && IsPow2(half) && i < half
    ensures var z := Pow(base(2 * half), i);
            Mul(z, z) == Pow(base(half), i) && Pow(base(2 * half), half + i) == Neg(z)
  {
    RootSquare(base, half, i);
    HalfTurn(base, half);
    PowAdd(base(2 * half), half, i);
    NegAlgebra(ONE, ONE, Pow(base(2 * half), i));
  }

  lemma RootSquare(base: nat -> Complex, half: nat, i: nat)
    requires Roots(base) && IsPow2(half) && i < half
    ensures Mul(Pow(base(2 * half), i), Pow(base(2 * half), i)) == Pow(base(half), i)
  {
    if half == 1 {
      assert i == 0;
      MulOne(ONE);
    } else {
      SquareOfPow(base(2 * half), i);
    }
  }

  lemma EvalButterfly(d: seq<Complex>, z: Complex)
    requires |d| % 2 == 0
    ensures var e, o := Eval(Evens(d), Mul(z, z)), Mul(Eval(Odds(d), Mul(z, z)), z);
            Eval(d, z) == Add(e, o) && Eval(d, Neg(z)) == Sub(e, o)
  {
    hide Add, Sub, Mul, Pow;
    EvalSplit(d, z);
    EvalSplit(d, Neg(z));
    NegAlgebra(Eval(Evens(d), Mul(z, z)), Eval(Odds(d), Mul(z, z)), z);
  }

  /** What one butterfly of block `b` does to the buffer. */
  ghost predicate Joined(s: seq<Complex>, t: seq<Complex>, half: nat, b: nat, i: nat, w: Complex) {
    var even, odd := Offset(b, 2 * half) + i, Offset(b, 2 * half) + half + i;
    && even < |s| && odd < |s| && |s| == |t|
    && t[even] == Add(s[even], Mul(s[odd], Pow(w, i)))
    && t[odd] == Sub(s[even], Mul(s[odd], Pow(w, i)))
  }

  /** The effect of one pass on the buffer: every butterfly of `m` blocks of `2 * half` samples. */
  ghost predicate PassDone(s: seq<Complex>, t: seq<Complex>, half: nat, m: nat, w: Complex) {
    forall b: nat, i: nat :: b < m && i < half ==> Joined(s, t, half, b, i, w)
  }

  /** A pass turns finished blocks of length `half` into finished blocks of twice the length. */
  lemma PassLifts(x: seq<Complex>, s: seq<Complex>, t: seq<Complex>, base: nat -> Complex,
                  half: nat, m: nat, b: nat)
    requires Roots(base) && IsPow2(half) && IsPow2(m) && b < m
    requires |x| == |s| == |t| == Offset(2 * m, half) == Offset(m, 2 * half)
    requires PassDone(s, t, half, m, base(2 * half))
    requires BlockDone(x, s, half, 2 * m, 2 * b, base(half))
    requires BlockDone(x, s, half, 2 * m, 2 * b + 1, base(half))
    ensures BlockDone(x, t, 2 * half, m, b, base(2 * half))
  {
    hide Add, Sub, Mul, Pow;
    OffsetInside(b, m, 2 * half);
    forall k: nat | k < 2 * half
      ensures t[Offset(b, 2 * half) + k] == Eval(Decimate(x, b, m), Pow(base(2 * half), k))
    {
      var i := if k < half then k else k - half;
      assert Joined(s, t, half, b, i, base(2 * half));
      PassLiftsAt(x, s, t, base, half, m, b, i);
    }
  }

  lemma PassLiftsAt(x: seq<Complex>, s: seq<Complex>, t: seq<Complex>, base: nat -> Complex,
                    half: nat, m: nat, b: nat, i: nat)
    requires Roots(base) && IsPow2(half) && IsPow2(m) && b < m && i < half
    requires |x| == |s| == |t| == Offset(2 * m, half)
    requires Joined(s, t, half, b, i, base(2 * half))
    requires BlockDone(x, s, half, 2 * m, 2 * b, base(half))
    requires BlockDone(x, s, half, 2 * m, 2 * b + 1, base(half))
    ensures Offset(b, 2 * half) + half + i < |t|
    ensures var w := base(2 * half);
            && t[Offset(b, 2 * half) + i] == Eval(Decimate(x, b, m), Pow(w, i))
            && t[Offset(b, 2 * half) + half + i] == Eval(Decimate(x, b, m), Pow(w, half + i))
  {
    hide Add, Sub, Mul, Pow, Eval, Decimate, Rev;
    OffsetHalves(b, half);
    OffsetNext(2 * b, half);
    BlockAt(x, s, half, 2 * m, 2 * b, base(half), i);
    BlockAt(x, s, half, 2 * m, 2 * b + 1, base(half), i);
    hide BlockDone, Offset;
    Butterfly(x, base, half, m, b, i);
  }

  lemma OffsetNext(b: nat, length: nat)
    ensures Offset(b + 1, length) == Offset(b, length) + length
  {
  }

  lemma BlockAt(x: seq<Complex>, s: seq<Complex>, length: nat, m: nat, b: nat, w: Complex, i: nat)
    requires IsPow2(m) && b < m && i < length && |x| == |s| == Offset(m, length)
    requires BlockDone(x, s, length, m, b, w)
    ensures Offset(b, length) + i < |s|
    ensures s[Offset(b, length) + i] == Eval(Decimate(x, b, m), Pow(w, i))
  {
    OffsetInside(b, m, length);
  }

  lemma EvalSingle(d: seq<Complex>, z: Complex)
    requires |d| == 1
    ensures Eval(d, z) == d[0]
  {
    assert d[1..] == [];
    MulOne(z);
  }

  /** Before the first pass: the samples in bit-reversed order are finished blocks of length one. */
  lemma FirstBlocks(x: seq<Complex>, s: seq<Complex>, n: nat, b: nat, w: Complex)
    requires IsPow2(n) && |x| == |s| == n == Offset(n, 1) && b < n
    requires s[b] == x[Rev(b, n)]
    ensures BlockDone(x, s, 1, n, b, w)
  {
    DecimateAt(x, b, n, 1, 0);
    OffsetUnits(b);
    EvalSingle(Decimate(x, b, n), Pow(w, 0));
  }

  /** After the last pass one block is left, and it holds the transform. */
  lemma LastBlock(x: seq<Complex>, s: seq<Complex>, n: nat, w: Complex, k: nat)
    requires |x| == |s| == n == Offset(1, n) && k < n
    requires BlockDone(x, s, n, 1, 0, w)
    ensures s[k] == Bin(x, w, k)
  {
    OffsetInside(0, 1, n);
    assert Offset(0, n) + k == k;
    EvalIsBin(x, w, k);
  }

  /** Every block of the buffer is finished. */
  ghost predicate BlocksDone(x: seq<Complex>, s: seq<Complex>, length: nat, m: nat, w: Complex)
    requires IsPow2(m) && |x| == |s| == Offset(m, length)
  {
    forall b: nat :: b < m ==> BlockDone(x, s, length, m, b, w)
  }

  lemma AllPassLifts(x: seq<Complex>, s: seq<Complex>, t: seq<Complex>, base: nat -> Complex, half: nat, m: nat)
    requires Roots(base) && IsPow2(half) && IsPow2(m) && IsPow2(2 * m)
    requires |x| == |s| == |t| == Offset(2 * m, half) == Offset(m, 2 * half)
    requires PassDone(s, t, half, m, base(2 * half))
    requires BlocksDone(x, s, half, 2 * m, base(half))
    ensures BlocksDone(x, t, 2 * half, m, base(2 * half))
  {
    hide PassDone, BlockDone;
    forall b: nat | b < m
      ensures BlockDone(x, t, 2 * half, m, b, base(2 * half))
    {
      PassLifts(x, s, t, base, half, m, b);
    }
  }

  lemma AllFirstBlocks(x: seq<Complex>, s: seq<Complex>, n: nat, w: Complex)
    requires IsPow2(n) && |x| == |s| == n
    requires forall b: nat :: b < n ==> s[b] == x[Rev(b, n)]
    ensures n == Offset(n, 1) && BlocksDone(x, s, 1, n, w)
  {
    hide BlockDone, Rev;
    OffsetUnits(n);
    forall b: nat | b < n
      ensures BlockDone(x, s, 1, n, b, w)
    {
      FirstBlocks(x, s, n, b, w);
    }
  }

  lemma AllBins(x: seq<Complex>, s: seq<Complex>, n: nat, w: Complex)
    requires |x| == |s| == n == Offset(1, n) && BlocksDone(x, s, n, 1, w)
    ensures forall k: nat :: k < n ==> s[k] == Bin(x, w, k)
  {
    assert BlockDone(x, s, n, 1, 0, w);
    hide BlockDone, Bin;
    forall k: nat | k < n
      ensures s[k] == Bin(x, w, k)
    {
      LastBlock(x, s, n, w, k);
    }
  }

  // ---------- real input ----------

  /** A full turn is one. */
  lemma FullTurn(base: nat -> Complex, n: nat)
    requires Roots(base) && IsPow2(n) && n >= 2
    ensures Pow(base(n), n) == ONE
  {
    hide Mul, Neg, Pow, Roots;
    HalfTurn(base, n / 2);
    PowAdd(base(n), n / 2, n / 2);
    TwoHalfTurns();
  }

  lemma TwoHalfTurns()
    ensures Mul(Neg(ONE), Neg(ONE)) == ONE
  {
  }

  lemma {:induction false} EvalConj(x: seq<Complex>, z: Complex)
    requires forall i :: 0 <= i < |x| ==> x[i].im == 0.0
    ensures Eval(x, Conj(z)) == Conj(Eval(x, z))
  {
    if x != [] {
      EvalConj(x[1..], z);
      ConjMul(z, Eval(x[1..], z));
      ConjAdd(x[0], Mul(z, Eval(x[1..], z)));
    }
  }

  lemma ConjAdd(a: Complex, b: Complex)
    ensures Conj(Add(a, b)) == Add(Conj(a), Conj(b))
  {
  }

  /** The mirrored power of a root is the conjugate power. */
  lemma MirrorPow(w: Complex, n: nat, k: nat)
    requires NormSquared(w) == 1.0 && Pow(w, n) == ONE && k <= n
    ensures Pow(w, n - k) == Conj(Pow(w, k))
  {
    hide Mul, Conj, Pow;
    var p, q := Pow(w, n - k), Pow(w, k);
    UnitPow(w, k);
    PowAdd(w, n - k, k);
    MulAssoc(p, q, Conj(q));
    MulOne(p);
    MulOne(Conj(q));
  }

  /** For samples without imaginary part, bin n - k is the conjugate of bin k. */
  lemma ConjugateBins(x: seq<Complex>, base: nat -> Complex, n: nat, k: nat)
    requires Roots(base) && IsPow2(n) && n >= 2 && NormSquared(base(n)) == 1.0
    requires forall i :: 0 <= i < |x| ==> x[i].im == 0.0
    requires k <= n
    ensures Bin(x, base(n), n - k) == Conj(Bin(x, base(n), k))
  {
    FullTurn(base, n);
    MirrorPow(base(n), n, k);
    EvalIsBin(x, base(n), n - k);
    EvalIsBin(x, base(n), k);
    EvalConj(x, Pow(base(n), k));
  }
}
