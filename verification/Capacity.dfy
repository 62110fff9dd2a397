/** The capacities that netbridge/Buffer.cc hands out, and what growing along them costs. */
module Capacity {
  function Pow2(k: nat): (p: nat)
    ensures p > 0
  {
    if k == 0 then 1 else 2 * Pow2(k - 1)
  }

  /** 63, given by what it is and not as a numeral, so that no proof computes with the number 2^63. */
  type Exponent = k: nat | k + 1 == 64 witness 63
  const TOP_BIT: Exponent
  const TOP: nat := Pow2(TOP_BIT)

  /** std::size_t, of 64 bits. */
  type Size = n: nat | n < 2 * TOP

  /** Buffer::kMaxBufferSize, half of the largest size_t. */
  const MAXSIZE: nat := TOP - 1
  const DEFAULT: nat := 256

  lemma {:induction false} Pow2Add(i: nat, j: nat)
    ensures Pow2(i + j) == Pow2(i) * Pow2(j)
  {
    if i > 0 { Pow2Add(i - 1, j); }
  }

  lemma TopValue()
    ensures TOP == 0x8000_0000_0000_0000 && MAXSIZE == 0x7FFF_FFFF_FFFF_FFFF
  {
    assert Pow2(7) == 128;
    Pow2Add(7, 7);
    Pow2Add(14, 7);
    Pow2Add(21, 21);
    Pow2Add(42, 21);
    assert TOP_BIT == 42 + 21;
  }

  /** It is far more than the default. */
  lemma TopLarge()
    ensures IsPow2(TOP) && TOP >= 0x4000
  {
    assert TOP == Pow2(TOP_BIT);
    TopValue();
  }

  ghost predicate IsPow2(n: nat) {
    exists k: nat :: n == Pow2(k)
  }

  /** 3 * 2^k for some k */
  ghost predicate IsTriple(n: nat) {
    exists k: nat :: n == 3 * Pow2(k)
  }

  ghost predicate Grid(n: nat) {
    n == 0 || IsPow2(n) || IsTriple(n)
  }

  lemma {:induction false} GapAt(i: nat, j: nat)
    requires Pow2(i) < Pow2(j)
    ensures 2 * Pow2(i) <= Pow2(j)
  {
    if i > 0 && j > 0 { GapAt(i - 1, j - 1); }
  }

  lemma Pow2Gap(a: nat, b: nat)
    requires IsPow2(a) && IsPow2(b) && a < b
    ensures 2 * a <= b
  {
    var i: nat :| a == Pow2(i);
    var j: nat :| b == Pow2(j);
    GapAt(i, j);
  }

  lemma {:induction false} NotTripleAt(k: nat)
    ensures Pow2(k) % 3 != 0
  {
    if k > 0 {
      NotTripleAt(k - 1);
      var p := Pow2(k - 1);
      var q, r := p / 3, p % 3;
      assert 2 * p == 3 * (2 * q) + 2 * r;
    }
  }

  lemma NotBoth(n: nat)
    ensures !(IsPow2(n) && IsTriple(n))
  {
    if IsPow2(n) && IsTriple(n) {
      var k: nat :| n == Pow2(k);
      var j: nat :| n == 3 * Pow2(j);
      NotTripleAt(k);
      assert false;
    }
  }

  lemma One()
    ensures IsPow2(1)
  {
    assert 1 == Pow2(0);
  }

  lemma Twice(n: nat)
    requires IsPow2(n)
    ensures IsPow2(2 * n)
  {
    var k: nat :| n == Pow2(k);
    assert 2 * n == Pow2(k + 1);
  }

  lemma Halved(n: nat)
    requires IsPow2(n) && n > 1
    ensures n == 2 * (n / 2) && IsPow2(n / 2)
  {
    var k: nat :| n == Pow2(k);
    assert n / 2 == Pow2(k - 1);
  }

  lemma Times8(n: nat)
    requires IsPow2(n)
    ensures IsPow2(8 * n)
  {
    Twice(n);
    Twice(2 * n);
    Twice(4 * n);
  }

  lemma Times128(n: nat)
    requires IsPow2(n)
    ensures IsPow2(128 * n)
  {
    Times8(n);
    Times8(8 * n);
    Twice(64 * n);
  }

  /** The least power of two that is no smaller, for sizes up to 2^63; 0 for 0. */
  function RoundUp(size: nat): (r: nat)
    requires size <= MAXSIZE + 1
  {
    if size == 0 then 0 else Doubled(1, size)
  }

  function Doubled(p: nat, size: nat): nat
    requires p > 0
    decreases size - p
  {
    if p < size then Doubled(2 * p, size) else p
  }

  lemma {:induction false} DoubledIs(p: nat, size: nat)
    requires IsPow2(p) && p < 2 * size
    ensures var r := Doubled(p, size); IsPow2(r) && size <= r < 2 * size
    decreases size - p
  {
    if p < size {
      Twice(p);
      DoubledIs(2 * p, size);
    }
  }

  lemma RoundUpIs(size: nat, r: nat)
    requires 0 < size <= MAXSIZE + 1
    ensures r == RoundUp(size) <==> IsPow2(r) && size <= r < 2 * size
  {
    One();
    DoubledIs(1, size);
    var d := RoundUp(size);
    if IsPow2(r) && size <= r < 2 * size && r != d {
      if r < d { Pow2Gap(r, d); } else { Pow2Gap(d, r); }
    }
  }

  lemma Default()
    ensures IsPow2(DEFAULT) && Grid(DEFAULT) && !IsTriple(DEFAULT)
  {
    One();
    Times128(1);
    Twice(128);
    NotBoth(DEFAULT);
  }

  /** A smaller power of two is at most half of 2^63. */
  lemma Pow2Top(n: nat)
    requires IsPow2(n) && n <= MAXSIZE
    ensures 2 * n <= MAXSIZE + 1
  {
    TopLarge();
    Pow2Gap(n, TOP);
  }

  /** Half of the least power of two that is no smaller than `c`. */
  function Half(p: nat, c: nat): nat
    requires p > 0
    decreases c - p
  {
    if 2 * p < c then Half(2 * p, c) else p
  }

  lemma {:induction false} HalfIs(p: nat, c: nat)
    requires p > 0
    ensures Doubled(2 * p, c) == 2 * Half(p, c)
    decreases c - p
  {
    if 2 * p < c { HalfIs(2 * p, c); }
  }

  lemma RoundUpHalf(c: nat)
    requires 2 <= c <= MAXSIZE + 1
    ensures RoundUp(c) == 2 * Half(1, c)
  {
    HalfIs(1, c);
  }

  /** One round of the loop of AssureSpace: up to a power of two, or by half of one. */
  function NextCap(c: nat): nat {
    if c < DEFAULT then DEFAULT
    else
      var h := Half(1, c);
      if c < 2 * h then 2 * h else 3 * h
  }

  lemma NextFromPow2(q: nat)
    requires IsPow2(q) && DEFAULT <= 2 * q <= MAXSIZE
    ensures RoundUp(2 * q) == 2 * q && NextCap(2 * q) == 3 * q <= MAXSIZE + 1
  {
    Twice(q);
    RoundUpIs(2 * q, 2 * q);
    RoundUpHalf(2 * q);
    Pow2Top(2 * q);
  }

  lemma NextFromTriple(q: nat)
    requires IsPow2(q) && DEFAULT <= 3 * q <= MAXSIZE
    ensures IsPow2(4 * q) && NextCap(3 * q) == 4 * q <= MAXSIZE + 1
  {
    Twice(q);
    Twice(2 * q);
    Pow2Top(q);
    Pow2Top(2 * q);
    RoundUpIs(3 * q, 4 * q);
    RoundUpHalf(3 * q);
  }

  /** From the default on the growth is by 3/2 from a power of two, by 4/3 to one. */
  lemma NextCapIs(c: nat)
    requires Grid(c) && DEFAULT <= c <= MAXSIZE
    ensures IsPow2(c) ==> 2 * NextCap(c) == 3 * c && IsTriple(NextCap(c))
    ensures !IsPow2(c) ==> 3 * NextCap(c) == 4 * c && IsPow2(NextCap(c))
    ensures c < NextCap(c) <= MAXSIZE + 1 && 2 * NextCap(c) <= 3 * c
  {
    if IsPow2(c) {
      Halved(c);
      NextFromPow2(c / 2);
    } else {
      var k: nat :| c == 3 * Pow2(k);
      NextFromTriple(Pow2(k));
    }
  }

  /** The loop of AssureSpace: the first capacity on the way from `c` that is at least `required`. */
  function GrowTo(c: nat, required: nat): (r: nat)
    requires Grid(c) && c <= MAXSIZE + 1 && required <= MAXSIZE + 1
    ensures c <= r <= MAXSIZE + 1 && required <= r && Grid(r)
    decreases MAXSIZE + 1 - c
  {
    if c >= required then c
    else if c < DEFAULT then
      assert IsPow2(DEFAULT) by { Default(); }
      TopLarge();
      GrowTo(DEFAULT, required)
    else
      NextCapIs(c);
      GrowTo(NextCap(c), required)
  }

  /** A buffer that grew beyond the default is less than half larger than it had to be. */
  lemma {:induction false} GrowthTight(c: nat, required: nat)
    requires Grid(c) && c < required <= MAXSIZE + 1 && GrowTo(c, required) > DEFAULT
    ensures 2 * GrowTo(c, required) < 3 * required
    decreases MAXSIZE + 1 - c
  {
    if c < DEFAULT {
      Default();
      if DEFAULT < required { GrowthTight(DEFAULT, required); }
    } else {
      NextCapIs(c);
      if NextCap(c) < required { GrowthTight(NextCap(c), required); }
    }
  }

  // ---- where growth ends, wherever it began ----

  /** `a` and `b` are two neighbours among the capacities; two steps double a capacity. */
  function Climb(a: nat, b: nat, required: nat): nat
    requires 0 < a < b < 2 * a
    decreases required - a
  {
    if required <= a then a else Climb(b, 2 * a, required)
  }

  function Fit(required: nat): nat {
    Climb(DEFAULT, 384, required)
  }

  lemma NextNext(c: nat)
    requires Grid(c) && DEFAULT <= c <= MAXSIZE && NextCap(c) <= MAXSIZE
    ensures NextCap(NextCap(c)) == 2 * c
  {
    NextCapIs(c);
    NextNot(c);
    NextCapIs(NextCap(c));
  }

  lemma NextNot(c: nat)
    requires Grid(c) && DEFAULT <= c <= MAXSIZE
    ensures IsPow2(c) <==> IsTriple(NextCap(c))
    ensures IsPow2(c) <==> !IsPow2(NextCap(c))
  {
    NextCapIs(c);
    var n := NextCap(c);
    NotBoth(n);
  }

  /** There is no capacity between one and the next. */
  lemma NextIsNext(a: nat, c: nat)
    requires Grid(a) && Grid(c) && DEFAULT <= a < c && a <= MAXSIZE
    ensures NextCap(a) <= c
  {
    NextCapIs(a);
    if IsPow2(a) {
      if IsPow2(c) { Pow2Gap(a, c); } else { PowThenTriple(a, c); }
    } else {
      if IsPow2(c) { TripleThenPow(a, c); } else { TripleThenTriple(a, c); }
    }
  }

  lemma PowThenTriple(a: nat, c: nat)
    requires IsPow2(a) && IsTriple(c) && 1 < a < c
    ensures 3 * a <= 2 * c
  {
    var k: nat :| c == 3 * Pow2(k);
    assert Pow2(k + 2) == 2 * Pow2(k + 1) == 4 * Pow2(k);
    Pow2Gap(a, Pow2(k + 2));
  }

  lemma TripleThenPow(a: nat, c: nat)
    requires IsTriple(a) && IsPow2(c) && a < c
    ensures 4 * a <= 3 * c
  {
    var k: nat :| a == 3 * Pow2(k);
    assert Pow2(k + 1) == 2 * Pow2(k);
    Pow2Gap(Pow2(k + 1), c);
  }

  lemma TripleThenTriple(a: nat, c: nat)
    requires IsTriple(a) && IsTriple(c) && a < c
    ensures 4 * a <= 3 * c
  {
    var i: nat :| a == 3 * Pow2(i);
    var j: nat :| c == 3 * Pow2(j);
    GapAt(i, j);
  }

  lemma {:induction false} GrowIsClimb(c: nat, required: nat)
    requires Grid(c) && DEFAULT <= c < required <= MAXSIZE + 1
    ensures c < NextCap(c) < 2 * c && GrowTo(c, required) == Climb(c, NextCap(c), required)
    decreases MAXSIZE + 1 - c
  {
    NextCapIs(c);
    var n := NextCap(c);
    if n < required {
      NextNext(c);
      GrowIsClimb(n, required);
    }
  }

  lemma {:induction false} ClimbFrom(a: nat, c: nat, required: nat)
    requires Grid(a) && Grid(c) && DEFAULT <= a <= c < required <= MAXSIZE + 1
    ensures a < NextCap(a) < 2 * a && c < NextCap(c) < 2 * c
    ensures Climb(a, NextCap(a), required) == Climb(c, NextCap(c), required)
    decreases c - a
  {
    NextCapIs(a);
    NextCapIs(c);
    if a < c {
      NextIsNext(a, c);
      NextNext(a);
      ClimbFrom(NextCap(a), c, required);
    }
  }

  lemma DefaultNext()
    ensures Grid(DEFAULT) && NextCap(DEFAULT) == 384 && DEFAULT <= MAXSIZE
  {
    Default();
    TopLarge();
    NextCapIs(DEFAULT);
  }

  /** A buffer that has to grow gets the same capacity whatever capacity it had. */
  lemma GrowIsFit(c: nat, required: nat)
    requires Grid(c) && c < required <= MAXSIZE + 1
    ensures GrowTo(c, required) == Fit(required)
  {
    DefaultNext();
    var d := if c < DEFAULT then DEFAULT else c;
    if d < required {
      GrowIsClimb(d, required);
      ClimbFrom(DEFAULT, d, required);
    }
  }

  /** Namely the least capacity from the default on that is enough. */
  lemma FitLeast(required: nat, c: nat)
    requires 0 < required <= MAXSIZE + 1
    ensures required <= Fit(required) <= MAXSIZE + 1 && Grid(Fit(required)) && DEFAULT <= Fit(required)
    ensures Grid(c) && DEFAULT <= c && required <= c ==> Fit(required) <= c
    ensures Fit(required) > DEFAULT ==> 2 * Fit(required) < 3 * required
  {
    GrowIsFit(0, required);
    DefaultNext();
    FitAtLeast(0, required);
    if Fit(required) > DEFAULT { GrowthTight(0, required); }
    if Grid(c) && DEFAULT <= c && required <= c { ClimbLeast(DEFAULT, required, c); }
  }

  lemma FitOk(required: nat)
    requires required <= MAXSIZE + 1
    ensures required <= Fit(required) <= MAXSIZE + 1 && Grid(Fit(required))
  {
    DefaultNext();
    if required > 0 { FitLeast(required, 0); }
  }

  lemma {:induction false} FitAtLeast(c: nat, required: nat)
    requires Grid(c) && c < required <= MAXSIZE + 1
    ensures GrowTo(c, required) >= DEFAULT
    decreases MAXSIZE + 1 - c
  {
    DefaultNext();
    if DEFAULT <= c { assert GrowTo(c, required) >= c; }
  }

  lemma {:induction false} ClimbLeast(a: nat, required: nat, c: nat)
    requires Grid(a) && Grid(c) && DEFAULT <= a <= c && required <= c && required <= MAXSIZE + 1
    ensures a <= MAXSIZE ==> a < NextCap(a) < 2 * a && Climb(a, NextCap(a), required) <= c
    decreases c - a
  {
    if a <= MAXSIZE {
      NextCapIs(a);
      if a < required {
        NextIsNext(a, c);
        if NextCap(a) <= MAXSIZE {
          NextNext(a);
          ClimbLeast(NextCap(a), required, c);
        }
      }
    }
  }

  // ---- the bytes relocated by pushes alone ----

  /** The size of a buffer: its capacity, the end of the bytes in it, and the bytes it ever copied within itself. */
  datatype Filled = Filled(cap: nat, used: nat, moved: nat) {
    function Plus(bytes: nat): Filled {
      this.(used := used + bytes)
    }
  }

  ghost predicate FilledOk(f: Filled) {
    Grid(f.cap) && f.used <= f.cap <= MAXSIZE + 1
  }

  /** When there is no room for `need` more bytes, the readable ones move to the front, perhaps of a larger array. */
  ghost function WithRoom(f: Filled, readable: nat, need: nat): Filled
  {
    if f.used + need <= f.cap then f
    else Filled(if f.cap < readable + need then Fit(readable + need) else f.cap, readable, f.moved + readable)
  }

  /** A sum of three sizes, as size_t has it. */
  function Wrap(n: nat): Size
    requires n < 6 * TOP
  {
    if n < 2 * TOP then n else if n < 4 * TOP then n - 2 * TOP else n - 4 * TOP
  }

  /** After the call of AssureSpace in PushDataAt. */
  ghost function Roomy(f: Filled, readable: nat, size: Size, offset: Size): Filled {
    WithRoom(f, readable, Wrap(size + offset))
  }

  /** The position to which PushDataAt copies. */
  ghost function Target(f: Filled, readable: nat, size: Size, offset: Size): Size
    requires readable <= f.used <= TOP
  {
    Wrap(Roomy(f, readable, size, offset).used + offset)
  }

  /** PushDataAt neither stops in AssureSpace nor copies outside the array. */
  ghost predicate Fits(f: Filled, readable: nat, size: Size, offset: Size)
    requires readable <= f.used <= TOP
  {
    readable + Wrap(size + offset) <= TOP && Target(f, readable, size, offset) + size <= Roomy(f, readable, size, offset).cap
  }

  /** When the sum of line 39 does not wrap and is below the limit, the bytes go to their offset. */
  lemma PlainTarget(f: Filled, readable: nat, size: Size, offset: Size)
    requires FilledOk(f) && readable <= f.used && readable + size + offset < MAXSIZE
    ensures Roomy(f, readable, size, offset) == WithRoom(f, readable, size + offset) && Fits(f, readable, size, offset)
    ensures Target(f, readable, size, offset) == Roomy(f, readable, size, offset).used + offset
  {
    FitOk(readable + size + offset);
  }

  /** How far before the end of the readable bytes an offset leads that is read as negative. */
  function Back(offset: Size): nat {
    2 * TOP - offset
  }

  /** When it wraps, an offset counts back from the end, if `size` reaches over it and the array begins before. */
  lemma WrappedTarget(f: Filled, readable: nat, size: Size, offset: Size)
    requires FilledOk(f) && readable <= f.used && readable + size + offset >= 2 * TOP
    ensures Fits(f, readable, size, offset) <==>
      Back(offset) <= size && readable + size - Back(offset) <= TOP &&
      Back(offset) <= WithRoom(f, readable, size - Back(offset)).used
    ensures Fits(f, readable, size, offset) ==>
      Roomy(f, readable, size, offset) == WithRoom(f, readable, size - Back(offset)) &&
      Target(f, readable, size, offset) == Roomy(f, readable, size, offset).used - Back(offset)
  {
    if Back(offset) <= size && readable + size - Back(offset) <= TOP {
      FitOk(readable + size - Back(offset));
      assert Wrap(size + offset) == size - Back(offset);
    }
  }

  lemma TargetReaches(f: Filled, readable: nat, size: Size, offset: Size)
    requires FilledOk(f) && readable <= f.used && Wrap(readable + size + offset) < MAXSIZE && Fits(f, readable, size, offset)
    ensures Roomy(f, readable, size, offset).used <= Target(f, readable, size, offset) + size
  {
    if readable + size + offset >= 2 * TOP {
      WrappedTarget(f, readable, size, offset);
    } else {
      PlainTarget(f, readable, size, offset);
    }
  }

  /** One PushData of `size` bytes to a buffer nothing was taken from. */
  ghost function AfterPush(f: Filled, size: nat): Filled {
    WithRoom(f, f.used, size).Plus(size)
  }

  /** What was copied so far, against the capacity; and the bytes pushed are more than the capacity before. */
  ghost predicate Thrifty(f: Filled) {
    FilledOk(f) &&
    (f.cap <= DEFAULT ==> f.moved == 0) && (f.cap < DEFAULT ==> f.cap == 0) &&
    Budget(f.cap, f.moved) && (f.cap > DEFAULT ==> Needed(f.cap, f.used))
  }

  ghost predicate Budget(cap: nat, moved: nat) {
    (IsPow2(cap) ==> 2 * moved <= 5 * cap) && (IsTriple(cap) ==> 3 * moved <= 7 * cap)
  }

  ghost predicate Needed(cap: nat, used: nat) {
    (IsPow2(cap) ==> 4 * used > 3 * cap) && (IsTriple(cap) ==> 3 * used > 2 * cap)
  }

  lemma ThriftyBound(f: Filled)
    requires Thrifty(f) && f.used > 0
    ensures 2 * f.moved < 7 * f.used
  {
  }

  lemma BudgetNext(c: nat, moved: nat, used: nat)
    requires Grid(c) && DEFAULT <= c <= MAXSIZE && used <= c && Budget(c, moved)
    ensures Budget(NextCap(c), moved + used)
  {
    NextCapIs(c);
    NextNot(c);
  }

  lemma {:induction false} Landing(c: nat, moved: nat, required: nat)
    requires Grid(c) && DEFAULT <= c < required <= MAXSIZE + 1 && Budget(NextCap(c), moved)
    ensures var r := GrowTo(c, required); r > DEFAULT && Budget(r, moved) && Needed(r, required)
    decreases MAXSIZE + 1 - c
  {
    NextCapIs(c);
    NextNot(c);
    var n := NextCap(c);
    if n < required {
      NextCapIs(n);
      BudgetNext(n, moved, 0);
      Landing(n, moved, required);
    }
  }

  lemma PushThrifty(f: Filled, size: nat)
    requires Thrifty(f) && f.used + size <= MAXSIZE
    ensures Thrifty(AfterPush(f, size))
  {
    var required := f.used + size;
    if f.cap < required {
      Default();
      GrowIsFit(f.cap, required);
      if f.cap >= DEFAULT {
        BudgetNext(f.cap, f.moved, f.used);
        Landing(f.cap, f.moved + f.used, required);
      } else if DEFAULT < required {
        BudgetNext(DEFAULT, 0, 0);
        Landing(DEFAULT, 0, required);
      } else {
        NotBoth(DEFAULT);
      }
    }
  }

  function Sum(sizes: seq<nat>): nat {
    if sizes == [] then 0 else Sum(sizes[..|sizes| - 1]) + sizes[|sizes| - 1]
  }

  /** An empty new buffer after these pushes. */
  ghost function AfterPushes(sizes: seq<nat>): (f: Filled)
    requires Sum(sizes) <= MAXSIZE
    ensures FilledOk(f) && f.used == Sum(sizes)
  {
    if sizes == [] then Filled(0, 0, 0)
    else
      FitOk(Sum(sizes));
      AfterPush(AfterPushes(sizes[..|sizes| - 1]), sizes[|sizes| - 1])
  }

  /** Pushes alone, from empty, copy less than three and a half times the bytes pushed. */
  lemma {:induction false} Amortised(sizes: seq<nat>)
    requires 0 < Sum(sizes) <= MAXSIZE
    ensures 2 * AfterPushes(sizes).moved < 7 * Sum(sizes)
  {
    PushesThrifty(sizes);
    ThriftyBound(AfterPushes(sizes));
  }

  lemma {:induction false} PushesThrifty(sizes: seq<nat>)
    requires Sum(sizes) <= MAXSIZE
    ensures Thrifty(AfterPushes(sizes))
  {
    if sizes != [] {
      PushesThrifty(sizes[..|sizes| - 1]);
      PushThrifty(AfterPushes(sizes[..|sizes| - 1]), sizes[|sizes| - 1]);
    }
  }
}
