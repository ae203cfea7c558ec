/**
 * The range sampler of src/code_qr_generator/full_cycle_random.py: a
 * register whose width comes from the top of the range, advanced until
 * its value falls in [minInt, maxInt].
 */
module FullCycle {
  import opened Wrappers
  import opened Orbits
  import opened ShiftRegister

  /** floor(log2 n), on integers. */
  function FloorLog2(n: int): (e: nat)
    requires n >= 1
    ensures Pow2(e) <= n < Pow2(e + 1)
    decreases n
  {
    if n < 2 then 0 else 1 + FloorLog2(n / 2)
  }

  /** Pow2 is monotone. */
  lemma {:induction false} Pow2Monotone(a: nat, b: nat)
    requires a <= b
    ensures Pow2(a) <= Pow2(b)
  {
    if a < b {
      Pow2Monotone(a, b - 1);
    }
  }

  /**
   * `int(math.log2(max_int)) or 1`: the width the sampler asks for. It is
   * floor(log2 maxInt), so 2^w <= maxInt < 2^(w+1), except that 0 becomes 1;
   * every maxInt below 4 gives width 1.
   */
  function Width(maxInt: int): (w: nat)
    requires maxInt >= 1
    ensures w >= 1
    ensures maxInt >= 2 ==> Pow2(w) <= maxInt < Pow2(w + 1)
    ensures maxInt < 4 <==> w == 1
  {
    var e := FloorLog2(maxInt);
    assert Pow2(1) == 2 && Pow2(2) == 4;
    if e == 0 then 1
    else if e == 1 then e
    else Pow2Monotone(2, e); e
  }

  /**
   * The register accepts the width exactly when maxInt lies in 4..2^65-1;
   * every maxInt up to 3 asks for width 1, which the table lacks.
   */
  lemma WidthSupported(maxInt: int)
    requires maxInt >= 1
    ensures OptimalTaps(Width(maxInt)).Some? <==> 4 <= maxInt < Pow2(65)
  {
    var w := Width(maxInt);
    TableDomain();
    if w <= 64 {
      Pow2Monotone(w + 1, 65);
    } else {
      Pow2Monotone(65, w);
    }
  }

  /** Seed 1 survives the mask of any positive width. */
  lemma SeedOneFits(bits: nat)
    requires bits >= 1
    ensures 1 % Pow2(bits) == 1
  {
    assert Pow2(1) == 2;
    Pow2Monotone(1, bits);
    var p := Pow2(bits);
    assert 1 == 0 * p + 1;
  }

  /** The errors the sampler raises. */
  datatype SamplerError =
    | MinNotPositive               // min_int <= 0
    | MinAboveMax                  // min_int > max_int
    | RegisterError(e: LfsrError)  // raised by the register it builds

  // ---------------------------------------------------------------------
  // The rejection loop
  // ---------------------------------------------------------------------

  /**
   * When the search over 2^bits register values returns, it returns the
   * first value of the sequence in [lo, hi]; every value before it was out
   * of range.
   */
  lemma SamplerReturnsFirstInRange(bits: int, taps: seq<int>, r: nat, lo: int, hi: int)
    requires bits >= 1 && TapsOk(taps)
    requires Search(Advance(bits, taps), r, lo, hi, Pow2(bits) - 1).Some?
    ensures exists k | 1 <= k <= Pow2(bits) ::
      && FirstInRange(Advance(bits, taps), r, lo, hi, k)
      && Search(Advance(bits, taps), r, lo, hi, Pow2(bits) - 1).value == Iterate(Advance(bits, taps), r, k)
  {
    SearchReturnsFirstInRange(Advance(bits, taps), r, lo, hi, Pow2(bits) - 1);
  }

  /**
   * The loop of `next()` has no bound, but 2^bits register values decide
   * it: the search over them finds nothing exactly when no value of the
   * sequence, however far on, is in [lo, hi], that is, when the source's
   * loop never ends.
   */
  lemma SamplerNeverEnds(bits: int, taps: seq<int>, r: nat, lo: int, hi: int)
    requires bits >= 1 && TapsOk(taps) && r < Pow2(bits)
    ensures Search(Advance(bits, taps), r, lo, hi, Pow2(bits) - 1).None?
        <==> forall n | n >= 1 :: !(lo <= Iterate(Advance(bits, taps), r, n) <= hi)
  {
    var f := Advance(bits, taps);
    var fuel := Pow2(bits) - 1;
    SearchGivesUp(f, r, lo, hi, fuel);
    if Search(f, r, lo, hi, fuel).None? {
      AdvanceStaysBelow(bits, taps);
      SearchFailsForGood(f, Pow2(bits), r, lo, hi, fuel);
    }
  }

  /**
   * No value the sampler draws reaches 2^bits, and 2^bits <= maxInt: the
   * values from 2^bits up to maxInt, maxInt itself among them, never come.
   */
  lemma TopOfRangeNeverDrawn(maxInt: int, taps: seq<int>, r: nat, n: nat)
    requires maxInt >= 2 && TapsOk(taps) && r < Pow2(Width(maxInt))
    ensures Iterate(Advance(Width(maxInt), taps), r, n) < Pow2(Width(maxInt)) <= maxInt
  {
    AdvanceStaysBelow(Width(maxInt), taps);
    IterateStaysBelow(Advance(Width(maxInt), taps), Pow2(Width(maxInt)), r, n);
  }

  /**
   * When the whole range lies at or above 2^bits (min 8, max 10 gives
   * width 3), no value is ever in range and `next()` never returns.
   */
  lemma RangeAboveRegisterNeverHit(bits: int, taps: seq<int>, r: nat, lo: int, hi: int, n: nat)
    requires bits >= 1 && TapsOk(taps) && r < Pow2(bits) && lo >= Pow2(bits)
    ensures !(lo <= Iterate(Advance(bits, taps), r, n) <= hi)
  {
    AdvanceStaysBelow(bits, taps);
    IterateStaysBelow(Advance(bits, taps), Pow2(bits), r, n);
  }

  /**
   * Widths 32 and 64 (with the exact floor, maxInt in 2^32..2^33-1 or
   * 2^64..2^65-1): the fresh
   * register 1 becomes 0 on the first call and stays 0, so with
   * minInt >= 1 `next()` never returns.
   */
  lemma Widths32And64Stall(maxInt: int, n: nat)
    requires 2 <= maxInt && (Width(maxInt) == 32 || Width(maxInt) == 64)
    requires n >= 1
    ensures OptimalTaps(Width(maxInt)).Some?
    ensures Iterate(Advance(Width(maxInt), InitialTaps(Width(maxInt))), 1, n) == 0
  {
    var w := Width(maxInt);
    TableDomain();
    OneCollapsesAtWidths32And64(w);
    ZeroForGood(w, InitialTaps(w), 1, n);
  }

  /**
   * `FullCycleRandom(1, 10)`: width 3, the first `next()` gives 5 whatever
   * the fuel, and 8, 9 and 10 never appear.
   */
  lemma OneToTen(fuel: nat, n: nat)
    ensures Width(10) == 3 && InitialTaps(3) == [0, 1]
    ensures Search(Advance(3, InitialTaps(3)), 1, 1, 10, fuel) == Some(5)
    ensures Iterate(Advance(3, InitialTaps(3)), 1, n) < 8
  {
    WidthOfTen();
    var t := InitialTaps(3);
    assert t == [0, 1];
    FirstDrawOfWidth3(t, fuel);
    TopOfRangeNeverDrawn(10, t, 1, n);
  }

  /** 2^3 <= 10 < 2^4, so the width for maxInt 10 is 3. */
  lemma WidthOfTen()
    ensures Width(10) == 3 && Pow2(3) == 8
  {
    assert Pow2(3) == 8 && Pow2(4) == 16;
  }

  /** From register 1 the first call gives 5, which lies in [1, 10]. */
  lemma FirstDrawOfWidth3(t: seq<int>, fuel: nat)
    requires t == [0, 1]
    ensures Search(Advance(3, t), 1, 1, 10, fuel) == Some(5)
  {
    Width3Next(t, 1);
  }

  /**
   * `FullCycleRandom(1, 7)` has width 2: its values stay below 4, so 4..7
   * never appear.
   */
  lemma OneToSevenMissesTopHalf(n: nat)
    ensures Width(7) == 2 && OptimalTaps(2).Some?
    ensures Iterate(Advance(2, InitialTaps(2)), 1, n) < 4
  {
    assert Pow2(2) == 4 && Pow2(3) == 8;
    TopOfRangeNeverDrawn(7, InitialTaps(2), 1, n);
  }

  // ---------------------------------------------------------------------
  // The sampler object
  // ---------------------------------------------------------------------

  class FullCycleRandom {
    var minInt: int
    var maxInt: int
    /** Built once by `__init__`; `set_state` changes it in place. */
    const lfsr: Lfsr

    ghost predicate Valid()
      reads this, lfsr
    {
      lfsr.Valid()
    }

    /** `__init__` once the checks have passed: a register of width Width(maxInt) seeded with 1. */
    constructor (minInt: int, maxInt: int)
      requires 0 < minInt <= maxInt && OptimalTaps(Width(maxInt)).Some?
      ensures Valid() && fresh(lfsr)
      ensures this.minInt == minInt && this.maxInt == maxInt
      ensures lfsr.bits == Width(maxInt) && lfsr.taps == InitialTaps(Width(maxInt))
      ensures lfsr.register == 1 && lfsr.maxRegister == None
    {
      this.minInt := minInt;
      this.maxInt := maxInt;
      var bits := Width(maxInt);
      SeedOneFits(bits);
      lfsr := new Lfsr(1, bits);
    }

    /** `get_state`: the range followed by the register's width and value. */
    method GetState() returns (state: (int, int, int, nat))
      ensures state == (minInt, maxInt, lfsr.bits, lfsr.register)
    {
      var b, r := lfsr.GetState();
      state := (minInt, maxInt, b, r);
    }

    /**
     * `set_state`: the range is stored unchecked before the register is
     * asked to change, so it is overwritten even when the register refuses.
     */
    method SetState(newMin: int, newMax: int, nBits: int, register: int) returns (err: Option<LfsrError>)
      requires Valid()
      modifies this, lfsr
      ensures Valid()
      ensures minInt == newMin && maxInt == newMax
      ensures err == SetStateError(nBits, register)
      ensures err.Some? ==> && lfsr.bits == old(lfsr.bits) && lfsr.taps == old(lfsr.taps)
                            && lfsr.register == old(lfsr.register) && lfsr.maxRegister == old(lfsr.maxRegister)
      ensures err.None? ==> && lfsr.bits == nBits && lfsr.register == register
                            && lfsr.taps == OptimalTaps(nBits).value && lfsr.maxRegister == Some(MaxRegister(nBits))
    {
      minInt := newMin;
      maxInt := newMax;
      err := lfsr.SetState(nBits, register);
    }

    /**
     * `next`: call the register's `next()` until its value is in
     * [minInt, maxInt]. The source loops without bound; this stops after
     * 2^bits calls and returns None, which by SamplerNeverEnds happens exactly
     * when the source's loop never ends. A returned value is in range and
     * is the register's new value.
     */
    method Next() returns (v: Option<nat>)
      requires lfsr.Ready()
      modifies lfsr`register
      ensures lfsr.Ready()
      ensures v == Search(Advance(lfsr.bits, lfsr.taps), old(lfsr.register), minInt, maxInt, Pow2(lfsr.bits) - 1)
      ensures v.Some? ==> minInt <= v.value <= maxInt && lfsr.register == v.value
    {
      var lo, hi := minInt, maxInt;
      ghost var f := Advance(lfsr.bits, lfsr.taps);
      ghost var start := lfsr.register;
      var left: nat := Pow2(lfsr.bits) - 1;
      ghost var outcome := Search(f, start, lo, hi, left);
      SearchStarts(f, start, lo, hi, left);
      var x := lfsr.Next();
      while !(lo <= x <= hi) && left > 0
        invariant lfsr.Ready() && f == Advance(lfsr.bits, lfsr.taps)
        invariant x == lfsr.register
        invariant outcome == SearchFrom(f, x, lo, hi, left)
        decreases left
      {
        ghost var before := x;
        x := lfsr.Next();
        SearchMovesOn(f, outcome, before, x, lo, hi, left);
        left := left - 1;
      }
      if lo <= x <= hi {
        v := Some(x);
      } else {
        v := None;
      }
    }
  }

  /**
   * `FullCycleRandom(minInt, maxInt)`: the range is checked first, and then
   * the register refuses any width outside its table, which rules out every
   * maxInt below 4.
   */
  method NewFullCycleRandom(minInt: int, maxInt: int) returns (r: Result<FullCycleRandom, SamplerError>)
    ensures minInt <= 0 ==> r == Failure(MinNotPositive)
    ensures 0 < minInt && minInt > maxInt ==> r == Failure(MinAboveMax)
    ensures 0 < minInt <= maxInt ==> (r.Failure? <==> !(4 <= maxInt < Pow2(65)))
    ensures 0 < minInt <= maxInt && r.Failure? ==> r.error == RegisterError(InvalidBits)
    ensures r.Success? ==> && fresh(r.value) && fresh(r.value.lfsr) && r.value.Valid()
                           && r.value.minInt == minInt && r.value.maxInt == maxInt
                           && r.value.lfsr.bits == Width(maxInt) && r.value.lfsr.register == 1
                           && r.value.lfsr.taps == InitialTaps(Width(maxInt)) && r.value.lfsr.maxRegister == None
  {
    if minInt <= 0 {
      return Failure(MinNotPositive);
    }
    if minInt > maxInt {
      return Failure(MinAboveMax);
    }
    WidthSupported(maxInt);
    if OptimalTaps(Width(maxInt)).None? {
      return Failure(RegisterError(InvalidBits));
    }
    var s := new FullCycleRandom(minInt, maxInt);
    r := Success(s);
  }

  /**
   * Resuming one sampler from another's state, `target.set_state(*source.get_state())`:
   * with a nonzero register it is accepted and the target reports the
   * source's state, though its taps are now the raw table entry.
   */
  method Resume(source: FullCycleRandom, target: FullCycleRandom) returns (err: Option<LfsrError>)
    requires source.Valid() && target.Valid() && source.lfsr.register > 0
    modifies target, target.lfsr
    ensures err.None? && target.Valid()
    ensures (target.minInt, target.maxInt, target.lfsr.bits, target.lfsr.register)
         == old((source.minInt, source.maxInt, source.lfsr.bits, source.lfsr.register))
    ensures target.lfsr.taps == OptimalTaps(target.lfsr.bits).value
  {
    var state := source.GetState();
    err := target.SetState(state.0, state.1, state.2, state.3);
  }
}
