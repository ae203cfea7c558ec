/**
 * A Fibonacci linear-feedback shift register: the LFSR class of
 * src/code_qr_generator/l_f_s_r.py.
 *
 * The register is a natural number below 2^bits. One step reads the tapped
 * bits, XORs them, shifts the register right by one and puts the XOR into
 * bit `bits - 1`; one call of Next makes `bits` such steps.
 */
module ShiftRegister {
  import opened Wrappers
  import opened Orbits

  // ---------------------------------------------------------------------
  // The tap table
  // ---------------------------------------------------------------------

  /**
   * The class-level tap table: for each supported width, the tap positions
   * counted from 1 at the most significant end. None stands for a width
   * that is not a key of the table.
   */
  function OptimalTaps(bits: int): Option<seq<nat>>
  {
    match bits
    case 2 => Some([2, 1])
    case 3 => Some([3, 2])
    case 4 => Some([4, 3])
    case 5 => Some([5, 3])
    case 6 => Some([6, 5])
    case 7 => Some([7, 6])
    case 8 => Some([8, 6, 5, 4])
    case 9 => Some([9, 5])
    case 10 => Some([10, 7])
    case 11 => Some([11, 9])
    case 12 => Some([12, 11, 10, 4])
    case 13 => Some([13, 4, 3, 1])
    case 14 => Some([14, 5, 3, 1])
    case 15 => Some([15, 14])
    case 16 => Some([16, 15, 13, 4])
    case 17 => Some([17, 14])
    case 18 => Some([18, 11])
    case 19 => Some([19, 6, 2, 1])
    case 20 => Some([20, 17])
    case 21 => Some([21, 19])
    case 22 => Some([22, 1])
    case 23 => Some([23, 18])
    case 24 => Some([24, 23, 22, 17])
    case 25 => Some([25, 22])
    case 26 => Some([26, 6, 2, 1])
    case 27 => Some([27, 5, 2, 1])
    case 28 => Some([28, 3])
    case 29 => Some([29, 27])
    case 30 => Some([30, 6, 4, 1])
    case 31 => Some([31, 28])
    case 32 => Some([31, 30, 29, 28, 26, 25, 24, 22, 21, 19, 18, 17, 14, 13, 12, 10, 8, 7, 5, 3, 2, 1])
    case 33 => Some([33, 20])
    case 34 => Some([34, 27])
    case 35 => Some([35, 33])
    case 36 => Some([36, 25])
    case 37 => Some([37, 5, 4, 3, 2, 1])
    case 38 => Some([38, 6, 5, 1])
    case 39 => Some([39, 4])
    case 40 => Some([40, 21])
    case 41 => Some([41, 3])
    case 42 => Some([42, 41, 20, 19])
    case 43 => Some([43, 6, 4, 3])
    case 44 => Some([44, 43, 18, 17])
    case 45 => Some([45, 4, 3, 1])
    case 46 => Some([46, 45, 26, 25])
    case 47 => Some([47, 5])
    case 48 => Some([48, 29])
    case 49 => Some([49, 9])
    case 50 => Some([50, 49, 24, 23])
    case 51 => Some([51, 6, 3, 1])
    case 52 => Some([52, 3])
    case 53 => Some([53, 6, 2, 1])
    case 54 => Some([54, 7, 6, 1])
    case 55 => Some([55, 7])
    case 56 => Some([56, 7, 4, 2])
    case 57 => Some([57, 7, 4, 3])
    case 58 => Some([58, 19])
    case 59 => Some([59, 6, 5, 1])
    case 60 => Some([60, 1])
    case 61 => Some([61, 6, 5, 1])
    case 62 => Some([62, 29, 27, 1])
    case 63 => Some([63, 1])
    case 64 => Some([63, 61, 60, 59])
    case _ => None
  }

  /** What every table entry looks like: nonempty, strictly decreasing, taps in 1..bits. */
  predicate EntryShape(bits: int, entry: seq<nat>)
  {
    && |entry| > 0
    && (forall i | 0 <= i < |entry| :: 1 <= entry[i] <= bits)
    && (forall i, j | 0 <= i < j < |entry| :: entry[j] < entry[i])
    && (entry[0] == bits <==> bits != 32 && bits != 64)
  }

  /** The keys of the table are exactly the widths 2..64: none is missing. */
  lemma TableDomain()
    ensures forall b :: OptimalTaps(b).Some? <==> 2 <= b <= 64
  {
  }

  lemma TableRows2To9()
    ensures forall b | 2 <= b <= 9 :: EntryShape(b, OptimalTaps(b).value)
  {
  }

  lemma TableRows10To17()
    ensures forall b | 10 <= b <= 17 :: EntryShape(b, OptimalTaps(b).value)
  {
  }

  lemma TableRows18To25()
    ensures forall b | 18 <= b <= 25 :: EntryShape(b, OptimalTaps(b).value)
  {
  }

  lemma TableRows26To31()
    ensures forall b | 26 <= b <= 31 :: EntryShape(b, OptimalTaps(b).value)
  {
  }

  lemma TableRows32To32()
    ensures forall b | b == 32 :: EntryShape(b, OptimalTaps(b).value)
  {
  }

  lemma TableRows33To41()
    ensures forall b | 33 <= b <= 41 :: EntryShape(b, OptimalTaps(b).value)
  {
  }

  lemma TableRows42To49()
    ensures forall b | 42 <= b <= 49 :: EntryShape(b, OptimalTaps(b).value)
  {
  }

  lemma TableRows50To57()
    ensures forall b | 50 <= b <= 57 :: EntryShape(b, OptimalTaps(b).value)
  {
  }

  lemma TableRows58To64()
    ensures forall b | 58 <= b <= 64 :: EntryShape(b, OptimalTaps(b).value)
  {
  }

  /**
   * Every entry is nonempty, strictly decreasing and within 1..bits, and its
   * first tap is the width itself for every width except 32 and 64.
   */
  lemma TableEntry(bits: int)
    requires OptimalTaps(bits).Some?
    ensures 2 <= bits <= 64
    ensures EntryShape(bits, OptimalTaps(bits).value)
  {
    TableDomain();
    TableRows2To9();
    TableRows10To17();
    TableRows18To25();
    TableRows26To31();
    TableRows32To32();
    TableRows33To41();
    TableRows42To49();
    TableRows50To57();
    TableRows58To64();
  }

  // ---------------------------------------------------------------------
  // Bit arithmetic on unbounded naturals
  // ---------------------------------------------------------------------

  function Pow2(n: nat): (p: nat)
    ensures p >= 1
  {
    if n == 0 then 1 else 2 * Pow2(n - 1)
  }

  /** `(r >> t) & 1`: bit t of r. */
  function Bit(r: nat, t: nat): (b: nat)
    ensures b < 2
  {
    (r / Pow2(t)) % 2
  }

  /** `a ^ b` on two single bits: their sum modulo 2. */
  function Xor(a: nat, b: nat): (x: nat)
    ensures a < 2 && b < 2 ==> x == (a + b) % 2
  {
    if a == b then 0 else 1
  }

  /**
   * `a | b` on naturals, bit by bit from the low end. The result covers
   * both operands and is at most their sum.
   */
  function Or(a: nat, b: nat): (o: nat)
    ensures a <= o && b <= o && o <= a + b
    decreases a + b
  {
    if a == 0 then b
    else if b == 0 then a
    else
      var low := if a % 2 == 1 || b % 2 == 1 then 1 else 0;
      assert a == 2 * (a / 2) + a % 2 && b == 2 * (b / 2) + b % 2;
      2 * Or(a / 2, b / 2) + low
  }

  /** OR-ing a single bit above every set bit of a is the same as adding it. */
  lemma {:induction false} OrHighBit(a: nat, k: nat)
    requires a < Pow2(k)
    ensures Or(a, Pow2(k)) == a + Pow2(k)
  {
    if k > 0 && a > 0 {
      OrHighBit(a / 2, k - 1);
    }
  }

  // ---------------------------------------------------------------------
  // One step of the register
  // ---------------------------------------------------------------------

  /** A usable tap sequence: `reduce` needs at least one tap, a shift a nonnegative amount. */
  predicate TapsOk(taps: seq<int>)
  {
    |taps| > 0 && forall i | 0 <= i < |taps| :: taps[i] >= 0
  }

  /** The XOR of the tapped bits of r, folded from the left as `reduce` does. */
  function Feedback(r: nat, taps: seq<int>): (b: nat)
    requires TapsOk(taps)
    ensures b < 2
    decreases |taps|
  {
    if |taps| == 1 then Bit(r, taps[0])
    else Xor(Feedback(r, taps[..|taps| - 1]), Bit(r, taps[|taps| - 1]))
  }

  /** One single-bit step: `(r >> 1) | (feedback << (bits - 1))`. */
  function Step(bits: int, taps: seq<int>, r: nat): nat
    requires bits >= 1 && TapsOk(taps)
  {
    Or(r / 2, Feedback(r, taps) * Pow2(bits - 1))
  }

  /** n single-bit steps from r. */
  function Steps(bits: int, taps: seq<int>, r: nat, n: nat): nat
    requires bits >= 1 && TapsOk(taps)
  {
    if n == 0 then r else Step(bits, taps, Steps(bits, taps, r, n - 1))
  }

  /** The value one call of `next()` stores and returns: `bits` single steps. */
  function NextValue(bits: int, taps: seq<int>, r: nat): nat
    requires bits >= 1 && TapsOk(taps)
  {
    Steps(bits, taps, r, bits)
  }

  /**
   * One call of `next()` as a transition on register values; the register
   * after k calls from r is Iterate(Advance(bits, taps), r, k).
   */
  function Advance(bits: int, taps: seq<int>): (nat -> nat)
    requires bits >= 1 && TapsOk(taps)
  {
    r => NextValue(bits, taps, r)
  }

  /** Division by h of x, or of x + h, when x is below h. */
  lemma SplitAt(x: nat, c: nat, h: nat)
    requires x < h && c < 2
    ensures (x + c * h) / h == c && (x + c * h) % h == x
  {
    if c == 1 {
      assert x + c * h == x + h;
    }
  }

  /**
   * A step keeps the register below 2^bits: its top bit is the feedback
   * and its lower bits are the register shifted right by one.
   */
  lemma StepShiftsInFeedback(bits: int, taps: seq<int>, r: nat)
    requires bits >= 1 && TapsOk(taps) && r < Pow2(bits)
    ensures Step(bits, taps, r) < Pow2(bits)
    ensures Step(bits, taps, r) / Pow2(bits - 1) == Feedback(r, taps)
    ensures Step(bits, taps, r) % Pow2(bits - 1) == r / 2
  {
    var h := Pow2(bits - 1);
    var f := Feedback(r, taps);
    assert Pow2(bits) == 2 * h;
    assert r / 2 < h;
    if f == 1 {
      OrHighBit(r / 2, bits - 1);
      assert Step(bits, taps, r) == r / 2 + f * h;
    } else {
      assert Step(bits, taps, r) == r / 2 + f * h;
    }
    SplitAt(r / 2, f, h);
  }

  /** A zero register has zero feedback, whatever the taps. */
  lemma {:induction false} FeedbackOfZero(taps: seq<int>)
    requires TapsOk(taps)
    ensures Feedback(0, taps) == 0
  {
    if |taps| > 1 {
      FeedbackOfZero(taps[..|taps| - 1]);
    }
  }

  /** Bit t of 1 is set exactly when t is 0. */
  lemma BitOfOne(t: nat)
    ensures Bit(1, t) == if t == 0 then 1 else 0
  {
    if t > 0 {
      BelowDivisor(1, Pow2(t));
    }
  }

  /** A natural below the divisor has quotient 0. */
  lemma BelowDivisor(x: nat, p: nat)
    requires x < p
    ensures x / p == 0
  {
  }

  /**
   * For the register 1, only a tap at offset 0 reads a set bit: when no
   * later tap is at offset 0, the feedback is 1 iff the first tap is.
   */
  lemma {:induction false} FeedbackOfOne(taps: seq<int>)
    requires TapsOk(taps)
    requires forall i | 0 < i < |taps| :: taps[i] >= 1
    ensures Feedback(1, taps) == if taps[0] == 0 then 1 else 0
  {
    BitOfOne(taps[|taps| - 1]);
    if |taps| > 1 {
      FeedbackOfOne(taps[..|taps| - 1]);
    }
  }

  /** Zero is a fixed point of a step. */
  lemma StepFixesZero(bits: int, taps: seq<int>)
    requires bits >= 1 && TapsOk(taps)
    ensures Step(bits, taps, 0) == 0
  {
    FeedbackOfZero(taps);
  }

  /** A step keeps the register below 2^bits. */
  lemma StepStaysBelow(bits: int, taps: seq<int>, r: nat)
    requires bits >= 1 && TapsOk(taps) && r < Pow2(bits)
    ensures Step(bits, taps, r) < Pow2(bits)
  {
    StepShiftsInFeedback(bits, taps, r);
  }

  /** Once a run of steps reaches zero it stays there. */
  lemma {:induction false} StepsStayAtZero(bits: int, taps: seq<int>, r: nat, m: nat, n: nat)
    requires bits >= 1 && TapsOk(taps)
    requires Steps(bits, taps, r, m) == 0 && m <= n
    ensures Steps(bits, taps, r, n) == 0
  {
    if n > m {
      StepsStayAtZero(bits, taps, r, m, n - 1);
      StepFixesZero(bits, taps);
    }
  }

  /** A zero register stays zero through any number of `next()` calls. */
  lemma {:induction false} DrawsFromZero(bits: int, taps: seq<int>, k: nat)
    requires bits >= 1 && TapsOk(taps)
    ensures Iterate(Advance(bits, taps), 0, k) == 0
  {
    if k > 0 {
      DrawsFromZero(bits, taps, k - 1);
      StepsStayAtZero(bits, taps, 0, 0, bits);
    }
  }

  /** Once `next()` has taken the register to zero, it stays zero. */
  lemma ZeroForGood(bits: int, taps: seq<int>, r: nat, n: nat)
    requires bits >= 1 && TapsOk(taps) && NextValue(bits, taps, r) == 0 && n >= 1
    ensures Iterate(Advance(bits, taps), r, n) == 0
  {
    var f := Advance(bits, taps);
    assert Iterate(f, r, 1) == 0;
    IterateAdd(f, r, 1, n - 1);
    DrawsFromZero(bits, taps, n - 1);
  }

  /** With offset 0 tapped once, first, a nonzero register never steps to zero. */
  lemma StepKeepsNonzero(bits: int, taps: seq<int>, r: nat)
    requires bits >= 1 && TapsOk(taps) && 0 < r < Pow2(bits)
    requires taps[0] == 0 && forall i | 0 < i < |taps| :: taps[i] >= 1
    ensures 0 < Step(bits, taps, r) < Pow2(bits)
  {
    StepShiftsInFeedback(bits, taps, r);
    if r == 1 {
      FeedbackOfOne(taps);
    }
    PositiveFromParts(Step(bits, taps, r), Pow2(bits - 1));
  }

  /** A value with a nonzero quotient or remainder by h is positive. */
  lemma PositiveFromParts(s: nat, h: nat)
    requires h >= 1 && (s / h >= 1 || s % h >= 1)
    ensures s > 0
  {
  }

  /** With no tap at offset 0, the register 1 steps to zero. */
  lemma StepLosesOne(bits: int, taps: seq<int>)
    requires bits >= 1 && TapsOk(taps)
    requires forall i | 0 <= i < |taps| :: taps[i] >= 1
    ensures Step(bits, taps, 1) == 0
  {
    FeedbackOfOne(taps);
  }

  /** Steps keep the register below 2^bits. */
  lemma {:induction false} StepsStayBelow(bits: int, taps: seq<int>, r: nat, n: nat)
    requires bits >= 1 && TapsOk(taps) && r < Pow2(bits)
    ensures Steps(bits, taps, r, n) < Pow2(bits)
  {
    if n > 0 {
      StepsStayBelow(bits, taps, r, n - 1);
      StepShiftsInFeedback(bits, taps, Steps(bits, taps, r, n - 1));
    }
  }

  /** `next()` keeps every register value below 2^bits. */
  lemma AdvanceStaysBelow(bits: int, taps: seq<int>)
    requires bits >= 1 && TapsOk(taps)
    ensures forall x: nat | x < Pow2(bits) :: Advance(bits, taps)(x) < Pow2(bits)
  {
    forall x: nat | x < Pow2(bits)
      ensures Advance(bits, taps)(x) < Pow2(bits)
    {
      StepsStayBelow(bits, taps, x, bits);
    }
  }

  /** With offset 0 tapped once, first, a nonzero register stays nonzero through steps. */
  lemma {:induction false} StepsStayNonzero(bits: int, taps: seq<int>, r: nat, n: nat)
    requires bits >= 1 && TapsOk(taps) && 0 < r < Pow2(bits)
    requires taps[0] == 0 && forall i | 0 < i < |taps| :: taps[i] >= 1
    ensures 0 < Steps(bits, taps, r, n) < Pow2(bits)
  {
    if n > 0 {
      StepsStayNonzero(bits, taps, r, n - 1);
      StepKeepsNonzero(bits, taps, Steps(bits, taps, r, n - 1));
    }
  }

  // ---------------------------------------------------------------------
  // Taps derived from the table
  // ---------------------------------------------------------------------

  /**
   * The taps `__init__` stores: each table tap t becomes the shift amount
   * `bits - t`. Every one lies in 0..bits-1, only the first can be 0, and
   * it is 0 exactly for the widths other than 32 and 64.
   */
  function InitialTaps(bits: int): (offsets: seq<int>)
    requires OptimalTaps(bits).Some?
    ensures |offsets| == |OptimalTaps(bits).value|
    ensures forall i | 0 <= i < |offsets| :: offsets[i] == bits - OptimalTaps(bits).value[i]
    ensures TapsOk(offsets) && forall i | 0 <= i < |offsets| :: offsets[i] < bits
    ensures forall i | 0 < i < |offsets| :: offsets[i] >= 1
    ensures offsets[0] == 0 <==> bits != 32 && bits != 64
  {
    var entry := OptimalTaps(bits).value;
    TableEntry(bits);
    seq(|entry|, i requires 0 <= i < |entry| => bits - entry[i])
  }

  /** With offset 0 tapped once, first, a nonzero register stays nonzero through `next()` calls. */
  lemma {:induction false} DrawsStayNonzero(bits: int, taps: seq<int>, r: nat, k: nat)
    requires bits >= 1 && TapsOk(taps) && 0 < r < Pow2(bits)
    requires taps[0] == 0 && forall i | 0 < i < |taps| :: taps[i] >= 1
    ensures 0 < Iterate(Advance(bits, taps), r, k) < Pow2(bits)
  {
    if k > 0 {
      DrawsStayNonzero(bits, taps, r, k - 1);
      StepsStayNonzero(bits, taps, Iterate(Advance(bits, taps), r, k - 1), bits);
    }
  }

  /**
   * For every width except 32 and 64, a register that starts nonzero never
   * becomes zero, however many times `next()` is called.
   */
  lemma NonzeroRegisterStaysNonzero(bits: int, r: nat, k: nat)
    requires OptimalTaps(bits).Some? && bits != 32 && bits != 64
    requires 0 < r < Pow2(bits)
    ensures 0 < Iterate(Advance(bits, InitialTaps(bits)), r, k) < Pow2(bits)
  {
    DrawsStayNonzero(bits, InitialTaps(bits), r, k);
  }

  /**
   * Widths 32 and 64 do not tap offset 0, so the nonzero register 1 becomes
   * zero on the first step of `next()`.
   */
  lemma OneCollapsesAtWidths32And64(bits: int)
    requires bits == 32 || bits == 64
    ensures NextValue(bits, InitialTaps(bits), 1) == 0
  {
    var taps := InitialTaps(bits);
    StepLosesOne(bits, taps);
    StepsStayAtZero(bits, taps, 1, 1, bits);
  }

  /**
   * `set_state` installs the raw table entry, whose taps are all at least 1;
   * after it, the register 1 becomes zero on the next call of `next()`, for
   * every width.
   */
  lemma RestoredOneCollapses(bits: int)
    requires OptimalTaps(bits).Some?
    ensures 2 <= bits <= 64 && TapsOk(OptimalTaps(bits).value)
    ensures NextValue(bits, OptimalTaps(bits).value, 1) == 0
  {
    TableEntry(bits);
    var taps := OptimalTaps(bits).value;
    StepLosesOne(bits, taps);
    StepsStayAtZero(bits, taps, 1, 1, bits);
  }

  /** The single steps of the width-3 register with the taps `__init__` stores. */
  lemma Width3Step(t: seq<int>, r: nat)
    requires t == [0, 1] && r < 8
    ensures Step(3, t, r) == [0, 4, 5, 1, 2, 6, 7, 3][r]
  {
    var s := Step(3, t, r);
    assert Pow2(3) == 8 && Pow2(2) == 4 && Pow2(1) == 2 && Pow2(0) == 1;
    StepShiftsInFeedback(3, t, r);
    assert s == 4 * (s / 4) + s % 4;
    assert Feedback(r, t) == Xor(r % 2, (r / 2) % 2);
  }

  /** One `next()` of the width-3 register: three single steps. */
  lemma Width3Next(t: seq<int>, r: nat)
    requires t == [0, 1] && r < 8
    ensures NextValue(3, t, r) == [0, 5, 7, 2, 6, 3, 1, 4][r]
  {
    Width3Step(t, r);
    var a := Step(3, t, r);
    assert Steps(3, t, r, 1) == a;
    Width3Step(t, a);
    var b := Step(3, t, a);
    assert Steps(3, t, r, 2) == b;
    Width3Step(t, b);
  }

  /**
   * Width 3 from seed 1: successive `next()` calls give 5, 3, 2, 7, 4, 6, 1
   * and then 5 again, so this orbit visits all seven nonzero values once.
   */
  lemma Width3Orbit()
    ensures InitialTaps(3) == [0, 1]
    ensures seq(8, k requires 0 <= k < 8 => Iterate(Advance(3, InitialTaps(3)), 1, k + 1)) == [5, 3, 2, 7, 4, 6, 1, 5]
  {
    var t := InitialTaps(3);
    assert t == [0, 1];
    Width3Draws(t);
  }

  /** Width3Orbit for the taps passed as a variable, one `next()` at a time. */
  lemma Width3Draws(t: seq<int>)
    requires t == [0, 1]
    ensures seq(8, k requires 0 <= k < 8 => Iterate(Advance(3, t), 1, k + 1)) == [5, 3, 2, 7, 4, 6, 1, 5]
  {
    var f := Advance(3, t);
    var orbit: seq<nat> := [5, 3, 2, 7, 4, 6, 1, 5];
    forall i | 0 <= i < 8
      ensures f([1, 5, 3, 2, 7, 4, 6, 1][i]) == orbit[i]
    {
      Width3Next(t, [1, 5, 3, 2, 7, 4, 6, 1][i]);
    }
    assert orbit[0] == f(1);
    assert forall i | 0 <= i < 7 :: orbit[i + 1] == f(orbit[i]) by {
      forall i | 0 <= i < 7
        ensures orbit[i + 1] == f(orbit[i])
      {
        assert orbit[i] == [1, 5, 3, 2, 7, 4, 6, 1][i + 1];
      }
    }
    IterateFollows(f, 1, orbit);
  }

  // ---------------------------------------------------------------------
  // The register object
  // ---------------------------------------------------------------------

  /** The errors the register raises. */
  datatype LfsrError =
    | InvalidBits      // __init__: the width is not a key of the table (ValueError)
    | InvalidRegister  // set_state: the register is not in 1..2^bits - 1 (ValueError)
    | UnknownWidth     // set_state: the register fits, but the width has no entry (KeyError)

  /**
   * `_max_register`: 2^n - 1, the largest value n bits hold. For a negative n
   * the source computes a float in [-1, 0); -1 stands for it, which
   * compares the same with every integer register.
   */
  function MaxRegister(n: int): (m: int)
    ensures n >= 0 ==> m + 1 == Pow2(n)
    ensures n < 0 ==> -1 <= m < 0
  {
    if n >= 0 then Pow2(n) - 1 else -1
  }

  /**
   * The error `set_state(bits, register)` raises, if any: the register range
   * is checked first, then the table lookup. It succeeds exactly when bits is
   * a width of the table and the register is a nonzero value of that width.
   */
  function SetStateError(bits: int, register: int): (e: Option<LfsrError>)
    ensures e.None? <==> 2 <= bits <= 64 && OptimalTaps(bits).Some? && 0 < register < Pow2(bits)
    ensures e == Some(UnknownWidth) ==> 0 < register <= MaxRegister(bits)
  {
    TableDomain();
    if !(0 < register <= MaxRegister(bits)) then Some(InvalidRegister)
    else if OptimalTaps(bits).None? then Some(UnknownWidth)
    else None
  }

  class Lfsr {
    var bits: int
    var taps: seq<int>
    var register: nat
    /** Only `set_state` assigns this attribute; before that the object has none. */
    var maxRegister: Option<int>

    /** A table width with its taps, and a register that fits in it. */
    ghost predicate Valid()
      reads this
    {
      Installed() && Ready()
    }

    /**
     * The width is a key of the table, and the taps are either the shift
     * amounts `__init__` derives or the raw entry `set_state` installs.
     */
    ghost predicate Installed()
      reads this`bits, this`taps, this`maxRegister
    {
      && 2 <= bits <= 64
      && OptimalTaps(bits).Some?
      && (taps == InitialTaps(bits) || taps == OptimalTaps(bits).value)
      && (maxRegister.Some? ==> maxRegister.value == MaxRegister(bits))
    }

    /** What `next()` needs: a positive width, usable taps and a register that fits. */
    ghost predicate Ready()
      reads this
    {
      bits >= 1 && TapsOk(taps) && register < Pow2(bits)
    }

    /** `__init__` once the width has been found in the table: the seed is masked to the width. */
    constructor (seed: int, bits: int)
      requires OptimalTaps(bits).Some?
      ensures Valid()
      ensures this.bits == bits && taps == InitialTaps(bits) && maxRegister == None
      ensures register == seed % Pow2(bits)
    {
      TableDomain();
      this.bits := bits;
      taps := InitialTaps(bits);
      register := seed % Pow2(bits);
      maxRegister := None;
    }

    method GetState() returns (b: int, r: nat)
      ensures b == bits && r == register
    {
      b, r := bits, register;
    }

    /**
     * `set_state`: on success installs the width, the raw table entry as taps
     * and the register; on failure raises before any field changes.
     */
    method SetState(newBits: int, newRegister: int) returns (err: Option<LfsrError>)
      requires Valid()
      modifies this
      ensures Valid()
      ensures err == SetStateError(newBits, newRegister)
      ensures err.Some? ==> bits == old(bits) && taps == old(taps) && register == old(register) && maxRegister == old(maxRegister)
      ensures err.None? ==> && bits == newBits && register == newRegister
                            && taps == OptimalTaps(newBits).value && maxRegister == Some(MaxRegister(newBits))
    {
      var max := MaxRegister(newBits);
      if 0 < newRegister <= max {
        if OptimalTaps(newBits).None? {
          return Some(UnknownWidth);
        }
        TableEntry(newBits);
        taps := OptimalTaps(newBits).value;
        bits := newBits;
        maxRegister := Some(max);
        register := newRegister;
        err := None;
      } else {
        err := Some(InvalidRegister);
      }
    }

    /** `next`: `bits` single steps; the new register is stored and returned. */
    method Next() returns (v: nat)
      requires Ready()
      modifies this`register
      ensures Ready()
      ensures register == NextValue(bits, taps, old(register)) && v == register
    {
      ghost var start := register;
      for i := 0 to bits
        invariant register == Steps(bits, taps, start, i)
        invariant register < Pow2(bits)
      {
        StepStaysBelow(bits, taps, register);
        register := Step(bits, taps, register);
      }
      v := register;
    }
  }

  /**
   * `LFSR(seed, bits)`: raises when the width is not a key of the table, and
   * then no register exists; otherwise a fresh register holding
   * seed mod 2^bits (the source's `seed & (2^bits - 1)`).
   */
  method NewLfsr(seed: int, bits: int) returns (r: Result<Lfsr, LfsrError>)
    ensures r.Failure? <==> OptimalTaps(bits).None?
    ensures r.Failure? ==> r.error == InvalidBits
    ensures r.Success? ==> && fresh(r.value) && r.value.Valid()
                           && r.value.bits == bits && r.value.taps == InitialTaps(bits)
                           && r.value.register == seed % Pow2(bits) && r.value.maxRegister == None
  {
    if OptimalTaps(bits).None? {
      return Failure(InvalidBits);
    }
    TableDomain();
    var l := new Lfsr(seed, bits);
    r := Success(l);
  }
}
