# Serial-number sampler: shift register, range sampler and settings

This project is a Dafny model of the part of the QR serial-number generator that
chooses the numbers. It has three pieces:

- **The shift register** (`ShiftRegister`, file `lfsr.dfy`) models
  `src/code_qr_generator/l_f_s_r.py`. It is a Fibonacci linear-feedback shift
  register with these parts:
  - a table of tap positions for the widths 2 to 64;
  - a register masked from a seed;
  - `get_state`/`set_state`;
  - `next()`, which makes `bits` single steps. Each step shifts the register right
    by one and feeds the XOR of the tapped bits in at the top.

  The register is the class `Lfsr`. Its fields are updated in place, as in the
  source, and `Next` is a `for` loop proved against the function `NextValue`.
- **The range sampler** (`FullCycle`, file `full_cycle_random.dfy`) models
  `src/code_qr_generator/full_cycle_random.py`. The class `FullCycleRandom` owns
  one register. Its width is `int(log2(max_int)) or 1`. Its `next()` calls the
  register's `next()` until the value lies in `[min_int, max_int]`. That rejection
  loop is a `while` loop proved against the function `Orbits.Search`. The module
  `Orbits` (file `orbit.dfy`) proves facts about that loop for any transition on
  naturals:
  - it returns the *first* value in range;
  - it gives up exactly when no value in its window is in range;
  - for a transition bounded by `m`, a window of `m` values decides the unbounded
    loop.
- **The settings object** (`RandSnConfig`, file `config.dfy`) models
  `src/rand_sn/config.py`. It covers:
  - how `__init__` completes the file name with `.json` and joins it to the
    directory;
  - the order of the checks in `_validate`, and which error each one raises;
  - `configure`, where `random.randint` becomes a choice of any value in the range.

`wrappers.dfy` holds the `Option` and `Result` types, which stand in for the
Python exceptions.

### Where the code departs from the generator's stated design

The generator is documented as drawing every number of its range exactly once per
cycle, for any range. The code does not do that, and the model follows the code.
The lemmas below prove each of these points:

- **A seed of zero is accepted.** The register masks the seed to its width
  instead of refusing zero. A zero register stays zero forever
  (`DrawsFromZero`).
- **The width is floor(log2 max_int), not the bit length of `max_int`.** Values
  from 2^width up to `max_int`, `max_int` itself included, are never drawn
  (`TopOfRangeNeverDrawn`). For example, `(1, 7)` never gives 4 to 7, and
  `(1, 10)` never gives 8 to 10 (`OneToSevenMissesTopHalf`, `OneToTen`). A
  `max_int` below 4 asks for width 1, which the table lacks, so construction
  fails (`WidthSupported`).
- **`next()` need not terminate.** A range that lies entirely at or above
  2^width is never hit (`RangeAboveRegisterNeverHit`), and the loop then runs
  forever (`SamplerNeverEnds`).
- **Widths 32 and 64 do not tap the lowest bit.** This is because their table
  entries do not start with the width itself. The fresh register 1 becomes 0 on
  the first call and stays there. With the exact floor, any sampler with a
  `max_int` from 2^32 to 2^33-1, or from 2^64 to 2^65-1, never returns
  (`Widths32And64Stall`).
- **`set_state` installs the raw table entry as the taps.** `__init__` instead
  installs the shift amounts `bits - t`. So a resumed sampler does not continue
  the sequence it was saved from. With the raw entry, the register 1 becomes 0 on
  the next call for every width (`RestoredOneCollapses`).
- **`next()` does not visit every value at every width.** Each call makes
  `bits` single steps, so the calls see only every `bits`-th state of the
  single-step sequence. For maximal-length taps, that sequence has period
  2^bits-1, and every `bits`-th state of it repeats after
  (2^bits-1)/gcd(bits, 2^bits-1) calls. That is fewer than 2^bits-1 calls
  whenever gcd(bits, 2^bits-1) > 1, which is the case at the widths 6, 12, 18,
  20, 21, 24, 30, 36, 40, 42, 48, 54, 60 and 63. For widths 6, 12, 18, 20, 21
  and 24, the counts recorded in the comments of the table are exactly these
  periods. For width 3, the orbit from 1 visits all seven nonzero values
  (`Width3Orbit`). No other width is claimed here.

## Model

| member | source | states |
|---|---|---|
| ShiftRegister.OptimalTaps | src/code_qr_generator/l_f_s_r.py:15-82 | The class-level tap table, entry for entry. A width that is not a key gives None. |
| ShiftRegister.Pow2 | src/code_qr_generator/l_f_s_r.py:98 | 2^n, which is `1 << n`. It is at least 1. |
| ShiftRegister.Bit | src/code_qr_generator/l_f_s_r.py:143 | `(register >> t) & 1`, bit t of the register. It is 0 or 1. |
| ShiftRegister.Xor | src/code_qr_generator/l_f_s_r.py:144 | `x ^ y` on two single bits, which is their sum modulo 2. |
| ShiftRegister.Feedback | src/code_qr_generator/l_f_s_r.py:143-144 | The `reduce` of `^` over the tapped bits, folded from the left in tap order. It is 0 or 1. |
| ShiftRegister.Or | src/code_qr_generator/l_f_s_r.py:145 | Bitwise OR on naturals, computed bit by bit. The result is at least each operand and at most their sum. |
| ShiftRegister.TableDomain | src/code_qr_generator/l_f_s_r.py:15-82 | The tap table has an entry exactly for the widths 2 through 64. |
| ShiftRegister.TableEntry | src/code_qr_generator/l_f_s_r.py:15-82 | Every table entry is nonempty, strictly decreasing and within 1..bits. Its first tap is the width itself for every width except 32 and 64. |
| ShiftRegister.InitialTaps | src/code_qr_generator/l_f_s_r.py:97 | The taps `__init__` stores are `bits - t` for each table tap `t`, in the same order. They lie in 0..bits-1, only the first can be 0, and it is 0 exactly when the width is not 32 or 64. |
| ShiftRegister.Step | src/code_qr_generator/l_f_s_r.py:143-145 | One pass of the loop body: the register shifted right by one, OR-ed with the feedback shifted left by `bits - 1`. `StepShiftsInFeedback` states what it produces. |
| ShiftRegister.Steps | src/code_qr_generator/l_f_s_r.py:142-145 | n passes of the loop body from a register. |
| ShiftRegister.NextValue | src/code_qr_generator/l_f_s_r.py:142-147 | The value `next()` stores and returns: `bits` passes of the loop body. `Lfsr.Next` is proved to compute it. |
| ShiftRegister.Advance | src/code_qr_generator/l_f_s_r.py:142-147 | `NextValue` as a transition on register values. The register after k calls of `next()` from r is `Iterate(Advance(bits, taps), r, k)`. |
| ShiftRegister.OrHighBit | src/code_qr_generator/l_f_s_r.py:145 | OR-ing a bit above every set bit of a value is the same as adding it. |
| ShiftRegister.StepShiftsInFeedback | src/code_qr_generator/l_f_s_r.py:143-145 | After one single step, the top bit is the XOR of the tapped bits and the lower bits are the old register shifted right by one. The result stays below 2^bits. |
| ShiftRegister.FeedbackOfZero | src/code_qr_generator/l_f_s_r.py:143-144 | A zero register has zero feedback, whatever the taps. |
| ShiftRegister.FeedbackOfOne | src/code_qr_generator/l_f_s_r.py:143-144 | For the register 1, when only the first tap may be offset 0, the feedback is 1 exactly when that tap is 0. |
| ShiftRegister.StepFixesZero | src/code_qr_generator/l_f_s_r.py:143-145 | Zero is a fixed point of one single step. |
| ShiftRegister.StepsStayAtZero | src/code_qr_generator/l_f_s_r.py:142-145 | Once a run of single steps reaches zero, it stays at zero. |
| ShiftRegister.DrawsFromZero | src/code_qr_generator/l_f_s_r.py:142-147 | A zero register stays zero through any number of `next()` calls, whatever the taps. So a seed of zero (masked, not refused) gives only zeros. |
| ShiftRegister.ZeroForGood | src/code_qr_generator/l_f_s_r.py:142-147 | Once one `next()` has produced zero, every later call produces zero too. |
| ShiftRegister.StepKeepsNonzero | src/code_qr_generator/l_f_s_r.py:143-145 | When offset 0 is tapped once, and first, one step keeps a nonzero register nonzero and below 2^bits. |
| ShiftRegister.StepLosesOne | src/code_qr_generator/l_f_s_r.py:143-145 | With no tap at offset 0, the register 1 steps to zero. |
| ShiftRegister.StepsStayBelow | src/code_qr_generator/l_f_s_r.py:142-145 | Any number of single steps keeps the register below 2^bits. |
| ShiftRegister.AdvanceStaysBelow | src/code_qr_generator/l_f_s_r.py:142-147 | `next()` maps every value below 2^bits to a value below 2^bits. |
| ShiftRegister.StepsStayNonzero | src/code_qr_generator/l_f_s_r.py:142-145 | When offset 0 is tapped once, and first, single steps keep a nonzero register nonzero. |
| ShiftRegister.DrawsStayNonzero | src/code_qr_generator/l_f_s_r.py:142-147 | The same holds for any number of `next()` calls. |
| ShiftRegister.NonzeroRegisterStaysNonzero | src/code_qr_generator/l_f_s_r.py:93-98 | For every table width except 32 and 64, with the taps `__init__` installs, a nonzero register never becomes zero. |
| ShiftRegister.OneCollapsesAtWidths32And64 | src/code_qr_generator/l_f_s_r.py:47-79 | With the taps `__init__` installs from the entries for widths 32 (line 47) and 64 (line 79), one `next()` takes the register 1 to zero. |
| ShiftRegister.RestoredOneCollapses | src/code_qr_generator/l_f_s_r.py:118-123 | With the raw table entry that `set_state` installs, one `next()` takes the register 1 to zero, for every width. |
| ShiftRegister.Width3Step | src/code_qr_generator/l_f_s_r.py:143-145 | The single step of the width-3 register on each of its eight values. |
| ShiftRegister.Width3Next | src/code_qr_generator/l_f_s_r.py:142-147 | The `next()` of the width-3 register on each of its eight values. |
| ShiftRegister.Width3Orbit | src/code_qr_generator/l_f_s_r.py:17 | At width 3 from seed 1, successive `next()` calls give 5, 3, 2, 7, 4, 6, 1 and then 5 again, so all seven nonzero values appear once per cycle. |
| ShiftRegister.MaxRegister | src/code_qr_generator/l_f_s_r.py:127-129 | `_max_register(n)` plus 1 is 2^n for every n >= 0. It lies in [-1, 0) for n < 0. |
| ShiftRegister.SetStateError | src/code_qr_generator/l_f_s_r.py:118-125 | `set_state` succeeds exactly when the width is in the table and the register is a nonzero value of that width. An unknown width is reported only for a register that fits. |
| ShiftRegister.Lfsr.constructor | src/code_qr_generator/l_f_s_r.py:93-98 | Stores the width, the derived taps and the seed masked to the width. The object is valid and has no `max_register`. |
| ShiftRegister.Lfsr.GetState | src/code_qr_generator/l_f_s_r.py:100-107 | Returns the width and the register. |
| ShiftRegister.Lfsr.SetState | src/code_qr_generator/l_f_s_r.py:109-125 | On success, installs the width, the raw table entry, `max_register` and the register. On error, changes nothing. Keeps the register valid. |
| ShiftRegister.Lfsr.Next | src/code_qr_generator/l_f_s_r.py:131-147 | Stores and returns `NextValue` of the old register, which stays below 2^bits. |
| ShiftRegister.NewLfsr | src/code_qr_generator/l_f_s_r.py:84-98 | Fails with the invalid-bits error exactly when the width is not in the table. Otherwise returns a fresh valid register as the constructor describes. |
| Orbits.Iterate | src/code_qr_generator/full_cycle_random.py:64-66 | The value after k applications of a transition, that is, the register after k calls of `next()`. |
| Orbits.Search | src/code_qr_generator/full_cycle_random.py:64-67 | The rejection loop: draw, and keep drawing while the value lies outside [lo, hi], with fuel + 1 draws at most. A value it finds lies in [lo, hi]. |
| Orbits.IterateFollows | src/code_qr_generator/full_cycle_random.py:64-66 | A list in which each value is the transition of the one before is the sequence of draws. |
| Orbits.SearchFindsFirstInRange | src/code_qr_generator/full_cycle_random.py:64-67 | When the k-th draw is the first one in range and k is within the window, the loop returns it. |
| Orbits.SearchReturnsFirstInRange | src/code_qr_generator/full_cycle_random.py:64-67 | Whatever the loop returns is the first draw in range, within the window. |
| Orbits.SearchGivesUp | src/code_qr_generator/full_cycle_random.py:64-66 | The bounded loop gives up exactly when none of the draws in its window is in range. |
| Orbits.IterateStaysBelow | src/code_qr_generator/full_cycle_random.py:64-66 | A transition that keeps values below m keeps every draw below m. |
| Orbits.OrbitWithinFirst | src/code_qr_generator/full_cycle_random.py:64-66 | For a transition bounded by m, every draw already appears among the first m. |
| Orbits.SearchFailsForGood | src/code_qr_generator/full_cycle_random.py:64-66 | For a transition bounded by m, when m draws have all missed the range, no later draw hits it. |
| FullCycle.FloorLog2 | src/code_qr_generator/full_cycle_random.py:32 | The result e satisfies 2^e <= n < 2^(e+1). |
| FullCycle.Width | src/code_qr_generator/full_cycle_random.py:32 | `int(log2(max_int)) or 1` is at least 1. It is floor(log2 max_int) for max_int >= 2, and it is 1 exactly when max_int < 4. |
| FullCycle.WidthSupported | src/code_qr_generator/full_cycle_random.py:32-33 | With the exact floor, the register accepts the width exactly when 4 <= max_int < 2^65. |
| FullCycle.SamplerReturnsFirstInRange | src/code_qr_generator/full_cycle_random.py:64-67 | A value the sampler returns is the first draw of the register in [min, max], within 2^bits draws. |
| FullCycle.SamplerNeverEnds | src/code_qr_generator/full_cycle_random.py:64-66 | The search over 2^bits draws finds nothing exactly when no draw is ever in range, that is, when the source's loop never ends. |
| FullCycle.TopOfRangeNeverDrawn | src/code_qr_generator/full_cycle_random.py:32 | Every draw is below 2^width, and 2^width <= max_int: the top of the range, max_int included, never comes. |
| FullCycle.RangeAboveRegisterNeverHit | src/code_qr_generator/full_cycle_random.py:64-66 | A range lying entirely at or above 2^bits is never hit. |
| FullCycle.Widths32And64Stall | src/code_qr_generator/full_cycle_random.py:32-33 | At widths 32 and 64, the fresh register 1 is 0 after the first call and stays 0. |
| FullCycle.OneToTen | src/code_qr_generator/full_cycle_random.py:32-33 | `FullCycleRandom(1, 10)` has width 3, its first `next()` gives 5, and no draw reaches 8. |
| FullCycle.FirstDrawOfWidth3 | src/code_qr_generator/full_cycle_random.py:64-67 | From register 1 at width 3, the sampler for [1, 10] returns 5. |
| FullCycle.OneToSevenMissesTopHalf | src/code_qr_generator/full_cycle_random.py:32 | `FullCycleRandom(1, 7)` has width 2, so its draws stay below 4. |
| FullCycle.FullCycleRandom.constructor | src/code_qr_generator/full_cycle_random.py:30-33 | Stores the range and builds a valid register of width `Width(max_int)` holding 1. |
| FullCycle.FullCycleRandom.GetState | src/code_qr_generator/full_cycle_random.py:35-41 | Returns the range followed by the register's width and value. |
| FullCycle.FullCycleRandom.SetState | src/code_qr_generator/full_cycle_random.py:43-56 | Overwrites the range unconditionally. The register then changes exactly as `Lfsr.SetState` says, and its error is passed on. |
| FullCycle.FullCycleRandom.Next | src/code_qr_generator/full_cycle_random.py:58-67 | Returns the rejection search from the old register over 2^bits draws. A value returned lies in [min, max] and is the register's new value. |
| FullCycle.NewFullCycleRandom | src/code_qr_generator/full_cycle_random.py:17-33 | Checks run in this order: min <= 0 fails first, then min > max. Otherwise construction fails with the register's error exactly when max_int is outside 4..2^65-1 (with the exact floor). On success the sampler holds the range and a fresh register as the constructor installs it: width `Width(max_int)`, the `bits - t` taps, register 1 and no `max_register`. |
| FullCycle.Resume | src/code_qr_generator/full_cycle_random.py:35-56 | Passing one sampler's `get_state` to another's `set_state` succeeds for a nonzero register. The target then reports the source's state, but its taps are the raw table entry. |
| RandSnConfig.EndsWith | src/rand_sn/config.py:42 | `str.endswith`: the string is at least as long as the suffix, and its last characters are the suffix. |
| RandSnConfig.NormaliseFilename | src/rand_sn/config.py:38-43 | The stored file name always ends with `.json`. With no name it is `RandSN_config.json`. A given name is kept exactly when it already ends with `.json`, and otherwise gets `.json` appended. |
| RandSnConfig.NormaliseIdempotent | src/rand_sn/config.py:42-43 | Completing an already completed name changes nothing. |
| RandSnConfig.EmptyNameBecomesExtension | src/rand_sn/config.py:42-43 | The empty name becomes `.json` alone. |
| RandSnConfig.Join | src/rand_sn/config.py:46 | The joined path ends with the file name. It is longer than the name exactly when the directory is nonempty and the name is relative. |
| RandSnConfig.CheckSettings | src/rand_sn/config.py:90-116 | Validation passes exactly when the three integers satisfy 0 < smallest <= seed <= biggest and the file and path checks pass. An unassigned setting is reported first, a non-integer next and the range after both, each exactly in its own case. |
| RandSnConfig.FileChecksOfNewConfig | src/rand_sn/config.py:104-116 | For a fresh object with a directory and a relative name, the file checks pass exactly when the name is neither empty nor `.json` alone. |
| RandSnConfig.RelativeStaysRelative | src/rand_sn/config.py:42-43 | A completed relative name is nonempty and still relative. |
| RandSnConfig.AbsoluteNameNeverValidates | src/rand_sn/config.py:115-116 | An absolute file name replaces the directory, so validation always fails. |
| RandSnConfig.ConfigureValidation | src/rand_sn/config.py:60-64 | With the seed set to smallest, validation passes exactly when smallest and biggest are integers with 0 < smallest <= biggest and the file checks pass. |
| RandSnConfig.DrawnSeedValidates | src/rand_sn/config.py:65 | Any seed drawn in [smallest, biggest] keeps valid settings valid. |
| RandSnConfig.Config.constructor | src/rand_sn/config.py:37-46 | Stores the completed file name and its join with the directory. No integer setting is assigned. |
| RandSnConfig.Config.Validate | src/rand_sn/config.py:90-116 | Reports exactly the error `CheckSettings` gives for the current settings, and changes nothing. |
| RandSnConfig.Config.Configure | src/rand_sn/config.py:48-65 | Stores the prefix and bounds, and reports the validation of the bounds with seed = smallest. On error the seed stays smallest. On success the seed is drawn in [smallest, biggest] and the settings validate. |
| RandSnConfig.NewConfig | src/rand_sn/config.py:17-46 | Fails exactly when a path is given and is not a directory. Otherwise the directory is the path or the working directory. The object holds the completed file name, its join with that directory, no prefix and no integer setting. |

Proof helpers and the predicates that name states have no row. They state
facts used in the proofs, not behaviour of the source:

- the table: `ShiftRegister.EntryShape` and `ShiftRegister.TableRows2To9`
  through `ShiftRegister.TableRows58To64`;
- the register arithmetic: `ShiftRegister.TapsOk`, `ShiftRegister.SplitAt`,
  `ShiftRegister.BelowDivisor`, `ShiftRegister.BitOfOne`,
  `ShiftRegister.StepStaysBelow`, `ShiftRegister.PositiveFromParts`,
  `ShiftRegister.Width3Draws` and `FullCycle.Pow2Monotone`;
- the register object's states: `ShiftRegister.Lfsr.Valid`,
  `ShiftRegister.Lfsr.Installed`, `ShiftRegister.Lfsr.Ready` and
  `FullCycle.FullCycleRandom.Valid`;
- the loop: `Orbits.SearchFrom`, `Orbits.FirstInRange`, `Orbits.IterateAdd`,
  `Orbits.ShiftAfterFirst`, `Orbits.SearchStarts`, `Orbits.SearchMovesOn`,
  `Orbits.Pigeonhole` and `Orbits.RepeatsFrom`;
- the examples: `FullCycle.SeedOneFits` and `FullCycle.WidthOfTen`;
- the settings: `RandSnConfig.FileChecksPass`, `RandSnConfig.RangeHolds`,
  `RandSnConfig.EndsWithAppended` and `RandSnConfig.EndsWithTransitive`.

## Left out

- FullCycle.FullCycleRandom.Next: the source's loop has no bound. The method stops after 2^bits register calls and returns None. Its own contract ties the result to `Search`, and `SamplerNeverEnds` proves that None happens exactly when the source would loop forever.
- FullCycle.Width: `math.log2` is floating point. From about 2^49 the float can round up, so `int(math.log2(n))` can exceed floor(log2 n) for a value just below a power of two. The model uses the exact floor.
- RandSnConfig.Config.Configure: `random.randint` is a nondeterministic choice of any value in [smallest, biggest]. No distribution is modelled.
- RandSnConfig.CheckSettings: the `isinstance` checks on `prefix`, `_file` and `path_file` cannot fail here, because those fields are typed strings. The integer settings carry an explicit "not an integer" case instead.
- An unset prefix is modelled as `None`. In the source, `prefix` is an annotation only until `configure` assigns it.
- `save`, `load` and the JSON file format are not modelled. File I/O and `setattr` of arbitrary keys fall outside the model.
- `os.getcwd()` and `os.path.isdir()` are parameters of `NewConfig`. `os.path.join` is modelled for POSIX with two components only.
- Python exceptions are error values (`LfsrError`, `SamplerError`, `ConfigError`). Their messages are not modelled.
- ShiftRegister.MaxRegister: for a negative width the source computes a float in [-1, 0). The model uses -1, which compares the same with every integer register.
- The default arguments (`seed=1, bits=8`, `min_int=1, max_int=100`, `smallest=1`) are not modelled. Callers pass every argument explicitly.
- The full-cycle property is not proved in general. It cannot hold at a width with gcd(bits, 2^bits-1) > 1, because `next()` takes `bits` single steps per call. Only width 3 is worked out (`Width3Orbit`).
- `src/code_qr_generator/config.py`, `src/code_qr_generator/main.py` and the QR image generation are not part of this model. `FullCycle.Resume` models the hand-over from one sampler's `get_state` to another's `set_state` within one run, as in `main.py`. The generator's settings file stores only the seed and the range, and restoring from it does not go through `set_state`.
