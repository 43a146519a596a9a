# tkeron/tools core in Dafny

This project models three small utilities of the tkeron/tools TypeScript library.
It proves properties of the model.

- **`rng(seed, limit)`** is a xorshift32 generator. It keeps a 32-bit signed register.
  Each pull runs three shift/XOR steps on it and yields the new register. A positive
  `limit` ends the sequence after that many values. A limit of 0 or less never ends it.
  The register is a `bv32`. JavaScript's sign-propagating `>>` is written out by hand
  (`Sar`), because Dafny's `>>` on bit-vectors fills with zeros. Values are read as
  two's-complement numbers (`ToInt32`). The pure `Step` and `Nth` functions give the
  reference sequence. The class `Rng`, with its `Next` method, models the generator
  object and where it resumes after each `yield`.
- **`getLIFO()` / `getFIFO()`** return a stack over a private array. It has `push`,
  `pop` (or `shift` for FIFO), a live `length`, and a read/write `current` slot. That
  slot is the last element for LIFO and the first for FIFO. Each factory is a class
  whose field `items` is that array. JavaScript's `null` and `undefined` results are
  `None`.
- **`createTestLogger()`** returns a logger that appends one formatted line per call to
  one of four lists. `format` renders each argument and joins them with single spaces.
  `JSON.stringify` and `String(error)` are engine behaviour. They stay uninterpreted,
  as the two functions of a `Host` value.

Beyond the listed properties, the model proves two facts about the generator as
written:

- After `x ^= x >> 17`, bit 31 of the register is always clear.
- `Step` is at least two-to-one: `x` and `x ^ 0xFC001FFF` always step to the same register.
  It follows by counting that half of the 2^32 registers are never reached; that bound is not proved here.

As a result, the seed -67100673 yields 0 on its first pull, and 0 on every pull after
that, just like seed 0. The recorded golden sequences pin this `>>` behaviour, so it
is stated as a property, not as a defect.

A limit is usually described as a non-negative count. The code accepts any number and
treats a negative limit like 0, because line 8 only counts when `limit > 0`. The model
follows the code.

## Model

| member | source | states |
|---|---|---|
| `Random.Sar` | src/random.ts:5 | JavaScript's sign-propagating `>>`; no contract of its own, its meaning is carried by `SarSeventeenBits`, `SarOfNonNegative` and `SarOfNegative` |
| `Random.MixLeft13` | src/random.ts:4 | `seed ^= seed << 13` in 32 bits; no contract of its own, see `MixLeft13OfMask` |
| `Random.MixRight17` | src/random.ts:5 | `seed ^= seed >> 17` with the sign-propagating shift; no contract of its own, see `MixRight17ClearsSign` and `MixRight17OfComplement` |
| `Random.MixLeft5` | src/random.ts:6 | `seed ^= seed << 5` in 32 bits; no contract of its own, used by `Step` |
| `Random.Step` | src/random.ts:4-6 | one pull's register update; no contract of its own, its meaning is carried by `StepCollides`, `ZeroIsFixed` and the golden lemmas |
| `Random.Nth` | src/random.ts:3-7 | the register after k pulls; no contract of its own, see `NthAdd`, `Values` and `ZeroIsFixed` |
| `Random.StepZeroFill` | src/random.ts:4-6 | the same update with a zero-filling shift, kept only for contrast; see `ZeroFillBreaksGolden` |
| `Random.Rng.HasNext` | src/random.ts:8-9 | whether another pull yields: no limit (limit of 0 or less) or fewer than `limit` values so far; used in `Rng.Next` |
| `Random.Rng.Valid` | src/random.ts:2-9 | the generator's invariant: the register is the seed after `yielded` steps, and `current`, `paused` and `done` match the resume point of the loop; kept by `Rng.Next` |
| `Random.ToInt32` | src/random.ts:4-7 | the signed value of a register lies in [-2^31, 2^31) and is congruent to the register modulo 2^32 |
| `Random.NegativeIffSignBit` | src/random.ts:5 | a register reads as negative exactly when its bit 31 is set |
| `Random.SarOfNonNegative` | src/random.ts:5 | on a non-negative register `>> 17` equals the zero-filling shift |
| `Random.SarOfNegative` | src/random.ts:5 | on a negative register `>> 17` is the zero-filling shift with bits 15..31 set |
| `Random.SarSeventeenBits` | src/random.ts:5 | bit-level meaning of `x >> 17`: bits 17..31 move to 0..14 and bits 15..31 copy the sign |
| `Random.ZeroFillDiffersOnNegative` | src/random.ts:5 | the zero-filling shift gives a different result on every negative register |
| `Random.SarOfComplement` | src/random.ts:5 | the sign-propagating shift commutes with bitwise complement |
| `Random.MixRight17ClearsSign` | src/random.ts:5 | after `x ^= x >> 17` the register is non-negative |
| `Random.MixRight17OfComplement` | src/random.ts:5 | `x ^= x >> 17` maps x and its complement to the same register |
| `Random.MixLeft13OfMask` | src/random.ts:4 | flipping the bits of 0xFC001FFF before `x ^= x << 13` complements its result |
| `Random.StepCollides` | src/random.ts:4-6 | one step maps x and x ^ 0xFC001FFF (a different register) to the same register |
| `Random.CollapsingSeed` | src/random.ts:4-7 | the non-zero seed -67100673 yields 0 on every pull |
| `Random.Values` | src/random.ts:3-7 | the i-th yielded value is the register after i+1 steps, read as a signed number |
| `Random.NthAdd` | src/random.ts:3-7 | each pull starts from the register the previous pull left: a+b steps are b steps from the register after a steps |
| `Random.ValuesInInt32Range` | src/random.ts:4-7 | every yielded value is a signed 32-bit integer |
| `Random.ZeroIsFixed` | src/random.ts:4-6 | seed 0 is a fixed point: every register is 0 |
| `Random.GoldenSeed344` | tests/random.test.ts:5-12 | seed 344 yields 88811757, 1786880006, ..., -141168747 (all ten recorded values) |
| `Random.GoldenSeed158484` | tests/random.test.ts:14-18 | seed 158484 starts -512132828, 98688842, -15169138 |
| `Random.ZeroFillBreaksGolden` | src/random.ts:5 | with a zero-filling shift the fourth value for seed 344 would differ from the recorded -783089686 |
| `Random.Rng.constructor` | src/random.ts:1-2 | a new generator (seed and limit default to 0) has yielded nothing and holds the seed |
| `Random.Rng.Next` | src/random.ts:1-11 | a pull yields the next register's signed value while the limit allows it (always, for a limit of 0 or less), and is done afterwards |
| `Random.Collect` | src/random.ts:8-9 | consuming `rng(seed, N)` for N > 0 to the end gives exactly the first N values |
| `Random.Pull` | src/random.ts:2-9 | n pulls give value i+1 at pull i while i < limit (or for every i when limit <= 0) and `done` afterwards |
| `Random.Independence` | src/random.ts:1-7 | two generators with one seed do not share state: pulls on one do not move the other, and both yield the same first value |
| `Random.CollectSeed344` | tests/random.test.ts:5-12 | `[...rng(344, 10)]` is the recorded list |
| `Random.DefaultGenerator` | src/random.ts:1 | `rng()` has seed 0 and no limit, so each of any number n of pulls yields 0 |
| `Stack.LifoStack.constructor` | src/stack.ts:14-24 | a new LIFO stack is empty, with length 0 and `current` null |
| `Stack.LifoStack.Length` | src/stack.ts:33-35 | `length` is the number of held elements, and 0 only when the stack is empty |
| `Stack.LifoStack.Current` | src/stack.ts:27 | `current` is null exactly when empty, and otherwise the last element |
| `Stack.LifoStack.Push` | src/stack.ts:21 | appends, keeping earlier elements in order; the length grows by one and `current` becomes the item |
| `Stack.LifoStack.Pop` | src/stack.ts:20 | returns the old `current` and removes the last element; an empty stack returns nothing and stays empty |
| `Stack.LifoStack.SetCurrent` | src/stack.ts:28-30 | replaces only the last element, and does nothing on an empty stack |
| `Stack.FifoStack.constructor` | src/stack.ts:47-55 | a new FIFO stack is empty, with length 0 and `current` null |
| `Stack.FifoStack.Length` | src/stack.ts:64-66 | `length` is the number of held elements, and 0 only when the stack is empty |
| `Stack.FifoStack.Current` | src/stack.ts:58 | `current` is null exactly when empty, and otherwise the first element |
| `Stack.FifoStack.Push` | src/stack.ts:52 | appends; the length grows by one; `current` changes only when the stack was empty |
| `Stack.FifoStack.Pop` | src/stack.ts:51 | returns the old `current` and removes the first element; an empty stack returns nothing and stays empty |
| `Stack.FifoStack.SetCurrent` | src/stack.ts:59-61 | replaces only the first element, and does nothing on an empty stack |
| `Stack.LifoPopUndoesPush` | src/stack.ts:20-21 | on a LIFO stack, pop right after push(x) returns x and restores the previous contents |
| `Stack.FifoPopAfterPush` | src/stack.ts:51-52 | on a FIFO stack, pop right after push(x) returns the old front (x if the stack was empty), and x stays last |
| `Stack.NewLifoIsEmpty` | src/stack.test.ts:6-10 | a fresh LIFO stack reports length 0, `current` null, and pops nothing |
| `Stack.NewFifoIsEmpty` | src/stack.test.ts:60-64 | a fresh FIFO stack reports length 0, `current` null, and pops nothing |
| `Stack.LifoPopsInReverse` | src/stack.test.ts:28-47 | after pushing x, y, z: `current` is z; pops return z, y, x; the stack ends empty |
| `Stack.FifoPopsInOrder` | src/stack.test.ts:82-101 | after pushing x, y, z, `current` stays x throughout; pops return x, y, z; the stack ends empty |
| `Stack.LifoSetCurrentReplacesTop` | src/stack.test.ts:49-56 | setting `current` after two pushes keeps length 2 and replaces only the top |
| `Stack.FifoSetCurrentReplacesFront` | src/stack.ts:57-61 | setting `current` after two pushes keeps length 2 and replaces only the front |
| `Stack.SetCurrentOnEmpty` | src/stack.ts:29 | setting `current` on an empty stack of either kind leaves it empty |
| `TestLogger.Truthy` | src/createTestLogger.ts:14 | JavaScript truthiness of a possibly missing string, as the `stack`-then-`message` fallback on that line tests it; see `FormatError` |
| `TestLogger.Render` | src/createTestLogger.ts:11-16 | the `map` callback; no contract of its own, its cases are stated by `FormatString`, `FormatUndefined`, `FormatError` and `FormatOther` |
| `TestLogger.JoinElement` | src/createTestLogger.ts:17 | how `join` writes one element (undefined as ""); see `Texts` and `FormatOther` |
| `TestLogger.Join` | src/createTestLogger.ts:17 | `join(" ")`; no contract of its own, its meaning is carried by `JoinAppend` and `SplitJoin` |
| `TestLogger.Format` | src/createTestLogger.ts:9-17 | `format(args)`; no contract of its own, its meaning is carried by `FormatFewArgs`, `FormatAppend` and `FormatSplits` |
| `TestLogger.Texts` | src/createTestLogger.ts:10-16 | each argument contributes one text, in order, as rendered by the `map` callback and written by `join` |
| `TestLogger.FormatFewArgs` | src/createTestLogger.ts:9-17 | zero arguments give "", and one argument gives exactly its own text |
| `TestLogger.FormatString` | src/createTestLogger.ts:12 | a string argument passes through unchanged (the empty string gives an empty line) |
| `TestLogger.FormatUndefined` | src/createTestLogger.ts:13 | `undefined` is written "undefined" |
| `TestLogger.FormatError` | src/createTestLogger.ts:14 | an Error shows its stack, or else its message, or else `String(error)` |
| `TestLogger.FormatOther` | src/createTestLogger.ts:15-17 | any other value shows as `JSON.stringify` of it, and as "" when that returns undefined |
| `TestLogger.FormatThreeWords` | tests/createTestLogger.test.ts:69-73 | `log("test", "multiple", "args")` formats to "test multiple args" |
| `TestLogger.JoinAppend` | src/createTestLogger.ts:17 | joining two non-empty lists puts exactly one space between their joins |
| `TestLogger.FormatAppend` | src/createTestLogger.ts:9-17 | the line for the arguments a + b is a's line, one space, then b's line |
| `TestLogger.Split` | src/createTestLogger.ts:17 | splitting a line at spaces always yields at least one piece |
| `TestLogger.SplitJoin` | src/createTestLogger.ts:17 | splitting a joined line at spaces recovers the parts when none contains a space |
| `TestLogger.FormatSplits` | src/createTestLogger.ts:9-17 | when no argument's text contains a space, the line splits back into those texts |
| `TestLogger.CapturingLogger.constructor` | src/createTestLogger.ts:3-7 | a new logger has four empty lists |
| `TestLogger.CapturingLogger.Log` | src/createTestLogger.ts:21 | appends the formatted line to `logs` only; the other three lists are unchanged |
| `TestLogger.CapturingLogger.Error` | src/createTestLogger.ts:22 | appends the formatted line to `errors` only; the other three lists are unchanged |
| `TestLogger.CapturingLogger.Warn` | src/createTestLogger.ts:23 | appends the formatted line to `warns` only; the other three lists are unchanged |
| `TestLogger.CapturingLogger.Info` | src/createTestLogger.ts:24 | appends the formatted line to `infos` only; the other three lists are unchanged |
| `TestLogger.EachMethodHasItsList` | tests/createTestLogger.test.ts:355-367 | one call of each method puts each message in its own list, and in no other |
| `TestLogger.CallsAppendInOrder` | tests/createTestLogger.test.ts:111-117 | successive calls append in call order |
| `TestLogger.LoggersAreIndependent` | tests/createTestLogger.test.ts:333-342 | two loggers share no lists: writing to one leaves the other empty |

## Left out

- `src/getPaths.ts` is not part of this model. It wraps a glob scan and `fs.statSync`: filesystem I/O done in a foreign library.
- `src/silentLogger.ts` and the console-backed logger are not part of this model. One is four no-ops; the other forwards to `console`.
- `JSON.stringify`, `String(error)` and the number-to-string rules (NaN and Infinity become "null") are engine behaviour. They are the uninterpreted functions of `TestLogger.Host`.
- Random.Rng.Next: the JavaScript iterator protocol is reduced to one `Next` method. So are its `{ value, done }` records, the generator's `return`/`throw`, and `for…of`/spread. `None` means `done`.
- Random.Rng.constructor: `seed` is taken as a `bv32` and `limit` as a mathematical integer. JavaScript's `ToInt32` coercion of other numbers is not modelled, and neither is a fractional `limit`.
- Random.Rng.Next: the three register updates call `MixLeft13`, `MixRight17` and `MixLeft5`. Those functions hold the source's XOR-and-shift expressions (lines 4-6), so the method body does not repeat the expressions inline.
- The disabled period/minimum/maximum explorations (tests/random.test.ts:37-134) are not modelled. They run about 2^30 steps.
- Of the 100 recorded values for seed 158484, only the first three are proved.
- Stack: an element that is itself `null` or `undefined` cannot be told apart from "empty" in JavaScript. The model's `Option` always tells them apart.
- Stack.LifoStack.Push and Stack.FifoStack.Push: these return the new length, as `Array.push` does. The interface declares `void`.
- TestLogger.CapturingLogger: the model treats each returned property (`logs`, `errors`, `warns`, `infos`) and the array its closure pushes into as one field. Editing the array in place, as `logs.length = 0` does (tests/createTestLogger.test.ts:344-351), matches assigning the field. Reassigning the property itself (`result.logs = []`) is not modelled: in JavaScript that detaches the property, and the logger keeps pushing into the old array, whereas the model's `Log` appends to whatever the field holds.
- TestLogger.Render, TestLogger.CapturingLogger.Log, TestLogger.CapturingLogger.Error, TestLogger.CapturingLogger.Warn, TestLogger.CapturingLogger.Info: `JSON.stringify` throws on cyclic values and on BigInt, so in JavaScript such a call throws and appends nothing. The model's `Host.stringify` is total, so these four methods always append one line.
- TestLogger.Arg: a boxed `String` object (not `typeof "string"`) is not singled out. It falls under `Other`, as it does in the source.
