# Strategy dispatch engine: a Dafny model

This project models the core of a micro-benchmark harness. The harness calls one
uniform operation, `compute(a, b)`, on every element of a collection of "computer"
strategies. It does so through an `Engine` that holds the collection as a persistent
member. The engine offers:

- `run(a, b)`: calls `compute(a, b)` on every element in collection order and returns one
  result per element;
- `benchmark(loops, a, b)`: calls `run(a[i], b[i])` for `i` in `[0, loops)` and folds every
  result into a wrapping `unsigned` checksum that starts at 0.

The strategies are addition, subtraction and multiplication, all pure, and an
accumulator. The accumulator adds its first argument into a private total and returns the
new total. All arithmetic is C++ `unsigned`, that is 32 bits wide and wrapping.

Modules:

- `Unsigned` (`unsigned.dfy`): `U32`, the reduction `Wrap` of an exact integer into
  `unsigned`, and the exact sum `Sum` of a sequence.
- `DecimalText` (`decimal_text.dfy`): the decimal text of a natural number, and the value
  of a string of digits. The string-concatenation strategy uses both.
- `Computers` (`computers.dfy`): the strategies. `Addition`, `Subtraction` and
  `Multiplication` are functions. The accumulator is a class `AccumulateFirstArg` with a
  mutable field `accum` and a `Compute` method. `StringConcat` returns a `Result` whose
  failure is the cast error.
- `Engines` (`engines.dfy`): the class `Engine` with its collection field `computers`, the
  methods `SetComputers`, `Run` and `Benchmark`, and the specification functions they are
  proved against. `RunResults` and `RunNext` specify one run. `Iterations` specifies the
  benchmark loop. `Checksum` is the wrapped exact sum of every result. Lemmas about these
  functions give closed forms and composition laws.

An element of the collection is a `Computer`. The three stateless kinds are plain
constructors. The accumulator slot holds a reference to an `AccumulateFirstArg` object,
so `Run` updates the accumulator in place, as the C++ does through `shared_ptr` or
through a reference into the `hana::tuple`. `Engine.Valid()` says that no accumulator
object sits in two slots; the collections are built that way, from distinct fresh
objects. `Engine.Strategies()` is the value view of the collection (`Add`, `Sub`, `Mul`,
`Accum(total)`). `Run` and `Benchmark` state the new view in terms of the old one.

The `std::vector<std::shared_ptr<Computer>>` path and the `hana::tuple` path are both
modelled as one ordered sequence. Choosing between them happens at compile time
(`enable_if` on `hana::Foldable`), so it is not runtime behaviour. The vector path folds
with `std::accumulate` (modelled by `Accumulate`). The tuple path folds with
`hana::fold_left` (modelled by `FoldLeft`). `FoldLeftIsAccumulate` proves that the two
agree.

Where the comments and the code disagree, the model follows the code:

- `include/computer.hpp:19` says that `MultiplicationComputer` does not inherit from
  `Computer`, but line 20 shows that it does. `MultiplicationComputer` is therefore a
  valid element kind of the engine's collection.
- `lib/computer.cpp` and `include/computer.hpp` disagree on signatures. Lines 3, 7 and 11
  of `lib/computer.cpp` define `AdditionComputer::compute`, `SubtractionComputer::compute`
  and `MultiplicationComputer::compute` as `const`, whereas `include/computer.hpp:12,16,21`
  declares them non-`const` and already defines them inline. `lib/computer.cpp:15-18`
  defines `AccumulateFirstArg::compute` a second time after `include/computer.hpp:48-51`.
  Lines 3 and 7 match the declarations at `include/hanaexpr.hpp:10,14`, but the file
  includes `computer.hpp` (line 1), not `hanaexpr.hpp`. No header declares the `const`
  `MultiplicationComputer::compute` of line 11, and line 15 redefines the inline
  `AccumulateFirstArg::compute`. Only the computed values agree, and the model has one
  definition of each operation.
- The two C++ families, `AdditionComputer`, ... (which derive from `Computer`) and
  `Addition`, ... (unrelated structs), compute the same values and are modelled once.
- The accumulator has no reset operation: its total is 0 only when it is constructed
  (`AccumulateFirstArg.constructor`), and afterwards it only grows (modulo 2^32).

## Model

| member | source | states |
|---|---|---|
| `Computers.Addition` | lib/computer.cpp:3-5 | `a + b` exactly when it is below 2^32, and `a + b - 2^32` when it overflows: wraps, never saturates or fails |
| `Computers.Subtraction` | lib/computer.cpp:7-9 | `a - b` when `b <= a`, and `2^32 - (b - a)` when `b > a`: underflow wraps instead of failing |
| `Computers.Multiplication` | lib/computer.cpp:11-13 | the exact product when it fits, and in general the low 32 bits: the product minus a non-negative multiple of 2^32 |
| `Computers.SubtractionUndoesAddition` | include/computer.hpp:16 | subtracting `b` after adding `b` gives back `a`, even across a wrap |
| `Computers.AdditionUndoesSubtraction` | include/computer.hpp:12 | adding `b` after subtracting `b` gives back `a`, even across a wrap |
| `Computers.MultiplicationDistributes` | include/computer.hpp:21 | wrapping multiplication distributes over wrapping addition (arithmetic modulo 2^32) |
| `Computers.AccumulateFirstArg.constructor` | include/computer.hpp:30-31 | a new accumulator's total is 0 |
| `Computers.AccumulateFirstArg.Compute` | lib/computer.cpp:15-18 | adds `a` into the total (wrapping), returns the new total, and the second argument affects neither |
| `Computers.ParseUnsigned` | include/computer.hpp:59 | reading a digit string as `unsigned` succeeds exactly when its value is below 2^32, and then yields that value |
| `Computers.StringConcat` | include/computer.hpp:57-61 | succeeds exactly when `a * 10^digits(b) + b` fits in `unsigned`, and then returns that number |
| `Computers.StringConcatExamples` | include/computer.hpp:58-61 | 12 and 34 give 1234; 5 and 0 give 50; 0 and 7 give 7; 2^32 - 1 and 1 do not fit |
| `DecimalText.Decimal` | include/computer.hpp:60 | the decimal text of `n` is a non-empty digit string, starts with `0` only for zero, and has one digit exactly when `n < 10` |
| `DecimalText.ValueOfDecimal` | include/computer.hpp:59-60 | reading back the decimal text of `n` gives `n` |
| `DecimalText.ValueOfConcat` | include/computer.hpp:59-60 | the value of two concatenated digit strings is the left value shifted by the right length, plus the right value |
| `DecimalText.DecimalLength` | include/computer.hpp:60 | the decimal text of `n >= 1` has `k` digits where `10^(k-1) <= n < 10^k` |
| `Engines.Invoke` | include/engine.hpp:26-28 | calling `compute` leaves a stateless strategy unchanged, and the accumulator's new total is the value it returns |
| `Engines.RunResults` | include/engine.hpp:24-29 | one result per element, so the length equals the collection size (an empty collection gives none); result `i` is element `i`'s `compute(a, b)` |
| `Engines.RunNext` | include/engine.hpp:15-16 | after a run each element has been invoked exactly once: element `i` becomes what one `compute(a, b)` leaves |
| `Engines.Iterations` | include/engine.hpp:62-68 | the benchmark loop produces one run per iteration, each with one result per element, and leaves a collection of the same size |
| `Engines.IterationsSnoc` | include/engine.hpp:64 | one more iteration appends the results of one more run on the strategies the earlier iterations left |
| `Engines.ChecksumSnoc` | include/engine.hpp:41-42 | folding one more run's results into the checksum with `std::accumulate` keeps it equal to the wrapped sum of all results so far |
| `Engines.Accumulate` | include/engine.hpp:42 | `std::accumulate`: adds the elements into `init` from first to last, each step an `unsigned` (wrapping) addition; its closed form is `AccumulateIsWrappedSum` |
| `Engines.FoldLeft` | include/engine.hpp:65-66 | `hana::fold_left` with `state + v`: folds the elements into `state` from the left, each step an `unsigned` (wrapping) addition; `FoldLeftIsAccumulate` shows it equals `Accumulate` |
| `Engines.AccumulateIsWrappedSum` | include/engine.hpp:42 | `std::accumulate` over `unsigned` adds the exact sum of the elements into the initial value, wrapped once |
| `Engines.FoldLeftIsAccumulate` | include/engine.hpp:65-66 | the tuple path's `fold_left` with `state + v` gives the same checksum as the vector path's `std::accumulate` |
| `Engines.FinalStrategies` | include/engine.hpp:41 | after a benchmark loop each stateless element is unchanged, and each accumulator has added every first argument, whatever the second arguments were |
| `Engines.ResultOfIteration` | include/engine.hpp:39-41 | in iteration `j` a stateless element returns its operation on `(a[j], b[j])`, and an accumulator returns its start plus `a[0] + ... + a[j]`, wrapped |
| `Engines.IterationsCompose` | include/engine.hpp:80 | two benchmark loops in a row equal one loop over the concatenated streams: state carries from one call to the next because the collection is a member |
| `Engines.AccumulatorExample` | include/computer.hpp:47-55 | an accumulator starting at 0 given first arguments 3, 4, 5 returns 3, 7, 12, whatever the second arguments |
| `Engines.Engine.constructor` | include/engine.hpp:8 | a new engine holds the default-constructed collection it is given: empty for the `std::vector` path, one fresh element per member type for the `hana::tuple` path |
| `Engines.Engine.SetComputers` | include/engine.hpp:9 | the collection becomes `c`; no strategy object is touched |
| `Engines.Engine.Run` | include/engine.hpp:20-30 | returns `RunResults` of the collection's values before the call, and leaves the collection's values equal to `RunNext` of them; only accumulator objects of the collection change |
| `Engines.Engine.Benchmark` | include/engine.hpp:33-44 | requires both streams to hold at least `loops` values; returns the wrapped sum of every result of `run(a[i], b[i])` for `i < loops`, and leaves the collection as `Iterations` says; with `loops = 0` nothing changes and the checksum is 0 |

## Left out

- Timing and printing in `benchmark` (`std::clock`, `high_resolution_clock`, the `double`
  millisecond arithmetic, `std::cout`): clock input, floating point and console output.
  `Engine.Benchmark` returns the checksum that the source prints.
- `src/main.cpp`: process wiring, `std::rand`/`srand` seeding and console output.
- `include/hanaexpr.hpp`: declarations only, with no behaviour of its own.
- The compile-time selection between the vector and tuple overloads, and the rule that a
  vector element must derive from `Computer`: static type checks, not runtime behaviour.
- The invocation-function type parameter `F`: it is fixed to "call `compute(a, b)` on the
  element". `shared_ptr` ownership and aliasing are not modelled: `Engine.Valid()`
  requires the accumulator objects of the collection to be distinct.
- `StringConcatComputer` as an element of the engine's collection: the cast failure would
  escape `run` as an exception after earlier elements had already been updated, and that
  propagation is not modelled. `StringConcat` models the strategy on its own.
- `Computers.ParseUnsigned`: models `boost::lexical_cast<unsigned>` only on non-empty digit
  strings, because the concatenation never produces anything else; its handling of signs,
  spaces and other text is not modelled.
- The order in which `hana::transform` (tuple path) and `std::transform` (vector path,
  `include/engine.hpp:26-28`) apply the invocation function: neither guarantees in-order
  application, and the model visits elements in collection order. With distinct elements, each result depends only on its own element,
  so the order cannot change any value.
