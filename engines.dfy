/**
 * The dispatch engine: a persistent collection of strategies, `run(a, b)` that calls
 * `compute(a, b)` on every element in collection order, and `benchmark` that repeats
 * `run` over two argument streams while folding every result into a checksum.
 *
 * The `std::vector<std::shared_ptr<Computer>>` collection and the `hana::tuple`
 * collection are both an ordered sequence here; the invocation function is fixed to
 * "call `compute(a, b)` on the element".
 */
module Engines {
  import opened Unsigned
  import opened Computers

  /** One element of the collection. Only the accumulator has state, held by an object. */
  datatype Computer =
    | AdditionComputer
    | SubtractionComputer
    | MultiplicationComputer
    | AccumulateFirstArgComputer(cell: AccumulateFirstArg)

  /** The value an element stands for: its kind and, for the accumulator, its total. */
  datatype Strategy = Add | Sub | Mul | Accum(accum: U32)

  /** What one call of `compute` on a strategy returns and what the strategy becomes. */
  datatype Invocation = Invocation(result: U32, next: Strategy)

  /** The invocation function: call `compute(a, b)` on one element. */
  function Invoke(s: Strategy, a: U32, b: U32): (r: Invocation)
    ensures !s.Accum? ==> r.next == s
    ensures s.Accum? ==> r.next == Accum(r.result)
  {
    match s
    case Add => Invocation(Addition(a, b), s)
    case Sub => Invocation(Subtraction(a, b), s)
    case Mul => Invocation(Multiplication(a, b), s)
    case Accum(t) => Invocation(Addition(t, a), Accum(Addition(t, a)))
  }

  /** The results of one `run(a, b)` over the strategies `ss`, one per element, in order. */
  function RunResults(ss: seq<Strategy>, a: U32, b: U32): (rs: seq<U32>)
    ensures |rs| == |ss|
    ensures forall i :: 0 <= i < |ss| ==> rs[i] == Invoke(ss[i], a, b).result
  {
    if ss == [] then [] else [Invoke(ss[0], a, b).result] + RunResults(ss[1..], a, b)
  }

  /** The strategies after one `run(a, b)`: every element invoked exactly once. */
  function RunNext(ss: seq<Strategy>, a: U32, b: U32): (ns: seq<Strategy>)
    ensures |ns| == |ss|
    ensures forall i :: 0 <= i < |ss| ==> ns[i] == Invoke(ss[i], a, b).next
  {
    if ss == [] then [] else [Invoke(ss[0], a, b).next] + RunNext(ss[1..], a, b)
  }

  /** `std::accumulate(first, last, init)`: adds the elements into `init` from first to last. */
  function Accumulate(init: U32, xs: seq<U32>): U32
    decreases |xs|
  {
    if xs == [] then init else Accumulate(Addition(init, xs[0]), xs[1..])
  }

  /** `hana::fold_left(xs, state, [](unsigned s, auto v) { return s + v; })`. */
  function FoldLeft(xs: seq<U32>, state: U32): U32 {
    if xs == [] then state else Addition(FoldLeft(xs[..|xs| - 1], state), xs[|xs| - 1])
  }

  /** `std::accumulate` adds the exact sum of the elements into `init`, wrapped once. */
  lemma {:induction false} AccumulateIsWrappedSum(init: U32, xs: seq<U32>)
    ensures Accumulate(init, xs) == Wrap(init + Sum(xs))
    decreases |xs|
  {
    if xs != [] {
      AccumulateIsWrappedSum(Addition(init, xs[0]), xs[1..]);
      WrapAbsorbs(init + xs[0], Sum(xs[1..]));
    }
  }

  /** The tuple fold computes the same checksum as the vector's `std::accumulate`. */
  lemma {:induction false} FoldLeftIsAccumulate(xs: seq<U32>, state: U32)
    ensures FoldLeft(xs, state) == Accumulate(state, xs)
  {
    if xs != [] {
      var init := xs[..|xs| - 1];
      var last := xs[|xs| - 1];
      FoldLeftIsAccumulate(init, state);
      AccumulateIsWrappedSum(state, init);
      AccumulateIsWrappedSum(state, xs);
      assert xs == init + [last];
      SumSnoc(init, last);
      WrapAbsorbs(state + Sum(init), last);
    }
  }

  /** Concatenates the per-iteration result sequences, in iteration order. */
  function Flatten(rss: seq<seq<U32>>): (xs: seq<U32>)
  {
    if rss == [] then [] else Flatten(rss[..|rss| - 1]) + rss[|rss| - 1]
  }

  /** What a benchmark loop produced: the results of each `run`, and the final strategies. */
  datatype Trace = Trace(runs: seq<seq<U32>>, final: seq<Strategy>)

  /**
   * The loop of `benchmark` over the streams `firsts` and `seconds` (already cut to `loops`
   * elements): iteration `i` runs `run(firsts[i], seconds[i])` on the strategies the previous
   * iterations left behind.
   */
  function Iterations(ss: seq<Strategy>, firsts: seq<U32>, seconds: seq<U32>): (t: Trace)
    requires |firsts| == |seconds|
    ensures |t.runs| == |firsts|
    ensures |t.final| == |ss|
    ensures forall j :: 0 <= j < |firsts| ==> |t.runs[j]| == |ss|
  {
    if firsts == [] then Trace([], ss)
    else
      var prev := Iterations(ss, firsts[..|firsts| - 1], seconds[..|seconds| - 1]);
      var a, b := firsts[|firsts| - 1], seconds[|seconds| - 1];
      Trace(prev.runs + [RunResults(prev.final, a, b)], RunNext(prev.final, a, b))
  }

  /** The checksum `benchmark` computes: every result of every `run`, summed in order and wrapped. */
  function Checksum(ss: seq<Strategy>, firsts: seq<U32>, seconds: seq<U32>): U32
    requires |firsts| == |seconds|
  {
    Wrap(Sum(Flatten(Iterations(ss, firsts, seconds).runs)))
  }

  /**
   * The value element `s` returns in iteration `j` of a benchmark: a stateless strategy
   * computes from that iteration's arguments alone, the accumulator returns its starting
   * total plus every first argument so far.
   */
  function ResultAt(s: Strategy, firsts: seq<U32>, seconds: seq<U32>, j: nat): U32
    requires |firsts| == |seconds| && j < |firsts|
  {
    match s
    case Add => Addition(firsts[j], seconds[j])
    case Sub => Subtraction(firsts[j], seconds[j])
    case Mul => Multiplication(firsts[j], seconds[j])
    case Accum(t) => Wrap(t + Sum(firsts[..j + 1]))
  }

  /**
   * After a benchmark loop, stateless elements are unchanged and each accumulator has
   * added every first argument of every iteration, whatever the second arguments.
   */
  lemma {:induction false} FinalStrategies(ss: seq<Strategy>, firsts: seq<U32>, seconds: seq<U32>, k: nat)
    requires |firsts| == |seconds| && k < |ss|
    ensures Iterations(ss, firsts, seconds).final[k] ==
              if ss[k].Accum? then Accum(Wrap(ss[k].accum + Sum(firsts))) else ss[k]
  {
    if firsts != [] {
      var firsts', seconds' := firsts[..|firsts| - 1], seconds[..|seconds| - 1];
      FinalStrategies(ss, firsts', seconds', k);
      if ss[k].Accum? {
        assert firsts == firsts' + [firsts[|firsts| - 1]];
        SumSnoc(firsts', firsts[|firsts| - 1]);
        WrapAbsorbs(ss[k].accum + Sum(firsts'), firsts[|firsts| - 1]);
      }
    }
  }

  /** Element `k`'s result in iteration `j` of a benchmark, in closed form. */
  lemma {:induction false} ResultOfIteration(ss: seq<Strategy>, firsts: seq<U32>, seconds: seq<U32>, j: nat, k: nat)
    requires |firsts| == |seconds| && j < |firsts| && k < |ss|
    ensures Iterations(ss, firsts, seconds).runs[j][k] == ResultAt(ss[k], firsts, seconds, j)
  {
    var n := |firsts| - 1;
    var firsts', seconds' := firsts[..n], seconds[..n];
    var prev := Iterations(ss, firsts', seconds');
    var last := RunResults(prev.final, firsts[n], seconds[n]);
    assert Iterations(ss, firsts, seconds).runs == prev.runs + [last];
    if j < n {
      ResultOfIteration(ss, firsts', seconds', j, k);
      assert firsts'[..j + 1] == firsts[..j + 1];
    } else {
      FinalStrategies(ss, firsts', seconds', k);
      assert last[k] == Invoke(prev.final[k], firsts[n], seconds[n]).result;
      if ss[k].Accum? {
        assert firsts[..j + 1] == firsts' + [firsts[n]];
        SumSnoc(firsts', firsts[n]);
        WrapAbsorbs(ss[k].accum + Sum(firsts'), firsts[n]);
      }
    }
  }

  /**
   * Two benchmark loops in a row leave the strategies as one loop over the concatenated
   * streams does: accumulators carry their totals from one `benchmark` call to the next.
   */
  lemma {:induction false} IterationsCompose(ss: seq<Strategy>, firsts1: seq<U32>, seconds1: seq<U32>, firsts2: seq<U32>, seconds2: seq<U32>)
    requires |firsts1| == |seconds1| && |firsts2| == |seconds2|
    ensures Iterations(Iterations(ss, firsts1, seconds1).final, firsts2, seconds2).final == Iterations(ss, firsts1 + firsts2, seconds1 + seconds2).final
    ensures Iterations(ss, firsts1, seconds1).runs + Iterations(Iterations(ss, firsts1, seconds1).final, firsts2, seconds2).runs
              == Iterations(ss, firsts1 + firsts2, seconds1 + seconds2).runs
  {
    if firsts2 == [] {
      assert firsts1 + firsts2 == firsts1 && seconds1 + seconds2 == seconds1;
    } else {
      var n := |firsts2| - 1;
      IterationsCompose(ss, firsts1, seconds1, firsts2[..n], seconds2[..n]);
      assert (firsts1 + firsts2)[..|firsts1 + firsts2| - 1] == firsts1 + firsts2[..n];
      assert (seconds1 + seconds2)[..|seconds1 + seconds2| - 1] == seconds1 + seconds2[..n];
    }
  }

  /** The accumulator on its own: first arguments 3, 4, 5 give 3, 7, 12, whatever `b` is. */
  lemma AccumulatorExample(b0: U32, b1: U32, b2: U32)
    ensures Iterations([Accum(0)], [3, 4, 5], [b0, b1, b2]).runs == [[3], [7], [12]]
  {
    var firsts, seconds := [3, 4, 5], [b0, b1, b2];
    var runs := Iterations([Accum(0)], firsts, seconds).runs;
    assert firsts[..1] == [3] && firsts[..2] == [3, 4] && firsts[..3] == firsts;
    assert Sum([3]) == 3 && Sum([3, 4]) == 7 && Sum([3, 4, 5]) == 12 by {
      assert [3, 4][1..] == [4] && [3, 4, 5][1..] == [4, 5] && [4, 5][1..] == [5];
    }
    ResultOfIteration([Accum(0)], firsts, seconds, 0, 0);
    ResultOfIteration([Accum(0)], firsts, seconds, 1, 0);
    ResultOfIteration([Accum(0)], firsts, seconds, 2, 0);
    assert runs[0] == [3] && runs[1] == [7] && runs[2] == [12];
  }

  /** One more iteration of the benchmark loop appends one `run` to the trace. */
  lemma IterationsSnoc(ss: seq<Strategy>, firsts: seq<U32>, seconds: seq<U32>, a: U32, b: U32)
    requires |firsts| == |seconds|
    ensures Iterations(ss, firsts + [a], seconds + [b]).runs
              == Iterations(ss, firsts, seconds).runs + [RunResults(Iterations(ss, firsts, seconds).final, a, b)]
    ensures Iterations(ss, firsts + [a], seconds + [b]).final
              == RunNext(Iterations(ss, firsts, seconds).final, a, b)
  {
  }

  /** Folding one more `run` into the checksum, as the loop body of `benchmark` does. */
  lemma ChecksumSnoc(ss: seq<Strategy>, firsts: seq<U32>, seconds: seq<U32>, a: U32, b: U32)
    requires |firsts| == |seconds|
    ensures Checksum(ss, firsts + [a], seconds + [b])
              == Accumulate(Checksum(ss, firsts, seconds), RunResults(Iterations(ss, firsts, seconds).final, a, b))
  {
    var prev := Iterations(ss, firsts, seconds).runs;
    var results := RunResults(Iterations(ss, firsts, seconds).final, a, b);
    IterationsSnoc(ss, firsts, seconds, a, b);
    FlattenSnoc(prev, results);
    AccumulateOnto(Flatten(prev), results);
  }

  /** Accumulating more values onto a wrapped sum gives the wrapped sum of everything. */
  lemma AccumulateOnto(done: seq<U32>, more: seq<U32>)
    ensures Accumulate(Wrap(Sum(done)), more) == Wrap(Sum(done + more))
  {
    SumAppend(done, more);
    WrapAbsorbs(Sum(done), Sum(more));
    AccumulateIsWrappedSum(Wrap(Sum(done)), more);
  }

  lemma FlattenSnoc(rss: seq<seq<U32>>, rs: seq<U32>)
    ensures Flatten(rss + [rs]) == Flatten(rss) + rs
  {
  }

  /** The engine: the persistent collection `computers_`. */
  class Engine {
    var computers: seq<Computer>

    /** The collection holds distinct objects: no accumulator appears in two slots. */
    ghost predicate Valid()
      reads this
    {
      Distinct(computers)
    }

    static ghost predicate Distinct(cs: seq<Computer>) {
      forall i, j :: 0 <= i < j < |cs| && cs[i].AccumulateFirstArgComputer? && cs[j].AccumulateFirstArgComputer?
        ==> cs[i].cell != cs[j].cell
    }

    /** The accumulator objects of the collection: everything `run` may change. */
    ghost function Cells(): set<AccumulateFirstArg>
      reads this
    {
      set i | 0 <= i < |computers| && computers[i].AccumulateFirstArgComputer? :: computers[i].cell
    }

    static ghost function View(c: Computer): Strategy
      reads if c.AccumulateFirstArgComputer? then {c.cell} else {}
    {
      match c
      case AdditionComputer => Add
      case SubtractionComputer => Sub
      case MultiplicationComputer => Mul
      case AccumulateFirstArgComputer(cell) => Accum(cell.accum)
    }

    /** The collection as values, in order. */
    ghost function Strategies(): (ss: seq<Strategy>)
      reads this, Cells()
      ensures |ss| == |computers|
    {
      seq(|computers|, i requires 0 <= i < |computers| reads this, Cells() => View(computers[i]))
    }

    /**
     * `Engine(const F &f)`: the collection `computers_` is default-constructed. For a
     * `std::vector` that is the empty collection; for a `hana::tuple` it is one freshly
     * constructed element per member type, so `initial` is passed in.
     */
    constructor (initial: seq<Computer>)
      requires Distinct(initial)
      ensures computers == initial && Valid()
    {
      computers := initial;
    }

    /** `computers(c)`: the collection becomes `c`; no strategy is touched. */
    method SetComputers(c: seq<Computer>)
      requires Distinct(c)
      modifies this
      ensures computers == c && Valid()
    {
      computers := c;
    }

    /** `run(a, b)`: one result per element, in collection order; each element invoked once. */
    method Run(a: U32, b: U32) returns (results: seq<U32>)
      requires Valid()
      modifies Cells()
      ensures results == RunResults(old(Strategies()), a, b)
      ensures Strategies() == RunNext(old(Strategies()), a, b)
    {
      ghost var before := Strategies();
      results := [];
      var i := 0;
      while i < |computers|
        invariant 0 <= i <= |computers| && computers == old(computers)
        invariant |results| == i
        invariant forall k :: 0 <= k < i ==> results[k] == Invoke(before[k], a, b).result
        invariant forall k :: 0 <= k < |computers| ==>
                    View(computers[k]) == if k < i then Invoke(before[k], a, b).next else before[k]
        decreases |computers| - i
      {
        var r: U32;
        match computers[i] {
          case AdditionComputer =>
            r := Addition(a, b);
          case SubtractionComputer =>
            r := Subtraction(a, b);
          case MultiplicationComputer =>
            r := Multiplication(a, b);
          case AccumulateFirstArgComputer(cell) =>
            r := cell.Compute(a, b);
        }
        results := results + [r];
        i := i + 1;
      }
    }

    /**
     * `benchmark(loops, a, b)` without its timing and printing: calls `run(a[i], b[i])`
     * for i = 0 .. loops - 1 and returns the checksum of all their results.
     */
    method Benchmark(loops: U32, a: seq<U32>, b: seq<U32>) returns (checksum: U32)
      requires Valid()
      requires loops <= |a| && loops <= |b|
      modifies Cells()
      ensures checksum == Checksum(old(Strategies()), a[..loops], b[..loops])
      ensures Strategies() == Iterations(old(Strategies()), a[..loops], b[..loops]).final
      ensures loops == 0 ==> checksum == 0 && Strategies() == old(Strategies())
    {
      ghost var before := Strategies();
      var val: U32 := 0;
      var i: U32 := 0;
      while i < loops
        invariant 0 <= i <= loops
        invariant val == Checksum(before, a[..i], b[..i])
        invariant Strategies() == Iterations(before, a[..i], b[..i]).final
      {
        assert a[..i + 1] == a[..i] + [a[i]] && b[..i + 1] == b[..i] + [b[i]];
        IterationsSnoc(before, a[..i], b[..i], a[i], b[i]);
        ChecksumSnoc(before, a[..i], b[..i], a[i], b[i]);
        var results := Run(a[i], b[i]);
        val := Accumulate(val, results);
        i := i + 1;
      }
      checksum := val;
    }
  }
}
