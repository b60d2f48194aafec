/** Atomic counters that many tasks add to and a reporter drains (`src/metrics.rs`,
    `src/token_metrics.rs`). */
module Atomics {
  /** Each counter's current value, and what its reader has drained so far; zero when not listed. */
  datatype Atomics<C> = Atomics(current: map<C, int>, drained: map<C, int>)

  function Zeros<C>(): Atomics<C> {
    Atomics(map[], map[])
  }

  function Get<C>(m: map<C, int>, c: C): int {
    if c in m then m[c] else 0
  }

  function Now<C>(a: Atomics<C>, c: C): int {
    Get(a.current, c)
  }

  /** Everything ever added to a counter. */
  function Total<C>(a: Atomics<C>, c: C): int {
    Get(a.current, c) + Get(a.drained, c)
  }

  /** `fetch_add` */
  function Add<C>(a: Atomics<C>, c: C, n: int): Atomics<C> {
    a.(current := a.current[c := Get(a.current, c) + n])
  }

  /** `swap(0)`: the value read is drained. */
  function Drain<C>(a: Atomics<C>, c: C): Atomics<C> {
    Atomics(a.current[c := 0], a.drained[c := Get(a.drained, c) + Get(a.current, c)])
  }

  /** Adding to a counter adds to its total and to no other's; draining changes no total. */
  lemma AddAndDrain<C>(a: Atomics<C>, c: C, n: int, x: C)
    ensures Total(Add(a, c, n), x) == Total(a, x) + if x == c then n else 0
    ensures Total(Drain(a, c), x) == Total(a, x)
  {
  }

  // ── Whole runs ────────────────────────────────────────────────────────────

  /** What tasks and the reporter do, one at a time and in any order. */
  datatype Access<C> = FetchAdd(cell: C, n: int) | Swap(cell: C)

  function Did<C>(a: Atomics<C>, x: Access<C>): Atomics<C> {
    match x case FetchAdd(c, n) => Add(a, c, n) case Swap(c) => Drain(a, c)
  }

  function DidAll<C>(a: Atomics<C>, xs: seq<Access<C>>): Atomics<C> {
    if xs == [] then a else Did(DidAll(a, xs[..|xs| - 1]), xs[|xs| - 1])
  }

  /** All that was added to `c`. */
  function AddedTo<C(==)>(xs: seq<Access<C>>, c: C): int {
    if xs == [] then 0
    else
      var x := xs[|xs| - 1];
      AddedTo(xs[..|xs| - 1], c) + if x.FetchAdd? && x.cell == c then x.n else 0
  }

  /** The values the reporter got for `c`, in order: at each swap, what was added since the one before. */
  function ReadFrom<C(==)>(xs: seq<Access<C>>, c: C): seq<int> {
    if xs == [] then []
    else
      var x, before := xs[|xs| - 1], xs[..|xs| - 1];
      ReadFrom(before, c) + if x.Swap? && x.cell == c then [Now(DidAll(Zeros(), before), c)] else []
  }

  function SumOf(xs: seq<int>): int {
    if xs == [] then 0 else SumOf(xs[..|xs| - 1]) + xs[|xs| - 1]
  }

  lemma SumOfOneMore(xs: seq<int>, x: int)
    ensures SumOf(xs + [x]) == SumOf(xs) + x
  {
    assert (xs + [x])[..|xs|] == xs;
  }

  lemma DidOne<C>(a: Atomics<C>, x: Access<C>, c: C)
    ensures Now(Did(a, x), c) == if x.cell != c then Now(a, c) else if x.FetchAdd? then Now(a, c) + x.n else 0
    ensures Get(Did(a, x).drained, c) == Get(a.drained, c) + if x.Swap? && x.cell == c then Now(a, c) else 0
  {
  }

  /** Draining loses nothing and counts nothing twice: however additions and swaps interleave, the values
      read so far and the current value of a counter add up to everything ever added to it. */
  lemma {:induction false} NothingLost<C>(xs: seq<Access<C>>, c: C)
    ensures SumOf(ReadFrom(xs, c)) + Now(DidAll(Zeros(), xs), c) == AddedTo(xs, c)
    ensures Get(DidAll(Zeros(), xs).drained, c) == SumOf(ReadFrom(xs, c))
  {
    if xs != [] {
      var before, x := xs[..|xs| - 1], xs[|xs| - 1];
      var a := DidAll(Zeros(), before);
      NothingLost(before, c);
      DidOne(a, x, c);
      if x.Swap? && x.cell == c {
        SumOfOneMore(ReadFrom(before, c), Now(a, c));
      } else {
        assert ReadFrom(before, c) + [] == ReadFrom(before, c);
      }
    }
  }

  // ── The counters as an object ─────────────────────────────────────────────

  class Counters<C(==)> {
    var cells: Atomics<C>

    constructor ()
      ensures cells == Zeros()
    {
      cells := Zeros();
    }

    method FetchAdd(c: C, n: int)
      modifies this
      ensures cells == Add(old(cells), c, n)
    {
      cells := Add(cells, c, n);
    }

    method SwapZero(c: C) returns (value: int)
      modifies this
      ensures value == Now(old(cells), c) && cells == Drain(old(cells), c)
    {
      value := Now(cells, c);
      cells := Drain(cells, c);
    }

    /** The reads of one report window, without interference: every listed counter is read and reset, no
        other counter and no total changes. */
    method ReportWindow(order: seq<C>) returns (values: seq<int>)
      requires forall i, j :: 0 <= i < j < |order| ==> order[i] != order[j]
      modifies this
      ensures |values| == |order| && forall i :: 0 <= i < |order| ==> values[i] == Now(old(cells), order[i])
      ensures forall c :: Now(cells, c) == if c in order then 0 else Now(old(cells), c)
      ensures forall c :: Total(cells, c) == Total(old(cells), c)
    {
      values := [];
      for n := 0 to |order|
        invariant |values| == n && forall i :: 0 <= i < n ==> values[i] == Now(old(cells), order[i])
        invariant forall c :: Now(cells, c) == if c in order[..n] then 0 else Now(old(cells), c)
        invariant forall c :: Total(cells, c) == Total(old(cells), c)
      {
        assert order[..n + 1] == order[..n] + [order[n]];
        var value := SwapZero(order[n]);
        values := values + [value];
      }
      assert order[..|order|] == order;
    }
  }
}
