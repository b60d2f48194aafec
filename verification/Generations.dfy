/** The two generations of the route cache as sets of signatures: the part of the store that decides
    what is kept (`get_route`, `insert_route` and `push_hot_route` of `src/template_cache.rs`). */
module Generations {
  import opened Words

  /** `ROUTE_SEG_CAP`, at least one. */
  type Cap = n: nat | n >= 1 witness 1

  datatype Gen = Gen(cap: Cap, hot: set<u128>, cold: set<u128>)

  /** A successful lookup of `x`, or its insertion when new: nothing moves when it is hot; otherwise it
      is pushed into the hot generation, which becomes the cold one first when it is full. */
  function Touch(g: Gen, x: u128): Gen {
    if x in g.hot then g
    else if Rotates(g, x) then Gen(g.cap, {x}, g.hot)
    else Gen(g.cap, g.hot + {x}, g.cold - {x})
  }

  predicate Rotates(g: Gen, x: u128) {
    x !in g.hot && |g.hot| >= g.cap
  }

  function Run(g: Gen, xs: seq<u128>): Gen
    decreases |xs|
  {
    if xs == [] then g else Run(Touch(g, xs[0]), xs[1..])
  }

  function Live(g: Gen): set<u128> {
    g.hot + g.cold
  }

  lemma {:induction false} RunAppend(g: Gen, xs: seq<u128>, ys: seq<u128>)
    ensures Run(g, xs + ys) == Run(Run(g, xs), ys)
    decreases |xs|
  {
    if xs == [] {
      assert xs + ys == ys;
    } else {
      RunAppend(Touch(g, xs[0]), xs[1..], ys);
      assert (xs + ys)[1..] == xs[1..] + ys;
    }
  }

  function Elements(l: seq<u128>): set<u128> {
    set x | x in l
  }

  lemma ElementsCons(x: u128, l: seq<u128>)
    ensures Elements([x] + l) == {x} + Elements(l)
  {
  }

  lemma {:induction false} ElementsSize(l: seq<u128>)
    ensures |Elements(l)| <= |l|
  {
    if l != [] {
      ElementsSize(l[1..]);
      ElementsCons(l[0], l[1..]);
      assert l == [l[0]] + l[1..];
    }
  }

  lemma {:induction false} SubsetSize<T>(a: set<T>, b: set<T>)
    requires a <= b
    ensures |a| <= |b|
  {
    if a != {} {
      var x :| x in a;
      SubsetSize(a - {x}, b - {x});
    }
  }

  // ── Occupancy ─────────────────────────────────────────────────────────────

  function Max(a: nat, b: nat): nat {
    if a >= b then a else b
  }

  function Rotations(g: Gen, xs: seq<u128>): nat
    decreases |xs|
  {
    if xs == [] then 0 else (if Rotates(g, xs[0]) then 1 else 0) + Rotations(Touch(g, xs[0]), xs[1..])
  }

  /** Sizes after `r` rotations of a cache that started with `n` loaded routes. */
  predicate Sized(g: Gen, n: nat, r: nat) {
    if r == 0 then g.cold == {} && |g.hot| <= Max(n, g.cap)
    else |g.hot| <= g.cap && |g.cold| <= if r == 1 then Max(n, g.cap) else g.cap
  }

  lemma SizedTouch(g: Gen, x: u128, n: nat, r: nat)
    requires Sized(g, n, r)
    ensures Sized(Touch(g, x), n, r + if Rotates(g, x) then 1 else 0)
  {
    SubsetSize(g.cold - {x}, g.cold);
  }

  lemma {:induction false} SizedRun(g: Gen, xs: seq<u128>, n: nat, r: nat)
    requires Sized(g, n, r)
    ensures Sized(Run(g, xs), n, r + Rotations(g, xs)) && Run(g, xs).cap == g.cap
    decreases |xs|
  {
    if xs != [] {
      SizedTouch(g, xs[0], n, r);
      SizedRun(Touch(g, xs[0]), xs[1..], n, r + if Rotates(g, xs[0]) then 1 else 0);
    }
  }

  /** Occupancy in every state after a start with a loaded hot generation. */
  lemma OccupancyBound(g: Gen, xs: seq<u128>)
    requires g.cold == {}
    ensures var e := Run(g, xs);
            && e.cap == g.cap
            && |e.hot| + |e.cold| <= Max(|g.hot|, g.cap) + g.cap
            && (Rotations(g, xs) >= 2 ==> |e.hot| <= g.cap && |e.cold| <= g.cap)
            && (|g.hot| <= g.cap ==> |e.hot| <= g.cap && |e.cold| <= g.cap)
  {
    SizedRun(g, xs, |g.hot|, 0);
  }

  // ── Runs that fill the cache ──────────────────────────────────────────────

  /** The signatures below `n`. */
  function SigsBelow(n: nat): (r: set<u128>)
    requires n <= TWO128
    ensures |r| == n && forall x :: x in r ==> x < n
  {
    if n == 0 then {} else SigsBelow(n - 1) + {n - 1}
  }

  /** `k` distinct signatures outside `used`. */
  lemma {:induction false} FreshSigs(used: set<u128>, k: nat) returns (xs: seq<u128>)
    requires |used| + k <= TWO128
    ensures |xs| == k == |Elements(xs)| && Elements(xs) !! used
    decreases k
  {
    if k == 0 {
      xs := [];
    } else {
      if SigsBelow(TWO128) <= used {
        SubsetSize(SigsBelow(TWO128), used);
        assert false;
      }
      var x :| x in SigsBelow(TWO128) && x !in used;
      var rest := FreshSigs(used + {x}, k - 1);
      xs := [x] + rest;
      ElementsCons(x, rest);
    }
  }

  /** Fresh signatures that fit into the hot generation. */
  lemma {:induction false} Fill(g: Gen, xs: seq<u128>)
    requires |xs| == |Elements(xs)| && Elements(xs) !! Live(g) && |g.hot| + |xs| <= g.cap
    ensures Run(g, xs) == Gen(g.cap, g.hot + Elements(xs), g.cold)
    decreases |xs|
  {
    if xs != [] {
      var g' := FillStep(g, xs);
      Fill(g', xs[1..]);
    } else {
      assert g.hot + Elements(xs) == g.hot;
    }
  }

  lemma FillStep(g: Gen, xs: seq<u128>) returns (g': Gen)
    requires xs != [] && |xs| == |Elements(xs)| && Elements(xs) !! Live(g) && |g.hot| + |xs| <= g.cap
    ensures g' == Touch(g, xs[0]) && g'.cap == g.cap && g'.cold == g.cold
    ensures |xs[1..]| == |Elements(xs[1..])| && Elements(xs[1..]) !! Live(g') && |g'.hot| + |xs[1..]| <= g.cap
    ensures g'.hot + Elements(xs[1..]) == g.hot + Elements(xs)
  {
    FirstIsNew(xs);
    assert xs[0] in Elements(xs);
    assert g.cold - {xs[0]} == g.cold;
    g' := Touch(g, xs[0]);
  }

  /** Among distinct signatures the first does not recur. */
  lemma FirstIsNew(xs: seq<u128>)
    requires xs != [] && |xs| == |Elements(xs)|
    ensures Elements(xs) == {xs[0]} + Elements(xs[1..]) && xs[0] !in xs[1..] && |xs[1..]| == |Elements(xs[1..])|
  {
    ElementsCons(xs[0], xs[1..]);
    assert xs == [xs[0]] + xs[1..];
    ElementsSize(xs[1..]);
  }

  /** From a full hot generation, `cap` fresh signatures rotate once and fill it again. */
  lemma RotateAndFill(g: Gen, xs: seq<u128>)
    requires |g.hot| >= g.cap && |xs| == |Elements(xs)| == g.cap && Elements(xs) !! Live(g)
    ensures Run(g, xs) == Gen(g.cap, Elements(xs), g.hot)
  {
    FirstIsNew(xs);
    var g' := Touch(g, xs[0]);
    assert g' == Gen(g.cap, {xs[0]}, g.hot);
    assert Elements(xs[1..]) !! Live(g');
    assert {xs[0]} + Elements(xs[1..]) == Elements(xs);
    Fill(g', xs[1..]);
  }

  /** The documented limit of two generations holds in every state after loading exactly when no more
      than one generation was loaded. */
  lemma DocumentedLimitExact(g: Gen)
    requires g.cold == {} && |g.hot| + g.cap <= TWO128
    ensures (forall xs :: |Run(g, xs).hot| + |Run(g, xs).cold| <= 2 * g.cap) <==> |g.hot| <= g.cap
  {
    if |g.hot| <= g.cap {
      forall xs
        ensures |Run(g, xs).hot| + |Run(g, xs).cold| <= 2 * g.cap
      {
        OccupancyBound(g, xs);
      }
    } else {
      assert Live(g) == g.hot;
      var xs := FreshSigs(g.hot, g.cap);
      RotateAndFill(g, xs);
      assert |Run(g, xs).hot| + |Run(g, xs).cold| > 2 * g.cap;
    }
  }

  // ── Recency ───────────────────────────────────────────────────────────────

  /** `sig` is kept while few others are touched: it is hot, or it is cold and everything in the hot
      generation is one of the `others` touched since it was hot. */
  ghost predicate Safe(g: Gen, sig: u128, others: set<u128>) {
    sig in g.hot || (sig in g.cold && g.hot <= others)
  }

  lemma SafeTouch(g: Gen, x: u128, sig: u128, others: set<u128>)
    requires Safe(g, sig, others) && |others + ({x} - {sig})| <= g.cap
    ensures Safe(Touch(g, x), sig, others + ({x} - {sig}))
  {
    if Rotates(g, x) && sig !in g.hot && x != sig {
      SubsetSize(g.hot + {x}, others + ({x} - {sig}));
    }
  }

  lemma {:induction false} SafeRun(g: Gen, xs: seq<u128>, sig: u128, others: set<u128>)
    requires Safe(g, sig, others) && |others + (Elements(xs) - {sig})| <= g.cap
    ensures sig in Live(Run(g, xs))
    decreases |xs|
  {
    if xs != [] {
      var now := others + ({xs[0]} - {sig});
      ElementsCons(xs[0], xs[1..]);
      assert xs == [xs[0]] + xs[1..];
      assert now + (Elements(xs[1..]) - {sig}) == others + (Elements(xs) - {sig});
      SubsetSize(now, others + (Elements(xs) - {sig}));
      SafeTouch(g, xs[0], sig, others);
      SafeRun(Touch(g, xs[0]), xs[1..], sig, now);
    }
  }

  /** Only a rotation takes a signature out of the hot generation. */
  lemma {:induction false} HotUntilRotation(g: Gen, xs: seq<u128>, sig: u128)
    requires sig in g.hot && Rotations(g, xs) == 0
    ensures sig in Run(g, xs).hot
    decreases |xs|
  {
    if xs != [] {
      HotUntilRotation(Touch(g, xs[0]), xs[1..], sig);
    }
  }

  /** Recency: after a touch, a signature stays live for as long as at most `cap` distinct others are touched. */
  lemma RecentlyTouchedIsLive(g: Gen, sig: u128, xs: seq<u128>)
    requires |Elements(xs) - {sig}| <= g.cap
    ensures sig in Live(Run(Touch(g, sig), xs))
  {
    assert {} + (Elements(xs) - {sig}) == Elements(xs) - {sig};
    SafeRun(Touch(g, sig), xs, sig, {});
  }

  /** The bound is tight: any full hot generation is evicted by some `cap + 1` other touches. */
  lemma RecencyIsTight(g: Gen) returns (xs: seq<u128>)
    requires |g.hot| >= g.cap && |Live(g)| + g.cap + 1 <= TWO128
    ensures |xs| == g.cap + 1 == |Elements(xs)| && Elements(xs) !! Live(g)
    ensures Live(Run(g, xs)) !! g.hot
  {
    xs := FreshSigs(Live(g), g.cap + 1);
    var first, last := xs[..g.cap], xs[g.cap];
    assert xs == first + [last];
    assert Elements(xs) == Elements(first) + {last};
    ElementsSize(first);
    assert last !in first;
    RotateAndFill(g, first);
    RunAppend(g, first, [last]);
    assert [last][1..] == [] && Run(Run(g, first), [last]) == Touch(Run(g, first), last);
  }

  // ── Comparison with a true LRU ────────────────────────────────────────────

  /** `l` without `x`. */
  function Without(l: seq<u128>, x: u128): (r: seq<u128>)
    ensures |r| <= |l|
  {
    if l == [] then [] else (if l[0] == x then [] else [l[0]]) + Without(l[1..], x)
  }

  /** Touching `x` in a least-recently-used list of at most `n` signatures, most recent first. */
  function LruTouch(l: seq<u128>, x: u128, n: nat): (r: seq<u128>)
    ensures |r| <= n
  {
    var r := [x] + Without(l, x);
    if |r| <= n then r else r[..n]
  }

  function LruRun(l: seq<u128>, xs: seq<u128>, n: nat): seq<u128>
    decreases |xs|
  {
    if xs == [] then l else LruRun(LruTouch(l, xs[0], n), xs[1..], n)
  }

  /** Every listed signature is safe, with the more recent ones as the others. */
  ghost predicate Covers(g: Gen, l: seq<u128>) {
    && |l| <= g.cap + 1
    && forall i :: 0 <= i < |l| ==> Safe(g, l[i], Elements(l[..i]))
  }

  /** Where an entry of the list without `x` stood, and what stood before it. */
  lemma {:induction false} WithoutAt(l: seq<u128>, x: u128, j: nat) returns (i: nat)
    requires j < |Without(l, x)|
    ensures j <= i < |l| && l[i] == Without(l, x)[j] && l[i] != x
    ensures forall y :: y in l[..i] ==> y == x || y in Without(l, x)[..j]
  {
    var w := Without(l[1..], x);
    if l[0] != x && j == 0 {
      i := 0;
    } else {
      var k := if l[0] == x then j else j - 1;
      assert Without(l, x) == if l[0] == x then w else [l[0]] + w;
      i := WithoutAt(l[1..], x, k);
      i := i + 1;
      assert l[..i] == [l[0]] + l[1..][..i - 1];
      assert l[0] != x ==> Without(l, x)[..j] == [l[0]] + w[..k];
    }
  }

  lemma CoversTouch(g: Gen, x: u128, l: seq<u128>)
    requires Covers(g, l)
    ensures Covers(Touch(g, x), LruTouch(l, x, g.cap + 1))
  {
    var g', l' := Touch(g, x), LruTouch(l, x, g.cap + 1);
    forall i | 0 <= i < |l'|
      ensures Safe(g', l'[i], Elements(l'[..i]))
    {
      if i > 0 {
        CoversEntry(g, x, l, i);
      }
    }
  }

  lemma CoversEntry(g: Gen, x: u128, l: seq<u128>, i: nat)
    requires Covers(g, l) && 0 < i < |LruTouch(l, x, g.cap + 1)|
    ensures var l' := LruTouch(l, x, g.cap + 1);
            Safe(Touch(g, x), l'[i], Elements(l'[..i]))
  {
    var l' := LruTouch(l, x, g.cap + 1);
    var j := WithoutAt(l, x, i - 1);
    assert l'[..i] == [x] + Without(l, x)[..i - 1];
    var before, now := Elements(l[..j]), Elements(l'[..i]);
    var others := before + ({x} - {l[j]});
    assert others <= now;
    ElementsSize(l'[..i]);
    SubsetSize(others, now);
    SafeTouch(g, x, l[j], before);
    SafeMore(Touch(g, x), l[j], others, now);
  }

  lemma SafeMore(g: Gen, sig: u128, a: set<u128>, b: set<u128>)
    requires Safe(g, sig, a) && a <= b
    ensures Safe(g, sig, b)
  {
  }

  lemma {:induction false} CoversRun(g: Gen, xs: seq<u128>, l: seq<u128>)
    requires Covers(g, l)
    ensures Covers(Run(g, xs), LruRun(l, xs, g.cap + 1))
    decreases |xs|
  {
    if xs != [] {
      CoversTouch(g, xs[0], l);
      CoversRun(Touch(g, xs[0]), xs[1..], LruTouch(l, xs[0], g.cap + 1));
    }
  }

  /** What a true LRU cache of capacity `cap + 1` holds after the same touches, starting empty. */
  function LruKeeps(g: Gen, xs: seq<u128>): set<u128> {
    Elements(LruRun([], xs, g.cap + 1))
  }

  /** The two generations hold everything that LRU cache holds. */
  lemma AtLeastLru(g: Gen, xs: seq<u128>, e: Gen)
    requires e == Run(g, xs)
    ensures LruKeeps(g, xs) <= Live(e)
  {
    CoversRun(g, xs, []);
    var l := LruRun([], xs, g.cap + 1);
    forall x | x in l
      ensures x in Live(e)
    {
      var i :| 0 <= i < |l| && l[i] == x;
      assert Safe(e, l[i], Elements(l[..i]));
    }
  }
}
