/** Optional values, as the source's `Option`. */
module Options {
  datatype Option<+T> = None | Some(value: T)
}

/** The fixed-width integers of the source; `u64` arithmetic wraps in release builds. */
module Words {
  const TWO64: nat := 0x1_0000_0000_0000_0000
  const TWO128: nat := 0x1_0000_0000_0000_0000_0000_0000_0000_0000

  type byte = n: nat | n < 256
  type u32 = n: nat | n < 0x1_0000_0000
  type u64 = n: nat | n < TWO64
  type u128 = n: nat | n < TWO128

  /** The truncating cast `as u32`. */
  function AsU32(n: nat): u32 {
    if n < 0x1_0000_0000 then n else n % 0x1_0000_0000
  }

  /** The value a wrapping `u64` operation leaves. */
  function Wrap64(x: int): u64 {
    x % TWO64
  }
}

/** Byte-wise lexicographic order on strings (Rust's `Ord` for `String`). */
module Text {
  predicate Less(a: string, b: string) {
    if b == "" then false
    else if a == "" then true
    else a[0] < b[0] || (a[0] == b[0] && Less(a[1..], b[1..]))
  }

  lemma {:induction false} LessTotal(a: string, b: string)
    ensures (if a == b then 1 else 0) + (if Less(a, b) then 1 else 0) + (if Less(b, a) then 1 else 0) == 1
  {
    if a != "" && b != "" {
      LessTotal(a[1..], b[1..]);
      assert a == [a[0]] + a[1..] && b == [b[0]] + b[1..];
    }
  }

  lemma {:induction false} LessTransitive(a: string, b: string, c: string)
    requires Less(a, b) && Less(b, c)
    ensures Less(a, c)
  {
    if a != "" && a[0] == b[0] == c[0] {
      LessTransitive(a[1..], b[1..], c[1..]);
    }
  }

  /** Strings with equally long heads compare head first. */
  lemma {:induction false} LessConcat(a: string, b: string, x: string, y: string)
    requires |a| == |b|
    ensures Less(a + x, b + y) <==> Less(a, b) || (a == b && Less(x, y))
  {
    if a == "" {
      assert a + x == x && b + y == y;
    } else {
      LessConcat(a[1..], b[1..], x, y);
      assert (a + x)[1..] == a[1..] + x && (b + y)[1..] == b[1..] + y;
      assert a == [a[0]] + a[1..] && b == [b[0]] + b[1..];
    }
  }
}

/** Decimal text: `to_string`, zero-padded formatting, and `parse` of an unsigned integer. */
module Decimal {
  import opened Options
  import Text

  predicate IsDigit(c: char) {
    '0' <= c <= '9'
  }

  ghost predicate AllDigits(s: string) {
    forall i :: 0 <= i < |s| ==> IsDigit(s[i])
  }

  function Digit(d: nat): (c: char)
    requires d < 10
    ensures IsDigit(c) && c as int == '0' as int + d
  {
    (d + '0' as int) as char
  }

  /** Decimal text without leading zeros. */
  function Print(n: nat): (s: string)
    ensures s != "" && AllDigits(s)
  {
    if n < 10 then [Digit(n)] else Print(n / 10) + [Digit(n % 10)]
  }

  /** The number a string of digits denotes. */
  function Value(s: string): nat
    requires AllDigits(s)
  {
    if s == "" then 0 else 10 * Value(s[..|s| - 1]) + (s[|s| - 1] as int - '0' as int)
  }

  /** `str::parse` of an unsigned integer below `bound`: an optional plus sign, then digits. */
  ghost function Parse(s: string, bound: nat): Option<nat> {
    var digits := if s != "" && s[0] == '+' then s[1..] else s;
    if digits == "" || !AllDigits(digits) || Value(digits) >= bound then None else Some(Value(digits))
  }

  lemma {:induction false} ValueOfPrint(n: nat)
    ensures Value(Print(n)) == n
  {
    if n >= 10 {
      ValueOfPrint(n / 10);
      assert Print(n)[..|Print(n)| - 1] == Print(n / 10);
    }
  }

  lemma ParseOfPrint(n: nat, bound: nat)
    requires n < bound
    ensures Parse(Print(n), bound) == Some(n)
  {
    ValueOfPrint(n);
    assert IsDigit(Print(n)[0]);
  }

  lemma PrintInjective(m: nat, n: nat)
    requires Print(m) == Print(n)
    ensures m == n
  {
    ValueOfPrint(m);
    ValueOfPrint(n);
  }

  /** 10 to the power `w`. */
  function Pow10(w: nat): (p: nat)
    ensures p >= 1
  {
    if w == 0 then 1 else 10 * Pow10(w - 1)
  }

  /** `{n:0w}`: padded with zeros on the left to at least `w` characters. */
  function Padded(n: nat, w: nat): (s: string)
    ensures |s| >= w
  {
    var s := Print(n);
    if |s| >= w then s else seq(w - |s|, _ => '0') + s
  }

  /** The low `w` digits of `n`, the form the ordering proof recurses on. */
  function Fixed(n: nat, w: nat): (s: string)
    ensures |s| == w
  {
    if w == 0 then "" else Fixed(n / 10, w - 1) + [Digit(n % 10)]
  }

  lemma {:induction false} FixedZero(w: nat)
    ensures Fixed(0, w) == seq(w, _ => '0')
  {
    if w > 0 {
      FixedZero(w - 1);
    }
  }

  lemma {:induction false} FixedIsPadded(n: nat, w: nat)
    requires w >= 1 && n < Pow10(w)
    ensures Fixed(n, w) == Padded(n, w) && |Print(n)| <= w
  {
    if n < 10 {
      FixedZero(w - 1);
    } else {
      assert w >= 2 by { assert Pow10(0) == 1; }
      FixedIsPadded(n / 10, w - 1);
    }
  }

  /** Zero-padded text of equal width orders as the numbers do. */
  lemma {:induction false} FixedOrder(m: nat, n: nat, w: nat)
    requires m < Pow10(w) && n < Pow10(w)
    ensures Text.Less(Fixed(m, w), Fixed(n, w)) <==> m < n
    ensures Fixed(m, w) == Fixed(n, w) <==> m == n
  {
    if w > 0 {
      FixedOrder(m / 10, n / 10, w - 1);
      var a, b := [Digit(m % 10)], [Digit(n % 10)];
      Text.LessConcat(Fixed(m / 10, w - 1), Fixed(n / 10, w - 1), a, b);
      assert Fixed(m, w)[..w - 1] == Fixed(m / 10, w - 1) && Fixed(n, w)[..w - 1] == Fixed(n / 10, w - 1);
      assert Fixed(m, w)[w - 1] == a[0] && Fixed(n, w)[w - 1] == b[0];
      assert Text.Less(a, b) <==> m % 10 < n % 10 by { assert !Text.Less(a[1..], b[1..]); }
    }
  }
}

/** `u64::to_le_bytes` and its inverse. */
module LittleEndian {
  import opened Words

  function Bytes(n: nat, k: nat): (s: seq<byte>)
    ensures |s| == k
  {
    if k == 0 then [] else [n % 256] + Bytes(n / 256, k - 1)
  }

  function Number(s: seq<byte>): nat {
    if s == [] then 0 else s[0] + 256 * Number(s[1..])
  }

  function Pow256(k: nat): nat {
    if k == 0 then 1 else 256 * Pow256(k - 1)
  }

  lemma {:induction false} NumberOfBytes(n: nat, k: nat)
    requires n < Pow256(k)
    ensures Number(Bytes(n, k)) == n
  {
    if k > 0 {
      NumberOfBytes(n / 256, k - 1);
    }
  }

  /** The eight bytes of a `u64`. */
  function Le(n: u64): (s: seq<byte>)
    ensures |s| == 8
  {
    Bytes(n, 8)
  }

  lemma LeRoundTrip(n: u64)
    ensures Number(Le(n)) == n
  {
    assert Pow256(4) == 0x1_0000_0000;
    assert Pow256(8) == 256 * (256 * (256 * (256 * Pow256(4))));
    NumberOfBytes(n, 8);
  }
}

/** Sums of weights over a sequence. */
module Sums {
  function Sum<A>(w: A -> int, xs: seq<A>): int {
    if xs == [] then 0 else w(xs[0]) + Sum(w, xs[1..])
  }

  lemma {:induction false} SumAppend<A>(w: A -> int, xs: seq<A>, x: A)
    ensures Sum(w, xs + [x]) == Sum(w, xs) + w(x)
  {
    if xs == [] {
      assert xs + [x] == [x];
    } else {
      SumAppend(w, xs[1..], x);
      assert (xs + [x])[1..] == xs[1..] + [x];
    }
  }

  lemma {:induction false} SumUpdate<A>(w: A -> int, xs: seq<A>, i: nat, x: A)
    requires i < |xs|
    ensures Sum(w, xs[i := x]) == Sum(w, xs) - w(xs[i]) + w(x)
  {
    if i > 0 {
      SumUpdate(w, xs[1..], i - 1, x);
      assert xs[i := x][1..] == xs[1..][i - 1 := x];
    } else {
      assert xs[i := x][1..] == xs[1..];
    }
  }

  /** A sum of non-negative weights is at least each of them. */
  lemma {:induction false} SumAtLeast<A(!new)>(w: A -> int, xs: seq<A>)
    requires forall x :: w(x) >= 0
    ensures Sum(w, xs) >= 0 && forall i :: 0 <= i < |xs| ==> Sum(w, xs) >= w(xs[i])
  {
    if xs != [] {
      SumAtLeast(w, xs[1..]);
      forall i | 0 <= i < |xs|
        ensures Sum(w, xs) >= w(xs[i])
      {
        assert i > 0 ==> xs[i] == xs[1..][i - 1];
      }
    }
  }

  /** A sum of equal weights. */
  lemma {:induction false} SumOfEqual<A>(w: A -> int, xs: seq<A>, v: int)
    requires forall i :: 0 <= i < |xs| ==> w(xs[i]) == v
    ensures v == 0 ==> Sum(w, xs) == 0
    ensures v == 1 ==> Sum(w, xs) == |xs|
  {
    if xs != [] {
      SumOfEqual(w, xs[1..], v);
    }
  }
}

/** Runs of a machine whose steps may be refused. */
module Runs {
  /** What a step does, when it can happen, and what it counts for. */
  datatype Machine<!W, !O> = Machine(step: (W, O) -> W, can: (W, O) -> bool, cost: O -> nat)

  /** The run `ops` can happen from `w` and ends in `w'`. */
  predicate Leads<W(==), O>(m: Machine<W, O>, w: W, ops: seq<O>, w': W)
    decreases |ops|
  {
    if ops == [] then w == w' else m.can(w, ops[0]) && Leads(m, m.step(w, ops[0]), ops[1..], w')
  }

  function Cost<W, O>(m: Machine<W, O>, ops: seq<O>): nat {
    if ops == [] then 0 else m.cost(ops[0]) + Cost(m, ops[1..])
  }

  lemma One<W, O>(m: Machine<W, O>, w: W, o: O)
    requires m.can(w, o)
    ensures Leads(m, w, [o], m.step(w, o)) && Cost(m, [o]) == m.cost(o)
  {
    assert [o][1..] == [];
  }

  lemma {:induction false} Join<W, O>(m: Machine<W, O>, w: W, a: seq<O>, x: W, b: seq<O>, y: W)
    requires Leads(m, w, a, x) && Leads(m, x, b, y)
    ensures Leads(m, w, a + b, y) && Cost(m, a + b) == Cost(m, a) + Cost(m, b)
    decreases |a|
  {
    if a == [] {
      assert a + b == b;
    } else {
      Join(m, m.step(w, a[0]), a[1..], x, b, y);
      assert (a + b)[1..] == a[1..] + b;
    }
  }
}
