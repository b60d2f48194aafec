/** The structural route signature: two passes of an FNV-1a loop over a plan (`src/template_cache.rs`). Its
    multiplier is 2^32 + 0x1b3, where FNV-1a has the prime 2^40 + 0x1b3; all that matters here is that it
    is odd. */
module Signature {
  import opened Options
  import opened Words
  import opened RoutePlan
  import Text

  // ── One step of the hash, and its inverse ─────────────────────────────────

  /** The byte a UTF-8 code unit stands for. */
  function Unit(c: char): bv64 {
    (c as int % 256) as bv64
  }

  function MixBits(h: bv64, b: bv64): bv64 {
    (h ^ b) * 0x0000_0001_0000_01b3
  }

  /** The multiplier's inverse modulo 2^64 undoes the multiplication. */
  function UnmixBits(g: bv64, b: bv64): bv64 {
    (g * 0xb153_003e_aff6_957b) ^ b
  }

  lemma UnmixMix(h: bv64, b: bv64)
    ensures UnmixBits(MixBits(h, b), b) == h
  {
    calc {
      UnmixBits(MixBits(h, b), b);
      UnmixBits((h ^ b) * 0x0000_0001_0000_01b3, b);
      (((h ^ b) * 0x0000_0001_0000_01b3) * 0xb153_003e_aff6_957b) ^ b;
      h;
    }
  }

  lemma MixUnmix(g: bv64, b: bv64)
    ensures MixBits(UnmixBits(g, b), b) == g
  {
    calc {
      MixBits(UnmixBits(g, b), b);
      MixBits((g * 0xb153_003e_aff6_957b) ^ b, b);
      (((g * 0xb153_003e_aff6_957b) ^ b) ^ b) * 0x0000_0001_0000_01b3;
      g;
    }
  }

  /** The byte can be read back too, when the hash before it is known. */
  lemma ByteBack(h: bv64, b: bv64)
    ensures UnmixBits(MixBits(h, b), h) == b
  {
    calc {
      UnmixBits(MixBits(h, b), h);
      UnmixBits((h ^ b) * 0x0000_0001_0000_01b3, h);
      (((h ^ b) * 0x0000_0001_0000_01b3) * 0xb153_003e_aff6_957b) ^ h;
      b;
    }
  }

  function Mix(h: bv64, c: char): bv64 {
    MixBits(h, Unit(c))
  }

  function Unmix(g: bv64, c: char): bv64 {
    UnmixBits(g, Unit(c))
  }

  /** `unstep` undoes `step`, for every character, in either order. */
  ghost predicate Inverse<H(!new)>(step: (H, char) -> H, unstep: (H, char) -> H) {
    && (forall h: H, c: char :: unstep(step(h, c), c) == h)
    && (forall h: H, c: char :: step(unstep(h, c), c) == h)
  }

  lemma MixBijective()
    ensures Inverse(Mix, Unmix)
  {
    forall h: bv64, c: char
      ensures Unmix(Mix(h, c), c) == h && Mix(Unmix(h, c), c) == h
    {
      UnmixMix(h, Unit(c));
      MixUnmix(h, Unit(c));
    }
  }

  // ── Hashing a text ────────────────────────────────────────────────────────

  /** Feeding a text to a hash, one character at a time. */
  function Fold<H>(step: (H, char) -> H, seed: H, s: string): H
    decreases |s|
  {
    if s == "" then seed else Fold(step, step(seed, s[0]), s[1..])
  }

  /** The seed from which a text hashes to `g`. */
  function Unfold<H>(unstep: (H, char) -> H, g: H, s: string): H
    decreases |s|
  {
    if s == "" then g else Unfold(unstep, unstep(g, s[|s| - 1]), s[..|s| - 1])
  }

  lemma {:induction false} FoldAppend<H>(step: (H, char) -> H, seed: H, s: string, t: string)
    ensures Fold(step, seed, s + t) == Fold(step, Fold(step, seed, s), t)
    decreases |s|
  {
    if s == "" {
      assert s + t == t;
    } else {
      FoldAppend(step, step(seed, s[0]), s[1..], t);
      assert (s + t)[1..] == s[1..] + t;
    }
  }

  lemma FoldOne<H>(step: (H, char) -> H, seed: H, c: char)
    ensures Fold(step, seed, [c]) == step(seed, c)
  {
    assert [c][1..] == "";
  }

  lemma FoldLast<H>(step: (H, char) -> H, seed: H, s: string)
    requires s != ""
    ensures Fold(step, seed, s) == step(Fold(step, seed, s[..|s| - 1]), s[|s| - 1])
  {
    FoldAppend(step, seed, s[..|s| - 1], [s[|s| - 1]]);
    FoldOne(step, Fold(step, seed, s[..|s| - 1]), s[|s| - 1]);
    assert s == s[..|s| - 1] + [s[|s| - 1]];
  }

  /** When each step can be undone, hashing any text is a bijection of the seed. */
  lemma {:induction false} FoldBijective<H(!new)>(step: (H, char) -> H, unstep: (H, char) -> H, h: H, s: string)
    requires Inverse(step, unstep)
    ensures Unfold(unstep, Fold(step, h, s), s) == h && Fold(step, Unfold(unstep, h, s), s) == h
    decreases |s|
  {
    if s != "" {
      var n := |s| - 1;
      FoldLast(step, h, s);
      FoldBijective(step, unstep, h, s[..n]);
      FoldBijective(step, unstep, unstep(h, s[n]), s[..n]);
      FoldLast(step, Unfold(unstep, h, s), s);
    }
  }

  /** For every text the hash is a bijection of the 64-bit seed. */
  lemma Fnv1aBijective(h: bv64, s: string)
    ensures Unfold(Unmix, Fold(Mix, h, s), s) == h && Fold(Mix, Unfold(Unmix, h, s), s) == h
  {
    MixBijective();
    FoldBijective(Mix, Unmix, h, s);
  }

  // ── The bytes fed for a plan ──────────────────────────────────────────────

  predicate AmountKey(k: string) {
    k == "inAmount" || k == "outAmount" || k == "feeAmount"
  }

  function ValueText(v: Json): string {
    match v
    case Str(s) => s
    case Bool(b) => if b then "T" else "F"
    case Number(t) => t
    case _ => ""
  }

  function FieldText(k: string, v: Json): string {
    if AmountKey(k) then "" else k + ("=" + (ValueText(v) + ";"))
  }

  ghost predicate IsLeast(k: string, keys: set<string>) {
    k in keys && forall j :: j in keys && j != k ==> Text.Less(k, j)
  }

  lemma {:induction false} LeastExists(keys: set<string>) returns (k: string)
    requires keys != {}
    ensures IsLeast(k, keys)
  {
    var x :| x in keys;
    if keys == {x} {
      k := x;
    } else {
      var m := LeastExists(keys - {x});
      Text.LessTotal(x, m);
      k := if Text.Less(x, m) then x else m;
      forall j | j in keys && j != k
        ensures Text.Less(k, j)
      {
        if k == x && j != m {
          Text.LessTransitive(x, m, j);
        }
      }
    }
  }

  lemma LeastUnique(j: string, k: string, keys: set<string>)
    requires IsLeast(j, keys) && IsLeast(k, keys)
    ensures j == k
  {
    Text.LessTotal(j, k);
  }

  /** The keys in byte order. */
  ghost function SortedKeys(keys: set<string>): (r: seq<string>)
    ensures forall k :: k in r <==> k in keys
    ensures forall i, j :: 0 <= i < j < |r| ==> r[i] != r[j] && Text.Less(r[i], r[j])
  {
    if keys == {} then []
    else
      assert exists k :: IsLeast(k, keys) by { var k := LeastExists(keys); }
      var k :| IsLeast(k, keys);
      [k] + SortedKeys(keys - {k})
  }

  ghost predicate HasAll(m: Fields, ks: seq<string>) {
    forall k :: k in ks ==> k in m
  }

  ghost function FieldsText(ks: seq<string>, m: Fields): string
    requires HasAll(m, ks)
  {
    if ks == [] then "" else FieldText(ks[0], m[ks[0]]) + FieldsText(ks[1..], m)
  }

  ghost function HopText(hop: Json): string {
    match SwapInfo(hop)
    case None => ""
    case Some(m) => FieldsText(SortedKeys(m.Keys), m)
  }

  /** The texts of all elements, one after the other. */
  ghost function Concat<T>(text: T -> string, xs: seq<T>): string {
    if xs == [] then "" else text(xs[0]) + Concat(text, xs[1..])
  }

  ghost function HopsText(hops: seq<Json>): string {
    Concat(HopText, hops)
  }

  ghost function PlanText(plan: Json): string {
    if plan.Arr? then HopsText(plan.items) else ""
  }

  ghost function Fnv1a(plan: Json, seed: bv64): bv64 {
    Fold(Mix, seed, PlanText(plan))
  }

  const SEED1: bv64 := 0xcbf2_9ce4_8422_2325
  const SEED2: bv64 := 0x517c_c1b7_2722_0a95

  /** The 128-bit signature: the first pass in the high half, the second in the low half. */
  ghost function RouteSig(plan: Json): (sig: u128)
    ensures High(sig) == Fnv1a(plan, SEED1) as int && Low(sig) == Fnv1a(plan, SEED2) as int
  {
    var h1, h2 := Fnv1a(plan, SEED1) as int, Fnv1a(plan, SEED2) as int;
    Halves(h1, h2);
    h1 * TWO64 + h2
  }

  function High(sig: nat): nat {
    sig / TWO64
  }

  function Low(sig: nat): nat {
    sig % TWO64
  }

  lemma Halves(h1: int, h2: int)
    requires 0 <= h1 < TWO64 && 0 <= h2 < TWO64
    ensures 0 <= h1 * TWO64 + h2 < TWO128
    ensures High(h1 * TWO64 + h2) == h1 && Low(h1 * TWO64 + h2) == h2
  {
  }

  // ── The loops of the source ───────────────────────────────────────────────

  method Feed<H>(step: (H, char) -> H, h0: H, bytes: string) returns (h: H)
    ensures h == Fold(step, h0, bytes)
  {
    h := h0;
    for i := 0 to |bytes|
      invariant h == Fold(step, h0, bytes[..i])
    {
      FoldLast(step, h0, bytes[..i + 1]);
      assert bytes[..i + 1][..i] == bytes[..i];
      h := step(h, bytes[i]);
    }
    assert bytes[..|bytes|] == bytes;
  }

  /** The next key of the sorted order. */
  method TakeLeast(keys: set<string>) returns (k: string, rest: set<string>)
    requires keys != {}
    ensures k in keys && rest == keys - {k} && SortedKeys(keys) == [k] + SortedKeys(rest)
  {
    ghost var least := LeastExists(keys);
    LeastUniqueAll(keys, least);
    k :| k in keys && forall j :: j in keys && j != k ==> Text.Less(k, j);
    assert IsLeast(k, keys);
    rest := keys - {k};
  }

  lemma LeastUniqueAll(keys: set<string>, k: string)
    requires IsLeast(k, keys)
    ensures forall j :: IsLeast(j, keys) ==> j == k
  {
    forall j | IsLeast(j, keys)
      ensures j == k
    {
      LeastUnique(j, k, keys);
    }
  }

  method FeedHop<H>(step: (H, char) -> H, h0: H, m: Fields) returns (h: H)
    ensures h == Fold(step, h0, FieldsText(SortedKeys(m.Keys), m))
  {
    h := h0;
    var keys := m.Keys;
    while keys != {}
      invariant keys <= m.Keys
      invariant Fold(step, h0, FieldsText(SortedKeys(m.Keys), m)) == Fold(step, h, FieldsText(SortedKeys(keys), m))
      decreases |keys|
    {
      var k, rest := TakeLeast(keys);
      ghost var tail := FieldsTextStep(k, rest, keys, m);
      FoldAppend(step, h, FieldText(k, m[k]), tail);
      if !AmountKey(k) {
        FoldField(step, h, k, ValueText(m[k]));
        h := Feed(step, h, k);
        h := Feed(step, h, "=");
        h := Feed(step, h, ValueText(m[k]));
        h := Feed(step, h, ";");
      }
      keys := rest;
    }
  }

  lemma FieldsTextStep(k: string, rest: set<string>, keys: set<string>, m: Fields) returns (tail: string)
    requires keys <= m.Keys && k in keys && rest == keys - {k} && SortedKeys(keys) == [k] + SortedKeys(rest)
    ensures tail == FieldsText(SortedKeys(rest), m)
    ensures FieldsText(SortedKeys(keys), m) == FieldText(k, m[k]) + tail
  {
    tail := FieldsText(SortedKeys(rest), m);
    assert SortedKeys(keys)[1..] == SortedKeys(rest);
  }

  lemma FoldField<H>(step: (H, char) -> H, h: H, k: string, v: string)
    ensures Fold(step, Fold(step, Fold(step, Fold(step, h, k), "="), v), ";")
            == Fold(step, h, k + ("=" + (v + ";")))
  {
    FoldAppend(step, Fold(step, Fold(step, h, k), "="), v, ";");
    FoldAppend(step, Fold(step, h, k), "=", v + ";");
    FoldAppend(step, h, k, "=" + (v + ";"));
  }

  method FeedPlan<H>(step: (H, char) -> H, plan: Json, seed: H) returns (h: H)
    ensures h == Fold(step, seed, PlanText(plan))
  {
    h := seed;
    if plan.Arr? {
      var hops := plan.items;
      for i := 0 to |hops|
        invariant Fold(step, seed, HopsText(hops)) == Fold(step, h, HopsText(hops[i..]))
      {
        FoldAppend(step, h, HopText(hops[i]), HopsText(hops[i + 1..]));
        assert hops[i..][1..] == hops[i + 1..];
        match SwapInfo(hops[i])
        case None =>
        case Some(m) => h := FeedHop(step, h, m);
      }
    }
  }

  /** `fnv1a_64` */
  method ComputeFnv1a(plan: Json, seed: bv64) returns (h: bv64)
    ensures h == Fnv1a(plan, seed)
  {
    h := FeedPlan(Mix, plan, seed);
  }

  /** `route_sig` */
  method ComputeRouteSig(plan: Json) returns (sig: u128)
    ensures sig == RouteSig(plan)
  {
    var h1 := ComputeFnv1a(plan, SEED1);
    var h2 := ComputeFnv1a(plan, SEED2);
    Halves(h1 as int, h2 as int);
    sig := h1 as int * TWO64 + h2 as int;
  }

  // ── What the signature separates ──────────────────────────────────────────

  /** The two passes never agree: the halves of every signature differ. */
  lemma HalvesDiffer(plan: Json)
    ensures High(RouteSig(plan)) != Low(RouteSig(plan))
  {
    PassesDiffer(plan);
    if Fnv1a(plan, SEED1) as int == Fnv1a(plan, SEED2) as int {
      AsIntInjective(Fnv1a(plan, SEED1), Fnv1a(plan, SEED2));
    }
  }

  lemma PassesDiffer(plan: Json)
    ensures Fnv1a(plan, SEED1) != Fnv1a(plan, SEED2)
  {
    Fnv1aBijective(SEED1, PlanText(plan));
    Fnv1aBijective(SEED2, PlanText(plan));
  }

  lemma AsIntInjective(x: bv64, y: bv64)
    requires x as int == y as int
    ensures x == y
  {
    BackToBits(x);
    BackToBits(y);
  }

  lemma BackToBits(x: bv64)
    ensures (x as int) as bv64 == x
  {
  }

  /** The plan `hops` with field `k` of hop `i`'s swapInfo set to `v`. */
  function WithField(hops: seq<Json>, i: nat, k: string, v: Json): seq<Json>
    requires i < |hops| && SwapInfo(hops[i]).Some?
  {
    hops[i := Obj(hops[i].fields["swapInfo" := Obj(SwapInfo(hops[i]).value[k := v])])]
  }

  lemma {:induction false} FieldsTextChange(ks: seq<string>, m: Fields, k: string, v: Json)
    returns (before: string, after: string)
    requires HasAll(m, ks) && k in ks && (forall i, j :: 0 <= i < j < |ks| ==> ks[i] != ks[j])
    ensures FieldsText(ks, m) == before + (FieldText(k, m[k]) + after)
    ensures FieldsText(ks, m[k := v]) == before + (FieldText(k, v) + after)
  {
    if ks[0] == k {
      before, after := "", FieldsText(ks[1..], m);
      FieldsTextSame(ks[1..], m, m[k := v]);
    } else {
      var b, a := FieldsTextChange(ks[1..], m, k, v);
      before, after := FieldText(ks[0], m[ks[0]]) + b, a;
      AssocThree(FieldText(ks[0], m[ks[0]]), b, FieldText(k, m[k]) + a);
      AssocThree(FieldText(ks[0], m[ks[0]]), b, FieldText(k, v) + a);
    }
  }

  lemma AssocThree(a: string, b: string, c: string)
    ensures a + (b + c) == (a + b) + c
  {
  }

  lemma {:induction false} FieldsTextSame(ks: seq<string>, m: Fields, m': Fields)
    requires HasAll(m, ks) && HasAll(m', ks) && (forall k :: k in ks ==> m[k] == m'[k])
    ensures FieldsText(ks, m) == FieldsText(ks, m')
  {
    if ks != [] {
      FieldsTextSame(ks[1..], m, m');
    }
  }

  lemma {:induction false} ConcatSplit<T>(text: T -> string, xs: seq<T>, i: nat)
    requires i < |xs|
    ensures Concat(text, xs) == Concat(text, xs[..i]) + (text(xs[i]) + Concat(text, xs[i + 1..]))
  {
    if i > 0 {
      ConcatSplit(text, xs[1..], i - 1);
      assert xs[1..][..i - 1] == xs[..i][1..] && xs[1..][i..] == xs[i + 1..];
      AssocThree(text(xs[0]), Concat(text, xs[..i][1..]), text(xs[i]) + Concat(text, xs[i + 1..]));
    }
  }

  lemma {:induction false} ConcatSame<T>(text: T -> string, xs: seq<T>, ys: seq<T>)
    requires |xs| == |ys| && forall i :: 0 <= i < |xs| ==> text(xs[i]) == text(ys[i])
    ensures Concat(text, xs) == Concat(text, ys)
  {
    if xs != [] {
      ConcatSame(text, xs[1..], ys[1..]);
    }
  }

  /** One differing character between equal texts changes the hash from any seed. */
  lemma OneCharSeparates<H(!new)>(step: (H, char) -> H, unstep: (H, char) -> H, seed: H,
                                  a: string, c: char, d: char, b: string)
    requires Inverse(step, unstep) && (forall h: H :: step(h, c) != step(h, d))
    ensures Fold(step, seed, a + ([c] + b)) != Fold(step, seed, a + ([d] + b))
  {
    var h := Fold(step, seed, a);
    FoldAppend(step, seed, a, [c] + b);
    FoldAppend(step, seed, a, [d] + b);
    FoldAppend(step, h, [c], b);
    FoldAppend(step, h, [d], b);
    FoldOne(step, h, c);
    FoldOne(step, h, d);
    FoldBijective(step, unstep, step(h, c), b);
    FoldBijective(step, unstep, step(h, d), b);
  }

  /** Different bytes never mix to the same hash. */
  lemma UnitsSeparate(c: char, d: char)
    requires c as int % 256 != d as int % 256
    ensures forall h: bv64 :: Mix(h, c) != Mix(h, d)
  {
    UnitsDiffer(c, d);
    forall h: bv64
      ensures Mix(h, c) != Mix(h, d)
    {
      if MixBits(h, Unit(c)) == MixBits(h, Unit(d)) {
        ByteBack(h, Unit(c));
        ByteBack(h, Unit(d));
      }
    }
  }

  lemma UnitsDiffer(c: char, d: char)
    requires c as int % 256 != d as int % 256
    ensures Unit(c) != Unit(d)
  {
    var m, n := c as int % 256, d as int % 256;
    EightBits(m);
    EightBits(n);
    if Unit(c) == Unit(d) {
      WidenInjective(m as bv8, n as bv8);
    }
  }

  lemma EightBits(n: nat)
    requires n < 256
    ensures (n as bv8) as bv64 == n as bv64 && (n as bv8) as int == n
  {
    Widen(n);
    Narrow(n);
  }

  lemma Widen(n: nat)
    requires n < 256
    ensures (n as bv8) as bv64 == n as bv64
  {
  }

  lemma {:induction false} Narrow(n: nat)
    requires n < 256
    ensures (n as bv8) as int == n
  {
    if n > 0 {
      Narrow(n - 1);
      OneMore((n - 1) as bv8);
    }
  }

  lemma OneMore(b: bv8)
    requires b != 255
    ensures (b + 1) as int == b as int + 1 && ((b + 1) as int) as bv8 == b + 1
  {
  }

  lemma WidenInjective(m: bv8, n: bv8)
    requires m as bv64 == n as bv64
    ensures m == n
  {
  }

  lemma SigDiffers(p: Json, q: Json)
    requires Fnv1a(p, SEED1) != Fnv1a(q, SEED1) && Fnv1a(p, SEED2) != Fnv1a(q, SEED2)
    ensures High(RouteSig(p)) != High(RouteSig(q)) && Low(RouteSig(p)) != Low(RouteSig(q))
  {
    if High(RouteSig(p)) == High(RouteSig(q)) {
      AsIntInjective(Fnv1a(p, SEED1), Fnv1a(q, SEED1));
    }
    if Low(RouteSig(p)) == Low(RouteSig(q)) {
      AsIntInjective(Fnv1a(p, SEED2), Fnv1a(q, SEED2));
    }
  }

  /** Setting a field to one value or another changes the fed text only where the value stands. */
  lemma SetFieldTexts(hops: seq<Json>, i: nat, k: string, v: Json, w: Json) returns (before: string, after: string)
    requires i < |hops| && SwapInfo(hops[i]).Some? && !AmountKey(k)
    ensures HopsText(WithField(hops, i, k, v)) == before + (ValueText(v) + after)
    ensures HopsText(WithField(hops, i, k, w)) == before + (ValueText(w) + after)
  {
    var m := SwapInfo(hops[i]).value[k := v];
    var n := m[k := w];
    assert n == SwapInfo(hops[i]).value[k := w] && n.Keys == m.Keys;
    var ps, qs := WithField(hops, i, k, v), WithField(hops, i, k, w);
    assert SwapInfo(ps[i]) == Some(m) && SwapInfo(qs[i]) == Some(n);
    var b1, a1 := HopsText(ps[..i]), HopsText(ps[i + 1..]);
    ConcatSplit(HopText, ps, i);
    ConcatSplit(HopText, qs, i);
    assert qs[..i] == ps[..i] && qs[i + 1..] == ps[i + 1..];
    var b2, a2 := FieldsTextChange(SortedKeys(m.Keys), m, k, w);
    before := b1 + (b2 + (k + "="));
    after := ";" + (a2 + a1);
    Surround(b1, b2, k, ValueText(v), a2, a1);
    Surround(b1, b2, k, ValueText(w), a2, a1);
  }

  lemma Surround(b1: string, b2: string, k: string, v: string, a2: string, a1: string)
    ensures b1 + ((b2 + ((k + ("=" + (v + ";"))) + a2)) + a1)
            == (b1 + (b2 + (k + "="))) + (v + (";" + (a2 + a1)))
  {
  }

  /** Two values whose texts differ in one byte give signatures that differ in both halves. */
  lemma OneByteSeparates(hops: seq<Json>, i: nat, k: string, v: Json, w: Json, x: string, c: char, d: char, y: string)
    requires i < |hops| && SwapInfo(hops[i]).Some? && !AmountKey(k) && c as int % 256 != d as int % 256
    requires ValueText(v) == x + ([c] + y) && ValueText(w) == x + ([d] + y)
    ensures var p, q := Arr(WithField(hops, i, k, v)), Arr(WithField(hops, i, k, w));
            High(RouteSig(p)) != High(RouteSig(q)) && Low(RouteSig(p)) != Low(RouteSig(q))
  {
    var before, after := SetFieldTexts(hops, i, k, v, w);
    Inside(before, x, c, y, after);
    Inside(before, x, d, y, after);
    MixBijective();
    UnitsSeparate(c, d);
    OneCharSeparates(Mix, Unmix, SEED1, before + x, c, d, y + after);
    OneCharSeparates(Mix, Unmix, SEED2, before + x, c, d, y + after);
    SigDiffers(Arr(WithField(hops, i, k, v)), Arr(WithField(hops, i, k, w)));
  }

  lemma Inside(before: string, x: string, c: char, y: string, after: string)
    ensures before + ((x + ([c] + y)) + after) == (before + x) + ([c] + (y + after))
  {
  }

  /** Plans that differ in one byte of one string field of one hop, a pool, a mint or a label, have
      signatures that differ in both halves. */
  lemma StringFieldSeparates(hops: seq<Json>, i: nat, k: string, x: string, c: char, d: char, y: string)
    requires i < |hops| && SwapInfo(hops[i]).Some?
    requires k != "inAmount" && k != "outAmount" && k != "feeAmount" && c as int % 256 != d as int % 256
    ensures var p, q := Arr(WithField(hops, i, k, Str(x + [c] + y))), Arr(WithField(hops, i, k, Str(x + [d] + y)));
            High(RouteSig(p)) != High(RouteSig(q)) && Low(RouteSig(p)) != Low(RouteSig(q))
  {
    assert x + [c] + y == x + ([c] + y) && x + [d] + y == x + ([d] + y);
    OneByteSeparates(hops, i, k, Str(x + [c] + y), Str(x + [d] + y), x, c, d, y);
  }

  /** So have plans that differ in one digit of one number. */
  lemma NumberFieldSeparates(hops: seq<Json>, i: nat, k: string, x: string, c: char, d: char, y: string)
    requires i < |hops| && SwapInfo(hops[i]).Some?
    requires k != "inAmount" && k != "outAmount" && k != "feeAmount" && c as int % 256 != d as int % 256
    ensures var p, q := Arr(WithField(hops, i, k, Number(x + [c] + y))), Arr(WithField(hops, i, k, Number(x + [d] + y)));
            High(RouteSig(p)) != High(RouteSig(q)) && Low(RouteSig(p)) != Low(RouteSig(q))
  {
    assert x + [c] + y == x + ([c] + y) && x + [d] + y == x + ([d] + y);
    OneByteSeparates(hops, i, k, Number(x + [c] + y), Number(x + [d] + y), x, c, d, y);
  }

  lemma SetToItself(hops: seq<Json>, i: nat, k: string)
    requires i < |hops| && SwapInfo(hops[i]).Some? && k in SwapInfo(hops[i]).value
    ensures WithField(hops, i, k, SwapInfo(hops[i]).value[k]) == hops
  {
    var m := SwapInfo(hops[i]).value;
    assert m[k := m[k]] == m;
    assert hops[i].fields["swapInfo" := Obj(m)] == hops[i].fields;
    assert hops[i := hops[i]] == hops;
  }

  /** Flipping one boolean field of one hop changes both halves of the signature. */
  lemma BooleanFieldSeparates(hops: seq<Json>, i: nat, k: string)
    requires i < |hops| && SwapInfo(hops[i]).Some?
    requires k in SwapInfo(hops[i]).value && SwapInfo(hops[i]).value[k].Bool? && !AmountKey(k)
    ensures var b := SwapInfo(hops[i]).value[k].b;
            var p, q := Arr(hops), Arr(WithField(hops, i, k, Bool(!b)));
            High(RouteSig(p)) != High(RouteSig(q)) && Low(RouteSig(p)) != Low(RouteSig(q))
  {
    var m := SwapInfo(hops[i]).value;
    var b := m[k].b;
    SetToItself(hops, i, k);
    var c, d := if b then 'T' else 'F', if b then 'F' else 'T';
    assert 'T' as int % 256 == 84 && 'F' as int % 256 == 70;
    OneByteSeparates(hops, i, k, Bool(b), Bool(!b), "", c, d, "");
  }

  // ── What is hashed, field by field ────────────────────────────────────────

  function HopWith(m: Fields): Json {
    Obj(map["swapInfo" := Obj(m)])
  }

  /** A plan without hops, or no array at all, feeds nothing; so does a hop without a swapInfo object or
      with an empty one. */
  lemma NothingHashed(plan: Json, hop: Json, seed: bv64)
    requires plan.Arr? ==> plan.items == []
    requires !(hop.Obj? && "swapInfo" in hop.fields && hop.fields["swapInfo"].Obj? && hop.fields["swapInfo"].fields != map[])
    ensures Fnv1a(plan, seed) == seed && Fnv1a(Arr([hop]), seed) == seed
  {
    HopsOfOne(hop);
    if SwapInfo(hop).Some? {
      assert SwapInfo(hop).value.Keys == {};
      assert SortedKeys({}) == [];
    }
  }

  lemma HopsOfOne(hop: Json)
    ensures PlanText(Arr([hop])) == HopText(hop)
  {
    assert [hop][1..] == [];
    assert HopsText([hop]) == HopText(hop) + HopsText([]);
  }

  /** Hops are hashed one after the other: the hash of a hop goes on where that of the hops before it ended. */
  lemma HashedHopByHop(hops: seq<Json>, hop: Json, seed: bv64)
    ensures Fnv1a(Arr(hops + [hop]), seed) == Fnv1a(Arr([hop]), Fnv1a(Arr(hops), seed))
  {
    ConcatSplit(HopText, hops + [hop], |hops|);
    assert (hops + [hop])[..|hops|] == hops && (hops + [hop])[|hops| + 1..] == [];
    assert HopText(hop) + HopsText([]) == HopText(hop);
    HopsOfOne(hop);
    FoldAppend(Mix, seed, HopsText(hops), HopText(hop));
  }

  ghost predicate Above(k: string, keys: set<string>) {
    k !in keys && forall j :: j in keys ==> Text.Less(j, k)
  }

  lemma AboveFewer(k: string, keys: set<string>, fewer: set<string>)
    requires Above(k, keys) && fewer <= keys
    ensures Above(k, fewer)
  {
  }

  lemma {:induction false} SortedWithLast(keys: set<string>, k: string)
    requires Above(k, keys)
    ensures SortedKeys(keys + {k}) == SortedKeys(keys) + [k]
    decreases |keys|
  {
    if keys == {} {
      SortedOne(k);
      assert keys + {k} == {k};
    } else {
      var least := LeastExists(keys);
      var rest := keys - {least};
      AboveFewer(k, keys, rest);
      SortedWithLast(rest, k);
      LeastWithLast(keys, least, k);
      SortedBoth(keys, least, k);
      AppendInside(least, SortedKeys(rest), k);
    }
  }

  lemma AppendInside(x: string, xs: seq<string>, y: string)
    ensures [x] + (xs + [y]) == ([x] + xs) + [y]
  {
  }

  lemma SortedOne(k: string)
    ensures SortedKeys({k}) == [k] && SortedKeys({}) == []
  {
    assert IsLeast(k, {k}) && {k} - {k} == {};
    SortedUnfold({k}, k);
  }

  /** What the least key leaves. */
  lemma SortedBoth(keys: set<string>, least: string, k: string)
    requires IsLeast(least, keys) && IsLeast(least, keys + {k}) && k !in keys
    ensures SortedKeys(keys) == [least] + SortedKeys(keys - {least})
    ensures SortedKeys(keys + {k}) == [least] + SortedKeys(keys - {least} + {k})
  {
    SortedUnfold(keys, least);
    SortedUnfold(keys + {k}, least);
    assert keys + {k} - {least} == keys - {least} + {k};
  }

  lemma LeastWithLast(keys: set<string>, least: string, k: string)
    requires IsLeast(least, keys) && Above(k, keys)
    ensures IsLeast(least, keys + {k})
  {
  }

  lemma {:induction false} FieldsTextLast(ks: seq<string>, k: string, m: Fields)
    requires HasAll(m, ks + [k])
    ensures HasAll(m, ks) && k in m && FieldsText(ks + [k], m) == FieldsText(ks, m) + FieldText(k, m[k])
  {
    assert forall j :: j in ks + [k] <==> j in ks || j == k;
    if ks == [] {
      assert ([k])[1..] == [] && [] + [k] == [k];
    } else {
      assert (ks + [k])[1..] == ks[1..] + [k];
      FieldsTextLast(ks[1..], k, m);
    }
  }

  /** Fields are hashed in key order: the last key of a hop is hashed after the rest of the hop, with an
      equals sign, the bytes of a string or number or a T or F, and a semicolon; null, arrays and objects
      have no bytes, and the three amounts are passed over. */
  lemma HashedFieldByField(m: Fields, k: string, v: Json, seed: bv64)
    requires k !in m && forall j :: j in m ==> Text.Less(j, k)
    ensures var rest := Fnv1a(Arr([HopWith(m)]), seed);
            Fnv1a(Arr([HopWith(m[k := v])]), seed)
            == if k in {"inAmount", "outAmount", "feeAmount"} then rest
               else match v
                    case Str(s) => Fold(Mix, rest, k + "=" + s + ";")
                    case Number(n) => Fold(Mix, rest, k + "=" + n + ";")
                    case Bool(b) => Fold(Mix, rest, k + (if b then "=T;" else "=F;"))
                    case _ => Fold(Mix, rest, k + "=;")
  {
    HopTextWithLast(m, k, v);
    HopsOfOne(HopWith(m));
    HopsOfOne(HopWith(m[k := v]));
    FoldAppend(Mix, seed, HopText(HopWith(m)), FieldText(k, v));
    FieldTextIs(k, v);
  }

  lemma HopTextWithLast(m: Fields, k: string, v: Json)
    requires k !in m && forall j :: j in m ==> Text.Less(j, k)
    ensures HopText(HopWith(m[k := v])) == HopText(HopWith(m)) + FieldText(k, v)
  {
    var n := m[k := v];
    var ks := SortedKeys(m.Keys);
    assert SwapInfo(HopWith(m)) == Some(m) && SwapInfo(HopWith(n)) == Some(n);
    assert SortedKeys(n.Keys) == ks + [k] by {
      assert n.Keys == m.Keys + {k};
      SortedWithLast(m.Keys, k);
    }
    FieldsTextLast(ks, k, n);
    FieldsTextSame(ks, m, n);
  }

  lemma FieldTextIs(k: string, v: Json)
    ensures FieldText(k, v)
            == if k in {"inAmount", "outAmount", "feeAmount"} then ""
               else match v
                    case Str(s) => k + "=" + s + ";"
                    case Number(n) => k + "=" + n + ";"
                    case Bool(b) => k + (if b then "=T;" else "=F;")
                    case _ => k + "=;"
  {
    if !AmountKey(k) {
      var t := ValueText(v);
      assert k + ("=" + (t + ";")) == k + "=" + t + ";";
      assert t == "T" ==> k + ("=" + (t + ";")) == k + "=T;";
      assert t == "F" ==> k + ("=" + (t + ";")) == k + "=F;";
      assert t == "" ==> k + ("=" + (t + ";")) == k + "=;";
    }
  }

  /** A known signature, which fixes the seeds, the multiplier and which half is which. */
  lemma KnownSignature()
    ensures var plan := Arr([HopWith(map["a" := Null])]);
            High(RouteSig(plan)) == 0x36cc_9eb8_0492_3568 && Low(RouteSig(plan)) == 0x7da0_5e5d_9cd5_fc78
  {
    var plan := Arr([HopWith(map["a" := Null])]);
    HashOfA(plan, SEED1);
    HashOfA(plan, SEED2);
    UnitsOfA();
    assert MixBits(MixBits(MixBits(SEED1, 0x61), 0x3d), 0x3b) == 0x36cc_9eb8_0492_3568;
    assert MixBits(MixBits(MixBits(SEED2, 0x61), 0x3d), 0x3b) == 0x7da0_5e5d_9cd5_fc78;
  }

  lemma HashOfA(plan: Json, seed: bv64)
    requires plan == Arr([HopWith(map["a" := Null])])
    ensures Fnv1a(plan, seed) == Mix(Mix(Mix(seed, 'a'), '='), ';')
  {
    var none: Fields := map[];
    NothingHashed(Arr([]), HopWith(none), seed);
    HashedFieldByField(none, "a", Null, seed);
    assert none["a" := Null] == map["a" := Null];
    assert "a" + "=;" == ("a" + "=") + ";";
    FoldThree(seed, 'a', '=', ';');
  }

  lemma FoldThree(seed: bv64, c: char, d: char, e: char)
    ensures Fold(Mix, seed, ([c] + [d]) + [e]) == Mix(Mix(Mix(seed, c), d), e)
  {
    FoldAppend(Mix, seed, [c] + [d], [e]);
    FoldAppend(Mix, seed, [c], [d]);
    FoldOne(Mix, seed, c);
    FoldOne(Mix, Mix(seed, c), d);
    FoldOne(Mix, Mix(Mix(seed, c), d), e);
  }

  lemma UnitsOfA()
    ensures Unit('a') == 0x61 && Unit('=') == 0x3d && Unit(';') == 0x3b
  {
    assert 'a' as int % 256 == 0x61 && '=' as int % 256 == 0x3d && ';' as int % 256 == 0x3b;
  }

  // ── What the signature ignores ────────────────────────────────────────────

  /** Two hops that agree once the three amounts are left out of their swapInfo. */
  ghost predicate SameButAmounts(a: Json, b: Json) {
    match (SwapInfo(a), SwapInfo(b))
    case (None, None) => true
    case (Some(m), Some(n)) => forall k :: !AmountKey(k) ==> (k in m <==> k in n) && (k in m ==> m[k] == n[k])
    case _ => false
  }

  lemma SortedUnfold(keys: set<string>, k: string)
    requires IsLeast(k, keys)
    ensures SortedKeys(keys) == [k] + SortedKeys(keys - {k})
  {
    LeastUniqueAll(keys, k);
  }

  lemma FirstField(keys: set<string>, k: string, m: Fields)
    requires keys <= m.Keys && IsLeast(k, keys)
    ensures FieldsText(SortedKeys(keys), m) == FieldText(k, m[k]) + FieldsText(SortedKeys(keys - {k}), m)
  {
    SortedUnfold(keys, k);
    var tail := FieldsTextStep(k, keys - {k}, keys, m);
  }

  /** The fed text of a hop is that of its fields without the amounts. */
  lemma {:induction false} AmountsNotFed(keys: set<string>, kept: set<string>, m: Fields)
    requires keys <= m.Keys && kept == (set k | k in keys && !AmountKey(k))
    ensures FieldsText(SortedKeys(keys), m) == FieldsText(SortedKeys(kept), m)
    decreases |keys|
  {
    if keys == {} {
      assert kept == keys;
    } else {
      var k := LeastExists(keys);
      AmountsNotFed(keys - {k}, kept - {k}, m);
      FirstField(keys, k, m);
      if AmountKey(k) {
        assert kept - {k} == kept;
      } else {
        FirstField(kept, k, m);
      }
    }
  }

  lemma HopTextIgnoresAmounts(a: Json, b: Json)
    requires SameButAmounts(a, b)
    ensures HopText(a) == HopText(b)
  {
    if SwapInfo(a).Some? {
      var m, n := SwapInfo(a).value, SwapInfo(b).value;
      var kept := set k | k in m && !AmountKey(k);
      assert kept == set k | k in n && !AmountKey(k);
      AmountsNotFed(m.Keys, kept, m);
      AmountsNotFed(n.Keys, kept, n);
      FieldsTextSame(SortedKeys(kept), m, n);
    }
  }

  /** Plans that differ only in inAmount, outAmount and feeAmount have one signature. */
  lemma AmountsIgnored(p: seq<Json>, q: seq<Json>)
    requires |p| == |q| && forall i :: 0 <= i < |p| ==> SameButAmounts(p[i], q[i])
    ensures RouteSig(Arr(p)) == RouteSig(Arr(q))
  {
    forall i | 0 <= i < |p|
      ensures HopText(p[i]) == HopText(q[i])
    {
      HopTextIgnoresAmounts(p[i], q[i]);
    }
    ConcatSame(HopText, p, q);
  }

  /** Hop boundaries are not hashed: moving a field into the next hop keeps the signature, so equal
      signatures do not mean equal routes in general. */
  lemma BoundaryNotHashed()
    ensures var hop := (m: Fields) => Obj(map["swapInfo" := Obj(m)]);
            var p, q := Arr([hop(map["ammKey" := Str("x")])]), Arr([hop(map[]), hop(map["ammKey" := Str("x")])]);
            p != q && RouteSig(p) == RouteSig(q)
  {
    var e: Fields := map[];
    var m: Fields := map["ammKey" := Str("x")];
    var h0, h1 := Obj(map["swapInfo" := Obj(e)]), Obj(map["swapInfo" := Obj(m)]);
    assert HopText(h0) == "" by { assert e.Keys == {}; }
    assert HopsText([h1][1..]) == "" && [h0, h1][1..] == [h1];
    assert HopsText([h0, h1]) == HopsText([h1]);
    assert |[h1]| != |[h0, h1]|;
  }
}
