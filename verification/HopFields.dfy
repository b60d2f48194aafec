/** What the fields of a plan say about its hops, read straight from the JSON, and that hop keys and pair
    keys tell exactly that (`src/template_cache.rs`). */
module HopFields {
  import opened Options
  import opened Words
  import opened RoutePlan

  /** Field `key` of the hop's "swapInfo" object is `v`. */
  ghost predicate Has(hop: Json, key: string, v: Json) {
    && hop.Obj? && "swapInfo" in hop.fields && hop.fields["swapInfo"].Obj?
    && key in hop.fields["swapInfo"].fields && hop.fields["swapInfo"].fields[key] == v
  }

  // ── Pool and mints ────────────────────────────────────────────────────────

  ghost predicate Names(hop: Json, pool: string, input: string, output: string) {
    Has(hop, "ammKey", Str(pool)) && Has(hop, "inputMint", Str(input)) && Has(hop, "outputMint", Str(output))
  }

  /** The hop has strings for its pool and both mints. */
  ghost predicate Named(hop: Json) {
    exists pool, input, output :: Names(hop, pool, input, output)
  }

  // ── Label and direction ───────────────────────────────────────────────────

  ghost predicate StandsAt(part: string, s: string, i: nat) {
    i + |part| <= |s| && s[i..i + |part|] == part
  }

  /** The label is a string whose lower case holds `word`. */
  ghost predicate Labelled(hop: Json, word: string) {
    exists name, i: nat :: Has(hop, "label", Str(name)) && StandsAt(word, Lower(name), i)
  }

  /** A Whirlpool or AlphaQ label: its direction is a boolean. */
  ghost predicate BoolLabel(hop: Json) {
    || Labelled(hop, "whirlpool")
    || (!Labelled(hop, "raydium") && !Labelled(hop, "meteora") && (Labelled(hop, "alphaq") || Labelled(hop, "alpha_q")))
  }

  /** An Aldrin label: its direction is a side. */
  ghost predicate SideLabel(hop: Json) {
    && Labelled(hop, "aldrin") && !BoolLabel(hop)
    && !Labelled(hop, "raydium") && !Labelled(hop, "meteora") && !Labelled(hop, "aquifer")
  }

  const BOOL_KEYS := ["a_to_b", "aToB", "atob", "a2b"]

  /** The first of the four keys that holds a boolean holds `b`. */
  ghost predicate GoesAToB(hop: Json, b: bool) {
    && BoolLabel(hop)
    && exists i :: 0 <= i < 4 && Has(hop, BOOL_KEYS[i], Bool(b)) && forall j, c :: 0 <= j < i ==> !Has(hop, BOOL_KEYS[j], Bool(c))
  }

  ghost predicate Sides(hop: Json, side: string) {
    SideLabel(hop) && exists s :: Has(hop, "side", Str(s)) && Lower(s) == side
  }

  /** The hops go the same way: by the same boolean, on the same side, or neither says. */
  ghost predicate SameWay(a: Json, b: Json) {
    && (GoesAToB(a, true) <==> GoesAToB(b, true)) && (GoesAToB(a, false) <==> GoesAToB(b, false))
    && (Sides(a, "bid") <==> Sides(b, "bid")) && (Sides(a, "ask") <==> Sides(b, "ask"))
  }

  /** The same pool, mints and direction. */
  ghost predicate SameSwap(a: Json, b: Json) {
    SameWay(a, b) && exists pool, input, output :: Names(a, pool, input, output) && Names(b, pool, input, output)
  }

  // ── Plans ─────────────────────────────────────────────────────────────────

  /** An array of two hops with pools and mints. */
  ghost predicate TwoNamed(plan: Json) {
    plan.Arr? && |plan.items| == 2 && Named(plan.items[0]) && Named(plan.items[1])
  }

  /** Both are plans of two hops, the same pools, mints and directions in the same order. */
  ghost predicate SameHops(p: Json, q: Json) {
    && p.Arr? && q.Arr? && |p.items| == |q.items| == 2
    && SameSwap(p.items[0], q.items[0]) && SameSwap(p.items[1], q.items[1])
  }

  /** No separator stands in the hop's pool or mints. */
  ghost predicate CleanHop(hop: Json) {
    forall pool, input, output :: Names(hop, pool, input, output) ==>
      && ':' !in pool && ':' !in input && ':' !in output
      && '|' !in pool && '|' !in input && '|' !in output
  }

  ghost predicate CleanPlan(plan: Json) {
    TwoNamed(plan) ==> CleanHop(plan.items[0]) && CleanHop(plan.items[1])
  }

  // ── Hop keys say what the fields say ──────────────────────────────────────

  lemma {:induction false} ContainsExact(s: string, part: string)
    ensures Contains(s, part) <==> exists i: nat :: StandsAt(part, s, i)
    decreases |s|
  {
    if part <= s {
      assert StandsAt(part, s, 0);
    } else if s == "" {
      assert forall i: nat :: !StandsAt(part, s, i);
    } else {
      ContainsExact(s[1..], part);
      if Contains(s[1..], part) {
        var i: nat :| StandsAt(part, s[1..], i);
        StandsInRest(part, s, i);
        assert StandsAt(part, s, i + 1);
      }
      forall i: nat | StandsAt(part, s, i)
        ensures Contains(s[1..], part)
      {
        assert i > 0;
        StandsInRest(part, s, i - 1);
      }
    }
  }

  lemma StandsInRest(part: string, s: string, i: nat)
    requires s != ""
    ensures StandsAt(part, s[1..], i) <==> StandsAt(part, s, i + 1)
  {
    if i + 1 + |part| <= |s| {
      assert s[1..][i..i + |part|] == s[i + 1..i + 1 + |part|];
    }
  }

  /** The label a hop key is made with. */
  function LabelOf(m: Fields): string {
    match GetStr(m, "label") case Some(l) => l case None => ""
  }

  lemma LabelledExact(hop: Json, m: Fields, word: string)
    requires SwapInfo(hop) == Some(m) && word != ""
    ensures Contains(Lower(LabelOf(m)), word) <==> Labelled(hop, word)
  {
    ContainsExact(Lower(LabelOf(m)), word);
    if GetStr(m, "label").None? {
      assert Lower("") == "" && forall i: nat :: !StandsAt(word, "", i);
    } else if Contains(Lower(LabelOf(m)), word) {
      var i: nat :| StandsAt(word, Lower(LabelOf(m)), i);
      assert Has(hop, "label", Str(LabelOf(m))) && StandsAt(word, Lower(LabelOf(m)), i);
    }
  }

  lemma KindExact(hop: Json, m: Fields)
    requires SwapInfo(hop) == Some(m)
    ensures FromLabel(LabelOf(m)) in {Whirlpool, WhirlpoolSwapV2, AlphaQ} <==> BoolLabel(hop)
    ensures FromLabel(LabelOf(m)) == AldrinV2 <==> SideLabel(hop)
  {
    LabelledExact(hop, m, "whirlpool");
    LabelledExact(hop, m, "raydium");
    LabelledExact(hop, m, "meteora");
    LabelledExact(hop, m, "alphaq");
    LabelledExact(hop, m, "alpha_q");
    LabelledExact(hop, m, "aquifer");
    LabelledExact(hop, m, "aldrin");
  }

  ghost predicate FirstAt(m: Fields, keys: seq<string>, i: nat, b: bool) {
    && i < |keys| && keys[i] in m && m[keys[i]] == Bool(b)
    && forall j :: 0 <= j < i ==> !(keys[j] in m && m[keys[j]].Bool?)
  }

  lemma {:induction false} FirstBoolExact(m: Fields, keys: seq<string>, b: bool)
    ensures FirstBool(m, keys) == AToB(b) <==> exists i: nat :: FirstAt(m, keys, i, b)
    ensures FirstBool(m, keys).NoDirection? || FirstBool(m, keys).AToB?
  {
    if keys != [] {
      FirstBoolExact(m, keys[1..], b);
      if keys[0] in m && m[keys[0]].Bool? {
        assert m[keys[0]].b == b ==> FirstAt(m, keys, 0, b);
      } else {
        forall i: nat | FirstAt(m, keys, i, b)
          ensures FirstAt(m, keys[1..], i - 1, b)
        {
        }
        forall i: nat | FirstAt(m, keys[1..], i, b)
          ensures FirstAt(m, keys, i + 1, b)
        {
          assert forall j :: 1 <= j < i + 1 ==> keys[j] == keys[1..][j - 1];
        }
      }
    }
  }

  lemma FirstAtExact(hop: Json, m: Fields, i: nat, b: bool)
    requires SwapInfo(hop) == Some(m) && i < 4
    ensures FirstAt(m, BOOL_KEYS, i, b)
            <==> Has(hop, BOOL_KEYS[i], Bool(b)) && forall j, c :: 0 <= j < i ==> !Has(hop, BOOL_KEYS[j], Bool(c))
  {
    forall j | 0 <= j < i
      ensures (BOOL_KEYS[j] in m && m[BOOL_KEYS[j]].Bool?) <==> exists c :: Has(hop, BOOL_KEYS[j], Bool(c))
    {
      if BOOL_KEYS[j] in m && m[BOOL_KEYS[j]].Bool? {
        assert Has(hop, BOOL_KEYS[j], Bool(m[BOOL_KEYS[j]].b));
      }
    }
  }

  lemma BooleanExact(hop: Json, m: Fields, b: bool)
    requires SwapInfo(hop) == Some(m) && BoolLabel(hop)
    ensures FirstBool(m, BOOL_KEYS) == AToB(b) <==> GoesAToB(hop, b)
  {
    FirstBoolExact(m, BOOL_KEYS, b);
    forall i: nat | i < 4 {
      FirstAtExact(hop, m, i, b);
    }
    if GoesAToB(hop, b) {
      var i :| 0 <= i < 4 && Has(hop, BOOL_KEYS[i], Bool(b)) && forall j, c :: 0 <= j < i ==> !Has(hop, BOOL_KEYS[j], Bool(c));
      assert FirstAt(m, BOOL_KEYS, i, b);
    }
  }

  lemma DirectionExact(hop: Json, m: Fields)
    requires SwapInfo(hop) == Some(m)
    ensures var d := ExtractDirection(FromLabel(LabelOf(m)), m);
            && (d == AToB(true) <==> GoesAToB(hop, true)) && (d == AToB(false) <==> GoesAToB(hop, false))
            && (d == SideBid <==> Sides(hop, "bid")) && (d == SideAsk <==> Sides(hop, "ask"))
  {
    KindExact(hop, m);
    if BoolLabel(hop) {
      BooleanExact(hop, m, true);
      BooleanExact(hop, m, false);
      FirstBoolExact(m, BOOL_KEYS, true);
    } else if SideLabel(hop) {
      SideExact(hop, m);
    }
  }

  lemma SideExact(hop: Json, m: Fields)
    requires SwapInfo(hop) == Some(m) && SideLabel(hop)
    ensures var d := ExtractDirection(AldrinV2, m);
            && (d == SideBid <==> Sides(hop, "bid")) && (d == SideAsk <==> Sides(hop, "ask")) && !d.AToB?
  {
    assert "bid" != "ask" by { assert "bid"[0] != "ask"[0]; }
    if GetStr(m, "side").Some? {
      assert Has(hop, "side", Str(m["side"].s));
    }
  }

  /** A hop has a key exactly when it has strings for its pool and mints; the key holds them, and its
      direction what label and fields say. */
  lemma HopKeyExact(hop: Json)
    ensures HopOf(hop).Some? <==> Named(hop)
    ensures HopOf(hop).Some? ==>
              var k := HopOf(hop).value;
              && Names(hop, k.pool, k.inputMint, k.outputMint) && k.remainingAccountsHash == 0
              && (k.direction == AToB(true) <==> GoesAToB(hop, true)) && (k.direction == AToB(false) <==> GoesAToB(hop, false))
              && (k.direction == SideBid <==> Sides(hop, "bid")) && (k.direction == SideAsk <==> Sides(hop, "ask"))
  {
    if SwapInfo(hop).Some? {
      var m := SwapInfo(hop).value;
      DirectionExact(hop, m);
      if HopOf(hop).Some? {
        var k := HopOf(hop).value;
        assert Names(hop, k.pool, k.inputMint, k.outputMint);
      }
    }
  }

  /** A text that holds the one word holds every part of it. */
  lemma PartOfPart(s: string, word: string, part: string, i: nat)
    requires StandsAt(part, word, i) && Contains(s, word)
    ensures Contains(s, part)
  {
    ContainsExact(s, word);
    ContainsExact(s, part);
    var j: nat :| StandsAt(word, s, j);
    forall n | 0 <= n < |part|
      ensures s[j + i + n] == part[n]
    {
      assert part[n] == word[i..i + |part|][n] && word[i + n] == s[j..j + |word|][i + n];
    }
    assert s[j + i..j + i + |part|] == part;
    assert StandsAt(part, s, j + i);
  }

  /** The DEX of a hop, by its label: a v2 anywhere in it makes a Whirlpool the second one, so the longer words
      need no test of their own. */
  lemma DexExact(hop: Json)
    requires HopOf(hop).Some?
    ensures var dex := HopOf(hop).value.dex;
            var whirlpool, raydium, meteora := Labelled(hop, "whirlpool"), Labelled(hop, "raydium"), Labelled(hop, "meteora");
            var none := !whirlpool && !raydium && !meteora;
            var alpha := Labelled(hop, "alphaq") || Labelled(hop, "alpha_q");
            && (dex == WhirlpoolSwapV2 <==> whirlpool && Labelled(hop, "v2"))
            && (dex == Whirlpool <==> whirlpool && !Labelled(hop, "v2"))
            && (dex == RaydiumClmm <==> !whirlpool && raydium && Labelled(hop, "clmm"))
            && (dex == RaydiumV2 <==> !whirlpool && raydium && !Labelled(hop, "clmm"))
            && (dex == MeteoraDlmm <==> !whirlpool && !raydium && meteora && Labelled(hop, "dlmm"))
            && (dex == MeteoraPools <==> !whirlpool && !raydium && meteora && !Labelled(hop, "dlmm"))
            && (dex == AlphaQ <==> none && alpha)
            && (dex == Aquifer <==> none && !alpha && Labelled(hop, "aquifer"))
            && (dex == AldrinV2 <==> none && !alpha && !Labelled(hop, "aquifer") && Labelled(hop, "aldrin"))
  {
    var m := SwapInfo(hop).value;
    LongerWords(Lower(LabelOf(m)));
    LabelledExact(hop, m, "whirlpool");
    LabelledExact(hop, m, "v2");
    LabelledExact(hop, m, "raydium");
    LabelledExact(hop, m, "clmm");
    LabelledExact(hop, m, "meteora");
    LabelledExact(hop, m, "dlmm");
    LabelledExact(hop, m, "alphaq");
    LabelledExact(hop, m, "alpha_q");
    LabelledExact(hop, m, "aquifer");
    LabelledExact(hop, m, "aldrin");
  }

  lemma LongerWords(l: string)
    ensures Contains(l, "swap_v2") || Contains(l, "swapv2") ==> Contains(l, "v2")
  {
    assert "swap_v2"[5..7] == "v2" && "swapv2"[4..6] == "v2";
    if Contains(l, "swap_v2") {
      PartOfPart(l, "swap_v2", "v2", 5);
    }
    if Contains(l, "swapv2") {
      PartOfPart(l, "swapv2", "v2", 4);
    }
  }

  /** Two hops share all of their keys but the DEX exactly when their fields name the same swap. */
  lemma SameSwapExact(a: Json, b: Json)
    ensures SameSwap(a, b) <==> HopOf(a).Some? && HopOf(b).Some? && SameHop(HopOf(a).value, HopOf(b).value)
  {
    HopKeyExact(a);
    HopKeyExact(b);
    if HopOf(a).Some? && HopOf(b).Some? {
      var j, k := HopOf(a).value, HopOf(b).value;
      if SameHop(j, k) {
        assert Names(a, j.pool, j.inputMint, j.outputMint) && Names(b, j.pool, j.inputMint, j.outputMint);
      }
    }
  }

  // ── Pair keys ─────────────────────────────────────────────────────────────

  /** A plan has a pair key exactly when it is two hops with pools and mints. */
  lemma PairKeyed(p: Json)
    ensures PairKeyOf(p).Some? <==> TwoNamed(p)
  {
    if p.Arr? && |p.items| == 2 {
      HopKeyExact(p.items[0]);
      HopKeyExact(p.items[1]);
    }
  }

  lemma CleanIsFree(hop: Json)
    requires CleanHop(hop) && HopOf(hop).Some?
    ensures Free(HopOf(hop).value, ':') && Free(HopOf(hop).value, '|')
  {
    HopKeyExact(hop);
  }

  /** Plans with the same hops have the same pair key, whatever their strings hold. */
  lemma SameHopsSameKey(p: Json, q: Json)
    requires SameHops(p, q)
    ensures PairKeyOf(p).Some? && PairKeyOf(p) == PairKeyOf(q)
  {
    SameSwapExact(p.items[0], q.items[0]);
    SameSwapExact(p.items[1], q.items[1]);
  }

  /** The pair key of a clean plan is shared exactly by the plans with the same pools, mints and
      directions in the same order, whatever their strings hold. */
  lemma PairKeyExact(p: Json, q: Json)
    requires CleanPlan(p) && PairKeyOf(p).Some?
    ensures PairKeyOf(p) == PairKeyOf(q) <==> SameHops(p, q)
  {
    PairKeyed(p);
    if PairKeyOf(p) == PairKeyOf(q) {
      var (a, b) := PairOf(p).value;
      var (c, d) := PairOf(q).value;
      CleanIsFree(p.items[0]);
      CleanIsFree(p.items[1]);
      PairSplits(a, b, c, d);
      TemplateIdInjective(a, c);
      TemplateIdInjective(b, d);
      SameSwapExact(p.items[0], q.items[0]);
      SameSwapExact(p.items[1], q.items[1]);
    }
    if SameHops(p, q) {
      SameHopsSameKey(p, q);
    }
  }
}
