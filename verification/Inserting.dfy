/** What an insert makes servable, and for how long (`insert_route` of `src/template_cache.rs`). */
module Inserting {
  import opened Options
  import opened Words
  import opened RoutePlan
  import opened HopFields
  import opened TemplateStore
  import opened StoreRuns
  import opened Transparency
  import Amounts
  import G = Generations

  // ── The template of a live route ──────────────────────────────────────────

  function Held(s: Store, sig: u128): RouteTemplate
    requires sig in s.hot || sig in s.cold
  {
    if sig in s.hot then s.hot[sig] else s.cold[sig]
  }

  predicate IsLive(s: Store, sig: u128) {
    sig in s.hot || sig in s.cold
  }

  /** A template but for its hits. */
  ghost predicate SameButHits(t: RouteTemplate, t': RouteTemplate) {
    t' == t.(hits := t'.hits)
  }

  /** A lookup finds the template of a live route, its hit counted if it promotes it. */
  lemma GetHeld(s: Store, sig: u128)
    ensures Get(s, sig).1.Some? <==> IsLive(s, sig)
    ensures sig in s.hot ==> Get(s, sig).1 == Some(Held(s, sig))
    ensures sig !in s.hot && sig in s.cold ==> Get(s, sig).1 == Some(Promoted(s, sig)) && SameButHits(Held(s, sig), Promoted(s, sig))
  {
    if sig !in s.hot && sig in s.cold {
      PromotedHits(s, sig);
    }
  }

  lemma PromotedHits(s: Store, sig: u128)
    requires sig !in s.hot && sig in s.cold
    ensures SameButHits(Held(s, sig), Promoted(s, sig)) && Promoted(s, sig).hits == Held(s, sig).hits + 1
  {
  }

  /** Pushing a route keeps every other one as it is, demotes it, or evicts it. */
  lemma PushHeld(s: Store, pushed: u128, t: RouteTemplate, sig: u128)
    ensures var s' := PushHot(s, pushed, t);
            && IsLive(s', pushed) && Held(s', pushed) == t
            && (sig != pushed && IsLive(s', sig) ==> IsLive(s, sig) && Held(s', sig) == Held(s, sig))
  {
  }

  lemma IndexedKeeps(s: Store, sig: u128, k: Option<string>)
    ensures Indexed(s, sig, k).hot == s.hot && Indexed(s, sig, k).cold == s.cold
  {
  }

  lemma InsertHeld(s: Store, t: RouteTemplate, k: Option<string>)
    ensures var sig := t.routeSignature;
            var s' := Insert(s, t, k);
            IsLive(s', sig) && Held(s', sig) == if IsLive(s, sig) then SeenAgain(Held(s, sig), t.templateIn, t.swapIxs) else t
  {
    var sig := t.routeSignature;
    if !IsLive(s, sig) {
      PushHeld(s, sig, t, sig);
      IndexedKeeps(PushHot(s, sig, t), sig, k);
    }
  }

  /** Every other route is as it was, or evicted. */
  lemma OthersHeld(s: Store, t: RouteTemplate, k: Option<string>, sig: u128)
    requires sig != t.routeSignature
    ensures var s' := Insert(s, t, k);
            IsLive(s', sig) ==> IsLive(s, sig) && Held(s', sig) == Held(s, sig)
  {
    var inserted := t.routeSignature;
    if !IsLive(s, inserted) {
      PushHeld(s, inserted, t, sig);
      IndexedKeeps(PushHot(s, inserted, t), inserted, k);
    }
  }

  // ── Right after an insert ─────────────────────────────────────────────────

  /** A template seen again at `a`, whatever its hits. */
  lemma SeenAgainServes(t: RouteTemplate, t': RouteTemplate, a: u64, ixs: SwapInstructions, floor: u64)
    requires SameButHits(SeenAgain(t, a, ixs), t')
    ensures ServeRoute(t', a, floor) == Some(if a in t.variants then t.variants[a] else ixs)
    ensures forall b :: b != a || a in t.variants ==> ServeRoute(t', b, floor) == ServeRoute(t, b, floor)
    ensures t'.routeSignature == t.routeSignature && t'.swapIxs == t.swapIxs
    ensures t'.templateIn == t.templateIn && t'.templateOut == t.templateOut
    ensures t'.inOffset == t.inOffset && t'.outOffset == t.outOffset
    ensures t'.variants.Keys == t.variants.Keys + {a} && t'.seen == t.seen + 1
  {
  }

  /** A new template serves its own amount. */
  lemma NewServes(sig: u128, ixs: SwapInstructions, a: u64, out: u64, floor: u64)
    ensures var t := NewTemplate(sig, ixs, a, out);
            t.routeSignature == sig && t.templateIn == a && t.swapIxs == ixs && ServeRoute(t, a, floor) == Some(ixs)
            && a in t.variants && t.variants[a] == ixs
  {
  }

  /** Right after an insert a lookup of its signature finds a template that serves the inserted amount with
      the instruction first inserted for it. A new route is found as it was built; a known one keeps its
      base and offsets, and serves every other amount as before. */
  lemma ServedAfterInsert(s: Store, sig: u128, ixs: SwapInstructions, a: u64, out: u64, k: Option<string>, floor: u64)
    ensures var before, after := Get(s, sig).1, Get(Insert(s, NewTemplate(sig, ixs, a, out), k), sig).1;
            && after.Some?
            && ServeRoute(after.value, a, floor)
               == Some(if before.Some? && a in before.value.variants then before.value.variants[a] else ixs)
            && (before.None? ==> after == Some(NewTemplate(sig, ixs, a, out)))
            && (before.Some? ==>
                  var t, t' := before.value, after.value;
                  && (forall b :: b != a || a in t.variants ==> ServeRoute(t', b, floor) == ServeRoute(t, b, floor))
                  && t'.routeSignature == t.routeSignature && t'.swapIxs == t.swapIxs
                  && t'.templateIn == t.templateIn && t'.templateOut == t.templateOut
                  && t'.inOffset == t.inOffset && t'.outOffset == t.outOffset
                  && t'.variants.Keys == t.variants.Keys + {a} && t'.seen == t.seen + 1)
  {
    var t := NewTemplate(sig, ixs, a, out);
    NewServes(sig, ixs, a, out, floor);
    FoundAgain(s, t, k);
    var before := Get(s, sig).1;
    if before.Some? {
      SeenAgainServes(before.value, Get(Insert(s, t, k), sig).1.value, a, ixs, floor);
    }
  }

  lemma FoundAgain(s: Store, t: RouteTemplate, k: Option<string>)
    ensures var before, after := Get(s, t.routeSignature).1, Get(Insert(s, t, k), t.routeSignature).1;
            && after.Some?
            && (if before.Some? then SameButHits(SeenAgain(before.value, t.templateIn, t.swapIxs), after.value) else after == Some(t))
  {
    var sig := t.routeSignature;
    var s' := Insert(s, t, k);
    InsertHeld(s, t, k);
    GetHeld(s, sig);
    GetHeld(s', sig);
    assert IsLive(s, sig) && sig !in s'.hot ==> sig in s'.cold && sig !in s.hot;
  }

  /** An insert changes what a known route serves only at an amount that was patched, or not served at all,
      until then. */
  lemma InsertChangesExactly(s: Store, sig: u128, ixs: SwapInstructions, a: u64, out: u64, k: Option<string>, b: u64, floor: u64)
    requires Get(s, sig).1.Some?
    ensures var t, t' := Get(s, sig).1.value, Get(Insert(s, NewTemplate(sig, ixs, a, out), k), sig).1.value;
            ServeRoute(t', b, floor) != ServeRoute(t, b, floor)
            <==> b == a && a !in t.variants && ServeRoute(t, a, floor) != Some(ixs)
  {
    ServedAfterInsert(s, sig, ixs, a, out, k, floor);
  }

  /** What the bot inserts changes nothing it already serves: in a good store every amount served before is
      served with the same instruction after. */
  lemma InsertKeepsServed(bot: Bot, s: Store, p: Json, q: Json, a: u64, b: u64)
    requires bot.Windowed() && bot.CollisionFree() && Good(bot, s) && p in bot.inserted && q in bot.Plans()
    requires bot.sigOf(q) == bot.sigOf(p) && Get(s, bot.sigOf(q)).1.Some?
    ensures var t := NewTemplate(bot.sigOf(p), bot.build(p, a), a, Floor(a));
            var before, after := Get(s, bot.sigOf(q)).1.value, Get(Insert(s, t, PairKeyOf(p)), bot.sigOf(q)).1.value;
            ServeRoute(before, b, Floor(b)).Some? ==>
              ServeRoute(after, b, Floor(b)) == ServeRoute(before, b, Floor(b)) == Some(bot.build(q, b))
  {
    var sig := bot.sigOf(q);
    ServedAfterInsert(s, sig, bot.build(p, a), a, Floor(a), PairKeyOf(p), Floor(b));
    GoodGet(bot, s, sig);
    OwnKeysAfterGet(s, sig);
    assert MadeOf(bot, Get(s, sig).1.value, q);
    ServesFreshBuild(bot, Get(s, sig).1.value, q, b);
    assert bot.build(p, a) == bot.build(q, a);
  }

  /** One answer of Metis serves every amount exactly when its amounts stand in one place: after a new route is
      inserted, a lookup serves its own amount, and any other one exactly when the inserted pair occurs
      nowhere else in the instruction; what it serves is what Metis would build. */
  lemma OneAnswerServesAll(bot: Bot, s: Store, p: Json, a: u64, k: Option<string>, b: u64)
    requires bot.Windowed() && p in bot.Plans() && !IsLive(s, bot.sigOf(p))
    ensures var found := Get(Insert(s, NewTemplate(bot.sigOf(p), bot.build(p, a), a, Floor(a)), k), bot.sigOf(p)).1;
            var bytes := bot.build(p, a).swap.data.bytes;
            && found.Some?
            && ServeRoute(found.value, b, Floor(b))
               == if b == a || (forall q: nat :: Amounts.PairAt(bytes, q, a, Floor(a)) ==> q == bot.window(p))
                  then Some(bot.build(p, b)) else None
  {
    var t := NewTemplate(bot.sigOf(p), bot.build(p, a), a, Floor(a));
    FoundAgain(s, t, k);
    GetHeld(s, bot.sigOf(p));
    PatchableExact(bot, p, a);
    ServesFreshBuild(bot, t, p, b);
  }

  lemma PatchableExact(bot: Bot, p: Json, a: u64)
    requires bot.Windowed() && p in bot.Plans()
    ensures var t := NewTemplate(bot.sigOf(p), bot.build(p, a), a, Floor(a));
            var bytes := bot.build(p, a).swap.data.bytes;
            && MadeOf(bot, t, p)
            && (t.inOffset.Some? <==> forall q: nat :: Amounts.PairAt(bytes, q, a, Floor(a)) ==> q == bot.window(p))
  {
    var bytes := bot.build(p, a).swap.data.bytes;
    assert Amounts.PairAt(bytes, bot.window(p), a, Floor(a));
    if forall q: nat :: Amounts.PairAt(bytes, q, a, Floor(a)) ==> q == bot.window(p) {
      assert Amounts.PatchPoint(bytes, bot.window(p), a, Floor(a));
    }
  }

  /** A template serves at least what `t` has cached, from the same base. */
  ghost predicate Keeps(t: RouteTemplate, t': RouteTemplate) {
    && t'.swapIxs == t.swapIxs && t'.templateIn == t.templateIn && t'.templateOut == t.templateOut
    && t'.inOffset == t.inOffset && t'.outOffset == t.outOffset
    && forall a :: a in t.variants ==> a in t'.variants && t'.variants[a] == t.variants[a]
  }

  lemma InsertKeeps(s: Store, built: RouteTemplate, k: Option<string>, sig: u128)
    requires IsLive(s, sig) && IsLive(Insert(s, built, k), sig)
    ensures Keeps(Held(s, sig), Held(Insert(s, built, k), sig))
  {
    InsertHeld(s, built, k);
    if sig != built.routeSignature {
      OthersHeld(s, built, k, sig);
    }
  }

  lemma GetKeeps(s: Store, asked: u128, sig: u128)
    requires IsLive(s, sig) && IsLive(Get(s, asked).0, sig)
    ensures Keeps(Held(s, sig), Held(Get(s, asked).0, sig))
  {
    if asked !in s.hot && asked in s.cold {
      PushHeld(s.(cold := s.cold - {asked}), asked, Promoted(s, asked), sig);
    }
  }

  lemma HitKeeps(s: Store, hit: u128, sig: u128)
    requires IsLive(s, sig) && IsLive(RecordHit(s, hit), sig)
    ensures Keeps(Held(s, sig), Held(RecordHit(s, hit), sig))
  {
  }

  /** No operation makes a live route forget a cached amount. */
  lemma OpKeeps(s: Store, op: Op, sig: u128)
    requires IsLive(s, sig) && IsLive(Apply(s, op).0, sig)
    ensures Keeps(Held(s, sig), Held(Apply(s, op).0, sig))
  {
    match op
    case GetRoute(asked) => GetKeeps(s, asked, sig);
    case GetRouteForHops(k) =>
      if k.Some? && k.value in s.index {
        GetKeeps(s, s.index[k.value], sig);
      }
    case InsertRoute(built, k) => InsertKeeps(s, built, k, sig);
    case RecordRouteHit(hit) => HitKeeps(s, hit, sig);
    case RecordAllHops(_, _) =>
  }

  /** Over any run in which the route stays live it keeps serving a cached amount with the same
      instruction. */
  lemma {:induction false} StaysServed(s: Store, ops: seq<Op>, sig: u128, a: u64, floor: u64)
    requires IsLive(s, sig) && a in Held(s, sig).variants
    requires forall n :: 0 <= n <= |ops| ==> IsLive(Exec(s, ops[..n]), sig)
    ensures IsLive(Exec(s, ops), sig)
    ensures a in Held(Exec(s, ops), sig).variants && Held(Exec(s, ops), sig).variants[a] == Held(s, sig).variants[a]
    ensures ServeRoute(Held(Exec(s, ops), sig), a, floor) == ServeRoute(Held(s, sig), a, floor)
    decreases |ops|
  {
    if ops != [] {
      var s' := Apply(s, ops[0]).0;
      forall n | 0 <= n <= |ops| - 1
        ensures IsLive(Exec(s', ops[1..][..n]), sig)
      {
        ExecFirst(s, ops, n);
      }
      assert ops[1..][..0] == [] && Exec(s', []) == s';
      OpKeeps(s, ops[0], sig);
      StaysServed(s', ops[1..], sig, a, floor);
    }
  }

  lemma ExecFirst(s: Store, ops: seq<Op>, n: nat)
    requires n < |ops|
    ensures Exec(s, ops[..n + 1]) == Exec(Apply(s, ops[0]).0, ops[1..][..n])
  {
    assert ops[..n + 1][0] == ops[0] && ops[..n + 1][1..] == ops[1..][..n];
  }

  lemma {:induction false} FewerTouches(s: Store, ops: seq<Op>, n: nat)
    requires n <= |ops|
    ensures G.Elements(Touches(s, ops[..n])) <= G.Elements(Touches(s, ops))
    decreases |ops|
  {
    if n == 0 {
      assert ops[..0] == [] && Touches(s, []) == [];
    } else {
      assert ops[..n][0] == ops[0] && ops[..n][1..] == ops[1..][..n - 1];
      FewerTouches(Apply(s, ops[0]).0, ops[1..], n - 1);
      TouchesFrom(s, ops);
      TouchesFrom(s, ops[..n]);
    }
  }

  lemma TouchesFrom(s: Store, ops: seq<Op>)
    requires ops != []
    ensures G.Elements(Touches(s, ops))
            == (if Touched(s, ops[0]).Some? then {Touched(s, ops[0]).value} else {})
               + G.Elements(Touches(Apply(s, ops[0]).0, ops[1..]))
  {
    var first := if Touched(s, ops[0]).Some? then [Touched(s, ops[0]).value] else [];
    ElementsJoined(first, Touches(Apply(s, ops[0]).0, ops[1..]));
  }

  lemma ElementsJoined(a: seq<u128>, b: seq<u128>)
    ensures G.Elements(a + b) == G.Elements(a) + G.Elements(b)
  {
  }

  /** A new route serves its amount from then on, in every state until more than a capacity of other
      routes is touched. */
  lemma InsertedStaysServed(s: Store, sig: u128, ixs: SwapInstructions, a: u64, out: u64, k: Option<string>, ops: seq<Op>, floor: u64)
    requires sig !in s.hot && sig !in s.cold
    requires |G.Elements(Touches(Insert(s, NewTemplate(sig, ixs, a, out), k), ops)) - {sig}| <= s.cap
    ensures var found := Get(Exec(Insert(s, NewTemplate(sig, ixs, a, out), k), ops), sig).1;
            found.Some? && ServeRoute(found.value, a, floor) == Some(ixs)
  {
    var t := NewTemplate(sig, ixs, a, out);
    var s' := Insert(s, t, k);
    NewServes(sig, ixs, a, out, floor);
    LiveThroughout(s, t, k, ops);
    InsertHeld(s, t, k);
    StaysServed(s', ops, sig, a, floor);
    GetHeld(Exec(s', ops), sig);
  }

  lemma LiveThroughout(s: Store, t: RouteTemplate, k: Option<string>, ops: seq<Op>)
    requires !IsLive(s, t.routeSignature)
    requires |G.Elements(Touches(Insert(s, t, k), ops)) - {t.routeSignature}| <= s.cap
    ensures forall n :: 0 <= n <= |ops| ==> IsLive(Exec(Insert(s, t, k), ops[..n]), t.routeSignature)
  {
    var insert, sig := InsertRoute(t, k), t.routeSignature;
    var s' := Apply(s, insert).0;
    forall n | 0 <= n <= |ops|
      ensures IsLive(Exec(s', ops[..n]), sig)
    {
      FewerTouches(s', ops, n);
      G.SubsetSize(G.Elements(Touches(s', ops[..n])) - {sig}, G.Elements(Touches(s', ops)) - {sig});
      RecentlyTouchedIsLive(s, insert, ops[..n], sig);
      assert ([insert] + ops[..n])[0] == insert && ([insert] + ops[..n])[1..] == ops[..n];
    }
  }

  /** A new route of two hops not bound yet is found by the hops of every plan with the same pools, mints
      and directions. */
  lemma FoundByHops(s: Store, sig: u128, ixs: SwapInstructions, a: u64, out: u64, q: Json, p: Json)
    requires sig !in s.hot && sig !in s.cold && SameHops(p, q) && (PairKeyOf(q).Some? ==> PairKeyOf(q).value !in s.index)
    ensures GetForHops(Insert(s, NewTemplate(sig, ixs, a, out), PairKeyOf(q)), PairKeyOf(p)).1
            == Some(NewTemplate(sig, ixs, a, out))
  {
    var t := NewTemplate(sig, ixs, a, out);
    SameHopsSameKey(p, q);
    FoundAgain(s, t, PairKeyOf(q));
    GetHeld(s, sig);
    NewBinds(s, t, PairKeyOf(q).value);
  }

  lemma NewBinds(s: Store, t: RouteTemplate, k: string)
    requires !IsLive(s, t.routeSignature) && k !in s.index
    ensures var index := Insert(s, t, Some(k)).index;
            k in index && index[k] == t.routeSignature
  {
    PushKeepsRest(s, t.routeSignature, t);
  }

  /** The index holds after an insert what it held before, and the pair of a new route if nothing was bound to
      it. */
  lemma BindsExactly(s: Store, t: RouteTemplate, k: Option<string>, pair: string)
    ensures var index := Insert(s, t, k).index;
            var binds := k == Some(pair) && pair !in s.index && !IsLive(s, t.routeSignature);
            && (pair in index <==> pair in s.index || binds)
            && (pair in index ==> index[pair] == if binds then t.routeSignature else s.index[pair])
  {
    PushKeepsRest(s, t.routeSignature, t);
  }
}
