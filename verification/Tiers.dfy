/** The tiers of one candidate: by signature, by hops, else Metis (`scan_all_tokens` of
    `src/arbitrage.rs`). */
module Tiers {
  import opened Options
  import opened Words
  import opened RoutePlan
  import opened HopFields
  import opened TemplateStore
  import opened StoreRuns
  import opened Restarts
  import opened Transparency
  import opened Inserting

  /** How a candidate is served: from RAM by signature, from RAM by its hop pair, or not from RAM, with
      the number of hops never seen. */
  datatype Served =
    | BySignature(ixs: SwapInstructions)
    | ByHops(ixs: SwapInstructions)
    | NotFromRam(missing: nat)

  /** A template found serves the amount, or the tier falls through. */
  function Try(found: Option<RouteTemplate>, amount: u64, floor: u64): Option<SwapInstructions> {
    if found.None? then None else ServeRoute(found.value, amount, floor)
  }

  /** Tier 1: the store after it, and what it serves. */
  function FirstTier(s: Store, serve: bool, sig: u128, amount: u64, floor: u64): (Store, Option<SwapInstructions>) {
    if !serve then (s, None)
    else
      var (s', found) := Get(s, sig);
      var ixs := Try(found, amount, floor);
      (if ixs.Some? then RecordHit(s', sig) else s', ixs)
  }

  /** Tier 2, when every hop has been seen. */
  function SecondTier(s: Store, serve: bool, plan: Json, amount: u64, floor: u64): (Store, Option<SwapInstructions>) {
    if !serve || Missing(s.hops, KeysOf(plan)) > 0 then (s, None)
    else
      var (s', found) := GetForHops(s, PairKeyOf(plan));
      var ixs := Try(found, amount, floor);
      (if ixs.Some? then RecordHit(s', found.value.routeSignature) else s', ixs)
  }

  function Tiers(s: Store, serve: bool, sig: u128, plan: Json, amount: u64, floor: u64): (Store, Served) {
    var (s1, first) := FirstTier(s, serve, sig, amount, floor);
    if first.Some? then (s1, BySignature(first.value))
    else
      var (s2, second) := SecondTier(s1, serve, plan, amount, floor);
      if second.Some? then (s2, ByHops(second.value)) else (s2, NotFromRam(Missing(s1.hops, KeysOf(plan))))
  }

  /** The RAM tiers of the scan loop, on the store object. */
  method ServeFromRam(store: TemplateStore, serve: bool, sig: u128, plan: Json, amount: u64, floor: u64)
    returns (served: Served)
    modifies store
    ensures (store.State(), served) == Tiers(old(store.State()), serve, sig, plan, amount, floor)
  {
    if serve {
      var found := store.GetRoute(sig);
      var ixs := Try(found, amount, floor);
      if ixs.Some? {
        store.RecordRouteHit(sig);
        return BySignature(ixs.value);
      }
    }
    served := ServeByHops(store, serve, plan, amount, floor);
  }

  /** The second tier. */
  method ServeByHops(store: TemplateStore, serve: bool, plan: Json, amount: u64, floor: u64) returns (served: Served)
    modifies store
    ensures var (s2, second) := SecondTier(old(store.State()), serve, plan, amount, floor);
            store.State() == s2
            && served == if second.Some? then ByHops(second.value) else NotFromRam(Missing(old(store.hops), KeysOf(plan)))
  {
    var allHit, missing := store.CheckHops(plan);
    MissingHops(store.hops, plan);
    if allHit && serve {
      var found := store.GetRouteForHops(plan);
      var ixs := Try(found, amount, floor);
      if ixs.Some? {
        store.RecordRouteHit(found.value.routeSignature);
        return ByHops(ixs.value);
      }
    }
    served := NotFromRam(missing);
  }

  // ── What the tiers serve ──────────────────────────────────────────────────

  lemma FirstTierSound(bot: Bot, s: Store, serve: bool, p: Json, a: u64)
    requires bot.Windowed() && bot.CollisionFree() && p in bot.Plans() && Good(bot, s)
    ensures var (s', ixs) := FirstTier(s, serve, bot.sigOf(p), a, Floor(a));
            Good(bot, s') && (ixs.Some? ==> ixs == Some(bot.build(p, a)))
  {
    if serve {
      var sig := bot.sigOf(p);
      var (s', found) := Get(s, sig);
      AfterLookup(bot, s, GetRoute(sig), s', found);
      OwnKeysAfterGet(s, sig);
      if found.Some? {
        ServesFreshBuild(bot, found.value, p, a);
        AfterHit(bot, s', sig);
      }
    }
  }

  lemma AfterLookup(bot: Bot, s: Store, op: Op, s': Store, found: Option<RouteTemplate>)
    requires bot.Windowed() && bot.CollisionFree() && Good(bot, s)
    requires !op.InsertRoute? && (s', found) == Apply(s, op)
    ensures Good(bot, s') && SoundAnswer(bot, found)
  {
    GoodStep(bot, s, op);
  }

  lemma AfterHit(bot: Bot, s: Store, sig: u128)
    requires bot.Windowed() && bot.CollisionFree() && Good(bot, s)
    ensures Good(bot, RecordHit(s, sig))
  {
    GoodStep(bot, s, RecordRouteHit(sig));
  }

  lemma SecondTierSound(bot: Bot, s: Store, serve: bool, p: Json, a: u64) returns (q: Json)
    requires bot.Windowed() && bot.CollisionFree() && CleanPlan(p) && Good(bot, s)
    ensures var (s', ixs) := SecondTier(s, serve, p, a, Floor(a));
            Good(bot, s') && (ixs.Some? ==> q in bot.inserted && SameHops(p, q) && ixs == Some(bot.build(q, a)))
  {
    q := Null;
    if serve && Missing(s.hops, KeysOf(p)) == 0 {
      var (s', found) := GetForHops(s, PairKeyOf(p));
      AfterLookup(bot, s, GetRouteForHops(PairKeyOf(p)), s', found);
      if found.Some? {
        q := PlanBehind(bot, s, p);
        ServesFreshBuild(bot, found.value, q, a);
        AfterHit(bot, s', found.value.routeSignature);
      }
    }
  }

  /** Whatever a candidate is served from RAM, in any state of any run, Metis would have built: for the
      candidate's own plan when found by signature, and for a plan with the same hops when found by
      hops. The store stays good for the rest of the run. */
  lemma ServedIsBuilt(bot: Bot, cap: Cap, ops: seq<WorldOp>, w: World, serve: bool, p: Json, a: u64) returns (q: Json)
    requires bot.Windowed() && bot.CollisionFree() && CleanPlan(p) && BotRun(bot, ops) && Reaches(cap, ops, w)
    requires p in bot.Plans()
    ensures var (s', served) := Tiers(w.store, serve, bot.sigOf(p), p, a, Floor(a));
            && Good(bot, s')
            && (served.BySignature? ==> served.ixs == bot.build(p, a))
            && (served.ByHops? ==> q in bot.inserted && SameHops(p, q) && served.ixs == bot.build(q, a))
            && (!serve ==> served.NotFromRam? && s' == w.store)
  {
    GoodRun(bot, NewWorld(cap), ops, w);
    FirstTierSound(bot, w.store, serve, p, a);
    var s1 := FirstTier(w.store, serve, bot.sigOf(p), a, Floor(a)).0;
    q := SecondTierSound(bot, s1, serve, p, a);
  }

  // ── And exactly when ──────────────────────────────────────────────────────

  /** The signature is live and its template has the amount cached or its offsets. */
  ghost predicate CanServe(s: Store, sig: u128, a: u64) {
    IsLive(s, sig) && (a in Held(s, sig).variants || Held(s, sig).inOffset.Some?)
  }

  /** A lookup in a good store serves exactly what it can. */
  lemma LookupServes(bot: Bot, s: Store, sig: u128, q: Json, a: u64)
    requires bot.Windowed() && bot.CollisionFree() && Good(bot, s) && q in bot.Plans() && bot.sigOf(q) == sig
    ensures Try(Get(s, sig).1, a, Floor(a)) == if CanServe(s, sig, a) then Some(bot.build(q, a)) else None
  {
    GetHeld(s, sig);
    if IsLive(s, sig) {
      GoodGet(bot, s, sig);
      OwnKeysAfterGet(s, sig);
      var t := Get(s, sig).1.value;
      assert MadeOf(bot, t, q);
      ServesFreshBuild(bot, t, q, a);
      SameServes(s, sig, t);
    }
  }

  lemma SameServes(s: Store, sig: u128, t: RouteTemplate)
    requires IsLive(s, sig) && Get(s, sig).1 == Some(t)
    ensures t.variants == Held(s, sig).variants && t.inOffset == Held(s, sig).inOffset
  {
    GetHeld(s, sig);
  }

  /** The plan bound to a pair key. */
  lemma BoundBy(bot: Bot, s: Store, k: string) returns (q: Json)
    requires Good(bot, s) && k in s.index
    ensures q in bot.inserted && bot.sigOf(q) == s.index[k] && PairKeyOf(q) == Some(k)
  {
    assert IsBound(bot, k, s.index[k]);
    q :| q in bot.inserted && bot.sigOf(q) == s.index[k] && PairKeyOf(q) == Some(k);
  }

  /** Every hop of the plan has a recorded key. */
  ghost predicate AllKnown(s: Store, p: Json) {
    p.Arr? ==> forall i :: 0 <= i < |p.items| ==> HopOf(p.items[i]).Some? && HopOf(p.items[i]).value in s.hops
  }

  /** The pair of the plan's hops is bound to a signature that can serve. */
  ghost predicate BoundCanServe(s: Store, p: Json, a: u64) {
    PairKeyOf(p).Some? && PairKeyOf(p).value in s.index && CanServe(s, s.index[PairKeyOf(p).value], a)
  }

  lemma SecondTierServes(bot: Bot, s: Store, p: Json, a: u64) returns (q: Json)
    requires bot.Windowed() && bot.CollisionFree() && Good(bot, s)
    ensures var ixs := SecondTier(s, true, p, a, Floor(a)).1;
            && (ixs.Some? <==> AllKnown(s, p) && BoundCanServe(s, p, a))
            && (ixs.Some? ==> q in bot.inserted && PairKeyOf(q) == PairKeyOf(p) && ixs == Some(bot.build(q, a)))
  {
    q := Null;
    NoneMissingKnown(s, p);
    SecondTierLooksUp(s, p, a, Floor(a));
    if PairKeyOf(p).Some? && PairKeyOf(p).value in s.index {
      var k := PairKeyOf(p).value;
      q := BoundBy(bot, s, k);
      LookupServes(bot, s, s.index[k], q, a);
    }
  }

  lemma NoneMissingKnown(s: Store, p: Json)
    ensures Missing(s.hops, KeysOf(p)) == 0 <==> AllKnown(s, p)
  {
    MissingHops(s.hops, p);
  }

  /** The second tier looks the bound signature up, when every hop is known and the pair bound. */
  lemma SecondTierLooksUp(s: Store, p: Json, a: u64, floor: u64)
    ensures var ixs := SecondTier(s, true, p, a, floor).1;
            var known := Missing(s.hops, KeysOf(p)) == 0 && PairKeyOf(p).Some? && PairKeyOf(p).value in s.index;
            && (known ==> ixs == Try(Get(s, s.index[PairKeyOf(p).value]).1, a, floor))
            && (!known ==> ixs == None)
  {
  }

  /** In any state of any run with serving on, exactly what RAM can serve is served from it: Metis's
      instruction for the plan by signature exactly when its route is live with the amount cached or with
      offsets; failing that, by hops exactly when every hop is known and the pair is bound to such a route
      after the failed lookup; and otherwise nothing, with the number of hops not known. */
  lemma ServedExactly(bot: Bot, cap: Cap, ops: seq<WorldOp>, w: World, p: Json, a: u64) returns (q: Json)
    requires bot.Windowed() && bot.CollisionFree() && BotRun(bot, ops) && Reaches(cap, ops, w) && p in bot.Plans()
    ensures var sig := bot.sigOf(p);
            var served := Tiers(w.store, true, sig, p, a, Floor(a)).1;
            var s1 := Get(w.store, sig).0;
            && (served == BySignature(bot.build(p, a)) <==> CanServe(w.store, sig, a))
            && (served.BySignature? <==> CanServe(w.store, sig, a))
            && (served.ByHops? <==> !CanServe(w.store, sig, a) && AllKnown(w.store, p) && BoundCanServe(s1, p, a))
            && (served.ByHops? ==> q in bot.inserted && PairKeyOf(q) == PairKeyOf(p) && served == ByHops(bot.build(q, a)))
            && (served.NotFromRam? ==> served.missing == UnknownHops(w.store, p))
  {
    GoodRun(bot, NewWorld(cap), ops, w);
    q := Null;
    if CanServe(w.store, bot.sigOf(p), a) {
      BySignatureWhenLive(bot, w.store, bot.sigOf(p), p, a);
    } else {
      q := FailingThat(bot, w.store, bot.sigOf(p), p, a);
    }
  }

  lemma BySignatureWhenLive(bot: Bot, s: Store, sig: u128, p: Json, a: u64)
    requires bot.Windowed() && bot.CollisionFree() && Good(bot, s) && p in bot.Plans() && sig == bot.sigOf(p)
    requires CanServe(s, sig, a)
    ensures Tiers(s, true, sig, p, a, Floor(a)).1 == BySignature(bot.build(p, a))
  {
    LookupServes(bot, s, sig, p, a);
  }

  lemma FailingThat(bot: Bot, s: Store, sig: u128, p: Json, a: u64) returns (q: Json)
    requires bot.Windowed() && bot.CollisionFree() && Good(bot, s) && p in bot.Plans() && sig == bot.sigOf(p)
    requires !CanServe(s, sig, a)
    ensures var served := Tiers(s, true, sig, p, a, Floor(a)).1;
            if AllKnown(s, p) && BoundCanServe(Get(s, sig).0, p, a)
            then q in bot.inserted && PairKeyOf(q) == PairKeyOf(p) && served == ByHops(bot.build(q, a))
            else served == NotFromRam(UnknownHops(s, p))
  {
    LookupServes(bot, s, sig, p, a);
    FallsThrough(bot, s, sig, p, a);
    AfterFailed(bot, s, sig);
    SameKnown(s, Get(s, sig).0, p);
    q := SecondTierServes(bot, Get(s, sig).0, p, a);
  }

  lemma FallsThrough(bot: Bot, s: Store, sig: u128, p: Json, a: u64)
    requires bot.Windowed() && bot.CollisionFree() && Good(bot, s)
    requires Try(Get(s, sig).1, a, Floor(a)).None?
    ensures var second := SecondTier(Get(s, sig).0, true, p, a, Floor(a)).1;
            Tiers(s, true, sig, p, a, Floor(a)).1 == if second.Some? then ByHops(second.value) else NotFromRam(UnknownHops(s, p))
  {
    TiersAre(s, sig, p, a, Floor(a));
    AfterFailed(bot, s, sig);
    MissingIsUnknown(s, p);
  }

  lemma SameKnown(s: Store, s1: Store, p: Json)
    requires s1.hops == s.hops
    ensures AllKnown(s1, p) == AllKnown(s, p)
  {
  }

  /** The tiers one after the other. */
  lemma TiersAre(s: Store, sig: u128, p: Json, a: u64, floor: u64)
    ensures var first := Try(Get(s, sig).1, a, floor);
            var second := SecondTier(Get(s, sig).0, true, p, a, floor).1;
            Tiers(s, true, sig, p, a, floor).1
            == if first.Some? then BySignature(first.value)
               else if second.Some? then ByHops(second.value)
               else NotFromRam(Missing(Get(s, sig).0.hops, KeysOf(p)))
  {
  }

  /** How many hops of the plan have no recorded key. */
  ghost function UnknownHops(s: Store, p: Json): nat {
    if p.Arr? then |set i | 0 <= i < |p.items| && !(HopOf(p.items[i]).Some? && HopOf(p.items[i]).value in s.hops)| else 0
  }

  lemma MissingIsUnknown(s: Store, p: Json)
    ensures Missing(s.hops, KeysOf(p)) == UnknownHops(s, p)
  {
    MissingHops(s.hops, p);
    assert !p.Arr? ==> KeysOf(p) == [];
  }

  /** The store after a failed lookup is good and knows the same hops. */
  lemma AfterFailed(bot: Bot, s: Store, sig: u128)
    requires bot.Windowed() && bot.CollisionFree() && Good(bot, s)
    ensures Good(bot, Get(s, sig).0) && Get(s, sig).0.hops == s.hops
  {
    AfterLookup(bot, s, GetRoute(sig), Get(s, sig).0, Get(s, sig).1);
    GetKeepsRest(s, sig);
  }

  /** A hit is counted: serving by signature leaves the route live with one hit more, or two when the lookup
      promoted it, and with all it can serve. */
  lemma HitCounted(s: Store, sig: u128, p: Json, a: u64, floor: u64)
    requires Tiers(s, true, sig, p, a, floor).1.BySignature?
    ensures var s' := Tiers(s, true, sig, p, a, floor).0;
            && IsLive(s, sig) && sig in s'.hot
            && s'.hot[sig].hits == Held(s, sig).hits + (if sig in s.hot then 1 else 2)
            && SameButHits(Held(s, sig), s'.hot[sig])
  {
    HitAfterLookup(s, sig);
  }

  lemma HitAfterLookup(s: Store, sig: u128)
    requires IsLive(s, sig)
    ensures var hot := RecordHit(Get(s, sig).0, sig).hot;
            && sig in hot && SameButHits(Held(s, sig), hot[sig])
            && hot[sig].hits == Held(s, sig).hits + (if sig in s.hot then 1 else 2)
  {
    GetHeld(s, sig);
  }

  /** So is a hit by hops, of the route the pair is bound to. */
  lemma HopHitCounted(s: Store, sig: u128, p: Json, a: u64, floor: u64)
    requires Structural(s) && Tiers(s, true, sig, p, a, floor).1.ByHops?
    ensures var s', s1 := Tiers(s, true, sig, p, a, floor).0, Get(s, sig).0;
            && PairKeyOf(p).Some? && PairKeyOf(p).value in s1.index
            && var bound := s1.index[PairKeyOf(p).value];
               && IsLive(s1, bound) && bound in s'.hot
               && s'.hot[bound].hits == Held(s1, bound).hits + (if bound in s1.hot then 1 else 2)
               && SameButHits(Held(s1, bound), s'.hot[bound])
  {
    var s1 := Get(s, sig).0;
    SecondTierLooksUp(s1, p, a, floor);
    OwnKeysAfterGet(s, sig);
    var bound := s1.index[PairKeyOf(p).value];
    OwnKeysAfterGet(s1, bound);
    GetHeld(s1, bound);
    HitAfterLookup(s1, bound);
  }

  /** With serving off nothing is served and nothing changes. */
  lemma ServingOff(s: Store, sig: u128, p: Json, a: u64, floor: u64)
    ensures var (s', served) := Tiers(s, false, sig, p, a, floor);
            s' == s && served == NotFromRam(Missing(s.hops, KeysOf(p)))
  {
  }
}
