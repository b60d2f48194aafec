/** Serving from RAM is serving what Metis would build: the store, its file and restarts together
    (`src/template_cache.rs` with the three tiers of `src/arbitrage.rs`). */
module Transparency {
  import opened Options
  import opened Words
  import opened RoutePlan
  import opened HopFields
  import opened TemplateStore
  import opened StoreRuns
  import opened Persistence
  import opened Restarts
  import opened Runs
  import Amounts
  import LittleEndian
  import G = Generations

  // ── Metis ─────────────────────────────────────────────────────────────────

  /** The fees added to the amount to give the on-chain floor: tip and base fee. */
  const FEES: nat := 1_600 + 5_000

  /** The on-chain floor of an amount, in wrapping arithmetic. */
  function Floor(amount: u64): u64 {
    Wrap64(amount + FEES)
  }

  /** Two instructions agree but for the 16 bytes of their data at `w`. */
  ghost predicate AgreeOutside(x: SwapInstructions, y: SwapInstructions, w: nat) {
    && y == x.(swap := x.swap.(data := y.swap.data))
    && x.swap.data.Encodes? && y.swap.data.Encodes?
    && var (xs, ys) := (x.swap.data.bytes, y.swap.data.bytes);
       w + 16 <= |xs| == |ys| && xs[..w] == ys[..w] && xs[w + 16..] == ys[w + 16..]
  }

  /** A bot and the Metis it talks to: the instruction builder, the signature, where the builder puts
      the amounts, the plans the run inserts, and the plans it asks for. */
  datatype Bot = Bot(
    build: (Json, u64) -> SwapInstructions,
    sigOf: Json -> u128,
    window: Json -> nat,
    inserted: set<Json>,
    asked: set<Json>)
  {
    function Plans(): set<Json> {
      inserted + asked
    }

    /** The builder's bytes for a plan agree across amounts but for one 16-byte window, which holds the
        amount and its floor. */
    ghost predicate Windowed() {
      && (forall p, a: u64 {:trigger build(p, a)} :: p in Plans() ==>
            && build(p, a).swap.data.Encodes?
            && Amounts.PairAt(build(p, a).swap.data.bytes, window(p), a, Floor(a)))
      && (forall p, a: u64, b: u64 {:trigger build(p, a), build(p, b)} :: p in Plans() ==>
            AgreeOutside(build(p, a), build(p, b), window(p)))
    }

    /** Among the plans of the run, equal signatures mean equal instructions. */
    ghost predicate CollisionFree() {
      forall p, q, a: u64 {:trigger build(p, a), build(q, a)} ::
        p in Plans() && q in Plans() && sigOf(p) == sigOf(q) ==> build(p, a) == build(q, a)
    }

    /** Among the plans of the run, equal signatures mean equal hop ids. */
    ghost predicate SigKeepsHops() {
      forall p, q :: p in Plans() && q in Plans() && sigOf(p) == sigOf(q) ==> PairKeyOf(p) == PairKeyOf(q)
    }

    /** What the bot inserts: what Metis built for an inserted plan at some amount, with its floor. */
    ghost predicate Inserts(op: Op)
      requires op.InsertRoute?
    {
      exists p, a: u64 :: p in inserted
        && op.built == NewTemplate(sigOf(p), build(p, a), a, Floor(a)) && op.pairKey == PairKeyOf(p)
    }
  }

  /** An instruction whose data is the amount and its floor. */
  function PlainIxs(a: u64): SwapInstructions {
    SwapInstructions([], [], Instruction("", [], Encodes(LittleEndian.Le(a) + LittleEndian.Le(Floor(a)))), None, [])
  }

  /** The two assumptions can be met, whatever the signature and the plans. */
  lemma PlainBot(sigOf: Json -> u128, inserted: set<Json>, asked: set<Json>)
    ensures var bot := Bot((_: Json, a: u64) => PlainIxs(a), sigOf, _ => 0, inserted, asked);
            bot.Windowed() && bot.CollisionFree()
  {
    forall a: u64
      ensures Amounts.PairAt(PlainIxs(a).swap.data.bytes, 0, a, Floor(a)) && |PlainIxs(a).swap.data.bytes| == 16
    {
      var data := PlainIxs(a).swap.data.bytes;
      assert data[0..8] == LittleEndian.Le(a) && data[8..16] == LittleEndian.Le(Floor(a));
    }
    forall a: u64, b: u64
      ensures AgreeOutside(PlainIxs(a), PlainIxs(b), 0)
    {
      var (x, y) := (PlainIxs(a).swap.data.bytes, PlainIxs(b).swap.data.bytes);
      assert x[..0] == y[..0] == [] && x[16..] == y[16..] == [];
    }
  }

  // ── Templates of a plan ───────────────────────────────────────────────────

  /** `t` was made of `p`: its base is Metis's instruction for its own amount, its gap the fees, its
      offsets the builder's window, and every cached instruction Metis's for that amount. */
  ghost predicate MadeOf(bot: Bot, t: RouteTemplate, p: Json) {
    && t.swapIxs == bot.build(p, t.templateIn)
    && t.templateOut == Floor(t.templateIn)
    && (if t.inOffset.None? then t.outOffset.None?
        else t.inOffset == Some(bot.window(p)) && t.outOffset == Some(bot.window(p) + 8))
    && (forall a :: a in t.variants ==> t.variants[a] == bot.build(p, a))
  }

  ghost predicate TemplateOk(bot: Bot, t: RouteTemplate) {
    forall p :: p in bot.Plans() && bot.sigOf(p) == t.routeSignature ==> MadeOf(bot, t, p)
  }

  /** The stored gap stays the fees, so the patched floor is the one the caller asks for and ignores. */
  lemma GapIsFees(t: RouteTemplate, a: u64)
    requires t.templateOut == Floor(t.templateIn)
    ensures Wrap64(a + Wrap64(t.templateOut - t.templateIn)) == Floor(a)
  {
    var i := t.templateIn;
    if i + FEES < TWO64 {
      assert t.templateOut - i == FEES;
    } else {
      assert t.templateOut == i + FEES - TWO64;
    }
  }

  /** Patching Metis's instruction for one amount gives its instruction for another. */
  lemma PatchIsBuild(bot: Bot, p: Json, a: u64, b: u64)
    requires bot.Windowed() && p in bot.Plans()
    ensures PatchIxs(bot.build(p, a), bot.window(p), bot.window(p) + 8, b, Floor(b)) == Some(bot.build(p, b))
  {
    var (x, y, w) := (bot.build(p, a), bot.build(p, b), bot.window(p));
    assert AgreeOutside(x, y, w);
    PatchTo(x.swap.data.bytes, y.swap.data.bytes, w, b, Floor(b));
  }

  lemma PatchTo(x: seq<byte>, y: seq<byte>, w: nat, b: u64, floor: u64)
    requires w + 16 <= |x| == |y| && x[..w] == y[..w] && x[w + 16..] == y[w + 16..]
    requires Amounts.PairAt(y, w, b, floor)
    ensures Amounts.Patched(x, w, w + 8, b, floor) == Some(y)
  {
    Amounts.PatchedAt(x, w, b, floor);
    assert y == y[..w] + (y[w..w + 8] + y[w + 8..w + 16]) + y[w + 16..];
  }

  /** Serving a template made of a plan: Metis's instruction for the amount, whenever it serves; it
      refuses exactly when the amount is not cached and the offsets were not found. */
  lemma ServesFreshBuild(bot: Bot, t: RouteTemplate, p: Json, a: u64)
    requires bot.Windowed() && p in bot.Plans() && MadeOf(bot, t, p)
    ensures ServeRoute(t, a, Floor(a))
            == if a in t.variants || t.inOffset.Some? then Some(bot.build(p, a)) else None
  {
    if a !in t.variants && t.inOffset.Some? {
      GapIsFees(t, a);
      PatchIsBuild(bot, p, t.templateIn, a);
    }
  }

  /** A new template is made of the plan it was built for, and of every plan with its signature. */
  lemma NewTemplateOk(bot: Bot, p: Json, a: u64)
    requires bot.Windowed() && bot.CollisionFree() && p in bot.Plans()
    ensures TemplateOk(bot, NewTemplate(bot.sigOf(p), bot.build(p, a), a, Floor(a)))
  {
    var t := NewTemplate(bot.sigOf(p), bot.build(p, a), a, Floor(a));
    forall q | q in bot.Plans() && bot.sigOf(q) == t.routeSignature
      ensures MadeOf(bot, t, q)
    {
      assert bot.build(q, a) == bot.build(p, a);
      var bytes := bot.build(q, a).swap.data.bytes;
      assert Amounts.PairAt(bytes, bot.window(q), a, Floor(a));
      WindowFound(bytes, bot.window(q), a, Floor(a));
    }
  }

  /** Where the amounts stand as a pair, discovery finds that place or refuses. */
  lemma WindowFound(bytes: seq<byte>, w: nat, a: u64, b: u64)
    requires Amounts.PairAt(bytes, w, a, b)
    ensures var d := Amounts.Discovered(bytes, a, b);
            d.Some? ==> d.value == w
  {
  }

  // ── Every operation keeps the templates sound ─────────────────────────────

  /** Every template of a generation is sound, and its route was inserted. */
  ghost predicate Sound(bot: Bot, m: map<u128, RouteTemplate>) {
    forall k :: k in m ==> TemplateOk(bot, m[k]) && WasInserted(bot, m[k].routeSignature)
  }

  ghost predicate WasInserted(bot: Bot, sig: u128) {
    exists p :: p in bot.inserted && bot.sigOf(p) == sig
  }

  /** Every index entry was bound by an inserted plan with that pair key and signature. */
  ghost predicate Bound(bot: Bot, index: map<string, u128>) {
    forall k :: k in index ==> IsBound(bot, k, index[k])
  }

  ghost predicate IsBound(bot: Bot, k: string, sig: u128) {
    exists p :: p in bot.inserted && bot.sigOf(p) == sig && PairKeyOf(p) == Some(k)
  }

  ghost predicate Good(bot: Bot, s: Store) {
    Structural(s) && SoundStore(bot, s)
  }

  ghost predicate SoundStore(bot: Bot, s: Store) {
    Sound(bot, s.hot) && Sound(bot, s.cold) && Bound(bot, s.index)
  }

  ghost predicate SoundAnswer(bot: Bot, r: Option<RouteTemplate>) {
    r.Some? ==> TemplateOk(bot, r.value) && WasInserted(bot, r.value.routeSignature)
  }

  /** The operations of the bot: its inserts are what Metis built, everything else is free. */
  ghost predicate BotOp(bot: Bot, op: Op) {
    op.InsertRoute? ==> bot.Inserts(op)
  }

  lemma SoundUpdate(bot: Bot, m: map<u128, RouteTemplate>, k: u128, t: RouteTemplate)
    requires Sound(bot, m) && TemplateOk(bot, t) && WasInserted(bot, t.routeSignature)
    ensures Sound(bot, m[k := t]) && Sound(bot, map[k := t]) && Sound(bot, m - {k})
  {
  }

  lemma SeenAgainOk(bot: Bot, t: RouteTemplate, p: Json, a: u64)
    requires bot.CollisionFree() && p in bot.Plans() && bot.sigOf(p) == t.routeSignature && TemplateOk(bot, t)
    ensures TemplateOk(bot, SeenAgain(t, a, bot.build(p, a)))
  {
    forall q | q in bot.Plans() && bot.sigOf(q) == t.routeSignature
      ensures MadeOf(bot, SeenAgain(t, a, bot.build(p, a)), q)
    {
      assert MadeOf(bot, t, q) && bot.build(q, a) == bot.build(p, a);
    }
  }

  lemma HitOk(bot: Bot, t: RouteTemplate)
    requires TemplateOk(bot, t)
    ensures TemplateOk(bot, t.(hits := t.hits + 1))
  {
    forall q | q in bot.Plans() && bot.sigOf(q) == t.routeSignature
      ensures MadeOf(bot, t.(hits := t.hits + 1), q)
    {
      assert MadeOf(bot, t, q);
    }
  }

  lemma GoodGet(bot: Bot, s: Store, sig: u128)
    requires SoundStore(bot, s)
    ensures SoundStore(bot, Get(s, sig).0) && SoundAnswer(bot, Get(s, sig).1)
  {
    if sig in s.cold && sig !in s.hot {
      HitOk(bot, s.cold[sig]);
      SoundUpdate(bot, s.hot, sig, Promoted(s, sig));
      SoundUpdate(bot, s.cold, sig, Promoted(s, sig));
    }
    GetKeepsRest(s, sig);
  }

  /** Inserting any sound template of an inserted route. */
  lemma SoundInsert(bot: Bot, s: Store, t: RouteTemplate, k: Option<string>)
    requires Sound(bot, s.hot) && Sound(bot, s.cold) && TemplateOk(bot, t) && WasInserted(bot, t.routeSignature)
    requires t.routeSignature in s.hot ==> TemplateOk(bot, SeenAgain(s.hot[t.routeSignature], t.templateIn, t.swapIxs))
    requires t.routeSignature in s.cold ==> TemplateOk(bot, SeenAgain(s.cold[t.routeSignature], t.templateIn, t.swapIxs))
    ensures Sound(bot, Insert(s, t, k).hot) && Sound(bot, Insert(s, t, k).cold)
  {
    var sig := t.routeSignature;
    if sig in s.hot {
      SoundUpdate(bot, s.hot, sig, SeenAgain(s.hot[sig], t.templateIn, t.swapIxs));
    } else if sig in s.cold {
      SoundUpdate(bot, s.cold, sig, SeenAgain(s.cold[sig], t.templateIn, t.swapIxs));
    } else {
      SoundUpdate(bot, s.hot, sig, t);
    }
  }

  lemma BoundInsert(bot: Bot, s: Store, t: RouteTemplate, k: Option<string>)
    requires Bound(bot, s.index) && (k.Some? ==> IsBound(bot, k.value, t.routeSignature))
    ensures Bound(bot, Insert(s, t, k).index)
  {
    IndexAfterInsert(s, t, k);
    if k.Some? {
      BoundUpdate(bot, s.index, k.value, t.routeSignature);
    }
  }

  lemma BoundUpdate(bot: Bot, index: map<string, u128>, k: string, sig: u128)
    requires Bound(bot, index) && IsBound(bot, k, sig)
    ensures Bound(bot, index[k := sig])
  {
  }

  /** An insert leaves the index as it is or binds its pair key. */
  lemma IndexAfterInsert(s: Store, t: RouteTemplate, k: Option<string>)
    ensures var index := Insert(s, t, k).index;
            index == s.index || (k.Some? && index == s.index[k.value := t.routeSignature])
  {
    var pushed := PushHot(s, t.routeSignature, t);
    assert pushed.index == s.index;
    IndexedOnce(pushed, t.routeSignature, k);
  }

  lemma IndexedOnce(s: Store, sig: u128, k: Option<string>)
    ensures var index := Indexed(s, sig, k).index;
            index == s.index || (k.Some? && index == s.index[k.value := sig])
  {
  }

  /** A live route seen again at an amount Metis built it for. */
  lemma SeenAgainSound(bot: Bot, m: map<u128, RouteTemplate>, p: Json, a: u64)
    requires bot.CollisionFree() && p in bot.Plans() && Sound(bot, m) && OwnKeys(m) && bot.sigOf(p) in m
    ensures TemplateOk(bot, SeenAgain(m[bot.sigOf(p)], a, bot.build(p, a)))
  {
    SeenAgainOk(bot, m[bot.sigOf(p)], p, a);
  }

  lemma GoodInsert(bot: Bot, s: Store, p: Json, a: u64, t: RouteTemplate, k: Option<string>)
    requires bot.Windowed() && bot.CollisionFree() && p in bot.inserted && Good(bot, s)
    requires t == NewTemplate(bot.sigOf(p), bot.build(p, a), a, Floor(a)) && k == PairKeyOf(p)
    ensures SoundStore(bot, Insert(s, t, k))
  {
    NewTemplateOk(bot, p, a);
    assert WasInserted(bot, t.routeSignature);
    if t.routeSignature in s.hot { SeenAgainSound(bot, s.hot, p, a); }
    if t.routeSignature in s.cold { SeenAgainSound(bot, s.cold, p, a); }
    SoundInsert(bot, s, t, k);
    assert k.Some? ==> IsBound(bot, k.value, t.routeSignature);
    BoundInsert(bot, s, t, k);
  }

  lemma GoodBotInsert(bot: Bot, s: Store, op: Op)
    requires bot.Windowed() && bot.CollisionFree() && Good(bot, s) && op.InsertRoute? && bot.Inserts(op)
    ensures SoundStore(bot, Insert(s, op.built, op.pairKey))
  {
    var p, a: u64 :| p in bot.inserted
      && op.built == NewTemplate(bot.sigOf(p), bot.build(p, a), a, Floor(a)) && op.pairKey == PairKeyOf(p);
    GoodInsert(bot, s, p, a, op.built, op.pairKey);
  }

  lemma SoundHit(bot: Bot, m: map<u128, RouteTemplate>, k: u128)
    requires Sound(bot, m) && k in m
    ensures Sound(bot, m[k := m[k].(hits := m[k].hits + 1)])
  {
    HitOk(bot, m[k]);
    SoundUpdate(bot, m, k, m[k].(hits := m[k].hits + 1));
  }

  lemma GoodHit(bot: Bot, s: Store, sig: u128)
    requires SoundStore(bot, s)
    ensures SoundStore(bot, RecordHit(s, sig))
  {
    if sig in s.hot {
      SoundHit(bot, s.hot, sig);
    } else if sig in s.cold {
      SoundHit(bot, s.cold, sig);
    }
  }

  /** One operation keeps the templates sound, and a lookup returns a sound one of an inserted route. */
  lemma SoundStep(bot: Bot, s: Store, op: Op)
    requires bot.Windowed() && bot.CollisionFree() && BotOp(bot, op) && Good(bot, s)
    ensures SoundStore(bot, Apply(s, op).0) && SoundAnswer(bot, Apply(s, op).1)
  {
    match op
    case GetRoute(sig) => GoodGet(bot, s, sig);
    case GetRouteForHops(k) =>
      if k.Some? && k.value in s.index {
        GoodGet(bot, s, s.index[k.value]);
      }
    case InsertRoute(_, _) => GoodBotInsert(bot, s, op);
    case RecordRouteHit(sig) => GoodHit(bot, s, sig);
    case RecordAllHops(_, _) =>
  }

  lemma GoodStep(bot: Bot, s: Store, op: Op)
    requires bot.Windowed() && bot.CollisionFree() && BotOp(bot, op) && Good(bot, s)
    ensures Good(bot, Apply(s, op).0) && SoundAnswer(bot, Apply(s, op).1)
  {
    StructuralStep(s, op);
    SoundStep(bot, s, op);
  }

  // ── Runs with flushes and restarts ────────────────────────────────────────

  ghost predicate BotRun(bot: Bot, ops: seq<WorldOp>) {
    forall i :: 0 <= i < |ops| && ops[i].InRam? ==> BotOp(bot, ops[i].op)
  }

  /** The file was flushed from a good store: possibly an earlier one. */
  ghost predicate GoodWorld(bot: Bot, w: World) {
    && Good(bot, w.store)
    && (w.disk.Some? ==> exists s :: Good(bot, s) && s.cap == w.store.cap && FlushOf(w.disk.value, s))
  }

  lemma ReloadedOk(bot: Bot, m: map<u128, RouteTemplate>)
    requires Sound(bot, m)
    ensures Sound(bot, Reloaded(m))
  {
    forall k | k in m
      ensures TemplateOk(bot, m[k].(variants := map[]))
    {
      forall q | q in bot.Plans() && bot.sigOf(q) == m[k].routeSignature
        ensures MadeOf(bot, m[k].(variants := map[]), q)
      {
        assert MadeOf(bot, m[k], q);
      }
    }
  }

  lemma GoodStart(bot: Bot, s: Store, hops: map<HopKey, HopTemplate>)
    requires Good(bot, s)
    ensures Good(bot, StartedFrom(s, hops))
  {
    OwnRoutes(s);
    assert Sound(bot, Routes(s));
    ReloadedOk(bot, Routes(s));
  }

  lemma GoodRestart(bot: Bot, w: World, t: Store)
    requires GoodWorld(bot, w) && IsStart(w, t)
    ensures Good(bot, t) && t.cap == w.store.cap
  {
    if w.disk.Some? {
      var s :| Good(bot, s) && s.cap == w.store.cap && FlushOf(w.disk.value, s);
      StartsFromFlush(w, s, t);
      GoodStart(bot, s, t.hops);
    }
  }

  lemma GoodWorldStep(bot: Bot, w: World, op: WorldOp)
    requires bot.Windowed() && bot.CollisionFree() && GoodWorld(bot, w) && CanHappen(w, op)
    requires op.InRam? ==> BotOp(bot, op.op)
    ensures GoodWorld(bot, After(w, op)) && After(w, op).store.cap == w.store.cap
  {
    match op
    case InRam(o) =>
      GoodStep(bot, w.store, o);
      ApplyTouches(w.store, o);
      assert GenOf(Apply(w.store, o).0).cap == w.store.cap;
    case Flush(file) => assert Good(bot, w.store) && FlushOf(file, w.store);
    case Restart(t) => GoodRestart(bot, w, t);
  }

  /** Every state of every run of the bot is good. */
  lemma {:induction false} GoodRun(bot: Bot, w: World, ops: seq<WorldOp>, w': World)
    requires bot.Windowed() && bot.CollisionFree() && BotRun(bot, ops)
    requires GoodWorld(bot, w) && Leads(Processes(), w, ops, w')
    ensures GoodWorld(bot, w')
    decreases |ops|
  {
    if ops != [] {
      GoodWorldStep(bot, w, ops[0]);
      GoodRun(bot, Processes().step(w, ops[0]), ops[1..], w');
    }
  }

  // ── Cache transparency ────────────────────────────────────────────────────

  /** Tier 1: after any run of inserts, lookups, promotions, rotations, evictions, flushes and restarts,
      whatever RAM serves for the signature of a plan is what Metis would build for it at that amount. */
  lemma RamEqualsMetis(bot: Bot, cap: Cap, ops: seq<WorldOp>, w: World, p: Json, a: u64)
    requires bot.Windowed() && bot.CollisionFree() && BotRun(bot, ops) && Reaches(cap, ops, w)
    requires p in bot.Plans()
    ensures var r := Get(w.store, bot.sigOf(p)).1;
            r.Some? ==>
              && ServeRoute(r.value, a, Floor(a)) in {None, Some(bot.build(p, a))}
              && (r.value.inOffset.Some? ==> ServeRoute(r.value, a, Floor(a)) == Some(bot.build(p, a)))
  {
    GoodRun(bot, NewWorld(cap), ops, w);
    var r := Get(w.store, bot.sigOf(p)).1;
    if r.Some? {
      GoodGet(bot, w.store, bot.sigOf(p));
      OwnKeysAfterGet(w.store, bot.sigOf(p));
      assert MadeOf(bot, r.value, p);
      ServesFreshBuild(bot, r.value, p, a);
    }
  }

  /** The plan behind an index entry. */
  lemma BoundPlan(bot: Bot, p: Json, sig: u128) returns (q: Json)
    requires CleanPlan(p) && PairKeyOf(p).Some? && IsBound(bot, PairKeyOf(p).value, sig)
    ensures q in bot.inserted && bot.sigOf(q) == sig && SameHops(p, q) && PairKeyOf(p) == PairKeyOf(q)
  {
    q :| q in bot.inserted && bot.sigOf(q) == sig && PairKeyOf(q) == Some(PairKeyOf(p).value);
    PairKeyExact(p, q);
  }

  /** The plan behind a template found by hops. */
  lemma PlanBehind(bot: Bot, s: Store, p: Json) returns (q: Json)
    requires CleanPlan(p) && Good(bot, s) && GetForHops(s, PairKeyOf(p)).1.Some?
    ensures q in bot.inserted && bot.sigOf(q) == GetForHops(s, PairKeyOf(p)).1.value.routeSignature
    ensures SameHops(p, q) && PairKeyOf(p) == PairKeyOf(q)
  {
    var k := PairKeyOf(p);
    var sig := s.index[k.value];
    OwnKeysAfterGet(s, sig);
    assert IsBound(bot, k.value, sig);
    q := BoundPlan(bot, p, sig);
  }

  /** Tier 2: a template found by hops belongs to a route inserted from two-hop plans only, all with the
      same pools, mints and directions in the same order, and serves what Metis would build for them. */
  lemma HopPairServesSameHops(bot: Bot, cap: Cap, ops: seq<WorldOp>, w: World, p: Json, a: u64)
    requires bot.Windowed() && bot.CollisionFree() && BotRun(bot, ops) && Reaches(cap, ops, w)
    requires bot.SigKeepsHops() && CleanPlan(p)
    ensures var r := GetForHops(w.store, PairKeyOf(p)).1;
            r.Some? ==>
              && WasInserted(bot, r.value.routeSignature)
              && forall q :: q in bot.inserted && bot.sigOf(q) == r.value.routeSignature ==>
                   SameHops(p, q) && ServeRoute(r.value, a, Floor(a)) in {None, Some(bot.build(q, a))}
  {
    GoodRun(bot, NewWorld(cap), ops, w);
    var r := GetForHops(w.store, PairKeyOf(p)).1;
    if r.Some? {
      GoodGet(bot, w.store, w.store.index[PairKeyOf(p).value]);
      var bound := PlanBehind(bot, w.store, p);
      forall q | q in bot.inserted && bot.sigOf(q) == r.value.routeSignature
        ensures SameHops(p, q) && ServeRoute(r.value, a, Floor(a)) in {None, Some(bot.build(q, a))}
      {
        SameKeySameHops(p, bound, q);
        ServesFreshBuild(bot, r.value, q, a);
      }
    }
  }

  lemma SameKeySameHops(p: Json, bound: Json, q: Json)
    requires SameHops(p, bound) && CleanPlan(p) && PairKeyOf(p) == PairKeyOf(bound) == PairKeyOf(q)
    ensures SameHops(p, q)
  {
    PairKeyExact(p, q);
  }

  /** After a reload, a template whose pair was found in the first pass serves its own amount with
      byte-identical instructions, although its cached instructions are gone. */
  lemma ReloadedServesBase(t: RouteTemplate, bytes: seq<byte>, p: nat)
    requires t.swapIxs.swap.data == Encodes(bytes) && t.inOffset == Some(p) && t.outOffset == Some(p + 8)
    requires Amounts.PairOnlyAt(bytes, p, t.templateIn, t.templateOut)
    ensures var reloaded := ToTemplate(t.routeSignature, FromTemplate(t));
            ServeRoute(reloaded, t.templateIn, t.templateOut) == Some(t.swapIxs)
  {
    RecordRoundTrip(t);
    GapRestores(t.templateIn, t.templateOut);
    PatchesToItself(t.swapIxs, bytes, p, t.templateIn, t.templateOut);
  }

  lemma GapRestores(a: u64, b: u64)
    ensures Wrap64(a + Wrap64(b - a)) == b
  {
    if b >= a {
      assert Wrap64(b - a) == b - a;
    } else {
      assert Wrap64(b - a) == b - a + TWO64;
    }
  }

  lemma PatchesToItself(ixs: SwapInstructions, bytes: seq<byte>, p: nat, a: u64, b: u64)
    requires ixs.swap.data == Encodes(bytes) && Amounts.PairAt(bytes, p, a, b)
    ensures PatchIxs(ixs, p, p + 8, a, b) == Some(ixs)
  {
    Amounts.PatchSame(bytes, p, a, b);
  }
}
