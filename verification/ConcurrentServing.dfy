/** RAM serves what Metis would build also while swap-instruction tasks insert and the scanner is between
    the two locks of a lookup (`src/arbitrage.rs`, `src/template_cache.rs`). */
module ConcurrentServing {
  import opened Options
  import opened Words
  import opened RoutePlan
  import opened HopFields
  import opened TemplateStore
  import opened StoreRuns
  import opened StoreConcurrency
  import opened Restarts
  import opened Runs
  import opened Transparency

  /** The bot's inserts are what Metis built; lookups, hits and hop recordings are free. */
  ghost predicate BotEvents(bot: Bot, events: seq<StoreConcurrency.Event>) {
    forall i :: 0 <= i < |events| && events[i].Atomic? ==> BotOp(bot, events[i].op)
  }

  /** A lookup's answer: a sound template of an inserted route, under the signature asked for or one
      bound to the hop pair asked for. */
  ghost predicate Answered(bot: Bot, op: Op, r: Option<RouteTemplate>) {
    r.Some? ==>
      && TemplateOk(bot, r.value) && WasInserted(bot, r.value.routeSignature)
      && match op
         case GetRoute(sig) => r.value.routeSignature == sig
         case GetRouteForHops(k) => k.Some? && IsBound(bot, k.value, r.value.routeSignature)
         case _ => true
  }

  lemma StepAnswered(bot: Bot, s: Store, op: Op, r: Option<RouteTemplate>)
    requires bot.Windowed() && bot.CollisionFree() && BotOp(bot, op) && Good(bot, s) && r == Apply(s, op).1
    ensures Answered(bot, op, r)
  {
    GoodStep(bot, s, op);
    match op
    case GetRoute(sig) => OwnKeysAfterGet(s, sig);
    case GetRouteForHops(k) =>
      if k.Some? && k.value in s.index {
        OwnKeysAfterGet(s, s.index[k.value]);
        assert IsBound(bot, k.value, s.index[k.value]);
      }
    case _ =>
  }

  /** One locked section keeps the store good, and what it completes is answered well. */
  lemma SectionSound(bot: Bot, c: System, e: StoreConcurrency.Event)
    requires bot.Windowed() && bot.CollisionFree() && Inv(c) && Good(bot, c.store) && Enabled(c, e)
    requires e.Atomic? ==> BotOp(bot, e.op)
    ensures var (c', done) := StoreConcurrency.Next(c, e);
            && Good(bot, c'.store)
            && (done.Some? ==> BotOp(bot, done.value.op) && Answered(bot, done.value.op, done.value.result))
  {
    SectionIsAtomic(c, e);
    CompletesItsCall(c, e);
    var (c', done) := StoreConcurrency.Next(c, e);
    if done.Some? {
      GoodStep(bot, c.store, done.value.op);
      StepAnswered(bot, c.store, done.value.op, done.value.result);
    }
  }

  /** Only an atomic section completes an insert, and it completes its own. */
  lemma CompletesItsCall(c: System, e: StoreConcurrency.Event)
    requires Inv(c) && Enabled(c, e)
    ensures var done := StoreConcurrency.Next(c, e).1;
            done.Some? && done.value.op.InsertRoute? ==> e.Atomic? && done.value.op == e.op
  {
    match e
    case ReadLocked(tid) => assert PcOk(c.store, c.pcs[tid]);
    case WriteLocked(tid) => assert PcOk(c.store, c.pcs[tid]);
    case _ =>
  }

  /** Over every interleaving of locked sections every completed lookup is answered well, and the store
      stays good. */
  lemma {:induction false} SoundRun(bot: Bot, c: System, events: seq<StoreConcurrency.Event>)
    requires bot.Windowed() && bot.CollisionFree() && BotEvents(bot, events)
    requires Inv(c) && Good(bot, c.store) && StoreConcurrency.Possible(c, events)
    ensures var (end, log) := RunOf(c, events);
            && Good(bot, end.store) && Inv(end)
            && (forall i :: 0 <= i < |log| ==> BotOp(bot, log[i].op) && Answered(bot, log[i].op, log[i].result))
    decreases |events|
  {
    if events != [] {
      var (c', done) := StoreConcurrency.Next(c, events[0]);
      SectionSound(bot, c, events[0]);
      InvNext(c, events[0]);
      SoundRun(bot, c', events[1..]);
    }
  }

  /** What the answer of a lookup by signature serves, while others insert, is what Metis would build. */
  lemma ServesWhileInserting(bot: Bot, c: System, events: seq<StoreConcurrency.Event>, i: nat, p: Json, a: u64)
    requires bot.Windowed() && bot.CollisionFree() && BotEvents(bot, events) && p in bot.Plans()
    requires Inv(c) && Good(bot, c.store) && StoreConcurrency.Possible(c, events)
    requires i < |RunOf(c, events).1|
    ensures var entry := RunOf(c, events).1[i];
            entry.op == GetRoute(bot.sigOf(p)) && entry.result.Some? ==>
              && ServeRoute(entry.result.value, a, Floor(a)) in {None, Some(bot.build(p, a))}
              && (entry.result.value.inOffset.Some? ==>
                    ServeRoute(entry.result.value, a, Floor(a)) == Some(bot.build(p, a)))
  {
    SoundRun(bot, c, events);
    var entry := RunOf(c, events).1[i];
    if entry.op == GetRoute(bot.sigOf(p)) && entry.result.Some? {
      assert Answered(bot, entry.op, entry.result);
      assert MadeOf(bot, entry.result.value, p);
      ServesFreshBuild(bot, entry.result.value, p, a);
    }
  }

  /** And that of a lookup by hops what Metis would build for an inserted plan with the same hops. */
  lemma ServesHopsWhileInserting(bot: Bot, c: System, events: seq<StoreConcurrency.Event>, i: nat, p: Json, a: u64)
    returns (q: Json)
    requires bot.Windowed() && bot.CollisionFree() && BotEvents(bot, events) && CleanPlan(p)
    requires Inv(c) && Good(bot, c.store) && StoreConcurrency.Possible(c, events)
    requires i < |RunOf(c, events).1|
    ensures var entry := RunOf(c, events).1[i];
            entry.op == GetRouteForHops(PairKeyOf(p)) && entry.result.Some? ==>
              && q in bot.inserted && SameHops(p, q) && bot.sigOf(q) == entry.result.value.routeSignature
              && ServeRoute(entry.result.value, a, Floor(a)) in {None, Some(bot.build(q, a))}
  {
    SoundRun(bot, c, events);
    var entry := RunOf(c, events).1[i];
    q := Null;
    if entry.op == GetRouteForHops(PairKeyOf(p)) && entry.result.Some? {
      assert Answered(bot, entry.op, entry.result);
      q := BoundPlan(bot, p, entry.result.value.routeSignature);
      assert MadeOf(bot, entry.result.value, q);
      ServesFreshBuild(bot, entry.result.value, q, a);
    }
  }

  /** A process whose threads interleave ends in a state of a run of whole operations, so that flushes and
      restarts may follow as in `Restarts`. */
  lemma ConcurrentProcess(w: World, threads: nat, events: seq<StoreConcurrency.Event>)
    requires Structural(w.store)
    requires StoreConcurrency.Possible(System(w.store, seq(threads, _ => StoreConcurrency.Idle)), events)
    ensures var (end, log) := RunOf(System(w.store, seq(threads, _ => StoreConcurrency.Idle)), events);
            Leads(Processes(), w, InRams(OpsOf(log)), w.(store := end.store))
  {
    var c := System(w.store, seq(threads, _ => StoreConcurrency.Idle));
    Linearizable(c, events);
    var (end, log) := RunOf(c, events);
    SequentialIsExec(w.store, log, end.store);
    InRamRun(w, OpsOf(log), end.store);
  }
}
