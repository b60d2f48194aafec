/** How `rate_requeued` relates to `queue_in`: the workers' waits for a slot (`src/arbitrage.rs`,
    `src/rate_limiter.rs`). */
module Requeues {
  import opened Options
  import opened Atomics
  import opened Pipeline
  import opened Sums
  import RateLimiting

  // ── Each item waits at most once ──────────────────────────────────────────

  /** An item in hand that never waited; less one pushed and not counted. */
  function NetWaiters(at: At): int {
    match at
    case Popped(item) => Unwaited(item)
    case InHand(item) => Unwaited(item)
    case RestRefused(item) => Unwaited(item)
    case Refused(item) => Unwaited(item)
    case Pushed(_) => -1
    case _ => 0
  }

  function WaitersLaw(): Law {
    Law([RateRequeued, RestFirst, GrpcFirst], Some(QueueIn), Unwaited, NetWaiters)
  }

  lemma WaitersMove(at: At, k: Choice, top: Option<Item>, cells: Atomics<Cell>, room: Room)
    requires Moves(at, k, top, cells, room).Some?
    ensures Delta(WaitersLaw(), at, top, Moves(at, k, top, cells, room).value) <= 0
  {
  }

  /** Each item is counted in `rate_requeued` at most once, however often it is pushed back, and never if
      it gets a slot at its first try: with those and the items that may still wait the counter exceeds
      `queue_in` by no more than the agents between their push and its counting. */
  lemma Waiters(u: Setup, es: seq<Event>)
    ensures var s := StateOf(u, es);
            TotalOf(s.cells, [RateRequeued, RestFirst, GrpcFirst]) + Sum(Unwaited, s.lifo) + Sum(NetWaiters, s.agents)
            <= Total(s.cells, QueueIn)
  {
    forall at, k, top, cells, room | Moves(at, k, top, cells, room).Some? {
      WaitersMove(at, k, top, cells, room);
    }
    NeverGrowsRun(WaitersLaw(), Start(u), es);
    StartValue(WaitersLaw(), u);
  }

  // ── What a refusal takes ──────────────────────────────────────────────────

  /** The limit per second of both limiters together. */
  function Limit(s: Slots): nat {
    s.restMax + s.grpcMax
  }

  /** The counters a refusal depends on. */
  datatype Tally = Tally(requeued: int, rest: int, grpc: int, announced: int)

  function TallyOf(a: Atomics<Cell>): Tally {
    Tally(Total(a, RateRequeued), Total(a, RestFirst), Total(a, GrpcFirst), Total(a, QueueIn))
  }

  ghost predicate Grows(t: Tally, t': Tally) {
    t.requeued <= t'.requeued && t.rest <= t'.rest && t.grpc <= t'.grpc && t.announced <= t'.announced
  }

  /** While nothing has waited, no item is marked; and whoever was refused was refused by limiters full of
      items that never waited. */
  predicate AgentOk(t: Tally, s: Slots, at: At) {
    t.requeued > 0 ||
    match at
    case Popped(item) => !item.waited
    case InHand(item) => !item.waited
    case RestRefused(item) => !item.waited && t.rest >= s.restMax
    case Refused(item) => !item.waited && t.rest >= s.restMax && t.grpc >= s.grpcMax
    case Requeueing => false
    case _ => true
  }

  predicate ItemOk(t: Tally, i: Item) {
    t.requeued > 0 || !i.waited
  }

  /** Before anything waited each grant went to an item that never waited; and something waits only after
      all slots went to such items. */
  predicate TallyOk(t: Tally, s: Slots) {
    && t.requeued >= 0 && t.announced >= 0
    && (t.requeued == 0 ==> t.rest >= |s.rest| && t.grpc >= |s.grpc|)
    && (t.requeued > 0 ==> t.rest + t.grpc >= Limit(s))
  }

  ghost predicate SlotsOk(s: State) {
    && TallyOk(TallyOf(s.cells), s.slots)
    && (forall i :: 0 <= i < |s.agents| ==> AgentOk(TallyOf(s.cells), s.slots, s.agents[i]))
    && (forall i :: 0 <= i < |s.lifo| ==> ItemOk(TallyOf(s.cells), s.lifo[i]))
  }

  function Added(t: Tally, c: Cell, n: int): Tally {
    Tally(t.requeued + (if c.RateRequeued? then n else 0), t.rest + (if c.RestFirst? then n else 0),
          t.grpc + (if c.GrpcFirst? then n else 0), t.announced + (if c.QueueIn? then n else 0))
  }

  lemma TallyBumped(a: Atomics<Cell>, c: Cell, n: int)
    ensures TallyOf(Bump(a, c, n)) == Added(TallyOf(a), c, n)
  {
    AddAndDrain(a, c, n, RateRequeued);
    AddAndDrain(a, c, n, RestFirst);
    AddAndDrain(a, c, n, GrpcFirst);
    AddAndDrain(a, c, n, QueueIn);
  }

  lemma TallyDrained(a: Atomics<Cell>, c: Cell)
    ensures TallyOf(Drain(a, c)) == TallyOf(a)
  {
    AddAndDrain(a, c, 0, RateRequeued);
    AddAndDrain(a, c, 0, RestFirst);
    AddAndDrain(a, c, 0, GrpcFirst);
    AddAndDrain(a, c, 0, QueueIn);
  }

  /** What a probe leaves of a limiter that kept no more than `first` grants. */
  lemma AskedFacts(max: nat, stamps: seq<int>, now: int)
    ensures var (kept, ok) := RateLimiting.Asked(max, stamps, now);
            |kept| <= |stamps| + (if ok then 1 else 0) && (!ok ==> max <= |kept| <= |stamps|)
  {
  }

  lemma ProbeFacts(s: Slots, ask: Ask)
    ensures var s' := Probed(s, ask);
            && s'.restMax == s.restMax && s'.grpcMax == s.grpcMax
            && |s'.rest| <= |s.rest| + (if ask.AskRest? && RoomOf(s).rest then 1 else 0)
            && |s'.grpc| <= |s.grpc| + (if ask.AskGrpc? && RoomOf(s).grpc then 1 else 0)
            && (!RoomOf(s).rest ==> s.restMax <= |s.rest|) && (!RoomOf(s).grpc ==> s.grpcMax <= |s.grpc|)
  {
    AskedFacts(s.restMax, s.rest, s.now);
    AskedFacts(s.grpcMax, s.grpc, s.now);
  }

  /** One step, seen from its agent: the tally grows, and stays what it must be. */
  lemma SlotMove(at: At, k: Choice, top: Option<Item>, cells: Atomics<Cell>, s: Slots, t: Tally)
    requires Moves(at, k, top, cells, RoomOf(s)).Some?
    requires TallyOk(t, s) && AgentOk(t, s, at) && (top.Some? ==> ItemOk(t, top.value))
    ensures var e := Moves(at, k, top, cells, RoomOf(s)).value;
            var t', s' := Added(t, e.cell, e.change), Probed(s, e.ask);
            && Grows(t, t') && TallyOk(t', s') && AgentOk(t', s', e.next)
            && (e.op.Push? ==> ItemOk(t', e.op.item))
            && (e.spawns ==> AgentOk(t', s', Fetching))
  {
    ProbeFacts(s, Moves(at, k, top, cells, RoomOf(s)).value.ask);
  }

  /** More tallied and the same limits: what was right of an agent or item still is. */
  lemma StillOk(t: Tally, t': Tally, s: Slots, s': Slots, at: At, i: Item)
    requires Grows(t, t') && s'.restMax == s.restMax && s'.grpcMax == s.grpcMax
    ensures AgentOk(t, s, at) ==> AgentOk(t', s', at)
    ensures ItemOk(t, i) ==> ItemOk(t', i)
  {
  }

  lemma SlotsTake(s: State, i: nat, k: Choice)
    requires SlotsOk(s) && StepOf(s, Act(i, k)).Some?
    ensures SlotsOk(Take(s, i, StepOf(s, Act(i, k)).value))
  {
    var e := StepOf(s, Act(i, k)).value;
    var t, s' := TallyOf(s.cells), Take(s, i, e);
    var t' := TallyOf(s'.cells);
    SlotMove(s.agents[i], k, Top(s.lifo), s.cells, s.slots, t);
    TallyBumped(s.cells, e.cell, e.change);
    ProbeFacts(s.slots, e.ask);
    forall j | 0 <= j < |s'.agents|
      ensures AgentOk(t', s'.slots, s'.agents[j])
    {
      if j != i && j < |s.agents| {
        StillOk(t, t', s.slots, s'.slots, s.agents[j], Item(false));
      }
    }
    forall j | 0 <= j < |s'.lifo|
      ensures ItemOk(t', s'.lifo[j])
    {
      if j < |s.lifo| {
        StillOk(t, t', s.slots, s'.slots, Waiting, s.lifo[j]);
      }
    }
  }

  lemma SlotsStep(s: State, e: Event)
    requires SlotsOk(s)
    ensures SlotsOk(Next(s, e)) && Limit(Next(s, e).slots) == Limit(s.slots)
  {
    match e
    case Act(i, k) =>
      if StepOf(s, e).Some? {
        SlotsTake(s, i, k);
        ProbeFacts(s.slots, StepOf(s, e).value.ask);
      }
    case QuoteCheck =>
    case Report(c) => TallyDrained(s.cells, c);
    case Pass(_) =>
  }

  lemma {:induction false} SlotsRun(s: State, es: seq<Event>)
    requires SlotsOk(s)
    ensures SlotsOk(Run(s, es)) && Limit(Run(s, es).slots) == Limit(s.slots)
    decreases |es|
  {
    if es != [] {
      SlotsStep(s, es[0]);
      SlotsRun(Next(s, es[0]), es[1..]);
    }
  }

  // ── The bound ─────────────────────────────────────────────────────────────

  function IsPushed(at: At): int {
    if at.Pushed? then 1 else 0
  }

  /** The pushes not counted yet. */
  function Uncounted(s: State): int {
    Sum(IsPushed, s.agents)
  }

  lemma {:induction false} NetAtLeast(xs: seq<At>)
    ensures Sum(NetWaiters, xs) + Sum(IsPushed, xs) >= 0
  {
    if xs != [] {
      NetAtLeast(xs[1..]);
    }
  }

  lemma TotalOfThree(a: Atomics<Cell>, c: Cell, d: Cell, e: Cell)
    ensures TotalOf(a, [c, d, e]) == Total(a, c) + Total(a, d) + Total(a, e)
  {
    assert TotalOf(a, [c, d, e]) == Total(a, c) + TotalOf(a, [d, e]) by { assert [c, d, e][1..] == [d, e]; }
    assert TotalOf(a, [d, e]) == Total(a, d) + TotalOf(a, [e]) by { assert [d, e][1..] == [e]; }
    assert TotalOf(a, [e]) == Total(a, e) by { assert [e][1..] == []; }
  }

  /** In every state of every interleaving: either nothing was requeued, or `rate_requeued` is below
      `queue_in` by the limit of both limiters, up to the pushes not counted yet. For before the first
      refusal as many items got a slot at their first try as the limiters give in a second. */
  lemma RequeuedBound(u: Setup, es: seq<Event>)
    ensures var s := StateOf(u, es);
            && Total(s.cells, QueueIn) >= 0
            && (Total(s.cells, RateRequeued) == 0
                || Total(s.cells, RateRequeued) + u.restMax + u.grpcMax <= Total(s.cells, QueueIn) + Uncounted(s))
  {
    var s := StateOf(u, es);
    Waiters(u, es);
    TotalOfThree(s.cells, RateRequeued, RestFirst, GrpcFirst);
    SumAtLeast(Unwaited, s.lifo);
    NetAtLeast(s.agents);
    SlotsRun(Start(u), es);
    assert TallyOk(TallyOf(s.cells), s.slots);
  }

  /** So `rate_requeued` is at most `queue_in` while no more pushes are uncounted than the limiters give
      slots in a second. */
  lemma RequeuedWithinQueueIn(u: Setup, es: seq<Event>)
    requires Uncounted(StateOf(u, es)) <= u.restMax + u.grpcMax
    ensures Total(StateOf(u, es).cells, RateRequeued) <= Total(StateOf(u, es).cells, QueueIn)
  {
    RequeuedBound(u, es);
  }
}
