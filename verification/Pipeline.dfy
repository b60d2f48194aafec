/** Scanner, swap-instruction tasks and workers around the LIFO queue, its semaphore and the counters,
    every lock, push, counter and permit operation a step of its own (`src/arbitrage.rs`). */
module Pipeline {
  import opened Options
  import opened Atomics
  import opened Sums
  import RateLimiting

  /** The shared counters: the metrics; and, read by no reporter, the semaphore's permits, the pairs the
      scanner has not taken yet, and how many slots each limiter gave to items that never waited, which
      only the model counts. */
  datatype Cell =
    | Permits | Pairs | RestFirst | GrpcFirst | QueueDepth
    | MetisReqSent | MetisRespOk | SwapIxOk | IxFromRam | IxFromMetis
    | RouteTemplateHit | HopTemplateAllHit | HopTemplateMissing
    | SwapIxFailed | SwapIxTimeout | SwapIxHttp | SwapIxNetwork | SwapIxParse
    | DroppedMultiHop | DroppedMergeFail | DroppedNoServe
    | QueueIn | DroppedStale | TxBuildFailed | TxTooLarge | DroppedAccountLocks | CalcDone
    | RateRequeued | JitoSendFailed | JitoSent | TxDropped

  datatype Item = Item(waited: bool)

  /** Who pushes or drops: where the agent goes on afterwards. */
  datatype Role = Scanner | Task | Worker

  datatype At =
    // a quote check
    | Starting                    // metis_req_sent not counted yet
    | Checking                    // both quotes in flight
    | Profitable                  // metis_resp_ok counted, pair not handed over yet
    // the scanner
    | Scanning                    // waiting for a pair
    | Holding                     // a pair taken
    | HopsChecked(allHit: bool)   // no tier-1 hit, hops counted
    | RamHit                      // route_template_hit counted
    | RamCounted                  // ix_from_ram counted
    | Asked                       // metis_req_sent counted, task not spawned yet
    // a swap-instruction task
    | Fetching                    // its request in flight
    | MetisOk                     // swap_ix_ok counted
    | FetchFailed                 // swap_ix_failed and tx_dropped counted, the kind of error not yet
    | Finished
    // anyone who pushes
    | Ready(role: Role)           // an instruction in hand, about to push
    | Pushed(role: Role)          // pushed, queue_in not counted yet
    | Announced(role: Role)       // queue_depth not counted yet
    | Deepened(role: Role)        // permit not added yet
    // anyone who drops
    | Dropping(role: Role)        // the reason counted, tx_dropped not yet
    // a worker
    | Waiting                     // for a permit
    | Acquired                    // a permit consumed, nothing popped yet
    | Popped(item: Item)          // queue_depth not decremented yet
    | InHand(item: Item)
    | RestRefused(item: Item)     // the REST limiter has no slot
    | Refused(item: Item)         // neither limiter has
    | Requeueing                  // the item marked as waiting, about to push it back
    | Building                    // a slot acquired
    | Sending                     // calc_done counted

  /** What an agent chooses or is answered. */
  datatype Choice =
    | Go | Quit | Hit | AllHops | SomeMissing(n: nat) | Fetch | Drop(reason: Cell)

  datatype StackOp = Keep | Push(item: Item) | Pop

  /** Which limiter a step probes. */
  datatype Ask = NoAsk | AskRest | AskGrpc

  /** What one step does: the agent's next point, at most one counter changed (`change` 0: none), at most
      one stack operation, at most one limiter probed, and whether a swap-instruction task is spawned. */
  datatype Step = Step(next: At, cell: Cell, change: int, op: StackOp, ask: Ask, spawns: bool)

  function Home(role: Role): At {
    match role case Scanner => Scanning case Task => Finished case Worker => Waiting
  }

  function Change(c: Cell, n: int, next: At): Step {
    Step(next, c, n, Keep, NoAsk, false)
  }

  function Then(next: At): Step {
    Change(Permits, 0, next)
  }

  function Stack(op: StackOp, next: At): Step {
    Step(next, Permits, 0, op, NoAsk, false)
  }

  function Count(c: Cell, next: At): Option<Step> {
    Some(Change(c, 1, next))
  }

  function Probe(ask: Ask, c: Cell, n: int, next: At): Step {
    Step(next, c, n, Keep, ask, false)
  }

  /** Both limiters: their limits, the clock, and the timestamps they keep. A limiter that is not
      configured has limit 0. */
  datatype Slots = Slots(restMax: nat, grpcMax: nat, now: int, rest: seq<int>, grpc: seq<int>)

  /** Whether a probe would be granted now. */
  datatype Room = Room(rest: bool, grpc: bool)

  function RoomOf(s: Slots): Room {
    Room(RateLimiting.Asked(s.restMax, s.rest, s.now).1, RateLimiting.Asked(s.grpcMax, s.grpc, s.now).1)
  }

  function Probed(s: Slots, ask: Ask): Slots {
    match ask
    case NoAsk => s
    case AskRest => s.(rest := RateLimiting.Asked(s.restMax, s.rest, s.now).0)
    case AskGrpc => s.(grpc := RateLimiting.Asked(s.grpcMax, s.grpc, s.now).0)
  }

  /** One for an item that never waited. */
  function Unwaited(i: Item): int {
    if i.waited then 0 else 1
  }

  /** Why an agent may drop its candidate at each point. */
  predicate MayDrop(at: At, c: Cell) {
    match at
    case Holding => c == DroppedMultiHop || c == DroppedMergeFail
    case HopsChecked(_) => c == DroppedNoServe
    case Fetching => c == SwapIxFailed
    case InHand(_) => c == DroppedStale
    case Building => c == TxBuildFailed || c == DroppedAccountLocks || c == TxTooLarge
    case Sending => c == JitoSendFailed
    case _ => false
  }

  function RoleOf(at: At): Role {
    match at
    case Holding | HopsChecked(_) => Scanner
    case Fetching => Task
    case _ => Worker
  }

  predicate IsSwapIxError(c: Cell) {
    c == SwapIxTimeout || c == SwapIxHttp || c == SwapIxNetwork || c == SwapIxParse
  }

  function Give(c: Cell, cells: Atomics<Cell>, next: At): Option<Step> {
    if Now(cells, c) > 0 then Some(Change(c, -1, next)) else None
  }

  function DropStep(at: At, k: Choice): Option<Step> {
    if k.Drop? && MayDrop(at, k.reason) then Count(k.reason, Dropping(RoleOf(at))) else None
  }

  /** The steps of every agent. */
  function Moves(at: At, k: Choice, top: Option<Item>, cells: Atomics<Cell>, room: Room): Option<Step> {
    match at
    case Starting => Some(Change(MetisReqSent, 2, Checking))
    case Checking => if k.Go? then Count(MetisRespOk, Profitable) else Some(Then(Finished))
    case Profitable => Count(Pairs, Finished)
    case Scanning => Give(Pairs, cells, Holding)
    case Holding =>
      (match k
       case Hit => Count(RouteTemplateHit, RamHit)
       case AllHops => Count(HopTemplateAllHit, HopsChecked(true))
       case SomeMissing(n) => Some(Change(HopTemplateMissing, n, HopsChecked(false)))
       case _ => DropStep(at, k))
    case HopsChecked(allHit) =>
      if k.Fetch? then Count(MetisReqSent, Asked)
      else if k.Hit? && allHit then Count(RouteTemplateHit, RamHit)
      else DropStep(at, k)
    case RamHit => Count(IxFromRam, RamCounted)
    case RamCounted => Count(SwapIxOk, Ready(Scanner))
    case Asked => Some(Then(Scanning).(spawns := true))
    case Fetching => if k.Go? then Count(SwapIxOk, MetisOk) else DropStep(at, k)
    case MetisOk => Count(IxFromMetis, Ready(Task))
    case FetchFailed => if k.Drop? && IsSwapIxError(k.reason) then Count(k.reason, Finished) else None
    case Finished => None
    case Ready(role) => Some(Stack(Push(Item(false)), Pushed(role)))
    case Requeueing => Some(Stack(Push(Item(true)), Announced(Worker)))
    case Pushed(role) => Count(QueueIn, Announced(role))
    case Announced(role) => Count(QueueDepth, Deepened(role))
    case Deepened(role) => Count(Permits, Home(role))
    case Dropping(role) => Count(TxDropped, if role.Task? then FetchFailed else Home(role))
    case Waiting => Give(Permits, cells, Acquired)
    case Acquired => Some(if top.Some? then Stack(Pop, Popped(top.value)) else Then(Waiting))
    case Popped(item) => Some(Change(QueueDepth, -1, InHand(item)))
    case InHand(item) =>
      if k.Go? then
        Some(if room.rest then Probe(AskRest, RestFirst, Unwaited(item), Building)
             else Probe(AskRest, RestFirst, 0, RestRefused(item)))
      else DropStep(at, k)
    case RestRefused(item) =>
      Some(if room.grpc then Probe(AskGrpc, GrpcFirst, Unwaited(item), Building)
           else Probe(AskGrpc, GrpcFirst, 0, Refused(item)))
    case Refused(item) => if item.waited then Some(Then(Requeueing)) else Count(RateRequeued, Requeueing)
    case Building => if k.Go? then Count(CalcDone, Sending) else DropStep(at, k)
    case Sending => if k.Go? then Count(JitoSent, Waiting) else DropStep(at, k)
  }

  // ── Runs ──────────────────────────────────────────────────────────────────

  /** All agents, the queue with its top last, the counters, and the limiters. */
  datatype State = State(agents: seq<At>, lifo: seq<Item>, cells: Atomics<Cell>, slots: Slots)

  /** An agent steps, a quote check starts, the reporter drains a counter, or time passes. */
  datatype Event = Act(agent: nat, choice: Choice) | QuoteCheck | Report(cell: Cell) | Pass(time: nat)

  /** The reporter only loads the depth; the cells before it are no metrics. */
  predicate Drained(c: Cell) {
    !c.Permits? && !c.Pairs? && !c.RestFirst? && !c.GrpcFirst? && !c.QueueDepth?
  }

  function Top(lifo: seq<Item>): Option<Item> {
    if lifo == [] then None else Some(lifo[|lifo| - 1])
  }

  function Stacked(lifo: seq<Item>, op: StackOp): seq<Item> {
    match op
    case Keep => lifo
    case Push(x) => lifo + [x]
    case Pop => if lifo == [] then lifo else lifo[..|lifo| - 1]
  }

  function Bump(a: Atomics<Cell>, c: Cell, n: int): Atomics<Cell> {
    if n == 0 then a else Add(a, c, n)
  }

  function Take(s: State, i: nat, e: Step): State
    requires i < |s.agents|
  {
    State(s.agents[i := e.next] + if e.spawns then [Fetching] else [],
          Stacked(s.lifo, e.op), Bump(s.cells, e.cell, e.change), Probed(s.slots, e.ask))
  }

  function StepOf(s: State, e: Event): Option<Step> {
    if e.Act? && e.agent < |s.agents|
    then Moves(s.agents[e.agent], e.choice, Top(s.lifo), s.cells, RoomOf(s.slots)) else None
  }

  /** One event; one that cannot happen changes nothing. */
  function Next(s: State, e: Event): State {
    match e
    case Act(i, _) => if StepOf(s, e).Some? then Take(s, i, StepOf(s, e).value) else s
    case QuoteCheck => s.(agents := s.agents + [Starting])
    case Report(c) => if Drained(c) then s.(cells := Drain(s.cells, c)) else s
    case Pass(d) => s.(slots := s.slots.(now := s.slots.now + d))
  }

  function Run(s: State, es: seq<Event>): State
    decreases |es|
  {
    if es == [] then s else Run(Next(s, es[0]), es[1..])
  }

  /** How the bot is set up: its workers and the limits per second of the two limiters. */
  datatype Setup = Setup(workers: nat, restMax: nat, grpcMax: nat)

  /** One scanner and the workers, before anything happened. */
  function Start(u: Setup): State {
    State([Scanning] + seq(u.workers, _ => Waiting), [], Zeros(), Slots(u.restMax, u.grpcMax, 0, [], []))
  }

  /** The state after any interleaving of steps, quote checks and reporter reads, at any pace. */
  function StateOf(u: Setup, es: seq<Event>): State {
    Run(Start(u), es)
  }

  // ── Linear laws ───────────────────────────────────────────────────────────

  /** The totals of several counters. */
  function TotalOf(a: Atomics<Cell>, cs: seq<Cell>): int {
    if cs == [] then 0 else Total(a, cs[0]) + TotalOf(a, cs[1..])
  }

  /** A quantity linear in the counters, the queued items and the agents: the totals of `parts`, less that
      of `whole`, with a weight for each item and for each agent by where it is. */
  datatype Law = Law(parts: seq<Cell>, whole: Option<Cell>, item: Item -> int, agent: At -> int)

  function WholeOf(l: Law, a: Atomics<Cell>): int {
    if l.whole.Some? then Total(a, l.whole.value) else 0
  }

  function Value(l: Law, s: State): int {
    TotalOf(s.cells, l.parts) - WholeOf(l, s.cells) + Sum(l.item, s.lifo) + Sum(l.agent, s.agents)
  }

  /** What adding `n` to a counter adds to the quantity. */
  function Share(l: Law, c: Cell, n: int): int {
    (if c in l.parts then n else 0) - if l.whole == Some(c) then n else 0
  }

  function StackDelta(item: Item -> int, op: StackOp, top: Option<Item>): int {
    match op
    case Keep => 0
    case Push(x) => item(x)
    case Pop => if top.Some? then -item(top.value) else 0
  }

  /** What a step from `at` adds to the quantity. */
  function Delta(l: Law, at: At, top: Option<Item>, e: Step): int {
    Share(l, e.cell, e.change) + StackDelta(l.item, e.op, top) + l.agent(e.next) - l.agent(at)
    + if e.spawns then l.agent(Fetching) else 0
  }

  /** Each part once, and no weight for whoever starts. */
  ghost predicate Proper(l: Law) {
    && (forall i, j :: 0 <= i < j < |l.parts| ==> l.parts[i] != l.parts[j])
    && l.agent(Starting) == l.agent(Scanning) == l.agent(Waiting) == 0
  }

  lemma {:induction false} TotalOfBump(a: Atomics<Cell>, c: Cell, n: int, cs: seq<Cell>)
    requires forall i, j :: 0 <= i < j < |cs| ==> cs[i] != cs[j]
    ensures TotalOf(Bump(a, c, n), cs) == TotalOf(a, cs) + if c in cs then n else 0
  {
    if cs != [] {
      AddAndDrain(a, c, n, cs[0]);
      TotalOfBump(a, c, n, cs[1..]);
      assert cs == [cs[0]] + cs[1..];
    }
  }

  lemma {:induction false} TotalOfDrain(a: Atomics<Cell>, c: Cell, cs: seq<Cell>)
    ensures TotalOf(Drain(a, c), cs) == TotalOf(a, cs)
  {
    if cs != [] {
      AddAndDrain(a, c, 0, cs[0]);
      TotalOfDrain(a, c, cs[1..]);
    }
  }

  lemma {:induction false} TotalOfZeros(cs: seq<Cell>)
    ensures TotalOf(Zeros(), cs) == 0
  {
    if cs != [] {
      TotalOfZeros(cs[1..]);
    }
  }

  lemma StackSum(item: Item -> int, lifo: seq<Item>, op: StackOp)
    ensures Sum(item, Stacked(lifo, op)) == Sum(item, lifo) + StackDelta(item, op, Top(lifo))
  {
    match op
    case Keep =>
    case Push(x) => SumAppend(item, lifo, x);
    case Pop =>
      if lifo != [] {
        var n := |lifo| - 1;
        SumAppend(item, lifo[..n], lifo[n]);
        assert lifo == lifo[..n] + [lifo[n]];
      }
  }

  lemma CountsBumped(l: Law, a: Atomics<Cell>, c: Cell, n: int)
    requires Proper(l)
    ensures TotalOf(Bump(a, c, n), l.parts) - WholeOf(l, Bump(a, c, n)) == TotalOf(a, l.parts) - WholeOf(l, a) + Share(l, c, n)
  {
    TotalOfBump(a, c, n, l.parts);
    if l.whole.Some? {
      AddAndDrain(a, c, n, l.whole.value);
    }
  }

  /** A step changes a linear quantity by its delta. */
  lemma TakeValue(l: Law, s: State, i: nat, e: Step)
    requires Proper(l) && i < |s.agents|
    ensures Value(l, Take(s, i, e)) == Value(l, s) + Delta(l, s.agents[i], Top(s.lifo), e)
  {
    CountsBumped(l, s.cells, e.cell, e.change);
    StackSum(l.item, s.lifo, e.op);
    SumUpdate(l.agent, s.agents, i, e.next);
    var agents := s.agents[i := e.next];
    if e.spawns {
      SumAppend(l.agent, agents, Fetching);
    } else {
      assert agents + [] == agents;
    }
  }

  function DeltaAt(l: Law, s: State, e: Event): int {
    if StepOf(s, e).Some? then Delta(l, s.agents[e.agent], Top(s.lifo), StepOf(s, e).value) else 0
  }

  /** Of all events only steps change a linear quantity. */
  lemma NextValue(l: Law, s: State, e: Event)
    requires Proper(l)
    ensures Value(l, Next(s, e)) == Value(l, s) + DeltaAt(l, s, e)
  {
    match e
    case Act(i, _) =>
      if StepOf(s, e).Some? {
        TakeValue(l, s, i, StepOf(s, e).value);
      }
    case QuoteCheck => SumAppend(l.agent, s.agents, Starting);
    case Report(c) =>
      TotalOfDrain(s.cells, c, l.parts);
      if l.whole.Some? {
        AddAndDrain(s.cells, c, 0, l.whole.value);
      }
    case Pass(_) =>
  }

  lemma StartValue(l: Law, u: Setup)
    requires Proper(l)
    ensures Value(l, Start(u)) == 0
  {
    TotalOfZeros(l.parts);
    SumOfEqual(l.agent, Start(u).agents, 0);
  }

  /** No step adds to the quantity. */
  ghost predicate NeverGrows(l: Law) {
    forall at, k, top, cells, room :: Moves(at, k, top, cells, room).Some? ==>
      Delta(l, at, top, Moves(at, k, top, cells, room).value) <= 0
  }

  /** No step changes the quantity. */
  ghost predicate Conserved(l: Law) {
    forall at, k, top, cells, room :: Moves(at, k, top, cells, room).Some? ==>
      Delta(l, at, top, Moves(at, k, top, cells, room).value) == 0
  }

  lemma {:induction false} NeverGrowsRun(l: Law, s: State, es: seq<Event>)
    requires Proper(l) && NeverGrows(l)
    ensures Value(l, Run(s, es)) <= Value(l, s)
    decreases |es|
  {
    if es != [] {
      NextValue(l, s, es[0]);
      NeverGrowsRun(l, Next(s, es[0]), es[1..]);
    }
  }

  lemma {:induction false} ConservedRun(l: Law, s: State, es: seq<Event>)
    requires Proper(l) && Conserved(l)
    ensures Value(l, Run(s, es)) == Value(l, s)
    decreases |es|
  {
    if es != [] {
      NextValue(l, s, es[0]);
      ConservedRun(l, Next(s, es[0]), es[1..]);
    }
  }

  function Nothing(i: Item): int { 0 }

  function One(i: Item): int { 1 }
}
