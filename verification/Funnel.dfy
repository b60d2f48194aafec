/** What the funnel's counters add up to, in every state of every interleaving (`src/arbitrage.rs`,
    `src/metrics.rs`). */
module FunnelLaws {
  import opened Options
  import opened Atomics
  import opened Pipeline
  import opened Sums

  // ── Conservation along the funnel ─────────────────────────────────────────

  /** A candidate held by the agent: a pair, a request in flight, or an item. */
  function Holds(at: At): int {
    match at
    case Profitable | Holding | HopsChecked(_) | RamHit | RamCounted | Asked => 1
    case Fetching | MetisOk | Ready(_) | Dropping(_) => 1
    case Popped(_) | InHand(_) | RestRefused(_) | Refused(_) | Requeueing | Building | Sending => 1
    case _ => 0
  }

  function FunnelLaw(): Law {
    Law([JitoSent, TxDropped, Pairs], Some(MetisRespOk), One, Holds)
  }

  lemma FunnelMove(at: At, k: Choice, top: Option<Item>, cells: Atomics<Cell>, room: Room)
    requires Moves(at, k, top, cells, room).Some?
    ensures Delta(FunnelLaw(), at, top, Moves(at, k, top, cells, room).value) == 0
  {
    var e := Moves(at, k, top, cells, room).value;
    HandsOver(at, k, top, cells, room);
    assert StackDelta(One, e.op, top) == if e.op.Push? then 1 else if e.op.Pop? && top.Some? then -1 else 0;
  }

  /** What a step adds to the candidates its agent holds, or passes on to the task it spawns, comes from
      the pairs, the queue or a profitable quote, and what it gives up goes to the queue, to the pairs, or
      is counted as sent or dropped. */
  lemma HandsOver(at: At, k: Choice, top: Option<Item>, cells: Atomics<Cell>, room: Room)
    requires Moves(at, k, top, cells, room).Some?
    ensures var e := Moves(at, k, top, cells, room).value;
            Holds(e.next) - Holds(at) + (if e.spawns then 1 else 0)
            == (if e.cell.MetisRespOk? then e.change else 0)
               - (if e.cell.JitoSent? || e.cell.TxDropped? || e.cell.Pairs? then e.change else 0)
               - (if e.op.Push? then 1 else if e.op.Pop? then -1 else 0)
            && (e.op.Pop? ==> top.Some?)
  {
  }

  /** Nothing is lost and nothing doubled, in every state of every interleaving: each pair that passed
      the profit check was sent, was dropped, is not taken yet, is queued, or is held by one agent. */
  lemma Funnel(u: Setup, es: seq<Event>)
    ensures var s := StateOf(u, es);
            Total(s.cells, MetisRespOk)
            == TotalOf(s.cells, [JitoSent, TxDropped, Pairs]) + |s.lifo| + Sum(Holds, s.agents)
  {
    forall at, k, top, cells, room | Moves(at, k, top, cells, room).Some? {
      FunnelMove(at, k, top, cells, room);
    }
    ConservedRun(FunnelLaw(), Start(u), es);
    StartValue(FunnelLaw(), u);
    SumOfEqual(One, StateOf(u, es).lifo, 1);
  }

  const REASONS := [DroppedStale, TxBuildFailed, DroppedAccountLocks, TxTooLarge, JitoSendFailed,
                    DroppedMultiHop, DroppedMergeFail, DroppedNoServe, SwapIxFailed]

  /** A reason counted, `tx_dropped` not yet. */
  function LessDropping(at: At): int {
    if at.Dropping? then -1 else 0
  }

  function ReasonsLaw(): Law {
    Law(REASONS, Some(TxDropped), Nothing, LessDropping)
  }

  lemma ReasonsMove(at: At, k: Choice, top: Option<Item>, cells: Atomics<Cell>, room: Room)
    requires Moves(at, k, top, cells, room).Some?
    ensures Delta(ReasonsLaw(), at, top, Moves(at, k, top, cells, room).value) == 0
  {
    var e := Moves(at, k, top, cells, room).value;
    DropsAreReasons(at, k, top, cells, room);
    assert Share(ReasonsLaw(), e.cell, e.change) == LessDropping(at) - LessDropping(e.next);
  }

  /** A step counts a reason exactly when it starts a drop. */
  lemma DropsAreReasons(at: At, k: Choice, top: Option<Item>, cells: Atomics<Cell>, room: Room)
    requires Moves(at, k, top, cells, room).Some?
    ensures var e := Moves(at, k, top, cells, room).value;
            && (e.cell in REASONS && e.change != 0 <==> e.next.Dropping?)
            && (e.cell in REASONS ==> e.change == 1)
            && (e.cell == TxDropped <==> at.Dropping?) && (at.Dropping? ==> e.change == 1)
  {
  }

  /** Where a reason stands in the list. */
  function RankOf(c: Cell): int {
    match c
    case DroppedStale => 0 case TxBuildFailed => 1 case DroppedAccountLocks => 2 case TxTooLarge => 3
    case JitoSendFailed => 4 case DroppedMultiHop => 5 case DroppedMergeFail => 6 case DroppedNoServe => 7
    case _ => 8
  }

  lemma ReasonsProper()
    ensures Proper(ReasonsLaw())
  {
    assert |REASONS| == 9 && forall i :: 0 <= i < 9 ==> RankOf(REASONS[i]) == i;
  }

  /** Every drop has exactly one reason: the nine reason counters add up to `tx_dropped` and the drops
      whose second counter is still to come. */
  lemma Reasons(u: Setup, es: seq<Event>)
    ensures var s := StateOf(u, es);
            TotalOf(s.cells, REASONS) == Total(s.cells, TxDropped) - Sum(LessDropping, s.agents)
  {
    forall at, k, top, cells, room | Moves(at, k, top, cells, room).Some? {
      ReasonsMove(at, k, top, cells, room);
    }
    ReasonsProper();
    ConservedRun(ReasonsLaw(), Start(u), es);
    StartValue(ReasonsLaw(), u);
    SumOfEqual(Nothing, StateOf(u, es).lifo, 0);
  }

  function BetweenSources(at: At): int {
    match at case RamCounted => -1 case MetisOk => 1 case _ => 0
  }

  function SourcesLaw(): Law {
    Law([IxFromRam, IxFromMetis], Some(SwapIxOk), Nothing, BetweenSources)
  }

  lemma SourcesMove(at: At, k: Choice, top: Option<Item>, cells: Atomics<Cell>, room: Room)
    requires Moves(at, k, top, cells, room).Some?
    ensures Delta(SourcesLaw(), at, top, Moves(at, k, top, cells, room).value) == 0
  {
  }

  /** Every instruction has exactly one source, up to the agents between its two counters, which the RAM
      and the Metis path take in opposite orders. */
  lemma Sources(u: Setup, es: seq<Event>)
    ensures var s := StateOf(u, es);
            TotalOf(s.cells, [IxFromRam, IxFromMetis]) + Sum(BetweenSources, s.agents) == Total(s.cells, SwapIxOk)
  {
    forall at, k, top, cells, room | Moves(at, k, top, cells, room).Some? {
      SourcesMove(at, k, top, cells, room);
    }
    ConservedRun(SourcesLaw(), Start(u), es);
    StartValue(SourcesLaw(), u);
    SumOfEqual(Nothing, StateOf(u, es).lifo, 0);
  }

  /** `route_template_hit` counted, `ix_from_ram` not yet. */
  function HitOnly(at: At): int {
    if at.RamHit? then 1 else 0
  }

  function RamLaw(): Law {
    Law([IxFromRam], Some(RouteTemplateHit), Nothing, HitOnly)
  }

  lemma RamMove(at: At, k: Choice, top: Option<Item>, cells: Atomics<Cell>, room: Room)
    requires Moves(at, k, top, cells, room).Some?
    ensures Delta(RamLaw(), at, top, Moves(at, k, top, cells, room).value) == 0
  {
  }

  /** Every template hit, at either tier, gives one instruction from RAM. */
  lemma FromRam(u: Setup, es: seq<Event>)
    ensures var s := StateOf(u, es);
            TotalOf(s.cells, [IxFromRam]) + Sum(HitOnly, s.agents) == Total(s.cells, RouteTemplateHit)
  {
    forall at, k, top, cells, room | Moves(at, k, top, cells, room).Some? {
      RamMove(at, k, top, cells, room);
    }
    ConservedRun(RamLaw(), Start(u), es);
    StartValue(RamLaw(), u);
    SumOfEqual(Nothing, StateOf(u, es).lifo, 0);
  }

  /** Of an instruction, a template hit and `swap_ix_ok` not both counted, or `swap_ix_ok` and
      `ix_from_metis` not both. */
  function BetweenHitAndOk(at: At): int {
    match at case RamHit | RamCounted => -1 case MetisOk => 1 case _ => 0
  }

  function MetisLaw(): Law {
    Law([RouteTemplateHit, IxFromMetis], Some(SwapIxOk), Nothing, BetweenHitAndOk)
  }

  lemma MetisMove(at: At, k: Choice, top: Option<Item>, cells: Atomics<Cell>, room: Room)
    requires Moves(at, k, top, cells, room).Some?
    ensures Delta(MetisLaw(), at, top, Moves(at, k, top, cells, room).value) == 0
  {
  }

  /** Every instruction without a template hit came from Metis. */
  lemma FromMetis(u: Setup, es: seq<Event>)
    ensures var s := StateOf(u, es);
            TotalOf(s.cells, [RouteTemplateHit, IxFromMetis]) + Sum(BetweenHitAndOk, s.agents) == Total(s.cells, SwapIxOk)
  {
    forall at, k, top, cells, room | Moves(at, k, top, cells, room).Some? {
      MetisMove(at, k, top, cells, room);
    }
    ConservedRun(MetisLaw(), Start(u), es);
    StartValue(MetisLaw(), u);
    SumOfEqual(Nothing, StateOf(u, es).lifo, 0);
  }

  /** `swap_ix_failed` counted, the kind not yet. */
  function Failing(at: At): int {
    if at.FetchFailed? || (at.Dropping? && at.role.Task?) then 1 else 0
  }

  function ErrorsLaw(): Law {
    Law([SwapIxTimeout, SwapIxHttp, SwapIxNetwork, SwapIxParse], Some(SwapIxFailed), Nothing, Failing)
  }

  lemma ErrorsMove(at: At, k: Choice, top: Option<Item>, cells: Atomics<Cell>, room: Room)
    requires Moves(at, k, top, cells, room).Some?
    ensures Delta(ErrorsLaw(), at, top, Moves(at, k, top, cells, room).value) == 0
  {
  }

  /** Every failed swap-instruction request has exactly one kind, counted last. */
  lemma Errors(u: Setup, es: seq<Event>)
    ensures var s := StateOf(u, es);
            TotalOf(s.cells, [SwapIxTimeout, SwapIxHttp, SwapIxNetwork, SwapIxParse]) + Sum(Failing, s.agents)
            == Total(s.cells, SwapIxFailed)
  {
    forall at, k, top, cells, room | Moves(at, k, top, cells, room).Some? {
      ErrorsMove(at, k, top, cells, room);
    }
    ConservedRun(ErrorsLaw(), Start(u), es);
    StartValue(ErrorsLaw(), u);
    SumOfEqual(Nothing, StateOf(u, es).lifo, 0);
  }

  /** `swap_ix_ok` counted, `queue_in` not yet. */
  function Entering(at: At): int {
    match at case MetisOk | Ready(_) | Pushed(_) => 1 case _ => 0
  }

  function EnteredLaw(): Law {
    Law([QueueIn], Some(SwapIxOk), Nothing, Entering)
  }

  lemma EnteredMove(at: At, k: Choice, top: Option<Item>, cells: Atomics<Cell>, room: Room)
    requires Moves(at, k, top, cells, room).Some?
    ensures Delta(EnteredLaw(), at, top, Moves(at, k, top, cells, room).value) == 0
  {
  }

  /** Every instruction enters the queue once, however often it is pushed back: `queue_in` is `swap_ix_ok`
      less the instructions on their way. */
  lemma Entered(u: Setup, es: seq<Event>)
    ensures var s := StateOf(u, es);
            TotalOf(s.cells, [QueueIn]) + Sum(Entering, s.agents) == Total(s.cells, SwapIxOk)
  {
    forall at, k, top, cells, room | Moves(at, k, top, cells, room).Some? {
      EnteredMove(at, k, top, cells, room);
    }
    ConservedRun(EnteredLaw(), Start(u), es);
    StartValue(EnteredLaw(), u);
    SumOfEqual(Nothing, StateOf(u, es).lifo, 0);
  }

  /** `calc_done` counted, the bundle not answered yet. */
  function Bundling(at: At): int {
    if at.Sending? then 1 else 0
  }

  function CalculatedLaw(): Law {
    Law([JitoSent, JitoSendFailed], Some(CalcDone), Nothing, Bundling)
  }

  lemma CalculatedMove(at: At, k: Choice, top: Option<Item>, cells: Atomics<Cell>, room: Room)
    requires Moves(at, k, top, cells, room).Some?
    ensures Delta(CalculatedLaw(), at, top, Moves(at, k, top, cells, room).value) == 0
  {
  }

  /** Every built transaction is sent once or fails to be sent once. */
  lemma Calculated(u: Setup, es: seq<Event>)
    ensures var s := StateOf(u, es);
            TotalOf(s.cells, [JitoSent, JitoSendFailed]) + Sum(Bundling, s.agents) == Total(s.cells, CalcDone)
  {
    forall at, k, top, cells, room | Moves(at, k, top, cells, room).Some? {
      CalculatedMove(at, k, top, cells, room);
    }
    ConservedRun(CalculatedLaw(), Start(u), es);
    StartValue(CalculatedLaw(), u);
    SumOfEqual(Nothing, StateOf(u, es).lifo, 0);
  }

  // ── When everything has settled ───────────────────────────────────────────

  /** Nobody is in the middle of anything but waiting. */
  predicate Settled(s: State) {
    forall i :: 0 <= i < |s.agents| ==>
      s.agents[i].Checking? || s.agents[i].Scanning? || s.agents[i].Finished? || s.agents[i].Waiting?
  }

  lemma SettledSum(w: At -> int, s: State)
    requires Settled(s) && w(Checking) == w(Scanning) == w(Finished) == w(Waiting) == 0
    ensures Sum(w, s.agents) == 0
  {
    SumOfEqual(w, s.agents, 0);
  }

  /** Whenever the agents have settled the books close: candidates in equal candidates out or still
      queued, drops equal their reasons, and instructions equal their sources and the items announced. */
  lemma SettledFunnel(u: Setup, es: seq<Event>)
    requires Settled(StateOf(u, es))
    ensures var a, n := StateOf(u, es).cells, |StateOf(u, es).lifo|;
            && Total(a, MetisRespOk) == TotalOf(a, [JitoSent, TxDropped, Pairs]) + n
            && Total(a, TxDropped) == TotalOf(a, REASONS)
            && Total(a, SwapIxOk) == TotalOf(a, [IxFromRam, IxFromMetis]) == TotalOf(a, [QueueIn])
            && TotalOf(a, [IxFromRam]) == Total(a, RouteTemplateHit)
  {
    var s := StateOf(u, es);
    Funnel(u, es);
    Reasons(u, es);
    Sources(u, es);
    Entered(u, es);
    FromRam(u, es);
    SettledSum(HitOnly, s);
    SettledSum(Holds, s);
    SettledSum(LessDropping, s);
    SettledSum(BetweenSources, s);
    SettledSum(Entering, s);
  }
}
