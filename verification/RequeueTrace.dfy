/** An interleaving in which `rate_requeued` exceeds `queue_in`, and exactly when there is one
    (`src/arbitrage.rs`). */
module RequeueTrace {
  import opened Options
  import opened Atomics
  import opened Pipeline
  import opened Requeues
  import opened Sums
  import RateLimiting

  /** What the trace looks at: the scanner, one worker and the agent that came last; the queue and four
      counters; the limiters; and the pushes not counted yet. */
  datatype View = View(
    scanner: At, worker: At, newest: At, lifo: seq<Item>, permits: int, pairs: int, requeued: int,
    announced: int, slots: Slots, uncounted: int)

  datatype Who = TheScanner | TheWorker | TheNewest

  function AtOf(v: View, who: Who): At {
    match who case TheScanner => v.scanner case TheWorker => v.worker case TheNewest => v.newest
  }

  /** The step one of them may take, as far as the view tells. */
  function ViewMoves(v: View, who: Who, k: Choice, room: Room): Option<Step> {
    Moves(AtOf(v, who), k, Top(v.lifo), Atomics(map[Permits := v.permits, Pairs := v.pairs], map[]), room)
  }

  function Advance(v: View, who: Who, e: Step): View {
    View(if who.TheScanner? then e.next else v.scanner,
         if who.TheWorker? then e.next else v.worker,
         if e.spawns then Fetching else if who.TheNewest? then e.next else v.newest,
         Stacked(v.lifo, e.op),
         v.permits + (if e.cell.Permits? then e.change else 0),
         v.pairs + (if e.cell.Pairs? then e.change else 0),
         v.requeued + (if e.cell.RateRequeued? then e.change else 0),
         v.announced + (if e.cell.QueueIn? then e.change else 0),
         Probed(v.slots, e.ask),
         v.uncounted + IsPushed(e.next) - IsPushed(AtOf(v, who)))
  }

  /** `r` holds along every run of the three with at most `p` pushes uncounted. */
  ghost predicate Closed(r: View -> bool, p: nat) {
    && (forall v, who, k, e :: Steps(v, who, k, e, p) && r(v) ==> r(Advance(v, who, e)))
    && (forall v :: r(v) ==> r(v.(newest := Starting)))
  }

  ghost predicate Steps(v: View, who: Who, k: Choice, e: Step, p: nat) {
    ViewMoves(v, who, k, RoomOf(v.slots)) == Some(e) && Advance(v, who, e).uncounted <= p
  }

  /** One step more of an agent that probes no limiter. */
  lemma Quiet(r: View -> bool, v: View, p: nat, who: Who, k: Choice, e: Step) returns (v': View)
    requires Closed(r, p) && r(v) && !AtOf(v, who).InHand? && !AtOf(v, who).RestRefused?
    requires ViewMoves(v, who, k, Room(false, false)) == Some(e)
    requires v.uncounted + IsPushed(e.next) - IsPushed(AtOf(v, who)) <= p
    ensures r(v') && v' == Advance(v, who, e)
  {
    assert Steps(v, who, k, e, p);
    v' := Advance(v, who, e);
  }

  /** One probe of a limiter by the worker. */
  lemma Asks(r: View -> bool, v: View, p: nat, room: Room, e: Step) returns (v': View)
    requires Closed(r, p) && r(v) && (v.worker.InHand? || v.worker.RestRefused?) && room == RoomOf(v.slots)
    requires ViewMoves(v, TheWorker, Go, room) == Some(e) && v.uncounted <= p
    ensures r(v') && v' == v.(worker := e.next, slots := Probed(v.slots, e.ask))
  {
    assert Steps(v, TheWorker, Go, e, p);
    v' := Advance(v, TheWorker, e);
  }

  // ── What the agents do ────────────────────────────────────────────────────

  /** A quote check arrives, passes and hands its pair over. */
  lemma PairArrives(r: View -> bool, v: View, p: nat) returns (v': View)
    requires Closed(r, p) && r(v) && v.uncounted <= p
    ensures r(v') && v' == v.(pairs := v.pairs + 1, newest := Finished)
  {
    v' := v.(newest := Starting);
    v' := Quiet(r, v', p, TheNewest, Go, Change(MetisReqSent, 2, Checking));
    v' := Quiet(r, v', p, TheNewest, Go, Change(MetisRespOk, 1, Profitable));
    v' := Quiet(r, v', p, TheNewest, Go, Change(Pairs, 1, Finished));
  }

  /** The scanner serves a pair from RAM, up to its push. */
  lemma ScannerServes(r: View -> bool, v: View, p: nat) returns (v': View)
    requires Closed(r, p) && r(v) && v.uncounted <= p && v.scanner == Scanning && v.pairs == 1
    ensures r(v') && v' == v.(scanner := Ready(Scanner), pairs := 0)
  {
    v' := Quiet(r, v, p, TheScanner, Go, Change(Pairs, -1, Holding));
    v' := Quiet(r, v', p, TheScanner, Hit, Change(RouteTemplateHit, 1, RamHit));
    v' := Quiet(r, v', p, TheScanner, Go, Change(IxFromRam, 1, RamCounted));
    v' := Quiet(r, v', p, TheScanner, Go, Change(SwapIxOk, 1, Ready(Scanner)));
  }

  /** It pushes, counts and adds the permit. */
  lemma ScannerPushes(r: View -> bool, v: View, p: nat) returns (v': View)
    requires Closed(r, p) && r(v) && v.uncounted + 1 <= p && v.scanner == Ready(Scanner)
    ensures r(v')
    ensures v' == v.(scanner := Scanning, lifo := v.lifo + [Item(false)], permits := v.permits + 1,
                     announced := v.announced + 1)
  {
    v' := Quiet(r, v, p, TheScanner, Go, Stack(Push(Item(false)), Pushed(Scanner)));
    v' := Quiet(r, v', p, TheScanner, Go, Change(QueueIn, 1, Announced(Scanner)));
    v' := Quiet(r, v', p, TheScanner, Go, Change(QueueDepth, 1, Deepened(Scanner)));
    v' := Quiet(r, v', p, TheScanner, Go, Change(Permits, 1, Scanning));
  }

  /** A new item in the queue, with its permit. */
  lemma ItemQueued(r: View -> bool, v: View, p: nat) returns (v': View)
    requires Closed(r, p) && r(v) && v.uncounted + 1 <= p && v.scanner == Scanning && v.pairs == 0
    ensures r(v')
    ensures v' == v.(lifo := v.lifo + [Item(false)], permits := v.permits + 1, announced := v.announced + 1,
                     newest := Finished)
  {
    v' := PairArrives(r, v, p);
    v' := ScannerServes(r, v', p);
    v' := ScannerPushes(r, v', p);
  }

  /** The worker takes the item on top. */
  lemma WorkerTakes(r: View -> bool, v: View, p: nat) returns (v': View)
    requires Closed(r, p) && r(v) && v.uncounted <= p && v.worker == Waiting && v.permits == 1
    requires Top(v.lifo) == Some(Item(false))
    ensures r(v') && v' == v.(worker := InHand(Item(false)), permits := 0, lifo := Stacked(v.lifo, Pop))
  {
    v' := Quiet(r, v, p, TheWorker, Go, Change(Permits, -1, Acquired));
    v' := Quiet(r, v', p, TheWorker, Go, Stack(Pop, Popped(Item(false))));
    v' := Quiet(r, v', p, TheWorker, Go, Change(QueueDepth, -1, InHand(Item(false))));
  }

  /** It sends the bundle it built. */
  lemma WorkerSends(r: View -> bool, v: View, p: nat) returns (v': View)
    requires Closed(r, p) && r(v) && v.uncounted <= p && v.worker == Building
    ensures r(v') && v' == v.(worker := Waiting)
  {
    v' := Quiet(r, v, p, TheWorker, Go, Change(CalcDone, 1, Sending));
    v' := Quiet(r, v', p, TheWorker, Go, Change(JitoSent, 1, Waiting));
  }

  /** It pushes a marked item back. */
  lemma WorkerRequeues(r: View -> bool, v: View, p: nat) returns (v': View)
    requires Closed(r, p) && r(v) && v.uncounted <= p && v.worker == Requeueing
    ensures r(v') && v' == v.(worker := Waiting, permits := v.permits + 1, lifo := v.lifo + [Item(true)])
  {
    v' := Quiet(r, v, p, TheWorker, Go, Stack(Push(Item(true)), Announced(Worker)));
    v' := Quiet(r, v', p, TheWorker, Go, Change(QueueDepth, 1, Deepened(Worker)));
    v' := Quiet(r, v', p, TheWorker, Go, Change(Permits, 1, Waiting));
  }

  /** The scanner hands a pair to a new task. */
  lemma TaskSpawned(r: View -> bool, v: View, p: nat) returns (v': View)
    requires Closed(r, p) && r(v) && v.uncounted <= p && v.scanner == Scanning && v.pairs == 1
    ensures r(v') && v' == v.(pairs := 0, newest := Fetching)
  {
    v' := Quiet(r, v, p, TheScanner, Go, Change(Pairs, -1, Holding));
    v' := Quiet(r, v', p, TheScanner, SomeMissing(1), Change(HopTemplateMissing, 1, HopsChecked(false)));
    v' := Quiet(r, v', p, TheScanner, Fetch, Change(MetisReqSent, 1, Asked));
    v' := Quiet(r, v', p, TheScanner, Go, Then(Scanning).(spawns := true));
  }

  /** The task gets its instruction and pushes it. */
  lemma TaskPushes(r: View -> bool, v: View, p: nat) returns (v': View)
    requires Closed(r, p) && r(v) && v.uncounted + 1 <= p && v.newest == Fetching
    ensures r(v')
    ensures v' == v.(lifo := v.lifo + [Item(false)], uncounted := v.uncounted + 1, newest := Pushed(Task))
  {
    v' := Quiet(r, v, p, TheNewest, Go, Change(SwapIxOk, 1, MetisOk));
    v' := Quiet(r, v', p, TheNewest, Go, Change(IxFromMetis, 1, Ready(Task)));
    v' := Quiet(r, v', p, TheNewest, Go, Stack(Push(Item(false)), Pushed(Task)));
  }

  // ── The limiters in one moment ────────────────────────────────────────────

  /** `n` grants at moment 0. */
  function Grants(n: nat): seq<int> {
    seq(n, _ => 0)
  }

  /** Both limiters after `g` grants, all at moment 0: REST first. */
  function After(u: Setup, g: nat): Slots
    requires g <= u.restMax + u.grpcMax
  {
    if g <= u.restMax then Slots(u.restMax, u.grpcMax, 0, Grants(g), [])
    else Slots(u.restMax, u.grpcMax, 0, Grants(u.restMax), Grants(g - u.restMax))
  }

  lemma {:induction false} RetainGrants(n: nat)
    ensures RateLimiting.Retain(Grants(n), 0 - RateLimiting.SECOND) == Grants(n)
  {
    if n > 0 {
      assert Grants(n)[..n - 1] == Grants(n - 1);
      RetainGrants(n - 1);
      assert Grants(n - 1) + [0] == Grants(n);
    }
  }

  lemma AskedGrants(max: nat, n: nat)
    requires n <= max
    ensures RateLimiting.Asked(max, Grants(n), 0) == (if n < max then Grants(n + 1) else Grants(n), n < max)
  {
    RetainGrants(n);
    assert Grants(n) + [0] == Grants(n + 1);
  }

  /** Another slot of the REST limiter, while it has one. */
  lemma RestSlot(u: Setup, g: nat)
    requires g < u.restMax
    ensures RoomOf(After(u, g)).rest && Probed(After(u, g), AskRest) == After(u, g + 1)
  {
    AskedGrants(u.restMax, g);
  }

  /** Then one of the gRPC limiter. */
  lemma GrpcSlot(u: Setup, g: nat)
    requires u.restMax <= g < u.restMax + u.grpcMax
    ensures var s := After(u, g);
            RoomOf(s) == Room(false, true) && Probed(s, AskRest) == s && Probed(s, AskGrpc) == After(u, g + 1)
  {
    AskedGrants(u.restMax, u.restMax);
    AskedGrants(u.grpcMax, g - u.restMax);
    assert Grants(0) == [];
  }

  /** After that none. */
  lemma NoSlotsLeft(u: Setup)
    ensures var s := After(u, u.restMax + u.grpcMax);
            s == Probed(s, AskRest) == Probed(s, AskGrpc) && RoomOf(s) == Room(false, false)
  {
    AskedGrants(u.restMax, u.restMax);
    AskedGrants(u.grpcMax, u.grpcMax);
    assert Grants(0) == [];
  }

  /** A worker with an item gets a slot of the REST limiter, */
  lemma GrantedByRest(r: View -> bool, v: View, p: nat, after: Slots) returns (v': View)
    requires Closed(r, p) && r(v) && v.uncounted <= p && v.worker == InHand(Item(false))
    requires RoomOf(v.slots).rest && Probed(v.slots, AskRest) == after
    ensures r(v') && v' == v.(worker := Building, slots := after)
  {
    v' := Asks(r, v, p, RoomOf(v.slots), Probe(AskRest, RestFirst, 1, Building));
  }

  /** or, refused there, one of the gRPC limiter, */
  lemma GrantedByGrpc(r: View -> bool, v: View, p: nat, after: Slots) returns (v': View)
    requires Closed(r, p) && r(v) && v.uncounted <= p && v.worker == InHand(Item(false))
    requires RoomOf(v.slots) == Room(false, true) && Probed(v.slots, AskRest) == v.slots && Probed(v.slots, AskGrpc) == after
    ensures r(v') && v' == v.(worker := Building, slots := after)
  {
    v' := Asks(r, v, p, Room(false, true), Probe(AskRest, RestFirst, 0, RestRefused(Item(false))));
    v' := Asks(r, v', p, Room(false, true), Probe(AskGrpc, GrpcFirst, 1, Building));
  }

  /** or none, and marks the item. */
  lemma WorkerMarks(r: View -> bool, v: View, p: nat) returns (v': View)
    requires Closed(r, p) && r(v) && v.uncounted <= p && v.worker == InHand(Item(false))
    requires RoomOf(v.slots) == Room(false, false) && Probed(v.slots, AskRest) == v.slots == Probed(v.slots, AskGrpc)
    ensures r(v') && v' == v.(worker := Requeueing, requeued := v.requeued + 1)
  {
    v' := Asks(r, v, p, Room(false, false), Probe(AskRest, RestFirst, 0, RestRefused(Item(false))));
    v' := Asks(r, v', p, Room(false, false), Probe(AskGrpc, GrpcFirst, 0, Refused(Item(false))));
    v' := Quiet(r, v', p, TheWorker, Go, Change(RateRequeued, 1, Requeueing));
  }

  /** The next slot, from the limiter that has one. */
  lemma WorkerGranted(u: Setup, r: View -> bool, v: View, p: nat, g: nat) returns (v': View)
    requires Closed(r, p) && r(v) && v.uncounted <= p && g < u.restMax + u.grpcMax
    requires v.worker == InHand(Item(false)) && v.slots == After(u, g)
    ensures r(v') && v' == v.(worker := Building, slots := After(u, g + 1))
  {
    if g < u.restMax {
      RestSlot(u, g);
      v' := GrantedByRest(r, v, p, After(u, g + 1));
    } else {
      GrpcSlot(u, g);
      v' := GrantedByGrpc(r, v, p, After(u, g + 1));
    }
  }

  /** A new item taken, refused, marked and back in the queue. */
  lemma WorkerBounces(u: Setup, r: View -> bool, v: View, p: nat) returns (v': View)
    requires Closed(r, p) && r(v) && v.uncounted <= p && v.worker == Waiting && v.permits == 1
    requires Top(v.lifo) == Some(Item(false)) && v.slots == After(u, u.restMax + u.grpcMax)
    ensures r(v') && v' == v.(requeued := v.requeued + 1, lifo := Stacked(v.lifo, Pop) + [Item(true)])
  {
    v' := WorkerTakes(r, v, p);
    NoSlotsLeft(u);
    v' := WorkerMarks(r, v', p);
    v' := WorkerRequeues(r, v', p);
  }

  // ── The trace ─────────────────────────────────────────────────────────────

  function StartView(u: Setup): View {
    View(Scanning, Waiting, Finished, [], 0, 0, 0, 0, After(u, 0), 0)
  }

  /** An item queued, taken, granted the next slot and sent. */
  lemma SendOne(u: Setup, r: View -> bool, v: View, p: nat, g: nat) returns (v': View)
    requires Closed(r, p) && r(v) && v.uncounted + 1 <= p && g < u.restMax + u.grpcMax && v.slots == After(u, g)
    requires v.scanner == Scanning && v.worker == Waiting && v.permits == 0 && v.pairs == 0 && v.lifo == []
    ensures r(v') && v' == v.(announced := v.announced + 1, slots := After(u, g + 1), newest := Finished)
  {
    v' := ItemQueued(r, v, p);
    v' := WorkerTakes(r, v', p);
    v' := WorkerGranted(u, r, v', p, g);
    v' := WorkerSends(r, v', p);
  }

  /** First as many items are sent as there are slots. */
  lemma {:induction false} SendMany(u: Setup, r: View -> bool, p: nat, g: nat, start: View) returns (v: View)
    requires Closed(r, p) && r(start) && start.(newest := Finished) == StartView(u)
    requires p >= 1 && g <= u.restMax + u.grpcMax
    ensures r(v) && v.(newest := Finished) == StartView(u).(announced := g, slots := After(u, g))
    decreases g
  {
    if g == 0 {
      v := start;
    } else {
      v := SendMany(u, r, p, g - 1, start);
      v := SendOne(u, r, v, p, g - 1);
    }
  }

  function Marked(n: nat): seq<Item> {
    seq(n, _ => Item(true))
  }

  /** A task pushes an item, and a worker takes it and pushes it back marked, before the push is counted. */
  lemma BounceOne(u: Setup, r: View -> bool, v: View, p: nat) returns (v': View)
    requires Closed(r, p) && r(v) && v.uncounted + 1 <= p && v.slots == After(u, u.restMax + u.grpcMax)
    requires v.scanner == Scanning && v.worker == Waiting && v.permits == 1 && v.pairs == 0
    ensures r(v')
    ensures v' == v.(requeued := v.requeued + 1, lifo := v.lifo + [Item(true)], uncounted := v.uncounted + 1,
                     newest := Pushed(Task))
  {
    v' := PairArrives(r, v, p);
    v' := TaskSpawned(r, v', p);
    v' := TaskPushes(r, v', p);
    v' := WorkerBounces(u, r, v', p);
    assert Stacked(v.lifo + [Item(false)], Pop) == v.lifo;
  }

  /** Then one more item waits, and `m` tasks push items that a worker takes on its permit, one after the
      other, before any of these pushes is counted. */
  lemma {:induction false} BounceMany(u: Setup, r: View -> bool, p: nat, m: nat, start: View) returns (v: View)
    requires Closed(r, p) && r(start) && start.(newest := Finished) == StartView(u) && p >= 1 && m <= p
    ensures var l := u.restMax + u.grpcMax;
            r(v) && v.(newest := Finished) == View(Scanning, Waiting, Finished, Marked(m + 1), 1, 0, m + 1, l + 1, After(u, l), m)
    decreases m
  {
    if m == 0 {
      v := SendMany(u, r, p, u.restMax + u.grpcMax, start);
      v := ItemQueued(r, v, p);
      v := WorkerBounces(u, r, v, p);
      assert Marked(1) == [Item(true)];
    } else {
      v := BounceMany(u, r, p, m - 1, start);
      v := BounceOne(u, r, v, p);
      assert Marked(m) + [Item(true)] == Marked(m + 1);
    }
  }

  // ── Views of reachable states ─────────────────────────────────────────────

  function ViewOf(s: State): View
    requires |s.agents| >= 2
  {
    View(s.agents[0], s.agents[1], if |s.agents| > 2 then s.agents[|s.agents| - 1] else Finished,
         s.lifo, Total(s.cells, Permits), Total(s.cells, Pairs), Total(s.cells, RateRequeued),
         Total(s.cells, QueueIn), s.slots, Uncounted(s))
  }

  /** At no moment of the run are more than `p` pushes uncounted. */
  ghost predicate AtMostUncounted(s: State, es: seq<Event>, p: nat)
    decreases |es|
  {
    Uncounted(s) <= p && (es == [] || AtMostUncounted(Next(s, es[0]), es[1..], p))
  }

  /** Some run with at most `p` pushes uncounted and nothing drained leads to `t`. */
  ghost predicate Reached(u: Setup, p: nat, t: State) {
    t.cells.drained == map[] && |t.agents| >= 2
    && exists es :: AtMostUncounted(Start(u), es, p) && StateOf(u, es) == t
  }

  /** Such a state looks like `v`. */
  ghost predicate Seen(u: Setup, p: nat, v: View) {
    exists t :: Reached(u, p, t) && ViewOf(t) == v
  }

  lemma {:induction false} RunOneMore(s: State, es: seq<Event>, e: Event, p: nat)
    requires AtMostUncounted(s, es, p) && Uncounted(Next(Run(s, es), e)) <= p
    ensures AtMostUncounted(s, es + [e], p) && Run(s, es + [e]) == Next(Run(s, es), e)
    decreases |es|
  {
    if es == [] {
      assert es + [e] == [e] && [e][1..] == [];
      assert Run(Next(s, e), []) == Next(s, e) && AtMostUncounted(Next(s, e), [], p);
    } else {
      RunOneMore(Next(s, es[0]), es[1..], e, p);
      assert (es + [e])[1..] == es[1..] + [e];
    }
  }

  lemma ReachedNext(u: Setup, p: nat, t: State, e: Event)
    requires Reached(u, p, t) && Uncounted(Next(t, e)) <= p
    requires Next(t, e).cells.drained == map[] && |Next(t, e).agents| >= 2
    ensures Reached(u, p, Next(t, e))
  {
    var es :| AtMostUncounted(Start(u), es, p) && StateOf(u, es) == t;
    RunOneMore(Start(u), es, e, p);
    assert StateOf(u, es + [e]) == Next(t, e);
  }

  /** Where the agent stands, if it is there. */
  function IndexOf(t: State, who: Who): nat
    requires |t.agents| >= 2
  {
    match who case TheScanner => 0 case TheWorker => 1 case TheNewest => |t.agents| - 1
  }

  lemma SameMoves(at: At, k: Choice, top: Option<Item>, a: Atomics<Cell>, b: Atomics<Cell>, room: Room)
    requires Now(a, Permits) == Now(b, Permits) && Now(a, Pairs) == Now(b, Pairs)
    ensures Moves(at, k, top, a, room) == Moves(at, k, top, b, room)
  {
  }

  lemma TakeView(t: State, who: Who, e: Step)
    requires |t.agents| >= 2 && t.cells.drained == map[] && (who.TheNewest? ==> |t.agents| > 2)
    ensures var t' := Take(t, IndexOf(t, who), e);
            && |t'.agents| >= 2 && t'.cells.drained == map[]
            && ViewOf(t') == Advance(ViewOf(t), who, e)
  {
    var i := IndexOf(t, who);
    UncountedTake(t, i, e);
    var agents := t.agents[i := e.next];
    if !e.spawns {
      assert agents + [] == agents;
    }
  }

  lemma UncountedTake(t: State, i: nat, e: Step)
    requires i < |t.agents|
    ensures Uncounted(Take(t, i, e)) == Uncounted(t) + IsPushed(e.next) - IsPushed(t.agents[i])
  {
    SumUpdate(IsPushed, t.agents, i, e.next);
    var agents := t.agents[i := e.next];
    if e.spawns {
      SumAppend(IsPushed, agents, Fetching);
    } else {
      assert agents + [] == agents;
    }
  }

  lemma SeenStep(u: Setup, p: nat, v: View, who: Who, k: Choice, e: Step)
    requires Seen(u, p, v) && Steps(v, who, k, e, p)
    ensures Seen(u, p, Advance(v, who, e))
  {
    var t :| Reached(u, p, t) && ViewOf(t) == v;
    StepSeen(t, v, who, k, e);
    TakeView(t, who, e);
    ReachedNext(u, p, t, Act(IndexOf(t, who), k));
  }

  /** What the view allows the state does. */
  lemma StepSeen(t: State, v: View, who: Who, k: Choice, e: Step)
    requires |t.agents| >= 2 && t.cells.drained == map[] && ViewOf(t) == v
    requires ViewMoves(v, who, k, RoomOf(v.slots)) == Some(e)
    ensures who.TheNewest? ==> |t.agents| > 2
    ensures Next(t, Act(IndexOf(t, who), k)) == Take(t, IndexOf(t, who), e)
  {
    SameMoves(AtOf(v, who), k, Top(t.lifo), t.cells, Atomics(map[Permits := v.permits, Pairs := v.pairs], map[]), RoomOf(t.slots));
  }

  lemma SeenArrival(u: Setup, p: nat, v: View)
    requires Seen(u, p, v)
    ensures Seen(u, p, v.(newest := Starting))
  {
    var t :| Reached(u, p, t) && ViewOf(t) == v;
    SumAppend(IsPushed, t.agents, Starting);
    ReachedUncounted(u, p, t);
    ReachedNext(u, p, t, QuoteCheck);
    assert ViewOf(Next(t, QuoteCheck)) == v.(newest := Starting);
  }

  lemma ReachedUncounted(u: Setup, p: nat, t: State)
    requires Reached(u, p, t)
    ensures Uncounted(t) <= p
  {
    var es :| AtMostUncounted(Start(u), es, p) && StateOf(u, es) == t;
    UncountedAtEnd(Start(u), es, p);
  }

  lemma StartSeen(u: Setup, p: nat) returns (v: View)
    requires u.workers >= 1
    ensures Seen(u, p, v) && v.(newest := Finished) == StartView(u)
  {
    SumOfEqual(IsPushed, Start(u).agents, 0);
    assert AtMostUncounted(Start(u), [], p) && StateOf(u, []) == Start(u);
    assert Reached(u, p, Start(u));
    v := ViewOf(Start(u));
    assert Grants(0) == [];
  }

  lemma SeenClosed(u: Setup, p: nat)
    ensures Closed(v => Seen(u, p, v), p)
  {
    forall v, who, k, e | Steps(v, who, k, e, p) && Seen(u, p, v) {
      SeenStep(u, p, v, who, k, e);
    }
    forall v | Seen(u, p, v) {
      SeenArrival(u, p, v);
    }
  }

  // ── The result ────────────────────────────────────────────────────────────

  /** With one push more uncounted than the limiters give slots in a second `rate_requeued` can exceed
      `queue_in`: the queue is last in, first out, so one permit carries a worker to each new item. */
  lemma RequeuedExceeds(u: Setup) returns (es: seq<Event>)
    requires u.workers >= 1
    ensures AtMostUncounted(Start(u), es, u.restMax + u.grpcMax + 1)
    ensures Total(StateOf(u, es).cells, RateRequeued) == Total(StateOf(u, es).cells, QueueIn) + 1
  {
    var p := u.restMax + u.grpcMax + 1;
    var v := ExceedingSeen(u, p);
    es := RunSeen(u, p, v);
  }

  /** The run behind a view. */
  lemma RunSeen(u: Setup, p: nat, v: View) returns (es: seq<Event>)
    requires Seen(u, p, v)
    ensures AtMostUncounted(Start(u), es, p)
    ensures Total(StateOf(u, es).cells, RateRequeued) == v.requeued && Total(StateOf(u, es).cells, QueueIn) == v.announced
  {
    var t :| Reached(u, p, t) && ViewOf(t) == v;
    var a := t.cells;
    assert Total(a, RateRequeued) == v.requeued && Total(a, QueueIn) == v.announced;
    es := RunReached(u, p, t);
  }

  lemma RunReached(u: Setup, p: nat, t: State) returns (es: seq<Event>)
    requires Reached(u, p, t)
    ensures AtMostUncounted(Start(u), es, p) && StateOf(u, es) == t
  {
    es :| AtMostUncounted(Start(u), es, p) && StateOf(u, es) == t;
  }

  lemma ExceedingSeen(u: Setup, p: nat) returns (v: View)
    requires u.workers >= 1 && p == u.restMax + u.grpcMax + 1
    ensures Seen(u, p, v) && v.requeued == v.announced + 1
  {
    SeenClosed(u, p);
    var start := StartSeen(u, p);
    v := BounceMany(u, v => Seen(u, p, v), p, p, start);
  }

  lemma {:induction false} MoreUncounted(s: State, es: seq<Event>, p: nat, q: nat)
    requires AtMostUncounted(s, es, p) && p <= q
    ensures AtMostUncounted(s, es, q)
    decreases |es|
  {
    if es != [] {
      MoreUncounted(Next(s, es[0]), es[1..], p, q);
    }
  }

  lemma {:induction false} UncountedAtEnd(s: State, es: seq<Event>, p: nat)
    requires AtMostUncounted(s, es, p)
    ensures Uncounted(Run(s, es)) <= p
    decreases |es|
  {
    if es != [] {
      UncountedAtEnd(Next(s, es[0]), es[1..], p);
    }
  }

  /** With any worker: `rate_requeued` stays within `queue_in` over every run with at most `p` pushes
      uncounted at a time exactly when the two limiters together give at least `p` slots in a second. A
      pusher does not yield between its push and its count, so `p` is at most the number of threads that
      run pushers. */
  lemma RequeuedWithinQueueInExact(u: Setup, p: nat)
    requires u.workers >= 1
    ensures (forall es :: AtMostUncounted(Start(u), es, p) ==>
               Total(StateOf(u, es).cells, RateRequeued) <= Total(StateOf(u, es).cells, QueueIn))
            <==> p <= u.restMax + u.grpcMax
  {
    if p <= u.restMax + u.grpcMax {
      forall es | AtMostUncounted(Start(u), es, p)
        ensures Total(StateOf(u, es).cells, RateRequeued) <= Total(StateOf(u, es).cells, QueueIn)
      {
        UncountedAtEnd(Start(u), es, p);
        RequeuedWithinQueueIn(u, es);
      }
    } else {
      var es := RequeuedExceeds(u);
      MoreUncounted(Start(u), es, u.restMax + u.grpcMax + 1, p);
    }
  }
}
