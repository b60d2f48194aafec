/** What a quote check, the scanner and a swap-instruction task do with one candidate, as the source writes it:
    each a run of the step machine of `Pipeline` when nobody interferes, and what counters, queue and store
    come to (`quote_check` and `scan_all_tokens` of `src/arbitrage.rs`). */
module ScanLoop {
  import opened Options
  import opened Words
  import opened RoutePlan
  import opened TemplateStore
  import Templates = TemplateStore
  import opened T = Tiers
  import opened Inserting
  import opened Atomics
  import opened Pipeline
  import opened WorkerLoop

  /** A pair the scanner takes: from a direct-only request, its hops, whether the quotes merge, and the
      merged plan with its signature, amount and floor. */
  datatype Candidate = Candidate(direct: bool, hopCount: nat, merges: bool, sig: u128, plan: Json, amount: u64, floor: u64)

  /** The configuration's `serve_route` and `serve_from_metis`. */
  datatype Switches = Switches(serve: bool, fromMetis: bool)

  datatype ErrorKind = Timeout | Http | Network | Parse

  /** Metis's answer to a swap-instruction request. */
  datatype Reply = Built(ixs: SwapInstructions) | Failed(kind: ErrorKind)

  function ErrorCell(e: ErrorKind): Cell {
    match e case Timeout => SwapIxTimeout case Http => SwapIxHttp case Network => SwapIxNetwork case Parse => SwapIxParse
  }

  /** The agents `from`, the only one choosing `ks`, come to `agents`. */
  ghost predicate Ends(from: State, ks: seq<Choice>, agents: seq<At>, h: Handle)
    reads h
  {
    Run(from, Acts(ks)) == State(agents, h.lifo, h.cells, h.slots)
  }

  // ── What the counters come to ─────────────────────────────────────────────

  function RamIn(a: Atomics<Cell>): Atomics<Cell> {
    AnnouncedIn(Add(Add(Add(Add(a, RouteTemplateHit, 1), IxFromRam, 1), SwapIxOk, 1), QueueIn, 1))
  }

  function HopsIn(a: Atomics<Cell>, served: Served): Atomics<Cell> {
    if served.NotFromRam? && served.missing > 0 then Add(a, HopTemplateMissing, served.missing) else Add(a, HopTemplateAllHit, 1)
  }

  function TiersIn(a: Atomics<Cell>, fromMetis: bool, served: Served): Atomics<Cell> {
    if served.BySignature? then RamIn(a)
    else if served.ByHops? then RamIn(HopsIn(a, served))
    else if fromMetis then Add(HopsIn(a, served), MetisReqSent, 1)
    else DroppedIn(HopsIn(a, served), DroppedNoServe)
  }

  lemma RamTotals(a: Atomics<Cell>, c: Cell)
    ensures Total(RamIn(a), c) == Total(a, c)
              + if c in {RouteTemplateHit, IxFromRam, SwapIxOk, QueueIn, QueueDepth, Permits} then 1 else 0
  {
    var b := Add(Add(Add(a, RouteTemplateHit, 1), IxFromRam, 1), SwapIxOk, 1);
    AddAndDrain(a, RouteTemplateHit, 1, c);
    AddAndDrain(Add(a, RouteTemplateHit, 1), IxFromRam, 1, c);
    AddAndDrain(Add(Add(a, RouteTemplateHit, 1), IxFromRam, 1), SwapIxOk, 1, c);
    PushedTotals(b, c);
  }

  lemma HopsTotals(a: Atomics<Cell>, served: Served, c: Cell)
    ensures Total(HopsIn(a, served), c) == Total(a, c) +
             (match c
              case HopTemplateAllHit => if served.NotFromRam? && served.missing > 0 then 0 else 1
              case HopTemplateMissing => if served.NotFromRam? then served.missing else 0
              case _ => 0)
  {
    AddAndDrain(a, HopTemplateAllHit, 1, c);
    if served.NotFromRam? {
      AddAndDrain(a, HopTemplateMissing, served.missing, c);
    }
  }

  lemma MissTotals(b: Atomics<Cell>, fromMetis: bool, c: Cell)
    ensures Total(if fromMetis then Add(b, MetisReqSent, 1) else DroppedIn(b, DroppedNoServe), c) == Total(b, c)
              + if c == MetisReqSent then (if fromMetis then 1 else 0)
                else if c == DroppedNoServe || c == TxDropped then (if fromMetis then 0 else 1)
                else 0
  {
    AddAndDrain(b, MetisReqSent, 1, c);
    DroppedTotals(b, DroppedNoServe, c);
  }

  lemma TiersTotals(a: Atomics<Cell>, fromMetis: bool, served: Served, c: Cell)
    ensures Total(TiersIn(a, fromMetis, served), c) == Total(a, c) +
             (match c
              case RouteTemplateHit | IxFromRam | SwapIxOk | QueueIn | QueueDepth | Permits => if served.NotFromRam? then 0 else 1
              case HopTemplateAllHit => if served.ByHops? || (served.NotFromRam? && served.missing == 0) then 1 else 0
              case HopTemplateMissing => if served.NotFromRam? then served.missing else 0
              case MetisReqSent => if served.NotFromRam? && fromMetis then 1 else 0
              case DroppedNoServe | TxDropped => if served.NotFromRam? && !fromMetis then 1 else 0
              case _ => 0)
  {
    match served
    case BySignature(_) => RamTotals(a, c);
    case ByHops(_) => HopsThenRam(a, served, c);
    case NotFromRam(_) => HopsThenMiss(a, fromMetis, served, c);
  }

  lemma HopsThenRam(a: Atomics<Cell>, served: Served, c: Cell)
    requires served.ByHops?
    ensures Total(RamIn(HopsIn(a, served)), c) == Total(a, c)
              + if c in {RouteTemplateHit, IxFromRam, SwapIxOk, QueueIn, QueueDepth, Permits, HopTemplateAllHit} then 1 else 0
  {
    HopsTotals(a, served, c);
    RamTotals(HopsIn(a, served), c);
  }

  lemma HopsThenMiss(a: Atomics<Cell>, fromMetis: bool, served: Served, c: Cell)
    requires served.NotFromRam?
    ensures Total(TiersIn(a, fromMetis, served), c) == Total(a, c)
              + if c == HopTemplateAllHit then (if served.missing == 0 then 1 else 0)
                else if c == HopTemplateMissing then served.missing
                else if c == MetisReqSent then (if fromMetis then 1 else 0)
                else if c == DroppedNoServe || c == TxDropped then (if fromMetis then 0 else 1)
                else 0
  {
    HopsTotals(a, served, c);
    MissTotals(HopsIn(a, served), fromMetis, c);
  }

  // ── The scanner ───────────────────────────────────────────────────────────

  /** A template hit at either tier: the instruction is counted and pushed. */
  method PushHit(h: Handle, choice: Choice, ghost run: seq<Choice> -> State, ghost before: seq<Choice>, ghost at: At)
    returns (ghost ks: seq<Choice>)
    requires choice == Hit && (at.Holding? || (at.HopsChecked? && at.allHit))
    requires Alone(run, before, at, h.lifo, h.cells, h.slots)
    modifies h
    ensures Alone(run, ks, Scanning, h.lifo, h.cells, h.slots)
    ensures h.cells == RamIn(old(h.cells)) && h.lifo == old(h.lifo) + [Item(false)] && h.slots == old(h.slots)
  {
    ks := h.Count(RouteTemplateHit, 1, run, before, at, Hit, RamHit);
    ks := h.Count(IxFromRam, 1, run, ks, RamHit, Go, RamCounted);
    ks := h.Count(SwapIxOk, 1, run, ks, RamCounted, Go, Ready(Scanner));
    ks := h.PushReady(Scanner, run, ks);
  }

  /** The request counted, the task spawned. */
  lemma Spawned(run: seq<Choice> -> State, ks: seq<Choice>, lifo: seq<Item>, cells: Atomics<Cell>, slots: Slots)
    requires Alone(run, ks, Asked, lifo, cells, slots)
    ensures run(ks + [Go]) == State([Scanning, Fetching], lifo, cells, slots)
  {
    assert Next(run(ks), Act(0, Go)) == Take(run(ks), 0, Then(Scanning).(spawns := true));
    assert [Asked][0 := Scanning] + [Fetching] == [Scanning, Fetching];
  }

  /** A merged candidate goes through the tiers; a miss asks Metis or is dropped. */
  method ServeCandidate(h: Handle, store: TemplateStore, c: Candidate, sw: Switches, ghost run: seq<Choice> -> State, ghost before: seq<Choice>)
    returns (served: Served, ghost ks: seq<Choice>)
    requires Alone(run, before, Holding, h.lifo, h.cells, h.slots)
    modifies h, store
    ensures (store.State(), served) == T.Tiers(old(store.State()), sw.serve, c.sig, c.plan, c.amount, c.floor)
    ensures h.cells == TiersIn(old(h.cells), sw.fromMetis, served) && h.slots == old(h.slots)
    ensures h.lifo == old(h.lifo) + if served.NotFromRam? then [] else [Item(false)]
    ensures run(ks) == State([Scanning] + if served.NotFromRam? && sw.fromMetis then [Fetching] else [], h.lifo, h.cells, h.slots)
  {
    served := ServeFromRam(store, sw.serve, c.sig, c.plan, c.amount, c.floor);
    if served.BySignature? {
      ks := PushHit(h, Hit, run, before, Holding);
      return;
    }
    ghost var allHit := !(served.NotFromRam? && served.missing > 0);
    if served.NotFromRam? && served.missing > 0 {
      ks := h.Count(HopTemplateMissing, served.missing, run, before, Holding, SomeMissing(served.missing), HopsChecked(false));
    } else {
      ks := h.Count(HopTemplateAllHit, 1, run, before, Holding, AllHops, HopsChecked(true));
    }
    if served.ByHops? {
      ks := PushHit(h, Hit, run, ks, HopsChecked(true));
    } else if sw.fromMetis {
      ks := h.Count(MetisReqSent, 1, run, ks, HopsChecked(allHit), Fetch, Asked);
      Spawned(run, ks, h.lifo, h.cells, h.slots);
      ks := ks + [Go];
    } else {
      ks := h.DropIt(DroppedNoServe, run, ks, HopsChecked(allHit));
    }
  }

  /** One turn of the scan loop, from the pair on. A direct pair that is not of two hops, or one whose quotes
      do not merge, is dropped; else the tiers decide: served from RAM it is pushed, otherwise Metis is asked
      in a task of its own, or it is dropped. */
  method TakePair(h: Handle, store: TemplateStore, c: Candidate, sw: Switches)
    returns (served: Option<Served>, ghost ks: seq<Choice>)
    requires Now(h.cells, Pairs) > 0
    modifies h, store
    ensures served.Some? <==> c.merges && (c.direct ==> c.hopCount == 2)
    ensures served.None? ==> store.State() == old(store.State())
    ensures served.Some? ==>
              (store.State(), served.value) == T.Tiers(old(store.State()), sw.serve, c.sig, c.plan, c.amount, c.floor)
    ensures h.slots == old(h.slots)
    ensures h.lifo == old(h.lifo) + if served.Some? && !served.value.NotFromRam? then [Item(false)] else []
    ensures Ends(State([Scanning], old(h.lifo), old(h.cells), old(h.slots)), ks,
                 [Scanning] + (if served.Some? && served.value.NotFromRam? && sw.fromMetis then [Fetching] else []), h)
    ensures var fromRam := served.Some? && !served.value.NotFromRam?;
            var missed := served.Some? && served.value.NotFromRam?;
            forall cell :: Total(h.cells, cell) == Total(old(h.cells), cell) +
             (match cell
              case Pairs => -1
              case DroppedMultiHop => if c.direct && c.hopCount != 2 then 1 else 0
              case DroppedMergeFail => if (c.direct ==> c.hopCount == 2) && !c.merges then 1 else 0
              case RouteTemplateHit | IxFromRam | SwapIxOk | QueueIn | QueueDepth | Permits => if fromRam then 1 else 0
              case HopTemplateAllHit =>
                if served.Some? && (served.value.ByHops? || (missed && served.value.missing == 0)) then 1 else 0
              case HopTemplateMissing => if missed then served.value.missing else 0
              case MetisReqSent => if missed && sw.fromMetis then 1 else 0
              case DroppedNoServe => if missed && !sw.fromMetis then 1 else 0
              case TxDropped => if served.None? || (missed && !sw.fromMetis) then 1 else 0
              case _ => 0)
  {
    ghost var from, a := State([Scanning], h.lifo, h.cells, h.slots), h.cells;
    ghost var run := RunFrom(from);
    assert run([]) == from;
    ks := h.Count(Pairs, -1, run, [], Scanning, Go, Holding);
    ghost var taken := h.cells;
    served := None;
    if c.direct && c.hopCount != 2 {
      ks := h.DropIt(DroppedMultiHop, run, ks, Holding);
    } else if !c.merges {
      ks := h.DropIt(DroppedMergeFail, run, ks, Holding);
    } else {
      var s;
      s, ks := ServeCandidate(h, store, c, sw, run, ks);
      served := Some(s);
    }
    forall cell {
      PairTotals(a, taken, h.cells, c, sw, served, cell);
    }
  }

  lemma PairTotals(a: Atomics<Cell>, taken: Atomics<Cell>, end: Atomics<Cell>, c: Candidate, sw: Switches, served: Option<Served>, cell: Cell)
    requires taken == Add(a, Pairs, -1) && (served.Some? <==> c.merges && (c.direct ==> c.hopCount == 2))
    requires end == if c.direct && c.hopCount != 2 then DroppedIn(taken, DroppedMultiHop)
                    else if !c.merges then DroppedIn(taken, DroppedMergeFail)
                    else TiersIn(taken, sw.fromMetis, served.value)
    ensures var fromRam := served.Some? && !served.value.NotFromRam?;
            var missed := served.Some? && served.value.NotFromRam?;
            Total(end, cell) == Total(a, cell) +
             (match cell
              case Pairs => -1
              case DroppedMultiHop => if c.direct && c.hopCount != 2 then 1 else 0
              case DroppedMergeFail => if (c.direct ==> c.hopCount == 2) && !c.merges then 1 else 0
              case RouteTemplateHit | IxFromRam | SwapIxOk | QueueIn | QueueDepth | Permits => if fromRam then 1 else 0
              case HopTemplateAllHit =>
                if served.Some? && (served.value.ByHops? || (missed && served.value.missing == 0)) then 1 else 0
              case HopTemplateMissing => if missed then served.value.missing else 0
              case MetisReqSent => if missed && sw.fromMetis then 1 else 0
              case DroppedNoServe => if missed && !sw.fromMetis then 1 else 0
              case TxDropped => if served.None? || (missed && !sw.fromMetis) then 1 else 0
              case _ => 0)
  {
    AddAndDrain(a, Pairs, -1, cell);
    if c.direct && c.hopCount != 2 {
      DroppedTotals(taken, DroppedMultiHop, cell);
    } else if !c.merges {
      DroppedTotals(taken, DroppedMergeFail, cell);
    } else {
      TiersTotals(taken, sw.fromMetis, served.value, cell);
    }
  }

  // ── A swap-instruction task ───────────────────────────────────────────────

  function FetchedIn(a: Atomics<Cell>): Atomics<Cell> {
    AnnouncedIn(Add(Add(Add(a, SwapIxOk, 1), IxFromMetis, 1), QueueIn, 1))
  }

  lemma FetchedTotals(a: Atomics<Cell>, cell: Cell)
    ensures Total(FetchedIn(a), cell)
            == Total(a, cell) + if cell in {SwapIxOk, IxFromMetis, QueueIn, QueueDepth, Permits} then 1 else 0
  {
    AddAndDrain(a, SwapIxOk, 1, cell);
    AddAndDrain(Add(a, SwapIxOk, 1), IxFromMetis, 1, cell);
    PushedTotals(Add(Add(a, SwapIxOk, 1), IxFromMetis, 1), cell);
  }

  lemma FailedTotals(a: Atomics<Cell>, kind: ErrorKind, cell: Cell)
    ensures Total(Add(DroppedIn(a, SwapIxFailed), ErrorCell(kind), 1), cell)
            == Total(a, cell) + if cell == SwapIxFailed || cell == TxDropped || cell == ErrorCell(kind) then 1 else 0
  {
    DroppedTotals(a, SwapIxFailed, cell);
    AddAndDrain(DroppedIn(a, SwapIxFailed), ErrorCell(kind), 1, cell);
  }

  /** The store with the candidate's route inserted and its hops recorded. */
  ghost function Remembered(s: Store, ixs: SwapInstructions, c: Candidate, slot: Option<u64>): Store {
    var inserted := Insert(s, NewTemplate(c.sig, ixs, c.amount, c.floor), PairKeyOf(c.plan));
    inserted.(hops := RecordHops(inserted.hops, KeysOf(c.plan), slot))
  }

  /** What a task remembered is served to the next candidate of its route and amount, by signature and with the
      instruction first inserted, and each of its hops with a key is known. */
  lemma ServedNextTime(s: Store, ixs: SwapInstructions, c: Candidate, slot: Option<u64>)
    ensures var after := Remembered(s, ixs, c, slot);
            var before := Templates.Get(s, c.sig).1;
            && T.Tiers(after, true, c.sig, c.plan, c.amount, c.floor).1
               == BySignature(if before.Some? && c.amount in before.value.variants then before.value.variants[c.amount] else ixs)
            && forall key :: Some(key) in KeysOf(c.plan) ==> key in after.hops
  {
    var inserted := Insert(s, NewTemplate(c.sig, ixs, c.amount, c.floor), PairKeyOf(c.plan));
    ServedAfterInsert(s, c.sig, ixs, c.amount, c.floor, PairKeyOf(c.plan), c.floor);
    GetWithHops(inserted, RecordHops(inserted.hops, KeysOf(c.plan), slot), c.sig);
    RecordedHopsKnown(inserted.hops, KeysOf(c.plan), slot);
  }

  /** A lookup does not see the hops. */
  lemma GetWithHops(s: Store, hops: map<HopKey, HopTemplate>, sig: u128)
    ensures Templates.Get(s.(hops := hops), sig).1 == Templates.Get(s, sig).1
  {
    if sig !in s.hot && sig in s.cold {
      assert Promoted(s.(hops := hops), sig) == Promoted(s, sig);
    }
  }

  /** A task with Metis's answer: the instruction is counted, remembered when `save_new` is on, and pushed; an
      error is counted as failed, dropped, and under its kind. */
  method Answer(h: Handle, store: TemplateStore, reply: Reply, saveNew: bool, c: Candidate, slot: Option<u64>)
    returns (ghost ks: seq<Choice>)
    modifies h, store
    ensures store.State() ==
              if reply.Built? && saveNew then Remembered(old(store.State()), reply.ixs, c, slot) else old(store.State())
    ensures h.slots == old(h.slots) && h.lifo == old(h.lifo) + if reply.Built? then [Item(false)] else []
    ensures Ends(State([Fetching], old(h.lifo), old(h.cells), old(h.slots)), ks, [Finished], h)
    ensures forall cell :: Total(h.cells, cell) == Total(old(h.cells), cell) +
              if reply.Built? then (if cell in {SwapIxOk, IxFromMetis, QueueIn, QueueDepth, Permits} then 1 else 0)
              else if cell == SwapIxFailed || cell == TxDropped then 1
              else if (cell == SwapIxTimeout && reply.kind == Timeout) || (cell == SwapIxHttp && reply.kind == Http)
                   || (cell == SwapIxNetwork && reply.kind == Network) || (cell == SwapIxParse && reply.kind == Parse) then 1
              else 0
  {
    if reply.Built? {
      if saveNew {
        Remember(store, reply.ixs, c, slot);
      }
      ks := PushBuilt(h);
    } else {
      ks := CountFailed(h, reply.kind);
    }
  }

  /** Insert the route and record its hops. */
  method Remember(store: TemplateStore, ixs: SwapInstructions, c: Candidate, slot: Option<u64>)
    modifies store
    ensures store.State() == Remembered(old(store.State()), ixs, c, slot)
  {
    store.InsertRoute(c.sig, ixs, c.amount, c.floor, c.plan);
    store.RecordAllHops(c.plan, slot);
  }

  method PushBuilt(h: Handle) returns (ghost ks: seq<Choice>)
    modifies h
    ensures h.slots == old(h.slots) && h.lifo == old(h.lifo) + [Item(false)]
    ensures Ends(State([Fetching], old(h.lifo), old(h.cells), old(h.slots)), ks, [Finished], h)
    ensures forall cell :: Total(h.cells, cell) == Total(old(h.cells), cell)
              + if cell in {SwapIxOk, IxFromMetis, QueueIn, QueueDepth, Permits} then 1 else 0
  {
    ghost var from, a := State([Fetching], h.lifo, h.cells, h.slots), h.cells;
    ghost var run := RunFrom(from);
    assert run([]) == from;
    ks := h.Count(SwapIxOk, 1, run, [], Fetching, Go, MetisOk);
    ks := h.Count(IxFromMetis, 1, run, ks, MetisOk, Go, Ready(Task));
    ks := h.PushReady(Task, run, ks);
    forall cell {
      FetchedTotals(a, cell);
    }
  }

  method CountFailed(h: Handle, kind: ErrorKind) returns (ghost ks: seq<Choice>)
    modifies h
    ensures h.slots == old(h.slots) && h.lifo == old(h.lifo)
    ensures Ends(State([Fetching], old(h.lifo), old(h.cells), old(h.slots)), ks, [Finished], h)
    ensures forall cell :: Total(h.cells, cell) == Total(old(h.cells), cell)
              + if cell == SwapIxFailed || cell == TxDropped || cell == ErrorCell(kind) then 1 else 0
  {
    ghost var from, a := State([Fetching], h.lifo, h.cells, h.slots), h.cells;
    ghost var run := RunFrom(from);
    assert run([]) == from;
    ks := h.DropIt(SwapIxFailed, run, [], Fetching);
    ks := h.Count(ErrorCell(kind), 1, run, ks, FetchFailed, Drop(ErrorCell(kind)), Finished);
    forall cell {
      FailedTotals(a, kind, cell);
    }
  }

  // ── A quote check ─────────────────────────────────────────────────────────

  lemma QuoteTotals(a: Atomics<Cell>, profitable: bool, cell: Cell)
    ensures var sent := Add(a, MetisReqSent, 2);
            Total(if profitable then Add(Add(sent, MetisRespOk, 1), Pairs, 1) else sent, cell) == Total(a, cell) +
             (match cell
              case MetisReqSent => 2
              case MetisRespOk | Pairs => if profitable then 1 else 0
              case _ => 0)
  {
    var sent := Add(a, MetisReqSent, 2);
    AddAndDrain(a, MetisReqSent, 2, cell);
    AddAndDrain(sent, MetisRespOk, 1, cell);
    AddAndDrain(Add(sent, MetisRespOk, 1), Pairs, 1, cell);
  }

  /** The metrics of a quote check: two requests; and, when it finds a profitable pair, an answer and a pair
      for the scanner. */
  method CheckQuotes(h: Handle, profitable: bool) returns (ghost ks: seq<Choice>)
    modifies h
    ensures h.lifo == old(h.lifo) && h.slots == old(h.slots)
    ensures Ends(State([Starting], old(h.lifo), old(h.cells), old(h.slots)), ks, [Finished], h)
    ensures forall cell :: Total(h.cells, cell) == Total(old(h.cells), cell) +
             (match cell
              case MetisReqSent => 2
              case MetisRespOk | Pairs => if profitable then 1 else 0
              case _ => 0)
  {
    ghost var from, a := State([Starting], h.lifo, h.cells, h.slots), h.cells;
    ghost var run := RunFrom(from);
    assert run([]) == from;
    ks := h.Count(MetisReqSent, 2, run, [], Starting, Go, Checking);
    if profitable {
      ks := h.Count(MetisRespOk, 1, run, ks, Checking, Go, Profitable);
      ks := h.Count(Pairs, 1, run, ks, Profitable, Go, Finished);
    } else {
      ks := Quiet(run, ks, Checking, h.lifo, h.cells, h.slots, Quit, Then(Finished));
    }
    forall cell {
      QuoteTotals(a, profitable, cell);
    }
  }
}
