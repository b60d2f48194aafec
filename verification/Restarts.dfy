/** Runs of the bot over several processes: the store in RAM, its route file, flushes and restarts
    (`flush_routes_to_disk` and `load_routes_from_disk` of `src/template_cache.rs`). */
module Restarts {
  import opened Options
  import opened Runs
  import opened Words
  import opened RoutePlan
  import opened TemplateStore
  import opened StoreRuns
  import opened Persistence
  import Listing
  import G = Generations

  /** A process's store and the route file on disk. */
  datatype World = World(store: Store, disk: Option<RouteFile>)

  datatype WorldOp =
    | InRam(op: Op)
    | Flush(file: RouteFile)  // the file written, in any record order
    | Restart(started: Store) // the store of a new process after loading

  function NewWorld(cap: Cap): World {
    World(EmptyStore(cap), None)
  }

  /** A new process starts with `t`: the routes of the file, when there is one, and whatever hops it
      loaded. */
  ghost predicate IsStart(w: World, t: Store) {
    match w.disk
    case None => t == EmptyStore(w.store.cap).(hops := t.hops)
    case Some(file) => t == LoadRoutes(EmptyStore(w.store.cap).(hops := t.hops), file)
  }

  ghost predicate CanHappen(w: World, op: WorldOp) {
    match op
    case InRam(_) => true
    case Flush(file) => FlushOf(file, w.store)
    case Restart(t) => IsStart(w, t)
  }

  function After(w: World, op: WorldOp): World {
    match op
    case InRam(o) => w.(store := Apply(w.store, o).0)
    case Flush(file) => w.(disk := Some(file))
    case Restart(t) => w.(store := t)
  }

  /** The bot over its processes; a run costs its restarts. */
  ghost function Processes(): Machine<World, WorldOp> {
    Machine(After, CanHappen, (op: WorldOp) => if op.Restart? then 1 else 0)
  }

  /** The run `ops` of processes can happen from a new store without a file, and ends in `w`. */
  ghost predicate Reaches(cap: Cap, ops: seq<WorldOp>, w: World) {
    Leads(Processes(), NewWorld(cap), ops, w)
  }

  lemma LoadIgnoresHops(s: Store, hops: map<HopKey, HopTemplate>, file: RouteFile)
    ensures LoadRoutes(s.(hops := hops), file) == LoadRoutes(s, file).(hops := hops)
  {
    LoadRecordsIgnoreHops(s, hops, file.routes);
  }

  lemma {:induction false} LoadRecordsIgnoreHops(s: Store, hops: map<HopKey, HopTemplate>, rs: seq<RouteRecord>)
    ensures LoadRecords(s.(hops := hops), rs) == LoadRecords(s, rs).(hops := hops)
  {
    if rs != [] {
      LoadRecordsIgnoreHops(s, hops, rs[..|rs| - 1]);
    }
  }

  /** What a new process holds after loading the flush of `s`. */
  function StartedFrom(s: Store, hops: map<HopKey, HopTemplate>): Store {
    Store(s.cap, Reloaded(Routes(s)), map[], hops, s.index)
  }

  lemma RestartIs(s: Store, file: RouteFile, hops: map<HopKey, HopTemplate>)
    requires Structural(s) && FlushOf(file, s)
    ensures LoadRoutes(EmptyStore(s.cap).(hops := hops), file) == StartedFrom(s, hops)
  {
    RouteRoundTrip(s, file);
    LoadIgnoresHops(EmptyStore(s.cap), hops, file);
  }

  /** A flush of `s` determines the next start: every live route, all in the hot generation and without
      their cached instructions, and the very same pair index. */
  lemma StartsFromFlush(w: World, s: Store, t: Store)
    requires Structural(s) && s.cap == w.store.cap && w.disk.Some? && FlushOf(w.disk.value, s)
    ensures IsStart(w, t) <==> t == StartedFrom(s, t.hops)
  {
    RestartIs(s, w.disk.value, t.hops);
  }

  // ── Growth over restarts ──────────────────────────────────────────────────

  ghost function RestartsIn(ops: seq<WorldOp>): nat {
    Cost(Processes(), ops)
  }

  function LiveCount(s: Store): nat {
    |s.hot| + |s.cold|
  }

  /** No generation holds more than `b`, and both together at most one capacity more. */
  ghost predicate Within(s: Store, b: nat) {
    Structural(s) && s.cap <= b && |s.hot| <= b && |s.cold| <= b && LiveCount(s) <= b + s.cap
  }

  ghost predicate WorldWithin(w: World, b: nat) {
    && Within(w.store, b)
    && (w.disk.Some? ==> exists s :: Within(s, b) && s.cap == w.store.cap && FlushOf(w.disk.value, s))
  }

  lemma TouchWithin(g: G.Gen, x: u128, b: nat)
    requires g.cap <= b && |g.hot| <= b && |g.cold| <= b && |g.hot| + |g.cold| <= b + g.cap
    ensures var t := G.Touch(g, x);
            t.cap == g.cap && |t.hot| <= b && |t.cold| <= b && |t.hot| + |t.cold| <= b + g.cap
  {
    G.SubsetSize(g.cold - {x}, g.cold);
  }

  lemma WithinStep(s: Store, op: Op, b: nat)
    requires Within(s, b)
    ensures Within(Apply(s, op).0, b) && Apply(s, op).0.cap == s.cap
  {
    StructuralStep(s, op);
    ApplyTouches(s, op);
    Sizes(s);
    Sizes(Apply(s, op).0);
    var t := Touched(s, op);
    if t.Some? {
      TouchWithin(GenOf(s), t.value, b);
    }
    assert GenOf(Apply(s, op).0).cap == s.cap;
  }

  /** Starting from the flush of `s`, everything that was live is hot. */
  lemma StartedSizes(s: Store, hops: map<HopKey, HopTemplate>)
    requires Structural(s)
    ensures Structural(StartedFrom(s, hops)) && StartedFrom(s, hops).hot.Keys == Live(s)
    ensures LiveCount(s) == |Live(s)| == |StartedFrom(s, hops).hot|
  {
    OwnRoutes(s);
    Sizes(s);
    Sizes(StartedFrom(s, hops));
    assert Reloaded(Routes(s)).Keys == Routes(s).Keys;
  }

  lemma WithinStarted(s: Store, t: Store, b: nat)
    requires Within(s, b) && t == StartedFrom(s, t.hops)
    ensures Within(t, b + s.cap) && t.cap == s.cap
  {
    StartedSizes(s, t.hops);
    assert t.cold == map[];
  }

  lemma WithinRestart(w: World, t: Store, b: nat)
    requires WorldWithin(w, b) && IsStart(w, t)
    ensures Within(t, b + w.store.cap) && t.cap == w.store.cap
  {
    if w.disk.Some? {
      var s :| Within(s, b) && s.cap == w.store.cap && FlushOf(w.disk.value, s);
      StartsFromFlush(w, s, t);
      WithinStarted(s, t, b);
    }
  }

  lemma WorldWithinStep(w: World, op: WorldOp, b: nat)
    requires WorldWithin(w, b) && CanHappen(w, op)
    ensures After(w, op).store.cap == w.store.cap
    ensures WorldWithin(After(w, op), if op.Restart? then b + w.store.cap else b)
  {
    match op
    case InRam(o) => WithinStep(w.store, o, b);
    case Flush(file) => assert Within(w.store, b) && FlushOf(file, w.store);
    case Restart(t) =>
      WithinRestart(w, t, b);
      if w.disk.Some? {
        var s :| Within(s, b) && s.cap == w.store.cap && FlushOf(w.disk.value, s);
        assert Within(s, b + w.store.cap);
      }
  }

  /** The limit `b` raised by one capacity at every restart. */
  function Raised(b: nat, cap: Cap, ops: seq<WorldOp>): nat
    decreases |ops|
  {
    if ops == [] then b else Raised(if ops[0].Restart? then b + cap else b, cap, ops[1..])
  }

  lemma {:induction false} RaisedBy(b: nat, cap: Cap, ops: seq<WorldOp>)
    ensures Raised(b, cap, ops) == b + RestartsIn(ops) * cap
    decreases |ops|
  {
    if ops != [] {
      RaisedBy(if ops[0].Restart? then b + cap else b, cap, ops[1..]);
      Distribute(Processes().cost(ops[0]), RestartsIn(ops[1..]), cap);
    }
  }

  lemma {:induction false} WithinRun(w: World, ops: seq<WorldOp>, w': World, b: nat)
    requires WorldWithin(w, b) && Leads(Processes(), w, ops, w')
    ensures WorldWithin(w', Raised(b, w.store.cap, ops)) && w'.store.cap == w.store.cap
    decreases |ops|
  {
    if ops != [] {
      WorldWithinStep(w, ops[0], b);
      WithinRun(Processes().step(w, ops[0]), ops[1..], w', if ops[0].Restart? then b + w.store.cap else b);
    }
  }

  lemma Distribute(m: nat, n: nat, c: nat)
    ensures (m + n) * c == m * c + n * c
  {
  }

  /** Over any run with `r` restarts the store holds at most `(r + 2) * cap` routes: with none, the
      documented two generations; each restart may add one more. */
  lemma GrowthBound(cap: Cap, ops: seq<WorldOp>, w: World)
    requires Reaches(cap, ops, w)
    ensures LiveCount(w.store) <= (RestartsIn(ops) + 2) * cap
  {
    WithinRun(NewWorld(cap), ops, w, cap);
    RaisedBy(cap, cap, ops);
    Distribute(RestartsIn(ops), 2, cap);
  }

  // ── And the growth happens ────────────────────────────────────────────────

  function InRams(ops: seq<Op>): seq<WorldOp> {
    seq(|ops|, i requires 0 <= i < |ops| => InRam(ops[i]))
  }

  lemma {:induction false} InRamRun(w: World, ops: seq<Op>, s: Store)
    requires s == Exec(w.store, ops)
    ensures Leads(Processes(), w, InRams(ops), w.(store := s)) && RestartsIn(InRams(ops)) == 0
    decreases |ops|
  {
    if ops != [] {
      var s' := Apply(w.store, ops[0]).0;
      assert InRams(ops)[1..] == InRams(ops[1..]) && InRams(ops)[0] == InRam(ops[0]);
      InRamRun(w.(store := s'), ops[1..], s);
      assert Processes().step(w, InRam(ops[0])) == w.(store := s');
    }
  }

  /** From a full hot generation and an empty cold one, a run of `cap` new routes keeps all of them. */
  lemma FillOnce(s: Store) returns (ops: seq<Op>)
    requires Structural(s) && s.cold == map[] && |s.hot| >= s.cap && |s.hot| + s.cap <= TWO128
    ensures Structural(Exec(s, ops)) && Exec(s, ops).cap == s.cap
    ensures LiveCount(Exec(s, ops)) == |s.hot| + s.cap
  {
    Sizes(s);
    assert G.Live(GenOf(s)) == s.hot.Keys;
    var xs := G.FreshSigs(s.hot.Keys, s.cap);
    G.RotateAndFill(GenOf(s), xs);
    ops := RunWithTouches(s, xs);
    ExecTouches(s, ops);
    Sizes(Exec(s, ops));
    StructuralRun(s, ops);
    CapKept(s, ops);
  }

  /** A new store filled with one generation of routes. */
  lemma FillNew(cap: Cap) returns (ops: seq<Op>)
    requires cap <= TWO128
    ensures var e := Exec(EmptyStore(cap), ops);
            Structural(e) && e.cap == cap && |e.hot| == cap && e.cold == map[]
  {
    var s := EmptyStore(cap);
    var xs := G.FreshSigs({}, cap);
    G.Fill(GenOf(s), xs);
    ops := RunWithTouches(s, xs);
    ExecTouches(s, ops);
    Sizes(Exec(s, ops));
    StructuralRun(s, ops);
    CapKept(s, ops);
    assert Exec(s, ops).cold.Keys == {};
  }

  lemma {:induction false} SomeListing<K, V, R>(m: map<K, V>, f: V -> R) returns (rs: seq<R>)
    ensures Listing.Lists(rs, m, f)
    decreases |m|
  {
    if m == map[] {
      rs := [];
    } else {
      var k :| k in m;
      var rest := m - {k};
      assert rest.Keys == m.Keys - {k} && |rest| == |rest.Keys| && |m| == |m.Keys|;
      var l := SomeListing(rest, f);
      rs := l + [f(m[k])];
      Listing.ListsOneMore(l, m, k, f);
    }
  }

  /** One flush and restart, then `cap` new routes. */
  lemma Cycle(w: World) returns (ops: seq<WorldOp>, e: World)
    requires Structural(w.store) && LiveCount(w.store) >= w.store.cap && LiveCount(w.store) + w.store.cap <= TWO128
    ensures Leads(Processes(), w, ops, e) && RestartsIn(ops) == 1
    ensures Structural(e.store) && e.store.cap == w.store.cap
    ensures LiveCount(e.store) == LiveCount(w.store) + w.store.cap
  {
    var records := SomeListing(Routes(w.store), FromTemplate);
    var file := RouteFile(records, PrintedPairs(w.store.index));
    var t := StartedFrom(w.store, map[]);
    StartsFromFlush(World(w.store, Some(file)), w.store, t);
    StartedSizes(w.store, map[]);
    var fill := FillOnce(t);
    e := World(Exec(t, fill), Some(file));
    ops := FlushRestartRun(w, file, t, fill, e.store);
  }

  lemma FlushRestartRun(w: World, file: RouteFile, t: Store, fill: seq<Op>, s: Store) returns (ops: seq<WorldOp>)
    requires CanHappen(w, Flush(file)) && IsStart(World(w.store, Some(file)), t) && s == Exec(t, fill)
    ensures Leads(Processes(), w, ops, World(s, Some(file))) && RestartsIn(ops) == 1
  {
    var m := Processes();
    var w1, w2 := World(w.store, Some(file)), World(t, Some(file));
    One(m, w, Flush(file));
    One(m, w1, Restart(t));
    Join(m, w, [Flush(file)], w1, [Restart(t)], w2);
    InRamRun(w2, fill, s);
    ops := [Flush(file)] + [Restart(t)] + InRams(fill);
    Join(m, w, [Flush(file)] + [Restart(t)], w2, InRams(fill), World(s, Some(file)));
  }

  /** The bound is reached for every number of restarts, as long as there are signatures left: across
      restarts the store is not bounded by the documented two generations. */
  lemma {:induction false} GrowthIsTight(cap: Cap, r: nat) returns (ops: seq<WorldOp>, w: World)
    requires (r + 2) * cap <= TWO128
    ensures Reaches(cap, ops, w) && RestartsIn(ops) == r
    ensures Structural(w.store) && w.store.cap == cap && LiveCount(w.store) == (r + 2) * cap
    decreases r
  {
    if r == 0 {
      ops, w := TwoGenerations(cap);
    } else {
      assert (r + 2) * cap == (r + 1) * cap + cap && (r + 1) * cap >= cap;
      var before, w0 := GrowthIsTight(cap, r - 1);
      var more, e := Cycle(w0);
      Join(Processes(), NewWorld(cap), before, w0, more, e);
      ops, w := before + more, e;
    }
  }

  lemma TwoGenerations(cap: Cap) returns (ops: seq<WorldOp>, w: World)
    requires 2 * cap <= TWO128
    ensures Reaches(cap, ops, w) && RestartsIn(ops) == 0
    ensures Structural(w.store) && w.store.cap == cap && LiveCount(w.store) == 2 * cap
  {
    var first := FillNew(cap);
    var s := Exec(EmptyStore(cap), first);
    var second := FillOnce(s);
    var e := Exec(s, second);
    InRamRun(NewWorld(cap), first, s);
    InRamRun(World(s, None), second, e);
    Join(Processes(), NewWorld(cap), InRams(first), World(s, None), InRams(second), World(e, None));
    ops, w := InRams(first) + InRams(second), World(e, None);
  }
}
