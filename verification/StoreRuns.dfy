/** Whole runs of the template store, as runs of its two generations. */
module StoreRuns {
  import opened Options
  import opened Words
  import opened RoutePlan
  import opened TemplateStore
  import G = Generations

  /** An operation as the store performs it: of a plan it sees the pair key and the hop keys, of an
      instruction the template built from it. */
  datatype Op =
    | GetRoute(sig: u128)
    | GetRouteForHops(pairKey: Option<string>)
    | InsertRoute(built: RouteTemplate, pairKey: Option<string>)
    | RecordRouteHit(sig: u128)
    | RecordAllHops(keys: seq<Option<HopKey>>, slot: Option<u64>)

  /** One operation: the new store, and the template a lookup returns. */
  function Apply(s: Store, op: Op): (Store, Option<RouteTemplate>) {
    match op
    case GetRoute(sig) => Get(s, sig)
    case GetRouteForHops(k) => GetForHops(s, k)
    case InsertRoute(t, k) => (Insert(s, t, k), None)
    case RecordRouteHit(sig) => (RecordHit(s, sig), None)
    case RecordAllHops(keys, slot) => (s.(hops := RecordHops(s.hops, keys, slot)), None)
  }

  function Exec(s: Store, ops: seq<Op>): Store
    decreases |ops|
  {
    if ops == [] then s else Exec(Apply(s, ops[0]).0, ops[1..])
  }

  // ── The generations behind the store ──────────────────────────────────────

  function GenOf(s: Store): G.Gen {
    G.Gen(s.cap, s.hot.Keys, s.cold.Keys)
  }

  /** The live signatures. */
  function Live(s: Store): set<u128> {
    G.Live(GenOf(s))
  }

  /** A touch: a successful lookup or the insertion of a new route. */
  function Touched(s: Store, op: Op): Option<u128> {
    match op
    case GetRoute(sig) => if sig in Live(s) then Some(sig) else None
    case GetRouteForHops(k) =>
      if k.Some? && k.value in s.index && s.index[k.value] in Live(s) then Some(s.index[k.value]) else None
    case InsertRoute(t, _) => if t.routeSignature !in Live(s) then Some(t.routeSignature) else None
    case _ => None
  }

  function Touches(s: Store, ops: seq<Op>): seq<u128>
    decreases |ops|
  {
    if ops == [] then []
    else
      var t := Touched(s, ops[0]);
      (if t.Some? then [t.value] else []) + Touches(Apply(s, ops[0]).0, ops[1..])
  }

  lemma MapKeys<K, V>(m: map<K, V>, k: K, v: V)
    ensures m[k := v].Keys == m.Keys + {k}
    ensures map[k := v].Keys == {k}
    ensures (m - {k}).Keys == m.Keys - {k}
    ensures |m| == |m.Keys|
  {
  }

  lemma UpdateKeepsKeys<K, V>(m: map<K, V>, k: K, v: V)
    requires k in m
    ensures m[k := v].Keys == m.Keys
  {
  }

  lemma PushTouches(s: Store, sig: u128, t: RouteTemplate)
    requires sig !in s.hot
    ensures GenOf(PushHot(s.(cold := s.cold - {sig}), sig, t)) == G.Touch(GenOf(s), sig)
    ensures sig !in s.cold ==> GenOf(PushHot(s, sig, t)) == G.Touch(GenOf(s), sig)
  {
    MapKeys(s.hot, sig, t);
    MapKeys(s.cold, sig, t);
    assert sig !in s.cold ==> s.cold.Keys - {sig} == s.cold.Keys;
  }

  lemma GetTouches(s: Store, sig: u128)
    ensures GenOf(Get(s, sig).0) == if sig in Live(s) then G.Touch(GenOf(s), sig) else GenOf(s)
  {
    if sig in s.cold && sig !in s.hot {
      PushTouches(s, sig, Promoted(s, sig));
      assert Get(s, sig).0 == PushHot(s.(cold := s.cold - {sig}), sig, Promoted(s, sig));
    }
  }

  lemma InsertTouches(s: Store, t: RouteTemplate, k: Option<string>)
    ensures GenOf(Insert(s, t, k)) == if t.routeSignature !in Live(s) then G.Touch(GenOf(s), t.routeSignature) else GenOf(s)
  {
    var sig := t.routeSignature;
    if sig in s.hot {
      UpdateKeepsKeys(s.hot, sig, SeenAgain(s.hot[sig], t.templateIn, t.swapIxs));
    } else if sig in s.cold {
      UpdateKeepsKeys(s.cold, sig, SeenAgain(s.cold[sig], t.templateIn, t.swapIxs));
    } else {
      PushTouches(s, sig, t);
    }
  }

  lemma RecordHitTouchesNothing(s: Store, sig: u128)
    ensures GenOf(RecordHit(s, sig)) == GenOf(s)
  {
    if sig in s.hot {
      UpdateKeepsKeys(s.hot, sig, s.hot[sig].(hits := s.hot[sig].hits + 1));
    } else if sig in s.cold {
      UpdateKeepsKeys(s.cold, sig, s.cold[sig].(hits := s.cold[sig].hits + 1));
    }
  }

  /** Every operation moves the generations exactly as its touch does. */
  lemma ApplyTouches(s: Store, op: Op)
    ensures GenOf(Apply(s, op).0)
            == match Touched(s, op) case None => GenOf(s) case Some(x) => G.Touch(GenOf(s), x)
  {
    match op
    case GetRoute(sig) => GetTouches(s, sig);
    case GetRouteForHops(k) =>
      if k.Some? && k.value in s.index {
        GetTouches(s, s.index[k.value]);
      }
    case InsertRoute(t, k) => InsertTouches(s, t, k);
    case RecordRouteHit(sig) => RecordHitTouchesNothing(s, sig);
    case RecordAllHops(_, _) =>
  }

  /** So a run of the store is, for its generations, the run of its touches. */
  lemma {:induction false} ExecTouches(s: Store, ops: seq<Op>)
    ensures GenOf(Exec(s, ops)) == G.Run(GenOf(s), Touches(s, ops))
    decreases |ops|
  {
    if ops != [] {
      var s', rest := Apply(s, ops[0]).0, Touches(Apply(s, ops[0]).0, ops[1..]);
      ApplyTouches(s, ops[0]);
      ExecTouches(s', ops[1..]);
      var t := Touched(s, ops[0]);
      RunFirst(GenOf(s), t, rest);
    }
  }

  lemma RunFirst(g: G.Gen, t: Option<u128>, rest: seq<u128>)
    ensures G.Run(g, (if t.Some? then [t.value] else []) + rest)
            == G.Run(match t case None => g case Some(x) => G.Touch(g, x), rest)
  {
    if t.Some? {
      assert ([t.value] + rest)[1..] == rest;
    } else {
      assert [] + rest == rest;
    }
  }

  /** An operation that touches `x`: a lookup of a live route, an insert of any other. */
  function TouchOp(s: Store, x: u128): (op: Op)
    ensures Touched(s, op) == Some(x)
  {
    var ixs := SwapInstructions([], [], Instruction("", [], Malformed("")), None, []);
    if x in Live(s) then GetRoute(x)
    else InsertRoute(RouteTemplate(x, ixs, 0, 0, None, None, map[0 := ixs], 1, 0), None)
  }

  /** Every sequence of touches is that of some run. */
  lemma {:induction false} RunWithTouches(s: Store, xs: seq<u128>) returns (ops: seq<Op>)
    ensures Touches(s, ops) == xs
    decreases |xs|
  {
    if xs == [] {
      ops := [];
    } else {
      var op := TouchOp(s, xs[0]);
      var rest := RunWithTouches(Apply(s, op).0, xs[1..]);
      ops := [op] + rest;
      assert ops[0] == op && ops[1..] == rest;
      assert xs == [xs[0]] + xs[1..];
    }
  }

  // ── Structure ─────────────────────────────────────────────────────────────

  /** Every template of a generation carries its own key. */
  ghost predicate OwnKeys(m: map<u128, RouteTemplate>) {
    forall k :: k in m ==> m[k].routeSignature == k
  }

  /** No signature is in both generations, and every template carries its own key. */
  ghost predicate Structural(s: Store) {
    s.hot.Keys !! s.cold.Keys && OwnKeys(s.hot) && OwnKeys(s.cold)
  }

  lemma OwnUpdate(m: map<u128, RouteTemplate>, k: u128, t: RouteTemplate)
    requires OwnKeys(m) && t.routeSignature == k
    ensures OwnKeys(m[k := t]) && OwnKeys(map[k := t]) && OwnKeys(m - {k})
  {
  }

  lemma OwnKeysAfterGet(s: Store, sig: u128)
    requires OwnKeys(s.hot) && OwnKeys(s.cold)
    ensures OwnKeys(Get(s, sig).0.hot) && OwnKeys(Get(s, sig).0.cold)
    ensures Get(s, sig).1.Some? <==> sig in Live(s)
    ensures Get(s, sig).1.Some? ==> Get(s, sig).1.value.routeSignature == sig
  {
    if sig in s.cold {
      OwnUpdate(s.hot, sig, Promoted(s, sig));
      OwnUpdate(s.cold, sig, s.cold[sig]);
    }
  }

  lemma OwnKeysAfterInsert(s: Store, t: RouteTemplate, k: Option<string>)
    requires OwnKeys(s.hot) && OwnKeys(s.cold)
    ensures OwnKeys(Insert(s, t, k).hot) && OwnKeys(Insert(s, t, k).cold)
  {
    var sig := t.routeSignature;
    if sig in s.hot {
      OwnUpdate(s.hot, sig, SeenAgain(s.hot[sig], t.templateIn, t.swapIxs));
    } else if sig in s.cold {
      OwnUpdate(s.cold, sig, SeenAgain(s.cold[sig], t.templateIn, t.swapIxs));
    } else {
      OwnUpdate(s.hot, sig, t);
    }
  }

  lemma OwnKeysAfterHit(s: Store, sig: u128)
    requires OwnKeys(s.hot) && OwnKeys(s.cold)
    ensures OwnKeys(RecordHit(s, sig).hot) && OwnKeys(RecordHit(s, sig).cold)
  {
    if sig in s.hot {
      OwnUpdate(s.hot, sig, s.hot[sig].(hits := s.hot[sig].hits + 1));
    } else if sig in s.cold {
      OwnUpdate(s.cold, sig, s.cold[sig].(hits := s.cold[sig].hits + 1));
    }
  }

  /** One operation keeps the structure; a lookup answers exactly when it touches, with that route. */
  lemma StructuralStep(s: Store, op: Op)
    requires Structural(s)
    ensures Structural(Apply(s, op).0)
    ensures op.GetRoute? || op.GetRouteForHops? ==> (Apply(s, op).1.Some? <==> Touched(s, op).Some?)
    ensures Apply(s, op).1.Some? ==> Some(Apply(s, op).1.value.routeSignature) == Touched(s, op)
  {
    ApplyTouches(s, op);
    TouchKeepsDisjoint(s, op);
    match op
    case GetRoute(sig) => OwnKeysAfterGet(s, sig);
    case GetRouteForHops(k) =>
      if k.Some? && k.value in s.index {
        OwnKeysAfterGet(s, s.index[k.value]);
      }
    case InsertRoute(t, k) => OwnKeysAfterInsert(s, t, k);
    case RecordRouteHit(sig) => OwnKeysAfterHit(s, sig);
    case RecordAllHops(_, _) =>
  }

  lemma TouchKeepsDisjoint(s: Store, op: Op)
    requires s.hot.Keys !! s.cold.Keys
    ensures Apply(s, op).0.hot.Keys !! Apply(s, op).0.cold.Keys
  {
    ApplyTouches(s, op);
    var g := GenOf(Apply(s, op).0);
    assert g.hot !! g.cold;
  }

  /** Every state reached from a structured store is structured. */
  lemma {:induction false} StructuralRun(s: Store, ops: seq<Op>)
    requires Structural(s)
    ensures Structural(Exec(s, ops))
    decreases |ops|
  {
    if ops != [] {
      StructuralStep(s, ops[0]);
      StructuralRun(Apply(s, ops[0]).0, ops[1..]);
    }
  }

  /** So `route_count` is the number of distinct live signatures in every reachable state. */
  lemma RouteCountDistinct(s: Store, ops: seq<Op>)
    requires Structural(s)
    ensures |Exec(s, ops).hot| + |Exec(s, ops).cold| == |Live(Exec(s, ops))|
  {
    StructuralRun(s, ops);
    Sizes(Exec(s, ops));
  }

  lemma Sizes(s: Store)
    ensures |s.hot| == |s.hot.Keys| && |s.cold| == |s.cold.Keys|
  {
  }

  // ── Occupancy and recency of the store ────────────────────────────────────

  /** Occupancy in every state after a start with loaded routes: at most the load (or one generation,
      if larger) plus one generation, and two generations again from the second rotation on. */
  lemma Occupancy(s: Store, ops: seq<Op>)
    requires s.cold == map[]
    ensures var e := Exec(s, ops);
            && |e.hot| + |e.cold| <= G.Max(|s.hot|, s.cap) + s.cap
            && (G.Rotations(GenOf(s), Touches(s, ops)) >= 2 ==> |e.hot| <= s.cap && |e.cold| <= s.cap)
            && (|s.hot| <= s.cap ==> |e.hot| <= s.cap && |e.cold| <= s.cap)
  {
    Sizes(s);
    Sizes(Exec(s, ops));
    assert s.cold.Keys == {};
    ExecTouches(s, ops);
    G.OccupancyBound(GenOf(s), Touches(s, ops));
  }

  /** The documented limit "hot + cold <= 2 x" holds in every later state exactly when no more than one
      generation was loaded. */
  lemma DocumentedLimitExact(s: Store)
    requires s.cold == map[] && |s.hot| + s.cap <= TWO128
    ensures (forall ops :: |Exec(s, ops).hot| + |Exec(s, ops).cold| <= 2 * s.cap) <==> |s.hot| <= s.cap
  {
    Sizes(s);
    assert s.cold.Keys == {};
    if |s.hot| <= s.cap {
      forall ops
        ensures |Exec(s, ops).hot| + |Exec(s, ops).cold| <= 2 * s.cap
      {
        Occupancy(s, ops);
      }
    } else {
      G.DocumentedLimitExact(GenOf(s));
      var xs :| |G.Run(GenOf(s), xs).hot| + |G.Run(GenOf(s), xs).cold| > 2 * s.cap;
      var ops := RunWithTouches(s, xs);
      ExecTouches(s, ops);
      Sizes(Exec(s, ops));
    }
  }

  /** Recency: after a touch, a route stays retrievable for as long as at most `cap` distinct other
      routes are touched, whatever the run and the store it started from. */
  lemma RecentlyTouchedIsLive(s: Store, touch: Op, ops: seq<Op>, sig: u128)
    requires Touched(s, touch) == Some(sig)
    requires |G.Elements(Touches(Apply(s, touch).0, ops)) - {sig}| <= s.cap
    ensures Exec(s, [touch] + ops).cap == s.cap && sig in Live(Exec(s, [touch] + ops))
  {
    var s' := Apply(s, touch).0;
    ApplyTouches(s, touch);
    assert s'.cap == G.Touch(GenOf(s), sig).cap == s.cap;
    ExecTouches(s', ops);
    G.RecentlyTouchedIsLive(GenOf(s), sig, Touches(s', ops));
    assert ([touch] + ops)[0] == touch && ([touch] + ops)[1..] == ops;
    CapKept(s', ops);
    assert GenOf(Exec(s', ops)).hot == Exec(s', ops).hot.Keys;
  }

  lemma {:induction false} CapKept(s: Store, ops: seq<Op>)
    ensures Exec(s, ops).cap == s.cap
    decreases |ops|
  {
    if ops != [] {
      ApplyTouches(s, ops[0]);
      assert GenOf(Apply(s, ops[0]).0).cap == s.cap;
      CapKept(Apply(s, ops[0]).0, ops[1..]);
    }
  }

  /** The bound is tight: from a full hot generation some run of `cap + 1` other touches evicts it. */
  lemma RecencyIsTight(s: Store) returns (ops: seq<Op>)
    requires |s.hot| >= s.cap && |Live(s)| + s.cap + 1 <= TWO128
    ensures |G.Elements(Touches(s, ops))| == s.cap + 1 && G.Elements(Touches(s, ops)) !! Live(s)
    ensures Live(Exec(s, ops)) !! s.hot.Keys
  {
    Sizes(s);
    var xs := G.RecencyIsTight(GenOf(s));
    ops := RunWithTouches(s, xs);
    ExecTouches(s, ops);
  }

  /** The store holds every route a true LRU cache of capacity `cap + 1`, fed the same touches, holds. */
  lemma AtLeastLru(s: Store, ops: seq<Op>)
    ensures G.LruKeeps(GenOf(s), Touches(s, ops)) <= Live(Exec(s, ops))
  {
    ExecTouches(s, ops);
    G.AtLeastLru(GenOf(s), Touches(s, ops), GenOf(Exec(s, ops)));
  }

  lemma GetKeepsRest(s: Store, sig: u128)
    ensures Get(s, sig).0.hops == s.hops && Get(s, sig).0.index == s.index
  {
    if sig in s.cold && sig !in s.hot {
      PushKeepsRest(s.(cold := s.cold - {sig}), sig, Promoted(s, sig));
    }
  }

  lemma PushKeepsRest(s: Store, sig: u128, t: RouteTemplate)
    ensures PushHot(s, sig, t).hops == s.hops && PushHot(s, sig, t).index == s.index
  {
  }

  lemma InsertKeepsHops(s: Store, t: RouteTemplate, k: Option<string>)
    ensures Insert(s, t, k).hops == s.hops
  {
  }

  /** Only recording touches the hop map. */
  lemma HopsAfter(s: Store, op: Op)
    ensures Apply(s, op).0.hops == if op.RecordAllHops? then RecordHops(s.hops, op.keys, op.slot) else s.hops
  {
    match op
    case GetRoute(sig) => GetKeepsRest(s, sig);
    case GetRouteForHops(k) =>
      if k.Some? && k.value in s.index {
        GetKeepsRest(s, s.index[k.value]);
      }
    case InsertRoute(t, k) => InsertKeepsHops(s, t, k);
    case _ =>
  }

  /** Once bound, a hop-pair entry never changes. */
  lemma {:induction false} IndexNeverChanges(s: Store, ops: seq<Op>, k: string)
    requires k in s.index
    ensures k in Exec(s, ops).index && Exec(s, ops).index[k] == s.index[k]
    decreases |ops|
  {
    if ops != [] {
      IndexStep(s, ops[0], k);
      IndexNeverChanges(Apply(s, ops[0]).0, ops[1..], k);
    }
  }

  lemma IndexStep(s: Store, op: Op, k: string)
    requires k in s.index
    ensures k in Apply(s, op).0.index && Apply(s, op).0.index[k] == s.index[k]
  {
  }
}
