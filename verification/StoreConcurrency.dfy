/** Lookups that take the store's lock more than once, interleaved with everything else
    (`get_route`, `get_route_for_hops` of `src/template_cache.rs`). */
module StoreConcurrency {
  import opened Options
  import opened Words
  import opened TemplateStore
  import opened StoreRuns
  import G = Generations

  /** Where a thread stands: outside, or inside a lookup of `sig` that must still take the read lock,
      or the write lock. */
  datatype Pc = Idle | AtRead(call: Op, sig: u128) | AtWrite(call: Op, sig: u128)

  datatype System = System(store: Store, pcs: seq<Pc>)

  /** One locked section of some thread. */
  datatype Event =
    | Begin(tid: nat, call: Op)   // a lookup starts; by hops, it reads the index under the read lock
    | ReadLocked(tid: nat)        // the read-locked section of get_route
    | WriteLocked(tid: nat)       // its write-locked section
    | Atomic(op: Op)              // insert, hit or hop recording: one write-locked section

  /** A completed operation and what it returned. */
  datatype Entry = Entry(op: Op, result: Option<RouteTemplate>)

  predicate IsLookup(op: Op) {
    op.GetRoute? || op.GetRouteForHops?
  }

  predicate Enabled(c: System, e: Event) {
    match e
    case Begin(tid, call) => tid < |c.pcs| && c.pcs[tid].Idle? && IsLookup(call)
    case ReadLocked(tid) => tid < |c.pcs| && c.pcs[tid].AtRead?
    case WriteLocked(tid) => tid < |c.pcs| && c.pcs[tid].AtWrite?
    case Atomic(op) => !IsLookup(op)
  }

  /** The next state, and the operation the section completes, if it completes one. */
  function Next(c: System, e: Event): (System, Option<Entry>)
    requires Enabled(c, e)
  {
    match e
    case Begin(tid, GetRoute(sig)) => (c.(pcs := c.pcs[tid := AtRead(GetRoute(sig), sig)]), None)
    case Begin(tid, GetRouteForHops(k)) =>
      if k.Some? && k.value in c.store.index
      then (c.(pcs := c.pcs[tid := AtRead(GetRouteForHops(k), c.store.index[k.value])]), None)
      else (c, Some(Entry(GetRouteForHops(k), None)))
    case ReadLocked(tid) =>
      var pc := c.pcs[tid];
      (match ReadSection(c.store, pc.sig)
       case Some(answer) => (c.(pcs := c.pcs[tid := Idle]), Some(Entry(pc.call, answer)))
       case None => (c.(pcs := c.pcs[tid := AtWrite(pc.call, pc.sig)]), None))
    case WriteLocked(tid) =>
      var pc := c.pcs[tid];
      var (store, answer) := WriteSection(c.store, pc.sig);
      (System(store, c.pcs[tid := Idle]), Some(Entry(pc.call, answer)))
    case Atomic(op) =>
      var (store, answer) := Apply(c.store, op);
      (c.(store := store), Some(Entry(op, answer)))
  }

  /** Every event of a run can happen when its turn comes. */
  ghost predicate Possible(c: System, events: seq<Event>)
    decreases |events|
  {
    events == [] || (Enabled(c, events[0]) && Possible(Next(c, events[0]).0, events[1..]))
  }

  /** The end state of a run and its completed operations, in the order they complete. */
  function RunOf(c: System, events: seq<Event>): (System, seq<Entry>)
    requires Possible(c, events)
    decreases |events|
  {
    if events == [] then (c, [])
    else
      var (c', done) := Next(c, events[0]);
      var (end, log) := RunOf(c', events[1..]);
      (end, (if done.Some? then [done.value] else []) + log)
  }

  /** Performing the logged operations one after the other, each in one step, gives the logged results
      and ends in `e`. */
  ghost predicate Sequential(s: Store, log: seq<Entry>, e: Store)
    decreases |log|
  {
    if log == [] then s == e
    else Apply(s, log[0].op).1 == log[0].result && Sequential(Apply(s, log[0].op).0, log[1..], e)
  }

  /** A thread inside a lookup looks up the signature its call denotes. */
  ghost predicate PcOk(s: Store, pc: Pc) {
    match pc
    case Idle => true
    case AtRead(call, sig) => Denotes(s, call, sig)
    case AtWrite(call, sig) => Denotes(s, call, sig)
  }

  ghost predicate Denotes(s: Store, call: Op, sig: u128) {
    match call
    case GetRoute(x) => x == sig
    case GetRouteForHops(k) => k.Some? && k.value in s.index && s.index[k.value] == sig
    case _ => false
  }

  ghost predicate Inv(c: System) {
    && Structural(c.store)
    && forall i :: 0 <= i < |c.pcs| ==> PcOk(c.store, c.pcs[i])
  }

  /** With no signature in both generations, the write section is the whole lookup. */
  lemma WriteSectionIsGet(s: Store, call: Op, sig: u128)
    requires s.hot.Keys !! s.cold.Keys && Denotes(s, call, sig)
    ensures WriteSection(s, sig) == Get(s, sig) == Apply(s, call)
  {
    assert sig in s.cold ==> sig !in s.hot by {
      assert sig in s.cold ==> sig in s.cold.Keys;
    }
  }

  /** A read section that answers is the whole lookup, and moves nothing. */
  lemma ReadSectionIsGet(s: Store, call: Op, sig: u128)
    requires Denotes(s, call, sig) && ReadSection(s, sig).Some?
    ensures Apply(s, call) == (s, ReadSection(s, sig).value)
  {
  }

  /** What a section completes is one atomic operation on the store at that moment; a section that
      completes nothing leaves the store alone. */
  lemma SectionIsAtomic(c: System, e: Event)
    requires Inv(c) && Enabled(c, e)
    ensures var (c', done) := Next(c, e);
            match done
            case Some(entry) => Apply(c.store, entry.op) == (c'.store, entry.result)
            case None => c'.store == c.store
  {
    match e
    case Begin(_, _) =>
    case ReadLocked(tid) =>
      assert PcOk(c.store, c.pcs[tid]);
      if ReadSection(c.store, c.pcs[tid].sig).Some? {
        ReadSectionIsGet(c.store, c.pcs[tid].call, c.pcs[tid].sig);
      }
    case WriteLocked(tid) =>
      assert PcOk(c.store, c.pcs[tid]);
      WriteSectionIsGet(c.store, c.pcs[tid].call, c.pcs[tid].sig);
    case Atomic(_) =>
  }

  lemma InvNext(c: System, e: Event)
    requires Inv(c) && Enabled(c, e)
    ensures Inv(Next(c, e).0)
  {
    var (c', done) := Next(c, e);
    SectionIsAtomic(c, e);
    if done.Some? {
      StructuralStep(c.store, done.value.op);
    }
    forall i | 0 <= i < |c'.pcs|
      ensures PcOk(c'.store, c'.pcs[i])
    {
      assert PcOk(c.store, c.pcs[i]);
      if done.Some? {
        PcKept(c.store, done.value.op, c.pcs[i]);
      }
    }
  }

  lemma PcKept(s: Store, op: Op, pc: Pc)
    requires PcOk(s, pc)
    ensures PcOk(Apply(s, op).0, pc)
  {
    if !pc.Idle? && pc.call.GetRouteForHops? {
      IndexStep(s, op, pc.call.pairKey.value);
    }
  }

  /** Linearizability: every interleaving of the locked sections of lookups with each other and with
      inserts has the results and the end state of performing its operations one at a time, each at one
      of its own sections; and no signature is ever in both generations. */
  lemma {:induction false} Linearizable(c: System, events: seq<Event>)
    requires Inv(c) && Possible(c, events)
    ensures var (end, log) := RunOf(c, events);
            Sequential(c.store, log, end.store) && Inv(end)
    decreases |events|
  {
    if events != [] {
      var (c', done) := Next(c, events[0]);
      SectionIsAtomic(c, events[0]);
      InvNext(c, events[0]);
      Linearizable(c', events[1..]);
      var (end, log) := RunOf(c', events[1..]);
      var first := if done.Some? then [done.value] else [];
      if done.Some? {
        assert (first + log)[1..] == log;
      } else {
        assert first + log == log;
      }
    }
  }

  /** Hence all that holds of every sequential run holds of every interleaving: the end state is that
      of a run of the logged operations. */
  lemma {:induction false} SequentialIsExec(s: Store, log: seq<Entry>, e: Store)
    requires Sequential(s, log, e)
    ensures e == Exec(s, OpsOf(log))
    decreases |log|
  {
    if log != [] {
      SequentialIsExec(Apply(s, log[0].op).0, log[1..], e);
      assert OpsOf(log)[0] == log[0].op && OpsOf(log)[1..] == OpsOf(log[1..]);
    }
  }

  function OpsOf(log: seq<Entry>): (ops: seq<Op>)
    ensures |ops| == |log|
  {
    seq(|log|, i requires 0 <= i < |log| => log[i].op)
  }

  /** A promoted route is in the hot generation afterwards, even when promoting it rotates. */
  lemma PromotedIsHot(s: Store, sig: u128)
    requires sig in s.cold
    ensures sig in WriteSection(s, sig).0.hot
    ensures WriteSection(s, sig).0.hot[sig] == Promoted(s, sig) && WriteSection(s, sig).1 == Some(Promoted(s, sig))
  {
  }

  /** Racing readers promote once: until the hot generation rotates, the write section of every later
      reader of the same route finds it hot and changes nothing. */
  lemma PromotedOnce(s: Store, sig: u128, ops: seq<Op>)
    requires Structural(s) && sig in s.cold
    requires var s' := WriteSection(s, sig).0;
             G.Rotations(GenOf(s'), Touches(s', ops)) == 0
    ensures var e := Exec(WriteSection(s, sig).0, ops);
            sig in e.hot && WriteSection(e, sig) == (e, Some(e.hot[sig]))
  {
    PromotedIsHot(s, sig);
    WriteSectionIsGet(s, GetRoute(sig), sig);
    StructuralStep(s, GetRoute(sig));
    var s' := WriteSection(s, sig).0;
    ExecTouches(s', ops);
    StructuralRun(s', ops);
    G.HotUntilRotation(GenOf(s'), Touches(s', ops), sig);
    var e := Exec(s', ops);
    assert sig in e.hot.Keys;
    WriteSectionIsGet(e, GetRoute(sig), sig);
  }
}
