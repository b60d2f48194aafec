/** The LIFO queue, its semaphore and its gauge (`src/arbitrage.rs`). */
module LifoQueue {
  import opened Options
  import opened Atomics
  import opened Pipeline
  import opened Sums
  import F = FunnelLaws

  /** A permit consumed and nothing popped yet, or an item pushed and no permit added yet. */
  function InUse(at: At): int {
    match at case Acquired | Pushed(_) | Announced(_) | Deepened(_) => 1 case _ => 0
  }

  function LessOne(i: Item): int { -1 }

  function PermitLaw(): Law {
    Law([Permits], None, LessOne, InUse)
  }

  /** Counted in the gauge, without a permit to show for it. */
  function InDepth(at: At): int {
    match at case Acquired | Popped(_) | Deepened(_) => 1 case _ => 0
  }

  function DepthLaw(): Law {
    Law([Permits], Some(QueueDepth), Nothing, InDepth)
  }

  /** Both laws are kept by every step but a pop from the empty queue. */
  lemma QueueMove(at: At, k: Choice, top: Option<Item>, cells: Atomics<Cell>, room: Room)
    requires Moves(at, k, top, cells, room).Some? && (at.Acquired? ==> top.Some?)
    ensures Delta(PermitLaw(), at, top, Moves(at, k, top, cells, room).value) == 0
  {
  }

  lemma DepthMove(at: At, k: Choice, top: Option<Item>, cells: Atomics<Cell>, room: Room)
    requires Moves(at, k, top, cells, room).Some? && (at.Acquired? ==> top.Some?)
    ensures Delta(DepthLaw(), at, top, Moves(at, k, top, cells, room).value) == 0
  {
  }

  /** Permits and pairs are taken only when there are any; they and the gauge are never drained. */
  ghost predicate Semaphores(a: Atomics<Cell>) {
    && Get(a.drained, Permits) == 0 && Get(a.current, Permits) >= 0
    && Get(a.drained, Pairs) == 0 && Get(a.current, Pairs) >= 0
    && Get(a.drained, QueueDepth) == 0
  }

  ghost predicate QueueOk(s: State) {
    Value(PermitLaw(), s) == 0 && Value(DepthLaw(), s) == 0 && Semaphores(s.cells)
  }

  lemma TotalOfOne(a: Atomics<Cell>, c: Cell)
    ensures TotalOf(a, [c]) == Total(a, c)
  {
    assert [c][1..] == [];
  }

  /** What the laws say: whoever acquired a permit finds an item. */
  lemma QueueFacts(s: State)
    requires QueueOk(s)
    ensures |s.lifo| == Now(s.cells, Permits) + Sum(InUse, s.agents)
    ensures Now(s.cells, QueueDepth) == Now(s.cells, Permits) + Sum(InDepth, s.agents)
    ensures Now(s.cells, Permits) >= 0 && Now(s.cells, QueueDepth) >= 0
    ensures forall i :: 0 <= i < |s.agents| && s.agents[i].Acquired? ==> s.lifo != []
  {
    TotalOfOne(s.cells, Permits);
    LessOnes(s.lifo);
    SumOfEqual(Nothing, s.lifo, 0);
    SumAtLeast(InUse, s.agents);
    SumAtLeast(InDepth, s.agents);
    forall i | 0 <= i < |s.agents| && s.agents[i].Acquired?
      ensures s.lifo != []
    {
      assert InUse(s.agents[i]) == 1;
    }
  }

  lemma {:induction false} LessOnes(xs: seq<Item>)
    ensures Sum(LessOne, xs) == -|xs|
  {
    if xs != [] {
      LessOnes(xs[1..]);
    }
  }

  /** Only what is there is taken. */
  lemma TakesWhatIsThere(at: At, k: Choice, top: Option<Item>, cells: Atomics<Cell>, room: Room)
    requires Moves(at, k, top, cells, room).Some?
    ensures var e := Moves(at, k, top, cells, room).value;
            e.change >= 0 || e.cell.QueueDepth? || Now(cells, e.cell) + e.change >= 0
  {
  }

  lemma SemaphoresBump(a: Atomics<Cell>, c: Cell, n: int)
    requires Semaphores(a) && (n >= 0 || c.QueueDepth? || Now(a, c) + n >= 0)
    ensures Semaphores(Bump(a, c, n))
  {
  }

  lemma SemaphoresStep(s: State, e: Event)
    requires Semaphores(s.cells)
    ensures Semaphores(Next(s, e).cells)
  {
    if StepOf(s, e).Some? {
      var step := StepOf(s, e).value;
      TakesWhatIsThere(s.agents[e.agent], e.choice, Top(s.lifo), s.cells, RoomOf(s.slots));
      SemaphoresBump(s.cells, step.cell, step.change);
    }
  }

  lemma QueueStep(s: State, e: Event)
    requires QueueOk(s)
    ensures QueueOk(Next(s, e))
  {
    QueueFacts(s);
    NextValue(PermitLaw(), s, e);
    NextValue(DepthLaw(), s, e);
    SemaphoresStep(s, e);
    if StepOf(s, e).Some? {
      QueueMove(s.agents[e.agent], e.choice, Top(s.lifo), s.cells, RoomOf(s.slots));
      DepthMove(s.agents[e.agent], e.choice, Top(s.lifo), s.cells, RoomOf(s.slots));
    }
  }

  lemma {:induction false} QueueRun(s: State, es: seq<Event>)
    requires QueueOk(s)
    ensures QueueOk(Run(s, es))
    decreases |es|
  {
    if es != [] {
      QueueStep(s, es[0]);
      QueueRun(Next(s, es[0]), es[1..]);
    }
  }

  lemma ReachedOk(u: Setup, es: seq<Event>)
    ensures QueueOk(StateOf(u, es))
  {
    StartValue(PermitLaw(), u);
    StartValue(DepthLaw(), u);
    QueueRun(Start(u), es);
  }

  lemma AcquiredPops(s: State, i: nat, k: Choice)
    requires i < |s.agents| && s.agents[i].Acquired? && s.lifo != []
    ensures Next(s, Act(i, k)).lifo == s.lifo[..|s.lifo| - 1]
    ensures Next(s, Act(i, k)).agents == s.agents[i := Popped(s.lifo[|s.lifo| - 1])]
  {
    assert s.agents[i := Popped(s.lifo[|s.lifo| - 1])] + [] == s.agents[i := Popped(s.lifo[|s.lifo| - 1])];
  }

  /** In every state of every interleaving: the queue holds as many items as there are permits, workers
      that acquired and have not popped, and pushers that have not added their permit; so a worker with a
      permit always pops the top item; and the gauge, counting the same items a little later, is never
      negative. */
  lemma QueueInvariant(u: Setup, es: seq<Event>)
    ensures var s := StateOf(u, es);
            && |s.lifo| == Now(s.cells, Permits) + Sum(InUse, s.agents)
            && Now(s.cells, QueueDepth) == Now(s.cells, Permits) + Sum(InDepth, s.agents)
            && Now(s.cells, Permits) >= 0 && Now(s.cells, QueueDepth) >= 0
            && (forall i, k :: 0 <= i < |s.agents| && s.agents[i].Acquired? ==>
                  s.lifo != [] && Next(s, Act(i, k)).lifo == s.lifo[..|s.lifo| - 1])
  {
    ReachedOk(u, es);
    var s := StateOf(u, es);
    QueueFacts(s);
    forall i, k | 0 <= i < |s.agents| && s.agents[i].Acquired?
      ensures s.lifo != [] && Next(s, Act(i, k)).lifo == s.lifo[..|s.lifo| - 1]
    {
      AcquiredPops(s, i, k);
    }
  }

  /** Whenever the agents have settled, queue, permits and gauge agree. */
  lemma SettledQueue(u: Setup, es: seq<Event>)
    requires F.Settled(StateOf(u, es))
    ensures var s := StateOf(u, es);
            |s.lifo| == Now(s.cells, Permits) == Now(s.cells, QueueDepth)
  {
    QueueInvariant(u, es);
    F.SettledSum(InUse, StateOf(u, es));
    F.SettledSum(InDepth, StateOf(u, es));
  }
}
