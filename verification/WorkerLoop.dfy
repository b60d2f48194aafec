/** One turn of a worker and one push by the scanner as the source writes them, each a run of the step
    machine of `Pipeline` when nobody interferes (`src/arbitrage.rs`). */
module WorkerLoop {
  import opened Options
  import opened Atomics
  import opened Pipeline
  import RateLimiting

  /** What a turn meets besides the limiters: whether the item is stale, whether the transaction is built,
      the accounts it locks, its size when it serializes, and whether the bundle is accepted. */
  datatype Turn = Turn(stale: bool, built: bool, locks: nat, size: Option<nat>, accepted: bool)

  const MAX_LOCKS := 64
  const MAX_BYTES := 1232

  /** The steps of the only agent, by its choices. */
  function Acts(ks: seq<Choice>): seq<Event> {
    seq(|ks|, i requires 0 <= i < |ks| => Act(0, ks[i]))
  }

  /** The only agent, choosing `ks` from `from` on, comes to `at`. */
  ghost predicate Turns(from: State, ks: seq<Choice>, at: At, lifo: seq<Item>, cells: Atomics<Cell>, slots: Slots) {
    Run(from, Acts(ks)) == State([at], lifo, cells, slots)
  }

  /** `run` tells the state after each sequence of its choices. */
  ghost predicate IsRun(run: seq<Choice> -> State) {
    forall ks, k {:trigger Next(run(ks), Act(0, k))} :: run(ks + [k]) == Next(run(ks), Act(0, k))
  }

  /** After the choices `ks` of a run the only agent is at `at`. */
  ghost predicate Alone(run: seq<Choice> -> State, ks: seq<Choice>, at: At, lifo: seq<Item>, cells: Atomics<Cell>, slots: Slots) {
    IsRun(run) && run(ks) == State([at], lifo, cells, slots)
  }

  lemma RunFrom(from: State) returns (run: seq<Choice> -> State)
    ensures IsRun(run) && forall ks :: run(ks) == Run(from, Acts(ks))
  {
    run := ks => Run(from, Acts(ks));
    forall ks, k
      ensures run(ks + [k]) == Next(run(ks), Act(0, k))
    {
      assert Acts(ks + [k]) == Acts(ks) + [Act(0, k)];
      RunOneMore(from, Acts(ks), Act(0, k));
    }
  }

  /** The choices of a turn from the slot to the bundle. */
  function BuildScript(t: Turn): seq<Choice> {
    if !t.built then [Drop(TxBuildFailed), Go]
    else if t.locks > MAX_LOCKS then [Drop(DroppedAccountLocks), Go]
    else if t.size.None? then [Drop(TxBuildFailed), Go]
    else if t.size.value > MAX_BYTES then [Drop(TxTooLarge), Go]
    else if t.accepted then [Go, Go]
    else [Go, Drop(JitoSendFailed), Go]
  }

  /** The choices from the item on: a probe, a second one if the first is refused, and, if both are, the
      five steps of pushing the item back. */
  function ItemScript(t: Turn, room: Room): seq<Choice> {
    if t.stale then [Drop(DroppedStale), Go]
    else if room.rest then [Go] + BuildScript(t)
    else if room.grpc then [Go, Go] + BuildScript(t)
    else [Go, Go, Go, Go, Go, Go]
  }

  /** The choices of a whole turn. */
  function Script(t: Turn, queued: bool, room: Room): seq<Choice> {
    if queued then [Go, Go, Go] + ItemScript(t, room) else [Go, Go]
  }

  lemma {:induction false} RunOneMore(s: State, es: seq<Event>, e: Event)
    ensures Run(s, es + [e]) == Next(Run(s, es), e)
    decreases |es|
  {
    if es == [] {
      assert [e][1..] == [] && es + [e] == [e];
      assert Run(Next(s, e), []) == Next(s, e);
    } else {
      RunOneMore(Next(s, es[0]), es[1..], e);
      assert (es + [e])[1..] == es[1..] + [e];
    }
  }

  /** The agent's next step. */
  lemma Extend(run: seq<Choice> -> State, ks: seq<Choice>, at: At, lifo: seq<Item>, cells: Atomics<Cell>, slots: Slots, k: Choice, e: Step)
    returns (longer: seq<Choice>)
    requires Alone(run, ks, at, lifo, cells, slots)
    requires Moves(at, k, Top(lifo), cells, RoomOf(slots)) == Some(e) && !e.spawns
    ensures longer == ks + [k]
    ensures Alone(run, longer, e.next, Stacked(lifo, e.op), Bump(cells, e.cell, e.change), Probed(slots, e.ask))
  {
    longer := ks + [k];
    assert Next(run(ks), Act(0, k)) == Take(run(ks), 0, e);
    assert [at][0 := e.next] + [] == [e.next];
  }

  /** The next step, when it probes no limiter. */
  lemma Quiet(run: seq<Choice> -> State, ks: seq<Choice>, at: At, lifo: seq<Item>, cells: Atomics<Cell>, slots: Slots, k: Choice, e: Step)
    returns (longer: seq<Choice>)
    requires Alone(run, ks, at, lifo, cells, slots) && !at.InHand? && !at.RestRefused?
    requires Moves(at, k, Top(lifo), cells, Room(false, false)) == Some(e) && !e.spawns && e.ask.NoAsk?
    ensures longer == ks + [k]
    ensures Alone(run, longer, e.next, Stacked(lifo, e.op), Bump(cells, e.cell, e.change), slots)
  {
    longer := Extend(run, ks, at, lifo, cells, slots, k, e);
  }

  /** A drop with the item in hand comes before any probe. */
  lemma DropsInHand(run: seq<Choice> -> State, ks: seq<Choice>, item: Item, lifo: seq<Item>, cells: Atomics<Cell>, slots: Slots)
    returns (longer: seq<Choice>)
    requires Alone(run, ks, InHand(item), lifo, cells, slots)
    ensures longer == ks + [Drop(DroppedStale)]
    ensures Alone(run, longer, Dropping(Worker), lifo, Add(cells, DroppedStale, 1), slots)
  {
    longer := Extend(run, ks, InHand(item), lifo, cells, slots, Drop(DroppedStale), Change(DroppedStale, 1, Dropping(Worker)));
  }

  lemma Regroup(a: seq<Choice>, b: seq<Choice>, c: seq<Choice>)
    ensures (a + b) + c == a + (b + c)
  {
  }

  /** How many timestamps are less than a second old. */
  function Recent(ts: seq<int>, now: int): nat {
    |set i | 0 <= i < |ts| && now - ts[i] < 1_000_000_000|
  }

  lemma {:induction false} RetainCount(ts: seq<int>, now: int)
    ensures |RateLimiting.Retain(ts, now - RateLimiting.SECOND)| == Recent(ts, now)
  {
    if ts != [] {
      var n := |ts| - 1;
      RetainCount(ts[..n], now);
      var before := set i | 0 <= i < n && now - ts[..n][i] < 1_000_000_000;
      var all := set i | 0 <= i < |ts| && now - ts[i] < 1_000_000_000;
      assert all == before + if now - ts[n] < 1_000_000_000 then {n} else {};
    }
  }

  /** A limiter has room exactly when fewer of its timestamps than its limit are less than a second old. */
  lemma RoomExact(s: Slots)
    ensures RoomOf(s).rest <==> Recent(s.rest, s.now) < s.restMax
    ensures RoomOf(s).grpc <==> Recent(s.grpc, s.now) < s.grpcMax
  {
    RetainCount(s.rest, s.now);
    RetainCount(s.grpc, s.now);
  }

  // ── What the counters come to ─────────────────────────────────────────────

  function DroppedIn(a: Atomics<Cell>, reason: Cell): Atomics<Cell> {
    Add(Add(a, reason, 1), TxDropped, 1)
  }

  function AnnouncedIn(a: Atomics<Cell>): Atomics<Cell> {
    Add(Add(a, QueueDepth, 1), Permits, 1)
  }

  function TakenIn(a: Atomics<Cell>, item: Option<Item>): Atomics<Cell> {
    if item.None? then Add(a, Permits, -1) else Add(Add(a, Permits, -1), QueueDepth, -1)
  }

  function AcquiredIn(a: Atomics<Cell>, item: Item, room: Room): Atomics<Cell> {
    if room.rest then Bump(a, RestFirst, Unwaited(item)) else if room.grpc then Bump(a, GrpcFirst, Unwaited(item)) else a
  }

  function BuiltIn(a: Atomics<Cell>, t: Turn): Atomics<Cell> {
    if !t.built then DroppedIn(a, TxBuildFailed)
    else if t.locks > MAX_LOCKS then DroppedIn(a, DroppedAccountLocks)
    else if t.size.None? then DroppedIn(a, TxBuildFailed)
    else if t.size.value > MAX_BYTES then DroppedIn(a, TxTooLarge)
    else if t.accepted then Add(Add(a, CalcDone, 1), JitoSent, 1)
    else DroppedIn(Add(a, CalcDone, 1), JitoSendFailed)
  }

  function ServedIn(a: Atomics<Cell>, item: Item, t: Turn, room: Room): Atomics<Cell> {
    var asked := AcquiredIn(a, item, room);
    if room.rest || room.grpc then BuiltIn(asked, t) else AnnouncedIn(Bump(asked, RateRequeued, Unwaited(item)))
  }

  function TurnIn(a: Atomics<Cell>, item: Option<Item>, t: Turn, room: Room): Atomics<Cell> {
    var taken := TakenIn(a, item);
    if item.None? then taken
    else if t.stale then DroppedIn(taken, DroppedStale)
    else ServedIn(taken, item.value, t, room)
  }

  lemma BuiltTotals(a: Atomics<Cell>, t: Turn, c: Cell)
    ensures var fits := t.built && t.locks <= 64 && t.size.Some? && t.size.value <= 1232;
            Total(BuiltIn(a, t), c) == Total(a, c) +
             (if c == CalcDone then (if fits then 1 else 0)
              else if c == JitoSent then (if fits && t.accepted then 1 else 0)
              else if c == JitoSendFailed then (if fits && !t.accepted then 1 else 0)
              else if c == TxBuildFailed then (if !t.built || (t.locks <= 64 && t.size.None?) then 1 else 0)
              else if c == DroppedAccountLocks then (if t.built && t.locks > 64 then 1 else 0)
              else if c == TxTooLarge then (if t.built && t.locks <= 64 && t.size.Some? && t.size.value > 1232 then 1 else 0)
              else if c == TxDropped then (if fits && t.accepted then 0 else 1)
              else 0)
  {
    if !t.built || (t.locks <= 64 && t.size.None?) {
      DroppedTotals(a, TxBuildFailed, c);
    } else if t.locks > 64 {
      DroppedTotals(a, DroppedAccountLocks, c);
    } else if t.size.value > 1232 {
      DroppedTotals(a, TxTooLarge, c);
    } else {
      AddAndDrain(a, CalcDone, 1, c);
      AddAndDrain(Add(a, CalcDone, 1), JitoSent, 1, c);
      DroppedTotals(Add(a, CalcDone, 1), JitoSendFailed, c);
    }
  }

  lemma TakenTotals(a: Atomics<Cell>, item: Option<Item>, c: Cell)
    ensures Total(TakenIn(a, item), c) == Total(a, c) + if c == Permits || (c == QueueDepth && item.Some?) then -1 else 0
  {
  }

  lemma AcquiredTotals(a: Atomics<Cell>, item: Item, room: Room, c: Cell)
    requires c != RestFirst && c != GrpcFirst
    ensures Total(AcquiredIn(a, item, room), c) == Total(a, c)
  {
  }

  lemma RequeuedTotals(a: Atomics<Cell>, item: Item, c: Cell)
    ensures Total(AnnouncedIn(Bump(a, RateRequeued, Unwaited(item))), c)
            == Total(a, c) + if c == QueueDepth || c == Permits || (c == RateRequeued && !item.waited) then 1 else 0
  {
  }

  lemma DroppedTotals(a: Atomics<Cell>, reason: Cell, c: Cell)
    requires reason != TxDropped
    ensures Total(DroppedIn(a, reason), c) == Total(a, c) + if c == reason || c == TxDropped then 1 else 0
  {
  }

  lemma PushedTotals(a: Atomics<Cell>, c: Cell)
    ensures Total(AnnouncedIn(Add(a, QueueIn, 1)), c)
            == Total(a, c) + if c == QueueIn || c == QueueDepth || c == Permits then 1 else 0
  {
  }

  lemma ServedTotals(a: Atomics<Cell>, item: Item, t: Turn, room: Room, c: Cell)
    requires c != RestFirst && c != GrpcFirst
    ensures var asked := AcquiredIn(a, item, room);
            Total(ServedIn(a, item, t, room), c)
            == if room.rest || room.grpc then Total(a, c) + Total(BuiltIn(asked, t), c) - Total(asked, c)
               else Total(a, c) + if c == QueueDepth || c == Permits || (c == RateRequeued && !item.waited) then 1 else 0
  {
    AcquiredTotals(a, item, room, c);
    RequeuedTotals(AcquiredIn(a, item, room), item, c);
  }

  lemma TurnTotals(a: Atomics<Cell>, item: Option<Item>, t: Turn, room: Room, c: Cell)
    requires c != RestFirst && c != GrpcFirst
    ensures var slot := item.Some? && !t.stale && (room.rest || room.grpc);
            var fits := slot && t.built && t.locks <= 64 && t.size.Some? && t.size.value <= 1232;
            var back := item.Some? && !t.stale && !slot;
            Total(TurnIn(a, item, t, room), c) == Total(a, c) +
             (if c == JitoSent then (if fits && t.accepted then 1 else 0)
              else if c == JitoSendFailed then (if fits && !t.accepted then 1 else 0)
              else if c == CalcDone then (if fits then 1 else 0)
              else if c == DroppedStale then (if item.Some? && t.stale then 1 else 0)
              else if c == TxBuildFailed then (if slot && (!t.built || (t.locks <= 64 && t.size.None?)) then 1 else 0)
              else if c == DroppedAccountLocks then (if slot && t.built && t.locks > 64 then 1 else 0)
              else if c == TxTooLarge then (if slot && t.built && t.locks <= 64 && t.size.Some? && t.size.value > 1232 then 1 else 0)
              else if c == TxDropped then (if item.Some? && !back && !(fits && t.accepted) then 1 else 0)
              else if c == RateRequeued then (if back && !item.value.waited then 1 else 0)
              else if c == Permits then (if back then 0 else -1)
              else if c == QueueDepth then (if item.Some? && !back then -1 else 0)
              else 0)
  {
    TakenTotals(a, item, c);
    if item.Some? {
      var taken := TakenIn(a, item);
      if t.stale {
        DroppedTotals(taken, DroppedStale, c);
      } else {
        ServedTotals(taken, item.value, t, room, c);
        if room.rest || room.grpc {
          BuiltTotals(AcquiredIn(taken, item.value, room), t, c);
        }
      }
    }
  }

  class Handle {
    var lifo: seq<Item>
    var cells: Atomics<Cell>
    var slots: Slots

    constructor (restMax: nat, grpcMax: nat)
      ensures lifo == [] && cells == Zeros() && slots == Slots(restMax, grpcMax, 0, [], [])
    {
      lifo, cells, slots := [], Zeros(), Slots(restMax, grpcMax, 0, [], []);
    }

    /** One counter operation of the agent at `at`, which `choice` takes to `next`. */
    method Count(c: Cell, n: int, ghost run: seq<Choice> -> State, ghost before: seq<Choice>, ghost at: At, ghost choice: Choice, ghost next: At)
      returns (ghost ks: seq<Choice>)
      requires n != 0 && Alone(run, before, at, lifo, cells, slots) && !at.InHand? && !at.RestRefused?
      requires Moves(at, choice, Top(lifo), cells, Room(false, false)) == Some(Change(c, n, next))
      modifies this`cells
      ensures ks == before + [choice] && Alone(run, ks, next, lifo, cells, slots) && cells == Add(old(cells), c, n)
    {
      ks := Quiet(run, before, at, lifo, cells, slots, choice, Change(c, n, next));
      cells := Add(cells, c, n);
    }

    method PushAndAnnounce(item: Item, ghost run: seq<Choice> -> State, ghost before: seq<Choice>) returns (ghost ks: seq<Choice>)
      requires item.waited && Alone(run, before, Requeueing, lifo, cells, slots)
      modifies this
      ensures ks == before + [Go, Go, Go] && Alone(run, ks, Waiting, lifo, cells, slots)
      ensures lifo == old(lifo) + [item] && slots == old(slots)
      ensures cells == AnnouncedIn(old(cells))
    {
      ks := Quiet(run, before, Requeueing, lifo, cells, slots, Go, Stack(Push(item), Announced(Worker)));
      lifo := lifo + [item];
      ks := Announce(Worker, run, ks);
    }

    /** Count the pushed item in the gauge and add its permit. */
    method Announce(role: Role, ghost run: seq<Choice> -> State, ghost before: seq<Choice>) returns (ghost ks: seq<Choice>)
      requires Alone(run, before, Announced(role), lifo, cells, slots)
      modifies this`cells
      ensures ks == before + [Go, Go] && Alone(run, ks, Home(role), lifo, cells, slots)
      ensures cells == AnnouncedIn(old(cells))
    {
      ks := Count(QueueDepth, 1, run, before, Announced(role), Go, Deepened(role));
      ks := Count(Permits, 1, run, ks, Deepened(role), Go, Home(role));
    }

    /** `push_to_queue` within a run. */
    method PushReady(role: Role, ghost run: seq<Choice> -> State, ghost before: seq<Choice>) returns (ghost ks: seq<Choice>)
      requires Alone(run, before, Ready(role), lifo, cells, slots)
      modifies this
      ensures ks == before + [Go, Go, Go, Go] && Alone(run, ks, Home(role), lifo, cells, slots)
      ensures lifo == old(lifo) + [Item(false)] && slots == old(slots)
      ensures cells == AnnouncedIn(Add(old(cells), QueueIn, 1))
    {
      ks := Quiet(run, before, Ready(role), lifo, cells, slots, Go, Stack(Push(Item(false)), Pushed(role)));
      lifo := lifo + [Item(false)];
      ks := Count(QueueIn, 1, run, ks, Pushed(role), Go, Announced(role));
      ks := Announce(role, run, ks);
    }

    /** `push_to_queue`: a run of the machine, and what the counters and the queue come to. */
    method PushToQueue(role: Role)
      modifies this
      ensures Turns(State([Ready(role)], old(lifo), old(cells), old(slots)), [Go, Go, Go, Go], Home(role), lifo, cells, slots)
      ensures lifo == old(lifo) + [Item(false)] && slots == old(slots)
      ensures forall c :: Total(cells, c) == Total(old(cells), c) + if c == QueueIn || c == QueueDepth || c == Permits then 1 else 0
    {
      ghost var from, a := State([Ready(role)], lifo, cells, slots), cells;
      ghost var run := RunFrom(from);
      assert run([]) == from;
      ghost var ks := PushReady(role, run, []);
      assert ks == [Go, Go, Go, Go];
      forall c {
        PushedTotals(a, c);
      }
    }

    /** A reason and `tx_dropped`, then back to where the agent waits, or on to the kind of error. */
    method DropIt(reason: Cell, ghost run: seq<Choice> -> State, ghost before: seq<Choice>, ghost at: At) returns (ghost ks: seq<Choice>)
      requires MayDrop(at, reason) && !at.InHand? && !at.RestRefused? && Alone(run, before, at, lifo, cells, slots)
      modifies this`cells
      ensures ks == before + [Drop(reason), Go]
      ensures Alone(run, ks, if RoleOf(at).Task? then FetchFailed else Home(RoleOf(at)), lifo, cells, slots)
      ensures cells == DroppedIn(old(cells), reason)
    {
      ks := Quiet(run, before, at, lifo, cells, slots, Drop(reason), Change(reason, 1, Dropping(RoleOf(at))));
      cells := Add(cells, reason, 1);
      ks := Count(TxDropped, 1, run, ks, Dropping(RoleOf(at)), Go, if RoleOf(at).Task? then FetchFailed else Home(RoleOf(at)));
    }

    /** A stale item. */
    method DropStale(item: Item, ghost run: seq<Choice> -> State, ghost before: seq<Choice>) returns (ghost ks: seq<Choice>)
      requires Alone(run, before, InHand(item), lifo, cells, slots)
      modifies this`cells
      ensures ks == before + [Drop(DroppedStale), Go] && Alone(run, ks, Waiting, lifo, cells, slots)
      ensures cells == DroppedIn(old(cells), DroppedStale)
    {
      ks := DropsInHand(run, before, item, lifo, cells, slots);
      cells := Add(cells, DroppedStale, 1);
      ks := Count(TxDropped, 1, run, ks, Dropping(Worker), Go, Waiting);
    }

    /** Neither limiter has a slot: the item is marked and pushed back. */
    method Requeue(item: Item, ghost run: seq<Choice> -> State, ghost before: seq<Choice>) returns (ghost ks: seq<Choice>)
      requires Alone(run, before, Refused(item), lifo, cells, slots)
      modifies this
      ensures ks == before + [Go, Go, Go, Go] && Alone(run, ks, Waiting, lifo, cells, slots)
      ensures lifo == old(lifo) + [Item(true)] && slots == old(slots)
      ensures cells == AnnouncedIn(Bump(old(cells), RateRequeued, Unwaited(item)))
    {
      if !item.waited {
        ks := Count(RateRequeued, 1, run, before, Refused(item), Go, Requeueing);
      } else {
        ks := Quiet(run, before, Refused(item), lifo, cells, slots, Go, Then(Requeueing));
      }
      ks := PushAndAnnounce(item.(waited := true), run, ks);
    }

    /** From the slot to the bundle. */
    method BuildAndSend(t: Turn, ghost run: seq<Choice> -> State, ghost before: seq<Choice>) returns (ghost ks: seq<Choice>)
      requires Alone(run, before, Building, lifo, cells, slots)
      modifies this`cells
      ensures ks == before + BuildScript(t) && Alone(run, ks, Waiting, lifo, cells, slots)
      ensures cells == BuiltIn(old(cells), t)
    {
      if !t.built {
        ks := DropIt(TxBuildFailed, run, before, Building);
        return;
      }
      if t.locks > MAX_LOCKS {
        ks := DropIt(DroppedAccountLocks, run, before, Building);
        return;
      }
      match t.size {
        case Some(bytes) =>
          if bytes > MAX_BYTES {
            ks := DropIt(TxTooLarge, run, before, Building);
            return;
          }
        case None =>
          ks := DropIt(TxBuildFailed, run, before, Building);
          return;
      }
      ks := Count(CalcDone, 1, run, before, Building, Go, Sending);
      if t.accepted {
        ks := Count(JitoSent, 1, run, ks, Sending, Go, Waiting);
      } else {
        ks := DropIt(JitoSendFailed, run, ks, Sending);
      }
    }

    /** Acquire a permit and pop: an item with its gauge counted down, or nothing. */
    method TakeItem(ghost run: seq<Choice> -> State) returns (item: Option<Item>, ghost ks: seq<Choice>)
      requires Now(cells, Permits) > 0 && Alone(run, [], Waiting, lifo, cells, slots)
      modifies this
      ensures item == Top(old(lifo)) && lifo == Stacked(old(lifo), Pop) && slots == old(slots)
      ensures cells == TakenIn(old(cells), item)
      ensures item.None? ==> ks == [Go, Go] && Alone(run, ks, Waiting, lifo, cells, slots)
      ensures item.Some? ==> ks == [Go, Go, Go] && Alone(run, ks, InHand(item.value), lifo, cells, slots)
    {
      ks := Count(Permits, -1, run, [], Waiting, Go, Acquired);
      if lifo == [] {
        ks := Quiet(run, ks, Acquired, lifo, cells, slots, Go, Then(Waiting));
        return None, ks;
      }
      var top := lifo[|lifo| - 1];
      ks := Quiet(run, ks, Acquired, lifo, cells, slots, Go, Stack(Pop, Popped(top)));
      lifo := lifo[..|lifo| - 1];
      ks := Count(QueueDepth, -1, run, ks, Popped(top), Go, InHand(top));
      item := Some(top);
    }

    /** Probe the REST limiter for an item; the model counts the slot if the item never waited. */
    method ProbeRest(item: Item, ghost run: seq<Choice> -> State, ghost before: seq<Choice>) returns (granted: bool, ghost ks: seq<Choice>)
      requires Alone(run, before, InHand(item), lifo, cells, slots)
      modifies this`slots, this`cells
      ensures granted == RoomOf(old(slots)).rest && slots == Probed(old(slots), AskRest) && ks == before + [Go]
      ensures cells == Bump(old(cells), RestFirst, if granted then Unwaited(item) else 0)
      ensures Alone(run, ks, if granted then Building else RestRefused(item), lifo, cells, slots)
    {
      granted := RoomOf(slots).rest;
      ghost var n := if granted then Unwaited(item) else 0;
      ks := Extend(run, before, InHand(item), lifo, cells, slots, Go,
                   Probe(AskRest, RestFirst, n, if granted then Building else RestRefused(item)));
      cells := Bump(cells, RestFirst, if granted then Unwaited(item) else 0);
      slots := Probed(slots, AskRest);
    }

    method ProbeGrpc(item: Item, ghost run: seq<Choice> -> State, ghost before: seq<Choice>) returns (granted: bool, ghost ks: seq<Choice>)
      requires Alone(run, before, RestRefused(item), lifo, cells, slots)
      modifies this`slots, this`cells
      ensures granted == RoomOf(old(slots)).grpc && slots == Probed(old(slots), AskGrpc) && ks == before + [Go]
      ensures cells == Bump(old(cells), GrpcFirst, if granted then Unwaited(item) else 0)
      ensures Alone(run, ks, if granted then Building else Refused(item), lifo, cells, slots)
    {
      granted := RoomOf(slots).grpc;
      ghost var n := if granted then Unwaited(item) else 0;
      ks := Extend(run, before, RestRefused(item), lifo, cells, slots, Go,
                   Probe(AskGrpc, GrpcFirst, n, if granted then Building else Refused(item)));
      cells := Bump(cells, GrpcFirst, if granted then Unwaited(item) else 0);
      slots := Probed(slots, AskGrpc);
    }

    /** REST first, then gRPC. */
    method Acquire(item: Item, ghost run: seq<Choice> -> State, ghost before: seq<Choice>, ghost room: Room)
      returns (granted: bool, ghost ks: seq<Choice>)
      requires Alone(run, before, InHand(item), lifo, cells, slots) && room == RoomOf(slots)
      modifies this`slots, this`cells
      ensures granted == (room.rest || room.grpc) && ks == before + if room.rest then [Go] else [Go, Go]
      ensures slots == if room.rest then Probed(old(slots), AskRest) else Probed(Probed(old(slots), AskRest), AskGrpc)
      ensures cells == AcquiredIn(old(cells), item, room)
      ensures Alone(run, ks, if granted then Building else Refused(item), lifo, cells, slots)
    {
      granted, ks := ProbeRest(item, run, before);
      if !granted {
        granted, ks := ProbeGrpc(item, run, ks);
      }
    }

    /** With a slot the item is sent, without it goes back. */
    method SendOrRequeue(t: Turn, item: Item, ghost run: seq<Choice> -> State, ghost before: seq<Choice>, ghost room: Room)
      returns (ghost ks: seq<Choice>)
      requires Alone(run, before, InHand(item), lifo, cells, slots) && !t.stale && room == RoomOf(slots)
      modifies this
      ensures ks == before + ItemScript(t, room) && Alone(run, ks, Waiting, lifo, cells, slots)
      ensures slots == if room.rest then Probed(old(slots), AskRest) else Probed(Probed(old(slots), AskRest), AskGrpc)
      ensures lifo == old(lifo) + if room.rest || room.grpc then [] else [Item(true)]
      ensures cells == ServedIn(old(cells), item, t, room)
    {
      var granted; ghost var asked;
      granted, asked := Acquire(item, run, before, room);
      if granted {
        ks := BuildAndSend(t, run, asked);
        Regroup(before, if room.rest then [Go] else [Go, Go], BuildScript(t));
      } else {
        ks := Requeue(item, run, asked);
        Regroup(before, [Go, Go], [Go, Go, Go, Go]);
      }
    }

    /** The steps of a turn. */
    method TakeTurn(t: Turn)
      requires Now(cells, Permits) > 0
      modifies this
      ensures Turns(State([Waiting], old(lifo), old(cells), old(slots)),
                    Script(t, old(lifo) != [], RoomOf(old(slots))), Waiting, lifo, cells, slots)
      ensures cells == TurnIn(old(cells), Top(old(lifo)), t, RoomOf(old(slots)))
      ensures old(lifo) == [] ==> lifo == []
      ensures old(lifo) != [] ==>
                lifo == old(lifo)[..|old(lifo)| - 1]
                        + if !t.stale && !RoomOf(old(slots)).rest && !RoomOf(old(slots)).grpc then [Item(true)] else []
      ensures slots == if old(lifo) == [] || t.stale then old(slots)
                       else if RoomOf(old(slots)).rest then Probed(old(slots), AskRest)
                       else Probed(Probed(old(slots), AskRest), AskGrpc)
    {
      ghost var from := State([Waiting], lifo, cells, slots);
      ghost var run := RunFrom(from);
      assert run([]) == from;
      var item; ghost var ks;
      item, ks := TakeItem(run);
      if item.None? {
        return;
      }
      if t.stale {
        ks := DropStale(item.value, run, ks);
      } else {
        ks := SendOrRequeue(t, item.value, run, ks, RoomOf(slots));
      }
    }

    /** One turn of the worker loop, from the permit on: a run of the machine, and what each counter, the
        queue and the limiters come to. */
    method WorkerTurn(t: Turn)
      requires Now(cells, Permits) > 0
      modifies this
      ensures Turns(State([Waiting], old(lifo), old(cells), old(slots)),
                    Script(t, old(lifo) != [], RoomOf(old(slots))), Waiting, lifo, cells, slots)
      ensures var taken := old(lifo) != [];
              var room := RoomOf(old(slots));
              var slot := taken && !t.stale && (room.rest || room.grpc);
              var fits := slot && t.built && t.locks <= 64 && t.size.Some? && t.size.value <= 1232;
              var back := taken && !t.stale && !slot;
              forall c :: c != RestFirst && c != GrpcFirst ==>
               (Total(cells, c) == Total(old(cells), c) +
                if c == JitoSent then (if fits && t.accepted then 1 else 0)
                else if c == JitoSendFailed then (if fits && !t.accepted then 1 else 0)
                else if c == CalcDone then (if fits then 1 else 0)
                else if c == DroppedStale then (if taken && t.stale then 1 else 0)
                else if c == TxBuildFailed then (if slot && (!t.built || (t.locks <= 64 && t.size.None?)) then 1 else 0)
                else if c == DroppedAccountLocks then (if slot && t.built && t.locks > 64 then 1 else 0)
                else if c == TxTooLarge then (if slot && t.built && t.locks <= 64 && t.size.Some? && t.size.value > 1232 then 1 else 0)
                else if c == TxDropped then (if taken && !back && !(fits && t.accepted) then 1 else 0)
                else if c == RateRequeued then (if back && !old(lifo)[|old(lifo)| - 1].waited then 1 else 0)
                else if c == Permits then (if back then 0 else -1)
                else if c == QueueDepth then (if taken && !back then -1 else 0)
                else 0)
      ensures old(lifo) == [] ==> lifo == []
      ensures old(lifo) != [] ==>
                lifo == old(lifo)[..|old(lifo)| - 1]
                        + if !t.stale && !RoomOf(old(slots)).rest && !RoomOf(old(slots)).grpc then [Item(true)] else []
      ensures slots == if old(lifo) == [] || t.stale then old(slots)
                       else if RoomOf(old(slots)).rest then Probed(old(slots), AskRest)
                       else Probed(Probed(old(slots), AskRest), AskGrpc)
    {
      ghost var a, top, room := cells, Top(lifo), RoomOf(slots);
      TakeTurn(t);
      forall c | c != RestFirst && c != GrpcFirst {
        TurnTotals(a, top, t, room, c);
      }
    }
  }
}
