/** What a quote check counts for its token (`quote_check` of `src/arbitrage.rs`, `src/token_metrics.rs`). */
module QuoteChecks {
  import opened Atomics
  import opened Sums
  import opened Words

  datatype Kind = QSent | RouteOk | RouteFail | Profitable | NotProfitable

  /** The counter of a kind in a row of the stats vector. */
  datatype Cell = Cell(row: nat, kind: Kind)

  /** `TokenMetrics::new`: the row of each mint; of a mint listed twice the last one. */
  function IndexOf(mints: seq<string>): (rows: map<string, nat>)
    ensures forall m :: m in rows <==> m in mints
    ensures forall m :: m in rows ==> rows[m] < |mints| && mints[rows[m]] == m
  {
    if mints == [] then map[]
    else
      var n := |mints| - 1;
      assert mints == mints[..n] + [mints[n]];
      IndexOf(mints[..n])[mints[n] := n]
  }

  /** What a check that found a route is judged by: what comes back for the amount, the profit asked for,
      and the forbidden-DEX and same-pool tests. */
  datatype Offer = Offer(output: u64, amount: u64, minProfit: u64, forbidden: bool, samePool: bool)

  function SaturatingAdd(a: u64, b: u64): u64 {
    if a + b < TWO64 then a + b else TWO64 - 1
  }

  predicate Passes(o: Offer) {
    o.output > SaturatingAdd(o.amount, o.minProfit) && !o.forbidden && !o.samePool
  }

  /** A running check: its quotes in flight, or answered and not judged yet; then its outcome. */
  datatype At = Asking | Answered | Missed | Judged(offer: Offer)

  datatype Check = Check(token: string, at: At)

  /** The checks started so far, the rows of the tokens with counters, and the counters. */
  datatype State = State(checks: seq<Check>, rows: map<string, nat>, cells: Atomics<Cell>)

  /** No two tokens count in one row. */
  ghost predicate OwnRows(s: State) {
    forall a, b :: a in s.rows && b in s.rows && s.rows[a] == s.rows[b] ==> a == b
  }

  /** One counter operation of a check or of the reporter. */
  datatype Event =
    | Begin(token: string)
    | Fail(i: nat)                // no quote, or an out amount that is no positive number
    | Answer(i: nat)
    | Judge(i: nat, offer: Offer)
    | Report(cell: Cell)

  function Count(s: State, token: string, kind: Kind, n: int): Atomics<Cell> {
    if token in s.rows then Add(s.cells, Cell(s.rows[token], kind), n) else s.cells
  }

  predicate IsAt(s: State, i: nat, at: At) {
    i < |s.checks| && s.checks[i].at == at
  }

  function Moved(s: State, i: nat, at: At, kind: Kind): State
    requires i < |s.checks|
  {
    s.(checks := s.checks[i := s.checks[i].(at := at)], cells := Count(s, s.checks[i].token, kind, 1))
  }

  /** One event; one that cannot happen changes nothing. */
  function Next(s: State, e: Event): State {
    match e
    case Begin(token) => s.(checks := s.checks + [Check(token, Asking)], cells := Count(s, token, QSent, 2))
    case Fail(i) => if IsAt(s, i, Asking) then Moved(s, i, Missed, RouteFail) else s
    case Answer(i) => if IsAt(s, i, Asking) then Moved(s, i, Answered, RouteOk) else s
    case Judge(i, offer) =>
      if IsAt(s, i, Answered) then Moved(s, i, Judged(offer), if Passes(offer) then Profitable else NotProfitable) else s
    case Report(c) => s.(cells := Drain(s.cells, c))
  }

  function Run(s: State, es: seq<Event>): State
    decreases |es|
  {
    if es == [] then s else Run(Next(s, es[0]), es[1..])
  }

  function Start(mints: seq<string>): State {
    State([], IndexOf(mints), Zeros())
  }

  // ── What each counter counts ──────────────────────────────────────────────

  /** Checks by how far they are. */
  datatype Stage = Begun | InFlight | NoRoute | HasRoute | Unjudged | Good | Bad

  /** Good is a check that is judged with more coming back than amount and profit asked for, from allowed
      DEXes through different pools; a sum beyond 64 bits is more than anything that comes back. */
  predicate Reached(at: At, g: Stage) {
    match g
    case Begun => true
    case InFlight => at.Asking?
    case NoRoute => at.Missed?
    case HasRoute => at.Answered? || at.Judged?
    case Unjudged => at.Answered?
    case Good =>
      && at.Judged? && !at.offer.forbidden && !at.offer.samePool
      && at.offer.output > at.offer.amount + at.offer.minProfit
    case Bad =>
      && at.Judged?
      && (at.offer.forbidden || at.offer.samePool || at.offer.output <= at.offer.amount + at.offer.minProfit)
  }

  function Is(token: string, g: Stage): Check -> int {
    (c: Check) => if c.token == token && Reached(c.at, g) then 1 else 0
  }

  /** How many checks of the token have come there. */
  function Checks(s: State, token: string, g: Stage): int {
    Sum(Is(token, g), s.checks)
  }

  /** The checks a kind counts. */
  function CountedAt(kind: Kind): Stage {
    match kind
    case QSent => Begun
    case RouteOk => HasRoute
    case RouteFail => NoRoute
    case Profitable => Good
    case NotProfitable => Bad
  }

  function CountOf(s: State, token: string, kind: Kind): int
    requires token in s.rows
  {
    Total(s.cells, Cell(s.rows[token], kind))
  }

  /** Each counter of the token is the number of its checks, that of the quotes twice it. */
  ghost predicate Balanced(s: State, token: string)
    requires token in s.rows
  {
    forall kind :: CountOf(s, token, kind) == (if kind == QSent then 2 else 1) * Checks(s, token, CountedAt(kind))
  }

  lemma PassesTells(o: Offer)
    ensures Passes(o) <==> Reached(Judged(o), Good)
    ensures !Passes(o) <==> Reached(Judged(o), Bad)
  {
  }

  lemma MovedCounts(s: State, i: nat, at: At, kind: Kind, token: string, k: Kind)
    requires i < |s.checks| && OwnRows(s) && token in s.rows
    ensures CountOf(Moved(s, i, at, kind), token, k)
            == CountOf(s, token, k) + if s.checks[i].token == token && k == kind then 1 else 0
  {
    if s.checks[i].token in s.rows {
      AddAndDrain(s.cells, Cell(s.rows[s.checks[i].token], kind), 1, Cell(s.rows[token], k));
    }
  }

  lemma MovedChecks(s: State, i: nat, at: At, kind: Kind, token: string, g: Stage)
    requires i < |s.checks|
    ensures Checks(Moved(s, i, at, kind), token, g)
            == Checks(s, token, g) - Is(token, g)(s.checks[i]) + Is(token, g)(s.checks[i].(at := at))
  {
    SumUpdate(Is(token, g), s.checks, i, s.checks[i].(at := at));
  }

  lemma BalancedMoved(s: State, i: nat, at: At, kind: Kind, token: string)
    requires i < |s.checks| && OwnRows(s) && token in s.rows && Balanced(s, token)
    requires match s.checks[i].at
             case Asking => (at == Missed && kind == RouteFail) || (at == Answered && kind == RouteOk)
             case Answered => at.Judged? && kind == if Passes(at.offer) then Profitable else NotProfitable
             case _ => false
    ensures Balanced(Moved(s, i, at, kind), token)
  {
    forall k
      ensures CountOf(Moved(s, i, at, kind), token, k)
              == (if k == QSent then 2 else 1) * Checks(Moved(s, i, at, kind), token, CountedAt(k))
    {
      MovedChecks(s, i, at, kind, token, CountedAt(k));
      MovedCounts(s, i, at, kind, token, k);
      if at.Judged? {
        PassesTells(at.offer);
      }
    }
  }

  lemma CountsUnder(s: State, token: string, begun: string, drained: Cell, k: Kind)
    requires OwnRows(s) && token in s.rows
    ensures CountOf(Next(s, Begin(begun)), token, k)
            == CountOf(s, token, k) + if begun == token && k == QSent then 2 else 0
    ensures CountOf(Next(s, Report(drained)), token, k) == CountOf(s, token, k)
  {
    if begun in s.rows {
      AddAndDrain(s.cells, Cell(s.rows[begun], QSent), 2, Cell(s.rows[token], k));
    }
    AddAndDrain(s.cells, drained, 0, Cell(s.rows[token], k));
  }

  lemma BalancedBegun(s: State, begun: string, drained: Cell, token: string)
    requires OwnRows(s) && token in s.rows && Balanced(s, token)
    ensures Balanced(Next(s, Begin(begun)), token) && Balanced(Next(s, Report(drained)), token)
  {
    forall k
      ensures CountOf(Next(s, Begin(begun)), token, k)
              == (if k == QSent then 2 else 1) * Checks(Next(s, Begin(begun)), token, CountedAt(k))
      ensures CountOf(Next(s, Report(drained)), token, k)
              == (if k == QSent then 2 else 1) * Checks(Next(s, Report(drained)), token, CountedAt(k))
    {
      SumAppend(Is(token, CountedAt(k)), s.checks, Check(begun, Asking));
      CountsUnder(s, token, begun, drained, k);
    }
  }

  lemma BalancedStep(s: State, e: Event, token: string)
    requires OwnRows(s) && token in s.rows && Balanced(s, token)
    ensures Next(s, e).rows == s.rows && Balanced(Next(s, e), token)
  {
    match e
    case Begin(begun) => BalancedBegun(s, begun, Cell(0, QSent), token);
    case Report(c) => BalancedBegun(s, "", c, token);
    case Fail(i) => if IsAt(s, i, Asking) { BalancedMoved(s, i, Missed, RouteFail, token); }
    case Answer(i) => if IsAt(s, i, Asking) { BalancedMoved(s, i, Answered, RouteOk, token); }
    case Judge(i, offer) =>
      if IsAt(s, i, Answered) { BalancedMoved(s, i, Judged(offer), if Passes(offer) then Profitable else NotProfitable, token); }
  }

  lemma {:induction false} BalancedRun(s: State, es: seq<Event>, token: string)
    requires OwnRows(s) && token in s.rows && Balanced(s, token)
    ensures Run(s, es).rows == s.rows && Balanced(Run(s, es), token)
    decreases |es|
  {
    if es != [] {
      BalancedStep(s, es[0], token);
      BalancedRun(Next(s, es[0]), es[1..], token);
    }
  }

  /** In every state of every interleaving of checks and reports, per token over all windows: two quotes for
      every check, a route missed or found for every check that knows, and a verdict of its own kind for
      every check that was judged. */
  lemma TokenCounts(mints: seq<string>, es: seq<Event>, token: string)
    requires token in mints
    ensures var s := Run(Start(mints), es);
            && token in s.rows
            && CountOf(s, token, QSent) == 2 * Checks(s, token, Begun)
            && CountOf(s, token, RouteFail) == Checks(s, token, NoRoute)
            && CountOf(s, token, RouteOk) == Checks(s, token, HasRoute)
            && CountOf(s, token, Profitable) == Checks(s, token, Good)
            && CountOf(s, token, NotProfitable) == Checks(s, token, Bad)
  {
    BalancedRun(Start(mints), es, token);
    var s := Run(Start(mints), es);
    assert forall kind :: CountOf(s, token, kind) == (if kind == QSent then 2 else 1) * Checks(s, token, CountedAt(kind));
  }

  lemma {:induction false} ChecksSplit(checks: seq<Check>, token: string)
    ensures Sum(Is(token, Begun), checks)
            == Sum(Is(token, InFlight), checks) + Sum(Is(token, NoRoute), checks) + Sum(Is(token, HasRoute), checks)
    ensures Sum(Is(token, HasRoute), checks)
            == Sum(Is(token, Unjudged), checks) + Sum(Is(token, Good), checks) + Sum(Is(token, Bad), checks)
  {
    if checks != [] {
      ChecksSplit(checks[1..], token);
    }
  }

  /** So two quotes were sent for every route found, every route missed and every check in flight, and every
      route found was judged once or is about to be. */
  lemma TokenBalance(mints: seq<string>, es: seq<Event>, token: string)
    requires token in mints
    ensures var s := Run(Start(mints), es);
            && token in s.rows
            && CountOf(s, token, QSent)
               == 2 * (CountOf(s, token, RouteOk) + CountOf(s, token, RouteFail) + Checks(s, token, InFlight))
            && CountOf(s, token, RouteOk)
               == CountOf(s, token, Profitable) + CountOf(s, token, NotProfitable) + Checks(s, token, Unjudged)
  {
    TokenCounts(mints, es, token);
    ChecksSplit(Run(Start(mints), es).checks, token);
  }
}

/** The two report files of each token (`spawn_reporter` of `src/token_metrics.rs`). */
module TokenReports {
  import opened Options
  import opened Atomics
  import opened QuoteChecks

  datatype Counts = Counts(qSent: int, routeOk: int, routeFail: int, profitable: int, notProfitable: int)

  const NONE := Counts(0, 0, 0, 0, 0)

  function CountIn(c: Counts, kind: Kind): int {
    match kind
    case QSent => c.qSent
    case RouteOk => c.routeOk
    case RouteFail => c.routeFail
    case Profitable => c.profitable
    case NotProfitable => c.notProfitable
  }

  /** Five-minute windows in a summary. */
  const WINDOWS := 6

  function Plus(a: Counts, b: Counts): Counts {
    Counts(a.qSent + b.qSent, a.routeOk + b.routeOk, a.routeFail + b.routeFail,
           a.profitable + b.profitable, a.notProfitable + b.notProfitable)
  }

  /** The snapshots of all tokens in each window so far, each of `n` tokens. */
  ghost predicate Widths(snaps: seq<seq<Counts>>, n: nat) {
    forall w :: 0 <= w < |snaps| ==> |snaps[w]| == n
  }

  /** Token `t`'s counts over the windows from `lo` up to `hi`. */
  ghost function Over(snaps: seq<seq<Counts>>, t: nat, lo: nat, hi: nat): Counts
    requires lo <= hi <= |snaps| && forall w :: lo <= w < hi ==> t < |snaps[w]|
    decreases hi
  {
    if lo == hi then NONE else Plus(Over(snaps, t, lo, hi - 1), snaps[hi - 1][t])
  }

  /** `report` holds every token's counts over the windows from `lo` up to `hi`. */
  ghost predicate Sums(report: seq<Counts>, snaps: seq<seq<Counts>>, n: nat, lo: nat, hi: nat)
    requires lo <= hi <= |snaps| && Widths(snaps, n)
  {
    |report| == n && forall t :: 0 <= t < n ==> report[t] == Over(snaps, t, lo, hi)
  }

  lemma {:induction false} OverLonger(snaps: seq<seq<Counts>>, snap: seq<Counts>, t: nat, lo: nat, hi: nat)
    requires lo <= hi <= |snaps| && forall w :: lo <= w < hi ==> t < |snaps[w]|
    ensures Over(snaps + [snap], t, lo, hi) == Over(snaps, t, lo, hi)
    decreases hi
  {
    if lo < hi {
      OverLonger(snaps, snap, t, lo, hi - 1);
    }
  }

  lemma SumsLonger(report: seq<Counts>, snaps: seq<seq<Counts>>, n: nat, lo: nat, hi: nat, snap: seq<Counts>)
    requires lo <= hi <= |snaps| && Widths(snaps, n) && Sums(report, snaps, n, lo, hi) && |snap| == n
    ensures Widths(snaps + [snap], n) && Sums(report, snaps + [snap], n, lo, hi)
  {
    forall t | 0 <= t < n {
      OverLonger(snaps, snap, t, lo, hi);
    }
  }

  /** Each summary holds exactly its own six windows, and the accumulator those since the last one. */
  ghost predicate Kept(summaries: seq<seq<Counts>>, acc: seq<Counts>, windows: nat, snaps: seq<seq<Counts>>, n: nat) {
    && windows < WINDOWS && WINDOWS * |summaries| + windows == |snaps| && Widths(snaps, n)
    && (forall j :: 0 <= j < |summaries| ==> Sums(summaries[j], snaps, n, WINDOWS * j, WINDOWS * j + WINDOWS))
    && Sums(acc, snaps, n, WINDOWS * |summaries|, |snaps|)
  }

  /** `sum` is `acc` with `snap` added token by token. */
  ghost predicate Accumulated(acc: seq<Counts>, snap: seq<Counts>, sum: seq<Counts>) {
    |acc| == |snap| == |sum| && forall t :: 0 <= t < |acc| ==> sum[t] == Plus(acc[t], snap[t])
  }

  lemma KeptLonger(summaries: seq<seq<Counts>>, acc: seq<Counts>, windows: nat, snaps: seq<seq<Counts>>, n: nat,
                   snap: seq<Counts>, sum: seq<Counts>)
    requires Kept(summaries, acc, windows, snaps, n) && |snap| == n && Accumulated(acc, snap, sum)
    ensures Widths(snaps + [snap], n)
    ensures forall j :: 0 <= j < |summaries| ==> Sums(summaries[j], snaps + [snap], n, WINDOWS * j, WINDOWS * j + WINDOWS)
    ensures Sums(sum, snaps + [snap], n, WINDOWS * |summaries|, |snaps| + 1)
  {
    forall j | 0 <= j < |summaries|
      ensures Sums(summaries[j], snaps + [snap], n, WINDOWS * j, WINDOWS * j + WINDOWS)
    {
      SumsLonger(summaries[j], snaps, n, WINDOWS * j, WINDOWS * j + WINDOWS, snap);
    }
    SumsLonger(acc, snaps, n, WINDOWS * |summaries|, |snaps|, snap);
  }

  lemma KeptSummary(summaries: seq<seq<Counts>>, acc: seq<Counts>, windows: nat, snaps: seq<seq<Counts>>, n: nat,
                    snap: seq<Counts>, sum: seq<Counts>, cleared: seq<Counts>)
    requires Kept(summaries, acc, windows, snaps, n) && |snap| == n && Accumulated(acc, snap, sum)
    requires |cleared| == n && forall t :: 0 <= t < n ==> cleared[t] == NONE
    ensures windows + 1 < WINDOWS ==> Kept(summaries, sum, windows + 1, snaps + [snap], n)
    ensures windows + 1 >= WINDOWS ==> Kept(summaries + [sum], cleared, 0, snaps + [snap], n)
  {
    KeptLonger(summaries, acc, windows, snaps, n, snap, sum);
  }

  /** The reporter task: its running accumulator and window count. */
  class Reporter {
    const acc: array<Counts>
    var windows: nat
    ghost var snaps: seq<seq<Counts>>     // every five-minute report so far
    ghost var summaries: seq<seq<Counts>> // every thirty-minute report so far

    ghost predicate Valid()
      reads this, acc
    {
      Kept(summaries, acc[..], windows, snaps, acc.Length)
    }

    constructor (tokens: nat)
      ensures Valid() && fresh(acc) && acc.Length == tokens && snaps == [] && summaries == []
    {
      acc := new Counts[tokens](_ => NONE);
      windows, snaps, summaries := 0, [], [];
    }

    /** What the reports hold of a counter is what has been drained from it. */
    ghost predicate Joined(counters: Counters<Cell>)
      requires Valid()
      reads this, acc, counters
    {
      Reported(counters.cells.drained, snaps, acc.Length)
    }

    /** One window: the swapped-out counters of all tokens are the five-minute report; every sixth window
        also writes the accumulator and clears it. Quote checks count on between the swaps. */
    method Tick(counters: Counters<Cell>, meanwhile: nat -> seq<(Cell, nat)>)
      returns (snap: seq<Counts>, summary: Option<seq<Counts>>)
      requires Valid() && Joined(counters)
      modifies this`windows, this`snaps, this`summaries, acc, counters
      ensures Valid() && Joined(counters)
      ensures snaps == old(snaps) + [snap]
      ensures summary.Some? <==> |snaps| % WINDOWS == 0
      ensures summaries == old(summaries) + if summary.Some? then [summary.value] else []
    {
      windows := windows + 1;
      snap := Snapshot(counters, acc.Length, meanwhile);
      Accumulate(acc, snap);
      KeptSummary(summaries, old(acc[..]), old(windows), snaps, acc.Length, snap, acc[..], Cleared(acc.Length));
      DrainedLonger(old(counters.cells.drained), counters.cells.drained, snaps, snap, acc.Length);
      snaps := snaps + [snap];
      summary := None;
      if windows >= 6 {
        summary := Some(acc[..]);
        summaries := summaries + [acc[..]];
        Clear(acc);
        windows := 0;
      }
    }

    /** Nothing counted is lost on the way into the reports: everything ever added to a counter is in the
        summaries, in the accumulator, or still in the counter. */
    lemma EverythingReported(counters: Counters<Cell>, t: nat, kind: Kind)
      requires Valid() && Joined(counters) && t < acc.Length
      ensures Total(counters.cells, Cell(t, kind))
              == CountIn(InSummaries(summaries, t, acc.Length), kind) + CountIn(acc[t], kind)
                 + Now(counters.cells, Cell(t, kind))
    {
      EveryWindowOnce(t);
    }

    /** At any time the summaries written and the accumulator hold every window once. */
    lemma EveryWindowOnce(t: nat)
      requires Valid() && t < acc.Length
      ensures Over(snaps, t, 0, |snaps|) == Plus(InSummaries(summaries, t, acc.Length), acc[t])
    {
      SummariesCover(snaps, summaries, t, acc.Length);
      OverSplit(snaps, t, 0, WINDOWS * |summaries|, |snaps|);
      assert acc[..][t] == acc[t];
    }
  }

  function Cleared(n: nat): seq<Counts> {
    seq(n, _ => NONE)
  }

  /** Token `t`'s counts in the summaries. */
  ghost function InSummaries(summaries: seq<seq<Counts>>, t: nat, n: nat): Counts
    requires t < n && Widths(summaries, n)
  {
    if summaries == [] then NONE
    else Plus(InSummaries(summaries[..|summaries| - 1], t, n), summaries[|summaries| - 1][t])
  }

  lemma {:induction false} OverSplit(snaps: seq<seq<Counts>>, t: nat, lo: nat, mid: nat, hi: nat)
    requires lo <= mid <= hi <= |snaps| && forall w :: lo <= w < hi ==> t < |snaps[w]|
    ensures Over(snaps, t, lo, hi) == Plus(Over(snaps, t, lo, mid), Over(snaps, t, mid, hi))
    decreases hi
  {
    if mid < hi {
      OverSplit(snaps, t, lo, mid, hi - 1);
    }
  }

  lemma {:induction false} SummariesCover(snaps: seq<seq<Counts>>, summaries: seq<seq<Counts>>, t: nat, n: nat)
    requires WINDOWS * |summaries| <= |snaps| && Widths(snaps, n) && Widths(summaries, n) && t < n
    requires forall j :: 0 <= j < |summaries| ==> Sums(summaries[j], snaps, n, WINDOWS * j, WINDOWS * j + WINDOWS)
    ensures InSummaries(summaries, t, n) == Over(snaps, t, 0, WINDOWS * |summaries|)
    decreases |summaries|
  {
    if summaries != [] {
      var m := |summaries| - 1;
      SummariesCover(snaps, summaries[..m], t, n);
      OverSplit(snaps, t, 0, WINDOWS * m, WINDOWS * m + WINDOWS);
    }
  }

  /** The snapshots hold all that was drained from the counters. */
  ghost predicate Reported(drained: map<Cell, int>, snaps: seq<seq<Counts>>, n: nat)
    requires Widths(snaps, n)
  {
    forall t: nat, kind :: t < n ==> Get(drained, Cell(t, kind)) == CountIn(Over(snaps, t, 0, |snaps|), kind)
  }

  /** The reports grow by one snapshot as what is drained does. */
  lemma DrainedLonger(before: map<Cell, int>, after: map<Cell, int>, snaps: seq<seq<Counts>>, snap: seq<Counts>, n: nat)
    requires Widths(snaps, n) && |snap| == n
    requires Reported(before, snaps, n) && Read(before, after, snap)
    ensures Widths(snaps + [snap], n) && Reported(after, snaps + [snap], n)
  {
    forall t: nat, kind | t < n
      ensures Get(after, Cell(t, kind)) == CountIn(Over(snaps + [snap], t, 0, |snaps| + 1), kind)
    {
      OverLonger(snaps, snap, t, 0, |snaps|);
    }
  }

  /** The rows of `snap` are what has been drained from the first rows, and nothing else has. */
  ghost predicate Read(before: map<Cell, int>, after: map<Cell, int>, snap: seq<Counts>) {
    forall t: nat, kind ::
      Get(after, Cell(t, kind)) == Get(before, Cell(t, kind)) + if t < |snap| then CountIn(snap[t], kind) else 0
  }

  /** The swaps of one window, row by row. */
  method Snapshot(counters: Counters<Cell>, rows: nat, meanwhile: nat -> seq<(Cell, nat)>) returns (snap: seq<Counts>)
    modifies counters
    ensures |snap| == rows && Read(old(counters.cells.drained), counters.cells.drained, snap)
  {
    snap := [];
    for t := 0 to rows
      invariant |snap| == t && Read(old(counters.cells.drained), counters.cells.drained, snap)
    {
      var row := SwapRow(counters, t, meanwhile);
      snap := snap + [row];
    }
  }

  /** `drained` with one more value read from a counter. */
  function OneMore(drained: map<Cell, int>, c: Cell, value: int): map<Cell, int> {
    drained[c := Get(drained, c) + value]
  }

  lemma RowRead(d: map<Cell, int>, t: nat, row: Counts, kind: Kind, r: nat)
    ensures var e := OneMore(OneMore(OneMore(OneMore(OneMore(d, Cell(t, QSent), row.qSent), Cell(t, RouteOk), row.routeOk),
                                             Cell(t, RouteFail), row.routeFail), Cell(t, Profitable), row.profitable),
                             Cell(t, NotProfitable), row.notProfitable);
            Get(e, Cell(r, kind)) == Get(d, Cell(r, kind)) + if r == t then CountIn(row, kind) else 0
  {
  }

  /** The five swaps of a row, with the additions of others before each. */
  method SwapRow(counters: Counters<Cell>, t: nat, meanwhile: nat -> seq<(Cell, nat)>) returns (row: Counts)
    modifies counters
    ensures forall r: nat, kind ::
              Get(counters.cells.drained, Cell(r, kind))
              == Get(old(counters.cells.drained), Cell(r, kind)) + if r == t then CountIn(row, kind) else 0
  {
    ghost var d := counters.cells.drained;
    var qSent := SwapAfter(counters, Cell(t, QSent), meanwhile(5 * t));
    var routeOk := SwapAfter(counters, Cell(t, RouteOk), meanwhile(5 * t + 1));
    var routeFail := SwapAfter(counters, Cell(t, RouteFail), meanwhile(5 * t + 2));
    var profitable := SwapAfter(counters, Cell(t, Profitable), meanwhile(5 * t + 3));
    var notProfitable := SwapAfter(counters, Cell(t, NotProfitable), meanwhile(5 * t + 4));
    row := Counts(qSent, routeOk, routeFail, profitable, notProfitable);
    forall r: nat, kind
      ensures Get(counters.cells.drained, Cell(r, kind)) == Get(d, Cell(r, kind)) + if r == t then CountIn(row, kind) else 0
    {
      RowRead(d, t, row, kind, r);
    }
  }

  /** One swap, after others have counted. */
  method SwapAfter(counters: Counters<Cell>, c: Cell, adds: seq<(Cell, nat)>) returns (value: int)
    modifies counters
    ensures value >= Now(old(counters.cells), c)
    ensures counters.cells.drained == OneMore(old(counters.cells.drained), c, value)
  {
    Others(counters, adds);
    value := counters.SwapZero(c);
  }

  /** Quote checks count; nothing is drained. */
  method Others(counters: Counters<Cell>, adds: seq<(Cell, nat)>)
    modifies counters
    ensures counters.cells.drained == old(counters.cells.drained)
    ensures forall c :: Now(counters.cells, c) >= Now(old(counters.cells), c)
  {
    for i := 0 to |adds|
      invariant counters.cells.drained == old(counters.cells.drained)
      invariant forall c :: Now(counters.cells, c) >= Now(old(counters.cells), c)
    {
      counters.FetchAdd(adds[i].0, adds[i].1);
    }
  }

  /** The `zip` loop over the accumulator and the snapshot. */
  method Accumulate(acc: array<Counts>, snap: seq<Counts>)
    requires |snap| == acc.Length
    modifies acc
    ensures Accumulated(old(acc[..]), snap, acc[..])
  {
    for t := 0 to acc.Length
      invariant forall i :: 0 <= i < t ==> acc[i] == Plus(old(acc[i]), snap[i])
      invariant forall i :: t <= i < acc.Length ==> acc[i] == old(acc[i])
    {
      acc[t] := Plus(acc[t], snap[t]);
    }
  }

  method Clear(acc: array<Counts>)
    modifies acc
    ensures acc[..] == Cleared(acc.Length)
  {
    for t := 0 to acc.Length
      invariant forall i :: 0 <= i < t ==> acc[i] == NONE
    {
      acc[t] := NONE;
    }
  }
}
