/** The refresh loop of a region's access token as a timed state machine (`token_refresh_loop` of
    `src/jito_grpc.rs`). Moments are in milliseconds, expiries and the clock of the loop in seconds. */
module TokenRefresh {
  import opened Options

  /** Expiries of the stored tokens, in seconds. */
  datatype Tokens = Tokens(accessExpires: nat, refreshExpires: nat)

  datatype Loop = Loop(now: nat, tokens: Option<Tokens>)

  datatype RefreshReply = Refreshed(accessExpires: nat) | NoAccessToken | Refused

  /** What one iteration meets: how late the timer fires, the answers, and how long they take. */
  datatype Weather = Weather(late: nat, refresh: RefreshReply, auth: Option<Tokens>, took: nat)

  /** `now_secs` */
  function Seconds(ms: nat): nat {
    ms / 1000
  }

  function SaturatingSub(a: nat, b: nat): nat {
    if a >= b then a - b else 0
  }

  /** Seconds the loop sleeps first. */
  function SleepSecs(s: Loop): nat {
    match s.tokens
    case None => 300
    case Some(t) =>
      var left := SaturatingSub(SaturatingSub(t.accessExpires, Seconds(s.now)), 60);
      var atLeast := if left < 10 then 10 else left;
      if atLeast > 300 then 300 else atLeast
  }

  function WakesAt(s: Loop, w: Weather): nat {
    s.now + 1000 * SleepSecs(s) + w.late
  }

  predicate NeedsFullReauth(tokens: Option<Tokens>, now: nat) {
    tokens.None? || SaturatingSub(tokens.value.refreshExpires, Seconds(now)) < 120
  }

  /** When the answers are in. */
  function AnswersAt(s: Loop, w: Weather): nat {
    WakesAt(s, w) + w.took
  }

  /** The refresh token is sent. */
  predicate UsesRefreshToken(s: Loop, w: Weather) {
    !NeedsFullReauth(s.tokens, WakesAt(s, w))
  }

  /** The tokens the iteration stores, if it stores any: from a full authentication, or the old ones with
      a new access token. */
  function Stored(s: Loop, w: Weather): Option<Tokens> {
    if !UsesRefreshToken(s, w) then w.auth
    else match w.refresh
      case Refreshed(e) => Some(s.tokens.value.(accessExpires := e))
      case NoAccessToken => None
      case Refused => w.auth
  }

  /** A failed authentication waits another 30 seconds. */
  predicate BacksOff(s: Loop, w: Weather) {
    (!UsesRefreshToken(s, w) || w.refresh.Refused?) && w.auth.None?
  }

  function After(s: Loop, w: Weather): Loop {
    Loop(AnswersAt(s, w) + if BacksOff(s, w) then 30_000 else 0,
         if Stored(s, w).Some? then Stored(s, w) else s.tokens)
  }

  /** The loop of one region: the shared tokens and the clock. */
  class Region {
    var tokens: Option<Tokens>
    var now: nat

    function State(): Loop
      reads this
    {
      Loop(now, tokens)
    }

    constructor (now: nat, tokens: Option<Tokens>)
      ensures State() == Loop(now, tokens)
    {
      this.now, this.tokens := now, tokens;
    }

    method Sleep(secs: nat, late: nat)
      modifies this`now
      ensures now == old(now) + 1000 * secs + late
    {
      now := now + 1000 * secs + late;
    }

    /** One turn of the loop: it sleeps until a minute before the expiry, between 10 and 300 seconds; a
        refreshed access token keeps the refresh token; without a refresh token good for two minutes, or when
        it is refused, the full authentication decides, and its failure costs 30 seconds and no token. */
    method Iteration(w: Weather)
      modifies this
      ensures State() == After(old(State()), w)
      ensures var left := if old(tokens).None? then 300 else old(tokens).value.accessExpires - old(now) / 1000 - 60;
              var wakes := old(now) + 1000 * (if left < 10 then 10 else if left > 300 then 300 else left) + w.late;
              var fullAuth := old(tokens).None? || old(tokens).value.refreshExpires < wakes / 1000 + 120 || w.refresh.Refused?;
              && (fullAuth && w.auth.Some? ==> tokens == w.auth && now == wakes + w.took)
              && (fullAuth && w.auth.None? ==> tokens == old(tokens) && now == wakes + w.took + 30_000)
              && (!fullAuth && w.refresh.Refreshed? ==>
                    tokens == Some(Tokens(w.refresh.accessExpires, old(tokens).value.refreshExpires)) && now == wakes + w.took)
              && (!fullAuth && w.refresh.NoAccessToken? ==> tokens == old(tokens) && now == wakes + w.took)
    {
      var secs := 300;
      if tokens.Some? {
        var left := SaturatingSub(SaturatingSub(tokens.value.accessExpires, Seconds(now)), 60);
        secs := if left < 10 then 10 else left;
        secs := if secs > 300 then 300 else secs;
      }
      Sleep(secs, w.late);

      if NeedsFullReauth(tokens, now) {
        now := now + w.took;
        if w.auth.Some? {
          tokens := w.auth;
        } else {
          Sleep(30, 0);
        }
        return;
      }

      now := now + w.took;
      match w.refresh {
        case Refreshed(e) => tokens := Some(tokens.value.(accessExpires := e));
        case NoAccessToken =>
        case Refused =>
          if w.auth.Some? {
            tokens := w.auth;
          } else {
            Sleep(30, 0);
          }
      }
    }
  }

  // ── Liveness of the stored access token ───────────────────────────────────

  /** The access token is not expired at a moment. */
  predicate Alive(tokens: Option<Tokens>, at: nat) {
    tokens.Some? ==> at < 1000 * tokens.value.accessExpires
  }

  /** At least 70 seconds are left. */
  predicate LongLived(tokens: Option<Tokens>, at: nat) {
    tokens.Some? ==> at + 70_000 <= 1000 * tokens.value.accessExpires
  }

  /** The iteration stores tokens within `d` milliseconds of its sleep, with at least 70 seconds left. */
  predicate Succeeds(s: Loop, w: Weather, d: nat) {
    Stored(s, w).Some? && w.late + w.took <= d && LongLived(Stored(s, w), AnswersAt(s, w))
  }

  /** The stored token is alive from the start of the iteration until another one is stored. */
  ghost predicate AliveDuring(s: Loop, w: Weather) {
    forall at: nat :: s.now <= at <= AnswersAt(s, w) ==> Alive(s.tokens, at)
  }

  ghost predicate AllSucceed(s: Loop, ws: seq<Weather>, d: nat)
    decreases |ws|
  {
    ws == [] || (Succeeds(s, ws[0], d) && AllSucceed(After(s, ws[0]), ws[1..], d))
  }

  ghost predicate AlwaysAlive(s: Loop, ws: seq<Weather>)
    decreases |ws|
  {
    ws == [] || (AliveDuring(s, ws[0]) && AlwaysAlive(After(s, ws[0]), ws[1..]))
  }

  /** With 70 seconds left the loop wakes at least 59 seconds before the expiry; a whole second of the
      minute is lost because its clock drops the milliseconds. */
  lemma WakesInTime(s: Loop, w: Weather)
    requires s.tokens.Some? && LongLived(s.tokens, s.now)
    ensures s.now + 1000 * SleepSecs(s) + 59_000 < 1000 * s.tokens.value.accessExpires
    ensures 10 <= SleepSecs(s) <= 300
  {
  }

  /** Liveness: if every iteration succeeds within 59 seconds of its sleep, the stored access token is
      never expired, over any run. */
  lemma {:induction false} TokenStaysAlive(s: Loop, ws: seq<Weather>, d: nat)
    requires d <= 59_000 && LongLived(s.tokens, s.now) && AllSucceed(s, ws, d)
    ensures AlwaysAlive(s, ws)
    decreases |ws|
  {
    if ws != [] {
      if s.tokens.Some? {
        WakesInTime(s, ws[0]);
      }
      TokenStaysAlive(After(s, ws[0]), ws[1..], d);
    }
  }

  /** With one millisecond more a token received with 70 seconds left can expire before its successor is
      stored: here the timer fires late and the answer takes no time at all. */
  lemma OneMillisecondMore()
    ensures var s, w := Loop(999, Some(Tokens(71, 1000))), Weather(59_001, Refreshed(1000), None, 0);
            LongLived(s.tokens, s.now) && AllSucceed(s, [w], 59_001) && !AlwaysAlive(s, [w])
  {
    var s, w := Loop(999, Some(Tokens(71, 1000))), Weather(59_001, Refreshed(1000), None, 0);
    assert Seconds(999) == 0 && SleepSecs(s) == 11 && WakesAt(s, w) == 71_000;
    assert Seconds(71_000) == 71;
    assert AnswersAt(s, w) == 71_000 && !Alive(s.tokens, 71_000);
    assert [w][1..] == [];
  }

  lemma {:induction false} SucceedsLater(s: Loop, ws: seq<Weather>, d: nat, e: nat)
    requires d <= e && AllSucceed(s, ws, d)
    ensures AllSucceed(s, ws, e)
    decreases |ws|
  {
    if ws != [] {
      SucceedsLater(After(s, ws[0]), ws[1..], d, e);
    }
  }

  /** The token stays alive over every run whose iterations succeed within `d` exactly when `d` is at
      most 59 seconds. */
  lemma DeadlineExact(d: nat)
    ensures (forall s: Loop, ws :: LongLived(s.tokens, s.now) && AllSucceed(s, ws, d) ==> AlwaysAlive(s, ws))
            <==> d <= 59_000
  {
    if d <= 59_000 {
      forall s: Loop, ws | LongLived(s.tokens, s.now) && AllSucceed(s, ws, d) {
        TokenStaysAlive(s, ws, d);
      }
    } else {
      OneMillisecondMore();
      var s, w := Loop(999, Some(Tokens(71, 1000))), Weather(59_001, Refreshed(1000), None, 0);
      SucceedsLater(s, [w], 59_001, d);
    }
  }

  // ── Use of the refresh token ──────────────────────────────────────────────

  /** A refresh token is only sent with at least 120 seconds left on the loop's clock, so with more than
      119 seconds left in fact. */
  lemma RefreshTokenLeft(s: Loop, w: Weather)
    requires UsesRefreshToken(s, w)
    ensures s.tokens.Some? && s.tokens.value.refreshExpires >= Seconds(WakesAt(s, w)) + 120
    ensures 1000 * s.tokens.value.refreshExpires > WakesAt(s, w) + 119_000
  {
  }

  /** So 119 seconds, not the 120 of the test, are what a refresh token always has left in fact. */
  lemma RefreshTokenLeftExact(b: nat)
    ensures (forall s: Loop, w :: UsesRefreshToken(s, w) ==> 1000 * s.tokens.value.refreshExpires > WakesAt(s, w) + b)
            <==> b <= 119_000
  {
    if b <= 119_000 {
      forall s: Loop, w | UsesRefreshToken(s, w) {
        RefreshTokenLeft(s, w);
      }
    } else {
      var s, w := Loop(999, Some(Tokens(71, 131))), Weather(0, NoAccessToken, None, 0);
      assert Seconds(999) == 0 && WakesAt(s, w) == 11_999 && Seconds(11_999) == 11;
      assert UsesRefreshToken(s, w);
    }
  }
}
