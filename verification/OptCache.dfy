/** The option-cache loop's heartbeat, and the watchdog that warns when it stops. */
module OptCache {
  import opened Common

  // Raw settings; the loop clamps them as it uses them.
  datatype Config = Config(pacingSec: real, oneShotTimeoutSec: real, refreshSec: real, maxContracts: int) {
    function Pacing(): real { MaxReal(0.0, pacingSec) }
    function Timeout(): real { MaxReal(1.0, oneShotTimeoutSec) }
    function Sleep(): real { MaxReal(1.0, refreshSec) }
    function Cap(): nat { Max(1, maxContracts) }

    // The longest the loop goes without a heartbeat.
    function Bound(): real { MaxReal(5.0, Pacing() + MaxReal(Timeout(), Sleep())) }
  }

  // A listed key, and how long its one-shot takes; wait_for ends it after the timeout, answered or not.
  datatype OneShot = OneShot(parses: bool, wants: real)

  // One iteration of the loop as the world arranges it.
  datatype Turn =
    | Disabled
    | NoHost
    | Refresh(listing: seq<OneShot>)   // empty too when the host is lost or the listing raises

  predicate Possible(t: Turn) {
    t.Refresh? ==> forall i | 0 <= i < |t.listing| :: t.listing[i].wants >= 0.0
  }

  // Heartbeats in order, none more than `bound` after the one before, the last at most `slack` ago.
  ghost predicate Steady(beats: seq<real>, clock: real, bound: real, slack: real) {
    && beats != []
    && (forall i | 0 <= i < |beats| - 1 :: beats[i] <= beats[i + 1] <= beats[i] + bound)
    && beats[|beats| - 1] <= clock <= beats[|beats| - 1] + slack
  }

  // The contracts a refresh gets to: the first of the listing, at least one and at most max_contracts.
  function Todo(cfg: Config, listing: seq<OneShot>): seq<OneShot> {
    var cap := if cfg.maxContracts < 1 then 1 else cfg.maxContracts;
    if |listing| <= cap then listing else listing[..cap]
  }

  // How many of the first n keys parse: each of them is asked for once.
  function Parsing(todo: seq<OneShot>, n: nat): nat
    requires n <= |todo|
  {
    if n == 0 then 0 else Parsing(todo, n - 1) + if todo[n - 1].parses then 1 else 0
  }

  // The time one key takes: what its one-shot wants, cut at the timeout, and the pacing if more keys follow.
  function Took(cfg: Config, x: OneShot, more: bool): real {
    if !x.parses then 0.0
    else
      var timeout := if cfg.oneShotTimeoutSec < 1.0 then 1.0 else cfg.oneShotTimeoutSec;
      (if x.wants < timeout then x.wants else timeout) + (if cfg.pacingSec > 0.0 && more then cfg.pacingSec else 0.0)
  }

  function Spent(cfg: Config, todo: seq<OneShot>, n: nat): real
    requires n <= |todo|
  {
    if n == 0 then 0.0 else Spent(cfg, todo, n - 1) + Took(cfg, todo[n - 1], n < |todo|)
  }

  // How long one iteration lasts, and how many heartbeats it takes.
  function Lasts(cfg: Config, turn: Turn): real {
    match turn
    case Disabled => 5.0
    case NoHost => 2.0
    case Refresh(listing) =>
      var todo := Todo(cfg, listing);
      Spent(cfg, todo, |todo|) + if cfg.refreshSec < 1.0 then 1.0 else cfg.refreshSec
  }

  function BeatsOf(cfg: Config, turn: Turn): nat {
    1 + if turn.Refresh? then Parsing(Todo(cfg, turn.listing), |Todo(cfg, turn.listing)|) else 0
  }

  function LastsAll(cfg: Config, turns: seq<Turn>, n: nat): real
    requires n <= |turns|
  {
    if n == 0 then 0.0 else LastsAll(cfg, turns, n - 1) + Lasts(cfg, turns[n - 1])
  }

  function BeatsOfAll(cfg: Config, turns: seq<Turn>, n: nat): nat
    requires n <= |turns|
  {
    if n == 0 then 0 else BeatsOfAll(cfg, turns, n - 1) + BeatsOf(cfg, turns[n - 1])
  }

  class Loop {
    const cfg: Config
    var clock: real
    var progressAt: real
    var beats: seq<real>      // every value _opt_cache_progress_at took

    constructor (cfg: Config, start: real)
      ensures this.cfg == cfg && clock == start && beats == [start] && progressAt == start
    {
      this.cfg := cfg;
      clock, progressAt, beats := start, start, [start];
    }

    method Beat()
      requires Steady(beats, clock, cfg.Bound(), cfg.Bound())
      modifies this`progressAt, this`beats
      ensures progressAt == clock && beats == old(beats) + [clock]
      ensures Steady(beats, clock, cfg.Bound(), 0.0)
    {
      progressAt := clock;
      beats := beats + [clock];
    }

    // One listed key.
    method Ask(x: OneShot, more: bool)
      requires Steady(beats, clock, cfg.Bound(), cfg.Pacing()) && x.wants >= 0.0
      modifies this`clock, this`progressAt, this`beats
      ensures Steady(beats, clock, cfg.Bound(), cfg.Pacing())
      ensures old(beats) <= beats && old(clock) <= clock
      ensures clock == old(clock) + Took(cfg, x, more) && |beats| == |old(beats)| + if x.parses then 1 else 0
    {
      if x.parses {
        clock := clock + MinReal(x.wants, cfg.Timeout());
        assert Steady(beats, clock, cfg.Bound(), cfg.Pacing() + cfg.Timeout());
        Beat();
        if cfg.Pacing() > 0.0 && more { clock := clock + cfg.Pacing(); }
      }
    }

    // _refresh_opt_cache_once, as far as time goes.
    method RefreshOnce(listing: seq<OneShot>)
      requires Steady(beats, clock, cfg.Bound(), 0.0)
      requires Possible(Refresh(listing))
      modifies this`clock, this`progressAt, this`beats
      ensures Steady(beats, clock, cfg.Bound(), cfg.Pacing())
      ensures old(beats) <= beats && old(clock) <= clock
      ensures clock == old(clock) + Spent(cfg, Todo(cfg, listing), |Todo(cfg, listing)|)
      ensures |beats| == |old(beats)| + Parsing(Todo(cfg, listing), |Todo(cfg, listing)|)
    {
      var todo := if |listing| > cfg.Cap() then listing[..cfg.Cap()] else listing;
      var i := 0;
      while i < |todo|
        invariant 0 <= i <= |todo|
        invariant clock == old(clock) + Spent(cfg, todo, i) && |beats| == |old(beats)| + Parsing(todo, i)
        invariant Steady(beats, clock, cfg.Bound(), cfg.Pacing())
        invariant old(beats) <= beats && old(clock) <= clock
      {
        Ask(todo[i], i + 1 < |todo|);
        i := i + 1;
      }
    }

    method Iterate(turn: Turn)
      requires Steady(beats, clock, cfg.Bound(), cfg.Bound()) && Possible(turn)
      modifies this`clock, this`progressAt, this`beats
      ensures Steady(beats, clock, cfg.Bound(), cfg.Bound())
      ensures old(beats) <= beats && old(clock) <= clock
      ensures clock == old(clock) + Lasts(cfg, turn) && |beats| == |old(beats)| + BeatsOf(cfg, turn)
    {
      Beat();
      match turn {
        case Disabled => clock := clock + 5.0;
        case NoHost => clock := clock + 2.0;
        case Refresh(listing) =>
          RefreshOnce(listing);
          clock := clock + cfg.Sleep();
          assert Steady(beats, clock, cfg.Bound(), cfg.Pacing() + cfg.Sleep());
      }
    }

    // _opt_cache_loop
    method Run(turns: seq<Turn>)
      requires Steady(beats, clock, cfg.Bound(), 0.0)
      requires forall k | 0 <= k < |turns| :: Possible(turns[k])
      modifies this`clock, this`progressAt, this`beats
      ensures Steady(beats, clock, cfg.Bound(), cfg.Bound())
      ensures old(beats) <= beats && old(clock) <= clock
      ensures clock == old(clock) + LastsAll(cfg, turns, |turns|)
      ensures |beats| == |old(beats)| + BeatsOfAll(cfg, turns, |turns|)
    {
      var k := 0;
      while k < |turns|
        invariant 0 <= k <= |turns|
        invariant clock == old(clock) + LastsAll(cfg, turns, k) && |beats| == |old(beats)| + BeatsOfAll(cfg, turns, k)
        invariant Steady(beats, clock, cfg.Bound(), cfg.Bound())
        invariant old(beats) <= beats && old(clock) <= clock
      {
        Iterate(turns[k]);
        k := k + 1;
      }
    }
  }

  // At any moment of the loop's life some heartbeat is at most `bound` old.
  lemma {:induction false} RecentBeat(beats: seq<real>, clock: real, bound: real, t: real) returns (i: nat)
    requires Steady(beats, clock, bound, bound)
    requires beats[0] <= t <= clock
    ensures i < |beats| && beats[i] <= t <= beats[i] + bound
    decreases |beats|
  {
    var last := |beats| - 1;
    if beats[last] <= t {
      i := last;
    } else {
      i := RecentBeat(beats[..last], beats[last], bound, t);
    }
  }

  // ---- The watchdog ----

  function Age(ts: real, progressAt: real): real { ts - progressAt }

  predicate Warns(ts: real, progressAt: real, limit: real, warnedAt: real) {
    Age(ts, progressAt) > limit && ts - warnedAt >= limit
  }

  class Watchdog {
    const limit: real
    var warnedAt: real

    constructor (limit: real)
      ensures this.limit == limit && warnedAt == 0.0
    {
      this.limit := limit;
      warnedAt := 0.0;
    }

    method CheckLiveness(ts: real, progressAt: real) returns (age: real, warned: bool)
      modifies this
      ensures age == Age(ts, progressAt)
      ensures warned == Warns(ts, progressAt, limit, old(warnedAt))
      ensures warnedAt == if warned then ts else old(warnedAt)
    {
      age := ts - progressAt;
      warned := age > limit && ts - warnedAt >= limit;
      if warned { warnedAt := ts; }
    }
  }

  // While the loop lives, a limit at or above the bound never warns, whatever the contracts do. The
  // operator's own refreshes only add heartbeats, so progressAt is at least the loop's latest.
  lemma NeverCriesWolf(cfg: Config, beats: seq<real>, clock: real, ts: real, progressAt: real,
                       limit: real, warnedAt: real)
    requires Steady(beats, clock, cfg.Bound(), cfg.Bound())
    requires beats[0] <= ts <= clock
    requires forall i | 0 <= i < |beats| && beats[i] <= ts :: beats[i] <= progressAt
    requires limit >= cfg.Bound()
    ensures Age(ts, progressAt) <= cfg.Bound()
    ensures !Warns(ts, progressAt, limit, warnedAt)
  {
    var i := RecentBeat(beats, clock, cfg.Bound(), ts);
  }

  // A check of the health loop: its time and the heartbeat it reads.
  datatype Look = Look(ts: real, progressAt: real)

  function WarnedAt(looks: seq<Look>, limit: real): real {
    if looks == [] then 0.0
    else
      var before, l := WarnedAt(looks[..|looks| - 1], limit), looks[|looks| - 1];
      if Warns(l.ts, l.progressAt, limit, before) then l.ts else before
  }

  predicate WarnsAt(looks: seq<Look>, limit: real, i: nat)
    requires i < |looks|
  {
    Warns(looks[i].ts, looks[i].progressAt, limit, WarnedAt(looks[..i], limit))
  }

  lemma {:induction false} WarnedLast(looks: seq<Look>, limit: real, lo: nat, n: nat)
    requires lo <= n <= |looks| && (lo == 0 || WarnsAt(looks, limit, lo - 1))
    requires forall k | lo <= k < n :: !WarnsAt(looks, limit, k)
    ensures WarnedAt(looks[..n], limit) == if lo == 0 then 0.0 else looks[lo - 1].ts
    decreases n
  {
    if n == 0 {
      assert looks[..0] == [];
    } else {
      var p := looks[..n];
      assert p[..|p| - 1] == looks[..n - 1] && p[|p| - 1] == looks[n - 1];
      assert WarnsAt(looks, limit, n - 1) <==> lo == n;
      if lo < n { WarnedLast(looks, limit, lo, n - 1); }
    }
  }

  // When a check warns: the heartbeat is older than the limit, and the last warning, if there was one, is at
  // least one limit ago.
  lemma WarnsIff(looks: seq<Look>, limit: real, lo: nat, i: nat)
    requires lo <= i < |looks| && (lo == 0 || WarnsAt(looks, limit, lo - 1))
    requires forall k | lo <= k < i :: !WarnsAt(looks, limit, k)
    ensures WarnsAt(looks, limit, i) <==>
      && looks[i].ts - looks[i].progressAt > limit
      && looks[i].ts - (if lo == 0 then 0.0 else looks[lo - 1].ts) >= limit
  {
    WarnedLast(looks, limit, lo, i);
  }

  // Any two warnings of a run are at least one limit apart.
  lemma {:induction false} WarningsAreSpaced(looks: seq<Look>, limit: real, i: nat, n: nat)
    requires 0.0 <= limit && i < n <= |looks| && WarnsAt(looks, limit, i)
    ensures WarnedAt(looks[..n], limit) >= looks[i].ts
    ensures n < |looks| && WarnsAt(looks, limit, n) ==> looks[n].ts - looks[i].ts >= limit
    decreases n
  {
    assert looks[..n][..n - 1] == looks[..n - 1];
    if n - 1 > i { WarningsAreSpaced(looks, limit, i, n - 1); }
  }
}
