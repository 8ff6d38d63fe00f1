/**
 * _maybe_self_heal_snapshot_stale: the ladder from a stale account snapshot to a soft reconnect and,
 * after enough of them, to leaving the process so the pod restarts.
 */
module SelfHeal {
  import opened Common

  datatype Config = Config(enabled: bool, staleSec: real, cooldown: real, maxBeforeRollout: int)

  // One call as the health loop makes it. `snapshot` is what the first read of updated_at gives and
  // `reread` what the read after the reconnect and the 20 s wait would give; None is a failed or
  // missing read.
  datatype Check = Check(now: real, runtimeEnabled: bool, hostOk: bool, snapshot: Option<real>, reread: Option<real>)

  datatype Action =
    | Skipped                 // disabled, host down, cooling down, or nothing to read
    | SawFresh                // a fresh snapshot, seen outside cooldown: the streak is over
    | SoftReconnect
    | PodExit                 // a soft reconnect that did not help; the process ends

  datatype State = State(streak: nat, cooldownUntil: real)

  predicate Looks(cfg: Config, s: State, c: Check) {
    cfg.enabled && c.runtimeEnabled && c.hostOk && c.now >= s.cooldownUntil && c.snapshot.Some?
  }

  predicate StaleAfter(cfg: Config, c: Check) {
    c.reread.None? || c.now - c.reread.value > cfg.staleSec
  }

  function Step(cfg: Config, s: State, c: Check): (State, Action) {
    if !Looks(cfg, s, c) then (s, Skipped)
    else if c.now - c.snapshot.value <= cfg.staleSec then (s.(streak := 0), SawFresh)
    else
      var s' := State(s.streak + 1, c.now + cfg.cooldown);
      (s', if s'.streak >= cfg.maxBeforeRollout && StaleAfter(cfg, c) then PodExit else SoftReconnect)
  }

  class Ladder {
    const cfg: Config
    var streak: nat
    var cooldownUntil: real

    constructor (cfg: Config)
      ensures this.cfg == cfg && Contents() == State(0, 0.0)
    {
      this.cfg := cfg;
      streak, cooldownUntil := 0, 0.0;
    }

    function Contents(): State
      reads this
    {
      State(streak, cooldownUntil)
    }

    method MaybeSelfHeal(c: Check) returns (action: Action)
      modifies this
      ensures (Contents(), action) == Step(cfg, old(Contents()), c)
    {
      if !cfg.enabled || !c.runtimeEnabled { return Skipped; }
      if !c.hostOk { return Skipped; }
      if c.now < cooldownUntil { return Skipped; }
      if c.snapshot.None? { return Skipped; }
      var age := c.now - c.snapshot.value;
      if age <= cfg.staleSec {
        if streak > 0 { streak := 0; }
        return SawFresh;
      }
      streak := streak + 1;
      cooldownUntil := c.now + cfg.cooldown;
      // the soft reconnect: tickers cleared, disconnect_all, reconnect_all
      if streak >= cfg.maxBeforeRollout {
        var ageAfter := if c.reread.Some? then c.now - c.reread.value else cfg.staleSec + 1.0;
        if ageAfter > cfg.staleSec { return PodExit; }
      }
      return SoftReconnect;
    }
  }

  // ---- Runs: any sequence of checks from the start ----

  function After(cfg: Config, checks: seq<Check>): State {
    if checks == [] then State(0, 0.0)
    else Step(cfg, After(cfg, checks[..|checks| - 1]), checks[|checks| - 1]).0
  }

  function Did(cfg: Config, checks: seq<Check>, i: nat): Action
    requires i < |checks|
  {
    Step(cfg, After(cfg, checks[..i]), checks[i]).1
  }

  predicate Reconnects(cfg: Config, checks: seq<Check>, i: nat)
    requires i < |checks|
  {
    Did(cfg, checks, i).SoftReconnect? || Did(cfg, checks, i).PodExit?
  }

  // Soft reconnects among checks lo..hi.
  function CountReconnects(cfg: Config, checks: seq<Check>, lo: nat, hi: nat): nat
    requires lo <= hi <= |checks|
    decreases hi
  {
    if lo == hi then 0
    else CountReconnects(cfg, checks, lo, hi - 1) + if Reconnects(cfg, checks, hi - 1) then 1 else 0
  }

  // n cooldowns: n * d, see TimesIsProduct.
  function Times(n: nat, d: real): real {
    if n == 0 then 0.0 else Times(n - 1, d) + d
  }

  lemma {:induction false} TimesIsProduct(n: nat, d: real)
    ensures Times(n, d) == n as real * d
  {
    if n > 0 {
      TimesIsProduct(n - 1, d);
      var m := (n - 1) as real;
      assert n as real == m + 1.0;
      assert (m + 1.0) * d == m * d + d;
    }
  }

  lemma PrefixStep(checks: seq<Check>, n: nat)
    requires n < |checks|
    ensures checks[..n + 1][..n] == checks[..n] && checks[..n + 1][n] == checks[n]
  {
  }

  // Soft reconnects are at least one cooldown apart; no assumption on the clock is needed for two that
  // follow each other.
  lemma {:induction false} CooldownHolds(cfg: Config, checks: seq<Check>, i: nat, n: nat)
    requires i < n <= |checks| && Reconnects(cfg, checks, i)
    requires forall k | i < k < n :: !Reconnects(cfg, checks, k)
    ensures After(cfg, checks[..n]).cooldownUntil == checks[i].now + cfg.cooldown
    decreases n
  {
    PrefixStep(checks, n - 1);
    if n - 1 > i {
      assert !Reconnects(cfg, checks, n - 1);
      CooldownHolds(cfg, checks, i, n - 1);
    }
  }

  lemma Spacing(cfg: Config, checks: seq<Check>, i: nat, j: nat)
    requires i < j < |checks| && Reconnects(cfg, checks, i) && Reconnects(cfg, checks, j)
    requires forall k | i < k < j :: !Reconnects(cfg, checks, k)
    ensures checks[j].now >= checks[i].now + cfg.cooldown
  {
    CooldownHolds(cfg, checks, i, j);
  }

  // Where the current streak began, and what it proves.
  ghost predicate StreakFrom(cfg: Config, checks: seq<Check>, n: nat, first: nat)
    requires n <= |checks|
  {
    var s := After(cfg, checks[..n]);
    && first < n && Reconnects(cfg, checks, first)
    && (forall k | first <= k < n :: !Did(cfg, checks, k).SawFresh?)
    && CountReconnects(cfg, checks, first, n) == s.streak
    && s.cooldownUntil >= checks[first].now + Times(s.streak, cfg.cooldown)
  }

  // The streak counts the soft reconnects since the last fresh observation made outside cooldown; host
  // outages, cooldown and missing snapshots leave it alone.
  lemma {:induction false} StreakEvidence(cfg: Config, checks: seq<Check>, n: nat) returns (first: nat)
    requires n <= |checks|
    ensures After(cfg, checks[..n]).streak > 0 ==> StreakFrom(cfg, checks, n, first)
    decreases n
  {
    first := 0;
    if n > 0 {
      PrefixStep(checks, n - 1);
      var before := After(cfg, checks[..n - 1]);
      if before.streak > 0 {
        first := StreakEvidence(cfg, checks, n - 1);
      } else {
        first := n - 1;
      }
    }
  }

  // The last of n cooldowns is still to come.
  lemma SpanOf(n: nat, d: real, first: real, last: real)
    requires n > 0 && last + d >= first + Times(n, d)
    ensures last - first >= Times(n - 1, d)
  {
  }

  // A pod exit has at least max_before_rollout soft reconnects behind it, itself included, with no
  // fresh observation between the first and the last, spanning at least (count - 1) cooldowns.
  lemma ExitEvidence(cfg: Config, checks: seq<Check>, j: nat) returns (first: nat)
    requires j < |checks| && Did(cfg, checks, j).PodExit?
    ensures first <= j && Reconnects(cfg, checks, first)
    ensures var count := CountReconnects(cfg, checks, first, j + 1);
      && count >= Max(1, cfg.maxBeforeRollout)
      && checks[j].now - checks[first].now >= Times(count - 1, cfg.cooldown)
    ensures forall k | first <= k <= j :: !Did(cfg, checks, k).SawFresh?
  {
    PrefixStep(checks, j);
    first := StreakEvidence(cfg, checks, j + 1);
    var s := After(cfg, checks[..j + 1]);
    assert s.cooldownUntil == checks[j].now + cfg.cooldown;
    SpanOf(s.streak, cfg.cooldown, checks[first].now, checks[j].now);
  }

  // The streak is the number of reconnects since the last fresh observation, or since the start.
  lemma {:induction false} StreakIsCountSince(cfg: Config, checks: seq<Check>, lo: nat, n: nat)
    requires lo <= n <= |checks|
    requires lo == 0 || Did(cfg, checks, lo - 1).SawFresh?
    requires forall k | lo <= k < n :: !Did(cfg, checks, k).SawFresh?
    ensures After(cfg, checks[..n]).streak == CountReconnects(cfg, checks, lo, n)
    decreases n
  {
    if n > 0 { PrefixStep(checks, n - 1); }
    if n > lo { StreakIsCountSince(cfg, checks, lo, n - 1); }
  }

  // ---- When the ladder must act, told from the checks alone ----

  // Check i finds everything switched on, the host up and a snapshot to look at, outside the cooldown of
  // the last due check before it.
  predicate Looked(cfg: Config, checks: seq<Check>, i: nat)
    requires i < |checks|
    decreases i, 1
  {
    && cfg.enabled && checks[i].runtimeEnabled && checks[i].hostOk && checks[i].snapshot != None
    && checks[i].now >= QuietUntil(cfg, checks, i)
  }

  // ... and the snapshot is older than stale_sec.
  predicate Due(cfg: Config, checks: seq<Check>, i: nat)
    requires i < |checks|
    decreases i, 2
  {
    Looked(cfg, checks, i) && checks[i].now - checks[i].snapshot.value > cfg.staleSec
  }

  // The end of the cooldown that the last due check before n began.
  function QuietUntil(cfg: Config, checks: seq<Check>, n: nat): real
    requires n <= |checks|
    decreases n, 0
  {
    if n == 0 then 0.0
    else if Due(cfg, checks, n - 1) then checks[n - 1].now + cfg.cooldown
    else QuietUntil(cfg, checks, n - 1)
  }

  // The due checks before n since the last one that looked and found the snapshot fresh.
  function DueSinceFresh(cfg: Config, checks: seq<Check>, n: nat): nat
    requires n <= |checks|
  {
    if n == 0 then 0
    else if Due(cfg, checks, n - 1) then DueSinceFresh(cfg, checks, n - 1) + 1
    else if Looked(cfg, checks, n - 1) then 0
    else DueSinceFresh(cfg, checks, n - 1)
  }

  // The ladder's state is what the checks say it should be.
  lemma {:induction false} StateFollowsChecks(cfg: Config, checks: seq<Check>, n: nat)
    requires n <= |checks|
    ensures After(cfg, checks[..n]) == State(DueSinceFresh(cfg, checks, n), QuietUntil(cfg, checks, n))
  {
    if n == 0 {
      assert checks[..0] == [];
    } else {
      PrefixStep(checks, n - 1);
      StateFollowsChecks(cfg, checks, n - 1);
      var s := After(cfg, checks[..n - 1]);
      assert Looked(cfg, checks, n - 1) <==> Looks(cfg, s, checks[n - 1]);
    }
  }

  // Check i of a run soft-reconnects exactly if it is due, and then leaves the process exactly if that makes
  // max_before_rollout due checks since the last fresh one and the re-read fails or is still old.
  lemma LadderActsIff(cfg: Config, checks: seq<Check>, i: nat)
    requires i < |checks|
    ensures Did(cfg, checks, i).SoftReconnect? || Did(cfg, checks, i).PodExit? <==> Due(cfg, checks, i)
    ensures Did(cfg, checks, i).PodExit? <==>
      && Due(cfg, checks, i) && DueSinceFresh(cfg, checks, i) + 1 >= cfg.maxBeforeRollout
      && (checks[i].reread == None || checks[i].now - checks[i].reread.value > cfg.staleSec)
    ensures Did(cfg, checks, i).SawFresh? <==>
      Looked(cfg, checks, i) && checks[i].now - checks[i].snapshot.value <= cfg.staleSec
  {
    StateFollowsChecks(cfg, checks, i);
  }

  // Between two due checks that follow each other the ladder is quiet for one cooldown, and no longer.
  lemma {:induction false} QuietAfter(cfg: Config, checks: seq<Check>, j: nat, n: nat)
    requires j < n <= |checks| && Due(cfg, checks, j) && forall k | j < k < n :: !Due(cfg, checks, k)
    ensures QuietUntil(cfg, checks, n) == checks[j].now + cfg.cooldown
    decreases n
  {
    if n - 1 > j { QuietAfter(cfg, checks, j, n - 1); }
  }

  // ---- Exit and recovery ----

  // The timestamps of the snapshots stored before the re-read, oldest first.
  ghost predicate NeverBackwards(stored: seq<real>) {
    forall i, j | 0 <= i < j < |stored| :: stored[i] <= stored[j]
  }

  function Reread(stored: seq<real>, readOk: bool): Option<real> {
    if readOk && stored != [] then Some(stored[|stored| - 1]) else None
  }

  // A due ladder exits exactly when the re-read fails or nothing recent was stored. With a working
  // re-read, one snapshot no older than stale_sec at the check's start keeps the process.
  lemma ExitIff(cfg: Config, s: State, c: Check, stored: seq<real>, readOk: bool)
    requires Looks(cfg, s, c) && c.now - c.snapshot.value > cfg.staleSec
    requires NeverBackwards(stored) && c.reread == Reread(stored, readOk)
    ensures Step(cfg, s, c).1.PodExit? <==>
      && s.streak + 1 >= cfg.maxBeforeRollout
      && (!readOk || forall i | 0 <= i < |stored| :: stored[i] < c.now - cfg.staleSec)
  {
    if readOk && stored != [] {
      var last := stored[|stored| - 1];
      assert forall i | 0 <= i < |stored| :: stored[i] <= last;
    }
  }

  lemma NoExitAfterRecovery(cfg: Config, s: State, c: Check, stored: seq<real>, i: nat)
    requires NeverBackwards(stored) && c.reread == Reread(stored, true)
    requires i < |stored| && stored[i] >= c.now - cfg.staleSec
    ensures !Step(cfg, s, c).1.PodExit?
  {
    if Looks(cfg, s, c) && c.now - c.snapshot.value > cfg.staleSec { ExitIff(cfg, s, c, stored, true); }
  }

  // One failed re-read ends the process on its first check, although a snapshot stored before it is recent.
  lemma ExitAlthoughRecovered(cfg: Config, now: real)
    requires cfg.enabled && cfg.maxBeforeRollout <= 1 && 0.0 <= cfg.staleSec < now
    ensures var c := Check(now, true, true, Some(0.0), Reread([0.0, now], false));
      Did(cfg, [c], 0).PodExit? && now - now <= cfg.staleSec
  {
    var c := Check(now, true, true, Some(0.0), None);
    assert [c][..0] == [];
  }
}
