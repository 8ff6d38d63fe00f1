/** reconnect_loop: how long the slot waits between connect attempts. */
module Backoff {
  import opened Common
  import opened Connection

  // What one turn of the loop observes; `connected` is what connect() returns if it is called.
  datatype Turn = Turn(maintenance: bool, state: ConnState, connected: bool)

  function Pow2(k: nat): (r: real)
    ensures r >= 1.0
  {
    if k == 0 then 1.0 else 2.0 * Pow2(k - 1)
  }

  // base * 2^k
  function Doubled(base: real, k: nat): real {
    if k == 0 then base else Doubled(base, k - 1) * 2.0
  }

  lemma {:induction false} DoubledIsPower(base: real, k: nat)
    ensures Doubled(base, k) == base * Pow2(k)
  {
    if k > 0 {
      DoubledIsPower(base, k - 1);
      var p := Pow2(k - 1);
      assert Pow2(k) == 2.0 * p;
      assert base * (2.0 * p) == base * p * 2.0;
    }
  }

  // The sleep after the k-th consecutive failure.
  function Delay(base: real, max: real, k: nat): real {
    if k == 0 then base else MinReal(Doubled(base, k), max)
  }

  // Failed connects since the last success or observed connection, before turn i. A maintenance
  // pause neither counts nor resets.
  function Failures(turns: seq<Turn>, i: nat): nat
    requires i <= |turns|
  {
    if i == 0 then 0
    else
      var t := turns[i - 1];
      if t.maintenance then Failures(turns, i - 1)
      else if t.state == Connected || t.connected then 0
      else Failures(turns, i - 1) + 1
  }

  // The sleep of turn i, if it takes one.
  function Nap(turns: seq<Turn>, i: nat, base: real, max: real): Option<real>
    requires i < |turns|
  {
    var t := turns[i];
    if t.maintenance then Some(2.0)
    else if t.state == Connected then Some(1.0)
    else if t.connected then None
    else Some(Delay(base, max, Failures(turns, i)))
  }

  predicate Reconnected(t: Turn) {
    !t.maintenance && t.state != Connected && t.connected
  }

  function Reconnects(turns: seq<Turn>): nat {
    if turns == [] then 0
    else Reconnects(turns[..|turns| - 1]) + if Reconnected(turns[|turns| - 1]) then 1 else 0
  }

  lemma DoublingStep(base: real, max: real, k: nat)
    requires 0.0 <= max
    ensures MinReal(Delay(base, max, k) * 2.0, max) == Delay(base, max, k + 1)
  {
    assert Doubled(base, k + 1) == Doubled(base, k) * 2.0;
  }

  method ReconnectLoop(turns: seq<Turn>, base: real, max: real) returns (naps: seq<Option<real>>, reconnects: nat)
    requires 0.0 <= max
    ensures |naps| == |turns|
    ensures forall i | 0 <= i < |turns| :: naps[i] == Nap(turns, i, base, max)
    ensures reconnects == Reconnects(turns)
  {
    var delay := base;
    naps, reconnects := [], 0;
    var i := 0;
    while i < |turns|
      invariant 0 <= i <= |turns| && |naps| == i
      invariant delay == Delay(base, max, Failures(turns, i))
      invariant forall j | 0 <= j < i :: naps[j] == Nap(turns, j, base, max)
      invariant reconnects == Reconnects(turns[..i])
    {
      assert turns[..i + 1][..i] == turns[..i];
      var t := turns[i];
      if t.maintenance {
        naps := naps + [Some(2.0)];
      } else if t.state == Connected {
        naps := naps + [Some(1.0)];
        delay := base;
      } else if t.connected {
        naps := naps + [None];
        reconnects := reconnects + 1;
        delay := base;
      } else {
        naps := naps + [Some(delay)];
        DoublingStep(base, max, Failures(turns, i));
        delay := MinReal(delay * 2.0, max);
      }
      i := i + 1;
    }
    assert turns[..|turns|] == turns;
  }

  lemma {:induction false} DoubledGrows(base: real, j: nat, k: nat)
    requires 0.0 <= base && j <= k
    ensures base <= Doubled(base, j) <= Doubled(base, k)
  {
    if j < k { DoubledGrows(base, j, k - 1); } else if 0 < k { DoubledGrows(base, j - 1, k - 1); }
  }

  // With the base at most the maximum: min(base * 2^k, max), never outside [base, max], never shrinking.
  lemma DelayClosedForm(base: real, max: real, j: nat, k: nat)
    requires 0.0 <= base <= max && j <= k
    ensures Delay(base, max, k) == MinReal(base * Pow2(k), max)
    ensures base <= Delay(base, max, j) <= Delay(base, max, k) <= max
  {
    DoubledGrows(base, j, k);
    DoubledIsPower(base, k);
  }

  // A turn that tries to connect and fails.
  predicate Failed(t: Turn) { !t.maintenance && t.state != Connected && !t.connected }

  // A turn that finds the slot connected, or connects it.
  predicate Succeeded(t: Turn) { !t.maintenance && (t.state == Connected || t.connected) }

  // Failed turns among turns lo..hi.
  function FailedIn(turns: seq<Turn>, lo: nat, hi: nat): nat
    requires lo <= hi <= |turns|
    decreases hi
  {
    if lo == hi then 0 else FailedIn(turns, lo, hi - 1) + if Failed(turns[hi - 1]) then 1 else 0
  }

  // The count behind a sleep: the failed connects since the last success, or since the loop began.
  lemma {:induction false} FailuresSince(turns: seq<Turn>, lo: nat, i: nat)
    requires lo <= i <= |turns| && (lo == 0 || Succeeded(turns[lo - 1]))
    requires forall j | lo <= j < i :: !Succeeded(turns[j])
    ensures Failures(turns, i) == FailedIn(turns, lo, i)
    decreases i
  {
    if i > lo { FailuresSince(turns, lo, i - 1); }
  }

  // What a turn sleeps: two seconds in maintenance, one while connected, nothing after connecting, and after
  // the failure that makes n + 1 since the last success Delay(base, max, n): see DelayClosedForm.
  lemma NapIs(turns: seq<Turn>, lo: nat, i: nat, base: real, max: real)
    requires lo <= i < |turns| && (lo == 0 || Succeeded(turns[lo - 1]))
    requires forall j | lo <= j < i :: !Succeeded(turns[j])
    ensures Nap(turns, i, base, max) ==
      if turns[i].maintenance then Some(2.0)
      else if turns[i].state == Connected then Some(1.0)
      else if turns[i].connected then None
      else Some(Delay(base, max, FailedIn(turns, lo, i)))
  {
    FailuresSince(turns, lo, i);
  }

  function Connecting(turns: seq<Turn>): set<int> {
    set i | 0 <= i < |turns| && !turns[i].maintenance && turns[i].state != Connected && turns[i].connected
  }

  // The reconnects counted are the turns that connected.
  lemma {:induction false} ReconnectsIs(turns: seq<Turn>)
    ensures Reconnects(turns) == |Connecting(turns)|
  {
    var all := Connecting(turns);
    if turns == [] {
      assert all == {};
    } else {
      var n, most := |turns| - 1, turns[..|turns| - 1];
      ReconnectsIs(most);
      assert all == Connecting(most) + (if Reconnected(turns[n]) then {n} else {});
    }
  }

  // Inserting a maintenance pause changes no later sleep.
  lemma {:induction false} MaintenanceIsInvisible(before: seq<Turn>, pause: Turn, after: seq<Turn>, i: nat)
    requires pause.maintenance && i <= |after|
    ensures Failures(before + [pause] + after, |before| + 1 + i) == Failures(before + after, |before| + i)
  {
    var a, b := before + [pause] + after, before + after;
    if i == 0 {
      assert a[|before|] == pause;
      SamePrefix(a, b, |before|);
    } else {
      MaintenanceIsInvisible(before, pause, after, i - 1);
      assert a[|before| + i] == after[i - 1] == b[|before| + i - 1];
    }
  }

  lemma {:induction false} SamePrefix(a: seq<Turn>, b: seq<Turn>, n: nat)
    requires n <= |a| && n <= |b| && a[..n] == b[..n]
    ensures Failures(a, n) == Failures(b, n)
  {
    if n > 0 {
      assert a[..n][n - 1] == b[..n][n - 1];
      assert a[..n - 1] == a[..n][..n - 1] == b[..n][..n - 1] == b[..n - 1];
      SamePrefix(a, b, n - 1);
    }
  }
}
