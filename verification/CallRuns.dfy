/**
 * The converse of ConnectRuns: in every run of the task machine, whatever the other tasks and the network do
 * while a task holds the lock, its connect() call is the scripted one for some script.
 */
module CallRuns {
  import opened Common
  import opened ConnectResult
  import opened Connection
  import opened Failover
  import opened SlotRuns

  // The steps run from w until t releases the lock, which leaves w'.
  ghost predicate Holding(ids: seq<int>, w: World, steps: seq<Step>, w': World, t: nat)
    decreases |steps|
  {
    && steps != [] && w.slot.index < |ids| && Enabled(w, steps[0])
    && var n := Apply(ids, w, steps[0]);
       if n.lock == Some(t) then Holding(ids, n, steps[1..], w', t) else n == w' && |steps| == 1
  }

  predicate OfHolder(step: Step) {
    step.EndAttempt? || step.WakeCooling? || step.WakeSettling?
  }

  // ---- What a run shows of a call ----

  // How an attempt ended: connectAsync's outcome, whether a 326 was reported, whether the session was up.
  datatype Verdict = Verdict(result: Result, flagged: bool, up: bool)

  function VerdictOf(a: Attempt): Verdict {
    Verdict(a.result, Flagged(a.during), PhaseAfter(a.during) == Live)
  }

  predicate Won(v: Verdict) {
    v.result.Returned? && !v.flagged && v.up
  }

  predicate LostToConflict(v: Verdict) {
    v.flagged || (v.result.Raised? && IsClientIdConflict(Some(v.result.text), None))
  }

  // What a step is to the holder of the lock.
  function EventsOf(step: Step): seq<Event> {
    match step
    case CallVerify(_) => [SyncSeen]
    case Happens(e) => [e]
    case _ => []
  }

  // How the attempts of t's call ended, and what happened while it waited for managed accounts.
  datatype Journal = Journal(ends: seq<Verdict>, waits: seq<Event>)

  function Log(ids: seq<int>, w: World, steps: seq<Step>, t: nat): Journal
    decreases |steps|
  {
    if steps == [] || w.slot.index >= |ids| || !Enabled(w, steps[0]) then Journal([], [])
    else
      var rest := Log(ids, Apply(ids, w, steps[0]), steps[1..], t);
      if steps[0].EndAttempt? then
        var p := w.Pc(steps[0].t);
        rest.(ends := [Verdict(steps[0].result, p.flagged, IsLive(w.slot, p.sid))] + rest.ends)
      else if w.Pc(t).Settling? then rest.(waits := EventsOf(steps[0]) + rest.waits)
      else rest
  }

  predicate Wins(log: Journal) {
    log.ends != [] && Won(log.ends[|log.ends| - 1])
  }

  // The attempts of this script from pass k on are those of the journal, the last of them with its waits;
  // what the call does not get to would succeed.
  ghost predicate Tells(script: seq<Attempt>, k: nat, log: Journal) {
    var m := |log.ends|;
    && k + m <= |script|
    && (forall i | 0 <= i < m :: VerdictOf(script[k + i]) == log.ends[i])
    && (forall i | 0 <= i < m - 1 :: !Won(log.ends[i]))
    && (if Wins(log) then Flat(Waits(script[k + m - 1])) == log.waits else k + m == |script|)
    && (forall j | k + m <= j < |script| :: Succeeds(script[j]))
  }

  // ---- The script behind a call ----

  // What the holder knows after the events.
  function Heard(p: Pc, evs: seq<Event>): Pc {
    if p.Attempting? then p.(flagged := p.flagged || Flagged(evs)) else p
  }

  // A step of anyone else is at most one event to the holder.
  lemma OtherStep(ids: seq<int>, w: World, step: Step, t: nat)
    requires Inv(ids, w) && w.lock == Some(t) && Enabled(w, step) && !OfHolder(step)
    ensures var n, p, evs := Apply(ids, w, step), w.Pc(t), EventsOf(step);
      && HoldsLock(p) && n.lock == Some(t)
      && n.slot == ReactAll(w.slot, p.sid, evs) && n.Pc(t) == Heard(p, evs)
  {
    var p := w.Pc(t);
    match step {
      case CallVerify(u) => ReactOne(w.slot, p.sid, SyncSeen);
      case Happens(e) => ReactOne(w.slot, p.sid, e);
      case _ =>
    }
  }

  // Only the lock's owner takes the steps of a call.
  lemma HolderSteps(ids: seq<int>, w: World, step: Step, t: nat)
    requires Inv(ids, w) && w.lock == Some(t) && Enabled(w, step) && OfHolder(step)
    ensures step.t == t
  {
  }

  // From slot s at pass k, this script leads to the slot of w' as the journal says.
  ghost predicate Scripted(pass: Pass, s: Slot, k: nat, n: nat, script: seq<Attempt>, log: Journal, w': World) {
    && k <= n && |script| == n
    && w'.slot == Tries(pass, s, script, k, n).slot
    && Tells(script, k, log)
  }

  lemma {:induction false} SameTail(pass: Pass, s: Slot, a: seq<Attempt>, b: seq<Attempt>, k: nat, n: nat)
    requires k <= n && |a| == n && |b| == n && forall j | k <= j < n :: a[j] == b[j]
    ensures Tries(pass, s, a, k, n) == Tries(pass, s, b, k, n)
    decreases n - k
  {
    if k < n {
      var e := pass(s, a[k]);
      if !e.ok { SameTail(pass, e.next, a, b, k + 1, n); }
    }
  }

  // The journal of a pass that failed like a, before the passes of log.
  function After(a: Attempt, log: Journal): Journal {
    log.(ends := [VerdictOf(a)] + log.ends)
  }

  lemma TellsAfter(script: seq<Attempt>, k: nat, a: Attempt, log: Journal)
    requires k < |script| && Tells(script, k + 1, log) && !Succeeds(a)
    ensures Tells(script[k := a], k, After(a, log))
  {
    var full, more, m := script[k := a], After(a, log), |log.ends| + 1;
    forall i | 0 <= i < m ensures VerdictOf(full[k + i]) == more.ends[i] {
      if i > 0 { assert VerdictOf(script[k + 1 + (i - 1)]) == log.ends[i - 1]; }
    }
    assert Wins(more) <==> Wins(log);
  }

  // Putting the attempt of pass k before the script of the passes after it.
  lemma Prepend(pass: Pass, s: Slot, k: nat, n: nat, a: Attempt, script: seq<Attempt>, log: Journal, w': World)
    returns (full: seq<Attempt>)
    requires k < n && !pass(s, a).ok && !Succeeds(a)
    requires Scripted(pass, pass(s, a).next, k + 1, n, script, log, w')
    ensures Scripted(pass, s, k, n, full, After(a, log), w')
  {
    full := script[k := a];
    SameTail(pass, pass(s, a).next, full, script, k + 1, n);
    TellsAfter(script, k, a, log);
  }

  // A script whose pass k ends the call.
  lemma Ends(pass: Pass, s: Slot, k: nat, n: nat, a: Attempt, w': World) returns (full: seq<Attempt>)
    requires k < n && pass(s, a).ok && Succeeds(a) && w'.slot == pass(s, a).next
    ensures Scripted(pass, s, k, n, full, Journal([VerdictOf(a)], Flat(Waits(a))), w')
  {
    full := seq(n, i => a);
    assert full[k] == a;
  }

  // The call when its task is about to start pass k on slot s.
  lemma FromPass(ids: seq<int>, pass: Pass, w: World, steps: seq<Step>, w': World, t: nat, k: nat)
    returns (script: seq<Attempt>)
    requires IsPassOf(pass, ids) && SlotOk(ids, w.slot) && k <= |ids|
    requires var n := NextPass(ids, w, t, k);
      if n.lock == Some(t) then Inv(ids, n) && Holding(ids, n, steps, w', t) else n == w' && steps == []
    requires w.lock == Some(t)
    ensures Scripted(pass, w.slot, k, |ids|, script, Log(ids, NextPass(ids, w, t, k), steps, t), w')
    decreases |steps|, 3
  {
    var n := NextPass(ids, w, t, k);
    if k == |ids| {
      script := seq(|ids|, i => Attempt([], Returned, [], []));
    } else {
      script := FromAttempt(ids, pass, n, steps, w', t, w.slot, k, []);
    }
  }

  // The call while the handshake of pass k is awaited; evs happened so far.
  lemma FromAttempt(ids: seq<int>, pass: Pass, w: World, steps: seq<Step>, w': World, t: nat,
                    s: Slot, k: nat, evs: seq<Event>) returns (script: seq<Attempt>)
    requires IsPassOf(pass, ids) && Inv(ids, w) && w.lock == Some(t) && Holding(ids, w, steps, w', t)
    requires SlotOk(ids, s) && k < |ids|
    requires w.Pc(t) == Attempting(k, |s.sessions|, Flagged(evs))
    requires w.slot == ReactAll(Open(ids, s), |s.sessions|, evs)
    ensures Scripted(pass, s, k, |ids|, script, Log(ids, w, steps, t), w')
    decreases |steps|, 2
  {
    var n, sid := Apply(ids, w, steps[0]), |s.sessions|;
    StepKeepsInv(ids, w, steps[0]);
    if OfHolder(steps[0]) {
      HolderSteps(ids, w, steps[0], t);
      script := FromEnd(ids, pass, w, steps, w', t, s, k, evs);
    } else {
      var more := EventsOf(steps[0]);
      OtherStep(ids, w, steps[0], t);
      ReactConcat(Open(ids, s), sid, evs, more);
      script := FromAttempt(ids, pass, n, steps[1..], w', t, s, k, evs + more);
    }
  }

  // What the end of the handshake of pass k shows is the verdict of the attempt scripted for it.
  lemma VerdictSeen(ids: seq<int>, s: Slot, a: Attempt)
    requires SlotOk(ids, s)
    ensures var s1, sid := AfterHandshake(ids, s, a), |s.sessions|;
      && VerdictOf(a) == Verdict(a.result, Flagged(a.during), IsLive(s1, sid))
      && (Accepts(s1, sid, Flagged(a.during), a.result) <==> Succeeds(a))
  {
    PhaseOfSession(Open(ids, s), |s.sessions|, a.during);
  }

  // The handshake of pass k ends.
  lemma FromEnd(ids: seq<int>, pass: Pass, w: World, steps: seq<Step>, w': World, t: nat,
                s: Slot, k: nat, evs: seq<Event>) returns (script: seq<Attempt>)
    requires IsPassOf(pass, ids) && Inv(ids, w) && w.lock == Some(t) && Holding(ids, w, steps, w', t)
    requires SlotOk(ids, s) && k < |ids|
    requires w.Pc(t) == Attempting(k, |s.sessions|, Flagged(evs))
    requires w.slot == ReactAll(Open(ids, s), |s.sessions|, evs)
    requires steps[0].EndAttempt? && steps[0].t == t
    ensures Scripted(pass, s, k, |ids|, script, Log(ids, w, steps, t), w')
    decreases |steps|, 1
  {
    var n, a := Apply(ids, w, steps[0]), Attempt(evs, steps[0].result, [], []);
    assert w.slot == AfterHandshake(ids, s, a);
    VerdictSeen(ids, s, a);
    StepKeepsInv(ids, w, steps[0]);
    assert Log(ids, w, steps, t) == After(a, Log(ids, n, steps[1..], t));
    if Succeeds(a) {
      script := FromAccepted(ids, pass, w, steps, w', t, s, k, a);
    } else {
      script := FromRejected(ids, pass, w, steps, w', t, s, k, a);
    }
  }

  lemma NoWaitsYet(a: Attempt, rest: Journal)
    requires a.settle == [] && rest.ends == []
    ensures After(a, rest) == Journal([VerdictOf(a)], Flat(a.settle) + [] + rest.waits)
    ensures Flat(a.settle) == []
  {
    assert [VerdictOf(a)] + rest.ends == [VerdictOf(a)];
    assert Flat(a.settle) + [] + rest.waits == rest.waits;
  }

  lemma FromAccepted(ids: seq<int>, pass: Pass, w: World, steps: seq<Step>, w': World, t: nat,
                     s: Slot, k: nat, a: Attempt) returns (script: seq<Attempt>)
    requires IsPassOf(pass, ids) && Inv(ids, w) && w.lock == Some(t) && Holding(ids, w, steps, w', t)
    requires SlotOk(ids, s) && k < |ids| && steps[0].EndAttempt? && steps[0].t == t
    requires w.Pc(t) == Attempting(k, |s.sessions|, Flagged(a.during)) && w.slot == AfterHandshake(ids, s, a)
    requires a.result == steps[0].result && a.settle == [] && a.cooling == [] && Succeeds(a)
    ensures Scripted(pass, s, k, |ids|, script, After(a, Log(ids, Apply(ids, w, steps[0]), steps[1..], t)), w')
    decreases |steps|, 0
  {
    var n := Apply(ids, w, steps[0]);
    VerdictSeen(ids, s, a);
    StepKeepsInv(ids, w, steps[0]);
    if n.lock == Some(t) {
      script := FromSettling(ids, pass, n, steps[1..], w', t, s, k, a, []);
      NoWaitsYet(a, Log(ids, n, steps[1..], t));
    } else {
      script := EndsAccepted(ids, pass, s, k, a, w');
      NoWaitsYet(a, Journal([], []));
    }
  }

  lemma FromRejected(ids: seq<int>, pass: Pass, w: World, steps: seq<Step>, w': World, t: nat,
                     s: Slot, k: nat, a: Attempt) returns (script: seq<Attempt>)
    requires IsPassOf(pass, ids) && Inv(ids, w) && w.lock == Some(t) && Holding(ids, w, steps, w', t)
    requires SlotOk(ids, s) && k < |ids| && steps[0].EndAttempt? && steps[0].t == t
    requires w.Pc(t) == Attempting(k, |s.sessions|, Flagged(a.during)) && w.slot == AfterHandshake(ids, s, a)
    requires a.result == steps[0].result && a.settle == [] && a.cooling == [] && !Succeeds(a)
    ensures Scripted(pass, s, k, |ids|, script, After(a, Log(ids, Apply(ids, w, steps[0]), steps[1..], t)), w')
    decreases |steps|, 0
  {
    var n, f := Apply(ids, w, steps[0]), Flagged(a.during);
    VerdictSeen(ids, s, a);
    StepKeepsInv(ids, w, steps[0]);
    RejectKeeps(|ids|, w.slot, f, a.result);
    if Rotates(w.slot, f, a.result) {
      script := FromCooling(ids, pass, n, steps[1..], w', t, s, k, a);
    } else {
      var next := FailedPass(ids, pass, s, a);
      script := NextScripted(ids, pass, w, n, steps[1..], w', t, s, k, a, next);
    }
  }

  // A pass that failed like a is over and n is the world after it.
  lemma NextScripted(ids: seq<int>, pass: Pass, w: World, n: World, steps: seq<Step>, w': World, t: nat,
                     s: Slot, k: nat, a: Attempt, next: Slot) returns (script: seq<Attempt>)
    requires IsPassOf(pass, ids) && k < |ids| && w.lock == Some(t)
    requires !Succeeds(a) && !pass(s, a).ok && pass(s, a).next == next && SlotOk(ids, next)
    requires n == NextPass(ids, w.(slot := next), t, k + 1)
    requires if n.lock == Some(t) then Inv(ids, n) && Holding(ids, n, steps, w', t) else n == w' && steps == []
    ensures Scripted(pass, s, k, |ids|, script, After(a, Log(ids, n, steps, t)), w')
    decreases |steps|, 4
  {
    var rest := FromPass(ids, pass, w.(slot := next), steps, w', t, k + 1);
    script := Prepend(pass, s, k, |ids|, a, rest, Log(ids, n, steps, t), w');
  }

  lemma FailedPass(ids: seq<int>, pass: Pass, s: Slot, a: Attempt) returns (next: Slot)
    requires IsPassOf(pass, ids) && SlotOk(ids, s) && !Succeeds(a)
    ensures !pass(s, a).ok && pass(s, a).next == next && SlotOk(ids, next)
    ensures var s1, sid, f := AfterHandshake(ids, s, a), |s.sessions|, Flagged(a.during);
      next == Cooled(Reject(|ids|, s1, f, a.result), sid, Rotates(s1, f, a.result), a.cooling)
  {
    VerdictSeen(ids, s, a);
    next := RunPass(ids, s, a).next;
  }

  // The script of a call that pass k ends, after these waits.
  lemma EndsAccepted(ids: seq<int>, pass: Pass, s: Slot, k: nat, a: Attempt, w': World) returns (script: seq<Attempt>)
    requires IsPassOf(pass, ids) && SlotOk(ids, s) && k < |ids| && Succeeds(a) && |a.settle| <= MAX_SETTLE_WAITS
    requires w'.slot == SettleAll(Accept(AfterHandshake(ids, s, a), |s.sessions|), |s.sessions|, a.settle)
    ensures Scripted(pass, s, k, |ids|, script, Journal([VerdictOf(a)], Flat(a.settle)), w')
  {
    VerdictSeen(ids, s, a);
    assert pass(s, a) == RunPass(ids, s, a);
    script := Ends(pass, s, k, |ids|, a, w');
  }

  // The call during the second after a rotation; a.cooling happened so far.
  lemma FromCooling(ids: seq<int>, pass: Pass, w: World, steps: seq<Step>, w': World, t: nat,
                    s: Slot, k: nat, a: Attempt) returns (script: seq<Attempt>)
    requires IsPassOf(pass, ids) && Inv(ids, w) && w.lock == Some(t) && Holding(ids, w, steps, w', t)
    requires SlotOk(ids, s) && k < |ids| && w.Pc(t) == Cooling(k, |s.sessions|) && !Succeeds(a)
    requires var s1, f := AfterHandshake(ids, s, a), Flagged(a.during);
      && !Accepts(s1, |s.sessions|, f, a.result) && Rotates(s1, f, a.result)
      && w.slot == ReactAll(Reject(|ids|, s1, f, a.result), |s.sessions|, a.cooling)
    ensures Scripted(pass, s, k, |ids|, script, After(a, Log(ids, w, steps, t)), w')
    decreases |steps|, 1
  {
    var n, sid := Apply(ids, w, steps[0]), |s.sessions|;
    StepKeepsInv(ids, w, steps[0]);
    if OfHolder(steps[0]) {
      HolderSteps(ids, w, steps[0], t);
      var next := FailedPass(ids, pass, s, a);
      script := NextScripted(ids, pass, w, n, steps[1..], w', t, s, k, a, next);
    } else {
      var more := EventsOf(steps[0]);
      OtherStep(ids, w, steps[0], t);
      var s1, f := AfterHandshake(ids, s, a), Flagged(a.during);
      ReactConcat(Reject(|ids|, s1, f, a.result), sid, a.cooling, more);
      script := FromCooling(ids, pass, n, steps[1..], w', t, s, k, a.(cooling := a.cooling + more));
    }
  }

  // The call while it waits for managed accounts: a.settle are the waits over, evs this one's events so far.
  lemma FromSettling(ids: seq<int>, pass: Pass, w: World, steps: seq<Step>, w': World, t: nat,
                     s: Slot, k: nat, a: Attempt, evs: seq<Event>) returns (script: seq<Attempt>)
    requires IsPassOf(pass, ids) && Inv(ids, w) && w.lock == Some(t) && Holding(ids, w, steps, w', t)
    requires SlotOk(ids, s) && k < |ids| && |a.settle| < MAX_SETTLE_WAITS && Succeeds(a)
    requires w.Pc(t) == Settling(|s.sessions|, |a.settle| + 1)
    requires w.slot == ReactAll(Settled(ids, s, a), |s.sessions|, evs)
    ensures var log := Log(ids, w, steps, t);
      && log.ends == []
      && Scripted(pass, s, k, |ids|, script, Journal([VerdictOf(a)], Flat(a.settle) + evs + log.waits), w')
    decreases |steps|, 1
  {
    var n := Apply(ids, w, steps[0]);
    StepKeepsInv(ids, w, steps[0]);
    if OfHolder(steps[0]) {
      HolderSteps(ids, w, steps[0], t);
      script := FromWake(ids, pass, w, steps, w', t, s, k, a, evs);
    } else {
      var more := EventsOf(steps[0]);
      OtherStep(ids, w, steps[0], t);
      ReactConcat(Settled(ids, s, a), |s.sessions|, evs, more);
      script := FromSettling(ids, pass, n, steps[1..], w', t, s, k, a, evs + more);
      Regroup(Flat(a.settle), evs, more, Log(ids, n, steps[1..], t).waits);
    }
  }

  // The slot once the attempt has been accepted and its waits are over.
  function Settled(ids: seq<int>, s: Slot, a: Attempt): Slot
    requires SlotOk(ids, s)
  {
    SettleAll(Accept(AfterHandshake(ids, s, a), |s.sessions|), |s.sessions|, a.settle)
  }

  lemma SettledMore(ids: seq<int>, s: Slot, a: Attempt, evs: seq<Event>)
    requires SlotOk(ids, s)
    ensures var a' := a.(settle := a.settle + [evs]);
      && Settled(ids, s, a') == ReactAll(Settled(ids, s, a), |s.sessions|, evs)
      && VerdictOf(a') == VerdictOf(a)
      && Flat(a'.settle) == Flat(a.settle) + evs == Flat(a'.settle) + []
  {
    assert (a.settle + [evs])[..|a.settle|] == a.settle;
  }

  // A wait is over.
  lemma FromWake(ids: seq<int>, pass: Pass, w: World, steps: seq<Step>, w': World, t: nat,
                 s: Slot, k: nat, a: Attempt, evs: seq<Event>) returns (script: seq<Attempt>)
    requires IsPassOf(pass, ids) && Inv(ids, w) && w.lock == Some(t) && Holding(ids, w, steps, w', t)
    requires SlotOk(ids, s) && k < |ids| && |a.settle| < MAX_SETTLE_WAITS && Succeeds(a)
    requires w.Pc(t) == Settling(|s.sessions|, |a.settle| + 1)
    requires w.slot == ReactAll(Settled(ids, s, a), |s.sessions|, evs)
    requires OfHolder(steps[0]) && steps[0].t == t
    ensures var log := Log(ids, w, steps, t);
      && log.ends == []
      && Scripted(pass, s, k, |ids|, script, Journal([VerdictOf(a)], Flat(a.settle) + evs + log.waits), w')
    decreases |steps|, 0
  {
    var n, a' := Apply(ids, w, steps[0]), a.(settle := a.settle + [evs]);
    SettledMore(ids, s, a, evs);
    LogAfterWake(ids, w, steps, t);
    var rest := Log(ids, n, steps[1..], t);
    if n.lock == Some(t) {
      StepKeepsInv(ids, w, steps[0]);
      script := FromSettling(ids, pass, n, steps[1..], w', t, s, k, a', []);
      assert Flat(a'.settle) + [] + rest.waits == Flat(a.settle) + evs + rest.waits;
    } else {
      script := EndsAccepted(ids, pass, s, k, a', w');
      assert Flat(a'.settle) == Flat(a.settle) + evs + rest.waits;
    }
  }

  lemma LogAfterWake(ids: seq<int>, w: World, steps: seq<Step>, t: nat)
    requires steps != [] && w.slot.index < |ids| && Enabled(w, steps[0])
    requires OfHolder(steps[0]) && !steps[0].EndAttempt?
    ensures Log(ids, w, steps, t) == Log(ids, Apply(ids, w, steps[0]), steps[1..], t)
  {
    var rest := Log(ids, Apply(ids, w, steps[0]), steps[1..], t);
    assert EventsOf(steps[0]) + rest.waits == rest.waits;
  }

  lemma Regroup(a: seq<Event>, b: seq<Event>, c: seq<Event>, d: seq<Event>)
    ensures a + (b + c) + d == a + b + (c + d)
  {
  }

  // ---- Every call of every run ----

  // t has just taken the lock on a slot without a living session, in some run, and holds it until w'.
  ghost predicate CallOf(ids: seq<int>, before: seq<Step>, w: World, t: nat, steps: seq<Step>, w': World) {
    && ids != [] && Path(ids, START, before, w)
    && Enabled(w, LockConnect(t)) && w.slot.index < |ids|
    && !(w.slot.ib.Some? && IsLive(w.slot, w.slot.ib.value))
    && Holding(ids, Apply(ids, w, LockConnect(t)), steps, w', t)
  }

  function LogOf(ids: seq<int>, w: World, t: nat, steps: seq<Step>): Journal
    requires w.slot.index < |ids| && Enabled(w, LockConnect(t))
  {
    Log(ids, Apply(ids, w, LockConnect(t)), steps, t)
  }

  // In any run: a task that gets the lock on a slot without a live session leaves it, when it releases the
  // lock, as connect() would for a script whose attempts end as the run's own do and whose last waits see
  // what the run's do.
  lemma EveryCallIsScripted(ids: seq<int>, before: seq<Step>, w: World, t: nat, steps: seq<Step>, w': World)
    returns (script: seq<Attempt>)
    requires CallOf(ids, before, w, t, steps, w')
    ensures |script| == |ids| && Tells(script, 0, LogOf(ids, w, t, steps))
    ensures w'.slot == Tries(PassOf(ids), Clean(w.slot), script, 0, |ids|).slot
  {
    RunInv(ids, before, w);
    StepKeepsInv(ids, w, LockConnect(t));
    script := FromPass(ids, PassOf(ids), w.(slot := Clean(w.slot), lock := Some(t)), steps, w', t, 0);
  }

  // Where the journal ends is where the script first succeeds.
  lemma JournalEnds(script: seq<Attempt>, log: Journal)
    requires Tells(script, 0, log)
    ensures FirstSuccess(script, 0, |script|) == if Wins(log) then |log.ends| - 1 else |script|
  {
    var m, first := |log.ends|, FirstSuccess(script, 0, |script|);
    FirstSuccessIsFirst(script, 0, |script|);
    assert forall i | 0 <= i < m :: Succeeds(script[i]) <==> Won(log.ends[i]);
  }

  lemma OnlyConflictsLose(script: seq<Attempt>, log: Journal)
    requires Tells(script, 0, log) && forall v | v in log.ends :: Won(v) || LostToConflict(v)
    ensures forall j | 0 <= j < |script| :: Succeeds(script[j]) || Conflicts(script[j])
  {
    forall j | 0 <= j < |script| ensures Succeeds(script[j]) || Conflicts(script[j]) {
      if j < |log.ends| { assert VerdictOf(script[0 + j]) == log.ends[j] && log.ends[j] in log.ends; }
    }
  }

  // What the journal says of the ids tried from slot s on, r being the slot afterwards.
  ghost predicate VisitsCyclically(ids: seq<int>, s: Slot, log: Journal, r: Slot)
    requires s.index < |ids|
  {
    && |log.ends| <= |ids| && (!Wins(log) ==> |log.ends| == |ids|)
    && Cids(r.sessions) == Cids(s.sessions) + (ids[s.index..] + ids[..s.index])[..|log.ends|]
    && r.index == if Wins(log) then Rotated(s.index, |log.ends| - 1, |ids|) else s.index
  }

  lemma ScriptVisitsCyclically(ids: seq<int>, pass: Pass, s: Slot, script: seq<Attempt>, log: Journal)
    requires Lawful(ids, pass) && SlotOk(ids, s) && |script| == |ids| && Tells(script, 0, log)
    requires forall v | v in log.ends :: Won(v) || LostToConflict(v)
    ensures VisitsCyclically(ids, s, log, Tries(pass, s, script, 0, |ids|).slot)
  {
    JournalEnds(script, log);
    OnlyConflictsLose(script, log);
    CyclicRun(ids, pass, s, script);
  }

  // Failover in every interleaving: if every attempt of a call that does not connect is a conflict, the
  // sessions it opens try the ids in cyclic order; it gives up only after all of them, the index back where
  // it was, and otherwise the index names the last one.
  lemma FailoverInRuns(ids: seq<int>, before: seq<Step>, w: World, t: nat, steps: seq<Step>, w': World)
    requires CallOf(ids, before, w, t, steps, w')
    requires forall v | v in LogOf(ids, w, t, steps).ends :: Won(v) || LostToConflict(v)
    ensures VisitsCyclically(ids, w.slot, LogOf(ids, w, t, steps), w'.slot)
  {
    RunInv(ids, before, w);
    var script := EveryCallIsScripted(ids, before, w, t, steps, w');
    PassesAreLawful(ids);
    ScriptVisitsCyclically(ids, PassOf(ids), Clean(w.slot), script, LogOf(ids, w, t, steps));
    assert Cids(Clean(w.slot).sessions) == Cids(w.slot.sessions);
  }

  // A call leaves the slot CONNECTED exactly when its last attempt won and nobody entered maintenance, or
  // synced after the session dropped, while it waited for managed accounts.
  lemma ConnectedInRunsIff(ids: seq<int>, before: seq<Step>, w: World, t: nat, steps: seq<Step>, w': World)
    requires CallOf(ids, before, w, t, steps, w')
    ensures var log := LogOf(ids, w, t, steps); w'.slot.state == Connected <==> Wins(log) && Undisturbed(log.waits)
  {
    RunInv(ids, before, w);
    var log := LogOf(ids, w, t, steps);
    var script := EveryCallIsScripted(ids, before, w, t, steps, w');
    JournalEnds(script, log);
    PassesAreLawful(ids);
    PassesAreCandid(ids);
    TriesAreCandid(ids, PassOf(ids), Clean(w.slot), script, 0);
    TriesStopAtFirstSuccess(ids, PassOf(ids), Clean(w.slot), script, 0);
  }
}
