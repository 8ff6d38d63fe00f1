/**
 * What becomes of an attempt, told from the events of its handshake alone: a session the TWS refuses with a
 * client-id conflict is never installed and always moves the index on.
 */
module Refusals {
  import opened CallRuns
  import opened Common
  import opened ConnectResult
  import opened Connection
  import opened Failover
  import opened Rotation
  import opened SlotRuns
  import Text

  // Some reported error has code 326, or a message that says "already in use" in any case.
  ghost predicate Refused(evs: seq<Event>) {
    exists i | 0 <= i < |evs| ::
      evs[i].ErrorReported? && (evs[i].code == 326 || Says(evs[i].msg, "already in use"))
  }

  // sub occurs in the lower-cased text.
  ghost predicate Says(text: string, sub: string) {
    exists i | 0 <= i <= |text| :: sub <= Text.Lower(text)[i..]
  }

  // The session came up and was not lost.
  predicate Up(evs: seq<Event>) {
    Handshake in evs && Drops !in evs
  }

  lemma SaysIff(text: string, sub: string)
    ensures Text.Contains(Text.Lower(text), sub) <==> Says(text, sub)
  {
    Text.ContainsIff(Text.Lower(text), sub);
  }

  lemma {:induction false} FlaggedIff(evs: seq<Event>)
    ensures Flagged(evs) <==> Refused(evs)
  {
    if evs != [] {
      var most, e := evs[..|evs| - 1], evs[|evs| - 1];
      FlaggedIff(most);
      assert forall i | 0 <= i < |most| :: most[i] == evs[i];
      if e.ErrorReported? { SaysIff(e.msg, "already in use"); }
    }
  }

  lemma {:induction false} LiveIff(evs: seq<Event>)
    ensures PhaseAfter(evs) == Live <==> Up(evs)
    ensures PhaseAfter(evs) == Dead <==> Drops in evs
  {
    if evs != [] {
      var most, e := evs[..|evs| - 1], evs[|evs| - 1];
      LiveIff(most);
      assert evs == most + [e];
    }
  }

  // A good attempt: connectAsync returns, nothing is refused, and the session is up.
  ghost predicate Good(a: Attempt) {
    a.result.Returned? && !Refused(a.during) && Up(a.during)
  }

  lemma GoodIff(a: Attempt)
    ensures Good(a) <==> Succeeds(a)
    ensures Refused(a.during) ==> Conflicts(a)
  {
    FlaggedIff(a.during);
    LiveIff(a.during);
  }

  // The text, twice with a space between, names a conflict.
  ghost predicate NamesConflict(t: string) {
    t != "" && (Says(t + " " + t, "326") || Says(t + " " + t, "already in use"))
  }

  // The conflict test on one text, and on the text doubled as the source applies it.
  lemma ConflictTextIff(t: string)
    ensures IsClientIdConflict(Some(t), None) <==> Says(t, "326") || Says(t, "already in use")
    ensures Echoes(t) <==> NamesConflict(t)
  {
    SaysIff(t, "326");
    SaysIff(t, "already in use");
    SaysIff(t + " " + t, "326");
    SaysIff(t + " " + t, "already in use");
    NoEchoOfEmpty();
  }

  // Exactly when a pass moves the index: not good, and refused or with a text to blame that names the conflict.
  lemma PassMovesIndexIff(ids: seq<int>, s: Slot, a: Attempt)
    requires SlotOk(ids, s)
    ensures var blame := Blame(s.lastError, a);
      RunPass(ids, s, a).rotated <==> !Good(a) && (Refused(a.during) || NamesConflict(blame))
  {
    GoodIff(a);
    FlaggedIff(a.during);
    PassRotatesIff(ids, s, a);
    ConflictTextIff(Blame(s.lastError, a));
  }

  // A session accepted clears last_error; only what is reported while accounts are awaited is there after.
  lemma AcceptClearsError(ids: seq<int>, s: Slot, a: Attempt)
    requires SlotOk(ids, s) && RunPass(ids, s, a).ok
    ensures RunPass(ids, s, a).next.lastError == LastReport(Flat(Waits(a)), None)
  {
    var sid, s1 := |s.sessions|, AfterHandshake(ids, s, a);
    SettleIsFlat(Accept(s1, sid), sid, Waits(a));
    ReactReports(Accept(s1, sid), sid, Flat(Waits(a)));
  }

  // connect() waits for managed accounts at most twenty times.
  lemma TwentyWaits(a: Attempt)
    ensures Waits(a) == if |a.settle| <= 20 then a.settle else a.settle[..20]
  {
  }

  // One pass: it installs its session exactly if the attempt was good; refused, it installs nothing and
  // moves the index on by one.
  lemma PassInstallsIff(ids: seq<int>, s: Slot, a: Attempt)
    requires SlotOk(ids, s) && s.ib.None?
    ensures var e := RunPass(ids, s, a);
      && (e.ok <==> Good(a))
      && (!e.ok ==> e.next.ib.None?)
      && (Refused(a.during) ==> !e.ok && e.rotated && e.next.index == (s.index + 1) % |ids|)
      && (e.ok ==> e.next.index == s.index)
  {
    GoodIff(a);
    PassIsOk(ids, s, a);
    NextIndexIsMod(s.index, |ids|);
    if !RunPass(ids, s, a).ok { FailureInstallsNothing(ids, s, a); }
  }

  lemma {:induction false} NothingInstalled(s: Slot, sid: nat, evs: seq<Event>)
    requires s.ib.None?
    ensures ReactAll(s, sid, evs).ib.None?
  {
    if evs != [] { NothingInstalled(s, sid, evs[..|evs| - 1]); }
  }

  lemma FailureInstallsNothing(ids: seq<int>, s: Slot, a: Attempt)
    requires SlotOk(ids, s) && s.ib.None? && !RunPass(ids, s, a).ok
    ensures RunPass(ids, s, a).next.ib.None?
  {
    var sid, s1 := |s.sessions|, AfterHandshake(ids, s, a);
    NothingInstalled(Open(ids, s), sid, a.during);
    NothingInstalled(Reject(|ids|, s1, Flagged(a.during), a.result), sid, a.cooling);
  }

  // The first good attempt, or n.
  ghost function FirstGood(script: seq<Attempt>, k: nat, n: nat): (r: nat)
    requires k <= n <= |script|
    ensures k <= r <= n
    ensures r < n ==> Good(script[r])
    ensures forall j | k <= j < r :: !Good(script[j])
    decreases n - k
  {
    if k == n || Good(script[k]) then k else FirstGood(script, k + 1, n)
  }

  lemma FirstGoodIsFirst(script: seq<Attempt>, n: nat)
    requires n <= |script|
    ensures FirstGood(script, 0, n) == FirstSuccess(script, 0, n)
  {
    FirstSuccessIsFirst(script, 0, n);
    var a, b := FirstGood(script, 0, n), FirstSuccess(script, 0, n);
    if a < n { GoodIff(script[a]); }
    if b < n { GoodIff(script[b]); }
  }

  // The slot as the loop starts: announced as RECONNECTING, holding nothing, the session it held dead.
  lemma CleanIs(s: Slot)
    ensures var r := Clean(s);
      && r.state == Reconnecting && r.ib.None? && r.index == s.index && r.lastError == s.lastError
      && r.maintenance == s.maintenance && |r.sessions| == |s.sessions|
      && (forall x: nat | x < |s.sessions| ::
            r.sessions[x] == if s.ib == Some(x) then s.sessions[x].(phase := Dead) else s.sessions[x])
  {
  }

  // connect() before its loop: refused in maintenance, done if the session held is alive.
  lemma ConnectOutcome(ids: seq<int>, s: Slot, script: seq<Attempt>)
    requires SlotOk(ids, s) && |ids| <= |script|
    ensures var r, held := Connect(ids, s, script), s.ib.Some? && IsLive(s, s.ib.value);
      && (s.maintenance ==> r.slot == s && !r.ok && r.tried == [])
      && (!s.maintenance && held ==> r.slot == s.(state := Connected) && r.ok && r.tried == [])
      && (!s.maintenance && !held ==> (r.ok <==> exists j | 0 <= j < |ids| :: Good(script[j])))
  {
    if !s.maintenance && !(s.ib.Some? && IsLive(s, s.ib.value)) {
      PassesAreLawful(ids);
      TriesStopAtFirstSuccess(ids, PassOf(ids), Clean(s), script, 0);
      FirstGoodIsFirst(script, |ids|);
    }
  }

  // Failover told from the events: a call in which every attempt is good or refused tries the ids in cyclic
  // order and stops at the first good one; refused everywhere, it has tried each id once and is back where
  // it began.
  lemma ConnectMovesOnWhenRefused(ids: seq<int>, s: Slot, script: seq<Attempt>)
    requires SlotOk(ids, s) && |ids| <= |script|
    requires !s.maintenance && !(s.ib.Some? && IsLive(s, s.ib.value))
    requires forall j | 0 <= j < |ids| :: Good(script[j]) || Refused(script[j].during)
    ensures var r, first := Connect(ids, s, script), FirstGood(script, 0, |ids|);
      && (r.ok <==> first < |ids|)
      && r.tried == (ids[s.index..] + ids[..s.index])[..if first < |ids| then first + 1 else |ids|]
      && r.slot.index == if first < |ids| then Rotated(s.index, first, |ids|) else s.index
  {
    forall j | 0 <= j < |ids| ensures Succeeds(script[j]) || Conflicts(script[j]) { GoodIff(script[j]); }
    FirstGoodIsFirst(script, |ids|);
    FailoverComplete(ids, s, script);
  }

  // ---- In runs ----

  // What the lock holder hears while others take these steps.
  function HeardIn(steps: seq<Step>): seq<Event> {
    if steps == [] then [] else EventsOf(steps[0]) + HeardIn(steps[1..])
  }

  // t has just started an attempt.
  predicate Starts(w: World, t: nat) {
    && w.lock == Some(t) && w.Pc(t).Attempting? && !w.Pc(t).flagged
    && w.Pc(t).sid < |w.slot.sessions| && w.slot.sessions[w.Pc(t).sid].phase == Fresh
  }

  // Every pass begins so.
  lemma PassStarts(ids: seq<int>, w: World, t: nat, k: nat)
    requires w.slot.index < |ids| && w.lock == Some(t) && k < |ids|
    ensures Starts(NextPass(ids, w, t, k), t)
  {
  }

  lemma {:induction false} AttemptHears(ids: seq<int>, w: World, steps: seq<Step>, w': World, t: nat)
    requires Inv(ids, w) && w.lock == Some(t) && w.Pc(t).Attempting? && Path(ids, w, steps, w')
    requires forall i | 0 <= i < |steps| :: !OfHolder(steps[i])
    ensures Inv(ids, w') && w'.lock == Some(t)
    ensures w'.slot == ReactAll(w.slot, w.Pc(t).sid, HeardIn(steps)) && w'.slot.index == w.slot.index
    ensures w'.Pc(t) == Heard(w.Pc(t), HeardIn(steps))
    decreases |steps|
  {
    if steps != [] {
      var n, sid := Apply(ids, w, steps[0]), w.Pc(t).sid;
      StepKeepsInv(ids, w, steps[0]);
      OtherStep(ids, w, steps[0], t);
      ReactKeeps(ids, w.slot, sid, EventsOf(steps[0]));
      AttemptHears(ids, n, steps[1..], w', t);
      ReactConcat(w.slot, sid, EventsOf(steps[0]), HeardIn(steps[1..]));
    }
  }

  // t's attempt started in w, and others have taken these steps since.
  ghost predicate Awaits(ids: seq<int>, before: seq<Step>, w: World, t: nat, steps: seq<Step>, w': World) {
    && ids != [] && Path(ids, START, before, w) && Starts(w, t)
    && Path(ids, w, steps, w') && (forall i | 0 <= i < |steps| :: !OfHolder(steps[i]))
  }

  // In every run: an attempt installs its session when it ends exactly if connectAsync returned, nothing
  // heard since it started was a refusal, and the session is up; refused, it installs nothing and moves
  // the index on by one.
  lemma AttemptInRun(ids: seq<int>, before: seq<Step>, w: World, t: nat, steps: seq<Step>, w': World,
                     result: Result, accounts: bool)
    requires Awaits(ids, before, w, t, steps, w')
    ensures Enabled(w', EndAttempt(t, result, accounts)) && w'.slot.index == w.slot.index < |ids|
    ensures var evs, s := HeardIn(steps), Apply(ids, w', EndAttempt(t, result, accounts)).slot;
      && (s.ib == Some(w.Pc(t).sid) <==> result.Returned? && !Refused(evs) && Up(evs))
      && (s.ib == Some(w.Pc(t).sid) || s.ib.None?)
      && (Refused(evs) ==> s.index == if w.slot.index + 1 == |ids| then 0 else w.slot.index + 1)
  {
    RunInv(ids, before, w);
    AttemptHears(ids, w, steps, w', t);
    var evs := HeardIn(steps);
    PhaseOfSession(w.slot, w.Pc(t).sid, evs);
    FlaggedIff(evs);
    LiveIff(evs);
    EndInstallsIff(ids, w', t, result, accounts);
  }

  lemma EndInstallsIff(ids: seq<int>, w: World, t: nat, result: Result, accounts: bool)
    requires Inv(ids, w) && w.lock == Some(t) && w.Pc(t).Attempting?
    ensures var p, s := w.Pc(t), Apply(ids, w, EndAttempt(t, result, accounts)).slot;
      && (s.ib == Some(p.sid) <==> result.Returned? && !p.flagged && IsLive(w.slot, p.sid))
      && (s.ib == Some(p.sid) || s.ib.None?)
      && (p.flagged ==> s.index == NextIndex(w.slot.index, |ids|))
  {
    RejectKeeps(|ids|, w.slot, w.Pc(t).flagged, result);
  }
}
