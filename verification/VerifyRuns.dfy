/** A failed probe over whole runs: disconnect() ends whatever session is held once it has the lock. */
module VerifyRuns {
  import opened Common
  import opened Connection
  import opened SlotRuns
  import opened ConnectRuns

  // In every run the disconnect after a failed probe leaves no session alive; it ends only the session
  // probed exactly when no other one is held and alive when it gets the lock.
  lemma FailedProbeEnds(ids: seq<int>, steps: seq<Step>, w: World, t: nat, probed: nat)
    requires ids != [] && Path(ids, START, steps, w) && Enabled(w, LockDisconnect(t))
    ensures w.slot.index < |ids|
    ensures var s := Apply(ids, w, LockDisconnect(t)).slot;
      && s.state == Disconnected && s.ib.None? && (forall x: nat :: !IsLive(s, x))
      && ((forall x: nat | IsLive(w.slot, x) && !IsLive(s, x) :: x == probed)
          <==> !(w.slot.ib.Some? && w.slot.ib.value != probed && IsLive(w.slot, w.slot.ib.value)))
  {
    RunInv(ids, steps, w);
    var s := Apply(ids, w, LockDisconnect(t)).slot;
    forall x: nat ensures !IsLive(s, x) {
      if IsLive(w.slot, x) { AtMostOneSession(ids, steps, w, x, x); }
    }
    if w.slot.ib.Some? { assert !IsLive(s, w.slot.ib.value); }
  }

  // A handshake that comes up at once.
  const QUICK: Attempt := Attempt([Handshake], Returned, [], [])

  // Connecting a slot without a living session, with one id that is free.
  lemma QuickConnect(cid: int, s: Slot)
    requires s.index == 0 && !s.maintenance && (s.ib.Some? ==> s.ib.value < |s.sessions| && !IsLive(s, s.ib.value))
    ensures var r := Connect([cid], s, [QUICK]).slot;
      && r.state == Connected && r.index == 0 && !r.maintenance && r.ib == Some(|s.sessions|)
      && |r.sessions| == |s.sessions| + 1 && IsLive(r, |s.sessions|)
      && (forall x: nat | x < |s.sessions| && !IsLive(s, x) :: !IsLive(r, x))
  {
    var ids, n, s0 := [cid], |s.sessions|, Clean(s);
    ReactOne(Open(ids, s0), n, Handshake);
    assert Accepts(AfterHandshake(ids, s0, QUICK), n, Flagged([Handshake]), Returned);
    assert RunPass(ids, s0, QUICK).next == Accept(AfterHandshake(ids, s0, QUICK), n);
    assert Tries(PassOf(ids), s0, [QUICK], 0, 1).slot == RunPass(ids, s0, QUICK).next;
  }

  // Task 0 connects, task 2 starts to probe and the session dies.
  lemma ProbedSessionDies(cid: int) returns (w: World)
    ensures Reaches([cid], START, w) && w.lock.None? && w.Pc(1).Idle? && w.Pc(2) == Probing(0)
    ensures w.slot.index == 0 && !w.slot.maintenance && w.slot.ib == Some(0)
    ensures |w.slot.sessions| == 1 && !IsLive(w.slot, 0)
  {
    var ids := [cid];
    QuickConnect(cid, START.slot);
    ConnectIsARun(ids, START, 0, [QUICK]);
    var w1 := Done(START, 0, Connect(ids, START.slot, [QUICK]).slot);
    OneStep(ids, w1, CallVerify(2));
    var w2 := w1.At(2, Probing(0));
    ReachesTrans(ids, START, w1, w2);
    OneStep(ids, w2, Happens(Dies(0)));
    w := Apply(ids, w2, Happens(Dies(0)));
    ReachesTrans(ids, START, w2, w);
  }

  // Then task 1 connects again and the probe fails: task 2 ends the session task 1 has just opened.
  lemma ProbeEndsAnotherSession(cid: int) returns (w: World, w': World)
    ensures Reaches([cid], START, w) && Reaches([cid], w, w')
    ensures w.Pc(2) == Probing(0) && w.slot.state == Connected && w.slot.ib == Some(1) && IsLive(w.slot, 1)
    ensures w'.slot.state == Disconnected && !IsLive(w'.slot, 1)
  {
    var dead := ProbedSessionDies(cid);
    QuickConnect(cid, dead.slot);
    ConnectIsARun([cid], dead, 1, [QUICK]);
    w := Done(dead, 1, Connect([cid], dead.slot, [QUICK]).slot);
    ReachesTrans([cid], START, dead, w);
    w' := ProbeFails([cid], w);
  }

  lemma ProbeFails(ids: seq<int>, w: World) returns (w': World)
    requires w.slot.index < |ids| && w.lock.None? && w.Pc(2).Probing? && w.slot.ib.Some?
    ensures Reaches(ids, w, w') && w'.slot == Disconnect(w.slot)
  {
    var w1 := w.At(2, WantDisconnect);
    OneStep(ids, w, EndVerify(2, false));
    OneStep(ids, w1, LockDisconnect(2));
    w' := Apply(ids, w1, LockDisconnect(2));
    ReachesTrans(ids, w, w1, w');
  }
}
