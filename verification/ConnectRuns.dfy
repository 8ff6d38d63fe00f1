/** Every scripted connect() call of Connection is a run of the task machine in SlotRuns. */
module ConnectRuns {
  import opened Common
  import opened Connection
  import opened SlotRuns

  ghost predicate Reaches(ids: seq<int>, w: World, w': World) {
    exists steps :: Path(ids, w, steps, w')
  }

  lemma {:induction false} PathJoin(ids: seq<int>, w: World, a: seq<Step>, m: World, b: seq<Step>, w': World)
    requires Path(ids, w, a, m) && Path(ids, m, b, w')
    ensures Path(ids, w, a + b, w')
    decreases |a|
  {
    if a == [] {
      assert a + b == b;
    } else {
      PathJoin(ids, Apply(ids, w, a[0]), a[1..], m, b, w');
      assert (a + b)[1..] == a[1..] + b;
    }
  }

  lemma ReachesTrans(ids: seq<int>, w: World, m: World, w': World)
    requires Reaches(ids, w, m) && Reaches(ids, m, w')
    ensures Reaches(ids, w, w')
  {
    var a :| Path(ids, w, a, m);
    var b :| Path(ids, m, b, w');
    PathJoin(ids, w, a, m, b, w');
  }

  lemma OneStep(ids: seq<int>, w: World, step: Step)
    requires w.slot.index < |ids| && Enabled(w, step)
    ensures Reaches(ids, w, Apply(ids, w, step))
  {
    assert Path(ids, Apply(ids, w, step), [step][1..], Apply(ids, w, step));
    assert Path(ids, w, [step], Apply(ids, w, step));
  }

  lemma Stay(ids: seq<int>, w: World)
    ensures Reaches(ids, w, w)
  {
    assert Path(ids, w, [], w);
  }

  // The world after the lock holder t sat through the events.
  function Waited(w: World, t: nat, evs: seq<Event>): World
    requires HoldsLock(w.Pc(t))
  {
    var p := w.Pc(t);
    w.(slot := ReactAll(w.slot, p.sid, evs))
    .At(t, if p.Attempting? then p.(flagged := p.flagged || Flagged(evs)) else p)
  }

  lemma {:induction false} WaitReaches(ids: seq<int>, w: World, t: nat, evs: seq<Event>)
    requires SlotOk(ids, w.slot) && w.lock == Some(t) && HoldsLock(w.Pc(t))
    ensures Reaches(ids, w, Waited(w, t, evs))
    decreases |evs|
  {
    if evs == [] {
      assert Waited(w, t, []) == w by { assert w.pcs[t := w.pcs[t]] == w.pcs; }
      Stay(ids, w);
    } else {
      var most := evs[..|evs| - 1];
      WaitReaches(ids, w, t, most);
      var w1 := Waited(w, t, most);
      ReactKeeps(ids, w.slot, w.Pc(t).sid, most);
      OneStep(ids, w1, Happens(evs[|evs| - 1]));
      assert Apply(ids, w1, Happens(evs[|evs| - 1])).pcs == Waited(w, t, evs).pcs;
      ReachesTrans(ids, w, w1, Waited(w, t, evs));
    }
  }

  // The call is over and the lock released.
  function Done(w: World, t: nat, s: Slot): World {
    World(s, None, w.pcs[t := Idle])
  }

  lemma {:induction false} SettleReaches(ids: seq<int>, w: World, t: nat, s0: Slot, sid: nat,
                                         settle: seq<seq<Event>>, j: nat)
    requires SlotOk(ids, w.slot) && w.lock == Some(t)
    requires j <= |settle| <= MAX_SETTLE_WAITS
    requires w.slot == SettleAll(s0, sid, settle[..j])
    ensures Reaches(ids, Look(w, t, sid, j, j == |settle|), Done(w, t, SettleAll(s0, sid, settle)))
    decreases |settle| - j
  {
    if j == |settle| {
      assert settle[..j] == settle;
      Stay(ids, Done(w, t, SettleAll(s0, sid, settle)));
    } else {
      var w1 := w.At(t, Settling(sid, j + 1));
      var w2 := NapReaches(ids, w1, t, settle[j], j + 1 == |settle|);
      assert settle[..j + 1][..j] == settle[..j];
      SettleReaches(ids, w2, t, s0, sid, settle, j + 1);
      assert Done(w2, t, SettleAll(s0, sid, settle)) == Done(w, t, SettleAll(s0, sid, settle));
      ReachesTrans(ids, w1, Look(w2, t, sid, j + 1, j + 1 == |settle|), Done(w, t, SettleAll(s0, sid, settle)));
    }
  }

  // One wait for managedAccounts and the look after it.
  lemma NapReaches(ids: seq<int>, w: World, t: nat, evs: seq<Event>, accounts: bool) returns (w': World)
    requires SlotOk(ids, w.slot) && w.lock == Some(t) && w.Pc(t).Settling?
    ensures var p := w.Pc(t); SlotOk(ids, w'.slot) && w'.slot == ReactAll(w.slot, p.sid, evs)
    ensures w'.lock == Some(t) && w'.pcs[t := Idle] == w.pcs[t := Idle]
    ensures var p := w.Pc(t); Reaches(ids, w, Look(w', t, p.sid, p.waits, accounts))
  {
    var p := w.Pc(t);
    WaitReaches(ids, w, t, evs);
    w' := Waited(w, t, evs);
    ReactKeeps(ids, w.slot, p.sid, evs);
    OneStep(ids, w', WakeSettling(t, accounts));
    ReachesTrans(ids, w, w', Look(w', t, p.sid, p.waits, accounts));
  }

  // The one-second sleep after a rotation, and the end of that pass.
  lemma CoolingReaches(ids: seq<int>, w: World, t: nat, evs: seq<Event>) returns (w': World)
    requires SlotOk(ids, w.slot) && w.lock == Some(t) && w.Pc(t).Cooling?
    ensures SlotOk(ids, w'.slot) && w'.slot == Kill(ReactAll(w.slot, w.Pc(t).sid, evs), w.Pc(t).sid)
    ensures w'.lock == Some(t) && w'.pcs[t := Idle] == w.pcs[t := Idle]
    ensures Reaches(ids, w, NextPass(ids, w', t, w.Pc(t).k + 1))
  {
    var sid, w1 := w.Pc(t).sid, Waited(w, t, evs);
    WaitReaches(ids, w, t, evs);
    ReactKeeps(ids, w.slot, sid, evs);
    OneStep(ids, w1, WakeCooling(t));
    w' := w1.(slot := Kill(w1.slot, sid));
    ReachesTrans(ids, w, w1, NextPass(ids, w', t, w.Pc(t).k + 1));
  }

  // Where a task is once its attempt has been rejected and the slot is s.
  function Rejected(ids: seq<int>, w: World, t: nat, s: Slot, rotated: bool): World
    requires w.Pc(t).Attempting? && s.index < |ids|
  {
    var p := w.Pc(t);
    if rotated then w.(slot := s).At(t, Cooling(p.k, p.sid))
    else NextPass(ids, w.(slot := Kill(s, p.sid)), t, p.k + 1)
  }

  lemma EndOfFailure(ids: seq<int>, w: World, t: nat, result: Result)
    requires SlotOk(ids, w.slot) && w.Pc(t).Attempting?
    requires !Accepts(w.slot, w.Pc(t).sid, w.Pc(t).flagged, result)
    ensures var f := w.Pc(t).flagged;
      Reaches(ids, w, Rejected(ids, w, t, Reject(|ids|, w.slot, f, result), Rotates(w.slot, f, result)))
  {
    OneStep(ids, w, EndAttempt(t, result, false));
  }

  lemma RejectedReaches(ids: seq<int>, w: World, t: nat, s: Slot, rotated: bool, evs: seq<Event>) returns (w': World)
    requires SlotOk(ids, s) && w.lock == Some(t) && w.Pc(t).Attempting?
    ensures SlotOk(ids, w'.slot) && w'.slot == Cooled(s, w.Pc(t).sid, rotated, evs)
    ensures w'.lock == Some(t) && w'.pcs[t := Idle] == w.pcs[t := Idle]
    ensures Reaches(ids, Rejected(ids, w, t, s, rotated), NextPass(ids, w', t, w.Pc(t).k + 1))
  {
    if rotated {
      w' := CoolingReaches(ids, Rejected(ids, w, t, s, true), t, evs);
    } else {
      w' := w.(slot := Kill(s, w.Pc(t).sid));
      Stay(ids, Rejected(ids, w, t, s, false));
    }
  }

  // A failed attempt leads to the next pass.
  lemma FailureReaches(ids: seq<int>, w: World, t: nat, a: Attempt) returns (w': World)
    requires SlotOk(ids, w.slot) && w.lock == Some(t) && w.Pc(t).Attempting?
    requires w.Pc(t).flagged == Flagged(a.during)
    requires !Accepts(w.slot, w.Pc(t).sid, Flagged(a.during), a.result)
    ensures w'.slot == AfterFailure(ids, w.slot, w.Pc(t).sid, a)
    ensures w'.lock == Some(t) && w'.pcs[t := Idle] == w.pcs[t := Idle]
    ensures Reaches(ids, w, NextPass(ids, w', t, w.Pc(t).k + 1))
  {
    var f := w.Pc(t).flagged;
    var s', rotated := Reject(|ids|, w.slot, f, a.result), Rotates(w.slot, f, a.result);
    RejectKeeps(|ids|, w.slot, f, a.result);
    EndOfFailure(ids, w, t, a.result);
    w' := RejectedReaches(ids, w, t, s', rotated, a.cooling);
    ReachesTrans(ids, w, Rejected(ids, w, t, s', rotated), NextPass(ids, w', t, w.Pc(t).k + 1));
  }

  // An accepted attempt ends the call.
  lemma SuccessReaches(ids: seq<int>, w: World, t: nat, a: Attempt)
    requires SlotOk(ids, w.slot) && w.lock == Some(t) && w.Pc(t).Attempting?
    requires w.Pc(t).sid < |w.slot.sessions| && w.Pc(t).flagged == Flagged(a.during)
    requires Accepts(w.slot, w.Pc(t).sid, Flagged(a.during), a.result)
    ensures Reaches(ids, w, Done(w, t, SettleAll(Accept(w.slot, w.Pc(t).sid), w.Pc(t).sid, Waits(a))))
  {
    var sid, waits := w.Pc(t).sid, Waits(a);
    OneStep(ids, w, EndAttempt(t, a.result, 0 == |waits|));
    var w1 := w.(slot := Accept(w.slot, sid));
    assert waits[..0] == [];
    SettleReaches(ids, w1, t, w1.slot, sid, waits, 0);
    ReachesTrans(ids, w, Look(w1, t, sid, 0, 0 == |waits|), Done(w1, t, SettleAll(w1.slot, sid, waits)));
  }

  // The handshake of the k-th id.
  lemma HandshakeReaches(ids: seq<int>, w: World, t: nat, a: Attempt, k: nat) returns (w': World)
    requires SlotOk(ids, w.slot) && w.lock == Some(t) && k < |ids|
    ensures w'.slot == AfterHandshake(ids, w.slot, a) && w'.lock == Some(t)
    ensures w'.Pc(t) == Attempting(k, |w.slot.sessions|, Flagged(a.during))
    ensures w'.pcs[t := Idle] == w.pcs[t := Idle]
    ensures Reaches(ids, NextPass(ids, w, t, k), w')
  {
    w' := Waited(NextPass(ids, w, t, k), t, a.during);
    WaitReaches(ids, NextPass(ids, w, t, k), t, a.during);
  }

  // From the start of pass k to the end of the call, if that pass accepts.
  lemma LastPassReaches(ids: seq<int>, w: World, t: nat, a: Attempt, k: nat)
    requires SlotOk(ids, w.slot) && w.lock == Some(t) && k < |ids| && RunPass(ids, w.slot, a).ok
    ensures Reaches(ids, NextPass(ids, w, t, k), Done(w, t, RunPass(ids, w.slot, a).next))
  {
    var w2 := HandshakeReaches(ids, w, t, a, k);
    SuccessReaches(ids, w2, t, a);
    ReachesTrans(ids, NextPass(ids, w, t, k), w2, Done(w, t, RunPass(ids, w.slot, a).next));
  }

  // From the start of pass k to the start of the next, if it does not.
  lemma PassReaches(ids: seq<int>, w: World, t: nat, a: Attempt, k: nat) returns (w': World)
    requires SlotOk(ids, w.slot) && w.lock == Some(t) && k < |ids| && !RunPass(ids, w.slot, a).ok
    ensures SlotOk(ids, w'.slot) && w'.slot == RunPass(ids, w.slot, a).next
    ensures w'.lock == Some(t) && w'.pcs[t := Idle] == w.pcs[t := Idle]
    ensures Reaches(ids, NextPass(ids, w, t, k), NextPass(ids, w', t, k + 1))
  {
    var w2 := HandshakeReaches(ids, w, t, a, k);
    w' := FailureReaches(ids, w2, t, a);
    ReachesTrans(ids, NextPass(ids, w, t, k), w2, NextPass(ids, w', t, k + 1));
  }

  lemma {:induction false} TriesReaches(ids: seq<int>, pass: Pass, w: World, t: nat, script: seq<Attempt>, k: nat)
    requires IsPassOf(pass, ids) && SlotOk(ids, w.slot) && w.lock == Some(t) && k <= |ids| <= |script|
    ensures Reaches(ids, NextPass(ids, w, t, k), Done(w, t, Tries(pass, w.slot, script, k, |ids|).slot))
    decreases |ids| - k
  {
    if k == |ids| {
      Stay(ids, NextPass(ids, w, t, k));
    } else {
      var e := RunPass(ids, w.slot, script[k]);
      assert pass(w.slot, script[k]) == e;
      if e.ok {
        LastPassReaches(ids, w, t, script[k], k);
      } else {
        var w' := PassReaches(ids, w, t, script[k], k);
        TriesReaches(ids, pass, w', t, script, k + 1);
        ReachesTrans(ids, NextPass(ids, w, t, k), NextPass(ids, w', t, k + 1),
                     Done(w', t, Tries(pass, w'.slot, script, k + 1, |ids|).slot));
      }
    }
  }

  // A task that wants to connect takes a free lock.
  lemma LockReaches(ids: seq<int>, w: World, t: nat, script: seq<Attempt>)
    requires SlotOk(ids, w.slot) && |ids| <= |script| && !w.slot.maintenance
    requires w.lock.None? && w.Pc(t).WantConnect?
    ensures Reaches(ids, w, Done(w, t, Connect(ids, w.slot, script).slot))
  {
    var s, pass := w.slot, PassOf(ids);
    OneStep(ids, w, LockConnect(t));
    if !(s.ib.Some? && IsLive(s, s.ib.value)) {
      var w2 := w.(slot := Clean(s), lock := Some(t));
      TriesReaches(ids, pass, w2, t, script, 0);
      ReachesTrans(ids, w, NextPass(ids, w2, t, 0), Done(w2, t, Tries(pass, Clean(s), script, 0, |ids|).slot));
    }
  }

  // From any world where the lock is free, an idle task's connect() with this script is a run of the machine.
  lemma ConnectIsARun(ids: seq<int>, w: World, t: nat, script: seq<Attempt>)
    requires SlotOk(ids, w.slot) && |ids| <= |script|
    requires w.lock.None? && w.Pc(t).Idle?
    ensures Reaches(ids, w, Done(w, t, Connect(ids, w.slot, script).slot))
  {
    OneStep(ids, w, CallConnect(t));
    if !w.slot.maintenance {
      var w1 := w.At(t, WantConnect);
      LockReaches(ids, w1, t, script);
      SameEnd(w, w1, t, Connect(ids, w.slot, script).slot);
      ReachesTrans(ids, w, w1, Done(w, t, Connect(ids, w.slot, script).slot));
    }
  }

  lemma SameEnd(w: World, w1: World, t: nat, s: Slot)
    requires w1 == w.At(t, WantConnect)
    ensures Done(w1, t, s) == Done(w, t, s)
  {
  }
}
