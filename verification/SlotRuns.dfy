/**
 * Any number of tasks using one slot: every interleaving of connect, disconnect,
 * verify_api_alive, sync and maintenance calls, with sessions dying at any await. A step is the
 * code a task runs between two awaits, or something the environment does in between.
 */
module SlotRuns {
  import opened Common
  import opened Connection

  // Where a task stands.
  datatype Pc =
    | Idle
    | WantConnect                                       // waiting for _connect_lock in connect()
    | Attempting(k: nat, sid: nat, flagged: bool)       // awaiting connectAsync, k ids before
    | Cooling(k: nat, sid: nat)                         // the one-second sleep after a rotation
    | Settling(sid: nat, waits: nat)                    // waiting for managedAccounts
    | WantDisconnect                                    // waiting for _connect_lock in disconnect()
    | Probing(sid: nat)                                 // verify_api_alive awaits its probe

  datatype World = World(slot: Slot, lock: Option<nat>, pcs: map<nat, Pc>) {
    function Pc(t: nat): Pc { if t in pcs then pcs[t] else Idle }

    function At(t: nat, p: Pc): World { this.(pcs := pcs[t := p]) }
  }

  datatype Step =
    | CallConnect(t: nat)
    | LockConnect(t: nat)
    | EndAttempt(t: nat, result: Result, accounts: bool)
    | WakeCooling(t: nat)
    | WakeSettling(t: nat, accounts: bool)
    | CallDisconnect(t: nat)
    | LockDisconnect(t: nat)
    | CallVerify(t: nat)
    | EndVerify(t: nat, alive: bool)
    | Happens(e: Event)

  predicate HoldsLock(p: Pc) {
    p.Attempting? || p.Cooling? || p.Settling?
  }

  // The session of the connect() call in progress, if there is one.
  function Current(w: World): nat {
    if w.lock.Some? && HoldsLock(w.Pc(w.lock.value)) then w.Pc(w.lock.value).sid else |w.slot.sessions|
  }

  predicate Enabled(w: World, step: Step) {
    match step
    case CallConnect(t) => w.Pc(t).Idle?
    case LockConnect(t) => w.Pc(t).WantConnect? && w.lock.None?
    case EndAttempt(t, _, _) => w.Pc(t).Attempting?
    case WakeCooling(t) => w.Pc(t).Cooling?
    case WakeSettling(t, _) => w.Pc(t).Settling?
    case CallDisconnect(t) => w.Pc(t).Idle?
    case LockDisconnect(t) => w.Pc(t).WantDisconnect? && w.lock.None?
    case CallVerify(t) => w.Pc(t).Idle?
    case EndVerify(t, _) => w.Pc(t).Probing?
    case Happens(_) => true
  }

  // Start the k-th pass of the client-id loop, or give up after the last.
  function NextPass(ids: seq<int>, w: World, t: nat, k: nat): World
    requires w.slot.index < |ids|
  {
    if k < |ids| then w.(slot := Open(ids, w.slot)).At(t, Attempting(k, |w.slot.sessions|, false))
    else w.(slot := w.slot.(state := Disconnected), lock := None).At(t, Idle)
  }

  // Look for managed accounts; `waits` sleeps have been taken.
  function Look(w: World, t: nat, sid: nat, waits: nat, accounts: bool): World {
    if accounts || waits >= MAX_SETTLE_WAITS then w.(lock := None).At(t, Idle)
    else w.At(t, Settling(sid, waits + 1))
  }

  function Apply(ids: seq<int>, w: World, step: Step): World
    requires w.slot.index < |ids| && Enabled(w, step)
  {
    var s := w.slot;
    match step
    case CallConnect(t) => w.At(t, if s.maintenance then Idle else WantConnect)
    case LockConnect(t) =>
      if s.ib.Some? && IsLive(s, s.ib.value) then w.(slot := s.(state := Connected)).At(t, Idle)
      else NextPass(ids, w.(slot := Clean(s), lock := Some(t)), t, 0)
    case EndAttempt(t, result, accounts) =>
      var Attempting(k, sid, flagged) := w.Pc(t);
      if Accepts(s, sid, flagged, result) then Look(w.(slot := Accept(s, sid)), t, sid, 0, accounts)
      else if Rotates(s, flagged, result) then
        w.(slot := Reject(|ids|, s, flagged, result)).At(t, Cooling(k, sid))
      else NextPass(ids, w.(slot := Kill(Reject(|ids|, s, flagged, result), sid)), t, k + 1)
    case WakeCooling(t) => NextPass(ids, w.(slot := Kill(s, w.Pc(t).sid)), t, w.Pc(t).k + 1)
    case WakeSettling(t, accounts) => Look(w, t, w.Pc(t).sid, w.Pc(t).waits, accounts)
    case CallDisconnect(t) => w.At(t, WantDisconnect)
    case LockDisconnect(t) => w.(slot := Disconnect(s)).At(t, Idle)
    case CallVerify(t) =>
      var (s', up) := Sync(s);
      if up then w.(slot := s').At(t, Probing(s'.ib.GetOr(0))) else w.(slot := s')
    case EndVerify(t, alive) => w.At(t, if alive then Idle else WantDisconnect)
    case Happens(e) =>
      var w' := w.(slot := React(s, Current(w), e));
      if w.lock.Some? && w.Pc(w.lock.value).Attempting? && FlagsConflict(e)
      then w'.At(w.lock.value, w.Pc(w.lock.value).(flagged := true)) else w'
  }

  const START: World := World(INITIAL, None, map[])

  // ---- Invariant ----

  ghost predicate LockInv(w: World) {
    && (w.lock.Some? ==> HoldsLock(w.Pc(w.lock.value)))
    && (forall t | t in w.pcs && HoldsLock(w.pcs[t]) :: w.lock == Some(t))
  }

  // No task but t is inside the critical section of connect().
  ghost predicate OthersOut(pcs: map<nat, Pc>, t: nat) {
    forall u | u in pcs && u != t :: !HoldsLock(pcs[u])
  }

  ghost predicate SlotInv(ids: seq<int>, s: Slot) {
    && SlotOk(ids, s)
    && (s.state == Connected ==> s.ib.Some?)
    && (s.ib.Some? ==> s.state == Connected || s.state == Maintenance)
    && (s.ib.Some? ==> s.sessions[s.ib.value].phase != Fresh && s.sessions[s.ib.value].cid == ids[s.index])
  }

  // What the lock holder knows about its session.
  ghost predicate HolderInv(ids: seq<int>, s: Slot, p: Pc) {
    && HoldsLock(p)
    && p.sid < |s.sessions|
    && s.index < |ids|
    && (p.Attempting? ==> s.ib.None? && p.k < |ids| && s.sessions[p.sid].cid == ids[s.index])
    && (p.Cooling? ==> s.ib.None? && p.k < |ids|)
    && (p.Settling? ==> s.sessions[p.sid].phase != Fresh && (s.ib == Some(p.sid) || (s.ib.None? && !IsLive(s, p.sid))))
  }

  // Every session that is not dead is the one held or the one being opened.
  ghost predicate SessionsInv(s: Slot, current: nat) {
    forall i: nat | i < |s.sessions| && s.sessions[i].phase != Dead :: s.ib == Some(i) || i == current
  }

  ghost predicate Inv(ids: seq<int>, w: World) {
    && LockInv(w)
    && SlotInv(ids, w.slot)
    && (w.lock.Some? ==> HolderInv(ids, w.slot, w.Pc(w.lock.value)))
    && SessionsInv(w.slot, Current(w))
  }

  lemma SyncKeeps(ids: seq<int>, s: Slot, current: nat)
    requires SlotInv(ids, s) && SessionsInv(s, current)
    ensures SlotInv(ids, Sync(s).0) && SessionsInv(Sync(s).0, current)
    ensures Sync(s).1 ==> Sync(s).0 == s && s.ib.Some? && IsLive(s, s.ib.value)
  {
  }

  lemma ReactKeepsInv(ids: seq<int>, s: Slot, current: nat, e: Event)
    requires SlotInv(ids, s) && SessionsInv(s, current)
    ensures SlotInv(ids, React(s, current, e)) && SessionsInv(React(s, current, e), current)
  {
    if e.SyncSeen? { SyncKeeps(ids, s, current); }
  }

  lemma ReactKeepsHolder(ids: seq<int>, s: Slot, p: Pc, e: Event)
    requires SlotInv(ids, s) && HoldsLock(p) && HolderInv(ids, s, p)
    ensures HolderInv(ids, React(s, p.sid, e), p)
  {
  }

  // A pass starts with no session alive.
  lemma PassKeeps(ids: seq<int>, w: World, t: nat, k: nat)
    requires SlotOk(ids, w.slot) && w.slot.ib.None? && w.slot.state != Connected
    requires w.lock == Some(t)
    requires OthersOut(w.pcs, t)
    requires forall i: nat | i < |w.slot.sessions| :: w.slot.sessions[i].phase == Dead
    ensures Inv(ids, NextPass(ids, w, t, k))
  {
  }

  lemma LookKeeps(ids: seq<int>, w: World, t: nat, sid: nat, waits: nat, accounts: bool)
    requires SlotInv(ids, w.slot) && w.lock == Some(t)
    requires HolderInv(ids, w.slot, Settling(sid, waits))
    requires OthersOut(w.pcs, t)
    requires SessionsInv(w.slot, sid)
    ensures Inv(ids, Look(w, t, sid, waits, accounts))
  {
  }

  lemma NothingAlive(ids: seq<int>, w: World, t: nat)
    requires Inv(ids, w) && w.lock == Some(t) && (w.Pc(t).Attempting? || w.Pc(t).Cooling?)
    ensures w.slot.state != Connected
    ensures forall i: nat | i < |w.slot.sessions| && i != w.Pc(t).sid :: w.slot.sessions[i].phase == Dead
  {
  }

  // A task that does not hold the lock moves to another place outside it.
  lemma OutsideKeeps(ids: seq<int>, w: World, slot: Slot, t: nat, p: Pc)
    requires Inv(ids, w) && !HoldsLock(w.Pc(t)) && !HoldsLock(p)
    requires SlotInv(ids, slot) && SessionsInv(slot, Current(w))
    requires w.lock.Some? ==> HolderInv(ids, slot, w.Pc(w.lock.value))
    requires |slot.sessions| == |w.slot.sessions|
    ensures Inv(ids, w.(slot := slot).At(t, p))
  {
  }

  lemma LockConnectKeeps(ids: seq<int>, w: World, t: nat)
    requires Inv(ids, w) && Enabled(w, LockConnect(t))
    ensures Inv(ids, Apply(ids, w, LockConnect(t)))
  {
    var s := w.slot;
    if s.ib.Some? && IsLive(s, s.ib.value) {
      OutsideKeeps(ids, w, s.(state := Connected), t, Idle);
    } else {
      PassKeeps(ids, w.(slot := Clean(s), lock := Some(t)), t, 0);
    }
  }

  lemma CoolingKeeps(ids: seq<int>, w: World, t: nat, s: Slot, k: nat)
    requires Inv(ids, w) && w.lock == Some(t) && w.Pc(t).Attempting? && k < |ids|
    requires s.sessions == w.slot.sessions && s.ib.None? && s.state != Connected && s.index < |ids|
    ensures Inv(ids, w.(slot := s).At(t, Cooling(k, w.Pc(t).sid)))
  {
    assert Current(w.(slot := s).At(t, Cooling(k, w.Pc(t).sid))) == w.Pc(t).sid;
  }

  lemma RejectKeeps(n: nat, s: Slot, flagged: bool, result: Result)
    requires s.index < n
    ensures var s' := Reject(n, s, flagged, result);
      s'.sessions == s.sessions && s'.ib == s.ib && s'.state == s.state && s'.index < n
  {
  }

  lemma EndAttemptKeeps(ids: seq<int>, w: World, t: nat, result: Result, accounts: bool)
    requires Inv(ids, w) && w.Pc(t).Attempting?
    ensures Inv(ids, Apply(ids, w, EndAttempt(t, result, accounts)))
  {
    var s := w.slot;
    var Attempting(k, sid, flagged) := w.Pc(t);
    NothingAlive(ids, w, t);
    if Accepts(s, sid, flagged, result) {
      LookKeeps(ids, w.(slot := Accept(s, sid)), t, sid, 0, accounts);
    } else {
      var s' := Reject(|ids|, s, flagged, result);
      RejectKeeps(|ids|, s, flagged, result);
      if Rotates(s, flagged, result) {
        CoolingKeeps(ids, w, t, s', k);
      } else {
        PassKeeps(ids, w.(slot := Kill(s', sid)), t, k + 1);
      }
    }
  }

  lemma HappensKeeps(ids: seq<int>, w: World, e: Event)
    requires Inv(ids, w)
    ensures Inv(ids, Apply(ids, w, Happens(e)))
  {
    var c, w' := Current(w), Apply(ids, w, Happens(e));
    ReactKeepsInv(ids, w.slot, c, e);
    if w.lock.Some? {
      ReactKeepsHolder(ids, w.slot, w.Pc(w.lock.value), e);
      assert Current(w') == c;
    } else {
      assert |w'.slot.sessions| == |w.slot.sessions|;
    }
  }

  lemma StepKeepsInv(ids: seq<int>, w: World, step: Step)
    requires Inv(ids, w) && Enabled(w, step)
    ensures Inv(ids, Apply(ids, w, step))
  {
    match step {
      case CallConnect(t) => OutsideKeeps(ids, w, w.slot, t, if w.slot.maintenance then Idle else WantConnect);
      case LockConnect(t) => LockConnectKeeps(ids, w, t);
      case EndAttempt(t, result, accounts) => EndAttemptKeeps(ids, w, t, result, accounts);
      case WakeCooling(t) =>
        NothingAlive(ids, w, t);
        PassKeeps(ids, w.(slot := Kill(w.slot, w.Pc(t).sid)), t, w.Pc(t).k + 1);
      case WakeSettling(t, accounts) =>
        LookKeeps(ids, w, t, w.Pc(t).sid, w.Pc(t).waits, accounts);
      case CallDisconnect(t) => OutsideKeeps(ids, w, w.slot, t, WantDisconnect);
      case LockDisconnect(t) => OutsideKeeps(ids, w, Disconnect(w.slot), t, Idle);
      case CallVerify(t) =>
        HappensKeeps(ids, w, SyncSeen);
        SyncKeeps(ids, w.slot, Current(w));
        assert Apply(ids, w, Happens(SyncSeen)) == w.(slot := Sync(w.slot).0);
        if Sync(w.slot).1 { OutsideKeeps(ids, w, w.slot, t, Probing(w.slot.ib.GetOr(0))); }
      case EndVerify(t, alive) => OutsideKeeps(ids, w, w.slot, t, if alive then Idle else WantDisconnect);
      case Happens(e) => HappensKeeps(ids, w, e);
    }
  }

  // ---- Whole runs ----

  // The steps lead from w to w'. (The index is in range in every reachable world; see Inv.)
  ghost predicate Path(ids: seq<int>, w: World, steps: seq<Step>, w': World)
    decreases |steps|
  {
    if steps == [] then w == w'
    else w.slot.index < |ids| && Enabled(w, steps[0]) && Path(ids, Apply(ids, w, steps[0]), steps[1..], w')
  }

  lemma {:induction false} PathKeepsInv(ids: seq<int>, w: World, steps: seq<Step>, w': World)
    requires Inv(ids, w) && Path(ids, w, steps, w')
    ensures Inv(ids, w')
    decreases |steps|
  {
    if steps != [] {
      StepKeepsInv(ids, w, steps[0]);
      PathKeepsInv(ids, Apply(ids, w, steps[0]), steps[1..], w');
    }
  }

  lemma RunInv(ids: seq<int>, steps: seq<Step>, w: World)
    requires ids != [] && Path(ids, START, steps, w)
    ensures Inv(ids, w)
  {
    PathKeepsInv(ids, START, steps, w);
  }

  // At most one live session, and with the lock free it is the one held.
  lemma AtMostOneSession(ids: seq<int>, steps: seq<Step>, w: World, i: nat, j: nat)
    requires ids != [] && Path(ids, START, steps, w)
    requires IsLive(w.slot, i)
    ensures IsLive(w.slot, j) ==> i == j
    ensures w.lock.None? ==> w.slot.ib == Some(i)
  {
    RunInv(ids, steps, w);
  }

  // What every task may rely on at every await point of every run.
  lemma AwaitPointAgreement(ids: seq<int>, steps: seq<Step>, w: World)
    requires ids != [] && Path(ids, START, steps, w)
    ensures w.slot.state == Connected ==> w.slot.ib.Some?
    ensures w.slot.ib.Some? ==> w.slot.state == Connected || w.slot.state == Maintenance
    ensures w.slot.index < |ids|
    ensures w.slot.ib.Some? ==>
              (w.slot.ib.value < |w.slot.sessions|
               && w.slot.sessions[w.slot.ib.value].cid == ClientIdOf(ids, w.slot))
  {
    RunInv(ids, steps, w);
  }

  // At most one task is inside connect()'s critical section, and it is the lock's owner.
  lemma MutualExclusion(ids: seq<int>, steps: seq<Step>, w: World, t: nat, u: nat)
    requires ids != [] && Path(ids, START, steps, w)
    requires HoldsLock(w.Pc(t))
    ensures w.lock == Some(t)
    ensures HoldsLock(w.Pc(u)) ==> t == u
  {
    RunInv(ids, steps, w);
  }
}
