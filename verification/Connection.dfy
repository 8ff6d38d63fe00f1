/**
 * connection.py: one TWS slot. `Slot` is the value a SlotConnection holds plus every
 * API session its factory ever produced; the functions below are the stretches of code
 * between two awaits. The class carries the same state in mutable fields and is proved
 * against them; SlotRuns interleaves them over any number of tasks.
 */
module Connection {
  import opened Common
  import Text

  datatype ConnState = Connected | Disconnected | Reconnecting | Maintenance

  // A session is Fresh until its handshake completes; Dead is final.
  datatype Phase = Fresh | Live | Dead

  datatype Session = Session(cid: int, phase: Phase)

  // Sessions are named by their position in `sessions`.
  datatype Slot = Slot(
    state: ConnState, index: nat, ib: Option<nat>, lastError: Option<string>,
    maintenance: bool, sessions: seq<Session>)

  // The slot as the process makes it.
  const INITIAL: Slot := Slot(Disconnected, 0, None, None, false, [])

  // What can happen to the slot while some task waits inside connect().
  datatype Event =
    | SyncSeen                                    // another task calls sync_connection_state
    | EnterMaintenance
    | ExitMaintenance
    | Dies(sid: nat)                              // some other session is lost
    | Handshake                                   // the current attempt's session comes up
    | Drops                                       // the current attempt's session is lost
    | ErrorReported(code: int, reqId: int, msg: string)   // the current attempt's errorEvent

  datatype Result = Returned | Raised(text: string)

  // One pass of the client-id loop as the environment scripts it.
  datatype Attempt = Attempt(
    during: seq<Event>,         // while connectAsync is awaited
    result: Result,             // how connectAsync ends
    settle: seq<seq<Event>>,    // one entry per 0.25s wait until managedAccounts is non-empty
    cooling: seq<Event>)        // during the one-second sleep after a rotation

  predicate SlotOk(ids: seq<int>, s: Slot) {
    && s.index < |ids|
    && (s.ib.Some? ==> s.ib.value < |s.sessions|)
  }

  predicate IsLive(s: Slot, sid: nat) {
    sid < |s.sessions| && s.sessions[sid].phase == Live
  }

  function WithPhase(ss: seq<Session>, sid: nat, p: Phase): (r: seq<Session>)
    ensures |r| == |ss|
  {
    if sid < |ss| then ss[sid := ss[sid].(phase := p)] else ss
  }

  function Kill(s: Slot, sid: nat): Slot {
    s.(sessions := WithPhase(s.sessions, sid, Dead))
  }

  // sync_connection_state
  function Sync(s: Slot): (Slot, bool) {
    if s.state != Connected then (s, false)
    else if s.ib.None? || !IsLive(s, s.ib.value) then (s.(ib := None, state := Disconnected), false)
    else (s, true)
  }

  // The critical section of disconnect()
  function Disconnect(s: Slot): Slot {
    (if s.ib.Some? then Kill(s, s.ib.value).(ib := None) else s).(state := Disconnected)
  }

  function ErrorText(code: int, reqId: int, msg: string): string {
    "Error " + Text.Integer(code) + ", reqId " + Text.Integer(reqId) + ": " + msg
  }

  predicate FlagsConflict(e: Event) {
    e.ErrorReported? && (e.code == 326 || Text.Contains(Text.Lower(e.msg), "already in use"))
  }

  predicate Flagged(evs: seq<Event>) {
    evs != [] && (Flagged(evs[..|evs| - 1]) || FlagsConflict(evs[|evs| - 1]))
  }

  function React(s: Slot, sid: nat, e: Event): Slot {
    match e
    case SyncSeen => Sync(s).0
    case EnterMaintenance => s.(maintenance := true, state := Maintenance)
    case ExitMaintenance => s.(maintenance := false)
    case Dies(x) => if x != sid then Kill(s, x) else s
    case Drops => Kill(s, sid)
    case Handshake =>
      if sid < |s.sessions| && s.sessions[sid].phase == Fresh
      then s.(sessions := WithPhase(s.sessions, sid, Live)) else s
    case ErrorReported(code, reqId, msg) => s.(lastError := Some(ErrorText(code, reqId, msg)))
  }

  function ReactAll(s: Slot, sid: nat, evs: seq<Event>): Slot {
    if evs == [] then s else React(ReactAll(s, sid, evs[..|evs| - 1]), sid, evs[|evs| - 1])
  }

  function JoinParts(a: string, b: string): string {
    if a == "" then b else if b == "" then a else a + " " + b
  }

  // _is_client_id_conflict on two optional parts
  predicate IsClientIdConflict(a: Option<string>, b: Option<string>) {
    var text := Text.Lower(JoinParts(a.GetOr(""), b.GetOr("")));
    Text.Contains(text, "326") || Text.Contains(text, "already in use")
  }

  // connect() up to its first client id: drop a dead session, announce the attempt.
  function Clean(s: Slot): Slot {
    (if s.ib.Some? then Kill(s, s.ib.value).(ib := None) else s).(state := Reconnecting)
  }

  function Open(ids: seq<int>, s: Slot): Slot
    requires s.index < |ids|
  {
    s.(sessions := s.sessions + [Session(ids[s.index], Fresh)])
  }

  predicate Accepts(s: Slot, sid: nat, flagged: bool, result: Result) {
    result.Returned? && !flagged && IsLive(s, sid)
  }

  function Accept(s: Slot, sid: nat): Slot {
    s.(ib := Some(sid), state := Connected, lastError := None)
  }

  // str(e) of the exception that ends a failed attempt
  function FailureText(s: Slot, result: Result): string {
    match result
    case Raised(text) => text
    case Returned => if s.lastError.GetOr("") != "" then s.lastError.value else "TWS rejected client id"
  }

  // The text the handler settles on: an empty exception falls back on last_error, however old.
  function SettledText(s: Slot, result: Result): string {
    var text := FailureText(s, result);
    if text != "" then text else s.lastError.GetOr("")
  }

  function NoteFailure(s: Slot, result: Result): Slot {
    if SettledText(s, result) != "" then s.(lastError := Some(SettledText(s, result))) else s
  }

  predicate Rotates(s: Slot, flagged: bool, result: Result) {
    IsClientIdConflict(Some(SettledText(s, result)), NoteFailure(s, result).lastError) || flagged
  }

  // The index after one rotation, stated without the remainder operator.
  function NextIndex(i: nat, n: nat): (r: nat)
    requires i < n
    ensures r < n
  {
    if i + 1 == n then 0 else i + 1
  }

  lemma NextIndexIsMod(i: nat, n: nat)
    requires i < n
    ensures NextIndex(i, n) == (i + 1) % n
  {
  }

  function Reject(n: nat, s: Slot, flagged: bool, result: Result): Slot
    requires s.index < n
  {
    var s' := NoteFailure(s, result);
    if Rotates(s, flagged, result) then s'.(index := NextIndex(s.index, n)) else s'
  }

  // `tried` lists the client ids in the order they were tried; `rotations` counts index moves.
  datatype Outcome = Outcome(slot: Slot, ok: bool, tried: seq<int>, rotations: nat)

  const MAX_SETTLE_WAITS: nat := 20

  function SettleAll(s: Slot, sid: nat, settle: seq<seq<Event>>): Slot {
    if settle == [] then s
    else ReactAll(SettleAll(s, sid, settle[..|settle| - 1]), sid, settle[|settle| - 1])
  }

  function Waits(a: Attempt): seq<seq<Event>> {
    if |a.settle| <= MAX_SETTLE_WAITS then a.settle else a.settle[..MAX_SETTLE_WAITS]
  }

  lemma {:induction false} ReactKeeps(ids: seq<int>, s: Slot, sid: nat, evs: seq<Event>)
    requires SlotOk(ids, s)
    ensures var r := ReactAll(s, sid, evs);
            SlotOk(ids, r) && r.index == s.index && |r.sessions| == |s.sessions|
  {
    if evs != [] { ReactKeeps(ids, s, sid, evs[..|evs| - 1]); }
  }

  lemma {:induction false} SettleKeeps(ids: seq<int>, s: Slot, sid: nat, settle: seq<seq<Event>>)
    requires SlotOk(ids, s)
    ensures var r := SettleAll(s, sid, settle);
            SlotOk(ids, r) && r.index == s.index && |r.sessions| == |s.sessions|
  {
    if settle != [] {
      SettleKeeps(ids, s, sid, settle[..|settle| - 1]);
      ReactKeeps(ids, SettleAll(s, sid, settle[..|settle| - 1]), sid, settle[|settle| - 1]);
    }
  }

  lemma ReactOne(s: Slot, sid: nat, e: Event)
    ensures ReactAll(s, sid, [e]) == React(s, sid, e) && (Flagged([e]) <==> FlagsConflict(e))
  {
    assert [e][..0] == [];
  }

  lemma {:induction false} ReactConcat(s: Slot, sid: nat, a: seq<Event>, b: seq<Event>)
    ensures ReactAll(s, sid, a + b) == ReactAll(ReactAll(s, sid, a), sid, b)
    ensures Flagged(a + b) <==> Flagged(a) || Flagged(b)
  {
    if b == [] {
      assert a + b == a;
    } else {
      assert (a + b)[..|a + b| - 1] == a + b[..|b| - 1];
      ReactConcat(s, sid, a, b[..|b| - 1]);
    }
  }

  // What the slot is when connectAsync of a new attempt has ended.
  function AfterHandshake(ids: seq<int>, s: Slot, a: Attempt): (r: Slot)
    requires SlotOk(ids, s)
    ensures SlotOk(ids, r) && r.index == s.index && |r.sessions| == |s.sessions| + 1
  {
    ReactKeeps(ids, Open(ids, s), |s.sessions|, a.during);
    ReactAll(Open(ids, s), |s.sessions|, a.during)
  }

  // The rest of a failed pass: after a rotation a second's sleep, then the session is dropped.
  function Cooled(s: Slot, sid: nat, rotated: bool, cooling: seq<Event>): Slot {
    Kill(if rotated then ReactAll(s, sid, cooling) else s, sid)
  }

  // A failed attempt from the except clause to the end of its pass.
  function AfterFailure(ids: seq<int>, s: Slot, sid: nat, a: Attempt): (r: Slot)
    requires SlotOk(ids, s)
    ensures SlotOk(ids, r) && |r.sessions| == |s.sessions|
    ensures r.index == if Rotates(s, Flagged(a.during), a.result) then NextIndex(s.index, |ids|) else s.index
  {
    var flagged := Flagged(a.during);
    var s' := Reject(|ids|, s, flagged, a.result);
    ReactKeeps(ids, s', sid, a.cooling);
    Cooled(s', sid, Rotates(s, flagged, a.result), a.cooling)
  }

  // One pass of the client-id loop: the slot afterwards, the id tried, whether the attempt was accepted
  // and whether it moved the index.
  datatype PassEnd = PassEnd(next: Slot, cid: int, ok: bool, rotated: bool)

  type Pass = (Slot, Attempt) -> PassEnd

  function RunPass(ids: seq<int>, s: Slot, a: Attempt): PassEnd {
    if !SlotOk(ids, s) then PassEnd(s, 0, false, false)   // no slot is ever like this
    else
      var s1, sid, flagged := AfterHandshake(ids, s, a), |s.sessions|, Flagged(a.during);
      if Accepts(s1, sid, flagged, a.result)
      then PassEnd(SettleAll(Accept(s1, sid), sid, Waits(a)), ids[s.index], true, false)
      else PassEnd(AfterFailure(ids, s1, sid, a), ids[s.index], false, Rotates(s1, flagged, a.result))
  }

  function PassOf(ids: seq<int>): Pass {
    (s, a) => RunPass(ids, s, a)
  }

  // `pass` behaves as RunPass.
  ghost predicate IsPassOf(pass: Pass, ids: seq<int>) {
    forall s, a {:trigger RunPass(ids, s, a)} :: pass(s, a) == RunPass(ids, s, a)
  }

  function Then(e: PassEnd, rest: Outcome): Outcome {
    rest.(tried := [e.cid] + rest.tried, rotations := rest.rotations + if e.rotated then 1 else 0)
  }

  // The client-id loop from pass k to pass n.
  function Tries(pass: Pass, s: Slot, script: seq<Attempt>, k: nat, n: nat): Outcome
    requires k <= n <= |script|
    decreases n - k
  {
    if k == n then Outcome(s.(state := Disconnected), false, [], 0)
    else
      var e := pass(s, script[k]);
      if e.ok then Outcome(e.next, true, [e.cid], 0) else Then(e, Tries(pass, e.next, script, k + 1, n))
  }

  function Connect(ids: seq<int>, s: Slot, script: seq<Attempt>): Outcome
    requires SlotOk(ids, s) && |ids| <= |script|
  {
    if s.maintenance then Outcome(s, false, [], 0)
    else if s.ib.Some? && IsLive(s, s.ib.value) then Outcome(s.(state := Connected), true, [], 0)
    else Tries(PassOf(ids), Clean(s), script, 0, |ids|)
  }

  // The client id the slot reports.
  function ClientIdOf(ids: seq<int>, s: Slot): int
    requires s.index < |ids|
  {
    ids[s.index]
  }

  // The slot holds nothing, or session sid with that client id.
  predicate HoldsAs(s: Slot, sid: nat, cid: int) {
    sid < |s.sessions| && s.sessions[sid].cid == cid && (s.ib == Some(sid) || s.ib.None?)
  }

  lemma {:induction false} ReactHolds(s: Slot, n: nat, evs: seq<Event>, sid: nat, cid: int)
    requires HoldsAs(s, sid, cid)
    ensures HoldsAs(ReactAll(s, n, evs), sid, cid)
  {
    if evs != [] { ReactHolds(s, n, evs[..|evs| - 1], sid, cid); }
  }

  lemma {:induction false} SettleHolds(s: Slot, n: nat, settle: seq<seq<Event>>, sid: nat, cid: int)
    requires HoldsAs(s, sid, cid)
    ensures HoldsAs(SettleAll(s, n, settle), sid, cid)
  {
    if settle != [] {
      var most := settle[..|settle| - 1];
      SettleHolds(s, n, most, sid, cid);
      ReactHolds(SettleAll(s, n, most), n, settle[|settle| - 1], sid, cid);
    }
  }

  // An accepted pass leaves the slot holding a session of the client id it reports, or nothing.
  lemma AcceptedReportsItsId(ids: seq<int>, s: Slot, a: Attempt)
    requires SlotOk(ids, s) && RunPass(ids, s, a).ok
    ensures var r := RunPass(ids, s, a).next;
      SlotOk(ids, r) && (r.ib.Some? ==> r.sessions[r.ib.value].cid == ClientIdOf(ids, r))
  {
    var n, s1 := |s.sessions|, AfterHandshake(ids, s, a);
    OpenedCid(ids, s, a);
    SettleHolds(Accept(s1, n), n, Waits(a), n, ids[s.index]);
    SettleKeeps(ids, Accept(s1, n), n, Waits(a));
  }

  lemma OpenedCid(ids: seq<int>, s: Slot, a: Attempt)
    requires SlotOk(ids, s)
    ensures AfterHandshake(ids, s, a).sessions[|s.sessions|].cid == ids[s.index]
  {
    CidStays(Open(ids, s), |s.sessions|, a.during);
  }

  lemma {:induction false} CidStays(s: Slot, n: nat, evs: seq<Event>)
    requires n < |s.sessions|
    ensures var r := ReactAll(s, n, evs); n < |r.sessions| && r.sessions[n].cid == s.sessions[n].cid
  {
    if evs != [] { CidStays(s, n, evs[..|evs| - 1]); }
  }

  // What other tasks do to the slot while a task outside connect() waits.
  datatype Doing = Occurs(event: Event) | Connects(script: seq<Attempt>) | Disconnects

  predicate Doable(ids: seq<int>, ds: seq<Doing>) {
    forall i | 0 <= i < |ds| && ds[i].Connects? :: |ids| <= |ds[i].script|
  }

  function Do(ids: seq<int>, s: Slot, d: Doing): Slot
    requires SlotOk(ids, s) && (d.Connects? ==> |ids| <= |d.script|)
  {
    match d
    case Occurs(e) => React(s, |s.sessions|, e)
    case Connects(script) => Connect(ids, s, script).slot
    case Disconnects => Disconnect(s)
  }

  // A pass keeps the slot in order, and a dead session dead.
  ghost predicate KeepsDead(ids: seq<int>, pass: Pass, sid: nat) {
    forall s, a | SlotOk(ids, s) :: PassKeepsDead(ids, s, pass(s, a).next, sid)
  }

  ghost predicate PassKeepsDead(ids: seq<int>, s: Slot, r: Slot, sid: nat) {
    && SlotOk(ids, r) && |s.sessions| <= |r.sessions|
    && (sid < |s.sessions| && !IsLive(s, sid) ==> !IsLive(r, sid))
  }

  lemma {:induction false} DeadStaysDead(s: Slot, n: nat, evs: seq<Event>, sid: nat)
    requires sid != n && sid < |s.sessions| && !IsLive(s, sid)
    ensures var r := ReactAll(s, n, evs); |r.sessions| == |s.sessions| && !IsLive(r, sid)
  {
    if evs != [] { DeadStaysDead(s, n, evs[..|evs| - 1], sid); }
  }

  lemma {:induction false} SettleKeepsDead(s: Slot, n: nat, settle: seq<seq<Event>>, sid: nat)
    requires sid != n && sid < |s.sessions| && !IsLive(s, sid)
    ensures var r := SettleAll(s, n, settle); |r.sessions| == |s.sessions| && !IsLive(r, sid)
  {
    if settle != [] {
      var most := settle[..|settle| - 1];
      SettleKeepsDead(s, n, most, sid);
      DeadStaysDead(SettleAll(s, n, most), n, settle[|settle| - 1], sid);
    }
  }

  lemma FailureKeepsDead(ids: seq<int>, s: Slot, n: nat, a: Attempt, sid: nat)
    requires SlotOk(ids, s) && sid != n && sid < |s.sessions| && !IsLive(s, sid)
    ensures !IsLive(AfterFailure(ids, s, n, a), sid)
  {
    DeadStaysDead(Reject(|ids|, s, Flagged(a.during), a.result), n, a.cooling, sid);
  }

  lemma RunPassKeepsDead(ids: seq<int>, s: Slot, a: Attempt, sid: nat)
    requires SlotOk(ids, s)
    ensures PassKeepsDead(ids, s, RunPass(ids, s, a).next, sid)
  {
    var n, s1 := |s.sessions|, AfterHandshake(ids, s, a);
    if Accepts(s1, n, Flagged(a.during), a.result) { SettleKeeps(ids, Accept(s1, n), n, Waits(a)); }
    if sid < |s.sessions| && !IsLive(s, sid) {
      DeadStaysDead(Open(ids, s), n, a.during, sid);
      if Accepts(s1, n, Flagged(a.during), a.result) {
        SettleKeepsDead(Accept(s1, n), n, Waits(a), sid);
      } else {
        FailureKeepsDead(ids, s1, n, a, sid);
      }
    }
  }

  lemma PassesKeepDead(ids: seq<int>, sid: nat)
    ensures KeepsDead(ids, PassOf(ids), sid)
  {
    forall s, a | SlotOk(ids, s) ensures PassKeepsDead(ids, s, PassOf(ids)(s, a).next, sid) {
      RunPassKeepsDead(ids, s, a, sid);
    }
  }

  lemma {:induction false} TriesKeepDead(ids: seq<int>, pass: Pass, s: Slot, script: seq<Attempt>, k: nat, sid: nat)
    requires KeepsDead(ids, pass, sid) && SlotOk(ids, s) && k <= |ids| <= |script|
    ensures PassKeepsDead(ids, s, Tries(pass, s, script, k, |ids|).slot, sid)
    decreases |ids| - k
  {
    if k < |ids| {
      var e := pass(s, script[k]);
      assert PassKeepsDead(ids, s, e.next, sid);
      if !e.ok { TriesKeepDead(ids, pass, e.next, script, k + 1, sid); }
    }
  }

  lemma ConnectKeepsDead(ids: seq<int>, s: Slot, script: seq<Attempt>, sid: nat)
    requires SlotOk(ids, s) && |ids| <= |script|
    ensures PassKeepsDead(ids, s, Connect(ids, s, script).slot, sid)
  {
    PassesKeepDead(ids, sid);
    TriesKeepDead(ids, PassOf(ids), Clean(s), script, 0, sid);
  }

  lemma DoKeeps(ids: seq<int>, s: Slot, d: Doing)
    requires SlotOk(ids, s) && (d.Connects? ==> |ids| <= |d.script|)
    ensures SlotOk(ids, Do(ids, s, d)) && |s.sessions| <= |Do(ids, s, d).sessions|
  {
    if d.Connects? { ConnectKeepsDead(ids, s, d.script, 0); }
  }

  function DoAll(ids: seq<int>, s: Slot, ds: seq<Doing>): (r: Slot)
    requires SlotOk(ids, s) && Doable(ids, ds)
    ensures SlotOk(ids, r)
  {
    if ds == [] then s
    else
      var before := DoAll(ids, s, ds[..|ds| - 1]);
      DoKeeps(ids, before, ds[|ds| - 1]);
      Do(ids, before, ds[|ds| - 1])
  }

  // verify_api_alive: `alive` is how the probe ends, `during` what is done while it is awaited and
  // `waiting` what is done before disconnect() gets the lock.
  function Verify(ids: seq<int>, s: Slot, during: seq<Doing>, alive: bool, waiting: seq<Doing>): (Slot, bool)
    requires SlotOk(ids, s) && Doable(ids, during) && Doable(ids, waiting)
  {
    var (s1, up) := Sync(s);
    if !up then (s1, false)
    else if alive then (DoAll(ids, s1, during), true)
    else (Disconnect(DoAll(ids, DoAll(ids, s1, during), waiting)), false)
  }

  // The session is the one held, or it is dead for good.
  predicate HeldOrDead(s: Slot, sid: nat) {
    sid < |s.sessions| && (s.ib == Some(sid) || !IsLive(s, sid))
  }

  lemma DoHoldsOrKills(ids: seq<int>, s: Slot, d: Doing, sid: nat)
    requires SlotOk(ids, s) && (d.Connects? ==> |ids| <= |d.script|) && HeldOrDead(s, sid)
    ensures HeldOrDead(Do(ids, s, d), sid)
  {
    match d {
      case Connects(script) =>
        if !s.maintenance && !(s.ib.Some? && IsLive(s, s.ib.value)) {
          ConnectKeepsDead(ids, s, script, sid);
        }
      case Occurs(e) =>
      case Disconnects =>
    }
  }

  lemma {:induction false} AllHoldOrKill(ids: seq<int>, s: Slot, ds: seq<Doing>, sid: nat)
    requires SlotOk(ids, s) && Doable(ids, ds) && HeldOrDead(s, sid)
    ensures HeldOrDead(DoAll(ids, s, ds), sid)
  {
    if ds != [] {
      var most := ds[..|ds| - 1];
      AllHoldOrKill(ids, s, most, sid);
      DoHoldsOrKills(ids, DoAll(ids, s, most), ds[|ds| - 1], sid);
    }
  }

  // What verify_api_alive promises, whatever events, connects and disconnects happen at its awaits: True exactly
  // when the slot was CONNECTED on a living session and the probe answered; a slot that was not CONNECTED is
  // left as it was, MAINTENANCE with a living session included; any other failure leaves it DISCONNECTED, holding
  // nothing, with the session it was CONNECTED on gone.
  lemma VerifyOutcome(ids: seq<int>, s: Slot, during: seq<Doing>, alive: bool, waiting: seq<Doing>)
    requires SlotOk(ids, s) && Doable(ids, during) && Doable(ids, waiting)
    ensures var (r, ok) := Verify(ids, s, during, alive, waiting);
      && (ok <==> s.state == Connected && s.ib.Some? && IsLive(s, s.ib.value) && alive)
      && (s.state != Connected ==> r == s)
      && (s.state == Connected && !ok ==>
            r.state == Disconnected && r.ib.None? && (s.ib.Some? ==> !IsLive(r, s.ib.value)))
  {
    if Sync(s).1 && !alive {
      AllHoldOrKill(ids, s, during, s.ib.value);
      AllHoldOrKill(ids, DoAll(ids, s, during), waiting, s.ib.value);
    }
  }

  // A failed probe ends no session but the one it probed, exactly when no other is held and alive once
  // disconnect() has the lock.
  lemma FailedProbeEndsOnlyItsOwnIff(ids: seq<int>, s: Slot, during: seq<Doing>, waiting: seq<Doing>)
    requires SlotOk(ids, s) && Doable(ids, during) && Doable(ids, waiting) && Sync(s).1
    ensures var locked := DoAll(ids, DoAll(ids, s, during), waiting);
      (forall x: nat | IsLive(locked, x) && !IsLive(Verify(ids, s, during, false, waiting).0, x) :: x == s.ib.value)
      <==> !(locked.ib.Some? && locked.ib != s.ib && IsLive(locked, locked.ib.value))
  {
    var locked := DoAll(ids, DoAll(ids, s, during), waiting);
    if locked.ib.Some? { assert !IsLive(Disconnect(locked), locked.ib.value); }
  }

  /** The slot object. Its methods run uninterrupted except where a script says otherwise. */
  class SlotConnection {
    const clientIds: seq<int>
    var state: ConnState
    var index: nat
    var ib: Option<nat>
    var lastError: Option<string>
    var maintenance: bool
    var sessions: seq<Session>

    ghost predicate Valid()
      reads this
    {
      SlotOk(clientIds, View())
    }

    function View(): Slot
      reads this
    {
      Slot(state, index, ib, lastError, maintenance, sessions)
    }

    constructor (ids: seq<int>)
      requires ids != []
      ensures Valid() && clientIds == ids
      ensures View() == INITIAL
    {
      clientIds := ids;
      state, index, ib, lastError, maintenance, sessions := Disconnected, 0, None, None, false, [];
    }

    function ClientId(): int
      requires Valid()
      reads this
    {
      ClientIdOf(clientIds, View())
    }

    method SyncConnectionState() returns (ok: bool)
      requires Valid()
      modifies this
      ensures Valid() && (View(), ok) == Sync(old(View()))
    {
      if state != Connected { return false; }
      if ib.None? || sessions[ib.value].phase != Live {
        ib := None;
        state := Disconnected;
        return false;
      }
      return true;
    }

    method DisconnectSlot()
      requires Valid()
      modifies this
      ensures Valid() && View() == Disconnect(old(View()))
    {
      if ib.Some? {
        sessions := WithPhase(sessions, ib.value, Dead);
        ib := None;
      }
      state := Disconnected;
    }

    // Everything else that happens while this slot's task waits.
    method Await(sid: nat, evs: seq<Event>)
      requires Valid()
      modifies this
      ensures Valid() && View() == ReactAll(old(View()), sid, evs)
    {
      var i := 0;
      assert evs[..0] == [];
      while i < |evs|
        invariant 0 <= i <= |evs| && Valid()
        invariant View() == ReactAll(old(View()), sid, evs[..i])
      {
        assert evs[..i + 1][..i] == evs[..i];
        match evs[i] {
          case SyncSeen => var _ := SyncConnectionState();
          case EnterMaintenance => maintenance := true; state := Maintenance;
          case ExitMaintenance => maintenance := false;
          case Dies(x) => if x != sid { sessions := WithPhase(sessions, x, Dead); }
          case Drops => sessions := WithPhase(sessions, sid, Dead);
          case Handshake =>
            if sid < |sessions| && sessions[sid].phase == Fresh { sessions := WithPhase(sessions, sid, Live); }
          case ErrorReported(code, reqId, msg) => lastError := Some(ErrorText(code, reqId, msg));
        }
        i := i + 1;
      }
      assert evs[..|evs|] == evs;
    }

    // Wait for managedAccounts, at most twenty times.
    method Settle(sid: nat, settle: seq<seq<Event>>)
      requires Valid() && |settle| <= MAX_SETTLE_WAITS
      modifies this
      ensures Valid() && View() == SettleAll(old(View()), sid, settle)
    {
      var i := 0;
      assert settle[..0] == [];
      while i < |settle|
        invariant 0 <= i <= |settle| && Valid()
        invariant View() == SettleAll(old(View()), sid, settle[..i])
      {
        assert settle[..i + 1][..i] == settle[..i];
        Await(sid, settle[i]);
        i := i + 1;
      }
      assert settle[..|settle|] == settle;
    }

    // The except clause up to its rotation.
    method NoteError(flagged: bool, result: Result) returns (conflict: bool)
      requires Valid()
      modifies this
      ensures Valid() && View() == NoteFailure(old(View()), result)
      ensures conflict == Rotates(old(View()), flagged, result)
    {
      var err := SettledText(View(), result);
      if err != "" { lastError := Some(err); }
      conflict := IsClientIdConflict(Some(err), lastError) || flagged;
    }

    // The except clause of a failed attempt.
    method FailAttempt(sid: nat, a: Attempt)
      requires Valid()
      modifies this
      ensures Valid() && View() == AfterFailure(clientIds, old(View()), sid, a)
    {
      var conflict := NoteError(Flagged(a.during), a.result);
      if conflict {
        NextIndexIsMod(index, |clientIds|);
        index := (index + 1) % |clientIds|;
        assert View() == Reject(|clientIds|, old(View()), Flagged(a.during), a.result);
        Await(sid, a.cooling);
      }
      sessions := WithPhase(sessions, sid, Dead);
    }

    // One pass of the client-id loop.
    method TryOnce(a: Attempt, ghost pass: Pass) returns (ok: bool)
      requires Valid() && IsPassOf(pass, clientIds)
      modifies this
      ensures Valid()
      ensures var e := pass(old(View()), a); View() == e.next && ok == e.ok
      ensures ok && ib.Some? ==> sessions[ib.value].cid == ClientId()
    {
      ghost var end := RunPass(clientIds, View(), a);
      if end.ok { AcceptedReportsItsId(clientIds, View(), a); }
      var sid := |sessions|;
      sessions := sessions + [Session(clientIds[index], Fresh)];
      Await(sid, a.during);
      assert View() == AfterHandshake(clientIds, old(View()), a);
      ok := a.result.Returned? && !Flagged(a.during) && sessions[sid].phase == Live;
      if ok {
        ib := Some(sid);
        state := Connected;
        lastError := None;
        Settle(sid, Waits(a));
      } else {
        FailAttempt(sid, a);
      }
    }

    method ConnectSlot(script: seq<Attempt>) returns (ok: bool)
      requires Valid() && |clientIds| <= |script|
      modifies this
      ensures Valid()
      ensures var r := Connect(clientIds, old(View()), script); View() == r.slot && ok == r.ok
      ensures ok && ib.Some? && ib != old(ib) ==> sessions[ib.value].cid == ClientId()
    {
      if maintenance { return false; }
      if ib.Some? && sessions[ib.value].phase == Live {
        state := Connected;
        return true;
      }
      if ib.Some? {
        sessions := WithPhase(sessions, ib.value, Dead);
        ib := None;
      }
      state := Reconnecting;
      ok := TryAll(script, PassOf(clientIds));
    }

    // The client-id loop, starting from a cleaned slot.
    method TryAll(script: seq<Attempt>, ghost pass: Pass) returns (ok: bool)
      requires Valid() && |clientIds| <= |script| && IsPassOf(pass, clientIds)
      modifies this
      ensures Valid()
      ensures var r := Tries(pass, old(View()), script, 0, |clientIds|); View() == r.slot && ok == r.ok
      ensures ok && ib.Some? ==> sessions[ib.value].cid == ClientId()
    {
      var k := 0;
      while k < |clientIds|
        invariant 0 <= k <= |clientIds| && Valid()
        invariant var r := Tries(pass, View(), script, k, |clientIds|);
                  var all := Tries(pass, old(View()), script, 0, |clientIds|);
                  r.slot == all.slot && r.ok == all.ok
      {
        ok := TryOnce(script[k], pass);
        if ok { return; }
        k := k + 1;
      }
      state := Disconnected;
      ok := false;
    }

    // Everything other tasks do while this one waits outside connect().
    method Meanwhile(ds: seq<Doing>)
      requires Valid() && Doable(clientIds, ds)
      modifies this
      ensures Valid() && View() == DoAll(clientIds, old(View()), ds)
    {
      var i := 0;
      assert ds[..0] == [];
      while i < |ds|
        invariant 0 <= i <= |ds| && Valid()
        invariant View() == DoAll(clientIds, old(View()), ds[..i])
      {
        assert ds[..i + 1][..i] == ds[..i];
        match ds[i] {
          case Occurs(e) =>
            ReactOne(View(), |sessions|, e);
            Await(|sessions|, [e]);
          case Connects(script) => var _ := ConnectSlot(script);
          case Disconnects => DisconnectSlot();
        }
        i := i + 1;
      }
      assert ds[..|ds|] == ds;
    }

    // verify_api_alive
    method VerifyApiAlive(during: seq<Doing>, alive: bool, waiting: seq<Doing>) returns (ok: bool)
      requires Valid() && Doable(clientIds, during) && Doable(clientIds, waiting)
      modifies this
      ensures Valid() && (View(), ok) == Verify(clientIds, old(View()), during, alive, waiting)
    {
      var up := SyncConnectionState();
      if !up { return false; }
      Meanwhile(during);
      if alive { return true; }
      Meanwhile(waiting);
      DisconnectSlot();
      return false;
    }
  }
}
