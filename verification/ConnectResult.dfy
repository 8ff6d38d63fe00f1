/** What connect() returning True says about the slot: sync and maintenance may act while it still waits. */
module ConnectResult {
  import opened Common
  import opened Connection
  import opened Failover

  // Nobody enters maintenance, and nobody syncs after the session dropped.
  predicate Undisturbed(evs: seq<Event>) {
    && EnterMaintenance !in evs
    && (forall i, j | 0 <= i < j < |evs| && evs[i] == Drops :: evs[j] != SyncSeen)
  }

  // The state these events leave an accepted slot in.
  ghost predicate EndsAs(state: ConnState, evs: seq<Event>) {
    && (state == Connected <==> Undisturbed(evs))
    && (EnterMaintenance !in evs ==> state == Connected || state == Disconnected)
  }

  // All events of the waits for managed accounts, in order.
  function Flat(settle: seq<seq<Event>>): seq<Event> {
    if settle == [] then [] else Flat(settle[..|settle| - 1]) + settle[|settle| - 1]
  }

  lemma {:induction false} SettleIsFlat(s: Slot, sid: nat, settle: seq<seq<Event>>)
    ensures SettleAll(s, sid, settle) == ReactAll(s, sid, Flat(settle))
  {
    if settle != [] {
      var most := settle[..|settle| - 1];
      SettleIsFlat(s, sid, most);
      ReactConcat(s, sid, Flat(most), settle[|settle| - 1]);
    }
  }

  lemma UndisturbedLast(evs: seq<Event>, e: Event)
    ensures Undisturbed(evs + [e]) <==>
      Undisturbed(evs) && e != EnterMaintenance && (e == SyncSeen ==> Drops !in evs)
  {
    var all := evs + [e];
    assert all[|evs|] == e && forall i | 0 <= i < |evs| :: all[i] == evs[i];
  }

  // From an accepted session on.
  lemma {:induction false} AcceptedStays(s: Slot, sid: nat, evs: seq<Event>)
    requires s.ib == Some(sid) && s.state == Connected && IsLive(s, sid)
    ensures var r := ReactAll(s, sid, evs);
      && |r.sessions| == |s.sessions| && r.sessions[sid].phase != Fresh
      && (IsLive(r, sid) <==> Drops !in evs)
      && EndsAs(r.state, evs)
      && (r.state == Connected ==> r.ib == Some(sid))
  {
    if evs != [] {
      var most, e := evs[..|evs| - 1], evs[|evs| - 1];
      assert evs == most + [e];
      AcceptedStays(s, sid, most);
      UndisturbedLast(most, e);
    }
  }

  // A pass that accepts leaves the slot CONNECTED exactly when its waits were undisturbed.
  ghost predicate Candid(ids: seq<int>, pass: Pass) {
    forall s, a | SlotOk(ids, s) && pass(s, a).ok ::
      EndsAs(pass(s, a).next.state, Flat(Waits(a)))
  }

  lemma PassIsCandid(ids: seq<int>, s: Slot, a: Attempt)
    requires SlotOk(ids, s) && RunPass(ids, s, a).ok
    ensures EndsAs(RunPass(ids, s, a).next.state, Flat(Waits(a)))
  {
    var s1, sid := AfterHandshake(ids, s, a), |s.sessions|;
    SettleIsFlat(Accept(s1, sid), sid, Waits(a));
    AcceptedStays(Accept(s1, sid), sid, Flat(Waits(a)));
  }

  lemma PassesAreCandid(ids: seq<int>)
    ensures Candid(ids, PassOf(ids))
  {
    forall s, a | SlotOk(ids, s) && PassOf(ids)(s, a).ok
      ensures EndsAs(PassOf(ids)(s, a).next.state, Flat(Waits(a)))
    {
      PassIsCandid(ids, s, a);
    }
  }

  lemma {:induction false} TriesAreCandid(ids: seq<int>, pass: Pass, s: Slot, script: seq<Attempt>, k: nat)
    requires Lawful(ids, pass) && Candid(ids, pass) && SlotOk(ids, s) && k <= |ids| <= |script|
    ensures var r, j := Tries(pass, s, script, k, |ids|), FirstSuccess(script, k, |ids|);
      if r.ok then j < |ids| && EndsAs(r.slot.state, Flat(Waits(script[j])))
      else r.slot.state == Disconnected
    decreases |ids| - k
  {
    if k < |ids| {
      var e := pass(s, script[k]);
      assert PassOk(ids, s, script[k], e);
      if !e.ok { TriesAreCandid(ids, pass, e.next, script, k + 1); }
    }
  }

  // A connect() that opens a session and returns True leaves the slot CONNECTED exactly when, while it
  // waited for managed accounts, nobody entered maintenance or synced after the session dropped, and
  // otherwise DISCONNECTED unless maintenance began; one that opens none leaves it DISCONNECTED.
  lemma ConnectedOnReturnIff(ids: seq<int>, s: Slot, script: seq<Attempt>)
    requires SlotOk(ids, s) && |ids| <= |script|
    requires !s.maintenance && !(s.ib.Some? && IsLive(s, s.ib.value))
    ensures var r, j := Connect(ids, s, script), FirstSuccess(script, 0, |ids|);
      if r.ok then j < |ids| && EndsAs(r.slot.state, Flat(Waits(script[j])))
      else r.slot.state == Disconnected
  {
    PassesAreLawful(ids);
    PassesAreCandid(ids);
    TriesAreCandid(ids, PassOf(ids), Clean(s), script, 0);
  }

  // connect() can return True on a slot that is already DISCONNECTED again.
  lemma TrueButDisconnected(cid: int) returns (script: seq<Attempt>)
    ensures |script| == 1
    ensures var r := Connect([cid], INITIAL, script);
      r.ok && r.slot.state == Disconnected
  {
    var a := Attempt([Handshake], Returned, [[Drops, SyncSeen]], []);
    var s := INITIAL;
    script := [a];
    assert [Handshake][..0] == [] && a.during[..0] == [];
    assert Succeeds(a);
    assert a.settle[..0] == [] && Flat(a.settle) == [] + [Drops, SyncSeen];
    assert Flat(Waits(a))[0] == Drops && Flat(Waits(a))[1] == SyncSeen && EnterMaintenance !in Flat(Waits(a));
    PassesAreLawful([cid]);
    TriesStopAtFirstSuccess([cid], PassOf([cid]), Clean(s), script, 0);
    ConnectedOnReturnIff([cid], s, script);
  }
}
