/** Which client ids one connect() call tries, and where it leaves the index. */
module Failover {
  import opened Common
  import opened Connection
  import Text

  // The fate of an attempt's session over the events of its handshake.
  function PhaseAfter(evs: seq<Event>): Phase {
    if evs == [] then Fresh
    else
      var p, e := PhaseAfter(evs[..|evs| - 1]), evs[|evs| - 1];
      if e.Drops? then Dead else if e.Handshake? && p == Fresh then Live else p
  }

  // The TWS takes this client id: no error, no 326, and the session is still up.
  predicate Succeeds(a: Attempt) {
    a.result.Returned? && !Flagged(a.during) && PhaseAfter(a.during) == Live
  }

  // The attempt shows a client-id conflict, by error event or in the exception's text.
  predicate Conflicts(a: Attempt) {
    Flagged(a.during) || (a.result.Raised? && IsClientIdConflict(Some(a.result.text), None))
  }

  lemma {:induction false} PhaseOfSession(s: Slot, sid: nat, evs: seq<Event>)
    requires sid < |s.sessions| && s.sessions[sid].phase == Fresh
    ensures var r := ReactAll(s, sid, evs);
            |r.sessions| == |s.sessions| && r.sessions[sid].phase == PhaseAfter(evs)
  {
    if evs != [] { PhaseOfSession(s, sid, evs[..|evs| - 1]); }
  }

  lemma AcceptedIffSucceeds(ids: seq<int>, s: Slot, a: Attempt)
    requires SlotOk(ids, s)
    ensures var sid := |s.sessions|;
            Accepts(AfterHandshake(ids, s, a), sid, Flagged(a.during), a.result) <==> Succeeds(a)
  {
    PhaseOfSession(Open(ids, s), |s.sessions|, a.during);
  }

  lemma ContainsInTwice(t: string, sub: string)
    requires Text.Contains(Text.Lower(t), sub)
    ensures Text.Contains(Text.Lower(t + " " + t), sub)
  {
    Text.ContainsInLonger(Text.Lower(t), sub, Text.Lower(" " + t));
    assert Text.Lower(t + " " + t) == Text.Lower(t) + Text.Lower(" " + t);
  }

  // Whatever last_error holds, a text that names the conflict rotates.
  lemma ConflictTextRotates(s: Slot, flagged: bool, result: Result)
    requires IsClientIdConflict(Some(SettledText(s, result)), None)
    ensures Rotates(s, flagged, result)
  {
    var t := SettledText(s, result);
    if t != "" {
      if Text.Contains(Text.Lower(t), "326") {
        ContainsInTwice(t, "326");
      } else {
        ContainsInTwice(t, "already in use");
      }
    }
  }

  lemma ConflictRotates(s: Slot, a: Attempt)
    requires Conflicts(a)
    ensures Rotates(s, Flagged(a.during), a.result)
  {
    if !Flagged(a.during) {
      assert a.result.text != "" by {
        if a.result.text == "" { NoConflictInEmpty(); }
      }
      ConflictTextRotates(s, false, a.result);
    }
  }

  lemma NoConflictInEmpty()
    ensures !IsClientIdConflict(Some(""), None)
  {
    assert Text.Lower(JoinParts("", "")) == "";
  }

  // The first attempt from k on that succeeds, or n.
  function FirstSuccess(script: seq<Attempt>, k: nat, n: nat): (r: nat)
    requires k <= n <= |script|
    ensures k <= r <= n
    decreases n - k
  {
    if k == n || Succeeds(script[k]) then k else FirstSuccess(script, k + 1, n)
  }

  lemma {:induction false} FirstSuccessIsFirst(script: seq<Attempt>, k: nat, n: nat)
    requires k <= n <= |script|
    ensures var r := FirstSuccess(script, k, n);
            (r < n ==> Succeeds(script[r])) && forall j | k <= j < r :: !Succeeds(script[j])
    decreases n - k
  {
    if k < n && !Succeeds(script[k]) { FirstSuccessIsFirst(script, k + 1, n); }
  }

  // The client ids of sessions, in order.
  function Cids(ss: seq<Session>): seq<int> {
    seq(|ss|, i requires 0 <= i < |ss| => ss[i].cid)
  }

  // What the loop relies on in a pass.
  ghost predicate PassOk(ids: seq<int>, s: Slot, a: Attempt, e: PassEnd)
    requires s.index < |ids|
  {
    && SlotOk(ids, e.next)
    && e.cid == ids[s.index]
    && Cids(e.next.sessions) == Cids(s.sessions) + [e.cid]
    && (e.ok <==> Succeeds(a))
    && (e.ok ==> !e.rotated)
    && (!e.ok && Conflicts(a) ==> e.rotated)
    && e.next.index == if e.rotated then NextIndex(s.index, |ids|) else s.index
  }

  ghost predicate Lawful(ids: seq<int>, pass: Pass) {
    forall s, a | SlotOk(ids, s) :: PassOk(ids, s, a, pass(s, a))
  }

  lemma {:induction false} ReactKeepsCids(s: Slot, sid: nat, evs: seq<Event>)
    ensures Cids(ReactAll(s, sid, evs).sessions) == Cids(s.sessions)
  {
    if evs != [] { ReactKeepsCids(s, sid, evs[..|evs| - 1]); }
  }

  lemma {:induction false} SettleKeepsCids(s: Slot, sid: nat, settle: seq<seq<Event>>)
    ensures Cids(SettleAll(s, sid, settle).sessions) == Cids(s.sessions)
  {
    if settle != [] {
      var most := settle[..|settle| - 1];
      SettleKeepsCids(s, sid, most);
      ReactKeepsCids(SettleAll(s, sid, most), sid, settle[|settle| - 1]);
    }
  }

  lemma HandshakeAddsCid(ids: seq<int>, s: Slot, a: Attempt)
    requires SlotOk(ids, s)
    ensures Cids(AfterHandshake(ids, s, a).sessions) == Cids(s.sessions) + [ids[s.index]]
  {
    ReactKeepsCids(Open(ids, s), |s.sessions|, a.during);
  }

  lemma FailureKeepsCids(ids: seq<int>, s: Slot, sid: nat, a: Attempt)
    requires SlotOk(ids, s)
    ensures Cids(AfterFailure(ids, s, sid, a).sessions) == Cids(s.sessions)
  {
    ReactKeepsCids(Reject(|ids|, s, Flagged(a.during), a.result), sid, a.cooling);
  }

  lemma PassIsOk(ids: seq<int>, s: Slot, a: Attempt)
    requires SlotOk(ids, s)
    ensures PassOk(ids, s, a, RunPass(ids, s, a))
  {
    var sid, s1 := |s.sessions|, AfterHandshake(ids, s, a);
    AcceptedIffSucceeds(ids, s, a);
    HandshakeAddsCid(ids, s, a);
    if Accepts(s1, sid, Flagged(a.during), a.result) {
      SettleKeeps(ids, Accept(s1, sid), sid, Waits(a));
      SettleKeepsCids(Accept(s1, sid), sid, Waits(a));
    } else {
      FailureKeepsCids(ids, s1, sid, a);
      if Conflicts(a) { ConflictRotates(s1, a); }
    }
  }

  lemma PassesAreLawful(ids: seq<int>)
    ensures Lawful(ids, PassOf(ids))
  {
    forall s, a | SlotOk(ids, s) ensures PassOk(ids, s, a, PassOf(ids)(s, a)) {
      PassIsOk(ids, s, a);
    }
  }

  // In general: the call succeeds exactly at the first attempt that can, and the index ends
  // `rotations` places on.
  lemma {:induction false} TriesStopAtFirstSuccess(ids: seq<int>, pass: Pass, s: Slot, script: seq<Attempt>, k: nat)
    requires Lawful(ids, pass) && SlotOk(ids, s) && k <= |ids| <= |script|
    ensures var r, first := Tries(pass, s, script, k, |ids|), FirstSuccess(script, k, |ids|);
      && (r.ok <==> first < |ids|)
      && |r.tried| == first - k + (if r.ok then 1 else 0)
    decreases |ids| - k
  {
    if k < |ids| {
      var e := pass(s, script[k]);
      assert PassOk(ids, s, script[k], e);
      if !e.ok { TriesStopAtFirstSuccess(ids, pass, e.next, script, k + 1); }
    }
  }

  function Rotated(i: nat, m: nat, n: nat): (r: nat)
    requires i < n
    ensures r < n
    decreases m
  {
    if m == 0 then i else Rotated(NextIndex(i, n), m - 1, n)
  }

  lemma {:induction false} RotatedWraps(i: nat, m: nat, n: nat)
    requires i < n && m <= n
    ensures Rotated(i, m, n) == if i + m < n then i + m else i + m - n
    decreases m
  {
    if m > 0 { RotatedWraps(NextIndex(i, n), m - 1, n); }
  }

  // The place the source computes, one remainder per rotation.
  lemma RotatedIsMod(i: nat, m: nat, n: nat)
    requires i < n && m <= n
    ensures Rotated(i, m, n) == (i + m) % n
  {
    RotatedWraps(i, m, n);
    RemainderOf(Rotated(i, m, n), n);
  }

  lemma RemainderOf(y: int, n: int)
    requires 0 <= y < n
    ensures y % n == y && (y + n) % n == y
  {
  }

  lemma {:induction false} IndexMovesByRotations(ids: seq<int>, pass: Pass, s: Slot, script: seq<Attempt>, k: nat)
    requires Lawful(ids, pass) && SlotOk(ids, s) && k <= |ids| <= |script|
    ensures var r := Tries(pass, s, script, k, |ids|); r.slot.index == Rotated(s.index, r.rotations, |ids|)
    decreases |ids| - k
  {
    if k < |ids| {
      var e := pass(s, script[k]);
      assert PassOk(ids, s, script[k], e);
      if !e.ok { IndexMovesByRotations(ids, pass, e.next, script, k + 1); }
    }
  }

  lemma {:induction false} RotationsBounded(ids: seq<int>, pass: Pass, s: Slot, script: seq<Attempt>, k: nat)
    requires Lawful(ids, pass) && SlotOk(ids, s) && k <= |ids| <= |script|
    ensures Tries(pass, s, script, k, |ids|).rotations <= |ids| - k
    decreases |ids| - k
  {
    if k < |ids| {
      var e := pass(s, script[k]);
      assert PassOk(ids, s, script[k], e);
      if !e.ok { RotationsBounded(ids, pass, e.next, script, k + 1); }
    }
  }

  predicate EndsAt(start: nat, r: Outcome, n: nat) {
    n > 0 && r.slot.index == (start + r.rotations) % n
  }

  lemma EndsWhereRotated(start: nat, r: Outcome, n: nat)
    requires start < n && r.rotations <= n && r.slot.index == Rotated(start, r.rotations, n)
    ensures EndsAt(start, r, n)
  {
    RotatedIsMod(start, r.rotations, n);
  }

  lemma IndexOfRun(ids: seq<int>, pass: Pass, s: Slot, script: seq<Attempt>)
    requires Lawful(ids, pass) && SlotOk(ids, s) && |ids| <= |script|
    ensures EndsAt(s.index, Tries(pass, s, script, 0, |ids|), |ids|)
  {
    IndexMovesByRotations(ids, pass, s, script, 0);
    RotationsBounded(ids, pass, s, script, 0);
    EndsWhereRotated(s.index, Tries(pass, s, script, 0, |ids|), |ids|);
  }

  // Whatever happens in a call, the index ends at its start plus the rotations, mod the number of ids.
  lemma IndexIsStartPlusRotations(ids: seq<int>, s: Slot, script: seq<Attempt>)
    requires SlotOk(ids, s) && |ids| <= |script|
    ensures EndsAt(s.index, Connect(ids, s, script), |ids|)
  {
    RemainderOf(s.index, |ids|);
    PassesAreLawful(ids);
    IndexOfRun(ids, PassOf(ids), Clean(s), script);
  }

  // The sessions opened by a call carry the ids it tried, in order, after all earlier sessions.
  lemma {:induction false} SessionsCarryTriedIds(ids: seq<int>, pass: Pass, s: Slot, script: seq<Attempt>, k: nat)
    requires Lawful(ids, pass) && SlotOk(ids, s) && k <= |ids| <= |script|
    ensures var r := Tries(pass, s, script, k, |ids|); Cids(r.slot.sessions) == Cids(s.sessions) + r.tried
    decreases |ids| - k
  {
    if k < |ids| {
      var e := pass(s, script[k]);
      assert PassOk(ids, s, script[k], e);
      if !e.ok { SessionsCarryTriedIds(ids, pass, e.next, script, k + 1); }
    } else {
      assert Tries(pass, s, script, k, |ids|).slot.sessions == s.sessions;
    }
  }

  // n ids of the cycle, from index i on.
  function CycleFrom(ids: seq<int>, i: nat, n: nat): (r: seq<int>)
    requires i < |ids|
    ensures |r| == n
    decreases n
  {
    if n == 0 then [] else [ids[i]] + CycleFrom(ids, NextIndex(i, |ids|), n - 1)
  }

  lemma {:induction false} CycleIsRotation(ids: seq<int>, i: nat, n: nat)
    requires i < |ids| && n <= |ids|
    ensures CycleFrom(ids, i, n) == (ids[i..] + ids[..i])[..n]
    decreases n
  {
    if n > 0 {
      var i' := NextIndex(i, |ids|);
      CycleIsRotation(ids, i', n - 1);
      CycleShifts(ids, i);
      PrefixShifts(ids[i..] + ids[..i], ids[i'..] + ids[..i'], n);
    }
  }

  lemma PrefixShifts(c: seq<int>, c': seq<int>, n: nat)
    requires 0 < n <= |c| && c' == c[1..] + [c[0]]
    ensures c[..n] == [c[0]] + c'[..n - 1]
  {
  }

  lemma CycleShifts(ids: seq<int>, i: nat)
    requires i < |ids|
    ensures var i' := NextIndex(i, |ids|);
            ids[i'..] + ids[..i'] == (ids[i..] + ids[..i])[1..] + [ids[i]]
  {
    if i + 1 == |ids| {
      assert ids[0..] + ids[..0] == ids;
    }
  }

  // When every attempt that does not succeed is a conflict, each failure rotates, so the ids are tried
  // in cyclic order.
  lemma {:induction false} ConflictsVisitCyclically(ids: seq<int>, pass: Pass, s: Slot, script: seq<Attempt>, k: nat)
    requires Lawful(ids, pass) && SlotOk(ids, s) && k <= |ids| <= |script|
    requires forall j | k <= j < |ids| :: Succeeds(script[j]) || Conflicts(script[j])
    ensures var r := Tries(pass, s, script, k, |ids|);
      && r.tried == CycleFrom(ids, s.index, |r.tried|)
      && r.rotations == FirstSuccess(script, k, |ids|) - k
    decreases |ids| - k
  {
    if k < |ids| {
      var e := pass(s, script[k]);
      assert PassOk(ids, s, script[k], e);
      if !e.ok { ConflictsVisitCyclically(ids, pass, e.next, script, k + 1); }
    }
  }

  // The same from a cleaned slot, for any pass that keeps the law.
  lemma CyclicRun(ids: seq<int>, pass: Pass, s: Slot, script: seq<Attempt>)
    requires Lawful(ids, pass) && SlotOk(ids, s) && |ids| <= |script|
    requires forall j | 0 <= j < |ids| :: Succeeds(script[j]) || Conflicts(script[j])
    ensures var r, j := Tries(pass, s, script, 0, |ids|), FirstSuccess(script, 0, |ids|);
      && (r.ok <==> j < |ids|)
      && r.tried == (ids[s.index..] + ids[..s.index])[..if r.ok then j + 1 else |ids|]
      && r.slot.index == (if r.ok then Rotated(s.index, j, |ids|) else s.index)
      && Cids(r.slot.sessions) == Cids(s.sessions) + r.tried
  {
    var r := Tries(pass, s, script, 0, |ids|);
    TriesStopAtFirstSuccess(ids, pass, s, script, 0);
    ConflictsVisitCyclically(ids, pass, s, script, 0);
    SessionsCarryTriedIds(ids, pass, s, script, 0);
    CycleIsRotation(ids, s.index, |r.tried|);
    CyclicIndex(ids, pass, s, script);
  }

  lemma CyclicIndex(ids: seq<int>, pass: Pass, s: Slot, script: seq<Attempt>)
    requires Lawful(ids, pass) && SlotOk(ids, s) && |ids| <= |script|
    requires forall j | 0 <= j < |ids| :: Succeeds(script[j]) || Conflicts(script[j])
    ensures var r, j := Tries(pass, s, script, 0, |ids|), FirstSuccess(script, 0, |ids|);
      r.slot.index == if j < |ids| then Rotated(s.index, j, |ids|) else s.index
  {
    ConflictsVisitCyclically(ids, pass, s, script, 0);
    IndexMovesByRotations(ids, pass, s, script, 0);
    FullTurn(s.index, |ids|);
  }

  lemma FullTurn(i: nat, n: nat)
    requires i < n
    ensures Rotated(i, n, n) == i
  {
    RotatedWraps(i, n, n);
  }

  // The failover theorem, from any starting index: the ids are tried in cyclic order up to the first
  // that is free, and the index names the last one tried, or is back where it was if none was free.
  lemma FailoverComplete(ids: seq<int>, s: Slot, script: seq<Attempt>)
    requires SlotOk(ids, s) && |ids| <= |script|
    requires !s.maintenance && !(s.ib.Some? && IsLive(s, s.ib.value))
    requires forall j | 0 <= j < |ids| :: Succeeds(script[j]) || Conflicts(script[j])
    ensures var r, j := Connect(ids, s, script), FirstSuccess(script, 0, |ids|);
      && (r.ok <==> j < |ids|)
      && r.tried == (ids[s.index..] + ids[..s.index])[..if r.ok then j + 1 else |ids|]
      && r.slot.index == (if r.ok then Rotated(s.index, j, |ids|) else s.index)
      && Cids(r.slot.sessions) == Cids(s.sessions) + r.tried
  {
    PassesAreLawful(ids);
    CyclicRun(ids, PassOf(ids), Clean(s), script);
    assert Cids(Clean(s).sessions) == Cids(s.sessions);
  }
}
