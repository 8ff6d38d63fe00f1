/**
 * When a failed attempt moves on to another client id, and when it does so although nothing in it is a
 * client-id conflict.
 */
module Rotation {
  import opened Common
  import opened Connection
  import opened Failover
  import Text

  // The conflict test passes on this text: as the source applies it, twice with a space between.
  predicate Echoes(t: string) {
    IsClientIdConflict(Some(t), Some(t))
  }

  lemma NoEchoOfEmpty()
    ensures !Echoes("")
  {
    assert Text.Lower(JoinParts("", "")) == "";
  }

  lemma RotatesIff(s: Slot, flagged: bool, result: Result)
    ensures Rotates(s, flagged, result) <==> flagged || Echoes(SettledText(s, result))
  {
    NoEchoOfEmpty();
    var t := SettledText(s, result);
    if t == "" {
      assert JoinParts("", s.lastError.GetOr("")) == "";
    } else {
      assert NoteFailure(s, result).lastError == Some(t);
    }
  }

  // A text without any 'a' and without any '3' names no conflict.
  lemma NoConflictWithout(t: string)
    requires 'a' !in t && 'A' !in t && '3' !in t
    ensures !Echoes(t) && !IsClientIdConflict(Some(t), None)
  {
    NoneContained(t + " " + t);
    NoneContained(t);
    if t == "" { NoEchoOfEmpty(); }
  }

  lemma NoneContained(t: string)
    requires 'a' !in t && 'A' !in t && '3' !in t
    ensures !Text.Contains(Text.Lower(t), "326") && !Text.Contains(Text.Lower(t), "already in use")
  {
    var low := Text.Lower(t);
    assert forall i | 0 <= i < |low| :: low[i] != 'a' && low[i] != '3' by {
      forall i | 0 <= i < |low| ensures low[i] != 'a' && low[i] != '3' { assert t[i] in t; }
    }
    StartsNowhere(low, "326");
    StartsNowhere(low, "already in use");
  }

  lemma {:induction false} StartsNowhere(t: string, sub: string)
    requires sub != "" && forall i | 0 <= i < |t| :: t[i] != sub[0]
    ensures !Text.Contains(t, sub)
  {
    assert t != "" ==> t[0] != sub[0];
    if t != "" { StartsNowhere(t[1..], sub); }
  }

  // last_error after the events of a handshake, given what it was before.
  function LastReport(evs: seq<Event>, earlier: Option<string>): Option<string> {
    if evs == [] then earlier
    else
      var e := evs[|evs| - 1];
      if e.ErrorReported? then Some(ErrorText(e.code, e.reqId, e.msg)) else LastReport(evs[..|evs| - 1], earlier)
  }

  lemma {:induction false} ReactReports(s: Slot, sid: nat, evs: seq<Event>)
    ensures ReactAll(s, sid, evs).lastError == LastReport(evs, s.lastError)
  {
    if evs != [] { ReactReports(s, sid, evs[..|evs| - 1]); }
  }

  // The exception has no text of its own, so last_error speaks for it.
  predicate Mute(a: Attempt) {
    a.result.Returned? || a.result.text == ""
  }

  // What the rotation test of a failed attempt sees, given last_error when the attempt began.
  function Blame(lastError: Option<string>, a: Attempt): string {
    if Mute(a) then LastReport(a.during, lastError).GetOr("") else a.result.text
  }

  // Exactly when a pass moves the index: it fails, with a 326 reported or its blame naming the conflict.
  lemma PassRotatesIff(ids: seq<int>, s: Slot, a: Attempt)
    requires SlotOk(ids, s)
    ensures RunPass(ids, s, a).rotated <==> !Succeeds(a) && (Flagged(a.during) || Echoes(Blame(s.lastError, a)))
  {
    var s1, sid := AfterHandshake(ids, s, a), |s.sessions|;
    AcceptedIffSucceeds(ids, s, a);
    ReactReports(Open(ids, s), sid, a.during);
    RotatesIff(s1, Flagged(a.during), a.result);
    BlameIsSettled(s1, a, Blame(s.lastError, a));
  }

  lemma BlameIsSettled(s: Slot, a: Attempt, blame: string)
    requires blame == if Mute(a) then s.lastError.GetOr("") else a.result.text
    ensures Echoes(SettledText(s, a.result)) <==> Echoes(blame)
  {
    if a.result.Returned? && blame == "" {
      var t := "TWS rejected client id";
      assert SettledText(s, a.result) == t;
      assert 'a' !in t && 'A' !in t && '3' !in t;
      NoConflictWithout(t);
      NoEchoOfEmpty();
    }
  }

  // Exactly when a pass that is no conflict moves the index: no 326 was reported, and either the exception
  // is mute and last_error, however old, names the conflict, or its text names it only once doubled.
  lemma RotatesWithoutConflictIff(ids: seq<int>, s: Slot, a: Attempt)
    requires SlotOk(ids, s)
    ensures RunPass(ids, s, a).rotated && !Conflicts(a) <==>
      && !Succeeds(a) && !Flagged(a.during) && Echoes(Blame(s.lastError, a))
      && (Mute(a) || !IsClientIdConflict(Some(a.result.text), None))
  {
    PassRotatesIff(ids, s, a);
    NoConflictInEmpty();
  }

  // Doubling alone: a text that names the conflict only across the seam of its two copies.
  lemma DoublingNamesAConflict()
    ensures var t := "in use already"; Echoes(t) && !IsClientIdConflict(Some(t), None)
  {
    var t := "in use already";
    IsLower(t);
    IsLower(t + " " + t);
    SeamMatches(t + " " + t);
    OneCopyDoesNot(t);
  }

  lemma IsLower(t: string)
    requires forall i | 0 <= i < |t| :: !('A' <= t[i] <= 'Z')
    ensures Text.Lower(t) == t
  {
  }

  lemma SeamMatches(two: string)
    requires two == "in use already in use already"
    ensures Text.Contains(two, "already in use")
  {
    assert two[7..][..14] == "already in use";
    Text.ContainsIff(two, "already in use");
  }

  lemma OneCopyDoesNot(t: string)
    requires t == "in use already"
    ensures !Text.Contains(t, "already in use") && !Text.Contains(t, "326")
  {
    Text.ContainsIff(t, "already in use");
    assert t[0..] == t && t[0] == 'i';
    assert '3' !in t;
    StartsNowhere(t, "326");
  }

  predicate Reports(evs: seq<Event>) {
    exists i | 0 <= i < |evs| :: evs[i].ErrorReported?
  }

  lemma {:induction false} SilentKeepsError(s: Slot, sid: nat, evs: seq<Event>)
    requires !Reports(evs)
    ensures ReactAll(s, sid, evs).lastError == s.lastError
    ensures LastReport(evs, s.lastError) == s.lastError && !Flagged(evs)
  {
    if evs != [] {
      var most := evs[..|evs| - 1];
      assert forall i | 0 <= i < |most| :: most[i] == evs[i];
      SilentKeepsError(s, sid, most);
    }
  }

  // A plain timeout: the exception has no text and nothing is reported.
  predicate SilentTimeout(a: Attempt) {
    a.result == Raised("") && !Reports(a.during) && !Reports(a.cooling)
  }

  // What a silent timeout does: it is no conflict, leaves last_error alone and rotates as last_error says.
  ghost predicate Follows(ids: seq<int>, s: Slot, a: Attempt, e: PassEnd) {
    && SlotOk(ids, e.next) && !e.ok && !Conflicts(a)
    && e.next.lastError == s.lastError
    && (e.rotated <==> Echoes(s.lastError.GetOr("")))
  }

  lemma SilentPass(ids: seq<int>, s: Slot, a: Attempt)
    requires SlotOk(ids, s) && SilentTimeout(a)
    ensures Follows(ids, s, a, RunPass(ids, s, a))
  {
    var sid, s1 := |s.sessions|, AfterHandshake(ids, s, a);
    SilentKeepsError(Open(ids, s), sid, a.during);
    NoConflictInEmpty();
    PassRotatesIff(ids, s, a);
    SilentFailure(ids, s1, sid, a);
  }

  lemma SilentFailure(ids: seq<int>, s: Slot, sid: nat, a: Attempt)
    requires SlotOk(ids, s) && SilentTimeout(a)
    ensures AfterFailure(ids, s, sid, a).lastError == s.lastError
  {
    SilentKeepsError(Reject(|ids|, s, Flagged(a.during), a.result), sid, a.cooling);
  }

  ghost predicate AllFollow(ids: seq<int>, pass: Pass) {
    forall s, a | SlotOk(ids, s) && SilentTimeout(a) :: Follows(ids, s, a, pass(s, a))
  }

  lemma SilentPasses(ids: seq<int>)
    ensures AllFollow(ids, PassOf(ids))
  {
    forall s, a | SlotOk(ids, s) && SilentTimeout(a) ensures Follows(ids, s, a, PassOf(ids)(s, a)) {
      SilentPass(ids, s, a);
    }
  }

  lemma {:induction false} SilentRun(ids: seq<int>, pass: Pass, s: Slot, script: seq<Attempt>, k: nat)
    requires AllFollow(ids, pass) && SlotOk(ids, s) && k <= |ids| <= |script|
    requires forall j | k <= j < |ids| :: SilentTimeout(script[j])
    ensures var r := Tries(pass, s, script, k, |ids|);
      && !r.ok && |r.tried| == |ids| - k
      && r.rotations == if Echoes(s.lastError.GetOr("")) then |ids| - k else 0
    ensures forall j | k <= j < |ids| :: !Conflicts(script[j])
    decreases |ids| - k
  {
    if k < |ids| {
      var e := pass(s, script[k]);
      assert Follows(ids, s, script[k], e);
      SilentRun(ids, pass, e.next, script, k + 1);
    }
  }

  // A call of plain timeouts, none of them a conflict: it rotates through every id if last_error still
  // names a conflict when it starts, and tries the same id every time if not.
  lemma SilentTimeoutsRotateIff(ids: seq<int>, s: Slot, script: seq<Attempt>)
    requires SlotOk(ids, s) && |ids| <= |script|
    requires !s.maintenance && !(s.ib.Some? && IsLive(s, s.ib.value))
    requires forall j | 0 <= j < |ids| :: SilentTimeout(script[j])
    ensures var r := Connect(ids, s, script);
      && !r.ok && |r.tried| == |ids|
      && r.rotations == if Echoes(s.lastError.GetOr("")) then |ids| else 0
    ensures forall j | 0 <= j < |ids| :: !Conflicts(script[j])
  {
    SilentPasses(ids);
    SilentRun(ids, PassOf(ids), Clean(s), script, 0);
  }

  // A first attempt refused with a 326, then plain timeouts.
  function OneConflictThenTimeouts(n: nat): (script: seq<Attempt>)
    ensures |script| == n
  {
    seq(n, i => Attempt([], Raised(if i == 0 then "326" else ""), [], []))
  }

  // A run that gets there from a fresh slot, for any list of ids: one conflict, and every later timeout
  // of the call rotates too.
  lemma StaleRotationIsReached(ids: seq<int>)
    requires ids != []
    ensures var script := OneConflictThenTimeouts(|ids|);
      && Connect(ids, INITIAL, script).rotations == |ids|
      && (forall j | 0 < j < |ids| :: !Conflicts(script[j]) && SilentTimeout(script[j]))
  {
    var script, s := OneConflictThenTimeouts(|ids|), Clean(INITIAL);
    FirstConflict(ids, s);
    var e := RunPass(ids, s, script[0]);
    SilentPasses(ids);
    SilentRun(ids, PassOf(ids), e.next, script, 1);
    EchoOf326();
    assert Tries(PassOf(ids), s, script, 0, |ids|) == Then(e, Tries(PassOf(ids), e.next, script, 1, |ids|));
  }

  lemma EchoOf326()
    ensures Echoes("326") && IsClientIdConflict(Some("326"), None)
  {
    assert Text.Lower("326") == "326" && Text.Contains("326", "326");
    ContainsInTwice("326", "326");
  }

  lemma FirstConflict(ids: seq<int>, s: Slot)
    requires SlotOk(ids, s)
    ensures var e := RunPass(ids, s, Attempt([], Raised("326"), [], []));
      SlotOk(ids, e.next) && !e.ok && e.rotated && e.next.lastError == Some("326")
  {
    var a := Attempt([], Raised("326"), [], []);
    EchoOf326();
    assert Conflicts(a);
    ConflictRotates(AfterHandshake(ids, s, a), a);
  }

  // A second way there, from a fresh slot: any error about request number 326 that is no conflict itself.
  lemma RequestNumberLooksLikeAConflict(cid: int, code: int, msg: string)
    requires !FlagsConflict(ErrorReported(code, 326, msg))
    ensures var a := Attempt([ErrorReported(code, 326, msg)], Raised(""), [], []);
      RunPass([cid], INITIAL, a).rotated && !Conflicts(a)
  {
    var evs, a := [ErrorReported(code, 326, msg)], Attempt([ErrorReported(code, 326, msg)], Raised(""), [], []);
    NoticeEchoes(code, msg);
    ReactOne(INITIAL, 0, evs[0]);
    assert LastReport(evs, None) == Some(ErrorText(code, 326, msg));
    assert Blame(INITIAL.lastError, a) == ErrorText(code, 326, msg);
    PassRotatesIff([cid], INITIAL, a);
    NoConflictInEmpty();
  }

  lemma NoticeEchoes(code: int, msg: string)
    ensures Echoes(ErrorText(code, 326, msg))
  {
    assert Text.Integer(326) == "326" by {
      assert Text.Decimal(3) == "3";
      assert Text.Decimal(32) == "32";
    }
    var pre, post := "Error " + Text.Integer(code) + ", reqId ", ": " + msg;
    assert ErrorText(code, 326, msg) == pre + "326" + post;
    NumberEchoes(pre, post);
  }

  lemma NumberEchoes(pre: string, post: string)
    ensures Echoes(pre + "326" + post)
  {
    var t := pre + "326" + post;
    var low := Text.Lower(t + " " + t);
    assert low[|pre|..][..3] == "326";
    Text.ContainsIff(low, "326");
  }
}
