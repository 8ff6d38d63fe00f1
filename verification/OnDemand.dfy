/**
 * on_demand.py and the listing half of on_demand_opt.py: the Redis set of requested symbols with its
 * heartbeat hash, the freshness listing that prunes it, and the capped merge with the watchlist.
 */
module OnDemand {
  import opened Common
  import opened Sorting
  import Text

  // How a raw member is normalised before it is looked up: Text.Norm for stock symbols, Text.Strip
  // for option keys.
  type Key = string -> string

  lemma KeysAreIdempotent(raw: string)
    ensures Text.Norm(Text.Norm(raw)) == Text.Norm(raw)
    ensures Text.Strip(Text.Strip(raw)) == Text.Strip(raw)
  {
    Text.NormIdempotent(raw);
  }

  // Which Redis calls of one listing succeed.
  datatype Io = Io(smembers: bool, hgetall: bool, srem: bool, hdel: bool)

  const ALL_WELL := Io(true, true, true, true)

  // A heartbeat that does not read as a number is None.
  datatype Stored = Stored(members: set<string>, beats: map<string, Option<real>>)

  predicate Fresh(beats: map<string, Option<real>>, k: string, maxAge: real, now: real) {
    k in beats && beats[k].Some? && beats[k].value > 0.0 && now - beats[k].value <= maxAge
  }

  function Seen(st: Stored, io: Io): map<string, Option<real>> {
    if io.hgetall then st.beats else map[]
  }

  function Keys(key: Key, members: set<string>): set<string> {
    set raw | raw in members && key(raw) != "" :: key(raw)
  }

  function FreshKeys(key: Key, st: Stored, io: Io, maxAge: real, now: real): set<string> {
    set k | k in Keys(key, st.members) && Fresh(Seen(st, io), k, maxAge, now)
  }

  function StaleKeys(key: Key, st: Stored, io: Io, maxAge: real, now: real): set<string> {
    set k | k in Keys(key, st.members) && !Fresh(Seen(st, io), k, maxAge, now)
  }

  // The stored state after a listing.
  function Pruned(key: Key, st: Stored, io: Io, maxAge: real, now: real): Stored {
    var stale := StaleKeys(key, st, io, maxAge, now);
    if !io.smembers || !io.srem then st
    else Stored(st.members - stale, if io.hdel then st.beats - stale else st.beats)
  }

  // Every member is stored the way the gateway looks it up.
  ghost predicate Canonical(key: Key, members: set<string>) {
    forall raw | raw in members :: key(raw) == raw && raw != ""
  }

  class Registry {
    const key: Key
    var members: set<string>
    var beats: map<string, Option<real>>

    constructor (key: Key)
      ensures this.key == key && Contents() == Stored({}, map[])
    {
      this.key := key;
      members, beats := {}, map[];
    }

    function Contents(): Stored
      reads this
    {
      Stored(members, beats)
    }

    // SADD + HSET of the same keys with one timestamp.
    method Register(keys: seq<string>, ts: real)
      modifies this
      ensures Contents() == Registered(old(Contents()), keys, ts)
    {
      members := members + set k | k in keys;
      beats := beats + map k | k in keys :: Some(ts);
    }

    // Split the members' keys by freshness; each key is listed once per member that spells it.
    method Classify(tsMap: map<string, Option<real>>, maxAge: real, now: real)
      returns (listed: seq<string>, stale: seq<string>)
      ensures forall k :: k in listed <==> k in Keys(key, members) && Fresh(tsMap, k, maxAge, now)
      ensures forall k :: k in stale <==> k in Keys(key, members) && !Fresh(tsMap, k, maxAge, now)
      ensures Canonical(key, members) ==> Distinct(listed)
    {
      listed, stale := [], [];
      var todo := members;
      ghost var done: set<string>, keys: set<string> := {}, {};
      while todo != {}
        invariant todo + done == members && todo !! done
        invariant keys == Keys(key, done)
        invariant forall k :: k in listed <==> k in keys && Fresh(tsMap, k, maxAge, now)
        invariant forall k :: k in stale <==> k in keys && !Fresh(tsMap, k, maxAge, now)
        invariant Canonical(key, members) ==> keys == done && Distinct(listed)
        decreases todo
      {
        var raw :| raw in todo;
        var k := key(raw);
        KeysAdd(key, done, raw);
        assert Canonical(key, members) ==> k == raw && k != "" && k !in keys;
        todo, done := todo - {raw}, done + {raw};
        if k != "" {
          keys := keys + {k};
          if Fresh(tsMap, k, maxAge, now) {
            listed := listed + [k];
          } else {
            stale := stale + [k];
          }
        }
      }
      assert done == members;
    }

    method ListFresh(maxAge: real, now: real, io: Io) returns (listing: seq<string>)
      modifies this
      ensures Contents() == Pruned(key, old(Contents()), io, maxAge, now)
      ensures Sorted(listing)
      ensures forall k :: k in listing <==> io.smembers && k in FreshKeys(key, old(Contents()), io, maxAge, now)
      ensures Canonical(key, old(members)) ==> Distinct(listing)
    {
      if !io.smembers { return []; }
      var listed, stale := Classify(if io.hgetall then beats else map[], maxAge, now);
      var expired := set k | k in stale;
      assert expired == StaleKeys(key, Contents(), io, maxAge, now);
      if io.srem {
        members := members - expired;
        if io.hdel { beats := beats - expired; }
      }
      listing := Sort(listed);
      SameMultisetSameElements(listed, listing);
    }
  }

  function Registered(st: Stored, keys: seq<string>, ts: real): Stored {
    Stored(st.members + (set k | k in keys), st.beats + (map k | k in keys :: Some(ts)))
  }

  lemma KeysAdd(key: Key, done: set<string>, raw: string)
    ensures Keys(key, done + {raw}) == Keys(key, done) + if key(raw) == "" then {} else {key(raw)}
  {
  }

  // Two listings with the same fresh keys are the same list.
  lemma ListingIsDetermined(a: seq<string>, b: seq<string>, keys: set<string>)
    requires Sorted(a) && Sorted(b) && Distinct(a) && Distinct(b)
    requires forall k :: k in a <==> k in keys
    requires forall k :: k in b <==> k in keys
    ensures a == b
  {
    SortedUnique(a, b);
  }

  lemma CanonicalKeys(key: Key, members: set<string>)
    requires Canonical(key, members)
    ensures Keys(key, members) == members
  {
    forall k ensures k in Keys(key, members) <==> k in members {
      if k in members { assert key(k) == k; }
    }
  }

  // With canonical members and Redis answering: exactly the fresh members and their heartbeats stay,
  // a second listing at the same time finds the same keys and removes nothing, a later one finds no more.
  lemma PruneKeepsExactlyTheFresh(key: Key, st: Stored, maxAge: real, now: real, later: real)
    requires Canonical(key, st.members) && now <= later
    ensures var st', live := Pruned(key, st, ALL_WELL, maxAge, now), FreshKeys(key, st, ALL_WELL, maxAge, now);
      && st'.members == live
      && (forall k :: k in st'.beats <==> k in st.beats && (k in st.members ==> k in live))
      && (forall k | k in st'.beats :: st'.beats[k] == st.beats[k])
      && FreshKeys(key, st', ALL_WELL, maxAge, now) == live
      && Pruned(key, st', ALL_WELL, maxAge, now) == st'
      && FreshKeys(key, st', ALL_WELL, maxAge, later) <= live
  {
    var st' := Pruned(key, st, ALL_WELL, maxAge, now);
    CanonicalKeys(key, st.members);
    CanonicalKeys(key, st'.members);
    assert st'.members == FreshKeys(key, st, ALL_WELL, maxAge, now);
    assert StaleKeys(key, st', ALL_WELL, maxAge, now) == {};
  }

  // A member that is not fresh is removed exactly when it is stored in canonical form.
  lemma PrunedIff(key: Key, st: Stored, raw: string, maxAge: real, now: real)
    requires forall r :: key(key(r)) == key(r)
    requires raw in st.members && key(raw) !in FreshKeys(key, st, ALL_WELL, maxAge, now)
    ensures raw !in Pruned(key, st, ALL_WELL, maxAge, now).members <==> key(raw) == raw && raw != ""
  {
    assert raw != "" && key(raw) == raw ==> raw in Keys(key, st.members);
    assert key(key(raw)) == key(raw);
  }

  // When a listing leaves only fresh members behind: exactly when every member that is not fresh is
  // stored in canonical form. A stale member in any other spelling is never removed.
  lemma PruneIsCompleteIff(key: Key, st: Stored, maxAge: real, now: real)
    requires forall raw :: key(key(raw)) == key(raw)
    ensures (forall raw | raw in Pruned(key, st, ALL_WELL, maxAge, now).members ::
               key(raw) in FreshKeys(key, st, ALL_WELL, maxAge, now))
       <==> (forall raw | raw in st.members ::
               key(raw) in FreshKeys(key, st, ALL_WELL, maxAge, now) || (key(raw) == raw && raw != ""))
  {
    var st', live := Pruned(key, st, ALL_WELL, maxAge, now), FreshKeys(key, st, ALL_WELL, maxAge, now);
    forall raw | raw in st.members && key(raw) !in live
      ensures raw !in st'.members <==> key(raw) == raw && raw != ""
    {
      PrunedIff(key, st, raw, maxAge, now);
    }
  }

  // For any Redis failures: a fresh member is listed if and only if SMEMBERS and HGETALL succeed, and kept
  // if and only if HGETALL succeeds or nothing can be removed. A failed HGETALL reads as "no heartbeats".
  lemma FreshMemberSurvivesIff(key: Key, st: Stored, k: string, io: Io, maxAge: real, now: real)
    requires k in st.members && key(k) == k && k != "" && Fresh(st.beats, k, maxAge, now)
    ensures (io.smembers && k in FreshKeys(key, st, io, maxAge, now)) <==> io.smembers && io.hgetall
    ensures k in Pruned(key, st, io, maxAge, now).members <==> !io.smembers || io.hgetall || !io.srem
  {
    assert k in Keys(key, st.members);
  }

  // One failed HGETALL removes a symbol that was registered this very moment.
  lemma FreshMemberIsLost(now: real)
    requires now > 0.0
    ensures var st := Stored({"SPY"}, map["SPY" := Some(now)]);
      && Fresh(st.beats, "SPY", 600.0, now)
      && Pruned(Text.Norm, st, Io(true, false, true, true), 600.0, now).members == {}
  {
    var st := Stored({"SPY"}, map["SPY" := Some(now)]);
    assert Text.IsStripped("SPY") && Text.Upper("SPY") == "SPY";
    FreshMemberSurvivesIff(Text.Norm, st, "SPY", Io(true, false, true, true), 600.0, now);
  }

  // A member in lower case without a heartbeat stays for ever.
  lemma StaleSpellingIsKept(maxAge: real, now: real)
    ensures Pruned(Text.Norm, Stored({"spy"}, map[]), ALL_WELL, maxAge, now).members == {"spy"}
    ensures FreshKeys(Text.Norm, Stored({"spy"}, map[]), ALL_WELL, maxAge, now) == {}
  {
    assert Text.IsStripped("spy") && Text.Upper("spy") == "SPY";
  }

  // What was registered within max age is listed.
  lemma RegisteredIsFresh(key: Key, st: Stored, keys: seq<string>, k: string, ts: real, maxAge: real, now: real)
    requires k in keys && key(k) == k && k != ""
    requires 0.0 < ts && now - ts <= maxAge
    ensures k in FreshKeys(key, Registered(st, keys, ts), ALL_WELL, maxAge, now)
  {
    assert k in Keys(key, Registered(st, keys, ts).members);
  }

  // A registration touches nothing but its own keys.
  lemma RegisterKeepsOthers(st: Stored, keys: seq<string>, ts: real, k: string)
    requires k !in keys
    ensures var st' := Registered(st, keys, ts);
      && (k in st'.members <==> k in st.members)
      && (k in st'.beats <==> k in st.beats) && (k in st.beats ==> st'.beats[k] == st.beats[k])
  {
  }

  // With Redis answering, exactly what is listed: the normal forms of members with a positive heartbeat no
  // older than max age.
  lemma ListedIff(key: Key, st: Stored, k: string, maxAge: real, now: real)
    ensures k in FreshKeys(key, st, Io(true, true, true, true), maxAge, now) <==>
      && k != "" && (exists raw | raw in st.members :: key(raw) == k)
      && k in st.beats && st.beats[k] != None
      && 0.0 < st.beats[k].value && now <= st.beats[k].value + maxAge
  {
  }

  // ... and exactly what stays, whichever Redis calls fail: everything if the members cannot be read or removed;
  // otherwise a member with such a heartbeat, if the heartbeats can be read, and one that no member's normal
  // form names. A heartbeat stays with it, and also if it cannot be removed.
  lemma KeptIff(key: Key, st: Stored, k: string, io: Io, maxAge: real, now: real)
    ensures var st' := Pruned(key, st, io, maxAge, now);
      var recent := io.hgetall && k in st.beats && st.beats[k] != None
                    && 0.0 < st.beats[k].value && now <= st.beats[k].value + maxAge;
      var named := k != "" && exists raw | raw in st.members :: key(raw) == k;
      var stays := !io.smembers || !io.srem || recent || !named;
      && (k in st'.members <==> k in st.members && stays)
      && (k in st'.beats <==> k in st.beats && (stays || !io.hdel))
      && (k in st'.beats ==> st'.beats[k] == st.beats[k])
  {
  }

  // ---- build_desired_stk_symbols ----

  // The non-blank symbols, normalised.
  function NormAll(key: Key, s: seq<string>): seq<string> {
    if s == [] then []
    else
      var most, last := NormAll(key, s[..|s| - 1]), key(s[|s| - 1]);
      if last == "" then most else most + [last]
  }

  lemma {:induction false} NormOrigin(key: Key, s: seq<string>, x: string) returns (raw: string)
    requires x in NormAll(key, s)
    ensures raw in s && key(raw) == x && x != ""
  {
    var last := s[|s| - 1];
    if key(last) == x && x != "" {
      raw := last;
    } else {
      raw := NormOrigin(key, s[..|s| - 1], x);
    }
  }

  // First occurrences, in order.
  function Dedup(s: seq<string>): seq<string> {
    if s == [] then []
    else
      var most, last := Dedup(s[..|s| - 1]), s[|s| - 1];
      if last in most then most else most + [last]
  }

  function Wanted(key: Key, watchlist: seq<string>, onDemand: seq<string>): seq<string> {
    Dedup(NormAll(key, watchlist) + NormAll(key, onDemand))
  }

  // The cap does not bound the watchlist.
  function Limit(key: Key, watchlist: seq<string>, maxStream: int): nat {
    Max(Max(1, maxStream), |Dedup(NormAll(key, watchlist))|)
  }

  lemma DedupLast(s: seq<string>, x: string)
    ensures Dedup(s + [x]) == if x in Dedup(s) then Dedup(s) else Dedup(s) + [x]
  {
    assert (s + [x])[..|s|] == s;
  }

  lemma {:induction false} DedupExtends(a: seq<string>, b: seq<string>)
    ensures Dedup(a) <= Dedup(a + b)
  {
    if b == [] {
      assert a + b == a;
    } else {
      DedupExtends(a, b[..|b| - 1]);
      assert a + b == (a + b[..|b| - 1]) + [b[|b| - 1]];
      DedupLast(a + b[..|b| - 1], b[|b| - 1]);
    }
  }

  lemma {:induction false} DedupIsSet(s: seq<string>)
    ensures Distinct(Dedup(s))
    ensures forall x :: x in Dedup(s) <==> x in s
  {
    if s != [] {
      DedupIsSet(s[..|s| - 1]);
      assert s == s[..|s| - 1] + [s[|s| - 1]];
    }
  }

  lemma WantedStep(key: Key, w: seq<string>, o: seq<string>, i: nat)
    requires i < |o|
    ensures var x, sofar := key(o[i]), Wanted(key, w, o[..i]);
            Wanted(key, w, o[..i + 1]) == if x == "" || x in sofar then sofar else sofar + [x]
  {
    assert o[..i + 1][..i] == o[..i];
    if key(o[i]) != "" {
      assert NormAll(key, w) + NormAll(key, o[..i + 1]) == NormAll(key, w) + NormAll(key, o[..i]) + [key(o[i])];
      DedupLast(NormAll(key, w) + NormAll(key, o[..i]), key(o[i]));
    }
  }

  lemma {:induction false} WantedExtends(key: Key, w: seq<string>, o: seq<string>, i: nat)
    requires i <= |o|
    ensures Wanted(key, w, o[..i]) <= Wanted(key, w, o)
    decreases |o| - i
  {
    if i == |o| {
      assert o[..i] == o;
    } else {
      WantedStep(key, w, o, i);
      WantedExtends(key, w, o, i + 1);
    }
  }

  predicate Truncated(key: Key, watchlist: seq<string>, onDemand: seq<string>, maxStream: int) {
    |Wanted(key, watchlist, onDemand)| > Limit(key, watchlist, maxStream)
  }

  function Desired(key: Key, watchlist: seq<string>, onDemand: seq<string>, maxStream: int): seq<string> {
    var all := Wanted(key, watchlist, onDemand);
    if Truncated(key, watchlist, onDemand, maxStream) then all[..Limit(key, watchlist, maxStream)] else all
  }

  method TakeWatchlist(key: Key, watchlist: seq<string>) returns (desired: seq<string>, seen: set<string>)
    ensures desired == Dedup(NormAll(key, watchlist))
    ensures forall x :: x in seen <==> x in desired
  {
    desired, seen := [], {};
    var i := 0;
    while i < |watchlist|
      invariant 0 <= i <= |watchlist|
      invariant desired == Dedup(NormAll(key, watchlist[..i]))
      invariant forall x :: x in seen <==> x in desired
    {
      assert watchlist[..i + 1][..i] == watchlist[..i];
      var sym := key(watchlist[i]);
      if sym != "" {
        DedupLast(NormAll(key, watchlist[..i]), sym);
        if sym !in seen {
          seen := seen + {sym};
          desired := desired + [sym];
        }
      }
      i := i + 1;
    }
    assert watchlist[..|watchlist|] == watchlist;
  }

  // The merge stops at the first symbol beyond the limit.
  lemma CutHere(key: Key, watchlist: seq<string>, onDemand: seq<string>, maxStream: int, i: nat)
    requires i < |onDemand|
    requires |Wanted(key, watchlist, onDemand[..i])| == Limit(key, watchlist, maxStream)
    requires |Wanted(key, watchlist, onDemand[..i + 1])| > Limit(key, watchlist, maxStream)
    ensures Truncated(key, watchlist, onDemand, maxStream)
    ensures Desired(key, watchlist, onDemand, maxStream) == Wanted(key, watchlist, onDemand[..i])
  {
    WantedStep(key, watchlist, onDemand, i);
    WantedExtends(key, watchlist, onDemand, i + 1);
  }

  method BuildDesired(key: Key, watchlist: seq<string>, onDemand: seq<string>, maxStream: int)
    returns (desired: seq<string>, truncated: bool)
    ensures desired == Desired(key, watchlist, onDemand, maxStream)
    ensures truncated == Truncated(key, watchlist, onDemand, maxStream)
  {
    var seen: set<string>;
    desired, seen := TakeWatchlist(key, watchlist);
    truncated := false;
    assert NormAll(key, watchlist) + NormAll(key, onDemand[..0]) == NormAll(key, watchlist);
    var cap := Max(1, maxStream);
    ghost var fixed := |desired|;
    var i := 0;
    while i < |onDemand|
      invariant 0 <= i <= |onDemand|
      invariant desired == Wanted(key, watchlist, onDemand[..i])
      invariant |desired| == fixed || fixed <= |desired| <= cap
      invariant forall x :: x in seen <==> x in desired
    {
      WantedStep(key, watchlist, onDemand, i);
      var s := key(onDemand[i]);
      if s != "" && s !in seen {
        if |desired| >= cap {
          CutHere(key, watchlist, onDemand, maxStream, i);
          truncated := true;
          return;
        }
        seen := seen + {s};
        desired := desired + [s];
      }
      i := i + 1;
    }
    assert onDemand[..|onDemand|] == onDemand;
  }

  // What the merge promises: no symbol twice, the whole watchlist first, nothing from elsewhere.
  lemma DesiredFacts(key: Key, watchlist: seq<string>, onDemand: seq<string>, maxStream: int)
    ensures var desired, w := Desired(key, watchlist, onDemand, maxStream), NormAll(key, watchlist);
      && Distinct(desired)
      && Dedup(w) <= desired
      && (forall x | x in desired :: x in w || x in NormAll(key, onDemand))
  {
    var w, o := NormAll(key, watchlist), NormAll(key, onDemand);
    DedupIsSet(w + o);
    DedupExtends(w, o);
    assert forall x | x in Desired(key, watchlist, onDemand, maxStream) :: x in Dedup(w + o);
    assert forall x | x in w + o :: x in w || x in o;
  }

  // `truncated` says exactly that some on-demand symbol was left out.
  lemma TruncatedIff(key: Key, watchlist: seq<string>, onDemand: seq<string>, maxStream: int)
    ensures Truncated(key, watchlist, onDemand, maxStream)
       <==> exists x | x in NormAll(key, onDemand) :: x !in Desired(key, watchlist, onDemand, maxStream)
  {
    var w, o, desired := NormAll(key, watchlist), NormAll(key, onDemand), Desired(key, watchlist, onDemand, maxStream);
    DedupIsSet(w + o);
    if Truncated(key, watchlist, onDemand, maxStream) {
      var x := Dedup(w + o)[|desired|];
      DedupIsSet(w);
      DedupExtends(w, o);
      assert x in w + o && x !in Dedup(w);
      assert x in o && x !in desired;
    } else {
      assert forall x | x in o :: x in w + o;
    }
  }

  // The cap is kept exactly when the watchlist alone keeps it.
  lemma CapHoldsIff(key: Key, watchlist: seq<string>, onDemand: seq<string>, maxStream: int)
    ensures |Desired(key, watchlist, onDemand, maxStream)| <= Max(1, maxStream)
       <==> |Dedup(NormAll(key, watchlist))| <= Max(1, maxStream)
  {
    DesiredFacts(key, watchlist, onDemand, maxStream);
  }

  // Any two distinct watchlist symbols under a cap of one.
  lemma TwoExceedOne(key: Key, a: string, b: string)
    requires key(a) == a && key(b) == b && a != "" && b != "" && a != b
    ensures Desired(key, [a, b], [], 1) == [a, b]
  {
    var w := [a, b];
    assert w[..1] == [a] && [a][..0] == [];
    assert NormAll(key, [a]) == [a];
    assert NormAll(key, w) == w && w + [] == w;
    assert Dedup([a]) == [a];
    assert Dedup(w) == w;
  }

  lemma CapIsExceeded()
    ensures Desired(Text.Norm, ["QQQ", "SPY"], [], 1) == ["QQQ", "SPY"]
  {
    IsNormal("QQQ");
    IsNormal("SPY");
    TwoExceedOne(Text.Norm, "QQQ", "SPY");
  }

  lemma IsNormal(s: string)
    requires Text.IsStripped(s) && forall i | 0 <= i < |s| :: !('a' <= s[i] <= 'z')
    ensures Text.Norm(s) == s
  {
    assert Text.Upper(s) == s;
  }
}
