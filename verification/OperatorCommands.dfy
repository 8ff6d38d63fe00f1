/**
 * Exactly which connection commands reach the handler: the production stream's, in every run, life after
 * life of its group.
 */
module OperatorCommands {
  import opened Common
  import opened Protocol
  import opened Operator
  import opened OperatorRuns
  import opened OperatorCounts
  import opened OperatorIsolation

  // The connection command an entry of the production stream carries, if it is well-formed and has not
  // expired when it is judged.
  function Issued(c: Codec, f: Fields, nowMs: int): seq<Message> {
    var p := ParseFields(c, f);
    if p.Parsed? && p.msg.op in PROD_ONLY_OPS && !IsExpired(p.msg, nowMs) then [p.msg] else []
  }

  // What one entry judged at one time hands over.
  type Issue = (Fields, int) -> seq<Message>

  function IssueOf(c: Codec): Issue {
    (f, nowMs) => Issued(c, f, nowMs)
  }

  function IssuedAll(issue: Issue, log: seq<Fields>, lo: nat, times: seq<int>): seq<Message>
    requires lo + |times| <= |log|
  {
    if times == [] then []
    else
      var n := |times| - 1;
      IssuedAll(issue, log, lo, times[..n]) + issue(log[lo + n], times[n])
  }

  function Times(done: seq<Processed>): seq<int> {
    seq(|done|, i requires 0 <= i < |done| => done[i].nowMs)
  }

  // Only the judging of an entry can hand over a command.
  lemma CommandsOfParts(e: Effect, w: seq<Effect>, a: Effect)
    requires |w| <= 1 && (w != [] ==> w[0].Wrote?) && a.Acked?
    ensures Commands([e] + w + [a]) == CommandOf(e)
  {
    CommandsConcat([e] + w, [a]);
    CommandsOfStart(e, w);
    CommandsOne(a);
  }

  lemma CommandsOfStart(e: Effect, w: seq<Effect>)
    requires |w| <= 1 && (w != [] ==> w[0].Wrote?)
    ensures Commands([e] + w) == CommandOf(e)
  {
    CommandsConcat([e], w);
    CommandsOne(e);
    if w != [] {
      CommandsOne(w[0]);
      assert w == [w[0]];
    }
  }

  lemma CommandOfVerdict(c: Codec, f: Fields, k: Key, nowMs: int)
    ensures CommandOf(Began(k, Judge(c, f, k.stream, nowMs))) == if k.stream == Prod then Issued(c, f, nowMs) else []
  {
    var v := Judge(c, f, k.stream, nowMs);
    if v.Handle? && v.msg.op in PROD_ONLY_OPS { OnlyProdHandlesConnectionOps(c, f, k.stream, nowMs); }
  }

  lemma CommandsOfEntry(c: Codec, f: Fields, k: Key, nowMs: int, h: Handled)
    ensures Commands(EntryTrace(c, f, k, nowMs, h)) == if k.stream == Prod then Issued(c, f, nowMs) else []
  {
    var v := Judge(c, f, k.stream, nowMs);
    CommandsOfParts(Began(k, v), WriteOf(c, k, v, h), Acked(k));
    CommandOfVerdict(c, f, k, nowMs);
  }

  function IssuedBy(issue: Issue, logs: Per<seq<Fields>>, done: seq<Processed>): seq<Message> {
    if done == [] then []
    else
      var p := done[|done| - 1];
      IssuedBy(issue, logs, done[..|done| - 1]) + issue(FieldsOf(logs, p.key), p.nowMs)
  }

  lemma {:induction false} CommandsOfDone(c: Codec, logs: Per<seq<Fields>>, done: seq<Processed>)
    ensures Commands(Trace(c, logs, done)) == IssuedBy(IssueOf(c), logs, ProdDone(done))
  {
    if done != [] {
      var most, p := done[..|done| - 1], done[|done| - 1];
      CommandsOfDone(c, logs, most);
      CommandsConcat(Trace(c, logs, most), EntryTrace(c, FieldsOf(logs, p.key), p.key, p.nowMs, p.handled));
      CommandsOfEntry(c, FieldsOf(logs, p.key), p.key, p.nowMs, p.handled);
      assert p.key.stream == Prod ==> (ProdDone(most) + [p])[..|ProdDone(most)|] == ProdDone(most);
    }
  }

  // Entries that are a stretch of the production stream issue what that stretch says.
  lemma {:induction false} IssuedByStretch(issue: Issue, logs: Per<seq<Fields>>, done: seq<Processed>,
                                           epoch: nat, lo: nat)
    requires lo + |done| <= |logs.prod|
    requires forall i | 0 <= i < |done| :: done[i].key == Key(epoch, Prod, lo + i)
    ensures IssuedBy(issue, logs, done) == IssuedAll(issue, logs.prod, lo, Times(done))
  {
    if done != [] {
      var most := done[..|done| - 1];
      IssuedByStretch(issue, logs, most, epoch, lo);
      assert Times(done)[..|most|] == Times(most);
    }
  }

  // ---- Every moment of every run ----

  // What the production entry in hand has handed over, once it has been judged.
  function InHand(c: Codec, st: State): seq<Message> {
    if st.batch != [] && st.stage != Ready && st.batch[0].stream == Prod
    then Issued(c, FieldsOf(st.logs, st.batch[0]), st.stage.nowMs) else []
  }

  lemma CommandsOfPartial(c: Codec, st: State)
    ensures Commands(Partial(c, st)) == InHand(c, st)
  {
    if st.batch != [] && st.stage != Ready {
      var k, nowMs := st.batch[0], st.stage.nowMs;
      var e := Began(k, HeadVerdict(c, st, nowMs));
      CommandsOne(e);
      CommandOfVerdict(c, FieldsOf(st.logs, k), k, nowMs);
      if st.stage.Acking? { CommandsOfStart(e, WriteOf(c, k, HeadVerdict(c, st, nowMs), st.stage.handled)); }
    }
  }

  // The production entries one life of the group finished, in order.
  function Life(done: seq<Processed>, e: nat): seq<Processed> {
    if done == [] then []
    else
      var most, last := Life(done[..|done| - 1], e), done[|done| - 1];
      if last.key.stream == Prod && last.key.epoch == e then most + [last] else most
  }

  // Life after life, those before the n-th.
  function LivesUpTo(done: seq<Processed>, n: nat): seq<Processed> {
    if n == 0 then [] else LivesUpTo(done, n - 1) + Life(done, n - 1)
  }

  lemma LifeLast(done: seq<Processed>, p: Processed, e: nat)
    ensures Life(done + [p], e) ==
      if p.key.stream == Prod && p.key.epoch == e then Life(done, e) + [p] else Life(done, e)
  {
    assert (done + [p])[..|done|] == done;
  }

  lemma {:induction false} LifeNone(done: seq<Processed>, e: nat)
    requires forall i | 0 <= i < |done| && done[i].key.stream == Prod :: done[i].key.epoch != e
    ensures Life(done, e) == []
  {
    if done != [] { LifeNone(done[..|done| - 1], e); }
  }

  lemma {:induction false} SameLives(a: seq<Processed>, b: seq<Processed>, n: nat)
    requires forall e | 0 <= e < n :: Life(a, e) == Life(b, e)
    ensures LivesUpTo(a, n) == LivesUpTo(b, n)
  {
    if n > 0 { SameLives(a, b, n - 1); }
  }

  // Another entry that is not production's, or of a later life, changes no earlier life.
  lemma LivesIgnore(done: seq<Processed>, p: Processed, n: nat)
    requires p.key.stream != Prod || n <= p.key.epoch
    ensures LivesUpTo(done + [p], n) == LivesUpTo(done, n)
  {
    forall e | 0 <= e < n ensures Life(done + [p], e) == Life(done, e) { LifeLast(done, p, e); }
    SameLives(done + [p], done, n);
  }

  lemma NextLife(a: seq<Processed>, b: seq<Processed>, p: Processed, n: nat)
    requires n > 0 && LivesUpTo(a, n - 1) == LivesUpTo(b, n - 1) && Life(a, n - 1) == Life(b, n - 1) + [p]
    ensures LivesUpTo(a, n) == LivesUpTo(b, n) + [p]
  {
  }

  lemma EmptyLife(a: seq<Processed>, b: seq<Processed>, p: Processed, n: nat)
    requires n > 0 && LivesUpTo(a, n - 1) == LivesUpTo(b, n - 1) + [p] && Life(a, n - 1) == Life(b, n - 1) == []
    ensures LivesUpTo(a, n) == LivesUpTo(b, n) + [p]
  {
  }

  // One more entry in life m, the last that has any.
  lemma {:induction false} OneMoreLife(a: seq<Processed>, b: seq<Processed>, p: Processed, m: nat, n: nat)
    requires m < n && LivesUpTo(a, m) == LivesUpTo(b, m) && Life(a, m) == Life(b, m) + [p]
    requires forall e | m < e < n :: Life(a, e) == Life(b, e) == []
    ensures LivesUpTo(a, n) == LivesUpTo(b, n) + [p]
    decreases n
  {
    if n == m + 1 {
      NextLife(a, b, p, n);
    } else {
      OneMoreLife(a, b, p, m, n - 1);
      EmptyLife(a, b, p, n);
    }
  }

  // An entry of the latest life goes last.
  lemma LivesAppend(done: seq<Processed>, p: Processed, n: nat)
    requires p.key.stream == Prod && p.key.epoch < n
    requires forall e | p.key.epoch < e < n :: Life(done, e) == []
    ensures LivesUpTo(done + [p], n) == LivesUpTo(done, n) + [p]
  {
    forall e | p.key.epoch < e < n ensures Life(done + [p], e) == [] { LifeLast(done, p, e); }
    LifeLast(done, p, p.key.epoch);
    LivesIgnore(done, p, p.key.epoch);
    OneMoreLife(done + [p], done, p, p.key.epoch, n);
  }

  // The production entries finished are those of the first life, then those of the second, and so on.
  lemma {:induction false} ProdDoneIsLives(done: seq<Processed>, n: nat)
    requires Chronological(done)
    requires forall i | 0 <= i < |done| && done[i].key.stream == Prod :: done[i].key.epoch < n
    ensures ProdDone(done) == LivesUpTo(done, n)
  {
    if done == [] {
      NoLives(n);
    } else {
      var most, p := done[..|done| - 1], done[|done| - 1];
      assert done == most + [p];
      assert forall i | 0 <= i < |most| :: most[i] == done[i];
      ProdDoneIsLives(most, n);
      if p.key.stream == Prod {
        forall e | p.key.epoch < e < n ensures Life(most, e) == [] { LifeNone(most, e); }
        LivesAppend(most, p, n);
      } else {
        LivesIgnore(most, p, n);
      }
    }
  }

  lemma {:induction false} NoLives(n: nat)
    ensures LivesUpTo([], n) == []
  {
    if n > 0 { NoLives(n - 1); }
  }

  // What the lives before the n-th handed over.
  function IssuedInLives(issue: Issue, logs: Per<seq<Fields>>, done: seq<Processed>, n: nat): seq<Message> {
    if n == 0 then [] else IssuedInLives(issue, logs, done, n - 1) + IssuedBy(issue, logs, Life(done, n - 1))
  }

  lemma {:induction false} IssuedConcat(issue: Issue, logs: Per<seq<Fields>>, a: seq<Processed>, b: seq<Processed>)
    ensures IssuedBy(issue, logs, a + b) == IssuedBy(issue, logs, a) + IssuedBy(issue, logs, b)
  {
    if b == [] {
      assert a + b == a;
    } else {
      assert (a + b)[..|a + b| - 1] == a + b[..|b| - 1];
      IssuedConcat(issue, logs, a, b[..|b| - 1]);
    }
  }

  lemma {:induction false} IssuedByLives(issue: Issue, logs: Per<seq<Fields>>, done: seq<Processed>, n: nat)
    ensures IssuedBy(issue, logs, LivesUpTo(done, n)) == IssuedInLives(issue, logs, done, n)
  {
    if n > 0 {
      IssuedByLives(issue, logs, done, n - 1);
      IssuedConcat(issue, logs, LivesUpTo(done, n - 1), Life(done, n - 1));
    }
  }

  // At every moment of every run the connection commands handed to the handler are those of the production
  // stream's finished entries, life after life of its group, and of the entry in hand: each of them once per
  // life, well-formed and not expired when it was judged. Nothing else in the run matters.
  lemma CommandsAreTheProdStream(c: Codec, st0: State, steps: seq<Step>, st: State)
    requires Initial(st0) && Path(c, st0, steps, st)
    ensures Commands(st.trace) == IssuedInLives(IssueOf(c), st.logs, st.done, st.epoch.prod + 1) + InHand(c, st)
  {
    RunKeeps(c, st0, steps, st);
    RunIsSequential(c, st0, steps, st);
    CommandsConcat(Trace(c, st.logs, st.done), Partial(c, st));
    CommandsOfDone(c, st.logs, st.done);
    CommandsOfPartial(c, st);
    assert st.epoch.Get(Prod) == st.epoch.prod;
    ProdDoneIsLives(st.done, st.epoch.prod + 1);
    IssuedByLives(IssueOf(c), st.logs, st.done, st.epoch.prod + 1);
  }

  lemma {:induction false} LifeKeys(done: seq<Processed>, e: nat)
    ensures KeysOf(Life(done, e)) == Only(KeysOf(done), e, Prod)
  {
    if done != [] {
      var most, p := done[..|done| - 1], done[|done| - 1];
      LifeKeys(most, e);
      assert KeysOf(done)[..|done| - 1] == KeysOf(most);
      assert p.key.stream == Prod && p.key.epoch == e ==>
        KeysOf(Life(most, e) + [p]) == KeysOf(Life(most, e)) + [p.key];
    }
  }

  lemma StretchOfKeys(done: seq<Processed>, epoch: nat, lo: nat)
    requires KeysOf(done) == Keys(epoch, Prod, lo, lo + |done|)
    ensures forall i | 0 <= i < |done| :: done[i].key == Key(epoch, Prod, lo + i)
  {
    KeysDistinct(epoch, Prod, lo, lo + |done|);
    assert forall i | 0 <= i < |done| :: KeysOf(done)[i] == done[i].key;
  }

  lemma StretchIsLogged(st: State, mine: seq<Processed>, e: nat, lo: nat)
    requires Sound(st) && KeysOf(mine) == Only(KeysOf(st.done), e, Prod)
    requires forall i | 0 <= i < |mine| :: mine[i].key == Key(e, Prod, lo + i)
    ensures mine != [] ==> lo + |mine| <= |st.logs.prod|
  {
    if mine != [] {
      var n := |mine| - 1;
      assert KeysOf(mine)[n] == mine[n].key;
      OnlyIff(KeysOf(st.done), e, Prod, mine[n].key);
      var i :| 0 <= i < |st.done| && KeysOf(st.done)[i] == mine[n].key;
      assert st.done[i].key.index < |st.logs.Get(Prod)|;
    }
  }

  // A run of finished production entries issues what its stretch of the stream says.
  lemma StretchIssues(issue: Issue, st: State, mine: seq<Processed>, e: nat, lo: nat)
    requires Sound(st) && KeysOf(mine) == Only(KeysOf(st.done), e, Prod) == Keys(e, Prod, lo, lo + |mine|)
    ensures mine != [] ==> lo + |mine| <= |st.logs.prod|
    ensures mine != [] ==> IssuedBy(issue, st.logs, mine) == IssuedAll(issue, st.logs.prod, lo, Times(mine))
  {
    StretchOfKeys(mine, e, lo);
    StretchIsLogged(st, mine, e, lo);
    if mine != [] { IssuedByStretch(issue, st.logs, mine, e, lo); }
  }

  lemma LifeStretch(st: State, e: nat) returns (lo: nat)
    requires Accounted(st)
    ensures e > 0 ==> lo == 0
    ensures var mine := Life(st.done, e);
      && KeysOf(mine) == Only(KeysOf(st.done), e, Prod) == Keys(e, Prod, lo, lo + |mine|)
      && (e == st.epoch.prod && st.batch == [] ==> lo == st.from.prod && lo + |mine| == st.next.prod)
  {
    lo := FinishedOfLife(st, e, Prod);
    LifeKeys(st.done, e);
    assert |KeysOf(Life(st.done, e))| == |Life(st.done, e)|;
  }

  // What the finished entries of one life say, and where they lie.
  ghost predicate LifeSays(issue: Issue, st: State, e: nat, lo: nat) {
    var mine := Life(st.done, e);
    && (e > 0 ==> lo == 0)
    && (mine != [] ==> lo + |mine| <= |st.logs.prod|)
    && (mine != [] ==> IssuedBy(issue, st.logs, mine) == IssuedAll(issue, st.logs.prod, lo, Times(mine)))
    && (e == st.epoch.prod && st.batch == [] ==> lo == st.from.prod && lo + |mine| == st.next.prod)
  }

  lemma LifeOf(issue: Issue, st: State, e: nat) returns (lo: nat)
    requires Sound(st) && Accounted(st)
    ensures LifeSays(issue, st, e, lo)
  {
    lo := LifeStretch(st, e);
    StretchIssues(issue, st, Life(st.done, e), e, lo);
  }

  // One life's commands are what a stretch of the stream says, in stream order, each entry judged once: the
  // stretch starts at the stream's first entry in every life but the first, and with the consumer idle the
  // current life's ends at what the group delivers next.
  lemma LifeIssues(c: Codec, st0: State, steps: seq<Step>, st: State, e: nat) returns (lo: nat)
    requires Initial(st0) && Path(c, st0, steps, st)
    ensures LifeSays(IssueOf(c), st, e, lo)
  {
    RunKeeps(c, st0, steps, st);
    lo := LifeOf(IssueOf(c), st, e);
  }
}
