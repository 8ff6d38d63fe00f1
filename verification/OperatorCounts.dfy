/** How often the operator loop handles and acknowledges an entry, across any number of group creations. */
module OperatorCounts {
  import opened Common
  import opened Protocol
  import opened Operator
  import opened OperatorRuns

  // ---- Counting in the trace ----

  // The entries acknowledged, in order.
  function AckedKeys(trace: seq<Effect>): seq<Key> {
    if trace == [] then []
    else
      var most, last := AckedKeys(trace[..|trace| - 1]), trace[|trace| - 1];
      if last.Acked? then most + [last.key] else most
  }

  // The entries judged, and handled if their verdict said so, in order.
  function BegunKeys(trace: seq<Effect>): seq<Key> {
    if trace == [] then []
    else
      var most, last := BegunKeys(trace[..|trace| - 1]), trace[|trace| - 1];
      if last.Began? then most + [last.key] else most
  }

  lemma {:induction false} KeysConcat(a: seq<Effect>, b: seq<Effect>)
    ensures AckedKeys(a + b) == AckedKeys(a) + AckedKeys(b)
    ensures BegunKeys(a + b) == BegunKeys(a) + BegunKeys(b)
  {
    if b == [] {
      assert a + b == a;
    } else {
      assert (a + b)[..|a + b| - 1] == a + b[..|b| - 1];
      KeysConcat(a, b[..|b| - 1]);
    }
  }

  lemma KeysOfOne(e: Effect)
    ensures AckedKeys([e]) == if e.Acked? then [e.key] else []
    ensures BegunKeys([e]) == if e.Began? then [e.key] else []
  {
    assert [e][..0] == [];
  }

  // An entry begins, perhaps writes, and is acknowledged.
  lemma KeysOfParts(b: Effect, w: seq<Effect>)
    requires b.Began? && |w| <= 1 && (w != [] ==> w[0].Wrote?)
    ensures AckedKeys([b] + w) == [] && BegunKeys([b] + w) == [b.key]
  {
    KeysConcat([b], w);
    KeysOfOne(b);
    if w != [] {
      KeysOfOne(w[0]);
      assert w == [w[0]];
    }
  }

  lemma KeysOfEntry(c: Codec, f: Fields, k: Key, nowMs: int, h: Handled)
    ensures AckedKeys(EntryTrace(c, f, k, nowMs, h)) == [k] && BegunKeys(EntryTrace(c, f, k, nowMs, h)) == [k]
  {
    var v := Judge(c, f, k.stream, nowMs);
    KeysOfParts(Began(k, v), WriteOf(c, k, v, h));
    KeysConcat([Began(k, v)] + WriteOf(c, k, v, h), [Acked(k)]);
    KeysOfOne(Acked(k));
  }

  lemma {:induction false} KeysOfTrace(c: Codec, logs: Per<seq<Fields>>, done: seq<Processed>)
    ensures AckedKeys(Trace(c, logs, done)) == KeysOf(done) && BegunKeys(Trace(c, logs, done)) == KeysOf(done)
  {
    if done != [] {
      var most, p := done[..|done| - 1], done[|done| - 1];
      KeysOfTrace(c, logs, most);
      KeysGrow(c, logs, most, p, Trace(c, logs, most));
      assert done == most + [p];
    }
  }

  lemma KeysGrow(c: Codec, logs: Per<seq<Fields>>, most: seq<Processed>, p: Processed, trace: seq<Effect>)
    requires trace == Trace(c, logs, most) && AckedKeys(trace) == BegunKeys(trace) == KeysOf(most)
    ensures AckedKeys(Trace(c, logs, most + [p])) == KeysOf(most + [p])
    ensures BegunKeys(Trace(c, logs, most + [p])) == KeysOf(most + [p])
  {
    TraceGrows(c, logs, most, p);
    EntryAppends(c, FieldsOf(logs, p.key), p, trace);
    assert KeysOf(most + [p]) == KeysOf(most) + [p.key];
  }

  lemma EntryAppends(c: Codec, f: Fields, p: Processed, trace: seq<Effect>)
    ensures var longer := trace + EntryTrace(c, f, p.key, p.nowMs, p.handled);
      AckedKeys(longer) == AckedKeys(trace) + [p.key] && BegunKeys(longer) == BegunKeys(trace) + [p.key]
  {
    KeysOfEntry(c, f, p.key, p.nowMs, p.handled);
    KeysConcat(trace, EntryTrace(c, f, p.key, p.nowMs, p.handled));
  }

  // The entry begun and not yet acknowledged, if there is one.
  function InProgress(st: State): seq<Key> {
    if st.batch != [] && st.stage != Ready then [st.batch[0]] else []
  }

  lemma KeysOfPartial(c: Codec, st: State)
    ensures AckedKeys(Partial(c, st)) == [] && BegunKeys(Partial(c, st)) == InProgress(st)
  {
    if st.batch != [] && st.stage != Ready {
      var k, v := st.batch[0], HeadVerdict(c, st, st.stage.nowMs);
      if st.stage.Handling? {
        KeysOfOne(Began(k, v));
      } else {
        KeysOfParts(Began(k, v), WriteOf(c, k, v, st.stage.handled));
      }
    }
  }

  // In every run the acknowledgements sent are the finished entries, and the entries judged are those and
  // the one in progress, in this order.
  lemma TraceCounts(c: Codec, st0: State, steps: seq<Step>, st: State)
    requires Initial(st0) && Path(c, st0, steps, st)
    ensures AckedKeys(st.trace) == KeysOf(st.done)
    ensures BegunKeys(st.trace) == KeysOf(st.done) + InProgress(st)
  {
    RunIsSequential(c, st0, steps, st);
    KeysOfTrace(c, st.logs, st.done);
    KeysOfPartial(c, st);
    KeysConcat(Trace(c, st.logs, st.done), Partial(c, st));
  }

  // So in every run no entry is judged, handled or acknowledged twice in one life of its group.
  lemma AtMostOnce(c: Codec, st0: State, steps: seq<Step>, st: State)
    requires Initial(st0) && Path(c, st0, steps, st)
    ensures forall i, j | 0 <= i < j < |AckedKeys(st.trace)| :: AckedKeys(st.trace)[i] != AckedKeys(st.trace)[j]
    ensures forall i, j | 0 <= i < j < |BegunKeys(st.trace)| :: BegunKeys(st.trace)[i] != BegunKeys(st.trace)[j]
  {
    TraceCounts(c, st0, steps, st);
    var ks := KeysOf(st.done) + st.batch;
    forall i, j | 0 <= i < j < |st.done| + |InProgress(st)| ensures ks[i] != ks[j] {
      DeliveredInOrder(c, st0, steps, st, i, j);
    }
    assert forall i | 0 <= i < |st.done| :: AckedKeys(st.trace)[i] == ks[i];
    assert forall i | 0 <= i < |st.done| + |InProgress(st)| :: BegunKeys(st.trace)[i] == ks[i];
  }

  // ---- Across group creations ----

  lemma {:induction false} OnlyIff(ks: seq<Key>, e: nat, s: Stream, k: Key)
    ensures k in Only(ks, e, s) <==> k in ks && k.epoch == e && k.stream == s
  {
    if ks != [] {
      OnlyIff(ks[..|ks| - 1], e, s, k);
      assert ks == ks[..|ks| - 1] + [ks[|ks| - 1]];
    }
  }

  lemma {:induction false} PrefixOfKeys(a: seq<Key>, b: seq<Key>, e: nat, s: Stream, lo: nat, hi: nat)
    requires lo <= hi && a + b == Keys(e, s, lo, hi)
    ensures lo + |a| <= hi && a == Keys(e, s, lo, lo + |a|)
    decreases |b|
  {
    KeysDistinct(e, s, lo, hi);
    if b == [] {
      assert a + b == a;
    } else {
      assert (a + b)[..|a + b| - 1] == a + b[..|b| - 1];
      PrefixOfKeys(a, b[..|b| - 1], e, s, lo, hi - 1);
    }
  }

  // What one life has finished is a run too.
  lemma FinishedOfLife(st: State, e: nat, s: Stream) returns (lo: nat)
    requires Accounted(st)
    ensures e > 0 ==> lo == 0
    ensures var mine := Only(KeysOf(st.done), e, s); mine == Keys(e, s, lo, lo + |mine|)
    ensures e == st.epoch.Get(s) && st.batch == [] ==>
      lo == st.from.Get(s) && lo + |Only(KeysOf(st.done), e, s)| == st.next.Get(s)
  {
    assert AccountedOn(st, s);
    var done := KeysOf(st.done);
    if e == st.epoch.Get(s) {
      lo := st.from.Get(s);
      OnlyConcat(done, st.batch, e, s);
      PrefixOfKeys(Only(done, e, s), Only(st.batch, e, s), e, s, lo, st.next.Get(s));
      KeysDistinct(e, s, lo, st.next.Get(s));
    } else {
      var l, hi :| l <= hi && (e > 0 ==> l == 0) && Only(done, e, s) == Keys(e, s, l, hi);
      KeysDistinct(e, s, l, hi);
      lo := l;
    }
  }

  // How many entries of s a life of its group has finished.
  function FinishedIn(st: State, e: nat, s: Stream): nat { |Only(KeysOf(st.done), e, s)| }

  // Every life but the first finishes exactly the first entries of the stream, as far as it got.
  lemma LifeFinishesIff(c: Codec, st0: State, steps: seq<Step>, st: State, e: nat, s: Stream, x: nat)
    requires Initial(st0) && Path(c, st0, steps, st) && e > 0
    ensures Key(e, s, x) in KeysOf(st.done) <==> x < FinishedIn(st, e, s)
    ensures e == st.epoch.Get(s) && st.batch == [] ==> FinishedIn(st, e, s) == st.next.Get(s)
  {
    RunKeeps(c, st0, steps, st);
    LaterLifeIff(st, e, s, x);
  }

  lemma LaterLifeIff(st: State, e: nat, s: Stream, x: nat)
    requires Accounted(st) && e > 0
    ensures Key(e, s, x) in KeysOf(st.done) <==> x < FinishedIn(st, e, s)
    ensures e == st.epoch.Get(s) && st.batch == [] ==> FinishedIn(st, e, s) == st.next.Get(s)
  {
    var lo := FinishedOfLife(st, e, s);
    InRunIff(KeysOf(st.done), e, s, x);
  }

  lemma InRunIff(ks: seq<Key>, e: nat, s: Stream, x: nat)
    requires Only(ks, e, s) == Keys(e, s, 0, |Only(ks, e, s)|)
    ensures Key(e, s, x) in ks <==> x < |Only(ks, e, s)|
  {
    OnlyIff(ks, e, s, Key(e, s, x));
    KeysIn(e, s, 0, |Only(ks, e, s)|, Key(e, s, x));
  }

  predicate Names(p: Processed, s: Stream, x: nat) {
    p.key.stream == s && p.key.index == x
  }

  // An entry is finished twice exactly when one life of its group finished it and a later one got past it.
  lemma FinishedTwiceIff(c: Codec, st0: State, steps: seq<Step>, st: State, s: Stream, x: nat)
    requires Initial(st0) && Path(c, st0, steps, st)
    ensures (exists i, j :: 0 <= i < j < |st.done| && Names(st.done[i], s, x) && Names(st.done[j], s, x))
       <==> (exists e: nat, e': nat :: e < e' && Key(e, s, x) in KeysOf(st.done) && x < FinishedIn(st, e', s))
  {
    var ks := KeysOf(st.done);
    if i, j :| 0 <= i < j < |st.done| && Names(st.done[i], s, x) && Names(st.done[j], s, x) {
      DeliveredInOrder(c, st0, steps, st, i, j);
      var e, e' := ks[i].epoch, ks[j].epoch;
      assert ks[i] == Key(e, s, x) && ks[j] == Key(e', s, x);
      assert (ks + st.batch)[i] == ks[i] && (ks + st.batch)[j] == ks[j];
      LifeFinishesIff(c, st0, steps, st, e', s, x);
    }
    if e: nat, e': nat :| e < e' && Key(e, s, x) in ks && x < FinishedIn(st, e', s) {
      LifeFinishesIff(c, st0, steps, st, e', s, x);
      var i :| 0 <= i < |ks| && ks[i] == Key(e, s, x);
      var j :| 0 <= j < |ks| && ks[j] == Key(e', s, x);
      FinishedAgain(st, s, x, i, j);
    }
  }

  lemma FinishedAgain(st: State, s: Stream, x: nat, i: nat, j: nat)
    requires i < |st.done| && j < |st.done| && i != j
    requires Names(st.done[i], s, x) && Names(st.done[j], s, x)
    ensures exists i, j :: 0 <= i < j < |st.done| && Names(st.done[i], s, x) && Names(st.done[j], s, x)
  {
  }

  // In particular: with the consumer idle, an entry that an earlier life finished was finished again in
  // this one exactly if it lies below what the group delivers next.
  lemma HandledAgainIff(c: Codec, st0: State, steps: seq<Step>, st: State, i: nat)
    requires Initial(st0) && Path(c, st0, steps, st) && st.batch == []
    requires i < |st.done| && st.done[i].key.epoch < st.epoch.Get(st.done[i].key.stream)
    ensures var k := st.done[i].key;
      Key(st.epoch.Get(k.stream), k.stream, k.index) in KeysOf(st.done) <==> k.index < st.next.Get(k.stream)
  {
    var k := st.done[i].key;
    LifeFinishesIff(c, st0, steps, st, st.epoch.Get(k.stream), k.stream, k.index);
  }
}
