/**
 * operator_loop over whole runs: entries are appended to three streams at any time, one consumer group
 * delivers them in batches, and the consumer works through each batch one await at a time.
 */
module OperatorRuns {
  import opened Common
  import opened Protocol
  import opened Operator

  // One value per stream.
  datatype Per<T> = Per(prod: T, dev: T, stg: T) {
    function Get(s: Stream): T {
      match s case Prod => prod case Dev => dev case Stg => stg
    }
    function Set(s: Stream, x: T): Per<T> {
      match s case Prod => this.(prod := x) case Dev => this.(dev := x) case Stg => this.(stg := x)
    }
  }

  // Where the consumer is with the entry at the head of its batch.
  datatype Stage =
    | Ready
    | Handling(nowMs: int)               // awaiting the handler
    | Acking(nowMs: int, handled: Handled)   // awaiting XACK

  // A processed entry: its name, the time it was judged, and what the handler answered.
  datatype Processed = Processed(key: Key, nowMs: int, handled: Handled)

  datatype State = State(
    logs: Per<seq<Fields>>,      // the three streams
    next: Per<nat>,              // what each group delivers next
    batch: seq<Key>,             // delivered and not finished, in order
    stage: Stage,
    epoch: Per<nat>,             // creations of each stream's group so far
    from: Per<nat>,              // where each group stood when its epoch began
    unacked: set<Key>,           // the groups' pending entries of this process
    trace: seq<Effect>,
    done: seq<Processed>)        // history: the entries finished, in order

  datatype Step =
    | Append(stream: Stream, fields: Fields)
    | Read(counts: Per<nat>)     // XREADGROUP
    | Begin(nowMs: int)
    | Answer(handled: Handled)   // the handler returns or raises
    | Ack
    | Recreate(lost: Per<bool>)  // XREADGROUP says NOGROUP; the groups lost start again at id 0

  const READ_COUNT: nat := 10

  function Keys(epoch: nat, s: Stream, lo: nat, hi: nat): (r: seq<Key>)
    requires lo <= hi
    decreases hi
  {
    if lo == hi then [] else Keys(epoch, s, lo, hi - 1) + [Key(epoch, s, hi - 1)]
  }

  // What a read delivers: the streams in the order they are asked for.
  function Between(e: Per<nat>, lo: Per<nat>, hi: Per<nat>): seq<Key>
    requires lo.prod <= hi.prod && lo.dev <= hi.dev && lo.stg <= hi.stg
  {
    Keys(e.prod, Prod, lo.prod, hi.prod) + Keys(e.dev, Dev, lo.dev, hi.dev) + Keys(e.stg, Stg, lo.stg, hi.stg)
  }

  function Moved(next: Per<nat>, n: Per<nat>): (r: Per<nat>)
    ensures next.prod <= r.prod && next.dev <= r.dev && next.stg <= r.stg
  {
    Per(next.prod + n.prod, next.dev + n.dev, next.stg + n.stg)
  }

  function Delivered(st: State, n: Per<nat>): seq<Key> {
    Between(st.epoch, st.next, Moved(st.next, n))
  }

  predicate Readable(st: State, n: Per<nat>, s: Stream) {
    n.Get(s) <= READ_COUNT && st.next.Get(s) + n.Get(s) <= |st.logs.Get(s)|
  }

  predicate Enabled(st: State, step: Step) {
    match step
    case Append(_, _) => true
    case Read(n) =>
      st.batch == [] && st.stage == Ready && Readable(st, n, Prod) && Readable(st, n, Dev) && Readable(st, n, Stg)
    case Begin(_) => st.batch != [] && st.stage == Ready
    case Answer(_) => st.batch != [] && st.stage.Handling?
    case Ack => st.batch != [] && st.stage.Acking?
    case Recreate(lost) => st.batch == [] && st.stage == Ready && (lost.prod || lost.dev || lost.stg)
  }

  function Bumped(n: nat, lost: bool): nat { if lost then n + 1 else n }

  function Restarted(n: nat, lost: bool): nat { if lost then 0 else n }

  // The entry at the head of the batch. (Every delivered entry is in its log; see Sound.)
  function FieldsOf(logs: Per<seq<Fields>>, k: Key): Fields {
    if k.index < |logs.Get(k.stream)| then logs.Get(k.stream)[k.index] else map[]
  }

  function HeadVerdict(c: Codec, st: State, nowMs: int): Verdict
    requires st.batch != []
  {
    Judge(c, FieldsOf(st.logs, st.batch[0]), st.batch[0].stream, nowMs)
  }

  const NO_ANSWER: Handled := Threw("")

  function Apply(c: Codec, st: State, step: Step): State
    requires Enabled(st, step)
  {
    match step
    case Append(s, f) => st.(logs := st.logs.Set(s, st.logs.Get(s) + [f]))
    case Read(n) =>
      var got := Delivered(st, n);
      st.(next := Moved(st.next, n),
          batch := got, unacked := st.unacked + Elems(got))
    case Begin(nowMs) =>
      var k, v := st.batch[0], HeadVerdict(c, st, nowMs);
      if v.Handle? then st.(stage := Handling(nowMs), trace := st.trace + [Began(k, v)])
      else st.(stage := Acking(nowMs, NO_ANSWER), trace := st.trace + [Began(k, v)] + WriteOf(c, k, v, NO_ANSWER))
    case Answer(h) =>
      var k, nowMs := st.batch[0], st.stage.nowMs;
      st.(stage := Acking(nowMs, h), trace := st.trace + WriteOf(c, k, HeadVerdict(c, st, nowMs), h))
    case Ack =>
      var k := st.batch[0];
      st.(stage := Ready, batch := st.batch[1..], unacked := st.unacked - {k},
          trace := st.trace + [Acked(k)], done := st.done + [Processed(k, st.stage.nowMs, st.stage.handled)])
    case Recreate(lost) =>
      st.(epoch := Per(Bumped(st.epoch.prod, lost.prod), Bumped(st.epoch.dev, lost.dev),
                       Bumped(st.epoch.stg, lost.stg)),
          next := Per(Restarted(st.next.prod, lost.prod), Restarted(st.next.dev, lost.dev),
                      Restarted(st.next.stg, lost.stg)),
          from := Per(Restarted(st.from.prod, lost.prod), Restarted(st.from.dev, lost.dev),
                      Restarted(st.from.stg, lost.stg)),
          unacked := set k | k in st.unacked && !lost.Get(k.stream))
  }

  // The consumer starts idle on groups that already stand somewhere in their streams.
  ghost predicate Initial(st: State) {
    && st.batch == [] && st.stage == Ready && st.epoch == Per(0, 0, 0)
    && st.unacked == {} && st.trace == [] && st.done == []
    && st.from == st.next
    && st.next.prod <= |st.logs.prod| && st.next.dev <= |st.logs.dev| && st.next.stg <= |st.logs.stg|
  }

  // ---- Refinement: the trace is the entries processed one after the other ----

  function Trace(c: Codec, logs: Per<seq<Fields>>, done: seq<Processed>): seq<Effect> {
    if done == [] then []
    else
      var p := done[|done| - 1];
      Trace(c, logs, done[..|done| - 1]) + EntryTrace(c, FieldsOf(logs, p.key), p.key, p.nowMs, p.handled)
  }

  // The effects so far of the entry in progress.
  function Partial(c: Codec, st: State): seq<Effect> {
    if st.batch == [] then [] else
      var k := st.batch[0];
      match st.stage
      case Ready => []
      case Handling(nowMs) => [Began(k, HeadVerdict(c, st, nowMs))]
      case Acking(nowMs, h) =>
        [Began(k, HeadVerdict(c, st, nowMs))] + WriteOf(c, k, HeadVerdict(c, st, nowMs), h)
  }

  ghost predicate Sequential(c: Codec, st: State) {
    && st.trace == Trace(c, st.logs, st.done) + Partial(c, st)
    && (st.stage != Ready ==> st.batch != [])
    && (st.stage.Handling? ==> HeadVerdict(c, st, st.stage.nowMs).Handle?)
  }

  // Delivered entries exist, so later appends do not change what they say.
  ghost predicate Sound(st: State) {
    && (forall k | k in st.batch :: k.index < |st.logs.Get(k.stream)|)
    && (forall i | 0 <= i < |st.done| :: st.done[i].key.index < |st.logs.Get(st.done[i].key.stream)|)
    && (forall s: Stream :: st.next.Get(s) <= |st.logs.Get(s)|)
  }

  lemma {:induction false} KeysIn(epoch: nat, s: Stream, lo: nat, hi: nat, k: Key)
    requires lo <= hi
    ensures k in Keys(epoch, s, lo, hi) <==> k.epoch == epoch && k.stream == s && lo <= k.index < hi
    decreases hi
  {
    if lo < hi { KeysIn(epoch, s, lo, hi - 1, k); }
  }

  lemma DeliveredIn(st: State, n: Per<nat>, k: Key)
    ensures k in Delivered(st, n) <==>
      k.epoch == st.epoch.Get(k.stream) && st.next.Get(k.stream) <= k.index < st.next.Get(k.stream) + n.Get(k.stream)
  {
    KeysIn(st.epoch.prod, Prod, st.next.prod, st.next.prod + n.prod, k);
    KeysIn(st.epoch.dev, Dev, st.next.dev, st.next.dev + n.dev, k);
    KeysIn(st.epoch.stg, Stg, st.next.stg, st.next.stg + n.stg, k);
  }

  lemma SoundStep(c: Codec, st: State, step: Step)
    requires Sound(st) && Enabled(st, step)
    ensures Sound(Apply(c, st, step))
  {
    if step.Read? {
      forall k | k in Delivered(st, step.counts) ensures k.index < |st.logs.Get(k.stream)| {
        DeliveredIn(st, step.counts, k);
        assert Readable(st, step.counts, k.stream);
      }
      forall s: Stream ensures Apply(c, st, step).next.Get(s) <= |st.logs.Get(s)| {
        assert Readable(st, step.counts, s);
      }
    }
  }

  // Appending changes no entry that is already there.
  lemma {:induction false} TraceIgnoresAppends(c: Codec, st: State, s: Stream, f: Fields, done: seq<Processed>)
    requires forall i | 0 <= i < |done| :: done[i].key.index < |st.logs.Get(done[i].key.stream)|
    ensures Trace(c, st.logs.Set(s, st.logs.Get(s) + [f]), done) == Trace(c, st.logs, done)
  {
    if done != [] {
      TraceIgnoresAppends(c, st, s, f, done[..|done| - 1]);
      FieldsIgnoreAppends(st.logs, s, f, done[|done| - 1].key);
    }
  }

  lemma FieldsIgnoreAppends(logs: Per<seq<Fields>>, s: Stream, f: Fields, k: Key)
    requires k.index < |logs.Get(k.stream)|
    ensures FieldsOf(logs.Set(s, logs.Get(s) + [f]), k) == FieldsOf(logs, k)
  {
  }

  lemma AppendIsSequential(c: Codec, st: State, s: Stream, f: Fields)
    requires Sound(st) && Sequential(c, st)
    ensures Sequential(c, Apply(c, st, Append(s, f)))
  {
    TraceIgnoresAppends(c, st, s, f, st.done);
    if st.batch != [] { FieldsIgnoreAppends(st.logs, s, f, st.batch[0]); }
  }

  lemma BeginIsSequential(c: Codec, st: State, nowMs: int)
    requires Sequential(c, st) && Enabled(st, Begin(nowMs))
    ensures Sequential(c, Apply(c, st, Begin(nowMs)))
  {
    assert st.trace == Trace(c, st.logs, st.done) + [] == Trace(c, st.logs, st.done);
    BeginCompletes(c, st, nowMs);
  }

  lemma BeginCompletes(c: Codec, st: State, nowMs: int)
    requires Enabled(st, Begin(nowMs))
    ensures var st' := Apply(c, st, Begin(nowMs));
      && st'.trace == st.trace + Partial(c, st')
      && st'.done == st.done && st'.logs == st.logs && st'.batch == st.batch && st'.stage != Ready
      && (st'.stage.Handling? ==> HeadVerdict(c, st', st'.stage.nowMs).Handle?)
  {
    var st', k, v := Apply(c, st, Begin(nowMs)), st.batch[0], HeadVerdict(c, st, nowMs);
    if !v.Handle? { assert st'.trace == st.trace + ([Began(k, v)] + WriteOf(c, k, v, NO_ANSWER)); }
  }

  lemma AnswerIsSequential(c: Codec, st: State, h: Handled)
    requires Sequential(c, st) && Enabled(st, Answer(h))
    ensures Sequential(c, Apply(c, st, Answer(h)))
  {
    AnswerCompletes(c, st, h);
  }

  lemma AnswerCompletes(c: Codec, st: State, h: Handled)
    requires Enabled(st, Answer(h))
    ensures var w := WriteOf(c, st.batch[0], HeadVerdict(c, st, st.stage.nowMs), h);
      && Partial(c, Apply(c, st, Answer(h))) == Partial(c, st) + w
      && forall before :: before + Partial(c, st) + w == before + (Partial(c, st) + w)
  {
  }

  lemma AckIsSequential(c: Codec, st: State)
    requires Sequential(c, st) && Enabled(st, Ack)
    ensures Sequential(c, Apply(c, st, Ack))
  {
    var k, before := st.batch[0], Trace(c, st.logs, st.done);
    var p := Processed(k, st.stage.nowMs, st.stage.handled);
    TraceGrows(c, st.logs, st.done, p);
    AckCompletes(c, st);
    assert before + Partial(c, st) + [Acked(k)] == before + (Partial(c, st) + [Acked(k)]);
  }

  lemma AckCompletes(c: Codec, st: State)
    requires Enabled(st, Ack)
    ensures var k := st.batch[0];
      EntryTrace(c, FieldsOf(st.logs, k), k, st.stage.nowMs, st.stage.handled) == Partial(c, st) + [Acked(k)]
  {
  }

  lemma TraceGrows(c: Codec, logs: Per<seq<Fields>>, done: seq<Processed>, p: Processed)
    ensures Trace(c, logs, done + [p]) ==
            Trace(c, logs, done) + EntryTrace(c, FieldsOf(logs, p.key), p.key, p.nowMs, p.handled)
  {
    assert (done + [p])[..|done|] == done;
  }

  lemma SequentialStep(c: Codec, st: State, step: Step)
    requires Sound(st) && Sequential(c, st) && Enabled(st, step)
    ensures Sequential(c, Apply(c, st, step))
  {
    match step {
      case Append(s, f) => AppendIsSequential(c, st, s, f);
      case Read(n) => assert Partial(c, Apply(c, st, Read(n))) == Partial(c, st) == [];
      case Begin(nowMs) => BeginIsSequential(c, st, nowMs);
      case Answer(h) => AnswerIsSequential(c, st, h);
      case Ack => AckIsSequential(c, st);
      case Recreate(_) =>
    }
  }

  // ---- Accounting: what is done and what is in the batch is what was delivered ----

  // The keys of one stream in one epoch, in order.
  function Only(ks: seq<Key>, epoch: nat, s: Stream): seq<Key> {
    if ks == [] then []
    else
      var most, last := Only(ks[..|ks| - 1], epoch, s), ks[|ks| - 1];
      if last.epoch == epoch && last.stream == s then most + [last] else most
  }

  function KeysOf(done: seq<Processed>): seq<Key> {
    seq(|done|, i requires 0 <= i < |done| => done[i].key)
  }

  // A stretch of the stream, from its start in every life but the first.
  ghost predicate IsRun(ks: seq<Key>, epoch: nat, s: Stream) {
    exists lo, hi :: lo <= hi && (epoch > 0 ==> lo == 0) && ks == Keys(epoch, s, lo, hi)
  }

  ghost predicate AccountedOn(st: State, s: Stream) {
    && st.from.Get(s) <= st.next.Get(s)
    && (st.epoch.Get(s) > 0 ==> st.from.Get(s) == 0)
    && Only(KeysOf(st.done) + st.batch, st.epoch.Get(s), s) == Keys(st.epoch.Get(s), s, st.from.Get(s), st.next.Get(s))
    && (forall e: nat | e != st.epoch.Get(s) :: IsRun(Only(KeysOf(st.done), e, s), e, s))
  }

  ghost predicate Accounted(st: State) {
    && AccountedOn(st, Prod) && AccountedOn(st, Dev) && AccountedOn(st, Stg)
    && st.unacked == Elems(st.batch)
    && (forall k | k in st.batch :: k.epoch == st.epoch.Get(k.stream))
    && (forall i | 0 <= i < |st.done| :: st.done[i].key.epoch <= st.epoch.Get(st.done[i].key.stream))
    && (forall i, j | 0 <= i < j < |st.batch| :: st.batch[i] != st.batch[j])
    && Chronological(st.done)
  }

  // The entries of one stream are finished life by life.
  ghost predicate Chronological(done: seq<Processed>) {
    forall i, j | 0 <= i < j < |done| && done[i].key.stream == done[j].key.stream ::
      done[i].key.epoch <= done[j].key.epoch
  }

  lemma {:induction false} OnlyConcat(a: seq<Key>, b: seq<Key>, epoch: nat, s: Stream)
    ensures Only(a + b, epoch, s) == Only(a, epoch, s) + Only(b, epoch, s)
  {
    if b == [] {
      assert a + b == a;
    } else {
      assert (a + b)[..|a + b| - 1] == a + b[..|b| - 1];
      OnlyConcat(a, b[..|b| - 1], epoch, s);
    }
  }

  lemma {:induction false} OnlyKeys(e: nat, t: Stream, lo: nat, hi: nat, epoch: nat, s: Stream)
    requires lo <= hi
    ensures Only(Keys(e, t, lo, hi), epoch, s) == if e == epoch && t == s then Keys(e, t, lo, hi) else []
    decreases hi
  {
    if lo < hi {
      OnlyKeys(e, t, lo, hi - 1, epoch, s);
      assert Keys(e, t, lo, hi)[..|Keys(e, t, lo, hi)| - 1] == Keys(e, t, lo, hi - 1);
    }
  }

  lemma {:induction false} KeysJoin(e: nat, s: Stream, lo: nat, mid: nat, hi: nat)
    requires lo <= mid <= hi
    ensures Keys(e, s, lo, mid) + Keys(e, s, mid, hi) == Keys(e, s, lo, hi)
    decreases hi
  {
    if mid < hi { KeysJoin(e, s, lo, mid, hi - 1); }
  }

  lemma {:induction false} KeysDistinct(e: nat, s: Stream, lo: nat, hi: nat)
    requires lo <= hi
    ensures |Keys(e, s, lo, hi)| == hi - lo
    ensures forall i | 0 <= i < hi - lo :: Keys(e, s, lo, hi)[i] == Key(e, s, lo + i)
    decreases hi
  {
    if lo < hi { KeysDistinct(e, s, lo, hi - 1); }
  }

  lemma OnlyOfThree(a: seq<Key>, b: seq<Key>, d: seq<Key>, epoch: nat, s: Stream)
    requires Only(a, epoch, s) == if s == Prod then a else []
    requires Only(b, epoch, s) == if s == Dev then b else []
    requires Only(d, epoch, s) == if s == Stg then d else []
    ensures Only(a + b + d, epoch, s) == Per(a, b, d).Get(s)
  {
    OnlyConcat(a + b, d, epoch, s);
    OnlyConcat(a, b, epoch, s);
  }

  lemma BetweenOnly(e: Per<nat>, lo: Per<nat>, hi: Per<nat>, s: Stream)
    requires lo.prod <= hi.prod && lo.dev <= hi.dev && lo.stg <= hi.stg
    ensures Only(Between(e, lo, hi), e.Get(s), s) == Keys(e.Get(s), s, lo.Get(s), hi.Get(s))
  {
    OnlyKeys(e.prod, Prod, lo.prod, hi.prod, e.Get(s), s);
    OnlyKeys(e.dev, Dev, lo.dev, hi.dev, e.Get(s), s);
    OnlyKeys(e.stg, Stg, lo.stg, hi.stg, e.Get(s), s);
    OnlyOfThree(Keys(e.prod, Prod, lo.prod, hi.prod), Keys(e.dev, Dev, lo.dev, hi.dev),
                Keys(e.stg, Stg, lo.stg, hi.stg), e.Get(s), s);
  }

  lemma BetweenDistinct(e: Per<nat>, lo: Per<nat>, hi: Per<nat>)
    requires lo.prod <= hi.prod && lo.dev <= hi.dev && lo.stg <= hi.stg
    ensures forall i, j | 0 <= i < j < |Between(e, lo, hi)| :: Between(e, lo, hi)[i] != Between(e, lo, hi)[j]
  {
    KeysDistinct(e.prod, Prod, lo.prod, hi.prod);
    KeysDistinct(e.dev, Dev, lo.dev, hi.dev);
    KeysDistinct(e.stg, Stg, lo.stg, hi.stg);
  }

  lemma BatchContinues(ks: seq<Key>, e: Per<nat>, from: nat, lo: Per<nat>, hi: Per<nat>, s: Stream)
    requires lo.prod <= hi.prod && lo.dev <= hi.dev && lo.stg <= hi.stg && from <= lo.Get(s)
    requires Only(ks, e.Get(s), s) == Keys(e.Get(s), s, from, lo.Get(s))
    ensures Only(ks + Between(e, lo, hi), e.Get(s), s) == Keys(e.Get(s), s, from, hi.Get(s))
  {
    OnlyConcat(ks, Between(e, lo, hi), e.Get(s), s);
    BetweenOnly(e, lo, hi, s);
    KeysJoin(e.Get(s), s, from, lo.Get(s), hi.Get(s));
  }

  lemma ReadAccounts(c: Codec, st: State, n: Per<nat>, s: Stream)
    requires Enabled(st, Read(n)) && AccountedOn(st, s)
    ensures AccountedOn(Apply(c, st, Read(n)), s)
  {
    assert KeysOf(st.done) + st.batch == KeysOf(st.done);
    BatchContinues(KeysOf(st.done), st.epoch, st.from.Get(s), st.next, Moved(st.next, n), s);
  }

  lemma AckAccounts(c: Codec, st: State, s: Stream)
    requires Enabled(st, Ack) && AccountedOn(st, s) && st.batch[0].epoch == st.epoch.Get(st.batch[0].stream)
    ensures AccountedOn(Apply(c, st, Ack), s)
  {
    var st', k := Apply(c, st, Ack), st.batch[0];
    assert KeysOf(st'.done) == KeysOf(st.done) + [k];
    assert KeysOf(st'.done) + st'.batch == KeysOf(st.done) + st.batch;
    forall e: nat | e != st.epoch.Get(s) ensures Only(KeysOf(st'.done), e, s) == Only(KeysOf(st.done), e, s) {
      OnlyConcat(KeysOf(st.done), [k], e, s);
      assert [k][..0] == [];
    }
  }

  lemma RecreateAccounts(c: Codec, st: State, lost: Per<bool>, s: Stream)
    requires Enabled(st, Recreate(lost)) && AccountedOn(st, s)
    requires forall i | 0 <= i < |st.done| :: st.done[i].key.epoch <= st.epoch.Get(st.done[i].key.stream)
    ensures AccountedOn(Apply(c, st, Recreate(lost)), s)
  {
    var st', ks, was := Apply(c, st, Recreate(lost)), KeysOf(st.done), st.epoch.Get(s);
    assert ks + st.batch == ks;
    if lost.Get(s) {
      NoneOf(ks, was + 1, s);
      forall e: nat | e != was + 1 ensures IsRun(Only(ks, e, s), e, s) {
        if e == was { assert Only(ks, e, s) == Keys(e, s, st.from.Get(s), st.next.Get(s)); }
      }
    } else {
      assert st'.epoch.Get(s) == was && st'.next.Get(s) == st.next.Get(s) && st'.from.Get(s) == st.from.Get(s);
    }
  }

  lemma {:induction false} NoneOf(ks: seq<Key>, epoch: nat, s: Stream)
    requires forall i | 0 <= i < |ks| && ks[i].stream == s :: ks[i].epoch != epoch
    ensures Only(ks, epoch, s) == []
  {
    if ks != [] { NoneOf(ks[..|ks| - 1], epoch, s); }
  }

  lemma ReadKeepsAccounts(c: Codec, st: State, n: Per<nat>)
    requires Accounted(st) && Enabled(st, Read(n))
    ensures Accounted(Apply(c, st, Read(n)))
  {
    ReadAccounts(c, st, n, Prod);
    ReadAccounts(c, st, n, Dev);
    ReadAccounts(c, st, n, Stg);
    BetweenDistinct(st.epoch, st.next, Moved(st.next, n));
    forall k | k in Delivered(st, n) ensures k.epoch == st.epoch.Get(k.stream) { DeliveredIn(st, n, k); }
  }

  lemma AckKeepsAccounts(c: Codec, st: State)
    requires Accounted(st) && Enabled(st, Ack)
    ensures Accounted(Apply(c, st, Ack))
  {
    AckAccounts(c, st, Prod);
    AckAccounts(c, st, Dev);
    AckAccounts(c, st, Stg);
    assert st.batch == [st.batch[0]] + Apply(c, st, Ack).batch;
    FinishesLast(st.done, Processed(st.batch[0], st.stage.nowMs, st.stage.handled));
  }

  lemma FinishesLast(done: seq<Processed>, p: Processed)
    requires Chronological(done)
    requires forall i | 0 <= i < |done| && done[i].key.stream == p.key.stream :: done[i].key.epoch <= p.key.epoch
    ensures Chronological(done + [p])
  {
  }

  lemma QuietStepKeepsAccounts(c: Codec, st: State, step: Step)
    requires Accounted(st) && Enabled(st, step) && (step.Append? || step.Begin? || step.Answer?)
    ensures Accounted(Apply(c, st, step))
  {
    var st' := Apply(c, st, step);
    assert st'.done == st.done && st'.batch == st.batch && st'.epoch == st.epoch;
    assert st'.from == st.from && st'.next == st.next && st'.unacked == st.unacked;
  }

  lemma RecreateKeepsAccounts(c: Codec, st: State, lost: Per<bool>)
    requires Accounted(st) && Enabled(st, Recreate(lost))
    ensures Accounted(Apply(c, st, Recreate(lost)))
  {
    RecreateAccounts(c, st, lost, Prod);
    RecreateAccounts(c, st, lost, Dev);
    RecreateAccounts(c, st, lost, Stg);
  }

  lemma AccountedStep(c: Codec, st: State, step: Step)
    requires Accounted(st) && Enabled(st, step)
    ensures Accounted(Apply(c, st, step))
  {
    match step {
      case Read(n) => ReadKeepsAccounts(c, st, n);
      case Ack => AckKeepsAccounts(c, st);
      case Recreate(lost) => RecreateKeepsAccounts(c, st, lost);
      case Append(_, _) => QuietStepKeepsAccounts(c, st, step);
      case Begin(_) => QuietStepKeepsAccounts(c, st, step);
      case Answer(_) => QuietStepKeepsAccounts(c, st, step);
    }
  }

  // ---- Whole runs ----

  ghost predicate Path(c: Codec, st: State, steps: seq<Step>, st': State)
    decreases |steps|
  {
    if steps == [] then st == st'
    else Enabled(st, steps[0]) && Path(c, Apply(c, st, steps[0]), steps[1..], st')
  }

  lemma {:induction false} PathKeeps(c: Codec, st: State, steps: seq<Step>, st': State)
    requires Sound(st) && Sequential(c, st) && Accounted(st) && Path(c, st, steps, st')
    ensures Sound(st') && Sequential(c, st') && Accounted(st')
    decreases |steps|
  {
    if steps != [] {
      SoundStep(c, st, steps[0]);
      SequentialStep(c, st, steps[0]);
      AccountedStep(c, st, steps[0]);
      PathKeeps(c, Apply(c, st, steps[0]), steps[1..], st');
    }
  }

  lemma RunKeeps(c: Codec, st0: State, steps: seq<Step>, st: State)
    requires Initial(st0) && Path(c, st0, steps, st)
    ensures Sound(st) && Sequential(c, st) && Accounted(st)
  {
    assert KeysOf(st0.done) + st0.batch == [];
    forall s: Stream ensures AccountedOn(st0, s) {
      forall e: nat ensures IsRun(Only(KeysOf(st0.done), e, s), e, s) {
        assert KeysOf(st0.done) == [] && Keys(e, s, 0, 0) == [];
      }
    }
    PathKeeps(c, st0, steps, st);
  }

  // Every run is the sequential processing of the finished entries, plus the entry in progress: each
  // entry is judged, handled if its verdict says so, answered, and only then acknowledged.
  lemma RunIsSequential(c: Codec, st0: State, steps: seq<Step>, st: State)
    requires Initial(st0) && Path(c, st0, steps, st)
    ensures st.trace == Trace(c, st.logs, st.done) + Partial(c, st)
  {
    RunKeeps(c, st0, steps, st);
  }

  // On every stream the entries finished or in hand since its group was created are exactly the ones
  // it delivered, each once and in order; between batches nothing delivered is left unacknowledged.
  lemma EveryEntryOnce(c: Codec, st0: State, steps: seq<Step>, st: State, s: Stream)
    requires Initial(st0) && Path(c, st0, steps, st)
    ensures st.from.Get(s) <= st.next.Get(s)
    ensures var e := st.epoch.Get(s);
      && Only(KeysOf(st.done) + st.batch, e, s) == Keys(e, s, st.from.Get(s), st.next.Get(s))
      && (st.batch == [] ==>
            st.unacked == {} && Only(KeysOf(st.done), e, s) == Keys(e, s, st.from.Get(s), st.next.Get(s)))
  {
    RunKeeps(c, st0, steps, st);
    assert AccountedOn(st, s);
    if st.batch == [] { assert KeysOf(st.done) + st.batch == KeysOf(st.done); }
  }

  // Within one life of its stream's group no entry is finished twice, whatever happens to the other groups.
  lemma AtMostOncePerEpoch(c: Codec, st0: State, steps: seq<Step>, st: State, i: nat, j: nat)
    requires Initial(st0) && Path(c, st0, steps, st)
    requires i < j < |st.done|
    ensures st.done[i].key != st.done[j].key
  {
    DeliveredInOrder(c, st0, steps, st, i, j);
  }

  // Earlier life, or same life and earlier in the stream.
  predicate Before(k: Key, l: Key) {
    k.stream != l.stream || k.epoch < l.epoch || (k.epoch == l.epoch && k.index < l.index)
  }

  // The entries finished and then those in hand are, on each stream, in stream order life after life.
  lemma DeliveredInOrder(c: Codec, st0: State, steps: seq<Step>, st: State, i: nat, j: nat)
    requires Initial(st0) && Path(c, st0, steps, st)
    requires i < j < |KeysOf(st.done) + st.batch|
    ensures var ks := KeysOf(st.done) + st.batch; Before(ks[i], ks[j]) && ks[i] != ks[j]
  {
    RunKeeps(c, st0, steps, st);
    LivesInOrder(st, i, j);
    var ks := KeysOf(st.done) + st.batch;
    if ks[i].stream == ks[j].stream && ks[i].epoch == ks[j].epoch {
      RunOfLife(st, ks[i].epoch, ks[i].stream);
      InOrder(ks, i, j);
    }
  }

  lemma LivesInOrder(st: State, i: nat, j: nat)
    requires Accounted(st) && i < j < |KeysOf(st.done) + st.batch|
    ensures var ks := KeysOf(st.done) + st.batch; ks[i].stream == ks[j].stream ==> ks[i].epoch <= ks[j].epoch
  {
    var ks := KeysOf(st.done) + st.batch;
    if j >= |st.done| {
      assert ks[j] in st.batch;
      assert i >= |st.done| ==> ks[i] in st.batch;
    }
  }

  // Every life's part of what was delivered is a run.
  lemma RunOfLife(st: State, e: nat, s: Stream)
    requires Accounted(st)
    ensures IsRun(Only(KeysOf(st.done) + st.batch, e, s), e, s)
    ensures e != st.epoch.Get(s) ==> Only(KeysOf(st.done) + st.batch, e, s) == Only(KeysOf(st.done), e, s)
  {
    assert AccountedOn(st, s);
    if e != st.epoch.Get(s) {
      OnlyConcat(KeysOf(st.done), st.batch, e, s);
      assert forall i | 0 <= i < |st.batch| :: st.batch[i] in st.batch;
      NoneOf(st.batch, e, s);
    }
  }

  // Keys of one stream and life of the group that form a run appear in increasing order.
  lemma InOrder(ks: seq<Key>, i: nat, j: nat)
    requires i < j < |ks| && ks[i].epoch == ks[j].epoch && ks[i].stream == ks[j].stream
    requires IsRun(Only(ks, ks[i].epoch, ks[i].stream), ks[i].epoch, ks[i].stream)
    ensures ks[i].index < ks[j].index
  {
    var e, s, a, b := ks[i].epoch, ks[i].stream, ks[..j], ks[j..];
    OnlyConcat(a, b, e, s);
    OnlyHas(a, i);
    OnlyHas(b, 0);
    assert a + b == ks;
    var lo, hi :| lo <= hi && (e > 0 ==> lo == 0) && Only(ks, e, s) == Keys(e, s, lo, hi);
    KeysDistinct(e, s, lo, hi);
    SplitRun(Only(a, e, s), Only(b, e, s), e, s, lo, ks[i], ks[j]);
  }

  lemma SplitRun(x: seq<Key>, y: seq<Key>, e: nat, s: Stream, lo: nat, k: Key, l: Key)
    requires forall p | 0 <= p < |x + y| :: (x + y)[p] == Key(e, s, lo + p)
    requires k in x && l in y
    ensures k.index < l.index
  {
    var p :| 0 <= p < |x| && x[p] == k;
    var q :| 0 <= q < |y| && y[q] == l;
    assert (x + y)[p] == k && (x + y)[|x| + q] == l;
  }

  lemma {:induction false} OnlyHas(ks: seq<Key>, i: nat)
    requires i < |ks|
    ensures ks[i] in Only(ks, ks[i].epoch, ks[i].stream)
  {
    if i < |ks| - 1 { OnlyHas(ks[..|ks| - 1], i); }
  }

  lemma {:induction false} PathJoin(c: Codec, st: State, a: seq<Step>, mid: State, b: seq<Step>, st': State)
    requires Path(c, st, a, mid) && Path(c, mid, b, st')
    ensures Path(c, st, a + b, st')
    decreases |a|
  {
    if a == [] {
      assert a + b == b;
    } else {
      PathJoin(c, Apply(c, st, a[0]), a[1..], mid, b, st');
      assert (a + b)[1..] == a[1..] + b;
    }
  }

  lemma PathOne(c: Codec, st: State, step: Step)
    requires Enabled(st, step)
    ensures Path(c, st, [step], Apply(c, st, step))
  {
    assert Path(c, Apply(c, st, step), [step][1..], Apply(c, st, step));
  }

  // An idle consumer on a group at id 0 can read, handle, answer and acknowledge the first entry.
  lemma ServeFirst(c: Codec, st: State, nowMs: int, h: Handled) returns (steps: seq<Step>, st': State)
    requires st.batch == [] && st.stage == Ready && st.next == Per(0, 0, 0) && st.logs.prod != []
    requires Judge(c, st.logs.prod[0], Prod, nowMs).Handle?
    ensures Path(c, st, steps, st')
    ensures st'.batch == [] && st'.stage == Ready && st'.logs == st.logs
    ensures st'.epoch == st.epoch && st'.next == Per(1, 0, 0)
    ensures Began(Key(st.epoch.prod, Prod, 0), Judge(c, st.logs.prod[0], Prod, nowMs)) in st'.trace
    ensures forall e | e in st.trace :: e in st'.trace
  {
    var one := Per(1, 0, 0);
    OneEntry(st, one);
    PathOne(c, st, Read(one));
    var s1 := Apply(c, st, Read(one));
    var more, s3 := HandleHead(c, s1, nowMs, h);
    PathOne(c, s3, Ack);
    st' := Apply(c, s3, Ack);
    PathJoin(c, st, [Read(one)], s1, more, s3);
    PathJoin(c, st, [Read(one)] + more, s3, [Ack], st');
    steps := [Read(one)] + more + [Ack];
  }

  // The head of the batch is handled and answered.
  lemma HandleHead(c: Codec, st: State, nowMs: int, h: Handled) returns (steps: seq<Step>, st': State)
    requires st.batch != [] && st.stage == Ready && HeadVerdict(c, st, nowMs).Handle?
    ensures Path(c, st, steps, st')
    ensures st'.batch == st.batch && st'.stage.Acking? && st'.logs == st.logs
    ensures st'.epoch == st.epoch && st'.next == st.next
    ensures Began(st.batch[0], HeadVerdict(c, st, nowMs)) in st'.trace
    ensures forall e | e in st.trace :: e in st'.trace
  {
    PathOne(c, st, Begin(nowMs));
    var s1 := Apply(c, st, Begin(nowMs));
    PathOne(c, s1, Answer(h));
    st' := Apply(c, s1, Answer(h));
    PathJoin(c, st, [Begin(nowMs)], s1, [Answer(h)], st');
    steps := [Begin(nowMs)] + [Answer(h)];
  }

  lemma OneEntry(st: State, n: Per<nat>)
    requires n == Per(1, 0, 0) && st.next == Per(0, 0, 0)
    ensures Delivered(st, n) == [Key(st.epoch.prod, Prod, 0)]
  {
    var e := st.epoch.prod;
    assert Keys(e, Prod, 0, 1) == Keys(e, Prod, 0, 0) + [Key(e, Prod, 0)];
  }

  // A new life of the group starts at id 0: an entry handled before it is delivered and handled again.
  lemma RecreationHandlesAgain(c: Codec, f: Fields, nowMs: int, h: Handled)
    returns (st0: State, steps: seq<Step>, st: State)
    requires Judge(c, f, Prod, nowMs).Handle?
    ensures Initial(st0) && Path(c, st0, steps, st)
    ensures Began(Key(0, Prod, 0), Judge(c, f, Prod, nowMs)) in st.trace
    ensures Began(Key(1, Prod, 0), Judge(c, f, Prod, nowMs)) in st.trace
  {
    st0 := State(Per([f], [], []), Per(0, 0, 0), [], Ready, Per(0, 0, 0), Per(0, 0, 0), {}, [], []);
    var a, s1 := ServeFirst(c, st0, nowMs, h);
    var again := Recreate(Per(true, false, false));
    var s2 := Apply(c, s1, again);
    PathOne(c, s1, again);
    var b, s3 := ServeFirst(c, s2, nowMs, h);
    st := s3;
    PathJoin(c, st0, a, s1, [again], s2);
    PathJoin(c, st0, a + [again], s2, b, st);
    steps := a + [again] + b;
  }
}
