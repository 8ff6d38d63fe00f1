/**
 * The per-environment streams cannot move the shared connection: which disconnect_all and
 * reconnect_all commands reach the handler depends on the production stream alone.
 */
module OperatorIsolation {
  import opened Common
  import opened Protocol
  import opened Operator
  import opened OperatorRuns

  // ---- The commands that reach the handler ----

  // The connection command an effect hands to the handler, if it does.
  function CommandOf(e: Effect): seq<Message> {
    if e.Began? && e.verdict.Handle? && e.verdict.msg.op in PROD_ONLY_OPS then [e.verdict.msg] else []
  }

  function Commands(trace: seq<Effect>): seq<Message> {
    if trace == [] then [] else Commands(trace[..|trace| - 1]) + CommandOf(trace[|trace| - 1])
  }

  lemma {:induction false} CommandsConcat(a: seq<Effect>, b: seq<Effect>)
    ensures Commands(a + b) == Commands(a) + Commands(b)
  {
    if b == [] {
      assert a + b == a;
    } else {
      assert (a + b)[..|a + b| - 1] == a + b[..|b| - 1];
      CommandsConcat(a, b[..|b| - 1]);
    }
  }

  lemma CommandsOne(e: Effect)
    ensures Commands([e]) == CommandOf(e)
  {
    assert [e][..0] == [];
  }

  // ---- Deleting the environment streams ----

  function ProdKeys(ks: seq<Key>): seq<Key> {
    if ks == [] then []
    else (if ks[0].stream == Prod then [ks[0]] else []) + ProdKeys(ks[1..])
  }

  function ProdEffects(trace: seq<Effect>): seq<Effect> {
    if trace == [] then []
    else
      var most, last := ProdEffects(trace[..|trace| - 1]), trace[|trace| - 1];
      if last.key.stream == Prod then most + [last] else most
  }

  function ProdDone(done: seq<Processed>): seq<Processed> {
    if done == [] then []
    else
      var most, last := ProdDone(done[..|done| - 1]), done[|done| - 1];
      if last.key.stream == Prod then most + [last] else most
  }

  predicate ProdHead(st: State) {
    st.batch != [] && st.batch[0].stream == Prod
  }

  // What is left of a state when the environment streams never had an entry.
  function Project(st: State): State {
    st.(logs := Per(st.logs.prod, [], []),
        next := Per(st.next.prod, 0, 0),
        epoch := Per(st.epoch.prod, 0, 0),
        from := Per(st.from.prod, 0, 0),
        batch := ProdKeys(st.batch),
        stage := if ProdHead(st) then st.stage else Ready,
        unacked := ProdSet(st.unacked),
        trace := ProdEffects(st.trace),
        done := ProdDone(st.done))
  }

  // The step the projected run takes, if any.
  function ProjectStep(st: State, step: Step): Option<Step> {
    match step
    case Append(s, _) => if s == Prod then Some(step) else None
    case Read(n) => Some(Read(Per(n.prod, 0, 0)))
    case Recreate(lost) => if lost.prod then Some(Recreate(Per(true, false, false))) else None
    case Begin(_) => if ProdHead(st) then Some(step) else None
    case Answer(_) => if ProdHead(st) then Some(step) else None
    case Ack => if ProdHead(st) then Some(step) else None
  }

  lemma {:induction false} ProdKeysConcat(a: seq<Key>, b: seq<Key>)
    ensures ProdKeys(a + b) == ProdKeys(a) + ProdKeys(b)
  {
    if a == [] {
      assert a + b == b;
    } else {
      var head := if a[0].stream == Prod then [a[0]] else [];
      assert (a + b)[1..] == a[1..] + b;
      ProdKeysConcat(a[1..], b);
      assert ProdKeys(a + b) == head + (ProdKeys(a[1..]) + ProdKeys(b));
    }
  }

  lemma {:induction false} ProdKeysOfKeys(e: nat, s: Stream, lo: nat, hi: nat)
    requires lo <= hi
    ensures ProdKeys(Keys(e, s, lo, hi)) == if s == Prod then Keys(e, s, lo, hi) else []
    decreases hi
  {
    if lo < hi {
      ProdKeysOfKeys(e, s, lo, hi - 1);
      var k := [Key(e, s, hi - 1)];
      ProdKeysConcat(Keys(e, s, lo, hi - 1), k);
      assert k[1..] == [];
    }
  }

  lemma {:induction false} ProdEffectsConcat(a: seq<Effect>, b: seq<Effect>)
    ensures ProdEffects(a + b) == ProdEffects(a) + ProdEffects(b)
  {
    if b == [] {
      assert a + b == a;
    } else {
      assert (a + b)[..|a + b| - 1] == a + b[..|b| - 1];
      ProdEffectsConcat(a, b[..|b| - 1]);
    }
  }

  lemma {:induction false} EffectsOfOneStream(es: seq<Effect>, s: Stream)
    requires forall i | 0 <= i < |es| :: es[i].key.stream == s
    ensures ProdEffects(es) == if s == Prod then es else []
  {
    if es != [] { EffectsOfOneStream(es[..|es| - 1], s); }
  }

  lemma BetweenProjects(e: Per<nat>, lo: Per<nat>, hi: Per<nat>)
    requires lo.prod <= hi.prod && lo.dev <= hi.dev && lo.stg <= hi.stg
    ensures ProdKeys(Between(e, lo, hi)) == Between(Per(e.prod, 0, 0), Per(lo.prod, 0, 0), Per(hi.prod, 0, 0))
  {
    var a, b := Keys(e.prod, Prod, lo.prod, hi.prod), Keys(e.dev, Dev, lo.dev, hi.dev);
    var d := Keys(e.stg, Stg, lo.stg, hi.stg);
    ProdKeysConcat(a + b, d);
    ProdKeysConcat(a, b);
    ProdKeysOfKeys(e.prod, Prod, lo.prod, hi.prod);
    ProdKeysOfKeys(e.dev, Dev, lo.dev, hi.dev);
    ProdKeysOfKeys(e.stg, Stg, lo.stg, hi.stg);
    assert Between(Per(e.prod, 0, 0), Per(lo.prod, 0, 0), Per(hi.prod, 0, 0)) == a + [] + [];
  }

  function ProdSet(ks: set<Key>): set<Key> { set k | k in ks && k.stream == Prod }

  lemma ProdSetGrows(unacked: set<Key>, ks: seq<Key>)
    ensures ProdSet(unacked + Elems(ks)) == ProdSet(unacked) + Elems(ProdKeys(ks))
  {
    ProdMembers(ks);
  }

  lemma DeliveredProjects(st: State, n: Per<nat>)
    ensures Delivered(Project(st), Per(n.prod, 0, 0)) == ProdKeys(Delivered(st, n))
  {
    BetweenProjects(st.epoch, st.next, Moved(st.next, n));
  }

  // A read by an idle consumer, given what it delivers.
  function Taken(st: State, n: Per<nat>, got: seq<Key>): State {
    st.(next := Moved(st.next, n), batch := got, unacked := st.unacked + Elems(got))
  }

  lemma TakenProjects(st: State, n: Per<nat>, got: seq<Key>)
    requires st.stage == Ready
    ensures Project(Taken(st, n, got)) == Taken(Project(st), Per(n.prod, 0, 0), ProdKeys(got))
  {
    ProdSetGrows(st.unacked, got);
  }

  lemma ReadProjects(c: Codec, st: State, n: Per<nat>)
    requires Enabled(st, Read(n))
    ensures Enabled(Project(st), Read(Per(n.prod, 0, 0)))
    ensures Apply(c, Project(st), Read(Per(n.prod, 0, 0))) == Project(Apply(c, st, Read(n)))
  {
    DeliveredProjects(st, n);
    TakenProjects(st, n, Delivered(st, n));
    assert Readable(st, n, Prod);
  }

  lemma {:induction false} ProdMembers(ks: seq<Key>)
    ensures forall k :: k in ProdKeys(ks) <==> k in ks && k.stream == Prod
  {
    if ks != [] {
      ProdMembers(ks[1..]);
      assert ks == [ks[0]] + ks[1..];
    }
  }

  // New effects of the entry in hand are kept or dropped together.
  lemma EffectsProject(trace: seq<Effect>, more: seq<Effect>, s: Stream)
    requires forall i | 0 <= i < |more| :: more[i].key.stream == s
    ensures ProdEffects(trace + more) == ProdEffects(trace) + if s == Prod then more else []
  {
    ProdEffectsConcat(trace, more);
    EffectsOfOneStream(more, s);
  }

  // What judging the head entry adds to the trace.
  function BeginEffects(c: Codec, k: Key, v: Verdict): seq<Effect> {
    [Began(k, v)] + if v.Handle? then [] else WriteOf(c, k, v, NO_ANSWER)
  }

  lemma BeginTrace(c: Codec, st: State, nowMs: int)
    requires Enabled(st, Begin(nowMs))
    ensures var st', k, v := Apply(c, st, Begin(nowMs)), st.batch[0], HeadVerdict(c, st, nowMs);
      && st'.trace == st.trace + BeginEffects(c, k, v)
      && ProdEffects(st'.trace) == ProdEffects(st.trace) + if k.stream == Prod then BeginEffects(c, k, v) else []
  {
    var k, v := st.batch[0], HeadVerdict(c, st, nowMs);
    assert Apply(c, st, Begin(nowMs)).trace == st.trace + BeginEffects(c, k, v);
    EffectsProject(st.trace, BeginEffects(c, k, v), k.stream);
  }

  lemma BeginProjects(c: Codec, st: State, nowMs: int)
    requires Enabled(st, Begin(nowMs))
    ensures var st' := Apply(c, st, Begin(nowMs));
      if ProdHead(st) then Enabled(Project(st), Begin(nowMs)) && Apply(c, Project(st), Begin(nowMs)) == Project(st')
      else Project(st') == Project(st)
  {
    BeginTrace(c, st, nowMs);
    if ProdHead(st) {
      assert Project(st).batch[0] == st.batch[0];
      assert HeadVerdict(c, Project(st), nowMs) == HeadVerdict(c, st, nowMs);
      BeginTrace(c, Project(st), nowMs);
    }
  }

  lemma AnswerProjects(c: Codec, st: State, h: Handled)
    requires Enabled(st, Answer(h))
    ensures var st' := Apply(c, st, Answer(h));
      if ProdHead(st) then Enabled(Project(st), Answer(h)) && Apply(c, Project(st), Answer(h)) == Project(st')
      else Project(st') == Project(st)
  {
    var k, nowMs := st.batch[0], st.stage.nowMs;
    EffectsProject(st.trace, WriteOf(c, k, HeadVerdict(c, st, nowMs), h), k.stream);
    if ProdHead(st) { assert HeadVerdict(c, Project(st), nowMs) == HeadVerdict(c, st, nowMs); }
  }

  lemma ProdSetShrinks(unacked: set<Key>, k: Key)
    ensures ProdSet(unacked - {k}) == if k.stream == Prod then ProdSet(unacked) - {k} else ProdSet(unacked)
  {
  }

  lemma ProdDoneLast(done: seq<Processed>, p: Processed)
    ensures ProdDone(done + [p]) == if p.key.stream == Prod then ProdDone(done) + [p] else ProdDone(done)
  {
    assert (done + [p])[..|done|] == done;
  }

  // An acknowledgement, given the entry finished and the ones left.
  function Finished(st: State, p: Processed, rest: seq<Key>): State {
    st.(stage := Ready, batch := rest, unacked := st.unacked - {p.key},
        trace := st.trace + [Acked(p.key)], done := st.done + [p])
  }

  lemma FinishedProjects(st: State, p: Processed, rest: seq<Key>)
    ensures Project(Finished(st, p, rest)) ==
      if p.key.stream == Prod then Finished(Project(st), p, ProdKeys(rest))
      else Project(st).(stage := Ready, batch := ProdKeys(rest))
  {
    EffectsProject(st.trace, [Acked(p.key)], p.key.stream);
    ProdSetShrinks(st.unacked, p.key);
    ProdDoneLast(st.done, p);
  }

  lemma ProdKeysFirst(ks: seq<Key>)
    requires ks != []
    ensures var ps, rest := ProdKeys(ks), ProdKeys(ks[1..]);
      if ks[0].stream == Prod then ps != [] && ps[0] == ks[0] && ps[1..] == rest else ps == rest
  {
  }

  lemma AckProjects(c: Codec, st: State)
    requires Enabled(st, Ack)
    ensures var st' := Apply(c, st, Ack);
      if ProdHead(st) then Enabled(Project(st), Ack) && Apply(c, Project(st), Ack) == Project(st')
      else Project(st') == Project(st)
  {
    FinishedProjects(st, Processed(st.batch[0], st.stage.nowMs, st.stage.handled), st.batch[1..]);
    ProdKeysFirst(st.batch);
  }

  // A step is mirrored by the projected run or invisible to it.
  lemma StepProjects(c: Codec, st: State, step: Step)
    requires Enabled(st, step) && Accounted(st)
    ensures var p, st' := ProjectStep(st, step), Apply(c, st, step);
      if p.Some? then Enabled(Project(st), p.value) && Apply(c, Project(st), p.value) == Project(st')
      else Project(st') == Project(st)
  {
    match step {
      case Append(_, _) =>
      case Read(n) => ReadProjects(c, st, n);
      case Recreate(lost) => assert st.unacked == {};
      case Begin(nowMs) => BeginProjects(c, st, nowMs);
      case Answer(h) => AnswerProjects(c, st, h);
      case Ack => AckProjects(c, st);
    }
  }

  // ---- Noninterference ----

  // The connection commands handed over so far all came from the production stream.
  ghost predicate FromProd(trace: seq<Effect>) {
    forall i | 0 <= i < |trace| && CommandOf(trace[i]) != [] :: trace[i].key.stream == Prod
  }

  lemma StepFromProd(c: Codec, st: State, step: Step)
    requires Enabled(st, step) && FromProd(st.trace)
    ensures FromProd(Apply(c, st, step).trace)
  {
    if step.Begin? {
      var k, v := st.batch[0], HeadVerdict(c, st, step.nowMs);
      if CommandOf(Began(k, v)) != [] {
        OnlyProdHandlesConnectionOps(c, FieldsOf(st.logs, k), k.stream, step.nowMs);
      }
    }
  }

  lemma {:induction false} CommandsOfProd(trace: seq<Effect>)
    requires FromProd(trace)
    ensures Commands(ProdEffects(trace)) == Commands(trace)
  {
    if trace != [] {
      var most, last := trace[..|trace| - 1], trace[|trace| - 1];
      assert forall i | 0 <= i < |most| :: most[i] == trace[i];
      CommandsOfProd(most);
      CommandsConcat(ProdEffects(most), [last]);
      CommandsOne(last);
    }
  }

  // No entry is ever added to an environment stream.
  ghost predicate ProdOnly(steps: seq<Step>) {
    forall i | 0 <= i < |steps| && steps[i].Append? :: steps[i].stream == Prod
  }

  lemma PathFirst(c: Codec, st: State, step: Step, steps: seq<Step>, st': State)
    requires Enabled(st, step) && Path(c, Apply(c, st, step), steps, st')
    ensures Path(c, st, [step] + steps, st')
  {
    assert ([step] + steps)[1..] == steps;
  }

  lemma {:induction false} PathFromProd(c: Codec, st: State, steps: seq<Step>, st': State)
    requires FromProd(st.trace) && Path(c, st, steps, st')
    ensures FromProd(st'.trace)
    decreases |steps|
  {
    if steps != [] {
      StepFromProd(c, st, steps[0]);
      PathFromProd(c, Apply(c, st, steps[0]), steps[1..], st');
    }
  }

  lemma {:induction false} PathProjects(c: Codec, st: State, steps: seq<Step>, st': State) returns (prod: seq<Step>)
    requires Accounted(st) && Path(c, st, steps, st')
    ensures ProdOnly(prod) && Path(c, Project(st), prod, Project(st'))
    decreases |steps|
  {
    prod := [];
    if steps != [] {
      var next, p := Apply(c, st, steps[0]), ProjectStep(st, steps[0]);
      AccountedStep(c, st, steps[0]);
      StepProjects(c, st, steps[0]);
      prod := PathProjects(c, next, steps[1..], st');
      if p.Some? {
        PathFirst(c, Project(st), p.value, prod, Project(st'));
        prod := [p.value] + prod;
      }
    }
  }

  // For every run there is one with every entry of the environment streams deleted, the production
  // entries judged at the same times, in which exactly the same connection commands reach the handler.
  lemma Noninterference(c: Codec, st0: State, steps: seq<Step>, st: State) returns (prod: seq<Step>)
    requires Initial(st0) && Path(c, st0, steps, st)
    ensures Initial(Project(st0)) && ProdOnly(prod) && Path(c, Project(st0), prod, Project(st))
    ensures Project(st0).logs.dev == [] && Project(st0).logs.stg == []
    ensures Commands(Project(st).trace) == Commands(st.trace)
  {
    InitialKeeps(c, st0);
    prod := PathProjects(c, st0, steps, st);
    PathFromProd(c, st0, steps, st);
    CommandsOfProd(st.trace);
  }

  lemma InitialKeeps(c: Codec, st0: State)
    requires Initial(st0)
    ensures Sound(st0) && Sequential(c, st0) && Accounted(st0)
  {
    assert Path(c, st0, [], st0);
    RunKeeps(c, st0, [], st0);
  }
}
