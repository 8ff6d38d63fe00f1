/**
 * What becomes of each stream entry, told from its fields, its stream and the time it is judged: which
 * commands are well-formed, which of them reach the handler, and what is stored for each.
 */
module OperatorOutcomes {
  import opened Common
  import opened Operator
  import opened OperatorRuns
  import opened Protocol

  // A command's fields are in order: request id, version 1, a known op, JSON, and a deadline that reads as a
  // number if there is one.
  predicate WellFormed(c: Codec, f: Fields) {
    && "req_id" in f && c.strip(f["req_id"]) != ""
    && (!("v" in f) || f["v"] == "" || c.strip(f["v"]) == "" || c.strip(f["v"]) == "1")
    && "op" in f && c.strip(f["op"]) in ALL_OPS && c.strip(f["op"]) != ""
    && !c.json(if "payload" in f && f["payload"] != "" then f["payload"] else "{}").Malformed?
    && ("deadline_ms" in f && c.strip(f["deadline_ms"]) != "" ==> c.int_(f["deadline_ms"]).Some?)
  }

  // Library facts the version test relies on.
  predicate StripsPlainly(c: Codec) {
    c.strip("") == "" && c.strip("1") == "1"
  }

  // Exactly which entries are well-formed, and what a well-formed one says.
  lemma WellFormedIff(c: Codec, f: Fields)
    requires StripsPlainly(c)
    ensures ParseFields(c, f).Parsed? <==> WellFormed(c, f)
    ensures WellFormed(c, f) ==> var m := ParseFields(c, f).msg;
      && m.reqId == c.strip(f["req_id"]) && m.op == c.strip(f["op"])
      && (var j := c.json(if "payload" in f && f["payload"] != "" then f["payload"] else "{}");
          m.payload == if j.Dict? then j.text else "{}")
      && (m.caller == if "caller" in f && f["caller"] != "" && c.strip(f["caller"]) != "" then c.strip(f["caller"])
                      else "unknown")
      && m.deadlineMs == (if "deadline_ms" in f && c.strip(f["deadline_ms"]) != "" then c.int_(f["deadline_ms"])
                          else None)
  {
  }

  // The deadline has passed when the entry is judged.
  predicate Late(m: Message, nowMs: int) {
    m.deadlineMs != None && m.deadlineMs.value < nowMs
  }

  // What is decided about entry f of stream s judged at nowMs.
  predicate Decided(c: Codec, f: Fields, s: Stream, nowMs: int, v: Verdict) {
    match ParseFields(c, f)
    case Rejected(_) => v.BadCommand?
    case Parsed(m) =>
      if Late(m, nowMs) then v == Expired(m)
      else if s == Prod || m.op !in ["disconnect_all", "reconnect_all"] then v == Handle(m)
      else v == Refused(m)
  }

  lemma JudgeDecides(c: Codec, f: Fields, s: Stream, nowMs: int)
    ensures Decided(c, f, s, nowMs, Judge(c, f, s, nowMs))
  {
    if ParseFields(c, f).Parsed? { AllowlistsPartition(ParseFields(c, f).msg.op); }
  }

  // What a verdict is answered with, the handler's reply or exception being h.
  predicate AnsweredWith(v: Verdict, h: Handled, e: Envelope)
    requires !v.BadCommand?
  {
    match v
    case Expired(m) => !e.ok && e.error == Some("deadline_expired") && e.reqId == m.reqId
    case Refused(m) => !e.ok && e.error == Some("op_not_allowed_on_stream:" + m.op) && e.reqId == m.reqId
    case Handle(m) =>
      if h.Threw? then !e.ok && e.error == Some(h.text) && e.reqId == m.reqId
      else
        && (e.ok <==> h.reply.ok == Some(true))
        && e.error == h.reply.error && e.extra == h.reply.extra
        && e.reqId == (if h.reply.reqId.Some? then h.reply.reqId.value else m.reqId)
  }

  // The envelope is too big, or cannot be encoded; error says which.
  predicate CannotSend(c: Codec, e: Envelope, error: string) {
    match c.encode(e)
    case Bytes(n) => n > 512000 && error == "result_too_large"
    case Unencodable(text) => error == "json_encode_error:" + text
  }

  // What is written for a verdict: the answer, the error that replaces an answer which cannot be sent, or
  // nothing if that cannot be sent either.
  ghost predicate WritesAnswer(c: Codec, k: Key, v: Verdict, h: Handled, w: seq<Effect>)
    requires !v.BadCommand?
  {
    exists e: Envelope | AnsweredWith(v, h, e) ::
      || (w == [Wrote(k, v.msg.reqId, e)] && forall error :: !CannotSend(c, e, error))
      || exists error :: ReplacedBy(c, k, v.msg.reqId, e, error, w)
  }

  ghost predicate ReplacedBy(c: Codec, k: Key, reqId: string, e: Envelope, error: string, w: seq<Effect>) {
    var fallback := Envelope(false, Some(error), reqId, "");
    && CannotSend(c, e, error)
    && (w == [Wrote(k, reqId, fallback)] || (w == [] && exists again :: CannotSend(c, fallback, again)))
  }

  lemma SendableIff(c: Codec, e: Envelope)
    ensures EncodeError(c, e).None? <==> forall error :: !CannotSend(c, e, error)
    ensures EncodeError(c, e).Some? ==> CannotSend(c, e, EncodeError(c, e).value) && EncodeError(c, e).value != ""
  {
    if c.encode(e).Unencodable? {
      assert CannotSend(c, e, "json_encode_error:" + c.encode(e).text);
    } else if c.encode(e).size > 512000 {
      assert CannotSend(c, e, "result_too_large");
    }
  }

  lemma WriteAnswers(c: Codec, k: Key, v: Verdict, h: Handled)
    requires !v.BadCommand?
    ensures WritesAnswer(c, k, v, h, WriteOf(c, k, v, h))
  {
    var e := EnvelopeFor(v, h);
    assert AnsweredWith(v, h, e);
    SendableIff(c, e);
    if EncodeError(c, e).Some? {
      var error := EncodeError(c, e).value;
      SendableIff(c, Envelope(false, Some(error), v.msg.reqId, ""));
      assert ReplacedBy(c, k, v.msg.reqId, e, error, WriteOf(c, k, v, h));
    }
  }

  // Everything one entry leads to, in order.
  ghost predicate Outcome(c: Codec, f: Fields, k: Key, nowMs: int, h: Handled, es: seq<Effect>) {
    && |es| >= 2 && es[0].Began? && es[0].key == k && Decided(c, f, k.stream, nowMs, es[0].verdict)
    && es[|es| - 1] == Acked(k)
    && (if es[0].verdict.BadCommand? then |es| == 2 else WritesAnswer(c, k, es[0].verdict, h, es[1..|es| - 1]))
  }

  lemma EntryHasOutcome(c: Codec, f: Fields, k: Key, nowMs: int, h: Handled)
    ensures Outcome(c, f, k, nowMs, h, EntryTrace(c, f, k, nowMs, h))
  {
    var v := Judge(c, f, k.stream, nowMs);
    var w, es := WriteOf(c, k, v, h), EntryTrace(c, f, k, nowMs, h);
    JudgeDecides(c, f, k.stream, nowMs);
    assert es[1..|es| - 1] == w;
    if !v.BadCommand? { WriteAnswers(c, k, v, h); }
  }

  // ---- In runs ----

  // In every run the trace is, entry after entry, the outcomes of the finished entries, and then what the
  // one in hand has led to so far.
  ghost predicate Outcomes(c: Codec, logs: Per<seq<Fields>>, done: seq<Processed>, trace: seq<Effect>)
    decreases |done|
  {
    if done == [] then trace == []
    else
      var p := done[|done| - 1];
      exists before, es :: trace == before + es && Outcomes(c, logs, done[..|done| - 1], before)
                           && Outcome(c, FieldsOf(logs, p.key), p.key, p.nowMs, p.handled, es)
  }

  lemma {:induction false} TraceHasOutcomes(c: Codec, logs: Per<seq<Fields>>, done: seq<Processed>)
    ensures Outcomes(c, logs, done, Trace(c, logs, done))
  {
    if done != [] {
      var p := done[|done| - 1];
      TraceHasOutcomes(c, logs, done[..|done| - 1]);
      EntryHasOutcome(c, FieldsOf(logs, p.key), p.key, p.nowMs, p.handled);
    }
  }

  lemma RunHasOutcomes(c: Codec, st0: State, steps: seq<Step>, st: State)
    returns (finished: seq<Effect>, now: seq<Effect>)
    requires Initial(st0) && Path(c, st0, steps, st)
    ensures st.trace == finished + now && Outcomes(c, st.logs, st.done, finished)
    ensures st.batch == [] || st.stage == Ready ==> now == []
    ensures st.batch != [] && st.stage != Ready ==>
      now != [] && now[0].Began? && now[0].key == st.batch[0]
      && Decided(c, FieldsOf(st.logs, st.batch[0]), st.batch[0].stream, st.stage.nowMs, now[0].verdict)
  {
    RunIsSequential(c, st0, steps, st);
    TraceHasOutcomes(c, st.logs, st.done);
    finished, now := Trace(c, st.logs, st.done), Partial(c, st);
    if st.batch != [] && st.stage != Ready {
      JudgeDecides(c, FieldsOf(st.logs, st.batch[0]), st.batch[0].stream, st.stage.nowMs);
    }
  }

  // The step that judges an entry calls the handler exactly if the entry is well-formed, its deadline, if it
  // has one, is not past, and its stream may send its op.
  lemma HandlerIsCalledIff(c: Codec, st: State, nowMs: int)
    requires Enabled(st, Begin(nowMs))
    ensures var k, p := st.batch[0], ParseFields(c, FieldsOf(st.logs, st.batch[0]));
      Apply(c, st, Begin(nowMs)).stage == Handling(nowMs) <==>
        && p.Parsed?
        && (p.msg.deadlineMs.None? || nowMs <= p.msg.deadlineMs.value)
        && (k.stream == Prod || p.msg.op !in ["disconnect_all", "reconnect_all"])
  {
    JudgeDecides(c, FieldsOf(st.logs, st.batch[0]), st.batch[0].stream, nowMs);
  }
}
