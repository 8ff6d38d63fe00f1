/** operator.py: what processing one stream entry does, in which order. */
module Operator {
  import opened Common
  import opened Protocol

  datatype Verdict =
    | BadCommand(error: string)
    | Expired(msg: Message)
    | Refused(msg: Message)
    | Handle(msg: Message)

  function Judge(c: Codec, f: Fields, s: Stream, nowMs: int): Verdict {
    match ParseFields(c, f)
    case Rejected(error) => BadCommand(error)
    case Parsed(m) => JudgeMessage(m, s, nowMs)
  }

  function JudgeMessage(m: Message, s: Stream, nowMs: int): (v: Verdict)
    ensures !v.BadCommand? && v.msg == m
  {
    if IsExpired(m, nowMs) then Expired(m)
    else if !OpAllowedOnStream(m.op, s) then Refused(m)
    else Handle(m)
  }

  // The keys of the handler's reply win over the envelope's own.
  datatype Reply = Reply(ok: Option<bool>, reqId: Option<string>, error: Option<string>, extra: string)

  datatype Handled = Replied(reply: Reply) | Threw(text: string)

  function EnvelopeFor(v: Verdict, h: Handled): Envelope
    requires !v.BadCommand?
  {
    match v
    case Expired(m) => Envelope(false, Some("deadline_expired"), m.reqId, "")
    case Refused(m) => Envelope(false, Some("op_not_allowed_on_stream:" + m.op), m.reqId, "")
    case Handle(m) =>
      match h
      case Replied(r) => Envelope(r.ok.GetOr(false), r.error, r.reqId.GetOr(m.reqId), r.extra)
      case Threw(text) => Envelope(false, Some(text), m.reqId, "")
  }

  // The envelope written: the result, the error that replaces it, or nothing if even that does not fit.
  function Written(c: Codec, e: Envelope, reqId: string): Option<Envelope> {
    var err := EncodeError(c, e);
    if err.None? then Some(e)
    else
      var fallback := Envelope(false, Some(Or(err.value, "encode_failed")), reqId, "");
      if EncodeError(c, fallback).None? then Some(fallback) else None
  }

  // An entry is named by its stream and position; `epoch` counts the group's creations.
  datatype Key = Key(epoch: nat, stream: Stream, index: nat)

  datatype Effect =
    | Began(key: Key, verdict: Verdict)           // Handle: the handler is called
    | Wrote(key: Key, reqId: string, envelope: Envelope)
    | Acked(key: Key)

  function WriteOf(c: Codec, k: Key, v: Verdict, h: Handled): seq<Effect> {
    if v.BadCommand? then []
    else
      var w := Written(c, EnvelopeFor(v, h), v.msg.reqId);
      if w.Some? then [Wrote(k, v.msg.reqId, w.value)] else []
  }

  // Everything processing one entry does, in order.
  function EntryTrace(c: Codec, f: Fields, k: Key, nowMs: int, h: Handled): seq<Effect> {
    var v := Judge(c, f, k.stream, nowMs);
    [Began(k, v)] + WriteOf(c, k, v, h) + [Acked(k)]
  }

  class Consumer {
    const codec: Codec
    var trace: seq<Effect>
    var results: map<string, Envelope>

    constructor (codec: Codec)
      ensures this.codec == codec && trace == [] && results == map[]
    {
      this.codec := codec;
      trace, results := [], map[];
    }

    method Ack(k: Key)
      modifies this`trace
      ensures trace == old(trace) + [Acked(k)]
    {
      trace := trace + [Acked(k)];
    }

    // dumps_result, its fallback, and write_operator_result.
    method Publish(k: Key, reqId: string, e: Envelope)
      modifies this`trace, this`results
      ensures var w := Written(codec, e, reqId);
        && trace == old(trace) + (if w.Some? then [Wrote(k, reqId, w.value)] else [])
        && results == if w.Some? then old(results)[reqId := w.value] else old(results)
    {
      var envelope := e;
      var err := EncodeError(codec, envelope);
      var raw := err.None?;
      if !raw {
        envelope := Envelope(false, Some(Or(err.value, "encode_failed")), reqId, "");
        raw := EncodeError(codec, envelope).None?;
      }
      if raw {
        trace := trace + [Wrote(k, reqId, envelope)];
        results := results[reqId := envelope];
      }
    }

    // A well-formed command up to its envelope; `h` is what the handler answers if it is called.
    method Respond(msg: Message, k: Key, nowMs: int, h: Handled) returns (envelope: Envelope)
      modifies this`trace
      ensures var v := JudgeMessage(msg, k.stream, nowMs);
        trace == old(trace) + [Began(k, v)] && envelope == EnvelopeFor(v, h)
    {
      if IsExpired(msg, nowMs) {
        trace := trace + [Began(k, Expired(msg))];
        envelope := Envelope(false, Some("deadline_expired"), msg.reqId, "");
      } else if !OpAllowedOnStream(msg.op, k.stream) {
        trace := trace + [Began(k, Refused(msg))];
        envelope := Envelope(false, Some("op_not_allowed_on_stream:" + msg.op), msg.reqId, "");
      } else {
        trace := trace + [Began(k, Handle(msg))];
        match h {
          case Replied(r) => envelope := Envelope(r.ok.GetOr(false), r.error, r.reqId.GetOr(msg.reqId), r.extra);
          case Threw(text) => envelope := Envelope(false, Some(text), msg.reqId, "");
        }
      }
    }

    method ProcessEntry(f: Fields, k: Key, nowMs: int, h: Handled)
      modifies this
      ensures trace == old(trace) + EntryTrace(codec, f, k, nowMs, h)
      ensures var ws := WriteOf(codec, k, Judge(codec, f, k.stream, nowMs), h);
              results == if ws == [] then old(results) else old(results)[ws[0].reqId := ws[0].envelope]
    {
      var parsed := ParseFields(codec, f);
      if parsed.Rejected? {
        trace := trace + [Began(k, BadCommand(parsed.error))];
        Ack(k);
        return;
      }
      var envelope := Respond(parsed.msg, k, nowMs, h);
      Publish(k, parsed.msg.reqId, envelope);
      Ack(k);
    }
  }

  // The error envelope that replaces a result which cannot be sent.
  function Fallback(c: Codec, v: Verdict, h: Handled): Envelope
    requires !v.BadCommand?
  {
    Envelope(false, Some(Or(EncodeError(c, EnvelopeFor(v, h)).GetOr(""), "encode_failed")), v.msg.reqId, "")
  }

  // A well-formed command gets a result exactly when its envelope or its error envelope fits; the result
  // is stored under the command's req_id and names it unless the handler's own reply names another.
  lemma ResultIff(c: Codec, k: Key, v: Verdict, h: Handled)
    requires !v.BadCommand?
    ensures var ws := WriteOf(c, k, v, h);
      && |ws| <= 1
      && (|ws| == 1 <==> EncodeError(c, EnvelopeFor(v, h)).None? || EncodeError(c, Fallback(c, v, h)).None?)
      && (|ws| == 1 ==> ws[0].Wrote? && ws[0].key == k && ws[0].reqId == v.msg.reqId)
      && (|ws| == 1 && !(v.Handle? && h.Replied? && h.reply.reqId.Some?) ==> ws[0].envelope.reqId == v.msg.reqId)
  {
  }

  // The connection ops reach the handler from the production stream only.
  lemma OnlyProdHandlesConnectionOps(c: Codec, f: Fields, s: Stream, nowMs: int)
    requires Judge(c, f, s, nowMs).Handle? && Judge(c, f, s, nowMs).msg.op in PROD_ONLY_OPS
    ensures s == Prod
  {
    AllowlistsPartition(Judge(c, f, s, nowMs).msg.op);
  }
}
