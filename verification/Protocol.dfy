/** protocol.py: the operator commands, who may send them, and their results. */
module Protocol {
  import opened Common

  const READ_ONLY_OPS: seq<string> := [
    "fetch_bars", "fetch_option_expirations", "fetch_option_snapshot", "refresh_option_cache",
    "fetch_executions", "fetch_accounts_snapshot", "ping"]

  const PROD_ONLY_OPS: seq<string> := ["disconnect_all", "reconnect_all"]

  const ALL_OPS: seq<string> := [
    "fetch_bars", "fetch_option_expirations", "fetch_option_snapshot", "refresh_option_cache",
    "fetch_executions", "fetch_accounts_snapshot", "ping", "disconnect_all", "reconnect_all"]

  const PROTOCOL_VERSION := "1"

  const MAX_RESULT_BYTES: nat := 512000

  datatype Stream = Prod | Dev | Stg

  // How a payload reads as JSON.
  datatype Json = Dict(text: string) | NotDict | Malformed

  // How an envelope encodes: its length in bytes, or the encoder's complaint.
  datatype Encoded = Bytes(size: nat) | Unencodable(text: string)

  datatype Envelope = Envelope(ok: bool, error: Option<string>, reqId: string, extra: string)

  // The library calls the protocol relies on.
  datatype Codec = Codec(
    strip: string -> string,
    json: string -> Json,
    int_: string -> Option<int>,
    encode: Envelope -> Encoded)

  datatype Message = Message(reqId: string, op: string, payload: string, caller: string, deadlineMs: Option<int>)

  datatype Parsed = Parsed(msg: Message) | Rejected(error: string)

  type Fields = map<string, string>

  function Field(f: Fields, k: string): string { if k in f then f[k] else "" }

  function Or(s: string, default: string): string { if s == "" then default else s }

  function ParseFields(c: Codec, f: Fields): Parsed {
    var reqId := c.strip(Field(f, "req_id"));
    var ver := Or(c.strip(Or(Field(f, "v"), PROTOCOL_VERSION)), PROTOCOL_VERSION);
    var op := c.strip(Field(f, "op"));
    var payload := c.json(Or(Field(f, "payload"), "{}"));
    var caller := Or(c.strip(Field(f, "caller")), "unknown");
    var dm := Field(f, "deadline_ms");
    if reqId == "" then Rejected("missing_req_id")
    else if ver != PROTOCOL_VERSION then Rejected("unsupported_version:" + ver)
    else if op == "" then Rejected("missing_op")
    else if op !in ALL_OPS then Rejected("unknown_op:" + op)
    else if payload.Malformed? then Rejected("invalid_payload_json")
    else
      var body := if payload.Dict? then payload.text else "{}";
      if c.strip(dm) == "" then Parsed(Message(reqId, op, body, caller, None))
      else if c.int_(dm).None? then Rejected("invalid_deadline_ms")
      else Parsed(Message(reqId, op, body, caller, c.int_(dm)))
  }

  predicate IsExpired(m: Message, nowMs: int) {
    m.deadlineMs.Some? && nowMs > m.deadlineMs.value
  }

  // dumps_result: the error, or None when the envelope can be sent as it is.
  function EncodeError(c: Codec, e: Envelope): Option<string> {
    match c.encode(e)
    case Unencodable(text) => Some("json_encode_error:" + text)
    case Bytes(n) => if n > MAX_RESULT_BYTES then Some("result_too_large") else None
  }

  predicate OpAllowedOnStream(op: string, s: Stream) {
    s == Prod || op in READ_ONLY_OPS
  }

  // Every op is in exactly one of the two allowlists.
  lemma AllowlistsPartition(op: string)
    ensures op in ALL_OPS <==> op in READ_ONLY_OPS || op in PROD_ONLY_OPS
    ensures !(op in READ_ONLY_OPS && op in PROD_ONLY_OPS)
  {
    if op in ALL_OPS {
      var i :| 0 <= i < |ALL_OPS| && ALL_OPS[i] == op;
      if i < 7 { assert READ_ONLY_OPS[i] == op; } else { assert PROD_ONLY_OPS[i - 7] == op; }
    }
    if op in READ_ONLY_OPS {
      var i :| 0 <= i < |READ_ONLY_OPS| && READ_ONLY_OPS[i] == op;
      assert ALL_OPS[i] == op;
    }
    if op in PROD_ONLY_OPS {
      var i :| 0 <= i < 2 && PROD_ONLY_OPS[i] == op;
      assert ALL_OPS[7 + i] == op;
    }
    NoOpInBoth(op);
  }

  // Only the production ops end in "_all".
  lemma NoOpInBoth(op: string)
    ensures op in READ_ONLY_OPS ==> op !in PROD_ONLY_OPS
  {
    forall i, j | 0 <= i < 7 && 0 <= j < 2 ensures READ_ONLY_OPS[i] != PROD_ONLY_OPS[j] {
      var a, b := READ_ONLY_OPS[i], PROD_ONLY_OPS[j];
      assert b[|b| - 4] == '_';
      assert |a| < 5 || a[|a| - 4] != '_';
    }
  }

  lemma ParsedOpIsKnown(c: Codec, f: Fields)
    ensures ParseFields(c, f).Parsed? ==> ParseFields(c, f).msg.op in ALL_OPS && ParseFields(c, f).msg.reqId != ""
  {
  }
}
