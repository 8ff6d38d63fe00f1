/** Option contract keys: SYMBOL|OPT|YYYYMMDD|STRIKE|RIGHT, and their registration. */
module OptKey {
  import opened Common
  import Text
  import OnDemand

  datatype Contract = Contract(symbol: string, expiry: string, strike: real, right: string)

  // float() on text; None where Python raises.
  type Number = string -> Option<real>

  // The five fields, once split and stripped.
  function FromFields(num: Number, sym: string, sec: string, expiry: string, strike: string, right: string)
    : Option<Contract>
  {
    if sym == "" || sec != "OPT" || expiry == "" || right !in ["C", "P"] then None
    else if !Text.AllDigits(expiry) || |expiry| < 6 then None
    else if num(strike).None? then None
    else Some(Contract(sym, expiry, num(strike).value, right))
  }

  function Parse(num: Number, raw: string): Option<Contract> {
    if |Text.Split(Text.Strip(raw), '|')| != 5 then None
    else
      var f := Fields(raw);
      FromFields(num, f.0, f.1, f.2, f.3, f.4)
  }

  function Print(sym: string, expiry: string, strike: string, right: string): string {
    Text.Join([sym, "OPT", expiry, strike, right], '|')
  }

  // The text the gateway registers: the strike keeps its input spelling.
  function Canonical(num: Number, raw: string): Option<string> {
    var c := Parse(num, raw);
    if c.None? then None
    else Some(Print(c.value.symbol, c.value.expiry, Fields(raw).3, c.value.right))
  }

  lemma {:induction false} LStripKeeps(s: string, c: char)
    ensures c in Text.LStrip(s) ==> c in s
  {
    if s != "" && Text.IsSpace(s[0]) { LStripKeeps(s[1..], c); }
  }

  lemma {:induction false} RStripKeeps(s: string, c: char)
    ensures c in Text.RStrip(s) ==> c in s
  {
    if s != "" && Text.IsSpace(s[|s| - 1]) { RStripKeeps(s[..|s| - 1], c); }
  }

  lemma StripKeeps(s: string, c: char)
    ensures c in Text.Strip(s) ==> c in s
    ensures c == '|' ==> (c in Text.Norm(s) ==> c in s)
  {
    LStripKeeps(s, c);
    RStripKeeps(Text.LStrip(s), c);
    var t := Text.Strip(s);
    if c == '|' && c in Text.Norm(s) {
      var i :| 0 <= i < |t| && Text.Norm(s)[i] == c;
      assert t[i] == c;
    }
  }

  lemma NormOfConstants()
    ensures Text.Norm("OPT") == "OPT" && Text.Norm("C") == "C" && Text.Norm("P") == "P"
  {
    assert Text.Upper("OPT") == "OPT" && Text.Upper("C") == "C" && Text.Upper("P") == "P";
    assert Text.IsStripped("OPT") && Text.IsStripped("C") && Text.IsStripped("P");
  }

  // The fields of a printed key, once split and stripped.
  function Fields(p: string): (string, string, string, string, string)
    requires |Text.Split(Text.Strip(p), '|')| == 5
  {
    var parts := Text.Split(Text.Strip(p), '|');
    (Text.Norm(parts[0]), Text.Norm(parts[1]), Text.Strip(parts[2]), Text.Strip(parts[3]), Text.Norm(parts[4]))
  }

  lemma FieldsFromSplit(p: string, parts: seq<string>)
    requires Text.Strip(p) == p && Text.Split(p, '|') == parts && |parts| == 5
    requires Text.Norm(parts[0]) == parts[0] && Text.Norm(parts[1]) == parts[1] && Text.Norm(parts[4]) == parts[4]
    requires Text.Strip(parts[2]) == parts[2] && Text.Strip(parts[3]) == parts[3]
    ensures Fields(p) == (parts[0], parts[1], parts[2], parts[3], parts[4])
  {
  }

  // Fields that are already clean print and split back to themselves.
  lemma FieldsOfPrint(sym: string, expiry: string, strike: string, right: string) returns (p: string)
    requires sym != "" && right in ["C", "P"]
    requires '|' !in sym && '|' !in expiry && '|' !in strike
    requires Text.Norm(sym) == sym && Text.Strip(expiry) == expiry && Text.Strip(strike) == strike
    ensures p == Print(sym, expiry, strike, right) && p != ""
    ensures Text.Strip(p) == p && |Text.Split(Text.Strip(p), '|')| == 5
    ensures Fields(p) == (sym, "OPT", expiry, strike, right)
  {
    var parts := [sym, "OPT", expiry, strike, right];
    p := Text.Join(parts, '|');
    assert Text.IsStripped(sym);
    Text.SplitOfJoin(parts, '|');
    Text.JoinIsStripped(parts, '|');
    NormOfConstants();
    FieldsFromSplit(p, parts);
  }

  // What Fields returns is clean.
  lemma FieldsAreClean(raw: string)
    requires |Text.Split(Text.Strip(raw), '|')| == 5
    ensures var f := Fields(raw);
      && '|' !in f.0 && '|' !in f.2 && '|' !in f.3
      && Text.Norm(f.0) == f.0 && Text.Strip(f.2) == f.2 && Text.Strip(f.3) == f.3
  {
    var parts := Text.Split(Text.Strip(raw), '|');
    Text.SplitHasNoSeparator(Text.Strip(raw), '|', 0);
    Text.SplitHasNoSeparator(Text.Strip(raw), '|', 2);
    Text.SplitHasNoSeparator(Text.Strip(raw), '|', 3);
    StripKeeps(parts[0], '|');
    StripKeeps(parts[2], '|');
    StripKeeps(parts[3], '|');
    Text.NormIdempotent(parts[0]);
  }

  // Exactly which keys parse, and to what: five fields between bars, of which the second says OPT, the third
  // has at least six digits and nothing else, the fourth reads as a number and the last says C or P.
  lemma ParsesIff(num: Number, raw: string)
    ensures var parts := Text.Split(Text.Strip(raw), '|');
      Parse(num, raw).Some? <==>
        && |parts| == 5
        && Text.Norm(parts[0]) != "" && Text.Norm(parts[1]) == "OPT"
        && (var e := Text.Strip(parts[2]); |e| >= 6 && forall i | 0 <= i < |e| :: '0' <= e[i] <= '9')
        && num(Text.Strip(parts[3])).Some?
        && (Text.Norm(parts[4]) == "C" || Text.Norm(parts[4]) == "P")
    ensures Parse(num, raw).Some? ==>
      var parts, c := Text.Split(Text.Strip(raw), '|'), Parse(num, raw).value;
      && c.symbol == Text.Norm(parts[0]) && c.expiry == Text.Strip(parts[2])
      && num(Text.Strip(parts[3])) == Some(c.strike) && c.right == Text.Norm(parts[4])
  {
  }

  // For every key that parses: its canonical text parses to the same contract, is its own canonical
  // text, and is what a listing reads back.
  lemma RoundTrip(num: Number, raw: string)
    requires Parse(num, raw).Some?
    ensures var c := Canonical(num, raw);
      && c.Some?
      && Parse(num, c.value) == Parse(num, raw)
      && Canonical(num, c.value) == c
      && Text.Strip(c.value) == c.value && c.value != ""
  {
    FieldsAreClean(raw);
    var f := Fields(raw);
    var p := FieldsOfPrint(f.0, f.2, f.3, f.4);
  }

  // Different contracts never share a canonical text.
  lemma CanonicalIsInjective(num: Number, a: string, b: string)
    ensures Canonical(num, a).Some? && Canonical(num, a) == Canonical(num, b) ==> Parse(num, a) == Parse(num, b)
  {
    if Canonical(num, a).Some? && Canonical(num, a) == Canonical(num, b) {
      RoundTrip(num, a);
      RoundTrip(num, b);
    }
  }

  // What canon makes of the entries it accepts, in order.
  function Collect(canon: string -> Option<string>, raws: seq<string>): seq<string> {
    if raws == [] then []
    else
      var most, last := Collect(canon, raws[..|raws| - 1]), canon(raws[|raws| - 1]);
      if last.None? then most else most + [last.value]
  }

  lemma {:induction false} CollectIff(canon: string -> Option<string>, raws: seq<string>, k: string)
    ensures k in Collect(canon, raws) <==> exists raw | raw in raws :: canon(raw) == Some(k)
  {
    if raws != [] {
      var most, last := raws[..|raws| - 1], raws[|raws| - 1];
      CollectIff(canon, most, k);
      assert raws == most + [last];
      assert forall raw :: raw in raws <==> raw in most || raw == last;
    }
  }

  // The canonical texts of the keys that parse.
  function CanonicalAll(num: Number, raws: seq<string>): seq<string> {
    Collect(raw => Canonical(num, raw), raws)
  }

  // Exactly those.
  lemma CanonicalAllIff(num: Number, raws: seq<string>, k: string)
    ensures k in CanonicalAll(num, raws) <==> exists raw | raw in raws :: Canonical(num, raw) == Some(k)
  {
    var canon := raw => Canonical(num, raw);
    CollectIff(canon, raws, k);
    assert forall raw :: canon(raw) == Canonical(num, raw);
  }

  // _register_on_demand_opt
  method RegisterOnDemandOpt(num: Number, registry: OnDemand.Registry, raws: seq<string>, ts: real, redisOk: bool)
    modifies registry
    ensures registry.Contents() ==
      if redisOk then OnDemand.Registered(old(registry.Contents()), CanonicalAll(num, raws), ts)
      else old(registry.Contents())
  {
    var valid: seq<string> := [];
    var i := 0;
    while i < |raws|
      invariant 0 <= i <= |raws| && valid == CanonicalAll(num, raws[..i])
    {
      assert raws[..i + 1][..i] == raws[..i];
      var c := Canonical(num, raws[i]);
      if c.Some? { valid := valid + [c.value]; }
      i := i + 1;
    }
    assert raws[..|raws|] == raws;
    if valid == [] {
      NothingRegistered(registry.Contents(), ts);
      return;
    }
    if redisOk { registry.Register(valid, ts); }
  }

  lemma NothingRegistered(st: OnDemand.Stored, ts: real)
    ensures OnDemand.Registered(st, [], ts) == st
  {
    var st' := OnDemand.Registered(st, [], ts);
    assert st'.members == st.members && st'.beats == st.beats;
  }

  // A key that parses, registered by the RPC, is among the keys the refresh that follows lists.
  lemma RegisteredKeyIsListed(num: Number, st: OnDemand.Stored, raws: seq<string>, raw: string,
                              ts: real, maxAge: real, now: real)
    requires raw in raws && Parse(num, raw).Some?
    requires 0.0 < ts && now - ts <= maxAge
    ensures Canonical(num, raw).Some?
    ensures var st' := OnDemand.Registered(st, CanonicalAll(num, raws), ts);
      Canonical(num, raw).value in OnDemand.FreshKeys(Text.Strip, st', OnDemand.ALL_WELL, maxAge, now)
  {
    RoundTrip(num, raw);
    CanonicalAllIff(num, raws, Canonical(num, raw).value);
    OnDemand.RegisteredIsFresh(Text.Strip, st, CanonicalAll(num, raws), Canonical(num, raw).value, ts, maxAge, now);
  }
}
