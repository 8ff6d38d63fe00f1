/**
 * _reconcile_host_market_data: make the streams open on the host session equal the desired symbols by
 * cancelling and requesting only the difference.
 */
module Reconcile {
  import opened Common
  import opened OnDemand

  // ib_insync knows a stream by the contract object it was requested with; contracts are numbered.
  datatype Call = Cancel(symbol: string, contract: nat) | Request(symbol: string, contract: nat)

  // `open` is the session's truth, `tickers` the gateway's table.
  datatype Book = Book(tickers: map<string, nat>, open: map<nat, string>, next: nat)

  // Every contract ever made has a number below `next`, and no two tickers share one.
  ghost predicate Numbered(b: Book) {
    && (forall s | s in b.tickers :: b.tickers[s] < b.next)
    && (forall c | c in b.open :: c < b.next)
    && (forall s, t | s in b.tickers && t in b.tickers && s != t :: b.tickers[s] != b.tickers[t])
  }

  // The table is exactly what is streaming.
  ghost predicate Ledger(b: Book) {
    && (forall s | s in b.tickers :: b.tickers[s] in b.open && b.open[b.tickers[s]] == s)
    && (forall c | c in b.open :: b.open[c] in b.tickers && b.tickers[b.open[c]] == c)
  }

  // Symbol s is streaming on the session under the contract the table holds.
  predicate Streaming(b: Book, s: string) {
    s in b.tickers && b.tickers[s] in b.open
  }

  // ---- One pass as a function ----

  function Drop(b: Book, s: string, fails: bool): Book
    requires s in b.tickers
  {
    b.(tickers := b.tickers - {s}, open := if fails then b.open else b.open - {b.tickers[s]})
  }

  function AfterCancels(b: Book, wanted: set<string>, fails: set<string>): Book {
    var gone := set s | s in b.tickers && s !in wanted && s !in fails :: b.tickers[s];
    b.(tickers := map s | s in b.tickers && s in wanted :: b.tickers[s], open := b.open - gone)
  }

  function Ask(b: Book, s: string, fails: bool): Book {
    if s in b.tickers then b
    else if fails then b.(next := b.next + 1)
    else Book(b.tickers[s := b.next], b.open[b.next := s], b.next + 1)
  }

  function AfterRequests(b: Book, desired: seq<string>, fails: set<string>): Book {
    if desired == [] then b
    else
      var last := desired[|desired| - 1];
      Ask(AfterRequests(b, desired[..|desired| - 1], fails), last, last in fails)
  }

  // The reqMktData calls of a pass, failed ones included.
  function Requests(b: Book, desired: seq<string>, fails: set<string>): seq<Call> {
    if desired == [] then []
    else
      var most, last := desired[..|desired| - 1], desired[|desired| - 1];
      var b' := AfterRequests(b, most, fails);
      Requests(b, most, fails) + if last in b'.tickers then [] else [Request(last, b'.next)]
  }

  function AfterPass(b: Book, desired: seq<string>, cancelFails: set<string>, reqFails: set<string>): Book {
    AfterRequests(AfterCancels(b, Elems(desired), cancelFails), desired, reqFails)
  }

  lemma DropOneMore(b: Book, wanted: set<string>, todo: set<string>, fails: set<string>, s: string)
    requires s in todo && s in b.tickers && s !in wanted
    ensures var before := AfterCancels(b, wanted + todo, fails);
      s in before.tickers && before.tickers[s] == b.tickers[s]
      && AfterCancels(b, wanted + (todo - {s}), fails) == Drop(before, s, s in fails)
  {
    var before, after := AfterCancels(b, wanted + todo, fails), AfterCancels(b, wanted + (todo - {s}), fails);
    assert after.tickers == before.tickers - {s};
    assert after.open == Drop(before, s, s in fails).open;
  }

  lemma DropNone(b: Book, wanted: set<string>, fails: set<string>)
    ensures AfterCancels(b, wanted + (b.tickers.Keys - wanted), fails) == b
  {
    assert AfterCancels(b, wanted + (b.tickers.Keys - wanted), fails).tickers == b.tickers;
  }

  // cs cancels each symbol the pass drops, once, under its own contract.
  ghost predicate CancelsExactly(cs: seq<Call>, tickers: map<string, nat>, wanted: set<string>) {
    && (forall i | 0 <= i < |cs| ::
          && cs[i].Cancel? && cs[i].symbol in tickers && cs[i].symbol !in wanted
          && cs[i].contract == tickers[cs[i].symbol])
    && (forall s | s in tickers && s !in wanted :: Cancel(s, tickers[s]) in cs)
    && (forall i, j | 0 <= i < j < |cs| :: cs[i] != cs[j])
  }

  lemma CancelOneMore(cs: seq<Call>, tickers: map<string, nat>, wanted: set<string>, todo: set<string>, s: string)
    requires CancelsExactly(cs, tickers, wanted + todo)
    requires s in todo && s in tickers && s !in wanted
    ensures CancelsExactly(cs + [Cancel(s, tickers[s])], tickers, wanted + (todo - {s}))
  {
    var cs', c := cs + [Cancel(s, tickers[s])], Cancel(s, tickers[s]);
    assert forall x | x in cs :: x in cs';
    assert c in cs';
    assert forall i | 0 <= i < |cs| :: cs'[i] == cs[i] && cs[i] != c;
  }

  class MarketData {
    var tickers: map<string, nat>
    var open: map<nat, string>
    var next: nat
    var lastReconcileAt: real
    var subscriptions: set<string>    // what set_subscriptions last published, by symbol
    var calls: seq<Call>              // every IB call made

    constructor ()
      ensures Contents() == Book(map[], map[], 0) && calls == [] && lastReconcileAt == 0.0
    {
      tickers, open, next, lastReconcileAt, subscriptions, calls := map[], map[], 0, 0.0, {}, [];
    }

    function Contents(): Book
      reads this
    {
      Book(tickers, open, next)
    }

    method CancelUndesired(wanted: set<string>, fails: set<string>) returns (cs: seq<Call>)
      modifies this`tickers, this`open
      ensures Contents() == AfterCancels(old(Contents()), wanted, fails)
      ensures CancelsExactly(cs, old(tickers), wanted)
    {
      cs := [];
      var todo := tickers.Keys - wanted;
      DropNone(Contents(), wanted, fails);
      while todo != {}
        invariant todo <= old(tickers).Keys - wanted
        invariant Contents() == AfterCancels(old(Contents()), wanted + todo, fails)
        invariant CancelsExactly(cs, old(tickers), wanted + todo)
        decreases todo
      {
        var s :| s in todo;
        var contract := tickers[s];
        DropOneMore(old(Contents()), wanted, todo, fails, s);
        CancelOneMore(cs, old(tickers), wanted, todo, s);
        tickers := tickers - {s};
        cs := cs + [Cancel(s, contract)];
        if s !in fails { open := open - {contract}; }
        todo := todo - {s};
      }
    }

    method RequestMissing(desired: seq<string>, fails: set<string>) returns (rs: seq<Call>)
      modifies this`tickers, this`open, this`next
      ensures Contents() == AfterRequests(old(Contents()), desired, fails)
      ensures rs == Requests(old(Contents()), desired, fails)
    {
      rs := [];
      var i := 0;
      while i < |desired|
        invariant 0 <= i <= |desired|
        invariant Contents() == AfterRequests(old(Contents()), desired[..i], fails)
        invariant rs == Requests(old(Contents()), desired[..i], fails)
      {
        assert desired[..i + 1][..i] == desired[..i];
        var sym := desired[i];
        if sym !in tickers {
          rs := rs + [Request(sym, next)];
          if sym !in fails {
            tickers := tickers[sym := next];
            open := open[next := sym];
          }
          next := next + 1;
        }
        i := i + 1;
      }
      assert desired[..|desired|] == desired;
    }

    // One pass of the market loop; `wantedNow` is what the registry and watchlist call for.
    method ReconcileHost(key: Key, watchlist: seq<string>, registry: Registry, maxAge: real, maxStream: int,
                         period: real, now: real, io: Io, cancelFails: set<string>, reqFails: set<string>)
      returns (ran: bool, ghost onDemand: seq<string>)
      modifies this, registry
      ensures ran == !(old(tickers) != map[] && now - old(lastReconcileAt) < period)
      ensures !ran ==> Contents() == old(Contents()) && calls == old(calls) && subscriptions == old(subscriptions)
                       && registry.Contents() == old(registry.Contents()) && lastReconcileAt == old(lastReconcileAt)
      ensures ran ==> lastReconcileAt == now
      ensures ran ==> registry.Contents() == Pruned(registry.key, old(registry.Contents()), io, maxAge, now)
      ensures ran ==> forall k :: k in onDemand <==>
          io.smembers && k in FreshKeys(registry.key, old(registry.Contents()), io, maxAge, now)
      ensures ran ==> var desired := Desired(key, watchlist, onDemand, maxStream);
        && subscriptions == Elems(desired)
        && Contents() == AfterPass(old(Contents()), desired, cancelFails, reqFails)
        && exists cs :: CancelsExactly(cs, old(tickers), Elems(desired))
             && calls == old(calls) + cs
                  + Requests(AfterCancels(old(Contents()), Elems(desired), cancelFails), desired, reqFails)
    {
      onDemand := [];
      if tickers != map[] && now - lastReconcileAt < period { return false, []; }
      lastReconcileAt := now;
      var listing := registry.ListFresh(maxAge, now, io);
      onDemand := listing;
      var desired, _ := BuildDesired(key, watchlist, listing, maxStream);
      var cs := CancelUndesired(Elems(desired), cancelFails);
      var rs := RequestMissing(desired, reqFails);
      calls := calls + cs + rs;
      subscriptions := Elems(desired);
      ran := true;
    }
  }

  // ---- What a pass achieves ----

  // What asking can do to a book.
  ghost predicate Grown(b: Book, b': Book) {
    && Numbered(b') && b.next <= b'.next
    && (forall s | s in b.tickers :: s in b'.tickers && b'.tickers[s] == b.tickers[s])
    && (forall c | c in b.open :: c in b'.open && b'.open[c] == b.open[c])
    && (forall c | c in b'.open && c !in b.open ::
          b.next <= c && b'.open[c] in b'.tickers && b'.tickers[b'.open[c]] == c)
    && (forall s | s in b'.tickers && s !in b.tickers ::
          b.next <= b'.tickers[s] && b'.tickers[s] in b'.open && b'.open[b'.tickers[s]] == s)
  }

  lemma {:induction false} RequestsGrow(b: Book, desired: seq<string>, fails: set<string>)
    requires Numbered(b)
    ensures Grown(b, AfterRequests(b, desired, fails))
  {
    if desired != [] {
      var most, last := desired[..|desired| - 1], desired[|desired| - 1];
      var b1 := AfterRequests(b, most, fails);
      RequestsGrow(b, most, fails);
      AskGrows(b1, last, last in fails);
      GrownTrans(b, b1, Ask(b1, last, last in fails));
    }
  }

  lemma AskGrows(b: Book, s: string, fails: bool)
    requires Numbered(b)
    ensures Grown(b, Ask(b, s, fails))
  {
  }

  lemma GrownTrans(a: Book, b: Book, c: Book)
    requires Grown(a, b) && Grown(b, c)
    ensures Grown(a, c)
  {
  }

  lemma {:induction false} RequestsHold(b: Book, desired: seq<string>, fails: set<string>)
    ensures AfterRequests(b, desired, fails).tickers.Keys == b.tickers.Keys + (Elems(desired) - fails)
  {
    if desired != [] {
      var most, last := desired[..|desired| - 1], desired[|desired| - 1];
      RequestsHold(b, most, fails);
      assert Elems(desired) == Elems(most) + {last};
    }
  }

  lemma RequestsEffect(b: Book, desired: seq<string>, fails: set<string>)
    requires Numbered(b)
    ensures Grown(b, AfterRequests(b, desired, fails))
    ensures AfterRequests(b, desired, fails).tickers.Keys == b.tickers.Keys + (Elems(desired) - fails)
  {
    RequestsGrow(b, desired, fails);
    RequestsHold(b, desired, fails);
  }

  lemma CancelsEffect(b: Book, wanted: set<string>, fails: set<string>)
    requires Numbered(b)
    ensures var b' := AfterCancels(b, wanted, fails);
      && Numbered(b') && b'.next == b.next
      && (forall c :: c in b'.open <==>
            c in b.open && !exists s | s in b.tickers :: s !in wanted && s !in fails && b.tickers[s] == c)
      && (Ledger(b) ==> (Ledger(b') <==> forall s | s in b.tickers && s in fails :: s in wanted))
  {
    var b' := AfterCancels(b, wanted, fails);
    if Ledger(b) && Ledger(b') {
      forall s | s in b.tickers && s in fails ensures s in wanted {
        var c := b.tickers[s];
        assert b.open[c] == s;
        assert c in b'.open ==> s in b'.tickers;
      }
    }
  }

  // Asking mends nothing: what is open outside the table, or in the table and not open, stays so.
  lemma GrownKeepsLedgerIff(b: Book, b': Book)
    requires Numbered(b) && Grown(b, b')
    ensures Ledger(b') <==> Ledger(b)
  {
    if Ledger(b') {
      forall s | s in b.tickers ensures b.tickers[s] in b.open && b.open[b.tickers[s]] == s {
        assert b'.tickers[s] == b.tickers[s];
      }
      forall c | c in b.open ensures b.open[c] in b.tickers && b.tickers[b.open[c]] == c {
        assert b'.open[c] == b.open[c];
      }
    }
  }

  lemma LedgerStreams(b: Book)
    requires Ledger(b)
    ensures b.open.Values == b.tickers.Keys
  {
    forall s | s in b.tickers ensures s in b.open.Values { assert b.open[b.tickers[s]] == s; }
  }

  // After a pass from a matching table the table matches again exactly if every cancel it made worked.
  lemma PassKeepsLedgerIff(b: Book, desired: seq<string>, cancelFails: set<string>, reqFails: set<string>)
    requires Numbered(b)
    ensures var b' := AfterPass(b, desired, cancelFails, reqFails);
      && Numbered(b')
      && (Ledger(b) ==> (Ledger(b') <==> forall s | s in b.tickers && s in cancelFails :: s in desired))
  {
    var d := Elems(desired);
    var b1 := AfterCancels(b, d, cancelFails);
    CancelsEffect(b, d, cancelFails);
    RequestsGrow(b1, desired, reqFails);
    if Ledger(b) { GrownKeepsLedgerIff(b1, AfterRequests(b1, desired, reqFails)); }
  }

  lemma PassKeepsWanted(b: Book, desired: seq<string>, reqFails: set<string>, s: string)
    requires Numbered(b) && s in b.tickers && s in desired
    ensures var b' := AfterPass(b, desired, {}, reqFails); s in b'.tickers && b'.tickers[s] == b.tickers[s]
  {
    CancelsEffect(b, Elems(desired), {});
    RequestsGrow(AfterCancels(b, Elems(desired), {}), desired, reqFails);
  }

  // From a table that matches the session, with no IB call failing, one pass makes the table, the open
  // streams and the desired symbols the same, and leaves every stream that was already wanted alone.
  lemma CleanPass(b: Book, desired: seq<string>)
    requires Numbered(b) && Ledger(b)
    ensures var b' := AfterPass(b, desired, {}, {});
      && Numbered(b') && Ledger(b')
      && b'.tickers.Keys == Elems(desired)
      && b'.open.Values == Elems(desired)
      && (forall s | s in b.tickers && s in desired :: b'.tickers[s] == b.tickers[s])
  {
    var b' := AfterPass(b, desired, {}, {});
    PassKeepsLedgerIff(b, desired, {}, {});
    RequestsHold(AfterCancels(b, Elems(desired), {}), desired, {});
    LedgerStreams(b');
    forall s | s in b.tickers && s in desired ensures b'.tickers[s] == b.tickers[s] {
      PassKeepsWanted(b, desired, {}, s);
    }
  }

  // The symbols a pass asks IB for.
  function Asked(calls: seq<Call>): set<string> { set c | c in calls && c.Request? :: c.symbol }

  lemma AskedOneMore(calls: seq<Call>, s: string, contract: nat)
    ensures Asked(calls + [Request(s, contract)]) == Asked(calls) + {s}
  {
    assert forall c :: c in calls + [Request(s, contract)] <==> c in calls || c == Request(s, contract);
  }

  lemma {:induction false} RequestsAskMissing(b: Book, desired: seq<string>, fails: set<string>)
    ensures Asked(Requests(b, desired, fails)) == Elems(desired) - b.tickers.Keys
  {
    if desired != [] {
      var most, last := desired[..|desired| - 1], desired[|desired| - 1];
      RequestsAskMissing(b, most, fails);
      RequestsHold(b, most, fails);
      var b' := AfterRequests(b, most, fails);
      var rs := Requests(b, most, fails);
      AskedOneMore(rs, last, b'.next);
      assert rs + [] == rs;
      assert Elems(desired) == Elems(most) + {last};
    }
  }

  // A pass asks for exactly desired minus held; what fails is what is missing afterwards.
  lemma PassAsksMissing(b: Book, desired: seq<string>, cancelFails: set<string>, reqFails: set<string>)
    requires Numbered(b)
    ensures var d, b' := Elems(desired), AfterPass(b, desired, cancelFails, reqFails);
      && Asked(Requests(AfterCancels(b, d, cancelFails), desired, reqFails)) == d - b.tickers.Keys
      && Numbered(b') && b'.tickers.Keys == d - (reqFails - b.tickers.Keys)
  {
    var d, b0 := Elems(desired), AfterCancels(b, Elems(desired), cancelFails);
    CancelsEffect(b, d, cancelFails);
    RequestsAskMissing(b0, desired, reqFails);
    RequestsEffect(b0, desired, reqFails);
  }

  // The next pass with the same desired symbols cancels nothing and asks for exactly the failed ones.
  lemma FailedRequestsAreRetried(b: Book, desired: seq<string>, cancelFails: set<string>, reqFails: set<string>,
                                 nextFails: set<string>)
    requires Numbered(b)
    ensures var d, b' := Elems(desired), AfterPass(b, desired, cancelFails, reqFails);
      && AfterCancels(b', d, {}) == b'
      && Asked(Requests(b', desired, nextFails)) == (d - b.tickers.Keys) * reqFails
  {
    var d, b' := Elems(desired), AfterPass(b, desired, cancelFails, reqFails);
    PassAsksMissing(b, desired, cancelFails, reqFails);
    RequestsAskMissing(b', desired, nextFails);
    NothingToCancel(b', d);
  }

  lemma NothingToCancel(b: Book, wanted: set<string>)
    requires b.tickers.Keys <= wanted
    ensures AfterCancels(b, wanted, {}) == b
  {
    assert AfterCancels(b, wanted, {}).tickers == b.tickers;
    assert AfterCancels(b, wanted, {}).open == b.open;
  }

  // Without the ledger a pass can leave wanted symbols silent: a ticker surviving from an earlier
  // session is never requested again. Every desired symbol ends up streaming exactly when every wanted
  // ticker already held was streaming before the pass and no request failed.
  lemma AllStreamingIff(b: Book, desired: seq<string>, cancelFails: set<string>, reqFails: set<string>)
    requires Numbered(b)
    ensures (forall s | s in desired :: Streaming(AfterPass(b, desired, cancelFails, reqFails), s))
       <==> (forall s | s in desired :: if s in b.tickers then Streaming(b, s) else s !in reqFails)
  {
    var d := Elems(desired);
    var b1, b' := AfterCancels(b, d, cancelFails), AfterPass(b, desired, cancelFails, reqFails);
    CancelsEffect(b, d, cancelFails);
    RequestsEffect(b1, desired, reqFails);
    forall s | s in desired
      ensures Streaming(b', s) <==> if s in b.tickers then Streaming(b, s) else s !in reqFails
    {
      if s in b.tickers { assert b'.tickers[s] == b1.tickers[s] == b.tickers[s]; }
    }
  }

  // Every symbol in the table after a pass is a watchlist symbol or was fresh on demand.
  lemma StreamsAreWatchedOrFresh(key: Key, watchlist: seq<string>, onDemand: seq<string>, maxStream: int, st: Stored,
                                 io: Io, maxAge: real, now: real, b: Book, cancelFails: set<string>,
                                 reqFails: set<string>, s: string)
    requires forall raw :: key(key(raw)) == key(raw)
    requires forall k | k in onDemand :: k in FreshKeys(key, st, io, maxAge, now)
    requires s in AfterPass(b, Desired(key, watchlist, onDemand, maxStream), cancelFails, reqFails).tickers
    ensures s in NormAll(key, watchlist) || s in FreshKeys(key, st, io, maxAge, now)
  {
    var desired := Desired(key, watchlist, onDemand, maxStream);
    RequestsHold(AfterCancels(b, Elems(desired), cancelFails), desired, reqFails);
    DesiredFacts(key, watchlist, onDemand, maxStream);
    if s in NormAll(key, onDemand) {
      var raw := NormOrigin(key, onDemand, s);
      var k :| k in st.members && key(k) == raw;
      assert key(key(k)) == key(k);
    }
  }

  // ---- Whole runs ----

  datatype Move =
    | Pass(desired: seq<string>, cancelFails: set<string>, reqFails: set<string>)
    | LoseSession     // the market loop finds the host session dead and clears the table
    | LoseUnseen      // it dies, or another task finds it dead, unseen by the loop: the table keeps its tickers
    | ClearTable      // another slot is a ghost, or a soft reconnect begins: the session lives on

  function Next(b: Book, m: Move): Book {
    match m
    case Pass(desired, cancelFails, reqFails) => AfterPass(b, desired, cancelFails, reqFails)
    case LoseSession => b.(tickers := map[], open := map[])
    case LoseUnseen => b.(open := map[])
    case ClearTable => b.(tickers := map[])
  }

  function After(moves: seq<Move>): Book {
    if moves == [] then Book(map[], map[], 0) else Next(After(moves[..|moves| - 1]), moves[|moves| - 1])
  }

  lemma {:induction false} RunsAreNumbered(moves: seq<Move>)
    ensures Numbered(After(moves))
  {
    if moves != [] {
      RunsAreNumbered(moves[..|moves| - 1]);
      NextKeepsLedgerIff(After(moves[..|moves| - 1]), moves[|moves| - 1]);
    }
  }

  // The move leaves a matching table matching.
  ghost predicate Harmless(b: Book, m: Move) {
    match m
    case Pass(desired, cancelFails, _) => forall s | s in b.tickers && s in cancelFails :: s in desired
    case LoseSession => true
    case LoseUnseen => b.tickers == map[]
    case ClearTable => b.tickers == map[]
  }

  lemma NextKeepsLedgerIff(b: Book, m: Move)
    requires Numbered(b)
    ensures Numbered(Next(b, m))
    ensures Ledger(b) ==> (Ledger(Next(b, m)) <==> Harmless(b, m))
  {
    match m {
      case Pass(desired, cancelFails, reqFails) => PassKeepsLedgerIff(b, desired, cancelFails, reqFails);
      case LoseSession =>
      case LoseUnseen => if b.tickers != map[] { var s :| s in b.tickers; }
      case ClearTable =>
        if Ledger(b) && b.tickers != map[] {
          var s :| s in b.tickers;
          assert b.tickers[s] in Next(b, m).open;
        }
    }
  }

  lemma AfterNext(moves: seq<Move>, k: nat)
    requires k < |moves|
    ensures After(moves[..k + 1]) == Next(After(moves[..k]), moves[k])
    ensures Ledger(After(moves[..k])) ==> (Ledger(After(moves[..k + 1])) <==> Harmless(After(moves[..k]), moves[k]))
  {
    assert moves[..k + 1][..k] == moves[..k] && moves[..k + 1][k] == moves[k];
    RunsAreNumbered(moves[..k]);
    NextKeepsLedgerIff(After(moves[..k]), moves[k]);
  }

  lemma {:induction false} HarmlessKeepsLedger(moves: seq<Move>, k: nat)
    requires k <= |moves|
    requires forall j | 0 <= j < k :: Harmless(After(moves[..j]), moves[j])
    ensures Ledger(After(moves[..k]))
  {
    if k == 0 {
      assert moves[..0] == [];
    } else {
      HarmlessKeepsLedger(moves, k - 1);
      AfterNext(moves, k - 1);
    }
  }

  // Table and streams agree after every move of a run exactly when no cancel of it failed, and nothing was
  // in the table whenever the session was lost unseen or the table was cleared on a living session.
  lemma RunsKeepLedgerIff(moves: seq<Move>)
    ensures (forall k | 0 <= k <= |moves| :: Ledger(After(moves[..k])))
       <==> (forall k | 0 <= k < |moves| :: Harmless(After(moves[..k]), moves[k]))
  {
    if forall k | 0 <= k <= |moves| :: Ledger(After(moves[..k])) {
      forall k | 0 <= k < |moves| ensures Harmless(After(moves[..k]), moves[k]) { AfterNext(moves, k); }
    }
    if forall k | 0 <= k < |moves| :: Harmless(After(moves[..k]), moves[k]) {
      forall k | 0 <= k <= |moves| ensures Ledger(After(moves[..k])) { HarmlessKeepsLedger(moves, k); }
    }
  }

  // The run behind AllStreamingIff: a stream lost unseen is requested again by no later pass, as long
  // as its symbol stays desired.
  lemma {:induction false} LostStreamStaysLost(moves: seq<Move>, later: seq<Move>, s: string)
    requires s in After(moves).tickers && !Streaming(After(moves), s)
    requires forall i | 0 <= i < |later| :: later[i].Pass? && s in later[i].desired
    ensures s in After(moves + later).tickers && !Streaming(After(moves + later), s)
    decreases |later|
  {
    if later == [] {
      assert moves + later == moves;
    } else {
      var most, m := later[..|later| - 1], later[|later| - 1];
      LostStreamStaysLost(moves, most, s);
      RunsAreNumbered(moves + most);
      assert (moves + later)[..|moves + later| - 1] == moves + most;
      PassLeavesLost(After(moves + most), m.desired, m.cancelFails, m.reqFails, s);
    }
  }

  lemma PassLeavesLost(b: Book, desired: seq<string>, cancelFails: set<string>, reqFails: set<string>, s: string)
    requires Numbered(b) && s in b.tickers && !Streaming(b, s) && s in desired
    ensures var b' := AfterPass(b, desired, cancelFails, reqFails); s in b'.tickers && !Streaming(b', s)
  {
    CancelsEffect(b, Elems(desired), cancelFails);
    RequestsGrow(AfterCancels(b, Elems(desired), cancelFails), desired, reqFails);
  }

  // Such a run exists for every symbol.
  lemma StreamsCanBeLost(s: string)
    ensures var b := After([Pass([s], {}, {}), LoseUnseen]); s in b.tickers && !Streaming(b, s)
  {
    FirstPass(s);
    assert [Pass([s], {}, {}), LoseUnseen][..1] == [Pass([s], {}, {})];
  }

  // A stream open on the session under a contract the table does not hold.
  predicate Orphan(b: Book, c: nat) {
    c in b.open && forall s | s in b.tickers :: b.tickers[s] != c
  }

  // An orphan is closed by no later pass, nor by clearing the table: only losing the session ends it.
  lemma {:induction false} OrphanStaysOpen(moves: seq<Move>, later: seq<Move>, c: nat)
    requires Orphan(After(moves), c)
    requires forall i | 0 <= i < |later| :: later[i].Pass? || later[i].ClearTable?
    ensures Orphan(After(moves + later), c) && After(moves + later).open[c] == After(moves).open[c]
    decreases |later|
  {
    if later == [] {
      assert moves + later == moves;
    } else {
      var most, m := later[..|later| - 1], later[|later| - 1];
      OrphanStaysOpen(moves, most, c);
      RunsAreNumbered(moves + most);
      assert (moves + later)[..|moves + later| - 1] == moves + most;
      if m.Pass? { PassLeavesOrphan(After(moves + most), m.desired, m.cancelFails, m.reqFails, c); }
    }
  }

  lemma PassLeavesOrphan(b: Book, desired: seq<string>, cancelFails: set<string>, reqFails: set<string>, c: nat)
    requires Numbered(b) && Orphan(b, c)
    ensures var b' := AfterPass(b, desired, cancelFails, reqFails); Orphan(b', c) && b'.open[c] == b.open[c]
  {
    var b1 := AfterCancels(b, Elems(desired), cancelFails);
    CancelsEffect(b, Elems(desired), cancelFails);
    RequestsGrow(b1, desired, reqFails);
    assert c in b1.open && c < b1.next;
  }

  // A run that ends with one symbol streaming twice on one session, the table knowing one of the two.
  lemma ClearingLeaksAStream(s: string)
    ensures var b := After([Pass([s], {}, {}), ClearTable, Pass([s], {}, {})]);
      b.tickers == map[s := 1] && b.open == map[0 := s, 1 := s] && Orphan(b, 0) && !Ledger(b)
  {
    var p := Pass([s], {}, {});
    FirstPass(s);
    assert [p, ClearTable, p][..2] == [p, ClearTable] && [p, ClearTable][..1] == [p];
    var b := After([p, ClearTable]);
    assert b == Book(map[], map[0 := s], 1);
    PassOfOne(b, s);
  }

  lemma FirstPass(s: string)
    ensures After([Pass([s], {}, {})]) == Book(map[s := 0], map[0 := s], 1)
  {
    assert [Pass([s], {}, {})][..0] == [];
    PassOfOne(Book(map[], map[], 0), s);
  }

  lemma PassOfOne(b: Book, s: string)
    requires b.tickers == map[]
    ensures AfterPass(b, [s], {}, {}) == Book(map[s := b.next], b.open[b.next := s], b.next + 1)
  {
    NothingToCancel(b, Elems([s]));
    assert [s][..0] == [];
    assert AfterRequests(b, [], {}) == b;
    assert AfterRequests(b, [s], {}) == Ask(b, s, false);
  }
}
