/** Account rows per slot, and their merge across slots into one snapshot. */
module Snapshot {
  import opened Common
  import opened Sorting

  datatype Position = Position(account: string, detail: int)

  // `positions` is None when reqPositions failed: not an empty book.
  datatype Row = Row(accountId: string, summaryOk: bool, positions: Option<seq<Position>>)

  // ---- fetch_accounts_snapshot_rows ----

  function Held(all: seq<Position>, account: string): seq<Position> {
    if all == [] then []
    else Held(all[..|all| - 1], account) + if all[|all| - 1].account == account then [all[|all| - 1]] else []
  }

  function RowFor(account: string, summaryOk: bool, all: Option<seq<Position>>): Row {
    Row(account, summaryOk, if all.Some? then Some(Held(all.value, account)) else None)
  }

  // [p for p in all_positions if p.account == account]
  method Filter(all: seq<Position>, account: string) returns (out: seq<Position>)
    ensures out == Held(all, account)
  {
    out := [];
    var i := 0;
    while i < |all|
      invariant 0 <= i <= |all| && out == Held(all[..i], account)
    {
      assert all[..i + 1][..i] == all[..i];
      if all[i].account == account { out := out + [all[i]]; }
      i := i + 1;
    }
    assert all[..|all|] == all;
  }

  // `summaryOk` says, account by account, whether accountSummary answered.
  method FetchRows(connected: bool, accounts: seq<string>, summaryOk: seq<bool>, all: Option<seq<Position>>)
    returns (rows: seq<Row>)
    requires |summaryOk| == |accounts|
    ensures |rows| == if connected then |accounts| else 0
    ensures forall i | 0 <= i < |rows| :: rows[i] == RowFor(accounts[i], summaryOk[i], all)
    ensures forall i | 0 <= i < |rows| :: rows[i].accountId == accounts[i] && rows[i].summaryOk == summaryOk[i]
    ensures forall i | 0 <= i < |rows| :: rows[i].positions.None? <==> all.None?
  {
    rows := [];
    if !connected { return; }
    var i := 0;
    while i < |accounts|
      invariant 0 <= i <= |accounts| && |rows| == i
      invariant forall j | 0 <= j < i :: rows[j] == RowFor(accounts[j], summaryOk[j], all)
    {
      var positions := None;
      if all.Some? {
        var held := Filter(all.value, accounts[i]);
        positions := Some(held);
      }
      rows := rows + [Row(accounts[i], summaryOk[i], positions)];
      i := i + 1;
    }
  }

  function Managed(all: seq<Position>, accounts: set<string>): seq<Position> {
    if all == [] then []
    else Managed(all[..|all| - 1], accounts) + if all[|all| - 1].account in accounts then [all[|all| - 1]] else []
  }

  // A row tells a failed read from an empty book: positions are missing exactly if the read failed, and
  // otherwise are all the account's own, in the order read.
  lemma RowIs(account: string, summaryOk: bool, all: Option<seq<Position>>)
    ensures var row := RowFor(account, summaryOk, all);
      && row.accountId == account && row.summaryOk == summaryOk
      && (row.positions.None? <==> all.None?)
      && (all.Some? ==> row.positions.value == Held(all.value, account))
  {
  }

  lemma {:induction false} HeldSplits(a: seq<Position>, b: seq<Position>, account: string)
    ensures Held(a + b, account) == Held(a, account) + Held(b, account)
  {
    if b == [] {
      assert a + b == a;
    } else {
      assert (a + b)[..|a + b| - 1] == a + b[..|b| - 1];
      HeldSplits(a, b[..|b| - 1], account);
    }
  }

  lemma HeldParts(a: seq<Position>, p: Position, b: seq<Position>, account: string)
    requires p.account == account
    ensures Held(a + [p] + b, account) == Held(a, account) + [p] + Held(b, account)
  {
    HeldSplits(a + [p], b, account);
    HeldSplits(a, [p], account);
    assert [p][..0] == [] && Held([p], account) == [] + [p];
  }

  // The order is kept: of two positions of the account, the one read first comes first.
  lemma HeldInOrder(a: seq<Position>, p: Position, b: seq<Position>, q: Position, d: seq<Position>, account: string)
    requires p.account == account && q.account == account
    ensures var x, y := Held(a, account), Held(b, account);
      Held(a + [p] + (b + [q] + d), account) == x + [p] + (y + [q] + Held(d, account))
  {
    HeldParts(a, p, b + [q] + d, account);
    HeldParts(b, q, d, account);
  }

  // All positions of the rows of these accounts, row after row.
  function RowPositions(all: seq<Position>, accounts: seq<string>): seq<Position> {
    if accounts == [] then []
    else RowPositions(all, accounts[..|accounts| - 1]) + Held(all, accounts[|accounts| - 1])
  }

  lemma {:induction false} HeldCounts(all: seq<Position>, account: string, p: Position)
    ensures multiset(Held(all, account))[p] == if p.account == account then multiset(all)[p] else 0
  {
    if all != [] {
      HeldCounts(all[..|all| - 1], account, p);
      assert all == all[..|all| - 1] + [all[|all| - 1]];
    }
  }

  lemma {:induction false} ManagedCounts(all: seq<Position>, accounts: set<string>, p: Position)
    ensures multiset(Managed(all, accounts))[p] == if p.account in accounts then multiset(all)[p] else 0
  {
    if all != [] {
      ManagedCounts(all[..|all| - 1], accounts, p);
      assert all == all[..|all| - 1] + [all[|all| - 1]];
    }
  }

  lemma {:induction false} RowPositionsCount(all: seq<Position>, accounts: seq<string>, p: Position)
    requires Distinct(accounts)
    ensures multiset(RowPositions(all, accounts))[p] == if p.account in accounts then multiset(all)[p] else 0
  {
    if accounts != [] {
      var most, last := accounts[..|accounts| - 1], accounts[|accounts| - 1];
      assert accounts == most + [last] && last !in most;
      RowPositionsCount(all, most, p);
      HeldCounts(all, last, p);
    }
  }

  // No position of a managed account is lost, doubled or moved; none of another account appears.
  lemma PositionsConserved(all: seq<Position>, accounts: seq<string>)
    requires Distinct(accounts)
    ensures multiset(RowPositions(all, accounts)) == multiset(Managed(all, (set a | a in accounts)))
  {
    forall p ensures multiset(RowPositions(all, accounts))[p] == multiset(Managed(all, (set a | a in accounts)))[p] {
      RowPositionsCount(all, accounts, p);
      ManagedCounts(all, (set a | a in accounts), p);
    }
  }

  // ---- The merge in _market_loop ----

  // What visiting a slot gives; `rows` is None when the fetch timed out.
  datatype Slot = Slot(name: string, connected: bool, alive: bool, rows: Option<seq<Row>>)

  datatype Entry = Entry(row: Row, slot: string)

  predicate Contributes(s: Slot) {
    s.connected && s.alive && s.rows.Some? && s.rows.value != []
  }

  predicate IsGhost(s: Slot) {
    s.connected && !Contributes(s)
  }

  function Ids(entries: seq<Entry>): set<string> { set e | e in entries :: e.row.accountId }

  function AddRow(entries: seq<Entry>, row: Row, slot: string): seq<Entry> {
    if row.accountId == "" || row.accountId in Ids(entries) then entries else entries + [Entry(row, slot)]
  }

  function AddRows(entries: seq<Entry>, rows: seq<Row>, slot: string): seq<Entry> {
    if rows == [] then entries
    else AddRow(AddRows(entries, rows[..|rows| - 1], slot), rows[|rows| - 1], slot)
  }

  function Merge(slots: seq<Slot>): seq<Entry> {
    if slots == [] then []
    else
      var before, s := Merge(slots[..|slots| - 1]), slots[|slots| - 1];
      if Contributes(s) then AddRows(before, s.rows.value, s.name) else before
  }

  function Ghosts(slots: seq<Slot>): seq<string> {
    if slots == [] then []
    else Ghosts(slots[..|slots| - 1]) + if IsGhost(slots[|slots| - 1]) then [slots[|slots| - 1].name] else []
  }

  method MergeRows(entries: seq<Entry>, seen: set<string>, rows: seq<Row>, slot: string)
    returns (out: seq<Entry>, seen': set<string>)
    requires seen == Ids(entries)
    ensures out == AddRows(entries, rows, slot) && seen' == Ids(out)
  {
    out, seen' := entries, seen;
    var i := 0;
    while i < |rows|
      invariant 0 <= i <= |rows|
      invariant out == AddRows(entries, rows[..i], slot) && seen' == Ids(out)
    {
      assert rows[..i + 1][..i] == rows[..i];
      var id := rows[i].accountId;
      if id != "" && id !in seen' {
        seen' := seen' + {id};
        out := out + [Entry(rows[i], slot)];
      }
      i := i + 1;
    }
    assert rows[..|rows|] == rows;
  }

  // The loop over the slots; `ghosts` are the ones it then disconnects.
  method MergeSlots(slots: seq<Slot>) returns (entries: seq<Entry>, ghosts: seq<string>)
    ensures entries == Merge(slots) && ghosts == Ghosts(slots)
  {
    entries, ghosts := [], [];
    var seen: set<string> := {};
    var i := 0;
    while i < |slots|
      invariant 0 <= i <= |slots|
      invariant entries == Merge(slots[..i]) && ghosts == Ghosts(slots[..i]) && seen == Ids(entries)
    {
      assert slots[..i + 1][..i] == slots[..i];
      var s := slots[i];
      if s.connected {
        if !s.alive || s.rows.None? || s.rows.value == [] {
          ghosts := ghosts + [s.name];
        } else {
          entries, seen := MergeRows(entries, seen, s.rows.value, s.name);
        }
      }
      i := i + 1;
    }
    assert slots[..|slots|] == slots;
  }

  // ---- What the merge promises ----

  // Slots the merge disconnects: connected ones whose session is dead, whose read timed out, or which
  // returned no row; in slot order.
  lemma {:induction false} GhostsAre(slots: seq<Slot>, name: string)
    ensures name in Ghosts(slots) <==>
      exists s | s in slots :: s.name == name && s.connected && (!s.alive || s.rows == None || s.rows == Some([]))
  {
    if slots != [] {
      var most, last := slots[..|slots| - 1], slots[|slots| - 1];
      GhostsAre(most, name);
      assert slots == most + [last];
      assert forall s :: s in slots <==> s in most || s == last;
    }
  }

  // Which accounts the snapshot shows: those of any row of a connected slot with a living session.
  lemma {:induction false} AccountsAre(slots: seq<Slot>, id: string)
    ensures id in Ids(Merge(slots)) <==>
      id != "" && exists s, r | s in slots && s.rows.Some? && r in s.rows.value ::
        s.connected && s.alive && r.accountId == id
  {
    if slots != [] {
      var most, last := slots[..|slots| - 1], slots[|slots| - 1];
      AccountsAre(most, id);
      assert slots == most + [last];
      assert forall s :: s in slots <==> s in most || s == last;
      if Contributes(last) { AddedIds(Merge(most), last.rows.value, last.name, id); }
    }
  }

  lemma {:induction false} AddedIds(entries: seq<Entry>, rows: seq<Row>, slot: string, id: string)
    ensures id in Ids(AddRows(entries, rows, slot)) <==>
      id in Ids(entries) || (id != "" && exists r | r in rows :: r.accountId == id)
  {
    if rows != [] {
      var most, last := rows[..|rows| - 1], rows[|rows| - 1];
      AddedIds(entries, most, slot, id);
      assert rows == most + [last];
      assert forall r :: r in rows <==> r in most || r == last;
      var before := AddRows(entries, most, slot);
      assert forall e :: e in before + [Entry(last, slot)] <==> e in before || e == Entry(last, slot);
    }
  }

  // A slot that can supply an account.
  predicate Offers(s: Slot, id: string) {
    Contributes(s) && exists r | r in s.rows.value :: r.accountId == id
  }

  ghost predicate OncePerAccount(entries: seq<Entry>) {
    forall i, j | 0 <= i < j < |entries| :: entries[i].row.accountId != entries[j].row.accountId
  }

  lemma {:induction false} AddRowsFacts(entries: seq<Entry>, rows: seq<Row>, slot: string)
    requires OncePerAccount(entries)
    ensures var out := AddRows(entries, rows, slot);
      && OncePerAccount(out)
      && (forall e | e in entries :: e in out)
      && (forall e | e in out && e !in entries ::
            e.slot == slot && e.row in rows && e.row.accountId != "" && e.row.accountId !in Ids(entries))
      && (forall r | r in rows && r.accountId != "" :: r.accountId in Ids(out))
  {
    if rows != [] {
      var most, last := rows[..|rows| - 1], rows[|rows| - 1];
      AddRowsFacts(entries, most, slot);
      assert forall r :: r in rows <==> r in most || r == last;
      var mid, out := AddRows(entries, most, slot), AddRows(entries, rows, slot);
      assert forall e | e in mid :: e in out;
      assert out == mid || out == mid + [Entry(last, slot)];
      if out != mid { assert Entry(last, slot) in out; }
    }
  }

  // Every account offered by some contributing slot appears exactly once, under the first slot in
  // configuration order that offers it and with one of that slot's own rows; a ghost supplies nothing.
  lemma {:induction false} MergeFacts(slots: seq<Slot>)
    ensures OncePerAccount(Merge(slots))
    ensures forall e | e in Merge(slots) ::
      e.row.accountId != "" && exists k | 0 <= k < |slots| :: FirstToOffer(slots, k, e)
    ensures forall k, id | 0 <= k < |slots| && id != "" && Offers(slots[k], id) :: id in Ids(Merge(slots))
  {
    if slots != [] {
      var most, s := slots[..|slots| - 1], slots[|slots| - 1];
      MergeFacts(most);
      var before, out := Merge(most), Merge(slots);
      if Contributes(s) { AddRowsFacts(before, s.rows.value, s.name); }
      forall e | e in out
        ensures e.row.accountId != "" && exists k | 0 <= k < |slots| :: FirstToOffer(slots, k, e)
      {
        if e in before {
          var k :| 0 <= k < |most| && FirstToOffer(most, k, e);
          assert FirstToOffer(slots, k, e);
        } else {
          assert FirstToOffer(slots, |most|, e) by {
            assert forall j | 0 <= j < |most| :: slots[j] == most[j];
          }
        }
      }
      forall k, id | 0 <= k < |slots| && id != "" && Offers(slots[k], id)
        ensures id in Ids(out)
      {
        if k < |most| {
          assert Offers(most[k], id);
          assert id in Ids(before);
          var e :| e in before && e.row.accountId == id;
          assert e in out;
        } else {
          var r :| r in s.rows.value && r.accountId == id;
        }
      }
    }
  }

  ghost predicate FirstToOffer(slots: seq<Slot>, k: nat, e: Entry) {
    && k < |slots| && Contributes(slots[k])
    && e.slot == slots[k].name && e.row in slots[k].rows.value
    && forall j | 0 <= j < k :: !Offers(slots[j], e.row.accountId)
  }
}
