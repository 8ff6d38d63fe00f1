/**
 * The capped merge told from the two lists alone: which symbols it takes, in which order, and when it leaves
 * one out.
 */
module CappedMerge {
  import opened Common
  import opened OnDemand
  import opened Sorting

  // The symbols the entries stand for; blank entries stand for none.
  ghost function Symbols(key: Key, s: seq<string>): set<string> {
    set raw | raw in s && key(raw) != "" :: key(raw)
  }

  // Where the first entry stands that stands for x; |s| if none does.
  function FirstAt(key: Key, s: seq<string>, x: string): (i: nat)
    ensures i <= |s|
    ensures i < |s| ==> key(s[i]) == x
    ensures forall j | 0 <= j < i :: key(s[j]) != x
  {
    if s == [] || key(s[0]) == x then 0 else FirstAt(key, s[1..], x) + 1
  }

  lemma {:induction false} NormIsSymbols(key: Key, s: seq<string>)
    ensures forall x :: x in NormAll(key, s) <==> x in Symbols(key, s)
  {
    if s != [] {
      var most, last := s[..|s| - 1], s[|s| - 1];
      NormIsSymbols(key, most);
      assert s == most + [last];
      assert forall raw :: raw in s <==> raw in most || raw == last;
    }
  }

  lemma {:induction false} NormConcat(key: Key, a: seq<string>, b: seq<string>)
    ensures NormAll(key, a + b) == NormAll(key, a) + NormAll(key, b)
  {
    if b == [] {
      assert a + b == a;
    } else {
      assert (a + b)[..|a + b| - 1] == a + b[..|b| - 1];
      NormConcat(key, a, b[..|b| - 1]);
    }
  }

  lemma FirstOfPrefix(key: Key, most: seq<string>, last: string, x: string)
    ensures FirstAt(key, most + [last], x) ==
      if FirstAt(key, most, x) < |most| then FirstAt(key, most, x) else if key(last) == x then |most| else |most| + 1
  {
    var s := most + [last];
    var i, j := FirstAt(key, most, x), FirstAt(key, s, x);
    assert forall k | 0 <= k < |most| :: s[k] == most[k];
    assert s[|most|] == last;
  }

  lemma Occurs(key: Key, s: seq<string>, x: string)
    requires x in Dedup(NormAll(key, s))
    ensures FirstAt(key, s, x) < |s|
  {
    DedupIsSet(NormAll(key, s));
    NormIsSymbols(key, s);
    assert x in Symbols(key, s);
  }

  lemma OccursNot(key: Key, s: seq<string>, x: string)
    requires x != "" && x !in Dedup(NormAll(key, s))
    ensures FirstAt(key, s, x) == |s|
  {
    DedupIsSet(NormAll(key, s));
    NormIsSymbols(key, s);
    assert x !in Symbols(key, s);
  }

  // The deduplicated symbols stand in the order of their first entries.
  lemma {:induction false} DedupInOrder(key: Key, s: seq<string>, p: nat, q: nat)
    requires p < q < |Dedup(NormAll(key, s))|
    ensures var d := Dedup(NormAll(key, s)); FirstAt(key, s, d[p]) < FirstAt(key, s, d[q])
  {
    var most, last := s[..|s| - 1], s[|s| - 1];
    var d, before, k := Dedup(NormAll(key, s)), Dedup(NormAll(key, most)), key(last);
    assert s == most + [last];
    if k != "" { DedupLast(NormAll(key, most), k); }
    assert d == before || d == before + [k];
    FirstOfPrefix(key, most, last, d[p]);
    FirstOfPrefix(key, most, last, d[q]);
    Occurs(key, most, before[p]);
    if q < |before| {
      Occurs(key, most, before[q]);
      DedupInOrder(key, most, p, q);
    } else {
      OccursNot(key, most, k);
    }
  }

  lemma {:induction false} DistinctSize(s: seq<string>)
    requires Distinct(s)
    ensures |Elems(s)| == |s|
  {
    if s != [] {
      var most, last := s[..|s| - 1], s[|s| - 1];
      DistinctSize(most);
      assert s == most + [last];
      assert Elems(s) == Elems(most) + {last} && last !in Elems(most);
    }
  }

  lemma DedupSymbols(key: Key, s: seq<string>)
    ensures Elems(Dedup(NormAll(key, s))) == Symbols(key, s)
    ensures |Dedup(NormAll(key, s))| == |Symbols(key, s)|
  {
    DedupIsSet(NormAll(key, s));
    NormIsSymbols(key, s);
    assert Elems(Dedup(NormAll(key, s))) == Symbols(key, s);
    DistinctSize(Dedup(NormAll(key, s)));
  }

  // The merge is a prefix of all symbols in the order of their first entries.
  lemma DesiredIsPrefix(key: Key, watchlist: seq<string>, onDemand: seq<string>, maxStream: int)
    ensures var all := Dedup(NormAll(key, watchlist + onDemand));
      && Desired(key, watchlist, onDemand, maxStream) <= all
      && Elems(all) == Symbols(key, watchlist + onDemand) && |all| == |Elems(all)|
      && |Symbols(key, watchlist)| <= |all|
      && |Desired(key, watchlist, onDemand, maxStream)| ==
           Min(|all|, Max(Max(1, maxStream), |Symbols(key, watchlist)|))
      && (Truncated(key, watchlist, onDemand, maxStream) <==>
            |all| > Max(Max(1, maxStream), |Symbols(key, watchlist)|))
  {
    NormConcat(key, watchlist, onDemand);
    DedupSymbols(key, watchlist + onDemand);
    DedupSymbols(key, watchlist);
    DedupExtends(NormAll(key, watchlist), NormAll(key, onDemand));
  }

  // No more than that: the first symbols of both lists, as many as the cap allows or the watchlist has.
  lemma MergeSize(key: Key, watchlist: seq<string>, onDemand: seq<string>, maxStream: int)
    ensures |Desired(key, watchlist, onDemand, maxStream)| ==
            Min(|Symbols(key, watchlist + onDemand)|, Max(Max(1, maxStream), |Symbols(key, watchlist)|))
    ensures Truncated(key, watchlist, onDemand, maxStream) <==>
            |Symbols(key, watchlist + onDemand)| > Max(Max(1, maxStream), |Symbols(key, watchlist)|)
  {
    DesiredIsPrefix(key, watchlist, onDemand, maxStream);
  }

  // A symbol is left out only if the result is full already; when all distinct symbols fit under the cap they
  // are all there and nothing is truncated.
  lemma LeftOutOnlyIfFull(key: Key, watchlist: seq<string>, onDemand: seq<string>, maxStream: int)
    ensures var desired, all := Desired(key, watchlist, onDemand, maxStream), Symbols(key, watchlist + onDemand);
      && (forall x | x in all && x !in desired :: |desired| >= Max(1, maxStream))
      && (|all| <= Max(1, maxStream) ==>
            Elems(desired) == all && !Truncated(key, watchlist, onDemand, maxStream))
  {
    var desired, all := Desired(key, watchlist, onDemand, maxStream), Dedup(NormAll(key, watchlist + onDemand));
    DesiredIsPrefix(key, watchlist, onDemand, maxStream);
    if |desired| == |all| {
      assert desired == all;
    }
  }

  // The symbols taken come first in the two lists, and stand in that order.
  lemma MergeTakesTheFirst(key: Key, watchlist: seq<string>, onDemand: seq<string>, maxStream: int)
    ensures var desired, all := Desired(key, watchlist, onDemand, maxStream), watchlist + onDemand;
      && (forall x | x in desired :: FirstAt(key, all, x) < |all|)
      && (forall p, q | 0 <= p < q < |desired| :: FirstAt(key, all, desired[p]) < FirstAt(key, all, desired[q]))
      && (forall x, y | x in Symbols(key, all) && x !in desired && y in desired ::
            FirstAt(key, all, y) < FirstAt(key, all, x))
  {
    var desired, all := Desired(key, watchlist, onDemand, maxStream), watchlist + onDemand;
    var d := Dedup(NormAll(key, all));
    DesiredIsPrefix(key, watchlist, onDemand, maxStream);
    forall x | x in desired ensures FirstAt(key, all, x) < |all| { Occurs(key, all, x); }
    forall p, q | 0 <= p < q < |desired| ensures FirstAt(key, all, desired[p]) < FirstAt(key, all, desired[q]) {
      DedupInOrder(key, all, p, q);
    }
    forall x, y | x in Symbols(key, all) && x !in desired && y in desired
      ensures FirstAt(key, all, y) < FirstAt(key, all, x)
    {
      assert x in Elems(d);
      var p :| 0 <= p < |desired| && desired[p] == y;
      var q :| 0 <= q < |d| && d[q] == x;
      assert q >= |desired|;
      DedupInOrder(key, all, p, q);
    }
  }
}
