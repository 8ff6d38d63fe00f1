/**
 * fetch_option_quote_one_shot: open a market-data stream, poll it, and close it on every way out,
 * while other tasks open and close streams of their own at each await.
 */
module OneShot {
  import opened Common

  // A stream is open on a session under the contract object that requested it.
  type Stream = (nat, nat)

  // What other tasks do to the open streams.
  datatype Other = Opens(stream: Stream) | Closes(stream: Stream) | SessionGone(session: nat)

  // How an await ends: normally, with an exception, or cancelled by the caller's timeout.
  datatype End = Resumes | Raises | TimesOut

  datatype Tick = Tick(bid: Option<real>, ask: Option<real>, last: Option<real>)

  datatype Quote = Quote(bid: Option<real>, ask: Option<real>, last: Option<real>, mid: Option<real>)

  // One half-second sleep and the ticker read after it.
  datatype Poll = Poll(others: seq<Other>, end: End, tick: Tick)

  // One call as the world scripts it. `session` is host.ib when the call starts.
  datatype Script = Script(
    session: Option<nat>, contract: nat,
    qualifying: seq<Other>, qualified: End, requestOk: bool, polls: seq<Poll>)

  function Touch(open: set<Stream>, o: Other): set<Stream> {
    match o
    case Opens(s) => open + {s}
    case Closes(s) => open - {s}
    case SessionGone(n) => set s | s in open && s.0 != n
  }

  function TouchAll(open: set<Stream>, os: seq<Other>): set<Stream> {
    if os == [] then open else Touch(TouchAll(open, os[..|os| - 1]), os[|os| - 1])
  }

  // Nobody else holds the contract object this call makes.
  predicate Foreign(os: seq<Other>, contract: nat) {
    forall i | 0 <= i < |os| ::
      (os[i].Opens? ==> os[i].stream.1 != contract) && (os[i].Closes? ==> os[i].stream.1 != contract)
  }

  function Positive(x: Option<real>): Option<real> {
    if x.Some? && x.value > 0.0 then x else None
  }

  // What one read of the ticker yields; None when nothing is positive yet.
  function QuoteOf(t: Tick): Option<Quote> {
    var bid, ask, last := Positive(t.bid), Positive(t.ask), Positive(t.last);
    if bid.None? && ask.None? && last.None? then None
    else
      var mid := if bid.Some? && ask.Some? then Some((bid.value + ask.value) / 2.0) else last;
      Some(Quote(bid, ask, last, mid))
  }

  const POLLS: nat := 4

  // How far the polling gets: the number of sleeps begun.
  function PollsBegun(polls: seq<Poll>, i: nat): (n: nat)
    requires i <= |polls|
    ensures i <= n <= |polls|
    decreases |polls| - i
  {
    if i == |polls| then i
    else if !polls[i].end.Resumes? || QuoteOf(polls[i].tick).Some? then i + 1
    else PollsBegun(polls, i + 1)
  }

  function OthersOf(polls: seq<Poll>): seq<Other> {
    if polls == [] then [] else OthersOf(polls[..|polls| - 1]) + polls[|polls| - 1].others
  }

  // Everything other tasks did while the call lasted.
  function Meanwhile(s: Script): seq<Other>
    requires |s.polls| == POLLS
  {
    if s.session.None? then []
    else if !s.qualified.Resumes? || !s.requestOk then s.qualifying
    else s.qualifying + OthersOf(s.polls[..PollsBegun(s.polls, 0)])
  }

  // The quote: the first one any read yields, unless an await ends the call before.
  function Result(s: Script): Option<Quote>
    requires |s.polls| == POLLS
  {
    if s.session.None? || !s.qualified.Resumes? || !s.requestOk then None
    else
      var last := s.polls[PollsBegun(s.polls, 0) - 1];
      if last.end.Resumes? then QuoteOf(last.tick) else None
  }

  // The price is there and above zero.
  predicate Priced(x: Option<real>) { x != None && x.value > 0.0 }

  // What one read shows: nothing while no price is positive; otherwise the positive prices, the middle of
  // bid and ask if both are, and else the last price if it is.
  lemma QuoteIs(t: Tick)
    ensures QuoteOf(t) == None <==> !Priced(t.bid) && !Priced(t.ask) && !Priced(t.last)
    ensures QuoteOf(t) != None ==> var q := QuoteOf(t).value;
      && q.bid == (if Priced(t.bid) then t.bid else None)
      && q.ask == (if Priced(t.ask) then t.ask else None)
      && q.last == (if Priced(t.last) then t.last else None)
      && (Priced(t.bid) && Priced(t.ask) ==> q.mid != None && q.mid.value + q.mid.value == t.bid.value + t.ask.value)
      && (!(Priced(t.bid) && Priced(t.ask)) ==> q.mid == q.last)
  {
  }

  predicate AnyPrice(t: Tick) { Priced(t.bid) || Priced(t.ask) || Priced(t.last) }

  // Poll i is the one the polling ends with.
  predicate EndsAt(polls: seq<Poll>, i: nat)
    requires i < |polls|
  {
    && (forall j | 0 <= j < i :: polls[j].end == Resumes && !AnyPrice(polls[j].tick))
    && (polls[i].end != Resumes || AnyPrice(polls[i].tick) || i == |polls| - 1)
  }

  lemma {:induction false} PollsEnd(polls: seq<Poll>, i: nat)
    requires i < |polls| && forall j | 0 <= j < i :: polls[j].end == Resumes && !AnyPrice(polls[j].tick)
    ensures PollsBegun(polls, i) > i && EndsAt(polls, PollsBegun(polls, i) - 1)
    decreases |polls| - i
  {
    QuoteIs(polls[i].tick);
    if polls[i].end.Resumes? && QuoteOf(polls[i].tick).None? && i + 1 < |polls| { PollsEnd(polls, i + 1); }
  }

  // The quote of a call: with a session, a contract that qualifies and a request that is taken, the one of the
  // first of at most four reads that shows a price, unless an await ends the call before; in all other cases
  // none.
  lemma ResultIs(s: Script)
    requires |s.polls| == 4
    ensures var asked := s.session != None && s.qualified == Resumes && s.requestOk;
      && (!asked ==> Result(s) == None)
      && (asked ==> exists i: nat | i < 4 ::
            EndsAt(s.polls, i) && Result(s) == if s.polls[i].end == Resumes then QuoteOf(s.polls[i].tick) else None)
  {
    if s.session != None && s.qualified == Resumes && s.requestOk { PollsEnd(s.polls, 0); }
  }

  lemma {:induction false} TouchForeign(open: set<Stream>, mine: Stream, os: seq<Other>)
    requires mine !in open && Foreign(os, mine.1)
    ensures TouchAll(open + {mine}, os) - {mine} == TouchAll(open, os)
    ensures mine !in TouchAll(open, os)
  {
    if os != [] {
      var most := os[..|os| - 1];
      assert forall i | 0 <= i < |most| :: most[i] == os[i];
      TouchForeign(open, mine, most);
    }
  }

  lemma {:induction false} TouchConcat(open: set<Stream>, a: seq<Other>, b: seq<Other>)
    ensures TouchAll(open, a + b) == TouchAll(TouchAll(open, a), b)
  {
    if b == [] {
      assert a + b == a;
    } else {
      assert (a + b)[..|a + b| - 1] == a + b[..|b| - 1];
      TouchConcat(open, a, b[..|b| - 1]);
    }
  }

  class Streams {
    var open: set<Stream>

    constructor ()
      ensures open == {}
    {
      open := {};
    }

    // Other tasks run.
    method Yield(os: seq<Other>)
      modifies this
      ensures open == TouchAll(old(open), os)
    {
      open := TouchAll(open, os);
    }

    // The polling loop; the stream is already open.
    method PollTicker(polls: seq<Poll>) returns (quote: Option<Quote>)
      requires |polls| == POLLS
      modifies this
      ensures open == TouchAll(old(open), OthersOf(polls[..PollsBegun(polls, 0)]))
      ensures var last := polls[PollsBegun(polls, 0) - 1];
              quote == if last.end.Resumes? then QuoteOf(last.tick) else None
    {
      quote := None;
      var i := 0;
      while i < |polls|
        invariant 0 <= i <= |polls| && quote == None
        invariant PollsBegun(polls, 0) == PollsBegun(polls, i)
        invariant open == TouchAll(old(open), OthersOf(polls[..i]))
        invariant i > 0 ==> polls[i - 1].end.Resumes? && QuoteOf(polls[i - 1].tick).None?
      {
        assert polls[..i + 1][..i] == polls[..i];
        TouchConcat(old(open), OthersOf(polls[..i]), polls[i].others);
        Yield(polls[i].others);
        if !polls[i].end.Resumes? { return; }
        quote := QuoteOf(polls[i].tick);
        if quote.Some? { return; }
        i := i + 1;
      }
    }

    // The one-shot. Returning, raising or being cancelled at any await, it leaves the open streams as
    // they would be had it never run.
    method FetchOptionQuote(s: Script) returns (quote: Option<Quote>)
      requires |s.polls| == POLLS
      requires Foreign(Meanwhile(s), s.contract)
      requires forall n :: (n, s.contract) !in open
      modifies this
      ensures open == TouchAll(old(open), Meanwhile(s))
      ensures quote == Result(s)
    {
      if s.session.None? { return None; }
      Yield(s.qualifying);
      if !s.qualified.Resumes? || !s.requestOk { return None; }
      var mine := (s.session.value, s.contract);
      var polled := OthersOf(s.polls[..PollsBegun(s.polls, 0)]);
      ForeignParts(s.qualifying, polled, s.contract);
      TouchForeign(old(open), mine, s.qualifying);
      ghost var before := open;
      open := open + {mine};
      quote := PollTicker(s.polls);
      open := open - {mine};
      TouchForeign(before, mine, polled);
      TouchConcat(old(open), s.qualifying, polled);
    }
  }

  lemma ForeignParts(a: seq<Other>, b: seq<Other>, contract: nat)
    requires Foreign(a + b, contract)
    ensures Foreign(a, contract) && Foreign(b, contract)
  {
    assert forall i | 0 <= i < |a| :: (a + b)[i] == a[i];
    assert forall i | 0 <= i < |b| :: (a + b)[|a| + i] == b[i];
  }

  // ---- A whole cache refresh ----

  // One listed contract: its one-shot and the pacing sleep after it. Each call sees the session the
  // host holds at that moment.
  datatype Item = Item(script: Script, pacing: seq<Other>)

  function ItemMeanwhile(x: Item): seq<Other>
    requires |x.script.polls| == POLLS
  {
    Meanwhile(x.script) + x.pacing
  }

  ghost predicate Scripted(items: seq<Item>) {
    forall i | 0 <= i < |items| :: |items[i].script.polls| == POLLS
  }

  // What happens during the first n items.
  function PassMeanwhile(items: seq<Item>, n: nat): seq<Other>
    requires Scripted(items) && n <= |items|
  {
    if n == 0 then [] else PassMeanwhile(items, n - 1) + ItemMeanwhile(items[n - 1])
  }

  // Call i makes a contract object of its own, unknown to everyone before and while it runs.
  ghost predicate OwnAt(open: set<Stream>, items: seq<Item>, i: nat)
    requires i < |items| && Scripted(items)
  {
    && Foreign(Meanwhile(items[i].script), items[i].script.contract)
    && forall n :: (n, items[i].script.contract) !in TouchAll(open, PassMeanwhile(items, i))
  }

  ghost predicate OwnContracts(open: set<Stream>, items: seq<Item>)
    requires Scripted(items)
  {
    forall i | 0 <= i < |items| :: OwnAt(open, items, i)
  }

  // How many of the first n items yield a quote.
  function Answered(items: seq<Item>, n: nat): nat
    requires Scripted(items) && n <= |items|
  {
    if n == 0 then 0 else Answered(items, n - 1) + if Result(items[n - 1].script).Some? then 1 else 0
  }

  // The refresh as its loop needs to know it: the open streams before each item, and which items yield a quote.
  datatype Course = Course(at: nat -> set<Stream>, got: nat -> bool)

  ghost predicate IsCourse(course: Course, before: set<Stream>, items: seq<Item>)
    requires Scripted(items)
  {
    && (forall i: nat {:trigger OwnAt(before, items, i)} | i < |items| :: OwnAt(before, items, i))
    && (forall i: nat {:trigger PassMeanwhile(items, i)} | i <= |items| ::
          course.at(i) == TouchAll(before, PassMeanwhile(items, i)))
    && (forall i: nat {:trigger Result(items[i].script)} | i < |items| ::
          course.got(i) == Result(items[i].script).Some?)
  }

  function Count(got: nat -> bool, n: nat): nat {
    if n == 0 then 0 else Count(got, n - 1) + if got(n - 1) then 1 else 0
  }

  lemma {:induction false} CountIsAnswered(course: Course, before: set<Stream>, items: seq<Item>, n: nat)
    requires Scripted(items) && IsCourse(course, before, items) && n <= |items|
    ensures Count(course.got, n) == Answered(items, n)
  {
    if n > 0 {
      CountIsAnswered(course, before, items, n - 1);
      assert course.got(n - 1) == Result(items[n - 1].script).Some?;
    }
  }

  // One listed contract, and the pacing sleep after it.
  method RefreshItem(streams: Streams, items: seq<Item>, i: nat, ghost before: set<Stream>, ghost course: Course)
    returns (answered: bool)
    requires i < |items| && Scripted(items) && IsCourse(course, before, items)
    requires streams.open == course.at(i)
    modifies streams
    ensures streams.open == course.at(i + 1) && answered == course.got(i)
  {
    var x := items[i];
    assert OwnAt(before, items, i);
    var quote := streams.FetchOptionQuote(x.script);
    streams.Yield(x.pacing);
    TouchConcat(old(streams.open), Meanwhile(x.script), x.pacing);
    TouchConcat(before, PassMeanwhile(items, i), ItemMeanwhile(x));
    assert PassMeanwhile(items, i + 1) == PassMeanwhile(items, i) + ItemMeanwhile(x);
    answered := quote.Some?;
  }

  method RefreshItems(streams: Streams, items: seq<Item>, ghost course: Course) returns (quotes: nat)
    requires Scripted(items) && IsCourse(course, streams.open, items) && streams.open == course.at(0)
    modifies streams
    ensures streams.open == course.at(|items|) && quotes == Count(course.got, |items|)
  {
    ghost var before := streams.open;
    quotes := 0;
    var i := 0;
    while i < |items|
      invariant 0 <= i <= |items|
      invariant streams.open == course.at(i) && quotes == Count(course.got, i)
    {
      var answered := RefreshItem(streams, items, i, before, course);
      if answered { quotes := quotes + 1; }
      i := i + 1;
    }
  }

  ghost function CourseOf(open: set<Stream>, items: seq<Item>): Course
    requires Scripted(items)
  {
    Course((i: nat) => if i <= |items| then TouchAll(open, PassMeanwhile(items, i)) else {},
           (i: nat) => i < |items| && Result(items[i].script).Some?)
  }

  // The whole refresh is balanced too, even when the host reconnects between or during calls.
  method RefreshAll(streams: Streams, items: seq<Item>) returns (quotes: nat)
    requires Scripted(items) && OwnContracts(streams.open, items)
    modifies streams
    ensures streams.open == TouchAll(old(streams.open), PassMeanwhile(items, |items|))
    ensures quotes == Answered(items, |items|)
  {
    ghost var before, course := streams.open, CourseOf(streams.open, items);
    assert PassMeanwhile(items, 0) == [];
    quotes := RefreshItems(streams, items, course);
    CountIsAnswered(course, before, items, |items|);
  }
}
