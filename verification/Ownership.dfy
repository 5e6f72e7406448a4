/** Where every inbound request and every accepted deposit is, over whole runs. */
module Ownership {
  import opened Collections
  import opened InboundFlow
  import M = MatcherSpec
  import T = MatcherTheorems
  import Hex

  lemma {:induction false} EnqueueKeepsRequests(keccak: Hasher, l: Life, outs: seq<M.Output>)
    requires AllEnabled(keccak, l, outs)
    ensures Everywhere(EnqueueAll(keccak, l, outs)) == Everywhere(l) + RequestsOf(outs)
    decreases |outs|
  {
    if outs == [] {
    } else {
      StepKeepsRequests(keccak, l, Enqueue(outs[0]));
      EnqueueKeepsRequests(keccak, LifeStep(keccak, l, Enqueue(outs[0])), outs[1..]);
    }
  }

  lemma {:induction false} RequestsOfAppend(xs: seq<M.Output>, ys: seq<M.Output>)
    ensures RequestsOf(xs + ys) == RequestsOf(xs) + RequestsOf(ys)
  {
    if xs == [] {
      assert xs + ys == ys;
    } else {
      assert (xs + ys)[0] == xs[0] && (xs + ys)[1..] == xs[1..] + ys;
      RequestsOfAppend(xs[1..], ys);
    }
  }

  lemma EventKeepsRequests(keccak: Hasher, s: Inbound, e: Event)
    requires StepEnabled(keccak, s, e)
    ensures Everywhere(Step(keccak, s, e).life)
            == Everywhere(s.life) + RequestsOf(if e.OnHead? then HeadRun(s.matcher, e.head).1 else [])
  {
    match e
    case OnHead(h) => EnqueueKeepsRequests(keccak, s.life, HeadRun(s.matcher, h).1);
    case OnLife(le) => StepKeepsRequests(keccak, s.life, le);
  }

  /**
   * At every reachable state the requests released so far are, as a multiset, those in the retry bag, in the channel,
   * awaiting a status check, confirmed and dropped: none is lost, duplicated or in two places.
   */
  lemma {:induction false} EveryRequestInOnePlace(keccak: Hasher, s: Inbound, events: seq<Event>)
    requires Legal(keccak, s, events)
    ensures Everywhere(RunAll(keccak, s, events).life)
            == Everywhere(s.life) + RequestsOf(AllOutputs(keccak, s, events))
    decreases |events|
  {
    if events == [] {
    } else {
      var s' := Step(keccak, s, events[0]);
      var outs := if events[0].OnHead? then HeadRun(s.matcher, events[0].head).1 else [];
      EventKeepsRequests(keccak, s, events[0]);
      EveryRequestInOnePlace(keccak, s', events[1..]);
      RequestsOfAppend(outs, AllOutputs(keccak, s', events[1..]));
    }
  }

  // ---- How requests leave the cycle of retries ----

  predicate Confirms(e: Event) {
    e.OnLife? && e.life.Status? && e.life.found
  }

  predicate Drops(e: Event) {
    e.OnLife? && e.life.Process? && (e.life.answer.SignerError? || e.life.answer.NotSigner?)
  }

  function Count(events: seq<Event>, p: Event -> bool): nat {
    if events == [] then 0 else (if p(events[0]) then 1 else 0) + Count(events[1..], p)
  }

  lemma {:induction false} EnqueueKeepsEnds(keccak: Hasher, l: Life, outs: seq<M.Output>)
    ensures EnqueueAll(keccak, l, outs).confirmed == l.confirmed && EnqueueAll(keccak, l, outs).dropped == l.dropped
    decreases |outs|
  {
    if outs == [] {
    } else {
      EnqueueKeepsEnds(keccak, LifeStep(keccak, l, Enqueue(outs[0])), outs[1..]);
    }
  }

  lemma StepCountsEnds(keccak: Hasher, s: Inbound, e: Event)
    requires StepEnabled(keccak, s, e)
    ensures |Step(keccak, s, e).life.confirmed| == |s.life.confirmed| + if Confirms(e) then 1 else 0
    ensures |Step(keccak, s, e).life.dropped| == |s.life.dropped| + if Drops(e) then 1 else 0
  {
    if e.OnHead? {
      EnqueueKeepsEnds(keccak, s.life, HeadRun(s.matcher, e.head).1);
    }
  }

  /**
   * A request leaves the cycle of retries only through a successful status check or a failed signer check: over every
   * run the numbers confirmed and dropped are the numbers of those events, so all the others are still in the cycle.
   */
  lemma {:induction false} LeavesOnlyByEvents(keccak: Hasher, s: Inbound, events: seq<Event>)
    requires Legal(keccak, s, events)
    ensures |RunAll(keccak, s, events).life.confirmed| == |s.life.confirmed| + Count(events, Confirms)
    ensures |RunAll(keccak, s, events).life.dropped| == |s.life.dropped| + Count(events, Drops)
    decreases |events|
  {
    if events == [] {
    } else {
      hide Step, StepEnabled, Confirms, Drops;
      StepCountsEnds(keccak, s, events[0]);
      LeavesOnlyByEvents(keccak, Step(keccak, s, events[0]), events[1..]);
    }
  }

  // ---- From deposits to requests ----

  /** The deposit a request was released for. */
  function DepositOf(r: M.Request): T.Token {
    T.Token(Hex.Encode(r.txID), r.from, r.amount)
  }

  ghost function Accepted(s: M.State, e: Event): multiset<T.Token> {
    match e
    case OnHead(h) => T.AllAccepted(s, M.HeadEvents(s, h.bridge, h.number, h.block))
    case OnLife(_) => multiset{}
  }

  ghost function Expired(s: M.State, e: Event): multiset<T.Token> {
    match e
    case OnHead(h) => T.AllExpired(s, M.HeadEvents(s, h.bridge, h.number, h.block))
    case OnLife(_) => multiset{}
  }

  ghost function AllAccepted(keccak: Hasher, s: Inbound, events: seq<Event>): multiset<T.Token>
    decreases |events|
  {
    if events == [] then multiset{}
    else Accepted(s.matcher, events[0]) + AllAccepted(keccak, Step(keccak, s, events[0]), events[1..])
  }

  ghost function AllExpired(keccak: Hasher, s: Inbound, events: seq<Event>): multiset<T.Token>
    decreases |events|
  {
    if events == [] then multiset{}
    else Expired(s.matcher, events[0]) + AllExpired(keccak, Step(keccak, s, events[0]), events[1..])
  }

  ghost function WaitingDeposits(s: M.State): multiset<T.Token> {
    multiset(T.PendingTokens(s))
  }

  lemma {:induction false} ReleasedAreRequests(outs: seq<M.Output>)
    ensures T.Released(outs) == Image(RequestsOf(outs), DepositOf)
  {
    if outs == [] {
    } else {
      ReleasedAreRequests(outs[1..]);
      ImageUnion(multiset{outs[0].req}, RequestsOf(outs[1..]), DepositOf);
      ImageOne(outs[0].req, DepositOf);
    }
  }

  /** All deposits the bridge has in hand: short of a fee, or turned into requests. */
  ghost function InHand(s: Inbound): multiset<T.Token> {
    WaitingDeposits(s.matcher) + Image(Everywhere(s.life), DepositOf)
  }

  lemma Join<X>(w: multiset<X>, i: multiset<X>, acc: multiset<X>, rel: multiset<X>, exp: multiset<X>, w': multiset<X>)
    requires w + acc == rel + exp + w'
    ensures (w + i) + acc == exp + (w' + (i + rel))
  {
    assert (w + i) + acc == (w + acc) + i;
  }

  lemma StepKeepsDeposits(keccak: Hasher, s: Inbound, e: Event)
    requires StepEnabled(keccak, s, e)
    ensures InHand(s) + Accepted(s.matcher, e) == Expired(s.matcher, e) + InHand(Step(keccak, s, e))
  {
    hide Everywhere, T.PendingTokens, T.AllAccepted, T.AllExpired, T.Released, Image;
    hide M.Run, M.HeadEvents, EnqueueAll, AllEnabled;
    hide LifeStep, Enabled;
    EventKeepsRequests(keccak, s, e);
    match e
    case OnHead(h) =>
      var outs := HeadRun(s.matcher, h).1;
      T.RunConserves(s.matcher, M.HeadEvents(s.matcher, h.bridge, h.number, h.block));
      ReleasedAreRequests(outs);
      ImageUnion(Everywhere(s.life), RequestsOf(outs), DepositOf);
      hide RequestsOf;
      Join(WaitingDeposits(s.matcher), Image(Everywhere(s.life), DepositOf), Accepted(s.matcher, e), T.Released(outs),
           Expired(s.matcher, e), WaitingDeposits(HeadRun(s.matcher, h).0));
    case OnLife(_) =>
      assert Everywhere(s.life) + RequestsOf([]) == Everywhere(s.life);
  }

  /** Conservation from end to end: deposits at hand and accepted are those expired and those at hand in the end. */
  lemma {:induction false} RunKeepsDeposits(keccak: Hasher, s: Inbound, events: seq<Event>)
    requires Legal(keccak, s, events)
    ensures InHand(s) + AllAccepted(keccak, s, events)
            == AllExpired(keccak, s, events) + InHand(RunAll(keccak, s, events))
    decreases |events|
  {
    if events == [] {
    } else {
      hide Step, StepEnabled, InHand, Accepted, Expired;
      StepKeepsDeposits(keccak, s, events[0]);
      var s' := Step(keccak, s, events[0]);
      RunKeepsDeposits(keccak, s', events[1..]);
      Chained(InHand(s), Accepted(s.matcher, events[0]), Expired(s.matcher, events[0]), InHand(s'),
              AllAccepted(keccak, s', events[1..]), AllExpired(keccak, s', events[1..]),
              InHand(RunAll(keccak, s, events)));
    }
  }

  lemma ImageOfPlaces(l: Life)
    ensures Image(Everywhere(l), DepositOf)
            == Image(l.retry, DepositOf) + Image(multiset(l.channel), DepositOf)
               + Image(Requests(l.awaiting), DepositOf)
               + Image(l.confirmed, DepositOf) + Image(l.dropped, DepositOf)
  {
    hide Image, Requests;
    ImageUnion(l.retry, multiset(l.channel), DepositOf);
    ImageUnion(l.retry + multiset(l.channel), Requests(l.awaiting), DepositOf);
    ImageUnion(l.retry + multiset(l.channel) + Requests(l.awaiting), l.confirmed, DepositOf);
    ImageUnion(l.retry + multiset(l.channel) + Requests(l.awaiting) + l.confirmed, l.dropped, DepositOf);
  }

  /**
   * Every deposit ever accepted has expired, still waits for its fee, or is a request in the retry bag, in the channel,
   * under a status check, confirmed or dropped; each in exactly one of these, with its id, depositor and amount.
   */
  lemma EveryDepositAccountedFor(keccak: Hasher, events: seq<Event>)
    requires Legal(keccak, START, events)
    ensures var s := RunAll(keccak, START, events);
            AllAccepted(keccak, START, events)
            == AllExpired(keccak, START, events) + WaitingDeposits(s.matcher)
               + Image(s.life.retry, DepositOf) + Image(multiset(s.life.channel), DepositOf)
               + Image(Requests(s.life.awaiting), DepositOf)
               + Image(s.life.confirmed, DepositOf) + Image(s.life.dropped, DepositOf)
  {
    RunKeepsDeposits(keccak, START, events);
    NothingAtStart();
    var s := RunAll(keccak, START, events);
    ImageOfPlaces(s.life);
    hide Image, RunAll, AllAccepted, AllExpired, Everywhere, WaitingDeposits, Legal;
    assert multiset{} + AllAccepted(keccak, START, events) == AllAccepted(keccak, START, events);
  }

  lemma NothingAtStart()
    ensures InHand(START) == multiset{}
  {
    assert Everywhere(NEWBORN) == multiset{};
  }
}
