/**
 * Where the handlers put inbound requests and submissions, told from the events and answers: what enters and what
 * leaves each place over whole runs (bridge/joltifyBridge.go:189-196, 311-337; joltifybridge/mint.go:22-71).
 */
module InboundLaws {
  import opened Config
  import opened Wrappers
  import opened ByteTypes
  import opened Collections
  import opened Landing
  import opened InboundFlow
  import opened Ownership
  import M = MatcherSpec

  // ---- What one event puts into a place and takes from it ----

  function ToChannels(outs: seq<M.Output>): seq<M.Request> {
    if outs == [] then [] else (if outs[0].ToChannel? then [outs[0].req] else []) + ToChannels(outs[1..])
  }

  function ToBag(outs: seq<M.Output>): multiset<M.Request> {
    if outs == [] then multiset{}
    else (if outs[0].ToRetry? then multiset{outs[0].req} else multiset{}) + ToBag(outs[1..])
  }

  /** What the event's block releases. */
  function Released(s: Inbound, e: Event): seq<M.Output> {
    if e.OnHead? then HeadRun(s.matcher, e.head).1 else []
  }

  predicate Handles(s: Inbound, e: Event) {
    e.OnLife? && e.life.Process? && s.life.channel != []
  }

  predicate Ends(s: Inbound, e: Event) {
    e.OnLife? && e.life.Status? && e.life.i < |s.life.awaiting|
  }

  /** Nothing learnt of a submission: an error before it, or none reported. */
  predicate NotSubmitted(a: Answer) {
    a.Failed? || (a.Looked? && !a.seen && !a.reported)
  }

  function SentTo(keccak: Hasher, s: Inbound, e: Event): seq<M.Request> {
    if e.OnHead? then ToChannels(Released(s, e))
    else if e.life.Retry? && e.life.pick.Some? then [e.life.pick.value]
    else []
  }

  function ReceivedFrom(keccak: Hasher, s: Inbound, e: Event): seq<M.Request> {
    if Handles(s, e) then [s.life.channel[0]] else []
  }

  function Bagged(keccak: Hasher, s: Inbound, e: Event): multiset<M.Request> {
    if e.OnHead? then ToBag(Released(s, e))
    else if Handles(s, e) && NotSubmitted(e.life.answer) then multiset{s.life.channel[0]}
    else if Ends(s, e) && !e.life.found then multiset{s.life.awaiting[e.life.i].req}
    else multiset{}
  }

  function Unbagged(keccak: Hasher, s: Inbound, e: Event): multiset<M.Request> {
    if e.OnLife? && e.life.Retry? && e.life.pick.Some? then multiset{e.life.pick.value} else multiset{}
  }

  /** A status check starts: for the empty index of a request already recorded, or for one reported submitted. */
  function Polled(keccak: Hasher, s: Inbound, e: Event): multiset<Waiting> {
    if !Handles(s, e) || !e.life.answer.Looked? then multiset{}
    else if e.life.answer.seen then multiset{Waiting(s.life.channel[0], None)}
    else if e.life.answer.reported then multiset{Waiting(s.life.channel[0], Some(Index(keccak, s.life.channel[0])))}
    else multiset{}
  }

  function Unpolled(keccak: Hasher, s: Inbound, e: Event): multiset<Waiting> {
    if Ends(s, e) then multiset{s.life.awaiting[e.life.i]} else multiset{}
  }

  function ConfirmedBy(keccak: Hasher, s: Inbound, e: Event): multiset<M.Request> {
    if Ends(s, e) && e.life.found then multiset{s.life.awaiting[e.life.i].req} else multiset{}
  }

  function DroppedBy(keccak: Hasher, s: Inbound, e: Event): multiset<M.Request> {
    if Handles(s, e) && (e.life.answer.SignerError? || e.life.answer.NotSigner?) then multiset{s.life.channel[0]}
    else multiset{}
  }

  // ---- One event ----

  lemma EnqueuedIs(keccak: Hasher, l: Life, out: M.Output)
    ensures LifeStep(keccak, l, Enqueue(out))
            == l.(channel := l.channel + (if out.ToChannel? then [out.req] else []),
                  retry := l.retry + (if out.ToRetry? then multiset{out.req} else multiset{}))
  {
    assert l.channel + [] == l.channel;
  }

  lemma {:induction false} EnqueuedAre(keccak: Hasher, l: Life, outs: seq<M.Output>)
    ensures EnqueueAll(keccak, l, outs)
            == l.(channel := l.channel + ToChannels(outs), retry := l.retry + ToBag(outs))
    decreases |outs|
  {
    if outs == [] {
      assert l.channel + [] == l.channel;
    } else {
      hide LifeStep;
      var l' := LifeStep(keccak, l, Enqueue(outs[0]));
      var now := if outs[0].ToChannel? then [outs[0].req] else [];
      var bagged := if outs[0].ToRetry? then multiset{outs[0].req} else multiset{};
      EnqueuedIs(keccak, l, outs[0]);
      EnqueuedAre(keccak, l', outs[1..]);
      Regrouped(l.channel, now, ToChannels(outs[1..]));
      Joined(l.retry, bagged, l'.retry, ToBag(outs[1..]), l'.retry + ToBag(outs[1..]), bagged + ToBag(outs[1..]));
    }
  }

  lemma SplitAt<X>(xs: seq<X>, i: nat)
    requires i < |xs|
    ensures multiset(xs) == multiset{xs[i]} + multiset(xs[..i] + xs[i + 1..])
  {
    assert xs == xs[..i] + [xs[i]] + xs[i + 1..];
  }

  lemma HeadMoves(keccak: Hasher, s: Inbound, e: Event)
    requires e.OnHead?
    ensures Step(keccak, s, e).life
            == s.life.(channel := s.life.channel + ToChannels(Released(s, e)),
                       retry := s.life.retry + ToBag(Released(s, e)))
  {
    hide HeadRun, Hashes, EnqueueAll, M.HeadEvents, ToChannels, ToBag;
    EnqueuedAre(keccak, s.life, Released(s, e));
  }

  lemma HeadChannel(keccak: Hasher, s: Inbound, e: Event)
    requires e.OnHead?
    ensures s.life.channel + SentTo(keccak, s, e)
            == ReceivedFrom(keccak, s, e) + Step(keccak, s, e).life.channel
  {
    hide Step, HeadRun, ToChannels, ToBag, Released;
    HeadMoves(keccak, s, e);
  }

  lemma LifeChannel(keccak: Hasher, s: Inbound, e: Event)
    requires StepEnabled(keccak, s, e) && e.OnLife?
    ensures s.life.channel + SentTo(keccak, s, e)
            == ReceivedFrom(keccak, s, e) + LifeStep(keccak, s.life, e.life).channel
  {
    hide HeadRun, AllEnabled, Index, ToChannels, ToBag, Released, Landed, ChainAfter;
  }

  lemma ChannelMoves(keccak: Hasher, s: Inbound, e: Event)
    requires StepEnabled(keccak, s, e)
    ensures s.life.channel + SentTo(keccak, s, e)
            == ReceivedFrom(keccak, s, e) + Step(keccak, s, e).life.channel
  {
    hide HeadRun, EnqueueAll, AllEnabled, LifeStep, Enabled, SentTo, ReceivedFrom;
    if e.OnHead? {
      HeadChannel(keccak, s, e);
    } else {
      LifeChannel(keccak, s, e);
    }
  }

  lemma HeadBags(keccak: Hasher, s: Inbound, e: Event)
    requires e.OnHead?
    ensures s.life.retry + Bagged(keccak, s, e) == Unbagged(keccak, s, e) + Step(keccak, s, e).life.retry
  {
    hide Step, HeadRun, ToChannels, ToBag, Released;
    HeadMoves(keccak, s, e);
  }

  lemma LifeBags(keccak: Hasher, s: Inbound, e: Event)
    requires StepEnabled(keccak, s, e) && e.OnLife?
    ensures s.life.retry + Bagged(keccak, s, e) == Unbagged(keccak, s, e) + LifeStep(keccak, s.life, e.life).retry
  {
    hide HeadRun, AllEnabled, Index, ToChannels, ToBag, Released, Landed, ChainAfter;
  }

  lemma BagMoves(keccak: Hasher, s: Inbound, e: Event)
    requires StepEnabled(keccak, s, e)
    ensures s.life.retry + Bagged(keccak, s, e) == Unbagged(keccak, s, e) + Step(keccak, s, e).life.retry
  {
    hide HeadRun, EnqueueAll, AllEnabled, LifeStep, Enabled, Bagged, Unbagged;
    if e.OnHead? {
      HeadBags(keccak, s, e);
    } else {
      LifeBags(keccak, s, e);
    }
  }

  lemma StatusEndsCheck(keccak: Hasher, l: Life, i: nat, found: bool)
    requires i < |l.awaiting|
    ensures multiset(l.awaiting)
            == multiset{l.awaiting[i]} + multiset(LifeStep(keccak, l, Status(i, found)).awaiting)
  {
    SplitAt(l.awaiting, i);
  }

  lemma LifeChecks(keccak: Hasher, s: Inbound, e: Event)
    requires StepEnabled(keccak, s, e) && e.OnLife?
    ensures multiset(s.life.awaiting) + Polled(keccak, s, e)
            == Unpolled(keccak, s, e) + multiset(LifeStep(keccak, s.life, e.life).awaiting)
  {
    hide HeadRun, AllEnabled, Index, ToChannels, ToBag, Released, Landed, ChainAfter;
    if e.life.Status? {
      StatusEndsCheck(keccak, s.life, e.life.i, e.life.found);
      hide LifeStep;
    }
  }

  lemma ChecksMove(keccak: Hasher, s: Inbound, e: Event)
    requires StepEnabled(keccak, s, e)
    ensures multiset(s.life.awaiting) + Polled(keccak, s, e)
            == Unpolled(keccak, s, e) + multiset(Step(keccak, s, e).life.awaiting)
  {
    hide HeadRun, AllEnabled, LifeStep, EnqueueAll;
    if e.OnHead? {
      HeadMoves(keccak, s, e);
    } else {
      LifeChecks(keccak, s, e);
    }
  }

  lemma LifeEnds(keccak: Hasher, s: Inbound, e: Event)
    requires StepEnabled(keccak, s, e) && e.OnLife?
    ensures var l' := LifeStep(keccak, s.life, e.life);
            && l'.confirmed == s.life.confirmed + ConfirmedBy(keccak, s, e)
            && l'.dropped == s.life.dropped + DroppedBy(keccak, s, e)
  {
    hide HeadRun, AllEnabled, Index, ToChannels, ToBag, Released, Landed, ChainAfter;
  }

  lemma EndsGrow(keccak: Hasher, s: Inbound, e: Event)
    requires StepEnabled(keccak, s, e)
    ensures Step(keccak, s, e).life.confirmed == s.life.confirmed + ConfirmedBy(keccak, s, e)
    ensures Step(keccak, s, e).life.dropped == s.life.dropped + DroppedBy(keccak, s, e)
  {
    hide HeadRun, AllEnabled, LifeStep, EnqueueAll;
    if e.OnHead? {
      HeadMoves(keccak, s, e);
    } else {
      LifeEnds(keccak, s, e);
    }
  }

  /**
   * No answer is refused: the handler takes any, a check can fail at any time and succeed once its index is
   * recorded, and a Joltify block always has a pick, unless a positive index meets a full channel.
   */
  lemma NeverStuck(keccak: Hasher, l: Life)
    ensures forall answer :: Enabled(keccak, l, Process(answer)) <==> l.channel != []
    ensures forall i: nat :: Enabled(keccak, l, Status(i, false)) <==> i < |l.awaiting|
    ensures forall i: nat :: Enabled(keccak, l, Status(i, true)) <==>
              && i < |l.awaiting|
              && exists rec :: rec in l.chain.recorded && l.awaiting[i].index == Some(rec.key)
    ensures (exists pick :: Enabled(keccak, l, Retry(pick)))
            <==> |l.channel| < REQ_CACHE_SIZE || forall r :: r in l.retry ==> Index(keccak, r) == 0
    ensures forall n: nat :: Enabled(keccak, l, Land(n)) <==>
              && n < |l.chain.inFlight|
              && l.chain.inFlight[n].number == NumberOf(l.chain, l.chain.inFlight[n].account)
  {
    hide Index, NumberOf;
    forall i: nat
      ensures Enabled(keccak, l, Status(i, true)) <==>
                && i < |l.awaiting|
                && exists rec :: rec in l.chain.recorded && l.awaiting[i].index == Some(rec.key)
    {
      if i < |l.awaiting| && l.awaiting[i].index.Some? {
        RecordedHas(l.chain.recorded, l.awaiting[i].index.value);
      }
    }
    if forall r :: r in l.retry ==> Index(keccak, r) == 0 {
      assert Enabled(keccak, l, Retry(None));
    } else if |l.channel| < REQ_CACHE_SIZE {
      var r := LargestOf(keccak, l.retry);
      assert Enabled(keccak, l, Retry(Some(r)));
    }
  }

  lemma RecordedHas(recorded: seq<Record<M.Request>>, key: nat)
    ensures Has(recorded, key) <==> exists rec :: rec in recorded && rec.key == key
  {
    if Has(recorded, key) {
      var i :| 0 <= i < |recorded| && recorded[i].key == key;
      assert recorded[i] in recorded;
    }
    if rec :| rec in recorded && rec.key == key {
      var i :| 0 <= i < |recorded| && recorded[i] == rec;
    }
  }

  lemma {:induction false} LargestOf(keccak: Hasher, bag: multiset<M.Request>) returns (r: M.Request)
    requires exists o :: o in bag && Index(keccak, o) > 0
    ensures r in bag && Index(keccak, r) > 0 && forall o :: o in bag ==> Index(keccak, o) <= Index(keccak, r)
    decreases |bag|
  {
    var x :| x in bag && Index(keccak, x) > 0;
    var rest := bag - multiset{x};
    assert forall o :: o in bag ==> o == x || o in rest;
    if exists o :: o in rest && Index(keccak, o) > 0 {
      var y := LargestOf(keccak, rest);
      r := if Index(keccak, y) >= Index(keccak, x) then y else x;
    } else {
      r := x;
    }
  }

  /** A check that does not find its index puts exactly its request back into the bag. */
  lemma FailedCheckRefillsBag(keccak: Hasher, l: Life, i: nat)
    requires i < |l.awaiting|
    ensures var l' := LifeStep(keccak, l, Status(i, false));
            && l'.retry == l.retry + multiset{l.awaiting[i].req}
            && multiset(l.awaiting) == multiset(l'.awaiting) + multiset{l.awaiting[i]}
            && l' == l.(retry := l'.retry, awaiting := l'.awaiting)
  {
    SplitAt(l.awaiting, i);
  }

  // ---- Whole runs ----

  /** What a rule gives for each event of the run, in order. */
  function SeqOver<X>(keccak: Hasher, s: Inbound, events: seq<Event>, f: (Hasher, Inbound, Event) -> seq<X>): seq<X>
    decreases |events|
  {
    if events == [] then []
    else f(keccak, s, events[0]) + SeqOver(keccak, Step(keccak, s, events[0]), events[1..], f)
  }

  ghost function BagOver<X>(keccak: Hasher, s: Inbound, events: seq<Event>,
                            f: (Hasher, Inbound, Event) -> multiset<X>): multiset<X>
    decreases |events|
  {
    if events == [] then multiset{}
    else f(keccak, s, events[0]) + BagOver(keccak, Step(keccak, s, events[0]), events[1..], f)
  }

  /**
   * The channel is first in, first out over every run: what it held and what was sent to it, by releases and by
   * retries, is in order what the handler received and what it holds.
   */
  lemma {:induction false} ChannelInOrder(keccak: Hasher, s: Inbound, events: seq<Event>)
    requires Legal(keccak, s, events)
    ensures s.life.channel + SeqOver(keccak, s, events, SentTo)
            == SeqOver(keccak, s, events, ReceivedFrom) + RunAll(keccak, s, events).life.channel
    decreases |events|
  {
    if events == [] {
      assert s.life.channel + [] == [] + s.life.channel;
    } else {
      hide Step, StepEnabled, SentTo, ReceivedFrom;
      var e, s', rest := events[0], Step(keccak, s, events[0]), events[1..];
      ChannelMoves(keccak, s, e);
      ChannelInOrder(keccak, s', rest);
      ChainedSeq(s.life.channel, SentTo(keccak, s, e), ReceivedFrom(keccak, s, e), s'.life.channel,
                 SeqOver(keccak, s', rest, SentTo), SeqOver(keccak, s', rest, ReceivedFrom),
                 RunAll(keccak, s', rest).life.channel);
    }
  }

  /**
   * The retry bag over every run: it gains the releases of late fees, the requests whose processing failed and those
   * whose status check failed, and loses those picked for a retry.
   */
  lemma {:induction false} BagBalance(keccak: Hasher, s: Inbound, events: seq<Event>)
    requires Legal(keccak, s, events)
    ensures s.life.retry + BagOver(keccak, s, events, Bagged)
            == BagOver(keccak, s, events, Unbagged) + RunAll(keccak, s, events).life.retry
    decreases |events|
  {
    if events == [] {
    } else {
      hide Step, StepEnabled, Bagged, Unbagged;
      var e, s', rest := events[0], Step(keccak, s, events[0]), events[1..];
      BagMoves(keccak, s, e);
      BagBalance(keccak, s', rest);
      Chained(s.life.retry, Bagged(keccak, s, e), Unbagged(keccak, s, e), s'.life.retry,
              BagOver(keccak, s', rest, Bagged), BagOver(keccak, s', rest, Unbagged),
              RunAll(keccak, s', rest).life.retry);
    }
  }

  /**
   * The status checks over every run: one starts for each request found recorded and each submission reported, with the
   * index to look for, and one ends with each result.
   */
  lemma {:induction false} CheckBalance(keccak: Hasher, s: Inbound, events: seq<Event>)
    requires Legal(keccak, s, events)
    ensures multiset(s.life.awaiting) + BagOver(keccak, s, events, Polled)
            == BagOver(keccak, s, events, Unpolled) + multiset(RunAll(keccak, s, events).life.awaiting)
    decreases |events|
  {
    if events == [] {
    } else {
      hide Step, StepEnabled, Polled, Unpolled;
      var e, s', rest := events[0], Step(keccak, s, events[0]), events[1..];
      ChecksMove(keccak, s, e);
      CheckBalance(keccak, s', rest);
      Chained(multiset(s.life.awaiting), Polled(keccak, s, e), Unpolled(keccak, s, e), multiset(s'.life.awaiting),
              BagOver(keccak, s', rest, Polled), BagOver(keccak, s', rest, Unpolled),
              multiset(RunAll(keccak, s', rest).life.awaiting));
    }
  }

  /** Confirmed are the requests of successful checks, dropped those of failed signer checks. */
  lemma {:induction false} EndsOverRuns(keccak: Hasher, s: Inbound, events: seq<Event>)
    requires Legal(keccak, s, events)
    ensures RunAll(keccak, s, events).life.confirmed == s.life.confirmed + BagOver(keccak, s, events, ConfirmedBy)
    ensures RunAll(keccak, s, events).life.dropped == s.life.dropped + BagOver(keccak, s, events, DroppedBy)
    decreases |events|
  {
    if events == [] {
    } else {
      hide Step, StepEnabled, ConfirmedBy, DroppedBy;
      var e, s', rest := events[0], Step(keccak, s, events[0]), events[1..];
      EndsGrow(keccak, s, e);
      EndsOverRuns(keccak, s', rest);
      var s'' := RunAll(keccak, s', rest);
      Joined(s.life.confirmed, ConfirmedBy(keccak, s, e), s'.life.confirmed,
             BagOver(keccak, s', rest, ConfirmedBy), s''.life.confirmed, BagOver(keccak, s, events, ConfirmedBy));
      Joined(s.life.dropped, DroppedBy(keccak, s, e), s'.life.dropped,
             BagOver(keccak, s', rest, DroppedBy), s''.life.dropped, BagOver(keccak, s, events, DroppedBy));
    }
  }

  // ---- The numbers, from the events alone ----

  predicate Retries(e: Event) {
    e.OnLife? && e.life.Retry? && e.life.pick.Some?
  }

  predicate Processes(e: Event) {
    e.OnLife? && e.life.Process?
  }

  predicate StartsCheck(e: Event) {
    Processes(e) && e.life.answer.Looked? && (e.life.answer.seen || e.life.answer.reported)
  }

  predicate EndsCheck(e: Event) {
    e.OnLife? && e.life.Status?
  }

  predicate FailsProcessing(e: Event) {
    Processes(e) && NotSubmitted(e.life.answer)
  }

  predicate FailsCheck(e: Event) {
    EndsCheck(e) && !e.life.found
  }

  function One(b: bool): nat {
    if b then 1 else 0
  }

  lemma StepCounts(keccak: Hasher, s: Inbound, e: Event)
    requires StepEnabled(keccak, s, e)
    ensures var l, l', outs := s.life, Step(keccak, s, e).life, Released(s, e);
            && |l'.channel| + One(Processes(e)) == |l.channel| + |ToChannels(outs)| + One(Retries(e))
            && |l'.retry| + One(Retries(e))
               == |l.retry| + |ToBag(outs)| + One(FailsProcessing(e)) + One(FailsCheck(e))
            && |l'.awaiting| + One(EndsCheck(e)) == |l.awaiting| + One(StartsCheck(e))
  {
    ChannelMoves(keccak, s, e);
    BagMoves(keccak, s, e);
    ChecksMove(keccak, s, e);
    var l, l' := s.life, Step(keccak, s, e).life;
    assert |l.channel + SentTo(keccak, s, e)| == |ReceivedFrom(keccak, s, e) + l'.channel|;
    assert |l.retry + Bagged(keccak, s, e)| == |Unbagged(keccak, s, e) + l'.retry|;
    assert |multiset(l.awaiting) + Polled(keccak, s, e)| == |Unpolled(keccak, s, e) + multiset(l'.awaiting)|;
    hide Step, HeadRun, ToChannels, ToBag;
  }

  lemma {:induction false} DestinationsAppend(xs: seq<M.Output>, ys: seq<M.Output>)
    ensures ToChannels(xs + ys) == ToChannels(xs) + ToChannels(ys) && ToBag(xs + ys) == ToBag(xs) + ToBag(ys)
  {
    if xs == [] {
      assert xs + ys == ys;
    } else {
      assert (xs + ys)[0] == xs[0] && (xs + ys)[1..] == xs[1..] + ys;
      DestinationsAppend(xs[1..], ys);
    }
  }

  /**
   * The numbers of requests in the channel, in the bag and under a check after every run, from the releases, the events
   * and the answers alone.
   */
  lemma {:induction false} NumbersInPlaces(keccak: Hasher, s: Inbound, events: seq<Event>)
    requires Legal(keccak, s, events)
    ensures var l, l', outs := s.life, RunAll(keccak, s, events).life, AllOutputs(keccak, s, events);
            && |l'.channel| + Count(events, Processes) == |l.channel| + |ToChannels(outs)| + Count(events, Retries)
            && |l'.retry| + Count(events, Retries)
               == |l.retry| + |ToBag(outs)| + Count(events, FailsProcessing) + Count(events, FailsCheck)
            && |l'.awaiting| + Count(events, EndsCheck) == |l.awaiting| + Count(events, StartsCheck)
    decreases |events|
  {
    if events == [] {
    } else {
      hide Step, StepEnabled, Processes, Retries, FailsProcessing, FailsCheck, EndsCheck, StartsCheck;
      var s' := Step(keccak, s, events[0]);
      StepCounts(keccak, s, events[0]);
      NumbersInPlaces(keccak, s', events[1..]);
      DestinationsAppend(Released(s, events[0]), AllOutputs(keccak, s', events[1..]));
      hide ToChannels, ToBag;
    }
  }

  // ---- The chain ----

  /** The submissions the chain takes, under the index of the request and with the number asked for. */
  function Submitted(keccak: Hasher, s: Inbound, e: Event): seq<Sending<M.Request>> {
    if Handles(s, e) && e.life.answer.Looked? && !e.life.answer.seen && e.life.answer.sent
    then [Sending(Record(Index(keccak, s.life.channel[0]), s.life.channel[0]), e.life.answer.signer,
                  e.life.answer.sequence)]
    else []
  }

  predicate Lands(s: Inbound, e: Event) {
    e.OnLife? && e.life.Land? && e.life.n < |s.life.chain.inFlight|
  }

  function LandedBy(keccak: Hasher, s: Inbound, e: Event): seq<Sending<M.Request>> {
    if Lands(s, e) then [s.life.chain.inFlight[e.life.n]] else []
  }

  /** How many numbers of the account the event uses up. */
  function Uses(s: Inbound, e: Event, account: Address): nat {
    if Lands(s, e) && s.life.chain.inFlight[e.life.n].account == account then 1
    else if e.OnLife? && e.life.Advance? && e.life.account == account then e.life.times
    else 0
  }

  function UsesOver(keccak: Hasher, s: Inbound, events: seq<Event>, account: Address): nat
    decreases |events|
  {
    if events == [] then 0
    else Uses(s, events[0], account) + UsesOver(keccak, Step(keccak, s, events[0]), events[1..], account)
  }

  function Records(subs: seq<Sending<M.Request>>): seq<Record<M.Request>> {
    seq(|subs|, i requires 0 <= i < |subs| => subs[i].rec)
  }

  /** What the chain's part of one event comes to. */
  ghost predicate ChainMoved(keccak: Hasher, s: Inbound, e: Event, c': MintChain) {
    && multiset(s.life.chain.inFlight) + multiset(Submitted(keccak, s, e))
       == multiset(LandedBy(keccak, s, e)) + multiset(c'.inFlight)
    && c'.recorded == s.life.chain.recorded + Records(LandedBy(keccak, s, e))
  }

  ghost predicate NumbersMoved(s: Inbound, e: Event, c': MintChain) {
    forall a :: NumberOf(c', a) == NumberOf(s.life.chain, a) + Uses(s, e, a)
  }

  lemma HeadKeepsChain(keccak: Hasher, s: Inbound, e: Event)
    requires e.OnHead?
    ensures ChainMoved(keccak, s, e, Step(keccak, s, e).life.chain)
    ensures NumbersMoved(s, e, Step(keccak, s, e).life.chain)
  {
    hide Step, HeadRun, NumberOf;
    HeadMoves(keccak, s, e);
  }

  lemma LandMoves(keccak: Hasher, s: Inbound, e: Event)
    requires Lands(s, e)
    ensures ChainMoved(keccak, s, e, Landed(s.life.chain, e.life.n))
    ensures NumbersMoved(s, e, Landed(s.life.chain, e.life.n))
  {
    SplitAt(s.life.chain.inFlight, e.life.n);
    AdvanceKeepsRest(s.life.chain, s.life.chain.inFlight[e.life.n].account, 1);
  }

  lemma AdvanceMoves(keccak: Hasher, s: Inbound, e: Event)
    requires e.OnLife? && e.life.Advance?
    ensures ChainMoved(keccak, s, e, Advanced(s.life.chain, e.life.account, e.life.times))
    ensures NumbersMoved(s, e, Advanced(s.life.chain, e.life.account, e.life.times))
  {
    AdvanceKeepsRest(s.life.chain, e.life.account, e.life.times);
  }

  lemma ProcessMoves(keccak: Hasher, s: Inbound, e: Event)
    requires Handles(s, e)
    ensures ChainMoved(keccak, s, e, ChainAfter(keccak, s.life.chain, s.life.channel[0], e.life.answer))
    ensures NumbersMoved(s, e, ChainAfter(keccak, s.life.chain, s.life.channel[0], e.life.answer))
  {
    hide Index;
  }

  lemma OthersKeepChain(keccak: Hasher, s: Inbound, e: Event)
    requires e.OnLife? && (e.life.Retry? || e.life.Status?)
    ensures ChainMoved(keccak, s, e, s.life.chain) && NumbersMoved(s, e, s.life.chain)
  {
    hide NumberOf;
  }

  lemma ChainIs(keccak: Hasher, l: Life, e: LifeEvent)
    requires Enabled(keccak, l, e) && !e.Enqueue?
    ensures LifeStep(keccak, l, e).chain
            == match e
               case Land(n) => Landed(l.chain, n)
               case Advance(account, times) => Advanced(l.chain, account, times)
               case Process(answer) => ChainAfter(keccak, l.chain, l.channel[0], answer)
               case Retry(_) => l.chain
               case Status(_, _) => l.chain
  {
    hide Index, Landed, Advanced;
  }

  lemma ChainMoves(keccak: Hasher, s: Inbound, e: Event)
    requires StepEnabled(keccak, s, e)
    ensures ChainMoved(keccak, s, e, Step(keccak, s, e).life.chain)
    ensures NumbersMoved(s, e, Step(keccak, s, e).life.chain)
  {
    hide ChainMoved, NumbersMoved, LifeStep, EnqueueAll, AllEnabled, HeadRun, Landed, Advanced, ChainAfter;
    match e
    case OnHead(_) => HeadKeepsChain(keccak, s, e);
    case OnLife(le) =>
      ChainIs(keccak, s.life, le);
      match le {
        case Land(_) => LandMoves(keccak, s, e);
        case Advance(_, _) => AdvanceMoves(keccak, s, e);
        case Process(_) => ProcessMoves(keccak, s, e);
        case Retry(_) => OthersKeepChain(keccak, s, e);
        case Status(_, _) => OthersKeepChain(keccak, s, e);
      }
  }

  /**
   * The Joltify chain over every run: every submission taken is recorded or in flight, once; the records are those
   * landed, in order; and an account's number counts its transactions.
   */
  lemma {:induction false} ChainOverRuns(keccak: Hasher, s: Inbound, events: seq<Event>, account: Address)
    requires Legal(keccak, s, events)
    ensures var c, c' := s.life.chain, RunAll(keccak, s, events).life.chain;
            && multiset(c.inFlight) + multiset(SeqOver(keccak, s, events, Submitted))
               == multiset(SeqOver(keccak, s, events, LandedBy)) + multiset(c'.inFlight)
            && c'.recorded == c.recorded + Records(SeqOver(keccak, s, events, LandedBy))
            && NumberOf(c', account) == NumberOf(c, account) + UsesOver(keccak, s, events, account)
    decreases |events|
  {
    if events == [] {
      assert s.life.chain.recorded + Records([]) == s.life.chain.recorded;
    } else {
      var e, s', rest := events[0], Step(keccak, s, events[0]), events[1..];
      ChainMoves(keccak, s, e);
      ChainOverRuns(keccak, s', rest, account);
      hide Step, StepEnabled, Submitted, LandedBy, Uses, NumberOf, Records;
      var s'' := RunAll(keccak, s', rest);
      Chained(multiset(s.life.chain.inFlight), multiset(Submitted(keccak, s, e)), multiset(LandedBy(keccak, s, e)),
              multiset(s'.life.chain.inFlight), multiset(SeqOver(keccak, s', rest, Submitted)),
              multiset(SeqOver(keccak, s', rest, LandedBy)), multiset(s''.life.chain.inFlight));
      RecordsAppend(s.life.chain.recorded, LandedBy(keccak, s, e), SeqOver(keccak, s', rest, LandedBy));
    }
  }

  lemma RecordsAppend(recorded: seq<Record<M.Request>>, xs: seq<Sending<M.Request>>, ys: seq<Sending<M.Request>>)
    ensures (recorded + Records(xs)) + Records(ys) == recorded + Records(xs + ys)
  {
  }
}
