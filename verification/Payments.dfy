/** When an outbound request can be paid twice, and what is paid out in all. */
module Payments {
  import opened Config
  import opened Wrappers
  import opened ByteTypes
  import opened Collections
  import opened Landing
  import opened Outbound
  import opened OutboundFlow

  /** A transfer is sent that the network takes. */
  predicate Pays(l: Life, e: LifeEvent) {
    e.Process? && l.channel != [] && e.answer.Submitted? && e.answer.taken
  }

  /**
   * A transfer that can be executed is sent for a request that is paid, or while another one for it can be executed
   * that carries another account or another nonce.
   */
  ghost predicate PaysRiskily(l: Life, e: LifeEvent) {
    && Pays(l, e)
    && (|| SendsRecorded(l.chain, PaymentOf(l.channel[0], e.answer))
        || SendsBeside(l.chain, PaymentOf(l.channel[0], e.answer)))
  }

  lemma ProcessIsSent(l: Life, answer: Answer)
    requires l.channel != []
    ensures LifeStep(l, Process(answer)).chain == ChainAfter(l.chain, l.channel[0], answer)
  {
  }

  lemma ProcessKeepsSafeIff(l: Life, answer: Answer)
    requires l.channel != [] && Safe(l.chain)
    ensures Safe(LifeStep(l, Process(answer)).chain) <==> !PaysRiskily(l, Process(answer))
  {
    hide Safe, LifeStep, SendsRecorded, SendsBeside, Broadcast;
    ProcessIsSent(l, answer);
    if Pays(l, Process(answer)) {
      SendKeepsSafeIff(l.chain, PaymentOf(l.channel[0], answer));
    }
  }

  lemma StepKeepsSafeIff(l: Life, e: LifeEvent)
    requires Enabled(l, e) && Safe(l.chain) && RecordedOnce(l.chain.recorded)
    ensures Safe(LifeStep(l, e).chain) <==> !PaysRiskily(l, e)
    ensures RecordedOnce(LifeStep(l, e).chain.recorded)
  {
    hide Safe, RecordedOnce, Landed, Advanced, LandsAgain, Numbered, CheckOutBoundTx;
    match e
    case Process(answer) =>
      ProcessKeepsSafeIff(l, answer);
      ProcessIsSent(l, answer);
    case Land(n) =>
      LandKeepsSafe(l.chain, n);
      LandRecordsOnceIff(l.chain, n);
    case Advance(account, times) =>
      AdvanceKeepsSafe(l.chain, account, times);
      AdvanceKeepsRest(l.chain, account, times);
    case Intake(_) =>
    case Retry(_) =>
    case Checked(_, _) =>
  }

  ghost predicate NeverPaysRiskily(l: Life, events: seq<LifeEvent>)
    decreases |events|
  {
    events != [] ==> !PaysRiskily(l, events[0]) && NeverPaysRiskily(LifeStep(l, events[0]), events[1..])
  }

  /** Whatever the chain still executes, in whatever order, every request is paid at most once. */
  ghost predicate CannotPayTwice(c: PayChain) {
    forall moves :: Possible(c, moves) ==> RecordedOnce(Moved(c, moves).recorded)
  }

  ghost predicate NeverCanPayTwice(l: Life, events: seq<LifeEvent>)
    decreases |events|
  {
    && CannotPayTwice(l.chain)
    && (events != [] ==> NeverCanPayTwice(LifeStep(l, events[0]), events[1..]))
  }

  lemma SafeIff(c: PayChain)
    requires RecordedOnce(c.recorded)
    ensures Safe(c) <==> CannotPayTwice(c)
  {
    if Safe(c) {
      forall moves | Possible(c, moves) ensures RecordedOnce(Moved(c, moves).recorded) {
        SafeStaysSafe(c, moves);
      }
    } else {
      var moves := UnsafeCanRecordTwice(c);
    }
  }

  lemma UnsafeNow(l: Life, events: seq<LifeEvent>)
    requires !Safe(l.chain) && RecordedOnce(l.chain.recorded)
    ensures !NeverCanPayTwice(l, events)
  {
    SafeIff(l.chain);
  }

  /**
   * Over every run: at no moment can the transfers in flight come to pay one request twice, exactly if none is sent
   * for a request that is paid, or beside another transfer for it that can be executed under another account or
   * nonce.
   */
  lemma {:induction false} NeverCanPayTwiceIff(l: Life, events: seq<LifeEvent>)
    requires Legal(l, events) && Safe(l.chain) && RecordedOnce(l.chain.recorded)
    ensures NeverCanPayTwice(l, events) <==> NeverPaysRiskily(l, events)
    ensures NeverPaysRiskily(l, events) ==> RecordedOnce(RunAll(l, events).chain.recorded)
    decreases |events|
  {
    SafeIff(l.chain);
    if events == [] {
    } else {
      hide Safe, LifeStep, Enabled, PaysRiskily, RecordedOnce, CannotPayTwice;
      StepKeepsSafeIff(l, events[0]);
      if PaysRiskily(l, events[0]) {
        UnsafeNow(LifeStep(l, events[0]), events[1..]);
      } else {
        NeverCanPayTwiceIff(LifeStep(l, events[0]), events[1..]);
      }
    }
  }

  // ---- With fresh nonces ----

  /** The nonce is not that of a transfer in flight which can still be executed: the query counts pending ones. */
  ghost predicate FreshNonce(l: Life, e: LifeEvent) {
    Pays(l, e) ==>
      && e.answer.nonce >= NumberOf(l.chain, e.answer.signer)
      && forall n :: 0 <= n < |l.chain.inFlight| ==> !Rivals(l.chain.inFlight[n], PaymentOf(l.channel[0], e.answer))
  }

  /** A transfer is sent for a request that is paid, or has another transfer that can still be executed. */
  ghost predicate PaysAgain(l: Life, e: LifeEvent) {
    && Pays(l, e)
    && (Has(l.chain.recorded, l.channel[0].key) || exists n: nat :: Threatens(l.chain, n, l.channel[0].key))
  }

  ghost predicate AllFresh(l: Life, events: seq<LifeEvent>)
    decreases |events|
  {
    events != [] ==> FreshNonce(l, events[0]) && AllFresh(LifeStep(l, events[0]), events[1..])
  }

  ghost predicate NeverPaysAgain(l: Life, events: seq<LifeEvent>)
    decreases |events|
  {
    events != [] ==> !PaysAgain(l, events[0]) && NeverPaysAgain(LifeStep(l, events[0]), events[1..])
  }

  lemma FreshRiskIff(l: Life, e: LifeEvent)
    requires FreshNonce(l, e)
    ensures PaysRiskily(l, e) <==> PaysAgain(l, e)
  {
    if Pays(l, e) {
      var s := PaymentOf(l.channel[0], e.answer);
      forall n: nat | Threatens(l.chain, n, s.rec.key) ensures !Rivals(l.chain.inFlight[n], s) {
      }
    }
  }

  /**
   * The nonce of a transfer is asked for anew each time and counts those pending, so nothing keeps a second transfer
   * from being executed beside the first: the run pays safely exactly if it never sends again what it has not seen
   * fail.
   */
  lemma {:induction false} FreshNoncesRiskIff(l: Life, events: seq<LifeEvent>)
    requires AllFresh(l, events)
    ensures NeverPaysRiskily(l, events) <==> NeverPaysAgain(l, events)
    decreases |events|
  {
    if events == [] {
    } else {
      hide LifeStep, PaysRiskily, PaysAgain, FreshNonce;
      FreshRiskIff(l, events[0]);
      FreshNoncesRiskIff(LifeStep(l, events[0]), events[1..]);
    }
  }

  // ---- What is paid in all ----

  /** The request was made: its number is that of an intake. */
  ghost predicate Asked(asked: seq<Request>, x: Item) {
    x.key < |asked| && asked[x.key] == x.item
  }

  ghost predicate ChainAsked(asked: seq<Request>, c: PayChain) {
    && (forall x :: x in c.recorded ==> Asked(asked, x))
    && (forall s :: s in c.inFlight ==> Asked(asked, s.rec))
  }

  ghost predicate AllAsked(asked: seq<Request>, l: Life) {
    && l.made == |asked|
    && (forall x :: x in Everywhere(l) ==> Asked(asked, x))
    && ChainAsked(asked, l.chain)
    && (forall x :: x in l.sent ==> Has(l.chain.recorded, x.key))
  }

  lemma ProcessKeepsChainAsked(asked: seq<Request>, l: Life, answer: Answer)
    requires Enabled(l, Process(answer)) && AllAsked(asked, l)
    ensures ChainAsked(asked, LifeStep(l, Process(answer)).chain)
  {
    hide Asked, LifeStep, Has;
    assert l.channel[0] in l.channel && l.channel[0] in Everywhere(l);
    ProcessIsSent(l, answer);
  }

  lemma LandKeepsChainAsked(asked: seq<Request>, c: PayChain, n: nat)
    requires n < |c.inFlight| && ChainAsked(asked, c)
    ensures ChainAsked(asked, Landed(c, n))
  {
    hide Asked;
    assert c.inFlight[n] in c.inFlight;
    assert forall s :: s in Landed(c, n).inFlight ==> s in c.inFlight;
  }

  lemma StepKeepsChainAsked(asked: seq<Request>, l: Life, e: LifeEvent)
    requires Enabled(l, e) && AllAsked(asked, l)
    ensures ChainAsked(asked, LifeStep(l, e).chain)
  {
    hide Asked, CheckOutBoundTx, Numbered, Landed, Has;
    match e
    case Land(n) => LandKeepsChainAsked(asked, l.chain, n);
    case Process(answer) => ProcessKeepsChainAsked(asked, l, answer);
    case Advance(_, _) =>
    case Intake(_) =>
    case Retry(_) =>
    case Checked(_, _) =>
  }

  lemma LandKeepsHas(c: PayChain, n: nat, key: nat)
    requires n < |c.inFlight| && Has(c.recorded, key)
    ensures Has(Landed(c, n).recorded, key)
  {
    var i :| 0 <= i < |c.recorded| && c.recorded[i].key == key;
    assert Landed(c, n).recorded[i] == c.recorded[i];
  }

  lemma StepKeepsSentPaid(l: Life, e: LifeEvent)
    requires Enabled(l, e) && forall x :: x in l.sent ==> Has(l.chain.recorded, x.key)
    ensures forall x :: x in LifeStep(l, e).sent ==> Has(LifeStep(l, e).chain.recorded, x.key)
  {
    hide Has, CheckOutBoundTx, Numbered, Landed, Advanced;
    match e
    case Land(n) =>
      forall x | x in l.sent ensures Has(Landed(l.chain, n).recorded, x.key) {
        LandKeepsHas(l.chain, n, x.key);
      }
    case Advance(account, times) => AdvanceKeepsRest(l.chain, account, times);
    case Process(answer) => ProcessIsSent(l, answer);
    case Intake(_) =>
    case Retry(_) =>
    case Checked(_, _) =>
  }

  lemma AskedMore(asked: seq<Request>, more: seq<Request>, x: Item)
    ensures Asked(asked, x) ==> Asked(asked + more, x)
    ensures x in Numbered(|asked|, more) ==> Asked(asked + more, x)
  {
    if x in Numbered(|asked|, more) {
      var i :| 0 <= i < |more| && Numbered(|asked|, more)[i] == x;
      assert (asked + more)[|asked| + i] == more[i];
    }
  }

  lemma ChainAskedMore(asked: seq<Request>, more: seq<Request>, c: PayChain)
    requires ChainAsked(asked, c)
    ensures ChainAsked(asked + more, c)
  {
    hide Asked, Numbered;
    forall x: Item ensures Asked(asked, x) ==> Asked(asked + more, x) {
      AskedMore(asked, more, x);
    }
  }

  lemma StepKeepsPlacesAsked(asked: seq<Request>, l: Life, e: LifeEvent)
    requires Enabled(l, e) && AllAsked(asked, l)
    ensures LifeStep(l, e).made == |asked + Taken(e)|
    ensures forall x :: x in Everywhere(LifeStep(l, e)) ==> Asked(asked + Taken(e), x)
  {
    StepKeepsRequests(l, e);
    hide LifeStep, Enabled, Everywhere, Taken, Numbered, Asked, Has, ChainAsked;
    forall x | x in Everywhere(LifeStep(l, e)) ensures Asked(asked + Taken(e), x) {
      AskedMore(asked, Taken(e), x);
    }
  }

  lemma StepKeepsAsked(asked: seq<Request>, l: Life, e: LifeEvent)
    requires Enabled(l, e) && AllAsked(asked, l)
    ensures AllAsked(asked + Taken(e), LifeStep(l, e))
  {
    hide LifeStep, Enabled, Everywhere, Taken, Asked, Has, ChainAsked;
    StepKeepsPlacesAsked(asked, l, e);
    StepKeepsChainAsked(asked, l, e);
    ChainAskedMore(asked, Taken(e), LifeStep(l, e).chain);
    StepKeepsSentPaid(l, e);
  }

  lemma {:induction false} RunKeepsAsked(asked: seq<Request>, l: Life, events: seq<LifeEvent>)
    requires Legal(l, events) && AllAsked(asked, l)
    ensures AllAsked(asked + IntakeOf(TxsOf(events)), RunAll(l, events))
    decreases |events|
  {
    hide AllAsked, LifeStep, Enabled, IntakeOf, TxsOf, Taken;
    if events == [] {
      NoIntake(0);
      assert asked + [] == asked;
    } else {
      StepKeepsAsked(asked, l, events[0]);
      RunKeepsAsked(asked + Taken(events[0]), LifeStep(l, events[0]), events[1..]);
      IntakeCons(events);
      var later := IntakeOf(TxsOf(events[1..]));
      assert asked + (Taken(events[0]) + later) == (asked + Taken(events[0])) + later;
    }
  }

  function PaidAmount(x: Item): nat {
    x.item.amount
  }

  function AmountAt(asked: seq<Request>): int -> nat {
    (i: int) => if 0 <= i < |asked| then asked[i].amount else 0
  }

  function Upto(n: nat): (s: set<int>)
    ensures forall i :: i in s <==> 0 <= i < n
  {
    if n == 0 then {} else Upto(n - 1) + {n - 1}
  }

  lemma {:induction false} SumUpTo(asked: seq<Request>, n: nat)
    requires n <= |asked|
    ensures Sum(Upto(n), AmountAt(asked)) == SumSeq(asked[..n], Amount)
  {
    if n == 0 {
      assert Upto(0) == {};
    } else {
      assert Upto(n) - {n - 1} == Upto(n - 1);
      SumRemove(Upto(n), AmountAt(asked), n - 1);
      SumUpTo(asked, n - 1);
      assert asked[..n] == asked[..n - 1] + [asked[n - 1]];
      SumSeqAppend(asked[..n - 1], [asked[n - 1]], Amount);
      assert SumSeq([asked[n - 1]], Amount) == asked[n - 1].amount;
    }
  }

  lemma {:induction false} SumByKey(asked: seq<Request>, recs: seq<Item>, keys: seq<int>)
    requires |keys| == |recs| && forall i :: 0 <= i < |recs| ==> keys[i] == recs[i].key && Asked(asked, recs[i])
    ensures SumSeq(recs, PaidAmount) == SumSeq(keys, AmountAt(asked))
  {
    if recs == [] {
    } else {
      assert keys[0] == recs[0].key && Asked(asked, recs[0]);
      forall i | 0 <= i < |recs[1..]| ensures keys[1..][i] == recs[1..][i].key && Asked(asked, recs[1..][i]) {
        assert keys[i + 1] == recs[i + 1].key && Asked(asked, recs[i + 1]);
      }
      SumByKey(asked, recs[1..], keys[1..]);
    }
  }

  lemma PaidWithinAsked(asked: seq<Request>, recs: seq<Item>)
    requires RecordedOnce(recs) && forall x :: x in recs ==> Asked(asked, x)
    ensures SumSeq(recs, PaidAmount) <= SumSeq(asked, Amount)
  {
    var keys: seq<int> := seq(|recs|, i requires 0 <= i < |recs| => recs[i].key);
    var all := Upto(|asked|);
    forall i | 0 <= i < |recs| ensures keys[i] == recs[i].key && Asked(asked, recs[i]) && keys[i] in all {
      assert recs[i] in recs;
    }
    SumByKey(asked, recs, keys);
    DistinctSumBound(keys, all, AmountAt(asked));
    SumUpTo(asked, |asked|);
    assert asked[..|asked|] == asked;
  }

  lemma NothingAsked()
    ensures AllAsked([], NEWBORN)
  {
    assert Everywhere(NEWBORN) == multiset{};
  }

  lemma RecordedAreAsked(txs: seq<JoltTx>, recorded: seq<Item>)
    requires forall x :: x in recorded ==> Asked(IntakeOf(txs), x)
    ensures forall x :: x in recorded ==> exists tx, msg :: tx in txs && IsAskedBy(tx, msg, x.item)
  {
    forall x | x in recorded ensures exists tx, msg :: tx in txs && IsAskedBy(tx, msg, x.item) {
      assert Asked(IntakeOf(txs), x);
      TakenAreAsked(txs, x.item);
    }
  }

  /**
   * Over every run that never pays riskily: no request is paid twice, every payment is for a request that was made and
   * goes, with all its JUSD, to the sender of a message that paid, a request counts as sent only when it is paid, and
   * the total paid out is at most the JUSD paid into the pools.
   */
  lemma PaymentSafetyOverRuns(events: seq<LifeEvent>)
    requires Legal(NEWBORN, events) && NeverPaysRiskily(NEWBORN, events)
    ensures var l, asked := RunAll(NEWBORN, events), IntakeOf(TxsOf(events));
            && RecordedOnce(l.chain.recorded)
            && (forall x :: x in l.chain.recorded ==> Asked(asked, x))
            && (forall x :: x in l.chain.recorded ==>
                  exists tx, msg :: tx in TxsOf(events) && IsAskedBy(tx, msg, x.item))
            && (forall x :: x in l.sent ==> Has(l.chain.recorded, x.key))
            && SumSeq(l.chain.recorded, PaidAmount) <= PaidIn(TxsOf(events))
  {
    var l, asked := RunAll(NEWBORN, events), IntakeOf(TxsOf(events));
    NothingAsked();
    RunKeepsAsked([], NEWBORN, events);
    assert [] + asked == asked;
    NeverCanPayTwiceIff(NEWBORN, events);
    PaidWithinAsked(asked, l.chain.recorded);
    RecordedAreAsked(TxsOf(events), l.chain.recorded);
    IntakeConservesValue(TxsOf(events));
  }

  // ---- A run that pays twice ----

  ghost predicate Goes(l: Life, e: LifeEvent, l': Life) {
    Enabled(l, e) && FreshNonce(l, e) && l' == LifeStep(l, e)
  }

  lemma RunCons(l: Life, e: LifeEvent, l': Life, events: seq<LifeEvent>)
    requires Goes(l, e, l')
    ensures RunAll(l, [e] + events) == RunAll(l', events)
    ensures Legal(l', events) && AllFresh(l', events) ==> Legal(l, [e] + events) && AllFresh(l, [e] + events)
  {
    hide LifeStep, Enabled, FreshNonce;
    assert ([e] + events)[1..] == events;
  }

  function InRetry(x: Item, c: PayChain): Life {
    NEWBORN.(retry := multiset{x}, made := 1, chain := c)
  }

  function InChannel(x: Item, c: PayChain): Life {
    NEWBORN.(channel := [x], made := 1, chain := c)
  }

  function Checking(x: Item, c: PayChain): Life {
    NEWBORN.(awaiting := [x], made := 1, chain := c)
  }

  lemma IntakeGoes(tx: JoltTx, r: Request)
    requires CheckOutBoundTx(tx) == [r]
    ensures Goes(NEWBORN, Intake(tx), InRetry(Record(0, r), NEWBORN.chain))
  {
    assert Numbered(0, [r]) == [Record(0, r)];
  }

  lemma RetryGoes(x: Item, c: PayChain)
    ensures Goes(InRetry(x, c), Retry(Some(x)), InChannel(x, c))
  {
  }

  lemma SendGoes(x: Item, c: PayChain, signer: Address, nonce: nat, reported: bool)
    requires nonce >= NumberOf(c, signer)
    requires forall n :: 0 <= n < |c.inFlight| ==> !Rivals(c.inFlight[n], Sending(x, signer, nonce))
    ensures var c' := Broadcast(c, Sending(x, signer, nonce));
            Goes(InChannel(x, c), Process(Submitted(signer, nonce, true, reported)),
                 if reported then Checking(x, c') else InRetry(x, c'))
  {
  }

  lemma LandGoes(x: Item, c: PayChain)
    requires c.inFlight != [] && Next(c, c.inFlight[0])
    ensures Goes(Checking(x, c), Land(0), Checking(x, Landed(c, 0)))
  {
  }

  /** The events lead through these states. */
  ghost predicate Leads(ls: seq<Life>, events: seq<LifeEvent>) {
    |ls| == |events| + 1 && forall i :: 0 <= i < |events| ==> Goes(ls[i], events[i], ls[i + 1])
  }

  lemma {:induction false} RunLeads(ls: seq<Life>, events: seq<LifeEvent>)
    requires Leads(ls, events)
    ensures Legal(ls[0], events) && AllFresh(ls[0], events) && RunAll(ls[0], events) == ls[|events|]
    decreases |events|
  {
    hide Goes, LifeStep, Enabled, FreshNonce;
    if events == [] {
    } else {
      assert Goes(ls[0], events[0], ls[1]);
      RunLeads(ls[1..], events[1..]);
      RunCons(ls[0], events[0], ls[1], events[1..]);
      assert events == [events[0]] + events[1..];
    }
  }

  /** The chain after each step that changes it. */
  function TwiceChains(x: Item, a: Address): (cs: (PayChain, PayChain, PayChain, PayChain))
    ensures cs.1.inFlight != [] && Next(cs.1, cs.1.inFlight[0]) && cs.2.inFlight != [] && Next(cs.2, cs.2.inFlight[0])
    ensures NumberOf(NEWBORN.chain, a) == NumberOf(cs.0, a) == 0 && NEWBORN.chain.inFlight == []
    ensures cs.0.inFlight == [Sending(x, a, 0)] && cs.3.recorded == [x, x]
  {
    var c1 := Broadcast(NEWBORN.chain, Sending(x, a, 0));
    var c2 := Broadcast(c1, Sending(x, a, 1));
    var c3 := Landed(c2, 0);
    assert c3.inFlight == [Sending(x, a, 1)];
    (c1, c2, c3, Landed(c3, 0))
  }

  function TwiceEvents(tx: JoltTx, x: Item, a: Address): seq<LifeEvent> {
    [Intake(tx), Retry(Some(x)), Process(Submitted(a, 0, true, false)), Retry(Some(x)),
     Process(Submitted(a, 1, true, true)),
     Land(0), Land(0)]
  }

  function TwiceStates(x: Item, a: Address): seq<Life> {
    var cs := TwiceChains(x, a);
    [NEWBORN, InRetry(x, NEWBORN.chain), InChannel(x, NEWBORN.chain), InRetry(x, cs.0), InChannel(x, cs.0),
     Checking(x, cs.1), Checking(x, cs.2), Checking(x, cs.3)]
  }

  lemma TwiceLeads(tx: JoltTx, r: Request, a: Address)
    requires CheckOutBoundTx(tx) == [r]
    ensures Leads(TwiceStates(Record(0, r), a), TwiceEvents(tx, Record(0, r), a))
    ensures TwiceStates(Record(0, r), a)[7].chain.recorded == [Record(0, r), Record(0, r)]
  {
    var x := Record(0, r);
    var cs := TwiceChains(x, a);
    assert Checking(x, cs.3).chain == cs.3;
    hide Goes, InRetry, InChannel, Checking, Broadcast, Landed, CheckOutBoundTx, NumberOf, Next;
    IntakeGoes(tx, r);
    RetryGoes(x, NEWBORN.chain);
    SendGoes(x, NEWBORN.chain, a, 0, false);
    RetryGoes(x, cs.0);
    SendGoes(x, cs.0, a, 1, true);
    LandGoes(x, cs.1);
    LandGoes(x, cs.2);
  }

  /**
   * A send fails for the node but not for the network. The retry asks for a nonce, which counts the transfer
   * pending, and both are executed.
   */
  lemma RefusedSendPaysTwice(tx: JoltTx, r: Request, a: Address)
    requires CheckOutBoundTx(tx) == [r]
    ensures var x := Record(0, r);
            var events := TwiceEvents(tx, x, a);
            && Legal(NEWBORN, events) && AllFresh(NEWBORN, events)
            && RunAll(NEWBORN, events).chain.recorded == [x, x]
  {
    hide Goes, RunAll, Legal, AllFresh, CheckOutBoundTx, TwiceChains, InRetry, InChannel, Checking;
    TwiceLeads(tx, r, a);
    RunLeads(TwiceStates(Record(0, r), a), TwiceEvents(tx, Record(0, r), a));
  }
}
