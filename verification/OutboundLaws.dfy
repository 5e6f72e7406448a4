/**
 * Where the handlers put outbound requests and transfers, told from the events and answers: what enters and what leaves
 * each place over whole runs (bridge/joltifyBridge.go:249-258, 270-277, 339-370; pubchain/tx_inbound.go:510-549).
 */
module OutboundLaws {
  import opened Config
  import opened Wrappers
  import opened ByteTypes
  import opened Collections
  import opened Landing
  import opened Outbound
  import opened OutboundFlow

  // ---- What one event puts into a place and takes from it ----

  predicate Handles(l: Life, e: LifeEvent) {
    e.Process? && l.channel != []
  }

  predicate Ends(l: Life, e: LifeEvent) {
    e.Checked? && e.i < |l.awaiting|
  }

  /** Nothing learnt of a transfer: an error before it, or none reported. */
  predicate NotSubmitted(a: Answer) {
    a.Failed? || (a.Submitted? && !a.reported)
  }

  function SentTo(l: Life, e: LifeEvent): seq<Item> {
    if e.Retry? && e.pick.Some? then [e.pick.value] else []
  }

  function ReceivedFrom(l: Life, e: LifeEvent): seq<Item> {
    if Handles(l, e) then [l.channel[0]] else []
  }

  /** The requests the event takes in, numbered on. */
  ghost function MadeBy(l: Life, e: LifeEvent): seq<Item> {
    if e.Intake? then Numbered(l.made, AskedIn(e.tx)) else []
  }

  /** A receipt whose status is not that of success. */
  predicate Reverted(receipt: Option<nat>) {
    receipt.Some? && receipt.value != 1
  }

  ghost function Bagged(l: Life, e: LifeEvent): multiset<Item> {
    if e.Intake? then multiset(MadeBy(l, e))
    else if Handles(l, e) && NotSubmitted(e.answer) then multiset{l.channel[0]}
    else if Ends(l, e) && Reverted(e.receipt) then multiset{l.awaiting[e.i]}
    else multiset{}
  }

  function Unbagged(l: Life, e: LifeEvent): multiset<Item> {
    if e.Retry? && e.pick.Some? then multiset{e.pick.value} else multiset{}
  }

  /** A status check starts for each transfer reported sent. */
  function Polled(l: Life, e: LifeEvent): multiset<Item> {
    if Handles(l, e) && e.answer.Submitted? && e.answer.reported then multiset{l.channel[0]} else multiset{}
  }

  function Unpolled(l: Life, e: LifeEvent): multiset<Item> {
    if Ends(l, e) then multiset{l.awaiting[e.i]} else multiset{}
  }

  function SentBy(l: Life, e: LifeEvent): multiset<Item> {
    if Ends(l, e) && e.receipt == Some(1) then multiset{l.awaiting[e.i]} else multiset{}
  }

  function LostBy(l: Life, e: LifeEvent): multiset<Item> {
    if Handles(l, e) && (e.answer.SignerError? || e.answer.NotSigner?) then multiset{l.channel[0]}
    else if Ends(l, e) && e.receipt.None? then multiset{l.awaiting[e.i]}
    else multiset{}
  }

  // ---- One event ----

  lemma CheckEnds(l: Life, i: nat, receipt: Option<nat>)
    requires i < |l.awaiting|
    ensures multiset(l.awaiting) == multiset{l.awaiting[i]} + multiset(LifeStep(l, Checked(i, receipt)).awaiting)
  {
    assert l.awaiting == l.awaiting[..i] + [l.awaiting[i]] + l.awaiting[i + 1..];
  }

  lemma IntakeIs(l: Life, tx: JoltTx)
    ensures LifeStep(l, Intake(tx))
            == l.(retry := l.retry + multiset(MadeBy(l, Intake(tx))), made := l.made + |MadeBy(l, Intake(tx))|)
  {
    hide CheckOutBoundTx, AskedIn;
    RequestsAreThePayments(tx);
  }

  lemma ChannelMoves(l: Life, e: LifeEvent)
    requires Enabled(l, e)
    ensures l.channel + SentTo(l, e) == ReceivedFrom(l, e) + LifeStep(l, e).channel
  {
    ChannelIs(l, e);
    hide LifeStep, Enabled;
  }

  lemma ChannelIs(l: Life, e: LifeEvent)
    requires Enabled(l, e)
    ensures LifeStep(l, e).channel
            == if e.Process? then l.channel[1..]
               else if e.Retry? && e.pick.Some? then l.channel + [e.pick.value]
               else l.channel
    ensures e.Process? ==> l.channel != []
  {
    hide CheckOutBoundTx, Numbered, ChainAfter, Landed, Advanced;
  }

  /** A receipt decides about its request alone: success sends it, another status puts it back, none loses it. */
  lemma ReceiptDecides(l: Life, i: nat, receipt: Option<nat>)
    requires i < |l.awaiting|
    ensures var l', x := LifeStep(l, Checked(i, receipt)), multiset{l.awaiting[i]};
            && multiset(l.awaiting) == multiset(l'.awaiting) + x
            && l'.sent == (if receipt == Some(1) then l.sent + x else l.sent)
            && l'.retry == (if receipt.Some? && receipt != Some(1) then l.retry + x else l.retry)
            && l'.lost == (if receipt.None? then l.lost + x else l.lost)
            && l'.channel == l.channel && l'.chain == l.chain && l'.made == l.made
  {
    CheckEnds(l, i, receipt);
  }

  /** The bag and the two ends after one event. */
  ghost predicate BagMoved(l: Life, e: LifeEvent, l': Life) {
    && l.retry + Bagged(l, e) == Unbagged(l, e) + l'.retry && l'.made == l.made + |MadeBy(l, e)|
    && l'.sent == l.sent + SentBy(l, e) && l'.lost == l.lost + LostBy(l, e)
  }

  lemma IntakeBags(l: Life, tx: JoltTx)
    ensures BagMoved(l, Intake(tx), LifeStep(l, Intake(tx)))
  {
    hide LifeStep, AskedIn, MadeBy;
    IntakeIs(l, tx);
  }

  lemma ProcessBags(l: Life, answer: Answer)
    requires l.channel != []
    ensures BagMoved(l, Process(answer), LifeStep(l, Process(answer)))
  {
    hide ChainAfter;
  }

  lemma CheckedBags(l: Life, i: nat, receipt: Option<nat>)
    requires i < |l.awaiting|
    ensures BagMoved(l, Checked(i, receipt), LifeStep(l, Checked(i, receipt)))
  {
    ReceiptDecides(l, i, receipt);
    hide LifeStep;
  }

  lemma RetryBags(l: Life, pick: Option<Item>)
    requires pick.Some? ==> pick.value in l.retry
    ensures BagMoved(l, Retry(pick), LifeStep(l, Retry(pick)))
  {
  }

  lemma ChainBags(l: Life, e: LifeEvent)
    requires e.Land? || e.Advance?
    ensures BagMoved(l, e, LifeStep(l, e))
  {
    hide Landed, Advanced;
  }

  lemma BagMoves(l: Life, e: LifeEvent)
    requires Enabled(l, e)
    ensures BagMoved(l, e, LifeStep(l, e))
  {
    hide LifeStep, BagMoved;
    match e
    case Intake(tx) => IntakeBags(l, tx);
    case Retry(pick) => RetryBags(l, pick);
    case Process(answer) => ProcessBags(l, answer);
    case Checked(i, receipt) => CheckedBags(l, i, receipt);
    case Land(_) => ChainBags(l, e);
    case Advance(_, _) => ChainBags(l, e);
  }

  lemma ChecksMove(l: Life, e: LifeEvent)
    requires Enabled(l, e)
    ensures multiset(l.awaiting) + Polled(l, e) == Unpolled(l, e) + multiset(LifeStep(l, e).awaiting)
  {
    hide CheckOutBoundTx, Numbered, ChainAfter, Landed, Advanced;
    if e.Checked? {
      CheckEnds(l, e.i, e.receipt);
    }
  }

  /**
   * No answer is refused: the intake and the handler take anything, a check can end with any receipt, with one of
   * success once its request is paid, and any request in the bag may be retried while the channel has room.
   */
  lemma NeverStuck(l: Life)
    ensures forall tx :: Enabled(l, Intake(tx))
    ensures forall answer :: Enabled(l, Process(answer)) <==> l.channel != []
    ensures forall i: nat, receipt :: Enabled(l, Checked(i, receipt)) <==>
              && i < |l.awaiting|
              && (receipt != Some(1) || exists x :: x in l.chain.recorded && x.key == l.awaiting[i].key)
    ensures Enabled(l, Retry(None))
    ensures forall x :: Enabled(l, Retry(Some(x))) <==> x in l.retry && |l.channel| < REQ_CACHE_SIZE
    ensures forall n: nat :: Enabled(l, Land(n)) <==>
              && n < |l.chain.inFlight|
              && l.chain.inFlight[n].number == NumberOf(l.chain, l.chain.inFlight[n].account)
  {
    hide NumberOf;
    forall i: nat, receipt
      ensures Enabled(l, Checked(i, receipt)) <==>
                && i < |l.awaiting|
                && (receipt != Some(1) || exists x :: x in l.chain.recorded && x.key == l.awaiting[i].key)
    {
      if i < |l.awaiting| {
        PaidHas(l.chain.recorded, l.awaiting[i].key);
      }
    }
  }

  lemma PaidHas(recorded: seq<Item>, key: nat)
    ensures Has(recorded, key) <==> exists x :: x in recorded && x.key == key
  {
    if Has(recorded, key) {
      var i :| 0 <= i < |recorded| && recorded[i].key == key;
      assert recorded[i] in recorded;
    }
    if x :| x in recorded && x.key == key {
      var i :| 0 <= i < |recorded| && recorded[i] == x;
    }
  }

  // ---- Whole runs ----

  /** What a rule gives for each event of the run, in order. */
  ghost function SeqOver<X>(l: Life, events: seq<LifeEvent>, f: (Life, LifeEvent) -> seq<X>): seq<X>
    decreases |events|
  {
    if events == [] then [] else f(l, events[0]) + SeqOver(LifeStep(l, events[0]), events[1..], f)
  }

  ghost function BagOver<X>(l: Life, events: seq<LifeEvent>, f: (Life, LifeEvent) -> multiset<X>): multiset<X>
    decreases |events|
  {
    if events == [] then multiset{} else f(l, events[0]) + BagOver(LifeStep(l, events[0]), events[1..], f)
  }

  /** The channel is first in, first out over every run. */
  lemma {:induction false} ChannelInOrder(l: Life, events: seq<LifeEvent>)
    requires Legal(l, events)
    ensures l.channel + SeqOver(l, events, SentTo) == SeqOver(l, events, ReceivedFrom) + RunAll(l, events).channel
    decreases |events|
  {
    if events == [] {
      assert l.channel + [] == [] + l.channel;
    } else {
      hide LifeStep, Enabled, SentTo, ReceivedFrom;
      var e, l', rest := events[0], LifeStep(l, events[0]), events[1..];
      ChannelMoves(l, e);
      ChannelInOrder(l', rest);
      ChainedSeq(l.channel, SentTo(l, e), ReceivedFrom(l, e), l'.channel, SeqOver(l', rest, SentTo),
                 SeqOver(l', rest, ReceivedFrom), RunAll(l', rest).channel);
    }
  }

  /**
   * The retry bag over every run: it gains what the transactions ask for, the requests whose sending failed and those
   * whose receipt is one of failure, and loses those picked for a retry.
   */
  lemma {:induction false} BagBalance(l: Life, events: seq<LifeEvent>)
    requires Legal(l, events)
    ensures l.retry + BagOver(l, events, Bagged) == BagOver(l, events, Unbagged) + RunAll(l, events).retry
    decreases |events|
  {
    if events == [] {
    } else {
      hide LifeStep, Enabled, Bagged, Unbagged;
      var e, l', rest := events[0], LifeStep(l, events[0]), events[1..];
      BagMoves(l, e);
      BagBalance(l', rest);
      Chained(l.retry, Bagged(l, e), Unbagged(l, e), l'.retry, BagOver(l', rest, Bagged),
              BagOver(l', rest, Unbagged), RunAll(l', rest).retry);
    }
  }

  /** A status check starts for each transfer reported sent, and ends with a receipt or without one. */
  lemma {:induction false} CheckBalance(l: Life, events: seq<LifeEvent>)
    requires Legal(l, events)
    ensures multiset(l.awaiting) + BagOver(l, events, Polled)
            == BagOver(l, events, Unpolled) + multiset(RunAll(l, events).awaiting)
    decreases |events|
  {
    if events == [] {
    } else {
      hide LifeStep, Enabled, Polled, Unpolled;
      var e, l', rest := events[0], LifeStep(l, events[0]), events[1..];
      ChecksMove(l, e);
      CheckBalance(l', rest);
      Chained(multiset(l.awaiting), Polled(l, e), Unpolled(l, e), multiset(l'.awaiting), BagOver(l', rest, Polled),
              BagOver(l', rest, Unpolled), multiset(RunAll(l', rest).awaiting));
    }
  }

  /**
   * What counts as sent are the requests with a receipt of success; lost are those of failed signer checks and those
   * whose receipt was never found.
   */
  lemma {:induction false} EndsOverRuns(l: Life, events: seq<LifeEvent>)
    requires Legal(l, events)
    ensures RunAll(l, events).sent == l.sent + BagOver(l, events, SentBy)
    ensures RunAll(l, events).lost == l.lost + BagOver(l, events, LostBy)
    decreases |events|
  {
    if events == [] {
    } else {
      hide LifeStep, Enabled, SentBy, LostBy;
      var e, l', rest := events[0], LifeStep(l, events[0]), events[1..];
      BagMoves(l, e);
      EndsOverRuns(l', rest);
      var l'' := RunAll(l', rest);
      Joined(l.sent, SentBy(l, e), l'.sent, BagOver(l', rest, SentBy), l''.sent, BagOver(l, events, SentBy));
      Joined(l.lost, LostBy(l, e), l'.lost, BagOver(l', rest, LostBy), l''.lost, BagOver(l, events, LostBy));
    }
  }

  // ---- The numbers, from the events alone ----

  predicate Retries(e: LifeEvent) {
    e.Retry? && e.pick.Some?
  }

  predicate Processes(e: LifeEvent) {
    e.Process?
  }

  predicate StartsCheck(e: LifeEvent) {
    e.Process? && e.answer.Submitted? && e.answer.reported
  }

  predicate EndsCheck(e: LifeEvent) {
    e.Checked?
  }

  predicate FailsProcessing(e: LifeEvent) {
    e.Process? && NotSubmitted(e.answer)
  }

  predicate FindsFailure(e: LifeEvent) {
    e.Checked? && Reverted(e.receipt)
  }

  function One(b: bool): nat {
    if b then 1 else 0
  }

  lemma StepCounts(l: Life, e: LifeEvent)
    requires Enabled(l, e)
    ensures var l' := LifeStep(l, e);
            && |l'.channel| + One(Processes(e)) == |l.channel| + One(Retries(e))
            && |l'.retry| + One(Retries(e))
               == |l.retry| + (l'.made - l.made) + One(FailsProcessing(e)) + One(FindsFailure(e))
            && |l'.awaiting| + One(EndsCheck(e)) == |l.awaiting| + One(StartsCheck(e))
  {
    hide LifeStep, AskedIn, Numbered;
    ChannelMoves(l, e);
    BagMoves(l, e);
    ChecksMove(l, e);
    var l' := LifeStep(l, e);
    assert |l.channel + SentTo(l, e)| == |ReceivedFrom(l, e) + l'.channel|;
    assert |l.retry + Bagged(l, e)| == |Unbagged(l, e) + l'.retry|;
    assert |multiset(l.awaiting) + Polled(l, e)| == |Unpolled(l, e) + multiset(l'.awaiting)|;
  }

  /** The numbers of requests in the channel, in the bag and under a check after every run, from events and answers. */
  lemma {:induction false} NumbersInPlaces(l: Life, events: seq<LifeEvent>)
    requires Legal(l, events)
    ensures var l' := RunAll(l, events);
            && |l'.channel| + Count(events, Processes) == |l.channel| + Count(events, Retries)
            && |l'.retry| + Count(events, Retries)
               == |l.retry| + (l'.made - l.made) + Count(events, FailsProcessing) + Count(events, FindsFailure)
            && |l'.awaiting| + Count(events, EndsCheck) == |l.awaiting| + Count(events, StartsCheck)
    decreases |events|
  {
    if events == [] {
    } else {
      hide LifeStep, Enabled, Processes, Retries, FailsProcessing, FindsFailure, EndsCheck, StartsCheck;
      StepCounts(l, events[0]);
      NumbersInPlaces(LifeStep(l, events[0]), events[1..]);
    }
  }

  // ---- The chain ----

  /** The transfers the network takes, under the number of the request and with the nonce asked for. */
  function Transferred(l: Life, e: LifeEvent): seq<Sending<Request>> {
    if Handles(l, e) && e.answer.Submitted? && e.answer.taken
    then [Sending(l.channel[0], e.answer.signer, e.answer.nonce)] else []
  }

  predicate Lands(l: Life, e: LifeEvent) {
    e.Land? && e.n < |l.chain.inFlight|
  }

  function LandedBy(l: Life, e: LifeEvent): seq<Sending<Request>> {
    if Lands(l, e) then [l.chain.inFlight[e.n]] else []
  }

  /** How many numbers of the account the event uses up. */
  function Uses(l: Life, e: LifeEvent, account: Address): nat {
    if Lands(l, e) && l.chain.inFlight[e.n].account == account then 1
    else if e.Advance? && e.account == account then e.times
    else 0
  }

  ghost function UsesOver(l: Life, events: seq<LifeEvent>, account: Address): nat
    decreases |events|
  {
    if events == [] then 0 else Uses(l, events[0], account) + UsesOver(LifeStep(l, events[0]), events[1..], account)
  }

  function Records(subs: seq<Sending<Request>>): seq<Item> {
    seq(|subs|, i requires 0 <= i < |subs| => subs[i].rec)
  }

  ghost predicate ChainMoved(l: Life, e: LifeEvent, c': PayChain) {
    && multiset(l.chain.inFlight) + multiset(Transferred(l, e)) == multiset(LandedBy(l, e)) + multiset(c'.inFlight)
    && c'.recorded == l.chain.recorded + Records(LandedBy(l, e))
    && forall a :: NumberOf(c', a) == NumberOf(l.chain, a) + Uses(l, e, a)
  }

  lemma LandMoves(l: Life, n: nat)
    requires n < |l.chain.inFlight|
    ensures ChainMoved(l, Land(n), Landed(l.chain, n))
  {
    var fs := l.chain.inFlight;
    assert fs == fs[..n] + [fs[n]] + fs[n + 1..];
    AdvanceKeepsRest(l.chain, fs[n].account, 1);
  }

  lemma AdvanceMoves(l: Life, account: Address, times: nat)
    ensures ChainMoved(l, Advance(account, times), Advanced(l.chain, account, times))
  {
    AdvanceKeepsRest(l.chain, account, times);
  }

  lemma ProcessMoves(l: Life, answer: Answer)
    requires l.channel != []
    ensures ChainMoved(l, Process(answer), ChainAfter(l.chain, l.channel[0], answer))
  {
  }

  lemma OthersKeepChain(l: Life, e: LifeEvent)
    requires e.Intake? || e.Retry? || e.Checked?
    ensures ChainMoved(l, e, l.chain)
  {
    hide NumberOf;
  }

  lemma ChainIs(l: Life, e: LifeEvent)
    requires Enabled(l, e)
    ensures LifeStep(l, e).chain
            == match e
               case Land(n) => Landed(l.chain, n)
               case Advance(account, times) => Advanced(l.chain, account, times)
               case Process(answer) => ChainAfter(l.chain, l.channel[0], answer)
               case Intake(_) => l.chain
               case Retry(_) => l.chain
               case Checked(_, _) => l.chain
  {
    hide Landed, Advanced, CheckOutBoundTx, Numbered;
  }

  lemma ChainMoves(l: Life, e: LifeEvent)
    requires Enabled(l, e)
    ensures ChainMoved(l, e, LifeStep(l, e).chain)
  {
    hide ChainMoved, LifeStep, Landed, Advanced, ChainAfter;
    ChainIs(l, e);
    match e
    case Land(n) => LandMoves(l, n);
    case Advance(account, times) => AdvanceMoves(l, account, times);
    case Process(answer) => ProcessMoves(l, answer);
    case Intake(_) => OthersKeepChain(l, e);
    case Retry(_) => OthersKeepChain(l, e);
    case Checked(_, _) => OthersKeepChain(l, e);
  }

  /**
   * The public chain over every run: every transfer taken is executed or in flight, once; those executed are, in order,
   * the ones landed; and an account's nonce counts its transactions.
   */
  lemma {:induction false} ChainOverRuns(l: Life, events: seq<LifeEvent>, account: Address)
    requires Legal(l, events)
    ensures var c, c' := l.chain, RunAll(l, events).chain;
            && multiset(c.inFlight) + multiset(SeqOver(l, events, Transferred))
               == multiset(SeqOver(l, events, LandedBy)) + multiset(c'.inFlight)
            && c'.recorded == c.recorded + Records(SeqOver(l, events, LandedBy))
            && NumberOf(c', account) == NumberOf(c, account) + UsesOver(l, events, account)
    decreases |events|
  {
    if events == [] {
      assert l.chain.recorded + Records([]) == l.chain.recorded;
    } else {
      var e, l', rest := events[0], LifeStep(l, events[0]), events[1..];
      ChainMoves(l, e);
      ChainOverRuns(l', rest, account);
      hide LifeStep, Enabled, Transferred, LandedBy, Uses, NumberOf, Records;
      Chained(multiset(l.chain.inFlight), multiset(Transferred(l, e)), multiset(LandedBy(l, e)),
              multiset(l'.chain.inFlight), multiset(SeqOver(l', rest, Transferred)),
              multiset(SeqOver(l', rest, LandedBy)), multiset(RunAll(l', rest).chain.inFlight));
      RecordsAppend(l.chain.recorded, LandedBy(l, e), SeqOver(l', rest, LandedBy));
    }
  }

  lemma RecordsAppend(recorded: seq<Item>, xs: seq<Sending<Request>>, ys: seq<Sending<Request>>)
    ensures (recorded + Records(xs)) + Records(ys) == recorded + Records(xs + ys)
  {
  }
}
