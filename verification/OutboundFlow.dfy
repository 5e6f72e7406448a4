/**
 * The life of outbound requests on values: retry bag, channel, transfer on the public chain and status check
 * (bridge/joltifyBridge.go:249-258, 270-277, 339-370; pubchain/tx_send.go:21-92).
 */
module OutboundFlow {
  import opened Config
  import opened Wrappers
  import opened ByteTypes
  import opened Collections
  import opened Landing
  import opened Outbound

  /** A request under the number of its intake, which tells it from others asking for the same. */
  type Item = Record<Request>

  /** The public chain: the transfers executed, and those in flight. */
  type PayChain = Chain<Request>

  function Numbered(start: nat, rs: seq<Request>): seq<Item> {
    seq(|rs|, i requires 0 <= i < |rs| => Record(start + i, rs[i]))
  }

  /** `lost` holds requests dropped at the signer check and those whose transaction could not be found again. */
  datatype Life = Life(
    retry: multiset<Item>,
    channel: seq<Item>,
    awaiting: seq<Item>,
    sent: multiset<Item>,
    lost: multiset<Item>,
    made: nat,
    chain: PayChain)

  const NEWBORN := Life(multiset{}, [], [], multiset{}, multiset{}, 0, Chain([], [], map[]))

  /**
   * What happens to the request taken from the channel. Failed is any error before the transaction is sent. In
   * Submitted, `signer` is the account of the key that signs and `nonce` what the query gave; `taken` says whether
   * the network takes the transaction and `reported` whether the node learns that.
   */
  datatype Answer =
    | SignerError
    | NotSigner
    | Failed
    | Submitted(signer: Address, nonce: nat, taken: bool, reported: bool)

  datatype Status = Succeeded | TxFailed | Unknown

  /** CheckTxStatus on the public chain: the receipt's status, or None where no receipt was found in time. */
  function StatusOf(receipt: Option<nat>): Status {
    if receipt.None? then Unknown else if receipt.value == 1 then Succeeded else TxFailed
  }

  /**
   * One handler of the event loop, the end of one status check, or a step of the chain: it executes a transfer, or some
   * other transactions of an account, among them transfers that fail.
   */
  datatype LifeEvent =
    | Intake(tx: JoltTx)
    | Retry(pick: Option<Item>)
    | Process(answer: Answer)
    | Checked(i: nat, receipt: Option<nat>)
    | Land(n: nat)
    | Advance(account: Address, times: nat)

  function PaymentOf(x: Item, answer: Answer): Sending<Request>
    requires answer.Submitted?
  {
    Sending(x, answer.signer, answer.nonce)
  }

  function ChainAfter(c: PayChain, x: Item, answer: Answer): PayChain {
    if answer.Submitted? && answer.taken then Broadcast(c, PaymentOf(x, answer)) else c
  }

  function Dispatch(l: Life, x: Item, answer: Answer): Life {
    match answer
    case SignerError => l.(lost := l.lost + multiset{x})
    case NotSigner => l.(lost := l.lost + multiset{x})
    case Failed => l.(retry := l.retry + multiset{x})
    case Submitted(_, _, _, reported) =>
      var l' := l.(chain := ChainAfter(l.chain, x, answer));
      if reported then l'.(awaiting := l.awaiting + [x]) else l'.(retry := l.retry + multiset{x})
  }

  function Settle(l: Life, x: Item, status: Status): Life {
    match status
    case Succeeded => l.(sent := l.sent + multiset{x})
    case TxFailed => l.(retry := l.retry + multiset{x})
    case Unknown => l.(lost := l.lost + multiset{x})
  }

  /** New requests in the retry bag, numbered on. */
  function AddItems(l: Life, rs: seq<Request>): Life {
    l.(retry := l.retry + multiset(Numbered(l.made, rs)), made := l.made + |rs|)
  }

  function LifeStep(l: Life, e: LifeEvent): Life {
    match e
    case Intake(tx) => AddItems(l, CheckOutBoundTx(tx))
    case Retry(None) => l
    case Retry(Some(x)) => l.(retry := l.retry - multiset{x}, channel := l.channel + [x])
    case Process(answer) =>
      if l.channel == [] then l else Dispatch(l.(channel := l.channel[1..]), l.channel[0], answer)
    case Checked(i, receipt) =>
      if i >= |l.awaiting| then l
      else Settle(l.(awaiting := l.awaiting[..i] + l.awaiting[i + 1..]), l.awaiting[i], StatusOf(receipt))
    case Land(n) => if n >= |l.chain.inFlight| then l else l.(chain := Landed(l.chain, n))
    case Advance(account, times) => l.(chain := Advanced(l.chain, account, times))
  }

  /**
   * The pick of a retry is any request in the bag here; that it has the largest hash is OutboundQueue's to say. A
   * receipt of success is that of an executed transfer.
   */
  ghost predicate Enabled(l: Life, e: LifeEvent) {
    match e
    case Intake(_) => true
    case Retry(None) => true
    case Retry(Some(x)) => x in l.retry && |l.channel| < REQ_CACHE_SIZE
    case Process(_) => l.channel != []
    case Checked(i, receipt) => i < |l.awaiting| && (receipt == Some(1) ==> Has(l.chain.recorded, l.awaiting[i].key))
    case Land(n) => n < |l.chain.inFlight| && Next(l.chain, l.chain.inFlight[n])
    case Advance(_, _) => true
  }

  // ---- Each request in exactly one place ----

  function Everywhere(l: Life): multiset<Item> {
    l.retry + multiset(l.channel) + multiset(l.awaiting) + l.sent + l.lost
  }

  lemma Put(l: Life, x: Item)
    ensures Everywhere(l.(retry := l.retry + multiset{x})) == Everywhere(l) + multiset{x}
    ensures Everywhere(l.(sent := l.sent + multiset{x})) == Everywhere(l) + multiset{x}
    ensures Everywhere(l.(lost := l.lost + multiset{x})) == Everywhere(l) + multiset{x}
    ensures Everywhere(l.(channel := l.channel + [x])) == Everywhere(l) + multiset{x}
    ensures Everywhere(l.(awaiting := l.awaiting + [x])) == Everywhere(l) + multiset{x}
  {
  }

  lemma TakeRetry(l: Life, x: Item)
    requires x in l.retry
    ensures Everywhere(l.(retry := l.retry - multiset{x})) + multiset{x} == Everywhere(l)
  {
    assert l.retry == (l.retry - multiset{x}) + multiset{x};
  }

  lemma TakeChannel(l: Life)
    requires l.channel != []
    ensures Everywhere(l.(channel := l.channel[1..])) + multiset{l.channel[0]} == Everywhere(l)
  {
    assert l.channel == [l.channel[0]] + l.channel[1..];
  }

  lemma TakeAwaiting(l: Life, i: nat)
    requires i < |l.awaiting|
    ensures Everywhere(l.(awaiting := l.awaiting[..i] + l.awaiting[i + 1..])) + multiset{l.awaiting[i]} == Everywhere(l)
  {
    assert l.awaiting == l.awaiting[..i] + [l.awaiting[i]] + l.awaiting[i + 1..];
    assert multiset(l.awaiting) == multiset(l.awaiting[..i] + l.awaiting[i + 1..]) + multiset{l.awaiting[i]};
  }

  lemma ChainIsNoPlace(l: Life, c: PayChain)
    ensures Everywhere(l.(chain := c)) == Everywhere(l)
  {
  }

  lemma ProcessKeeps(l: Life, answer: Answer)
    requires l.channel != []
    ensures Everywhere(LifeStep(l, Process(answer))) == Everywhere(l)
  {
    hide Everywhere;
    TakeChannel(l);
    var l', x := l.(channel := l.channel[1..]), l.channel[0];
    var c := ChainAfter(l.chain, x, answer);
    Put(l', x);
    ChainIsNoPlace(l', c);
    Put(l'.(chain := c), x);
  }

  lemma CheckedKeeps(l: Life, i: nat, receipt: Option<nat>)
    requires i < |l.awaiting|
    ensures Everywhere(LifeStep(l, Checked(i, receipt))) == Everywhere(l)
  {
    hide Everywhere;
    TakeAwaiting(l, i);
    Put(l.(awaiting := l.awaiting[..i] + l.awaiting[i + 1..]), l.awaiting[i]);
  }

  lemma RetryKeeps(l: Life, x: Item)
    requires x in l.retry
    ensures Everywhere(LifeStep(l, Retry(Some(x)))) == Everywhere(l)
  {
    hide Everywhere;
    TakeRetry(l, x);
    Put(l.(retry := l.retry - multiset{x}), x);
  }

  lemma IntakeAdds(l: Life, tx: JoltTx)
    ensures Everywhere(LifeStep(l, Intake(tx))) == Everywhere(l) + multiset(Numbered(l.made, CheckOutBoundTx(tx)))
  {
    hide CheckOutBoundTx, Numbered;
  }

  /** What the event takes in. */
  function Taken(e: LifeEvent): seq<Request> {
    if e.Intake? then CheckOutBoundTx(e.tx) else []
  }

  lemma StepKeepsRequests(l: Life, e: LifeEvent)
    requires Enabled(l, e)
    ensures Everywhere(LifeStep(l, e)) == Everywhere(l) + multiset(Numbered(l.made, Taken(e)))
    ensures LifeStep(l, e).made == l.made + |Taken(e)|
  {
    match e
    case Intake(tx) => IntakeAdds(l, tx);
    case Retry(None) =>
    case Retry(Some(x)) => RetryKeeps(l, x);
    case Process(answer) => ProcessKeeps(l, answer);
    case Checked(i, receipt) => CheckedKeeps(l, i, receipt);
    case Land(_) =>
    case Advance(_, _) =>
  }

  function RunAll(l: Life, events: seq<LifeEvent>): Life
    decreases |events|
  {
    if events == [] then l else RunAll(LifeStep(l, events[0]), events[1..])
  }

  ghost predicate Legal(l: Life, events: seq<LifeEvent>)
    decreases |events|
  {
    events != [] ==> Enabled(l, events[0]) && Legal(LifeStep(l, events[0]), events[1..])
  }

  function TxsOf(events: seq<LifeEvent>): seq<JoltTx> {
    if events == [] then []
    else (if events[0].Intake? then [events[0].tx] else []) + TxsOf(events[1..])
  }

  lemma NumberedAppend(start: nat, xs: seq<Request>, ys: seq<Request>)
    ensures Numbered(start, xs + ys) == Numbered(start, xs) + Numbered(start + |xs|, ys)
  {
  }

  lemma NoIntake(start: nat)
    ensures IntakeOf(TxsOf([])) == [] && Numbered(start, []) == []
  {
  }

  lemma IntakeCons(events: seq<LifeEvent>)
    requires events != []
    ensures IntakeOf(TxsOf(events)) == Taken(events[0]) + IntakeOf(TxsOf(events[1..]))
  {
    if events[0].Intake? {
      assert TxsOf(events)[0] == events[0].tx && TxsOf(events)[1..] == TxsOf(events[1..]);
    } else {
      assert TxsOf(events) == TxsOf(events[1..]);
      assert [] + IntakeOf(TxsOf(events[1..])) == IntakeOf(TxsOf(events[1..]));
    }
  }

  /**
   * At every reachable state the requests made so far, each under the number of its intake, are those in the retry bag,
   * in the channel, under a status check, sent and lost.
   */
  lemma {:induction false} EveryRequestInOnePlace(l: Life, events: seq<LifeEvent>)
    requires Legal(l, events)
    ensures Everywhere(RunAll(l, events)) == Everywhere(l) + multiset(Numbered(l.made, IntakeOf(TxsOf(events))))
    ensures RunAll(l, events).made == l.made + |IntakeOf(TxsOf(events))|
    decreases |events|
  {
    hide Numbered, Everywhere, LifeStep, Enabled, IntakeOf, TxsOf, Taken;
    if events == [] {
      NoIntake(l.made);
    } else {
      var l', now, later := LifeStep(l, events[0]), Taken(events[0]), IntakeOf(TxsOf(events[1..]));
      StepKeepsRequests(l, events[0]);
      EveryRequestInOnePlace(l', events[1..]);
      IntakeCons(events);
      NumberedAppend(l.made, now, later);
      Joined(Everywhere(l), multiset(Numbered(l.made, now)), Everywhere(l'), multiset(Numbered(l'.made, later)),
             Everywhere(RunAll(l', events[1..])), multiset(Numbered(l.made, now + later)));
    }
  }

  // ---- How requests leave the cycle of retries ----

  /** Whether an event ends the life of the request it handles: sent, or lost. */
  predicate Sends(e: LifeEvent) {
    e.Checked? && e.receipt == Some(1)
  }

  predicate Loses(e: LifeEvent) {
    || (e.Process? && (e.answer.SignerError? || e.answer.NotSigner?))
    || (e.Checked? && e.receipt.None?)
  }

  function Count(events: seq<LifeEvent>, p: LifeEvent -> bool): nat {
    if events == [] then 0 else (if p(events[0]) then 1 else 0) + Count(events[1..], p)
  }

  lemma StepCountsEnds(l: Life, e: LifeEvent)
    requires Enabled(l, e)
    ensures |LifeStep(l, e).sent| == |l.sent| + if Sends(e) then 1 else 0
    ensures |LifeStep(l, e).lost| == |l.lost| + if Loses(e) then 1 else 0
  {
    hide CheckOutBoundTx, Numbered, Landed, Advanced;
  }

  /**
   * A request leaves the cycle of retries only through a receipt of success, a failed signer check or a receipt never
   * found: over every run the numbers sent and lost are the numbers of those events.
   */
  lemma {:induction false} LeavesOnlyByEvents(l: Life, events: seq<LifeEvent>)
    requires Legal(l, events)
    ensures |RunAll(l, events).sent| == |l.sent| + Count(events, Sends)
    ensures |RunAll(l, events).lost| == |l.lost| + Count(events, Loses)
    decreases |events|
  {
    if events == [] {
    } else {
      hide LifeStep, Enabled, Sends, Loses;
      StepCountsEnds(l, events[0]);
      LeavesOnlyByEvents(LifeStep(l, events[0]), events[1..]);
    }
  }
}
