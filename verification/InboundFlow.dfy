/**
 * The life of inbound requests on values: matcher, retry bag, channel, mint submission and status check
 * (bridge/joltifyBridge.go:189-196, 261-268, 311-337; joltifybridge/mint.go:22-71).
 */
module InboundFlow {
  import opened Config
  import opened Wrappers
  import opened ByteTypes
  import opened Landing
  import opened MatcherSpec
  import T = MatcherTheorems

  type Hasher = Bytes -> nat

  /** The index of a mint: the hash of the depositor and the transaction id, whatever the height. */
  function Index(keccak: Hasher, r: Request): nat {
    keccak(r.from + r.txID)
  }

  /** A status check under way; the index is None where ProcessInBound returned the empty one. */
  datatype Waiting = Waiting(req: Request, index: Option<nat>)

  /** The Joltify chain: its issue-token records under their indexes, and the submissions in flight. */
  type MintChain = Chain<Request>

  datatype Life = Life(
    retry: multiset<Request>,
    channel: seq<Request>,
    awaiting: seq<Waiting>,
    confirmed: multiset<Request>,
    dropped: multiset<Request>,
    chain: MintChain)

  const NEWBORN := Life(multiset{}, [], [], multiset{}, multiset{}, Chain([], [], map[]))

  /**
   * What happens to the request taken from the channel. Failed is any error before the index is looked up. In Looked,
   * `sequence` is what the query of the pool account `signer` gave, and `seen` what the lookup after it gave; for an
   * index not seen, `sent` says whether the chain takes the submission and `reported` whether the node learns that.
   */
  datatype Answer =
    | SignerError
    | NotSigner
    | Failed
    | Looked(seen: bool, signer: Address, sequence: nat, sent: bool, reported: bool)

  /**
   * One handler of the event loop, the end of one status check, or a step of the chain: it records a submission,
   * however long after it was sent, or some other transaction of an account.
   */
  datatype LifeEvent =
    | Enqueue(out: Output)
    | Retry(pick: Option<Request>)
    | Process(answer: Answer)
    | Status(i: nat, found: bool)
    | Land(n: nat)
    | Advance(account: Address, times: nat)

  /** When the event can happen; a send waits for room in the channel. */
  ghost predicate Enabled(keccak: Hasher, l: Life, e: LifeEvent) {
    match e
    case Enqueue(out) => out.ToChannel? ==> |l.channel| < REQ_CACHE_SIZE
    case Retry(None) => forall r :: r in l.retry ==> Index(keccak, r) == 0
    case Retry(Some(r)) =>
      && r in l.retry && Index(keccak, r) > 0
      && (forall o :: o in l.retry ==> Index(keccak, o) <= Index(keccak, r))
      && |l.channel| < REQ_CACHE_SIZE
    case Process(_) => l.channel != []
    case Status(i, found) =>
      && i < |l.awaiting|
      && (found ==> l.awaiting[i].index.Some? && Has(l.chain.recorded, l.awaiting[i].index.value))
    case Land(n) => n < |l.chain.inFlight| && Next(l.chain, l.chain.inFlight[n])
    case Advance(_, _) => true
  }

  /** The account query gave a number the account has or had. */
  predicate QueryTruthful(l: Life, e: LifeEvent) {
    e.Process? && e.answer.Looked? ==> e.answer.sequence <= NumberOf(l.chain, e.answer.signer)
  }

  /** The lookup before a submission tells the truth about the chain. */
  ghost predicate LookupTruthful(keccak: Hasher, l: Life, e: LifeEvent) {
    e.Process? && e.answer.Looked? && l.channel != [] ==>
      (e.answer.seen <==> Has(l.chain.recorded, Index(keccak, l.channel[0])))
  }

  /** What becomes of the request `r` just taken from the channel. */
  function Dispatch(keccak: Hasher, l: Life, r: Request, answer: Answer): Life {
    match answer
    case SignerError => l.(dropped := l.dropped + multiset{r})
    case NotSigner => l.(dropped := l.dropped + multiset{r})
    case Failed => l.(retry := l.retry + multiset{r})
    case Looked(true, _, _, _, _) => l.(awaiting := l.awaiting + [Waiting(r, None)])
    case Looked(false, signer, sequence, sent, reported) =>
      var l' := l.(chain := ChainAfter(keccak, l.chain, r, answer));
      if reported then l'.(awaiting := l.awaiting + [Waiting(r, Some(Index(keccak, r)))])
      else l'.(retry := l.retry + multiset{r})
  }

  /** The submission of a request as the answers make it. */
  function SubmissionOf(keccak: Hasher, r: Request, answer: Answer): Sending<Request>
    requires answer.Looked?
  {
    Sending(Record(Index(keccak, r), r), answer.signer, answer.sequence)
  }

  /** The chain after the request has been processed. */
  function ChainAfter(keccak: Hasher, c: MintChain, r: Request, answer: Answer): MintChain {
    if answer.Looked? && !answer.seen && answer.sent then Broadcast(c, SubmissionOf(keccak, r, answer)) else c
  }

  function LifeStep(keccak: Hasher, l: Life, e: LifeEvent): Life {
    match e
    case Enqueue(ToChannel(req, _)) => l.(channel := l.channel + [req])
    case Enqueue(ToRetry(req)) => l.(retry := l.retry + multiset{req})
    case Retry(None) => l
    case Retry(Some(r)) => l.(retry := l.retry - multiset{r}, channel := l.channel + [r])
    case Process(answer) =>
      if l.channel == [] then l
      else
        Dispatch(keccak, l.(channel := l.channel[1..]), l.channel[0], answer)
    case Status(i, found) =>
      if i >= |l.awaiting| then l
      else
        var r := l.awaiting[i].req;
        var l' := l.(awaiting := l.awaiting[..i] + l.awaiting[i + 1..]);
        if found then l'.(confirmed := l.confirmed + multiset{r}) else l'.(retry := l.retry + multiset{r})
    case Land(n) => if n >= |l.chain.inFlight| then l else l.(chain := Landed(l.chain, n))
    case Advance(account, times) => l.(chain := Advanced(l.chain, account, times))
  }

  function EnqueueAll(keccak: Hasher, l: Life, outs: seq<Output>): Life
    decreases |outs|
  {
    if outs == [] then l else EnqueueAll(keccak, LifeStep(keccak, l, Enqueue(outs[0])), outs[1..])
  }

  ghost predicate AllEnabled(keccak: Hasher, l: Life, outs: seq<Output>)
    decreases |outs|
  {
    outs != [] ==>
      && Enabled(keccak, l, Enqueue(outs[0]))
      && AllEnabled(keccak, LifeStep(keccak, l, Enqueue(outs[0])), outs[1..])
  }

  // ---- Each request in exactly one place ----

  function Requests(ws: seq<Waiting>): multiset<Request> {
    if ws == [] then multiset{} else multiset{ws[0].req} + Requests(ws[1..])
  }

  lemma {:induction false} RequestsAppend(xs: seq<Waiting>, ys: seq<Waiting>)
    ensures Requests(xs + ys) == Requests(xs) + Requests(ys)
  {
    if xs == [] {
      assert xs + ys == ys;
    } else {
      assert (xs + ys)[0] == xs[0] && (xs + ys)[1..] == xs[1..] + ys;
      RequestsAppend(xs[1..], ys);
    }
  }

  lemma RequestsSplit(ws: seq<Waiting>, i: nat)
    requires i < |ws|
    ensures Requests(ws) == Requests(ws[..i] + ws[i + 1..]) + multiset{ws[i].req}
  {
    hide Requests;
    var a, b := ws[..i], ws[i + 1..];
    assert ws == (a + [ws[i]]) + b;
    RequestsAppend(a + [ws[i]], b);
    RequestsPush(a, ws[i]);
    RequestsAppend(a, b);
  }

  lemma RequestsPush(ws: seq<Waiting>, w: Waiting)
    ensures Requests(ws + [w]) == Requests(ws) + multiset{w.req}
  {
    RequestsAppend(ws, [w]);
    assert [w][1..] == [];
  }

  function Everywhere(l: Life): multiset<Request> {
    l.retry + multiset(l.channel) + Requests(l.awaiting) + l.confirmed + l.dropped
  }

  lemma Put(l: Life, r: Request)
    ensures Everywhere(l.(retry := l.retry + multiset{r})) == Everywhere(l) + multiset{r}
    ensures Everywhere(l.(confirmed := l.confirmed + multiset{r})) == Everywhere(l) + multiset{r}
    ensures Everywhere(l.(dropped := l.dropped + multiset{r})) == Everywhere(l) + multiset{r}
    ensures Everywhere(l.(channel := l.channel + [r])) == Everywhere(l) + multiset{r}
  {
    hide Requests;
  }

  lemma PutAwaiting(l: Life, w: Waiting)
    ensures Everywhere(l.(awaiting := l.awaiting + [w])) == Everywhere(l) + multiset{w.req}
  {
    RequestsPush(l.awaiting, w);
  }

  lemma TakeChannel(l: Life)
    requires l.channel != []
    ensures Everywhere(l.(channel := l.channel[1..])) + multiset{l.channel[0]} == Everywhere(l)
  {
    assert l.channel == [l.channel[0]] + l.channel[1..];
  }

  lemma TakeAwaiting(l: Life, i: nat)
    requires i < |l.awaiting|
    ensures Everywhere(l.(awaiting := l.awaiting[..i] + l.awaiting[i + 1..])) + multiset{l.awaiting[i].req}
            == Everywhere(l)
  {
    RequestsSplit(l.awaiting, i);
  }

  lemma TakeRetry(l: Life, r: Request)
    requires r in l.retry
    ensures Everywhere(l.(retry := l.retry - multiset{r})) + multiset{r} == Everywhere(l)
  {
    assert l.retry == (l.retry - multiset{r}) + multiset{r};
  }

  lemma DispatchAdds(keccak: Hasher, l: Life, r: Request, answer: Answer)
    ensures Everywhere(Dispatch(keccak, l, r, answer)) == Everywhere(l) + multiset{r}
  {
    match answer
    case SignerError => Put(l, r);
    case NotSigner => Put(l, r);
    case Failed => Put(l, r);
    case Looked(seen, _, _, _, reported) =>
      if seen {
        PutAwaiting(l, Waiting(r, None));
      } else {
        var l' := l.(chain := ChainAfter(keccak, l.chain, r, answer));
        assert Everywhere(l') == Everywhere(l);
        if reported {
          PutAwaiting(l', Waiting(r, Some(Index(keccak, r))));
        } else {
          Put(l', r);
        }
      }
  }

  lemma ProcessKeeps(keccak: Hasher, l: Life, answer: Answer)
    requires l.channel != []
    ensures Everywhere(LifeStep(keccak, l, Process(answer))) == Everywhere(l)
  {
    hide Everywhere, Dispatch;
    TakeChannel(l);
    DispatchAdds(keccak, l.(channel := l.channel[1..]), l.channel[0], answer);
  }

  lemma StatusKeeps(keccak: Hasher, l: Life, i: nat, found: bool)
    ensures Everywhere(LifeStep(keccak, l, Status(i, found))) == Everywhere(l)
  {
    hide Everywhere;
    if i < |l.awaiting| {
      TakeAwaiting(l, i);
      Put(l.(awaiting := l.awaiting[..i] + l.awaiting[i + 1..]), l.awaiting[i].req);
    }
  }

  lemma RetryKeeps(keccak: Hasher, l: Life, r: Request)
    requires r in l.retry
    ensures Everywhere(LifeStep(keccak, l, Retry(Some(r)))) == Everywhere(l)
  {
    TakeRetry(l, r);
    Put(l.(retry := l.retry - multiset{r}), r);
  }

  /** A handler moves requests between the five places; only an enqueued release adds one. */
  lemma StepKeepsRequests(keccak: Hasher, l: Life, e: LifeEvent)
    requires Enabled(keccak, l, e)
    ensures Everywhere(LifeStep(keccak, l, e))
            == Everywhere(l) + (if e.Enqueue? then multiset{e.out.req} else multiset{})
  {
    match e
    case Enqueue(out) => Put(l, out.req);
    case Retry(None) =>
    case Retry(Some(r)) => RetryKeeps(keccak, l, r);
    case Process(answer) => ProcessKeeps(keccak, l, answer);
    case Status(i, found) => StatusKeeps(keccak, l, i, found);
    case Land(_) =>
    case Advance(_, _) =>
  }

  // ---- The whole inbound side ----

  /** `seen` collects the ids of the calls counted as deposits; it steers nothing. */
  datatype Inbound = Inbound(matcher: State, life: Life, seen: set<Bytes>)

  const START := Inbound(EMPTY, NEWBORN, {})

  datatype Event =
    | OnHead(head: T.Head)
    | OnLife(life: LifeEvent)

  function HeadRun(s: State, h: T.Head): (State, seq<Output>) {
    Run(s, HeadEvents(s, h.bridge, h.number, h.block))
  }

  function Hashes(events: seq<MatcherSpec.Event>): set<Bytes> {
    set e | e in events && e.TokenEvent? :: e.hash
  }

  function Step(keccak: Hasher, s: Inbound, e: Event): Inbound {
    match e
    case OnHead(h) =>
      var (m, outs) := HeadRun(s.matcher, h);
      Inbound(m, EnqueueAll(keccak, s.life, outs),
              s.seen + Hashes(HeadEvents(s.matcher, h.bridge, h.number, h.block)))
    case OnLife(le) => s.(life := LifeStep(keccak, s.life, le))
  }

  ghost predicate StepEnabled(keccak: Hasher, s: Inbound, e: Event) {
    match e
    case OnHead(h) => AllEnabled(keccak, s.life, HeadRun(s.matcher, h).1)
    case OnLife(le) => !le.Enqueue? && Enabled(keccak, s.life, le)
  }

  function RunAll(keccak: Hasher, s: Inbound, events: seq<Event>): Inbound
    decreases |events|
  {
    if events == [] then s else RunAll(keccak, Step(keccak, s, events[0]), events[1..])
  }

  /** A run of the event loop. */
  ghost predicate Legal(keccak: Hasher, s: Inbound, events: seq<Event>)
    decreases |events|
  {
    events != [] ==> StepEnabled(keccak, s, events[0]) && Legal(keccak, Step(keccak, s, events[0]), events[1..])
  }

  /** Every account query and every lookup of the run is truthful. */
  ghost predicate Honest(keccak: Hasher, s: Inbound, events: seq<Event>)
    decreases |events|
  {
    events != [] ==>
      && (events[0].OnLife? ==> QueryTruthful(s.life, events[0].life) && LookupTruthful(keccak, s.life, events[0].life))
      && Honest(keccak, Step(keccak, s, events[0]), events[1..])
  }

  function AllOutputs(keccak: Hasher, s: Inbound, events: seq<Event>): seq<Output>
    decreases |events|
  {
    if events == [] then []
    else
      (if events[0].OnHead? then HeadRun(s.matcher, events[0].head).1 else [])
      + AllOutputs(keccak, Step(keccak, s, events[0]), events[1..])
  }

  function RequestsOf(outs: seq<Output>): multiset<Request> {
    if outs == [] then multiset{} else multiset{outs[0].req} + RequestsOf(outs[1..])
  }
}
