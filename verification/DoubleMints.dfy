/** Two runs from the start in which one deposit is minted twice. */
module DoubleMints {
  import opened Config
  import opened Wrappers
  import opened ByteTypes
  import opened InboundFlow
  import opened Landing
  import M = MatcherSpec
  import B = BlockCounts
  import T = MatcherTheorems
  import Hex

  /** A fee and the deposit it is for, in one block: the data of the fee payment is the id of the deposit. */
  datatype Payment = Payment(id: Bytes, pool: Address, sender: Address, args: Bytes, amount: nat)

  function FeeTx(p: Payment): M.Tx {
    M.Tx([], Some(p.pool), Some(1), None, Some(p.id), MIN_FEE)
  }

  function DepositTx(b: M.Bridge, p: Payment): M.Tx {
    M.Tx(p.id, Some(b.token), Some(1), Some(p.sender), Some(B.TRANSFER + p.args), 0)
  }

  ghost predicate Fits(b: M.Bridge, p: Payment) {
    && p.pool in b.pools && b.token !in b.pools
    && b.unpack(p.args) == Some(M.Transfer(p.pool, p.amount)) && M.CheckErc20(b.unpack, Some(p.id)).None?
  }

  function PaymentHead(b: M.Bridge, p: Payment, height: nat): T.Head {
    T.Head(b, height, Some([FeeTx(p), DepositTx(b, p)]))
  }

  function RequestOf(p: Payment): M.Request {
    M.Request(p.sender, p.id, p.pool, p.amount)
  }

  lemma PaymentEvents(b: M.Bridge, p: Payment, height: nat)
    requires Fits(b, p)
    ensures M.HeadEvents(M.EMPTY, b, height, PaymentHead(b, p, height).block)
            == [M.FeeEvent(p.id, p.pool, MIN_FEE, height), M.TokenEvent(p.id, p.sender, p.pool, p.amount, height),
                M.ExpireEvent(height)]
  {
    var fee, deposit := FeeTx(p), DepositTx(b, p);
    var txs := [fee, deposit];
    var feeEvent := M.FeeEvent(p.id, p.pool, MIN_FEE, height);
    assert txs[1..] == [deposit] && [deposit][1..] == [];
    assert (B.TRANSFER + p.args)[4..] == p.args;
    M.RunOne(M.EMPTY, feeEvent);
    var s1 := M.Apply(M.EMPTY, feeEvent).0;
    assert M.TxEvents(M.EMPTY, b, fee, height) == [feeEvent];
    assert M.CheckErc20(b.unpack, deposit.data) == Some(M.Transfer(p.pool, p.amount));
    var token := M.TokenEvent(p.id, p.sender, p.pool, p.amount, height);
    assert M.TxEvents(s1, b, deposit, height) == [token];
    assert M.BlockEvents(s1, b, [deposit], height) == [token];
    assert M.BlockEvents(M.EMPTY, b, txs, height) == [feeEvent] + [token];
  }

  lemma PaymentReleases(b: M.Bridge, p: Payment, height: nat)
    ensures M.Run(M.EMPTY, [M.FeeEvent(p.id, p.pool, MIN_FEE, height),
                            M.TokenEvent(p.id, p.sender, p.pool, p.amount, height), M.ExpireEvent(height)])
            == (M.EMPTY, [M.ToChannel(RequestOf(p), height)])
  {
    var fee, token := M.FeeEvent(p.id, p.pool, MIN_FEE, height), M.TokenEvent(p.id, p.sender, p.pool, p.amount, height);
    Hex.DecodeEncode(p.id);
    var s1 := M.Apply(M.EMPTY, fee).0;
    var s2 := M.Apply(s1, token).0;
    assert s2.early == map[] && s2.pending == map[];
    assert M.DeleteExpired(M.EMPTY, height).pending == map[] && M.DeleteExpired(M.EMPTY, height).early == map[];
    M.RunAppend(M.EMPTY, [fee], [token, M.ExpireEvent(height)]);
    M.RunAppend(s1, [token], [M.ExpireEvent(height)]);
    M.RunOne(M.EMPTY, fee);
    M.RunOne(s1, token);
    M.RunOne(s2, M.ExpireEvent(height));
    assert [fee] + [token, M.ExpireEvent(height)] == [fee, token, M.ExpireEvent(height)];
    assert [token] + [M.ExpireEvent(height)] == [token, M.ExpireEvent(height)];
    var out := [M.ToChannel(RequestOf(p), height)];
    assert M.Run(M.EMPTY, [fee]) == (s1, []) && M.Run(s1, [token]) == (s2, out);
    assert M.Run(s2, [M.ExpireEvent(height)]) == (M.EMPTY, []);
    assert [] + (out + []) == out;
  }

  /** A state with one request, in the retry bag or in the channel. */
  function Queued(r: M.Request, inRetry: bool, c: MintChain): Inbound {
    Inbound(M.EMPTY, Life(if inRetry then multiset{r} else multiset{}, if inRetry then [] else [r],
                          [], multiset{}, multiset{}, c), {r.txID})
  }

  /** A state whose one request is under a status check for its own index. */
  function Checking(keccak: Hasher, r: M.Request, c: MintChain): Inbound {
    Inbound(M.EMPTY, Life(multiset{}, [], [Waiting(r, Some(Index(keccak, r)))], multiset{}, multiset{}, c), {r.txID})
  }

  lemma HeadQueues(keccak: Hasher, b: M.Bridge, p: Payment, height: nat)
    requires Fits(b, p)
    ensures var h := PaymentHead(b, p, height);
            && StepEnabled(keccak, START, OnHead(h))
            && Step(keccak, START, OnHead(h)) == Queued(RequestOf(p), false, NEWBORN.chain)
  {
    var h := PaymentHead(b, p, height);
    var outs := [M.ToChannel(RequestOf(p), height)];
    PaymentEvents(b, p, height);
    PaymentReleases(b, p, height);
    hide M.Run, M.HeadEvents;
    assert HeadRun(M.EMPTY, h) == (M.EMPTY, outs);
    assert outs[1..] == [];
    var queued := LifeStep(keccak, NEWBORN, Enqueue(outs[0]));
    assert AllEnabled(keccak, queued, []) && EnqueueAll(keccak, queued, []) == queued;
    assert AllEnabled(keccak, NEWBORN, outs) && EnqueueAll(keccak, NEWBORN, outs) == queued;
    var events := M.HeadEvents(M.EMPTY, b, height, h.block);
    assert events[1].TokenEvent? && events[1] in events && events[1].hash == p.id;
    assert Hashes(events) == {p.id};
  }

  // ---- One event at a time ----

  ghost predicate Goes(keccak: Hasher, s: Inbound, e: LifeEvent, s': Inbound) {
    !e.Enqueue? && Enabled(keccak, s.life, e) && s' == s.(life := LifeStep(keccak, s.life, e))
  }

  ghost predicate EventHonest(keccak: Hasher, s: Inbound, e: LifeEvent) {
    QueryTruthful(s.life, e) && LookupTruthful(keccak, s.life, e)
  }

  lemma RunCons(keccak: Hasher, s: Inbound, e: Event, events: seq<Event>)
    ensures RunAll(keccak, s, [e] + events) == RunAll(keccak, Step(keccak, s, e), events)
    ensures Legal(keccak, s, [e] + events) <==> StepEnabled(keccak, s, e) && Legal(keccak, Step(keccak, s, e), events)
    ensures Honest(keccak, s, [e] + events)
            <==> (e.OnLife? ==> EventHonest(keccak, s, e.life)) && Honest(keccak, Step(keccak, s, e), events)
  {
    assert ([e] + events)[1..] == events;
  }

  lemma LifeCons(keccak: Hasher, s: Inbound, e: LifeEvent, s': Inbound, events: seq<Event>)
    requires Goes(keccak, s, e, s')
    ensures RunAll(keccak, s, [OnLife(e)] + events) == RunAll(keccak, s', events)
    ensures Legal(keccak, s', events) ==> Legal(keccak, s, [OnLife(e)] + events)
    ensures EventHonest(keccak, s, e) && Honest(keccak, s', events) ==> Honest(keccak, s, [OnLife(e)] + events)
  {
    hide RunAll, Legal, Honest, EventHonest, LifeStep, Enabled;
    RunCons(keccak, s, OnLife(e), events);
  }

  function Looks(signer: Address, sequence: nat, reported: bool): LifeEvent {
    Process(Looked(false, signer, sequence, true, reported))
  }

  lemma RetryGoes(keccak: Hasher, r: M.Request, c: MintChain)
    requires Index(keccak, r) > 0
    ensures Goes(keccak, Queued(r, true, c), Retry(Some(r)), Queued(r, false, c))
  {
  }

  lemma LooksGoes(keccak: Hasher, r: M.Request, c: MintChain, signer: Address, sequence: nat, reported: bool)
    ensures var c' := Broadcast(c, Sending(Record(Index(keccak, r), r), signer, sequence));
            Goes(keccak, Queued(r, false, c), Looks(signer, sequence, reported),
                 if reported then Checking(keccak, r, c') else Queued(r, true, c'))
  {
  }

  lemma LandGoes(keccak: Hasher, r: M.Request, inRetry: bool, c: MintChain)
    requires c.inFlight != [] && Next(c, c.inFlight[0])
    ensures Goes(keccak, Queued(r, inRetry, c), Land(0), Queued(r, inRetry, Landed(c, 0)))
    ensures Goes(keccak, Checking(keccak, r, c), Land(0), Checking(keccak, r, Landed(c, 0)))
  {
  }

  function OnLives(es: seq<LifeEvent>): (events: seq<Event>)
    ensures |events| == |es| && forall i :: 0 <= i < |es| ==> events[i] == OnLife(es[i])
  {
    if es == [] then [] else [OnLife(es[0])] + OnLives(es[1..])
  }

  /** The events lead through these states. */
  ghost predicate Leads(keccak: Hasher, ss: seq<Inbound>, es: seq<LifeEvent>) {
    |ss| == |es| + 1 && forall i :: 0 <= i < |es| ==> Goes(keccak, ss[i], es[i], ss[i + 1])
  }

  lemma {:induction false} RunLeads(keccak: Hasher, ss: seq<Inbound>, es: seq<LifeEvent>)
    requires Leads(keccak, ss, es)
    ensures Legal(keccak, ss[0], OnLives(es)) && RunAll(keccak, ss[0], OnLives(es)) == ss[|es|]
    ensures (forall i :: 0 <= i < |es| ==> EventHonest(keccak, ss[i], es[i])) ==> Honest(keccak, ss[0], OnLives(es))
    decreases |es|
  {
    hide Goes, LifeStep, Enabled, EventHonest, Step, StepEnabled;
    if es == [] {
    } else {
      assert Goes(keccak, ss[0], es[0], ss[1]);
      RunLeads(keccak, ss[1..], es[1..]);
      LifeCons(keccak, ss[0], es[0], ss[1], OnLives(es[1..]));
      assert (forall i :: 0 <= i < |es| ==> EventHonest(keccak, ss[i], es[i])) ==>
          forall i :: 0 <= i < |es[1..]| ==> EventHonest(keccak, ss[1..][i], es[1..][i]);
    }
  }

  /** The run begins with the head that brings the payment. */
  lemma FromStart(keccak: Hasher, b: M.Bridge, p: Payment, height: nat, events: seq<Event>)
    requires Fits(b, p) && Legal(keccak, Queued(RequestOf(p), false, NEWBORN.chain), events)
    ensures var all := [OnHead(PaymentHead(b, p, height))] + events;
            && Legal(keccak, START, all)
            && RunAll(keccak, START, all) == RunAll(keccak, Queued(RequestOf(p), false, NEWBORN.chain), events)
            && (Honest(keccak, Queued(RequestOf(p), false, NEWBORN.chain), events) ==> Honest(keccak, START, all))
  {
    HeadQueues(keccak, b, p, height);
    hide Step, StepEnabled, RunAll, Legal, Honest, Queued;
    RunCons(keccak, START, OnHead(PaymentHead(b, p, height)), events);
  }

  // ---- The two runs ----

  function SameTwice(keccak: Hasher, r: M.Request): seq<Record<M.Request>> {
    [Record(Index(keccak, r), r), Record(Index(keccak, r), r)]
  }

  /** The payment's head, and then these events, mint its request twice. */
  ghost predicate MintsTwice(keccak: Hasher, b: M.Bridge, p: Payment, height: nat, es: seq<LifeEvent>) {
    var events := [OnHead(PaymentHead(b, p, height))] + OnLives(es);
    && Legal(keccak, START, events)
    && RunAll(keccak, START, events).life.chain.recorded == SameTwice(keccak, RequestOf(p))
  }

  ghost predicate IsHonest(keccak: Hasher, b: M.Bridge, p: Payment, height: nat, es: seq<LifeEvent>) {
    Honest(keccak, START, [OnHead(PaymentHead(b, p, height))] + OnLives(es))
  }

  lemma LeadsToTwo(keccak: Hasher, b: M.Bridge, p: Payment, height: nat, ss: seq<Inbound>, es: seq<LifeEvent>)
    requires Fits(b, p) && Leads(keccak, ss, es) && ss[0] == Queued(RequestOf(p), false, NEWBORN.chain)
    requires ss[|es|].life.chain.recorded == SameTwice(keccak, RequestOf(p))
    ensures MintsTwice(keccak, b, p, height, es)
    ensures (forall i :: 0 <= i < |es| ==> EventHonest(keccak, ss[i], es[i])) ==> IsHonest(keccak, b, p, height, es)
  {
    hide Goes, EventHonest, Legal, RunAll, Honest, Queued;
    RunLeads(keccak, ss, es);
    FromStart(keccak, b, p, height, OnLives(es));
  }

  function MissedEvents(r: M.Request, a: Address): seq<LifeEvent> {
    [Looks(a, 0, false), Land(0), Retry(Some(r)), Looks(a, 1, true), Land(0)]
  }

  /** The chain after each step that changes it. */
  function MissedChains(rec: Record<M.Request>, a: Address): (cs: (MintChain, MintChain, MintChain, MintChain))
    ensures cs.0.inFlight != [] && Next(cs.0, cs.0.inFlight[0]) && cs.2.inFlight != [] && Next(cs.2, cs.2.inFlight[0])
    ensures cs.3.recorded == [rec, rec]
  {
    var c1 := Broadcast(NEWBORN.chain, Sending(rec, a, 0));
    var c2 := Landed(c1, 0);
    var c3 := Broadcast(c2, Sending(rec, a, 1));
    (c1, c2, c3, Landed(c3, 0))
  }

  function MissedStates(keccak: Hasher, r: M.Request, a: Address): seq<Inbound> {
    var cs := MissedChains(Record(Index(keccak, r), r), a);
    [Queued(r, false, NEWBORN.chain), Queued(r, true, cs.0), Queued(r, true, cs.1), Queued(r, false, cs.1),
     Checking(keccak, r, cs.2), Checking(keccak, r, cs.3)]
  }

  lemma MissedLeads(keccak: Hasher, r: M.Request, a: Address)
    requires Index(keccak, r) > 0
    ensures Leads(keccak, MissedStates(keccak, r, a), MissedEvents(r, a))
    ensures MissedStates(keccak, r, a)[5].life.chain.recorded == SameTwice(keccak, r)
  {
    var cs := MissedChains(Record(Index(keccak, r), r), a);
    assert Checking(keccak, r, cs.3).life.chain == cs.3;
    hide Goes, Queued, Checking, Broadcast, Landed, Index;
    LooksGoes(keccak, r, NEWBORN.chain, a, 0, false);
    LandGoes(keccak, r, true, cs.0);
    RetryGoes(keccak, r, cs.1);
    LooksGoes(keccak, r, cs.1, a, 1, true);
    LandGoes(keccak, r, true, cs.2);
  }

  /**
   * A lookup answers false on any error of its query. When that happens after an unreported submission was recorded,
   * the request is submitted again and minted a second time.
   */
  lemma MissedLookupMintsTwice(keccak: Hasher, b: M.Bridge, p: Payment, height: nat, a: Address)
    requires Fits(b, p) && Index(keccak, RequestOf(p)) > 0
    ensures MintsTwice(keccak, b, p, height, MissedEvents(RequestOf(p), a))
  {
    hide Leads, MintsTwice;
    MissedLeads(keccak, RequestOf(p), a);
    LeadsToTwo(keccak, b, p, height, MissedStates(keccak, RequestOf(p), a), MissedEvents(RequestOf(p), a));
  }

  function RotationEvents(r: M.Request, a: Address, a': Address): seq<LifeEvent> {
    [Looks(a, 0, false), Retry(Some(r)), Looks(a', 0, true), Land(0), Land(0)]
  }

  function RotationChains(rec: Record<M.Request>, a: Address, a': Address)
    : (cs: (MintChain, MintChain, MintChain, MintChain))
    requires a != a'
    ensures cs.1.inFlight != [] && Next(cs.1, cs.1.inFlight[0]) && cs.2.inFlight != [] && Next(cs.2, cs.2.inFlight[0])
    ensures cs.0.recorded == [] && cs.3.recorded == [rec, rec]
  {
    var c1 := Broadcast(NEWBORN.chain, Sending(rec, a, 0));
    var c2 := Broadcast(c1, Sending(rec, a', 0));
    var c3 := Landed(c2, 0);
    assert c3.inFlight == [Sending(rec, a', 0)];
    (c1, c2, c3, Landed(c3, 0))
  }

  function RotationStates(keccak: Hasher, r: M.Request, a: Address, a': Address): seq<Inbound>
    requires a != a'
  {
    var cs := RotationChains(Record(Index(keccak, r), r), a, a');
    [Queued(r, false, NEWBORN.chain), Queued(r, true, cs.0), Queued(r, false, cs.0), Checking(keccak, r, cs.1),
     Checking(keccak, r, cs.2), Checking(keccak, r, cs.3)]
  }

  lemma RotationLeads(keccak: Hasher, r: M.Request, a: Address, a': Address)
    requires Index(keccak, r) > 0 && a != a'
    ensures Leads(keccak, RotationStates(keccak, r, a, a'), RotationEvents(r, a, a'))
    ensures RotationStates(keccak, r, a, a')[5].life.chain.recorded == SameTwice(keccak, r)
  {
    var cs := RotationChains(Record(Index(keccak, r), r), a, a');
    assert Checking(keccak, r, cs.3).life.chain == cs.3;
    hide Goes, Queued, Checking, Broadcast, Landed, Index;
    LooksGoes(keccak, r, NEWBORN.chain, a, 0, false);
    RetryGoes(keccak, r, cs.0);
    LooksGoes(keccak, r, cs.0, a', 0, true);
    LandGoes(keccak, r, true, cs.1);
    LandGoes(keccak, r, true, cs.2);
  }

  lemma LooksHonest(keccak: Hasher, r: M.Request, c: MintChain, signer: Address, reported: bool)
    requires c.recorded == []
    ensures EventHonest(keccak, Queued(r, false, c), Looks(signer, 0, reported))
  {
  }

  lemma OthersHonest(keccak: Hasher, s: Inbound, e: LifeEvent)
    requires !e.Process?
    ensures EventHonest(keccak, s, e)
  {
  }

  /**
   * Even when every query and lookup tells the truth: after an unreported submission the pools rotate, the retry is
   * signed by the new pool's account, and both submissions land.
   */
  lemma RotationMintsTwice(keccak: Hasher, b: M.Bridge, p: Payment, height: nat, a: Address, a': Address)
    requires Fits(b, p) && Index(keccak, RequestOf(p)) > 0 && a != a'
    ensures MintsTwice(keccak, b, p, height, RotationEvents(RequestOf(p), a, a'))
    ensures IsHonest(keccak, b, p, height, RotationEvents(RequestOf(p), a, a'))
  {
    hide Leads, MintsTwice, IsHonest, EventHonest, Queued, Checking, RotationChains;
    var r := RequestOf(p);
    var ss, es := RotationStates(keccak, r, a, a'), RotationEvents(r, a, a');
    RotationLeads(keccak, r, a, a');
    LooksHonest(keccak, r, NEWBORN.chain, a, false);
    LooksHonest(keccak, r, RotationChains(Record(Index(keccak, r), r), a, a').0, a', true);
    OthersHonest(keccak, ss[1], es[1]);
    OthersHonest(keccak, ss[3], es[3]);
    OthersHonest(keccak, ss[4], es[4]);
    LeadsToTwo(keccak, b, p, height, ss, es);
  }
}
