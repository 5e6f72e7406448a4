/** What the mints of the inbound side are worth, over every run of it and of the chain it submits to. */
module MintSafety {
  import opened Config
  import opened Wrappers
  import opened ByteTypes
  import opened Collections
  import opened InboundFlow
  import opened Landing
  import opened Ownership
  import opened Submissions
  import M = MatcherSpec
  import B = BlockCounts
  import T = MatcherTheorems
  import Hex

  // ---- Where requests come from ----

  /** The signer of a transaction, the amount its arguments name, and whether it is a transfer. */
  datatype Content = Content(from: Address, amount: nat, transfer: bool)

  /** What each transaction id stands for. */
  type Ledger = Bytes -> Content

  ghost predicate TxFixed(ledger: Ledger, b: M.Bridge, tx: M.Tx) {
    var call := M.CheckErc20(b.unpack, tx.data);
    tx.sender.Some? && call.Some? ==> ledger(tx.hash) == Content(tx.sender.value, call.value.amount, B.IsTransfer(tx))
  }

  ghost predicate HeadFixed(ledger: Ledger, h: T.Head) {
    h.block.Some? ==> forall tx :: tx in h.block.value ==> TxFixed(ledger, h.bridge, tx)
  }

  /** The contents of a transaction are fixed by its id, however often a block is processed. */
  ghost predicate Fixed(ledger: Ledger, events: seq<Event>) {
    forall e :: e in events && e.OnHead? ==> HeadFixed(ledger, e.head)
  }

  ghost predicate Says(ledger: Ledger, id: Bytes, from: Address, amount: nat) {
    ledger(id).from == from && ledger(id).amount == amount
  }

  ghost predicate EventFixed(ledger: Ledger, e: M.Event) {
    e.TokenEvent? ==> Says(ledger, e.hash, e.from, e.amount)
  }

  ghost predicate Genuine(ledger: Ledger, seen: set<Bytes>, r: M.Request) {
    r.txID in seen && Says(ledger, r.txID, r.from, r.amount)
  }

  ghost predicate GenuinePending(ledger: Ledger, seen: set<Bytes>, s: M.State) {
    forall id :: id in s.pending ==>
      && Hex.Decode(id).Some? && Hex.Decode(id).value in seen
      && Says(ledger, Hex.Decode(id).value, s.pending[id].from, s.pending[id].amount)
  }

  lemma {:induction false} BlockFixed(ledger: Ledger, s: M.State, b: M.Bridge, txs: seq<M.Tx>, height: nat)
    requires forall tx :: tx in txs ==> TxFixed(ledger, b, tx)
    ensures forall e :: e in M.BlockEvents(s, b, txs, height) ==> EventFixed(ledger, e)
    decreases |txs|
  {
    if txs == [] {
    } else {
      assert txs[0] in txs;
      BlockFixed(ledger, M.Run(s, M.TxEvents(s, b, txs[0], height)).0, b, txs[1..], height);
    }
  }

  lemma ApplyGenuine(ledger: Ledger, seen: set<Bytes>, s: M.State, e: M.Event)
    requires GenuinePending(ledger, seen, s) && EventFixed(ledger, e) && (e.TokenEvent? ==> e.hash in seen)
    ensures GenuinePending(ledger, seen, M.Apply(s, e).0)
    ensures forall o :: o in M.Apply(s, e).1 ==> Genuine(ledger, seen, o.req)
  {
    if !e.ExpireEvent? {
      Hex.DecodeEncode(T.IdOf(e));
    }
  }

  lemma {:induction false} RunGenuine(ledger: Ledger, seen: set<Bytes>, s: M.State, events: seq<M.Event>)
    requires GenuinePending(ledger, seen, s)
    requires forall e :: e in events ==> EventFixed(ledger, e) && (e.TokenEvent? ==> e.hash in seen)
    ensures GenuinePending(ledger, seen, M.Run(s, events).0)
    ensures forall o :: o in M.Run(s, events).1 ==> Genuine(ledger, seen, o.req)
    decreases |events|
  {
    if events == [] {
    } else {
      assert events[0] in events;
      ApplyGenuine(ledger, seen, s, events[0]);
      RunGenuine(ledger, seen, M.Apply(s, events[0]).0, events[1..]);
    }
  }

  lemma {:induction false} RequestsOfGenuine(ledger: Ledger, seen: set<Bytes>, outs: seq<M.Output>)
    requires forall o :: o in outs ==> Genuine(ledger, seen, o.req)
    ensures forall r :: r in RequestsOf(outs) ==> Genuine(ledger, seen, r)
  {
    if outs == [] {
    } else {
      assert outs[0] in outs;
      RequestsOfGenuine(ledger, seen, outs[1..]);
    }
  }

  /** What holds at every reachable state. */
  ghost predicate Inv(keccak: Hasher, ledger: Ledger, s: Inbound) {
    && GenuinePending(ledger, s.seen, s.matcher)
    && (forall r :: r in Everywhere(s.life) ==> Genuine(ledger, s.seen, r))
    && GenuineChain(keccak, ledger, s.seen, s.life.chain)
    && ChecksOwnIndex(keccak, s.life)
  }

  /** What the chain records or may record is genuine and stands under its own index. */
  ghost predicate GenuineChain(keccak: Hasher, ledger: Ledger, seen: set<Bytes>, c: MintChain) {
    && (forall rec :: rec in c.recorded ==> GenuineRecord(keccak, ledger, seen, rec))
    && (forall sub :: sub in c.inFlight ==> GenuineRecord(keccak, ledger, seen, sub.rec))
  }

  ghost predicate GenuineRecord(keccak: Hasher, ledger: Ledger, seen: set<Bytes>, rec: Record<M.Request>) {
    rec.key == Index(keccak, rec.item) && Genuine(ledger, seen, rec.item)
  }

  /** Status checks look for the request's own index, and a confirmed request has its index on the chain. */
  ghost predicate ChecksOwnIndex(keccak: Hasher, l: Life) {
    && (forall w :: w in l.awaiting && w.index.Some? ==> w.index.value == Index(keccak, w.req))
    && (forall r :: r in l.confirmed ==> Has(l.chain.recorded, Index(keccak, r)))
  }

  lemma LandChecksOwnIndex(keccak: Hasher, l: Life, n: nat)
    requires ChecksOwnIndex(keccak, l)
    ensures ChecksOwnIndex(keccak, LifeStep(keccak, l, Land(n)))
  {
    var l' := LifeStep(keccak, l, Land(n));
    forall c | c in l.confirmed ensures Has(l'.chain.recorded, Index(keccak, c)) {
      var i :| 0 <= i < |l.chain.recorded| && l.chain.recorded[i].key == Index(keccak, c);
      assert l'.chain.recorded[i] == l.chain.recorded[i];
    }
  }

  lemma StatusChecksOwnIndex(keccak: Hasher, l: Life, i: nat, found: bool)
    requires Enabled(keccak, l, Status(i, found)) && ChecksOwnIndex(keccak, l)
    ensures ChecksOwnIndex(keccak, LifeStep(keccak, l, Status(i, found)))
  {
    assert l.awaiting[i] in l.awaiting;
    var l' := LifeStep(keccak, l, Status(i, found));
    assert forall w :: w in l'.awaiting ==> w in l.awaiting;
  }

  lemma DispatchChecksOwnIndex(keccak: Hasher, l: Life, r: M.Request, answer: Answer)
    requires ChecksOwnIndex(keccak, l)
    ensures ChecksOwnIndex(keccak, Dispatch(keccak, l, r, answer))
  {
    hide Has, Index;
  }

  lemma StepChecksOwnIndex(keccak: Hasher, l: Life, e: LifeEvent)
    requires Enabled(keccak, l, e) && ChecksOwnIndex(keccak, l)
    ensures ChecksOwnIndex(keccak, LifeStep(keccak, l, e))
  {
    match e
    case Enqueue(_) =>
    case Retry(_) =>
    case Process(answer) =>
      hide Dispatch;
      DispatchChecksOwnIndex(keccak, l.(channel := l.channel[1..]), l.channel[0], answer);
    case Status(i, found) => StatusChecksOwnIndex(keccak, l, i, found);
    case Land(n) => LandChecksOwnIndex(keccak, l, n);
    case Advance(_, _) =>
  }

  lemma StepKeepsGenuineChain(keccak: Hasher, ledger: Ledger, seen: set<Bytes>, l: Life, e: LifeEvent)
    requires GenuineChain(keccak, ledger, seen, l.chain) && forall r :: r in l.channel ==> Genuine(ledger, seen, r)
    ensures GenuineChain(keccak, ledger, seen, LifeStep(keccak, l, e).chain)
  {
    hide Genuine;
    var c' := LifeStep(keccak, l, e).chain;
    if e.Land? && e.n < |l.chain.inFlight| {
      assert c'.recorded == l.chain.recorded + [l.chain.inFlight[e.n].rec];
      assert l.chain.inFlight[e.n] in l.chain.inFlight;
      assert forall sub :: sub in c'.inFlight ==> sub in l.chain.inFlight;
    } else if e.Process? && l.channel != [] {
      assert l.channel[0] in l.channel;
      ProcessIsSent(keccak, l, e.answer);
    }
  }

  lemma LifeKeepsInv(keccak: Hasher, ledger: Ledger, s: Inbound, e: LifeEvent)
    requires Inv(keccak, ledger, s) && !e.Enqueue? && Enabled(keccak, s.life, e)
    ensures Inv(keccak, ledger, s.(life := LifeStep(keccak, s.life, e)))
  {
    StepKeepsRequests(keccak, s.life, e);
    StepChecksOwnIndex(keccak, s.life, e);
    assert forall r :: r in s.life.channel ==> r in Everywhere(s.life);
    StepKeepsGenuineChain(keccak, ledger, s.seen, s.life, e);
    hide LifeStep, Everywhere, Enabled, ChecksOwnIndex, Genuine, GenuinePending, GenuineChain;
  }

  lemma HeadKeepsInv(keccak: Hasher, ledger: Ledger, s: Inbound, h: T.Head)
    requires Inv(keccak, ledger, s) && HeadFixed(ledger, h) && AllEnabled(keccak, s.life, HeadRun(s.matcher, h).1)
    ensures Inv(keccak, ledger, Step(keccak, s, OnHead(h)))
  {
    hide EnqueueAll, Everywhere, AllEnabled, RequestsOf, M.Run;
    var events := M.HeadEvents(s.matcher, h.bridge, h.number, h.block);
    var s' := Step(keccak, s, OnHead(h));
    if h.block.Some? {
      BlockFixed(ledger, s.matcher, h.bridge, h.block.value, h.number);
    }
    assert forall e :: e in events && e.TokenEvent? ==> e.hash in Hashes(events);
    RunGenuine(ledger, s'.seen, s.matcher, events);
    var outs := HeadRun(s.matcher, h).1;
    EnqueueKeepsRest(keccak, s.life, outs);
    EnqueueKeepsRequests(keccak, s.life, outs);
    RequestsOfGenuine(ledger, s'.seen, outs);
  }

  lemma {:induction false} RunKeepsInv(keccak: Hasher, ledger: Ledger, s: Inbound, events: seq<Event>)
    requires Inv(keccak, ledger, s) && Legal(keccak, s, events) && Fixed(ledger, events)
    ensures Inv(keccak, ledger, RunAll(keccak, s, events))
    decreases |events|
  {
    if events == [] {
    } else {
      assert events[0] in events;
      match events[0] {
        case OnHead(h) => HeadKeepsInv(keccak, ledger, s, h);
        case OnLife(le) => LifeKeepsInv(keccak, ledger, s, le);
      }
      RunKeepsInv(keccak, ledger, Step(keccak, s, events[0]), events[1..]);
    }
  }

  // ---- The amounts ----

  function Amount(rec: Record<M.Request>): nat {
    rec.item.amount
  }

  lemma {:induction false} SumByID(ledger: Ledger, recs: seq<Record<M.Request>>, ids: seq<Bytes>)
    requires |ids| == |recs|
    requires forall i :: 0 <= i < |recs| ==> ids[i] == recs[i].item.txID && ledger(ids[i]).amount == recs[i].item.amount
    ensures SumSeq(recs, Amount) == SumSeq(ids, (h: Bytes) => ledger(h).amount)
  {
    if recs == [] {
    } else {
      assert ledger(ids[0]).amount == recs[0].item.amount;
      forall i | 0 <= i < |recs[1..]|
        ensures ids[1..][i] == recs[1..][i].item.txID && ledger(ids[1..][i]).amount == recs[1..][i].item.amount
      {
        assert ids[i + 1] == recs[i + 1].item.txID && ledger(ids[i + 1]).amount == recs[i + 1].item.amount;
      }
      SumByID(ledger, recs[1..], ids[1..]);
    }
  }

  /** The ids among these that stand for transfers, and the others. */
  ghost function Transfers(ledger: Ledger, ids: set<Bytes>): set<Bytes> {
    set id | id in ids && ledger(id).transfer
  }

  ghost function Others(ledger: Ledger, ids: set<Bytes>): set<Bytes> {
    set id | id in ids && !ledger(id).transfer
  }

  ghost function Total(ledger: Ledger, ids: set<Bytes>): nat {
    Sum(ids, (h: Bytes) => ledger(h).amount)
  }

  lemma TotalSplits(ledger: Ledger, ids: set<Bytes>)
    ensures Total(ledger, ids) == Total(ledger, Transfers(ledger, ids)) + Total(ledger, Others(ledger, ids))
  {
    SumUnion(Transfers(ledger, ids), Others(ledger, ids), (h: Bytes) => ledger(h).amount);
    assert ids == Transfers(ledger, ids) + Others(ledger, ids);
  }

  /** What is minted is at most the transfers observed, and what other calls counted as deposits name. */
  lemma MintedWithinDeposits(keccak: Hasher, ledger: Ledger, s: Inbound)
    requires Inv(keccak, ledger, s) && RecordedOnce(s.life.chain.recorded)
    ensures SumSeq(s.life.chain.recorded, Amount)
            <= Total(ledger, Transfers(ledger, s.seen)) + Total(ledger, Others(ledger, s.seen))
  {
    var recs := s.life.chain.recorded;
    var ids := seq(|recs|, i requires 0 <= i < |recs| => recs[i].item.txID);
    forall i | 0 <= i < |recs|
      ensures ids[i] == recs[i].item.txID && ids[i] in s.seen
      ensures GenuineRecord(keccak, ledger, s.seen, recs[i])
    {
      assert recs[i] in recs;
    }
    forall i, j | 0 <= i < j < |ids| ensures ids[i] != ids[j] {
      assert GenuineRecord(keccak, ledger, s.seen, recs[i]) && GenuineRecord(keccak, ledger, s.seen, recs[j]);
    }
    SumByID(ledger, recs, ids);
    DistinctSumBound(ids, s.seen, (h: Bytes) => ledger(h).amount);
    TotalSplits(ledger, s.seen);
  }

  // ---- Which calls are counted as deposits ----

  ghost function IdsOf(txs: seq<M.Tx>): set<Bytes> {
    set tx | tx in txs :: tx.hash
  }

  /** The calls a head counts as deposits. */
  ghost function CountedAt(s: M.State, e: Event): seq<M.Tx> {
    if e.OnHead? && e.head.block.Some? then B.Counted(s, e.head.bridge, e.head.block.value, e.head.number) else []
  }

  /** The ids of all calls a run counts as deposits. */
  ghost function CountedIds(keccak: Hasher, s: Inbound, events: seq<Event>): set<Bytes>
    decreases |events|
  {
    if events == [] then {}
    else IdsOf(CountedAt(s.matcher, events[0])) + CountedIds(keccak, Step(keccak, s, events[0]), events[1..])
  }

  lemma {:induction false} TokenEventsSame(events: seq<M.Event>)
    ensures forall e :: e in B.TokenEvents(events) <==> e in events && e.TokenEvent?
  {
    if events == [] {
    } else {
      TokenEventsSame(events[1..]);
      assert events == [events[0]] + events[1..];
    }
  }

  lemma HashesAreCounted(s: M.State, h: T.Head)
    ensures Hashes(M.HeadEvents(s, h.bridge, h.number, h.block)) == IdsOf(CountedAt(s, OnHead(h)))
  {
    var counted := CountedAt(s, OnHead(h));
    var events := M.HeadEvents(s, h.bridge, h.number, h.block);
    hide M.BlockEvents, B.Counted;
    if h.block.Some? {
      var block := M.BlockEvents(s, h.bridge, h.block.value, h.number);
      B.CountedCallsAreTheDeposits(s, h.bridge, h.block.value, h.number);
      TokenEventsSame(block);
      forall tx | tx in counted ensures tx.hash in Hashes(events) {
        var i :| 0 <= i < |counted| && counted[i] == tx;
        assert B.TokenEvents(block)[i] == B.CallEvent(h.bridge, tx, h.number);
        assert B.TokenEvents(block)[i] in B.TokenEvents(block);
        assert B.CallEvent(h.bridge, tx, h.number) in events;
      }
      forall e | e in events && e.TokenEvent? ensures e.hash in IdsOf(counted) {
        assert e in B.TokenEvents(block);
        var i :| 0 <= i < |counted| && B.TokenEvents(block)[i] == e;
        assert counted[i] in counted;
      }
    }
  }

  /** The ids observed over a run are exactly those of the calls counted: successful calls that name a cached pool. */
  lemma {:induction false} SeenAreCounted(keccak: Hasher, s: Inbound, events: seq<Event>)
    ensures RunAll(keccak, s, events).seen == s.seen + CountedIds(keccak, s, events)
    decreases |events|
  {
    if events == [] {
    } else {
      hide CountedAt, M.HeadEvents, LifeStep, EnqueueAll;
      SeenAreCounted(keccak, Step(keccak, s, events[0]), events[1..]);
      match events[0]
      case OnHead(h) => HashesAreCounted(s.matcher, h);
      case OnLife(_) => NothingCounted(s.matcher, events[0]);
    }
  }

  lemma NothingCounted(s: M.State, e: Event)
    requires e.OnLife?
    ensures IdsOf(CountedAt(s, e)) == {}
  {
  }

  /** Every call a run counts as a deposit is a transfer. */
  ghost predicate CountsOnlyTransfers(keccak: Hasher, s: Inbound, events: seq<Event>)
    decreases |events|
  {
    events != [] ==>
      && (forall tx :: tx in CountedAt(s.matcher, events[0]) ==> B.IsTransfer(tx))
      && CountsOnlyTransfers(keccak, Step(keccak, s, events[0]), events[1..])
  }

  lemma CountedFixed(ledger: Ledger, s: M.State, e: Event)
    requires e.OnHead? ==> HeadFixed(ledger, e.head)
    ensures forall tx :: tx in CountedAt(s, e) ==> ledger(tx.hash).transfer == B.IsTransfer(tx)
    ensures Others(ledger, IdsOf(CountedAt(s, e))) == {} <==> forall tx :: tx in CountedAt(s, e) ==> B.IsTransfer(tx)
  {
    var counted := CountedAt(s, e);
    forall tx | tx in counted ensures ledger(tx.hash).transfer == B.IsTransfer(tx) {
      assert TxFixed(ledger, e.head.bridge, tx);
    }
    forall tx | tx in counted && !B.IsTransfer(tx) ensures tx.hash in Others(ledger, IdsOf(counted)) {
      assert tx.hash in IdsOf(counted);
    }
  }

  /**
   * Every observed deposit is a transfer exactly if every call the run counts has the selector of transfer, which the
   * code never compares.
   */
  lemma SeenAreTransfersIff(keccak: Hasher, ledger: Ledger, s: Inbound, events: seq<Event>)
    requires Fixed(ledger, events) && Others(ledger, s.seen) == {}
    ensures Others(ledger, RunAll(keccak, s, events).seen) == {} <==> CountsOnlyTransfers(keccak, s, events)
  {
    SeenAreCounted(keccak, s, events);
    CountedTransfersIff(keccak, ledger, s, events);
    assert Others(ledger, s.seen + CountedIds(keccak, s, events))
        == Others(ledger, s.seen) + Others(ledger, CountedIds(keccak, s, events));
  }

  lemma {:induction false} CountedTransfersIff(keccak: Hasher, ledger: Ledger, s: Inbound, events: seq<Event>)
    requires Fixed(ledger, events)
    ensures Others(ledger, CountedIds(keccak, s, events)) == {} <==> CountsOnlyTransfers(keccak, s, events)
    decreases |events|
  {
    if events == [] {
    } else {
      hide CountedAt, Step, HeadFixed;
      assert events[0] in events;
      var s' := Step(keccak, s, events[0]);
      var now, later := IdsOf(CountedAt(s.matcher, events[0])), CountedIds(keccak, s', events[1..]);
      CountedFixed(ledger, s.matcher, events[0]);
      CountedTransfersIff(keccak, ledger, s', events[1..]);
      assert Others(ledger, now + later) == Others(ledger, now) + Others(ledger, later);
    }
  }

  // ---- The whole ----

  lemma StartInv(keccak: Hasher, ledger: Ledger)
    ensures Inv(keccak, ledger, START)
  {
    assert Everywhere(NEWBORN) == multiset{};
  }

  /**
   * Mint safety. Over every run that never submits a request whose index is on the chain, or beside a submission for
   * its index that can still land under another account or number; with transaction contents fixed by their ids,
   * whatever the retries, height resets, lost reports, late landings and replayed blocks: no (depositor, transaction
   * id) is minted twice; every mint pays the signer of a call counted as a deposit the amount it names; the total
   * minted is at most the total of the transfers counted, plus what counted calls of other methods name, of which
   * there are none exactly if the run counts only transfers; and a confirmed request has its mint on the chain.
   */
  lemma MintSafetyOverRuns(keccak: Hasher, ledger: Ledger, events: seq<Event>)
    requires Legal(keccak, START, events) && Fixed(ledger, events) && NeverSubmitsRiskily(keccak, START, events)
    ensures var s := RunAll(keccak, START, events);
            var recs := s.life.chain.recorded;
            && (forall i, j :: 0 <= i < j < |recs| ==>
                  (recs[i].item.from, recs[i].item.txID) != (recs[j].item.from, recs[j].item.txID))
            && (forall rec :: rec in recs ==> rec.item.txID in CountedIds(keccak, START, events)
                                              && Says(ledger, rec.item.txID, rec.item.from, rec.item.amount))
            && SumSeq(recs, Amount) <= Total(ledger, Transfers(ledger, s.seen)) + Total(ledger, Others(ledger, s.seen))
            && (Others(ledger, s.seen) == {} <==> CountsOnlyTransfers(keccak, START, events))
            && (CountsOnlyTransfers(keccak, START, events) ==>
                  SumSeq(recs, Amount) <= Total(ledger, Transfers(ledger, s.seen)))
            && (forall r :: r in s.life.confirmed ==> Has(recs, Index(keccak, r)))
  {
    StartInv(keccak, ledger);
    RunKeepsInv(keccak, ledger, START, events);
    NeverCanMintTwiceIff(keccak, START, events);
    SeenAreCounted(keccak, START, events);
    SeenAreTransfersIff(keccak, ledger, START, events);
    var s := RunAll(keccak, START, events);
    hide RunAll, Legal, NeverSubmitsRiskily, CountsOnlyTransfers, CountedIds;
    MintedWithinDeposits(keccak, ledger, s);
    var recs := s.life.chain.recorded;
    forall i, j | 0 <= i < j < |recs|
      ensures (recs[i].item.from, recs[i].item.txID) != (recs[j].item.from, recs[j].item.txID)
    {
      assert recs[i] in recs && recs[j] in recs;
      assert recs[i].key != recs[j].key;
    }
  }

  /**
   * Runs whose account queries and lookups tell the truth mint safely if no request is submitted while another
   * account's submission for its index can still land, so always while one pool signs.
   */
  lemma HonestRunsMintSafely(keccak: Hasher, events: seq<Event>)
    requires Legal(keccak, START, events) && Honest(keccak, START, events)
    ensures NeverCanMintTwice(keccak, START, events) <==> NeverSubmitsAcross(keccak, START, events)
    ensures NeverSubmitsAcross(keccak, START, events) ==> NeverSubmitsRiskily(keccak, START, events)
    ensures (exists account :: SignedBy(account, NEWBORN.chain, events)) ==> NeverSubmitsRiskily(keccak, START, events)
  {
    assert Safe(NEWBORN.chain) && NoneAhead(NEWBORN.chain);
    HonestRiskIff(keccak, START, events);
    NeverCanMintTwiceIff(keccak, START, events);
    if account :| SignedBy(account, NEWBORN.chain, events) {
      OneAccountNeverAcross(keccak, START, events, account);
    }
  }

  // ---- What a lookup identifies ----

  /** The texts whose hashes are the indexes of these requests. */
  ghost function Preimages(rs: set<M.Request>): set<Bytes> {
    set r | r in rs :: r.from + r.txID
  }

  ghost function Minted(recorded: seq<Record<M.Request>>): set<M.Request> {
    set rec | rec in recorded :: rec.item
  }

  ghost predicate Injective(keccak: Hasher, texts: set<Bytes>) {
    forall x, y :: x in texts && y in texts && keccak(x) == keccak(y) ==> x == y
  }

  /** Where the hash does not collide, a lookup refuses a request exactly when that depositor's id is minted. */
  lemma RefusedIffMinted(keccak: Hasher, recorded: seq<Record<M.Request>>, r: M.Request)
    requires forall rec :: rec in recorded ==> rec.key == Index(keccak, rec.item)
    requires Injective(keccak, Preimages(Minted(recorded) + {r}))
    ensures Has(recorded, Index(keccak, r))
            <==> exists m :: m in Minted(recorded) && m.from == r.from && m.txID == r.txID
  {
    if Has(recorded, Index(keccak, r)) {
      var i :| 0 <= i < |recorded| && recorded[i].key == Index(keccak, r);
      var m := recorded[i].item;
      assert recorded[i] in recorded && m in Minted(recorded);
      assert m.from + m.txID == r.from + r.txID;
      assert (m.from + m.txID)[..20] == m.from && (r.from + r.txID)[..20] == r.from;
      assert (m.from + m.txID)[20..] == m.txID && (r.from + r.txID)[20..] == r.txID;
    }
    if m :| m in Minted(recorded) && m.from == r.from && m.txID == r.txID {
      var rec :| rec in recorded && rec.item == m;
      var i :| 0 <= i < |recorded| && recorded[i] == rec;
      assert recorded[i].key == Index(keccak, r);
    }
  }

  /** Whichever of a deposit and its fee comes first, the one request released for the id has the same mint index. */
  lemma EitherOrderSameIndex(keccak: Hasher, s: M.State, token: M.Event, fee: M.Event, mid: seq<M.Event>, b: Bytes)
    requires T.Inv(s) && T.SlotOf(s, b) == T.NOTHING
    requires T.IsToken(token, b) && fee.FeeEvent? && fee.txID == b && fee.fee >= MIN_FEE
    requires T.NoExpiry(mid) && forall e :: e in mid ==> T.IdOf(e) != b
    ensures var x := T.OutputsOf(M.Run(s, [token] + mid + [fee]).1, b);
            var y := T.OutputsOf(M.Run(s, [fee] + mid + [token]).1, b);
            && |x| == |y| == 1
            && Index(keccak, x[0].req) == Index(keccak, y[0].req)
            && x[0].req.amount == y[0].req.amount && x[0].req.from == y[0].req.from
  {
    T.OrderConfluence(s, token, fee, mid, b);
  }
}
