/**
 * Intake of outbound requests from Joltify transactions (joltifybridge/bridge.go:432-464,
 * joltifybridge/tx_outbound.go:21-111, 195-207).
 */
module Outbound {
  import opened Config
  import opened Wrappers
  import opened ByteTypes
  import opened Collections
  import Hex

  datatype Coin = Coin(denom: string, amount: nat)

  /** A bank transfer; None where the receiver cannot be parsed or the sender's public-chain address not be derived. */
  datatype MsgSend = MsgSend(to: Option<Address>, sender: Option<Address>, coins: seq<Coin>)

  datatype Msg = Send(send: MsgSend) | Other

  /** The cached pools: both Joltify addresses, and the public-chain address of the latest. */
  datatype Pools = Pools(older: Address, latest: Address, ethAddress: Address)

  /** The part of an outbound request that never changes. */
  datatype Request = Request(txID: string, receiver: Address, fromPool: Address, amount: nat)

  datatype IntakeError = BadReceiver | BadSender | NotToPool | NotAPair | InvalidPair | LowFee

  const DENOM := "JUSD"
  const DENOM_FEE := "JOLT"

  /** Whether the message becomes a request, with the checks in the order of the source. */
  function ProcessMsg(pools: Pools, txHash: Bytes, msg: MsgSend): Result<Request, IntakeError> {
    if msg.to.None? then Failure(BadReceiver)
    else if msg.sender.None? then Failure(BadSender)
    else if msg.to.value != pools.older && msg.to.value != pools.latest then Failure(NotToPool)
    else if |msg.coins| != 2 then Failure(NotAPair)
    else
      var straight := msg.coins[0].denom == DENOM && msg.coins[1].denom == DENOM_FEE;
      var reversed := msg.coins[1].denom == DENOM && msg.coins[0].denom == DENOM_FEE;
      if !straight && !reversed then Failure(InvalidPair)
      else
        var token := if reversed then 1 else 0;
        if msg.coins[1 - token].amount < MIN_FEE then Failure(LowFee)
        else Success(Request(Hex.Encode(txHash), msg.sender.value, pools.ethAddress, msg.coins[token].amount))
  }

  function Admitted(pools: Pools, txHash: Bytes, msg: Msg): seq<Request> {
    if msg.Other? then []
    else
      match ProcessMsg(pools, txHash, msg.send)
      case Success(r) => [r]
      case Failure(_) => []
  }

  function ProcessMsgs(pools: Pools, txHash: Bytes, msgs: seq<Msg>): seq<Request> {
    if msgs == [] then [] else Admitted(pools, txHash, msgs[0]) + ProcessMsgs(pools, txHash, msgs[1..])
  }

  /** A Joltify transaction as the node meets it; None without two cached pools, or when it does not decode. */
  datatype JoltTx = JoltTx(pools: Option<Pools>, hash: Bytes, msgs: Option<seq<Msg>>)

  function CheckOutBoundTx(tx: JoltTx): seq<Request> {
    if tx.pools.None? || tx.msgs.None? then [] else ProcessMsgs(tx.pools.value, tx.hash, tx.msgs.value)
  }

  // ---- An independent account of what counts as a payment ----

  function JusdIn(c: Coin): nat {
    if c.denom == DENOM then c.amount else 0
  }

  /** All the JUSD in a list of coins. */
  function Jusd(coins: seq<Coin>): nat {
    SumSeq(coins, JusdIn)
  }

  /** Pays a cached pool exactly one JUSD and one JOLT coin, in either order, with enough JOLT. */
  ghost predicate Pays(pools: Pools, msg: Msg) {
    && msg.Send? && msg.send.sender.Some?
    && msg.send.to in {Some(pools.older), Some(pools.latest)}
    && exists a: nat, f: nat :: f >= MIN_FEE && multiset(msg.send.coins) == multiset{Coin(DENOM, a), Coin(DENOM_FEE, f)}
  }

  lemma PairOfCoins(coins: seq<Coin>, x: Coin, y: Coin)
    ensures multiset(coins) == multiset{x, y} <==> coins == [x, y] || coins == [y, x]
  {
    if multiset(coins) == multiset{x, y} {
      assert |coins| == |multiset(coins)| == 2;
      assert coins == [coins[0], coins[1]];
      assert multiset(coins) == multiset{coins[0], coins[1]};
      assert coins[0] in multiset{x, y};
      if coins[0] == x {
        assert multiset{coins[1]} == multiset{x, coins[1]} - multiset{x} == multiset{y};
        assert coins[1] in multiset{y};
      } else {
        assert multiset{coins[1]} == multiset{y, coins[1]} - multiset{y} == multiset{x};
        assert coins[1] in multiset{x};
      }
    }
  }

  lemma JusdOfPair(x: Coin, y: Coin)
    ensures Jusd([x, y]) == JusdIn(x) + JusdIn(y)
  {
    assert [x, y][1..] == [y] && [y][1..] == [];
    assert SumSeq([y], JusdIn) == JusdIn(y);
  }

  lemma AcceptedPays(pools: Pools, txHash: Bytes, msg: MsgSend)
    requires ProcessMsg(pools, txHash, msg).Success?
    ensures Pays(pools, Send(msg)) && ProcessMsg(pools, txHash, msg).value.amount == Jusd(msg.coins)
  {
    var coins := msg.coins;
    assert coins == [coins[0], coins[1]];
    JusdOfPair(coins[0], coins[1]);
    var token := if coins[1].denom == DENOM && coins[0].denom == DENOM_FEE then 1 else 0;
    var a, f := coins[token].amount, coins[1 - token].amount;
    assert coins[token] == Coin(DENOM, a) && coins[1 - token] == Coin(DENOM_FEE, f);
    PairOfCoins(coins, Coin(DENOM, a), Coin(DENOM_FEE, f));
  }

  lemma PairAccepted(pools: Pools, txHash: Bytes, msg: MsgSend, a: nat, f: nat)
    requires msg.sender.Some? && msg.to in {Some(pools.older), Some(pools.latest)} && f >= MIN_FEE
    requires msg.coins == [Coin(DENOM, a), Coin(DENOM_FEE, f)] || msg.coins == [Coin(DENOM_FEE, f), Coin(DENOM, a)]
    ensures ProcessMsg(pools, txHash, msg).Success?
  {
  }

  lemma PaysAccepted(pools: Pools, txHash: Bytes, msg: MsgSend)
    requires Pays(pools, Send(msg))
    ensures ProcessMsg(pools, txHash, msg).Success?
  {
    hide ProcessMsg;
    var a: nat, f: nat :| f >= MIN_FEE && multiset(msg.coins) == multiset{Coin(DENOM, a), Coin(DENOM_FEE, f)};
    PairOfCoins(msg.coins, Coin(DENOM, a), Coin(DENOM_FEE, f));
    PairAccepted(pools, txHash, msg, a, f);
  }

  /**
   * A message becomes a request exactly when it pays, and then for all its JUSD, to its sender, from the latest
   * pool.
   */
  lemma AcceptedIffPays(pools: Pools, txHash: Bytes, msg: MsgSend)
    ensures ProcessMsg(pools, txHash, msg).Success? <==> Pays(pools, Send(msg))
    ensures ProcessMsg(pools, txHash, msg).Success? ==>
              ProcessMsg(pools, txHash, msg).value
              == Request(Hex.Encode(txHash), msg.sender.value, pools.ethAddress, Jusd(msg.coins))
  {
    if ProcessMsg(pools, txHash, msg).Success? {
      AcceptedPays(pools, txHash, msg);
    } else if Pays(pools, Send(msg)) {
      PaysAccepted(pools, txHash, msg);
    }
  }

  /** Why a message is refused: the first of these that holds of it. */
  lemma RefusedFor(pools: Pools, txHash: Bytes, msg: MsgSend, e: IntakeError)
    ensures ProcessMsg(pools, txHash, msg) == Failure(e) <==>
              && !Pays(pools, Send(msg))
              && e == if msg.to.None? then BadReceiver
                      else if msg.sender.None? then BadSender
                      else if msg.to !in {Some(pools.older), Some(pools.latest)} then NotToPool
                      else if |msg.coins| != 2 then NotAPair
                      else if {msg.coins[0].denom, msg.coins[1].denom} != {DENOM, DENOM_FEE} then InvalidPair
                      else LowFee
  {
    AcceptedIffPays(pools, txHash, msg);
    hide Pays;
    if |msg.coins| == 2 {
      var x, y := msg.coins[0].denom, msg.coins[1].denom;
      assert x in {x, y} && y in {x, y} && DENOM in {DENOM, DENOM_FEE} && DENOM_FEE in {DENOM, DENOM_FEE};
      assert DENOM != DENOM_FEE;
    }
  }

  function Amount(r: Request): nat {
    r.amount
  }

  ghost function Paid(pools: Pools, msgs: seq<Msg>): nat {
    if msgs == [] then 0
    else (if Pays(pools, msgs[0]) then Jusd(msgs[0].send.coins) else 0) + Paid(pools, msgs[1..])
  }

  lemma AdmittedConserves(pools: Pools, txHash: Bytes, msg: Msg)
    ensures SumSeq(Admitted(pools, txHash, msg), Amount) == if Pays(pools, msg) then Jusd(msg.send.coins) else 0
  {
    if msg.Send? {
      AcceptedIffPays(pools, txHash, msg.send);
      var rs := Admitted(pools, txHash, msg);
      if rs != [] {
        assert rs[1..] == [];
      }
    }
  }

  lemma {:induction false} MsgsConserveValue(pools: Pools, txHash: Bytes, msgs: seq<Msg>)
    ensures SumSeq(ProcessMsgs(pools, txHash, msgs), Amount) == Paid(pools, msgs)
  {
    if msgs == [] {
    } else {
      MsgsConserveValue(pools, txHash, msgs[1..]);
      AdmittedConserves(pools, txHash, msgs[0]);
      SumSeqAppend(Admitted(pools, txHash, msgs[0]), ProcessMsgs(pools, txHash, msgs[1..]), Amount);
    }
  }

  // ---- Which requests a transaction makes ----

  /** The messages that pay, in order. */
  ghost function Paying(pools: Pools, msgs: seq<Msg>): (r: seq<Msg>)
    ensures forall msg :: msg in r ==> msg in msgs && Pays(pools, msg)
  {
    if msgs == [] then [] else (if Pays(pools, msgs[0]) then [msgs[0]] else []) + Paying(pools, msgs[1..])
  }

  /** What a paying message asks for: all its JUSD, to its sender, from the latest pool. */
  ghost function AskedBy(pools: Pools, txHash: Bytes, msg: Msg): Request
    requires Pays(pools, msg)
  {
    Request(Hex.Encode(txHash), msg.send.sender.value, pools.ethAddress, Jusd(msg.send.coins))
  }

  ghost function AskedByAll(pools: Pools, txHash: Bytes, msgs: seq<Msg>): seq<Request>
    requires forall msg :: msg in msgs ==> Pays(pools, msg)
  {
    seq(|msgs|, i requires 0 <= i < |msgs| => AskedBy(pools, txHash, msgs[i]))
  }

  lemma AdmittedAre(pools: Pools, txHash: Bytes, msg: Msg)
    ensures Admitted(pools, txHash, msg) == if Pays(pools, msg) then [AskedBy(pools, txHash, msg)] else []
  {
    hide ProcessMsg;
    if msg.Send? {
      AcceptedIffPays(pools, txHash, msg.send);
    }
  }

  lemma AskedAppend(pools: Pools, txHash: Bytes, xs: seq<Msg>, ys: seq<Msg>)
    requires forall msg :: msg in xs + ys ==> Pays(pools, msg)
    ensures (forall msg :: msg in xs ==> msg in xs + ys) && (forall msg :: msg in ys ==> msg in xs + ys)
    ensures AskedByAll(pools, txHash, xs + ys) == AskedByAll(pools, txHash, xs) + AskedByAll(pools, txHash, ys)
  {
    hide Pays, AskedBy;
  }

  lemma {:induction false} MsgsAsk(pools: Pools, txHash: Bytes, msgs: seq<Msg>)
    ensures ProcessMsgs(pools, txHash, msgs) == AskedByAll(pools, txHash, Paying(pools, msgs))
  {
    if msgs == [] {
    } else {
      hide Admitted, Pays, AskedBy;
      AdmittedAre(pools, txHash, msgs[0]);
      MsgsAsk(pools, txHash, msgs[1..]);
      var now := if Pays(pools, msgs[0]) then [msgs[0]] else [];
      assert Paying(pools, msgs) == now + Paying(pools, msgs[1..]);
      AskedAppend(pools, txHash, now, Paying(pools, msgs[1..]));
    }
  }

  /** What the paying messages of a transaction ask for; nothing without two cached pools or when it does not decode. */
  ghost function AskedIn(tx: JoltTx): seq<Request> {
    if tx.pools.None? || tx.msgs.None? then []
    else AskedByAll(tx.pools.value, tx.hash, Paying(tx.pools.value, tx.msgs.value))
  }

  /**
   * The requests a transaction makes are, in order, one for each of its messages that pays: under its id, to that
   * message's sender, from the latest pool, for all the JUSD.
   */
  lemma RequestsAreThePayments(tx: JoltTx)
    ensures CheckOutBoundTx(tx) == AskedIn(tx)
  {
    if tx.pools.Some? && tx.msgs.Some? {
      MsgsAsk(tx.pools.value, tx.hash, tx.msgs.value);
    }
  }

  /** The request is what this message of the transaction asks for. */
  ghost predicate IsAskedBy(tx: JoltTx, msg: Msg, r: Request) {
    && tx.pools.Some? && tx.msgs.Some? && msg in tx.msgs.value
    && Pays(tx.pools.value, msg) && r == AskedBy(tx.pools.value, tx.hash, msg)
  }

  /** Every request taken in over some transactions is what a paying message of one of them asks for. */
  lemma {:induction false} TakenAreAsked(txs: seq<JoltTx>, r: Request)
    requires r in IntakeOf(txs)
    ensures exists tx, msg :: tx in txs && IsAskedBy(tx, msg, r)
  {
    hide CheckOutBoundTx, IsAskedBy;
    if txs == [] {
    } else if r in CheckOutBoundTx(txs[0]) {
      var msg := MadeByMessage(txs[0], r);
      assert txs[0] in txs && IsAskedBy(txs[0], msg, r);
    } else {
      TakenAreAsked(txs[1..], r);
      var tx, msg :| tx in txs[1..] && IsAskedBy(tx, msg, r);
      assert tx in txs;
    }
  }

  lemma MadeByMessage(tx: JoltTx, r: Request) returns (msg: Msg)
    requires r in CheckOutBoundTx(tx)
    ensures IsAskedBy(tx, msg, r)
  {
    RequestsAreThePayments(tx);
    hide CheckOutBoundTx, Pays, AskedBy;
    var paying := Paying(tx.pools.value, tx.msgs.value);
    var i :| 0 <= i < |paying| && AskedByAll(tx.pools.value, tx.hash, paying)[i] == r;
    msg := paying[i];
    assert msg in paying;
  }

  function IntakeOf(txs: seq<JoltTx>): seq<Request> {
    if txs == [] then [] else CheckOutBoundTx(txs[0]) + IntakeOf(txs[1..])
  }

  ghost function PaidIn(txs: seq<JoltTx>): nat {
    if txs == [] then 0
    else
      (if txs[0].pools.Some? && txs[0].msgs.Some? then Paid(txs[0].pools.value, txs[0].msgs.value) else 0)
      + PaidIn(txs[1..])
  }

  /**
   * Intake conserves value: over any transactions, with any number of messages and whatever ids and senders they share,
   * the JUSD of the requests made is the JUSD of the messages that pay a pool cached at the time.
   */
  lemma {:induction false} IntakeConservesValue(txs: seq<JoltTx>)
    ensures SumSeq(IntakeOf(txs), Amount) == PaidIn(txs)
  {
    if txs == [] {
    } else {
      var tx := txs[0];
      IntakeConservesValue(txs[1..]);
      if tx.pools.Some? && tx.msgs.Some? {
        MsgsConserveValue(tx.pools.value, tx.hash, tx.msgs.value);
      }
      SumSeqAppend(CheckOutBoundTx(tx), IntakeOf(txs[1..]), Amount);
    }
  }
}
