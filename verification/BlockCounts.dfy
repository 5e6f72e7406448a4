/**
 * Which transactions of a public-chain block count, as deposits and as fees (pubchain/tx_inbound.go:152-221).
 */
module BlockCounts {
  import opened Wrappers
  import opened ByteTypes
  import opened MatcherSpec
  import T = MatcherTheorems
  import Hex

  /** The method selectors of the token contract for transfer and for approve. */
  const TRANSFER: Bytes := [0xa9, 0x05, 0x9c, 0xbb]
  const APPROVE: Bytes := [0x09, 0x5e, 0xa7, 0xb3]

  /** A successful call of the token contract, from a recoverable signer, whose arguments name a cached pool. */
  ghost predicate CallsForPool(b: Bridge, tx: Tx) {
    && tx.status == Some(1) && tx.to == Some(b.token) && tx.sender.Some?
    && CheckErc20(b.unpack, tx.data).Some? && CheckErc20(b.unpack, tx.data).value.to in b.pools
  }

  /** The call is one of transfer: the only kind here that moves tokens to the account it names. */
  predicate IsTransfer(tx: Tx) {
    tx.data.Some? && TRANSFER <= tx.data.value
  }

  /** A successful transaction with call data to a cached pool. */
  ghost predicate PaysFee(b: Bridge, tx: Tx) {
    && tx.status == Some(1) && tx.to.Some? && tx.to.value in b.pools && tx.data.Some?
  }

  ghost function CallEvent(b: Bridge, tx: Tx, height: nat): Event
    requires CallsForPool(b, tx)
  {
    var t := CheckErc20(b.unpack, tx.data).value;
    TokenEvent(tx.hash, tx.sender.value, t.to, t.amount, height)
  }

  /** The calls of a block counted as deposits: those whose id is not waiting for its fee when they are met. */
  ghost function Counted(s: State, b: Bridge, txs: seq<Tx>, height: nat): (r: seq<Tx>)
    ensures forall tx :: tx in r ==> tx in txs && CallsForPool(b, tx)
    decreases |txs|
  {
    if txs == [] then []
    else
      (if CallsForPool(b, txs[0]) && Hex.Encode(txs[0].hash) !in s.pending then [txs[0]] else [])
      + Counted(Run(s, TxEvents(s, b, txs[0], height)).0, b, txs[1..], height)
  }

  ghost function CallEvents(b: Bridge, txs: seq<Tx>, height: nat): seq<Event>
    requires forall tx :: tx in txs ==> CallsForPool(b, tx)
  {
    seq(|txs|, i requires 0 <= i < |txs| => CallEvent(b, txs[i], height))
  }

  function TokenEvents(events: seq<Event>): seq<Event> {
    if events == [] then [] else (if events[0].TokenEvent? then [events[0]] else []) + TokenEvents(events[1..])
  }

  lemma {:induction false} TokenEventsAppend(xs: seq<Event>, ys: seq<Event>)
    ensures TokenEvents(xs + ys) == TokenEvents(xs) + TokenEvents(ys)
  {
    if xs == [] {
      assert xs + ys == ys;
    } else {
      assert (xs + ys)[0] == xs[0] && (xs + ys)[1..] == xs[1..] + ys;
      TokenEventsAppend(xs[1..], ys);
      var first := if xs[0].TokenEvent? then [xs[0]] else [];
      assert first + (TokenEvents(xs[1..]) + TokenEvents(ys)) == (first + TokenEvents(xs[1..])) + TokenEvents(ys);
    }
  }

  lemma TokenEventsOfTx(s: State, b: Bridge, tx: Tx, height: nat)
    ensures TokenEvents(TxEvents(s, b, tx, height))
            == if CallsForPool(b, tx) && Hex.Encode(tx.hash) !in s.pending then [CallEvent(b, tx, height)] else []
  {
    var es := TxEvents(s, b, tx, height);
    if |es| == 1 {
      assert es[1..] == [];
    } else if |es| == 2 {
      assert es == [es[0]] + [es[1]] && es[1].FeeEvent?;
      TokenEventsAppend([es[0]], [es[1]]);
      assert [es[0]][1..] == [] && [es[1]][1..] == [];
    }
  }

  lemma CallEventsAppend(b: Bridge, xs: seq<Tx>, ys: seq<Tx>, height: nat)
    requires forall tx :: tx in xs + ys ==> CallsForPool(b, tx)
    ensures (forall tx :: tx in xs ==> tx in xs + ys) && (forall tx :: tx in ys ==> tx in xs + ys)
    ensures CallEvents(b, xs + ys, height) == CallEvents(b, xs, height) + CallEvents(b, ys, height)
  {
    hide CallsForPool;
    hide CallEvent;
  }

  /**
   * The deposits a block counts are, in order, those of its counted calls: calls of any method of the token
   * contract.
   */
  lemma {:induction false} CountedCallsAreTheDeposits(s: State, b: Bridge, txs: seq<Tx>, height: nat)
    ensures TokenEvents(BlockEvents(s, b, txs, height)) == CallEvents(b, Counted(s, b, txs, height), height)
    decreases |txs|
  {
    if txs == [] {
    } else {
      hide TxEvents, Run, TokenEvents, CallsForPool, Hex.Encode;
      var es := TxEvents(s, b, txs[0], height);
      var s' := Run(s, es).0;
      CountedCallsAreTheDeposits(s', b, txs[1..], height);
      TokenEventsAppend(es, BlockEvents(s', b, txs[1..], height));
      TokenEventsOfTx(s, b, txs[0], height);
      var now := if CallsForPool(b, txs[0]) && Hex.Encode(txs[0].hash) !in s.pending then [txs[0]] else [];
      var rest := Counted(s', b, txs[1..], height);
      assert Counted(s, b, txs, height) == now + rest;
      CallEventsAppend(b, now, rest, height);
      hide Counted, BlockEvents, CallEvent;
    }
  }

  // ---- Which payments count as fees ----

  function FeeEvents(events: seq<Event>): seq<Event> {
    if events == [] then [] else (if events[0].FeeEvent? then [events[0]] else []) + FeeEvents(events[1..])
  }

  lemma {:induction false} FeeEventsAppend(xs: seq<Event>, ys: seq<Event>)
    ensures FeeEvents(xs + ys) == FeeEvents(xs) + FeeEvents(ys)
  {
    if xs == [] {
      assert xs + ys == ys;
    } else {
      assert (xs + ys)[0] == xs[0] && (xs + ys)[1..] == xs[1..] + ys;
      FeeEventsAppend(xs[1..], ys);
      var first := if xs[0].FeeEvent? then [xs[0]] else [];
      assert first + (FeeEvents(xs[1..]) + FeeEvents(ys)) == (first + FeeEvents(xs[1..])) + FeeEvents(ys);
    }
  }

  /** A call that is not counted ends the handling of its transaction: no fee is looked for. */
  ghost predicate CutsOff(s: State, b: Bridge, tx: Tx) {
    CheckErc20(b.unpack, tx.data).Some? && !(CallsForPool(b, tx) && Hex.Encode(tx.hash) !in s.pending)
  }

  ghost function PaymentEvent(b: Bridge, tx: Tx, height: nat): Event
    requires PaysFee(b, tx)
  {
    FeeEvent(tx.data.value, tx.to.value, tx.value, height)
  }

  ghost function PaymentOf(s: State, b: Bridge, tx: Tx): seq<Tx> {
    if PaysFee(b, tx) && !CutsOff(s, b, tx) then [tx] else []
  }

  /** The payments of a block counted as fees: to a pool, with data, and not cut off by a call that is not counted. */
  ghost function Payments(s: State, b: Bridge, txs: seq<Tx>, height: nat): (r: seq<Tx>)
    ensures forall tx :: tx in r ==> tx in txs && PaysFee(b, tx)
    decreases |txs|
  {
    if txs == [] then []
    else
      PaymentOf(s, b, txs[0]) + Payments(Run(s, TxEvents(s, b, txs[0], height)).0, b, txs[1..], height)
  }

  ghost function PaymentEvents(b: Bridge, txs: seq<Tx>, height: nat): seq<Event>
    requires forall tx :: tx in txs ==> PaysFee(b, tx)
  {
    seq(|txs|, i requires 0 <= i < |txs| => PaymentEvent(b, txs[i], height))
  }

  /** What one transaction comes to: its deposit, if it counts, and then its fee, if it counts. */
  lemma TxCounts(s: State, b: Bridge, tx: Tx, height: nat)
    ensures TxEvents(s, b, tx, height)
            == (if CallsForPool(b, tx) && Hex.Encode(tx.hash) !in s.pending then [CallEvent(b, tx, height)] else [])
               + (if PaysFee(b, tx) && !CutsOff(s, b, tx) then [PaymentEvent(b, tx, height)] else [])
  {
  }

  lemma FeeEventsOfTx(s: State, b: Bridge, tx: Tx, height: nat)
    ensures FeeEvents(TxEvents(s, b, tx, height))
            == if PaysFee(b, tx) && !CutsOff(s, b, tx) then [PaymentEvent(b, tx, height)] else []
  {
    TxCounts(s, b, tx, height);
    hide TxEvents, CutsOff;
    var token := if CallsForPool(b, tx) && Hex.Encode(tx.hash) !in s.pending then [CallEvent(b, tx, height)] else [];
    var fee := if PaysFee(b, tx) && !CutsOff(s, b, tx) then [PaymentEvent(b, tx, height)] else [];
    FeeEventsAppend(token, fee);
    OneEvent(token);
    OneEvent(fee);
  }

  lemma OneEvent(events: seq<Event>)
    requires |events| <= 1
    ensures FeeEvents(events) == if events != [] && events[0].FeeEvent? then events else []
  {
    if |events| == 1 {
      assert events[1..] == [];
    }
  }

  lemma FirstPayment(s: State, b: Bridge, txs: seq<Tx>, height: nat)
    requires txs != []
    ensures var es := TxEvents(s, b, txs[0], height);
            var s' := Run(s, es).0;
            && BlockEvents(s, b, txs, height) == es + BlockEvents(s', b, txs[1..], height)
            && Payments(s, b, txs, height) == PaymentOf(s, b, txs[0]) + Payments(s', b, txs[1..], height)
  {
  }

  lemma PaymentEventsAppend(b: Bridge, xs: seq<Tx>, ys: seq<Tx>, height: nat)
    requires forall tx :: tx in xs + ys ==> PaysFee(b, tx)
    ensures (forall tx :: tx in xs ==> tx in xs + ys) && (forall tx :: tx in ys ==> tx in xs + ys)
    ensures PaymentEvents(b, xs + ys, height) == PaymentEvents(b, xs, height) + PaymentEvents(b, ys, height)
  {
  }

  /**
   * The fees a block counts are, in order and each once, those of its payments to a pool with data that no uncounted
   * call cuts off.
   */
  lemma {:induction false} FeesAreThePayments(s: State, b: Bridge, txs: seq<Tx>, height: nat)
    ensures FeeEvents(BlockEvents(s, b, txs, height)) == PaymentEvents(b, Payments(s, b, txs, height), height)
    decreases |txs|
  {
    if txs == [] {
    } else {
      hide TxEvents, Run, FeeEvents, PaysFee, CutsOff, Payments, BlockEvents, PaymentEvent;
      FirstPayment(s, b, txs, height);
      var es := TxEvents(s, b, txs[0], height);
      var s' := Run(s, es).0;
      FeesAreThePayments(s', b, txs[1..], height);
      FeeEventsAppend(es, BlockEvents(s', b, txs[1..], height));
      FeeEventsOfTx(s, b, txs[0], height);
      PaymentEventsAppend(b, PaymentOf(s, b, txs[0]), Payments(s', b, txs[1..], height), height);
    }
  }

  function FeesFor(id: Bytes, events: seq<Event>): nat {
    if events == [] then 0
    else (if events[0].FeeEvent? && events[0].txID == id then events[0].fee else 0) + FeesFor(id, events[1..])
  }

  function PaidFor(id: Bytes, txs: seq<Tx>): nat {
    if txs == [] then 0 else (if txs[0].data == Some(id) then txs[0].value else 0) + PaidFor(id, txs[1..])
  }

  lemma {:induction false} FeesForAppend(id: Bytes, xs: seq<Event>, ys: seq<Event>)
    ensures FeesFor(id, xs + ys) == FeesFor(id, xs) + FeesFor(id, ys)
  {
    if xs == [] {
      assert xs + ys == ys;
    } else {
      assert (xs + ys)[0] == xs[0] && (xs + ys)[1..] == xs[1..] + ys;
      FeesForAppend(id, xs[1..], ys);
    }
  }

  lemma FeesForTx(s: State, b: Bridge, tx: Tx, height: nat, id: Bytes)
    ensures FeesFor(id, TxEvents(s, b, tx, height))
            == if PaysFee(b, tx) && !CutsOff(s, b, tx) && tx.data == Some(id) then tx.value else 0
  {
    TxCounts(s, b, tx, height);
    hide TxEvents, CutsOff;
    var token := if CallsForPool(b, tx) && Hex.Encode(tx.hash) !in s.pending then [CallEvent(b, tx, height)] else [];
    var fee := if PaysFee(b, tx) && !CutsOff(s, b, tx) then [PaymentEvent(b, tx, height)] else [];
    FeesForAppend(id, token, fee);
    assert token != [] ==> token[1..] == [];
    assert fee != [] ==> fee[1..] == [];
  }

  /** For every id the fees of a block add up to what those payments carry. */
  lemma {:induction false} FeesAddUp(s: State, b: Bridge, txs: seq<Tx>, height: nat, id: Bytes)
    ensures FeesFor(id, BlockEvents(s, b, txs, height)) == PaidFor(id, Payments(s, b, txs, height))
    decreases |txs|
  {
    if txs == [] {
    } else {
      hide TxEvents, Run, PaysFee, CutsOff, Payments, BlockEvents;
      FirstPayment(s, b, txs, height);
      var es := TxEvents(s, b, txs[0], height);
      var s' := Run(s, es).0;
      FeesAddUp(s', b, txs[1..], height, id);
      FeesForAppend(id, es, BlockEvents(s', b, txs[1..], height));
      FeesForTx(s, b, txs[0], height, id);
      var now, rest := PaymentOf(s, b, txs[0]), Payments(s', b, txs[1..], height);
      if now == [] {
        assert now + rest == rest;
      } else {
        assert (now + rest)[0] == now[0] && (now + rest)[1..] == rest;
      }
    }
  }

  /** The transactions of a block are handled in order, each on the state those before it left. */
  lemma {:induction false} BlockInOrder(s: State, b: Bridge, xs: seq<Tx>, ys: seq<Tx>, height: nat)
    ensures BlockEvents(s, b, xs + ys, height)
            == BlockEvents(s, b, xs, height) + BlockEvents(Run(s, BlockEvents(s, b, xs, height)).0, b, ys, height)
    decreases |xs|
  {
    if xs == [] {
      assert xs + ys == ys;
    } else {
      assert (xs + ys)[0] == xs[0] && (xs + ys)[1..] == xs[1..] + ys;
      var es := TxEvents(s, b, xs[0], height);
      var s' := Run(s, es).0;
      BlockInOrder(s', b, xs[1..], ys, height);
      RunAppend(s, es, BlockEvents(s', b, xs[1..], height));
    }
  }

  /** A head counts the deposits and fees of its block, if it can be fetched, and then expires at its own number. */
  lemma HeadCounts(s: State, b: Bridge, head: nat, block: Option<seq<Tx>>)
    ensures var events, txs := HeadEvents(s, b, head, block), if block.Some? then block.value else [];
            && TokenEvents(events) == CallEvents(b, Counted(s, b, txs, head), head)
            && FeeEvents(events) == PaymentEvents(b, Payments(s, b, txs, head), head)
            && |events| > 0 && events[|events| - 1] == ExpireEvent(head)
            && forall e :: e in events[..|events| - 1] ==> !e.ExpireEvent?
  {
    hide Counted, Payments, BlockEvents;
    var txs := if block.Some? then block.value else [];
    var es := if block.Some? then BlockEvents(s, b, txs, head) else [];
    CountedCallsAreTheDeposits(s, b, txs, head);
    FeesAreThePayments(s, b, txs, head);
    NoTransactions(s, b, head);
    TokenEventsAppend(es, [ExpireEvent(head)]);
    FeeEventsAppend(es, [ExpireEvent(head)]);
    assert [ExpireEvent(head)][1..] == [];
    assert es + [] == es && TokenEvents(es) + [] == TokenEvents(es) && FeeEvents(es) + [] == FeeEvents(es);
    T.BlockHeights(s, b, txs, head);
  }

  lemma NoTransactions(s: State, b: Bridge, height: nat)
    ensures BlockEvents(s, b, [], height) == []
  {
  }

  /**
   * What reads like a call of transfer: any four bytes, whatever method they select, and then arguments that decode.
   */
  lemma SelectorIgnored(unpack: Unpacker, data: Option<Bytes>, t: Transfer)
    ensures CheckErc20(unpack, data) == Some(t)
            <==> exists selector: Bytes, args: Bytes ::
                   |selector| == 4 && data == Some(selector + args) && unpack(args) == Some(t)
  {
    if CheckErc20(unpack, data) == Some(t) {
      var selector, args := data.value[..4], data.value[4..];
      assert data.value == selector + args;
    }
    if selector: Bytes, args: Bytes :| |selector| == 4 && data == Some(selector + args) && unpack(args) == Some(t) {
      assert (selector + args)[4..] == args;
    }
  }

  /** An approval of a pool counts as a deposit: a call of another method whose arguments read like a transfer's. */
  lemma ApprovalCountsAsDeposit(b: Bridge, hash: Bytes, sender: Address, args: Bytes, height: nat)
    requires b.unpack(args).Some? && b.unpack(args).value.to in b.pools && b.token !in b.pools
    ensures var tx := Tx(hash, Some(b.token), Some(1), Some(sender), Some(APPROVE + args), 0);
            && !IsTransfer(tx)
            && BlockEvents(EMPTY, b, [tx], height)
               == [TokenEvent(hash, sender, b.unpack(args).value.to, b.unpack(args).value.amount, height)]
  {
    var tx := Tx(hash, Some(b.token), Some(1), Some(sender), Some(APPROVE + args), 0);
    assert (APPROVE + args)[4..] == args;
    assert (APPROVE + args)[0] == 0x09;
    assert [tx][1..] == [];
  }
}
