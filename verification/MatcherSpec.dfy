/**
 * The inbound matcher on values: token deposits and BNB fees paired by transaction id, with expiry by block age
 * (pubchain/tx_inbound.go:69-150, 178-221, 279-322).
 */
module MatcherSpec {
  import opened Config
  import opened Wrappers
  import opened ByteTypes
  import Hex

  datatype Deposit = Deposit(from: Address, height: nat, amount: nat, fee: nat)

  /** A fee that arrived before its deposit. */
  datatype EarlyFee = EarlyFee(height: nat, fee: nat)

  datatype State = State(pending: map<string, Deposit>, early: map<string, EarlyFee>)

  const EMPTY := State(map[], map[])

  /** The part of an inbound request that never changes. */
  datatype Request = Request(from: Address, txID: Bytes, toPool: Address, amount: nat)

  /** A released request: straight to the channel with its height, or to the retry bag with height 0. */
  datatype Output = ToChannel(req: Request, height: nat) | ToRetry(req: Request)

  predicate Verify(fee: nat) {
    fee >= MIN_FEE
  }

  /** A fee of `amount` for `id`; the deposit it completes, if it does. */
  function UpdateInboundTx(s: State, id: string, amount: nat, height: nat): (State, Option<Deposit>) {
    if id !in s.pending then
      (s.(early := s.early[id := EarlyFee(height, amount)]), None)
    else
      var d := s.pending[id].(fee := s.pending[id].fee + amount);
      if Verify(d.fee) then (s.(pending := s.pending - {id}), Some(d))
      else (s.(pending := s.pending[id := d]), None)
  }

  datatype TokenResult = TxExisted | WrongToken | Stored | BadTxID | Sent(req: Request)

  function ProcessInboundTx(s: State, id: string, height: nat, from: Address, to: Address, value: nat, rightToken: bool)
    : (State, TokenResult)
  {
    if id in s.pending then (s, TxExisted)
    else if !rightToken then (s, WrongToken)
    else if id !in s.early then
      (s.(pending := s.pending[id := Deposit(from, height, value, 0)]), Stored)
    else
      var d := Deposit(from, height, value, s.early[id].fee);
      var s' := s.(early := s.early - {id});
      if !Verify(d.fee) then (s'.(pending := s'.pending[id := d]), Stored)
      else
        match Hex.Decode(id)
        case None => (s', BadTxID)
        case Some(txID) => (s', Sent(Request(from, txID, to, value)))
  }

  /** The wrapping uint64 age of an entry. */
  function Age(now: nat, height: nat): nat {
    (now - height) % TWO_64
  }

  function DeleteExpired(s: State, now: nat): State {
    State(map id | id in s.pending && Age(now, s.pending[id].height) <= TX_TIMEOUT :: s.pending[id],
          map id | id in s.early && Age(now, s.early[id].height) <= TX_TIMEOUT :: s.early[id])
  }

  /** What a processed block does to the matcher, one event at a time. */
  datatype Event =
    | TokenEvent(hash: Bytes, from: Address, to: Address, amount: nat, height: nat)
    | FeeEvent(txID: Bytes, pool: Address, fee: nat, height: nat)
    | ExpireEvent(now: nat)

  function Apply(s: State, e: Event): (State, seq<Output>) {
    match e
    case TokenEvent(hash, from, to, amount, height) =>
      var (s', r) := ProcessInboundTx(s, Hex.Encode(hash), height, from, to, amount, true);
      (s', if r.Sent? then [ToChannel(r.req, height)] else [])
    case FeeEvent(txID, pool, fee, height) =>
      var (s', done) := UpdateInboundTx(s, Hex.Encode(txID), fee, height);
      (s', if done.Some? then [ToRetry(Request(done.value.from, txID, pool, done.value.amount))] else [])
    case ExpireEvent(now) => (DeleteExpired(s, now), [])
  }

  function Run(s: State, events: seq<Event>): (State, seq<Output>)
    decreases |events|
  {
    if events == [] then (s, [])
    else
      var (s', out) := Apply(s, events[0]);
      var (s'', outs) := Run(s', events[1..]);
      (s'', out + outs)
  }

  /** Arguments that decode as those of a token transfer. */
  datatype Transfer = Transfer(to: Address, amount: nat)

  /**
   * A transaction of a public-chain block. `status` is None when the receipt cannot be fetched, `sender` when the
   * signer cannot be recovered, `data` when there is none.
   */
  datatype Tx = Tx(
    hash: Bytes,
    to: Option<Address>,
    status: Option<nat>,
    sender: Option<Address>,
    data: Option<Bytes>,
    value: nat)

  /** The ABI decoder of the arguments of transfer, which looks at the bytes behind the method selector. */
  type Unpacker = Bytes -> Option<Transfer>

  /** The token contract and the addresses of the cached pools. */
  datatype Bridge = Bridge(token: Address, pools: set<Address>, unpack: Unpacker)

  /** The arguments of the call, if they decode; the four bytes of the selector are skipped, not compared. */
  function CheckErc20(unpack: Unpacker, data: Option<Bytes>): Option<Transfer> {
    if data.None? || |data.value| < 4 then None else unpack(data.value[4..])
  }

  function FeePart(b: Bridge, tx: Tx, height: nat): seq<Event>
    requires tx.to.Some?
  {
    if tx.to.value in b.pools && tx.data.Some? then [FeeEvent(tx.data.value, tx.to.value, tx.value, height)] else []
  }

  /**
   * The events of one transaction. A call that decodes but is not a new deposit to the bridge ends the handling; an
   * accepted one falls through to the fee branch, as everything that does not decode does.
   */
  function TxEvents(s: State, b: Bridge, tx: Tx, height: nat): seq<Event> {
    if tx.to.None? || tx.status != Some(1) then []
    else
      match CheckErc20(b.unpack, tx.data)
      case None => FeePart(b, tx, height)
      case Some(t) =>
        if tx.to.value != b.token || t.to !in b.pools || tx.sender.None? || Hex.Encode(tx.hash) in s.pending then []
        else [TokenEvent(tx.hash, tx.sender.value, t.to, t.amount, height)] + FeePart(b, tx, height)
  }

  function BlockEvents(s: State, b: Bridge, txs: seq<Tx>, height: nat): seq<Event>
    decreases |txs|
  {
    if txs == [] then []
    else
      var es := TxEvents(s, b, txs[0], height);
      es + BlockEvents(Run(s, es).0, b, txs[1..], height)
  }

  /** A new head: its block, if it can be fetched, and then the expiry pass. */
  function HeadEvents(s: State, b: Bridge, head: nat, block: Option<seq<Tx>>): seq<Event> {
    (if block.Some? then BlockEvents(s, b, block.value, head) else []) + [ExpireEvent(head)]
  }

  lemma RunOne(s: State, e: Event)
    ensures Run(s, [e]) == Apply(s, e)
  {
    assert [e][1..] == [];
    assert Apply(s, e).1 + [] == Apply(s, e).1;
  }

  lemma {:induction false} RunAppend(s: State, xs: seq<Event>, ys: seq<Event>)
    ensures Run(s, xs + ys) == (Run(Run(s, xs).0, ys).0, Run(s, xs).1 + Run(Run(s, xs).0, ys).1)
    decreases |xs|
  {
    if xs == [] {
      assert xs + ys == ys;
      assert [] + Run(s, ys).1 == Run(s, ys).1;
    } else {
      assert (xs + ys)[0] == xs[0] && (xs + ys)[1..] == xs[1..] + ys;
      var (s', out) := Apply(s, xs[0]);
      RunAppend(s', xs[1..], ys);
      var mid := Run(s', xs[1..]);
      assert out + (mid.1 + Run(mid.0, ys).1) == (out + mid.1) + Run(mid.0, ys).1;
    }
  }

  /** A block is its first transaction and then the others. */
  lemma BlockStep(s: State, b: Bridge, txs: seq<Tx>, height: nat)
    requires txs != []
    ensures var (s', out) := Run(s, TxEvents(s, b, txs[0], height));
            var (s'', outs) := Run(s', BlockEvents(s', b, txs[1..], height));
            Run(s, BlockEvents(s, b, txs, height)) == (s'', out + outs)
  {
    var es := TxEvents(s, b, txs[0], height);
    RunAppend(s, es, BlockEvents(Run(s, es).0, b, txs[1..], height));
  }
}
