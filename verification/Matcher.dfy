/**
 * The inbound matcher in place: two maps updated transaction by transaction, with waiting deposits whose fee grows
 * through the stored pointer. Requests it releases are returned in order; the queue they go to is InboundQueue's.
 */
module Matcher {
  import opened Config
  import opened Wrappers
  import opened ByteTypes
  import opened MatcherSpec
  import Hex

  class InboundTx {
    const address: Address
    const pubBlockHeight: nat
    const token: nat
    var fee: nat

    constructor (address: Address, pubBlockHeight: nat, token: nat, fee: nat)
      ensures Value() == Deposit(address, pubBlockHeight, token, fee)
    {
      this.address, this.pubBlockHeight, this.token, this.fee := address, pubBlockHeight, token, fee;
    }

    function Value(): Deposit
      reads this
    {
      Deposit(address, pubBlockHeight, token, fee)
    }
  }

  ghost function ExpiredIds(heights: map<string, nat>, now: nat): set<string> {
    set id | id in heights && Age(now, heights[id]) > TX_TIMEOUT
  }

  ghost function DepositHeights(s: State): map<string, nat> {
    map id | id in s.pending :: s.pending[id].height
  }

  ghost function FeeHeights(s: State): map<string, nat> {
    map id | id in s.early :: s.early[id].height
  }

  lemma DeletionIsFilter(s: State, now: nat)
    ensures DeleteExpired(s, now)
            == State(s.pending - ExpiredIds(DepositHeights(s), now), s.early - ExpiredIds(FeeHeights(s), now))
  {
  }

  class InboundMatcher {
    var pendingInbounds: map<string, InboundTx>
    var pendingInboundsBnB: map<string, EarlyFee>

    /** No two ids share a stored deposit. */
    ghost predicate Valid()
      reads this
    {
      forall a, b :: a in pendingInbounds && b in pendingInbounds && a != b ==> pendingInbounds[a] != pendingInbounds[b]
    }

    ghost function View(): State
      reads this, pendingInbounds.Values
    {
      State(map id | id in pendingInbounds :: pendingInbounds[id].Value(), pendingInboundsBnB)
    }

    constructor ()
      ensures Valid() && View() == EMPTY && pendingInbounds == map[]
    {
      pendingInbounds, pendingInboundsBnB := map[], map[];
    }

    method StoreEarlyFee(txID: string, fee: EarlyFee)
      modifies `pendingInboundsBnB
      ensures View() == old(View()).(early := old(View()).early[txID := fee])
    {
      pendingInboundsBnB := pendingInboundsBnB[txID := fee];
      assert View().pending == old(View()).pending;
    }

    /** The fee of a stored deposit grows through the pointer. */
    method TopUp(txID: string, amount: nat) returns (thisAccount: InboundTx)
      requires Valid() && txID in pendingInbounds
      modifies pendingInbounds[txID]
      ensures Valid() && thisAccount == pendingInbounds[txID] && txID in old(View()).pending
      ensures thisAccount.fee == old(View()).pending[txID].fee + amount
      ensures thisAccount.Value() == old(View()).pending[txID].(fee := old(View()).pending[txID].fee + amount)
      ensures View() == old(View()).(pending := old(View()).pending[txID := thisAccount.Value()])
    {
      thisAccount := pendingInbounds[txID];
      thisAccount.fee := thisAccount.fee + amount;
      assert View().pending == old(View()).pending[txID := thisAccount.Value()];
    }

    method DeleteDeposits(ids: set<string>)
      requires Valid()
      modifies `pendingInbounds
      ensures Valid() && pendingInbounds.Values <= old(pendingInbounds.Values)
      ensures View() == old(View()).(pending := old(View()).pending - ids)
    {
      pendingInbounds := pendingInbounds - ids;
      assert View().pending == old(View()).pending - ids;
    }

    /** Stores a deposit under the id it is stored under. */
    method StoreAgain(txID: string, account: InboundTx)
      requires Valid() && txID in pendingInbounds && pendingInbounds[txID] == account
      modifies `pendingInbounds
      ensures Valid() && pendingInbounds == old(pendingInbounds) && View() == old(View())
    {
      pendingInbounds := pendingInbounds[txID := account];
      assert pendingInbounds == old(pendingInbounds);
    }

    method UpdateInboundTx(txID: string, amount: nat, blockNum: nat) returns (account: InboundTx?)
      requires Valid()
      modifies this, pendingInbounds.Values
      ensures Valid() && pendingInbounds.Values <= old(pendingInbounds.Values)
      ensures var (s, done) := MatcherSpec.UpdateInboundTx(old(View()), txID, amount, blockNum);
              && View() == s
              && (account == null <==> done.None?)
              && (account != null ==> account.Value() == done.value)
    {
      assert txID in View().pending <==> txID in pendingInbounds;
      hide View, Valid, InboundTx.Value;
      if txID !in pendingInbounds {
        StoreEarlyFee(txID, EarlyFee(blockNum, amount));
        return null;
      }
      var thisAccount := TopUp(txID, amount);
      if !Verify(thisAccount.fee) {
        StoreAgain(txID, thisAccount);
        return null;
      }
      ghost var before, toppedUp := old(View()).pending, View().pending;
      DeleteDeposits({txID});
      assert toppedUp - {txID} == before - {txID};
      return thisAccount;
    }

    method StoreDeposit(txID: string, from: Address, blockHeight: nat, value: nat, fee: nat)
      requires Valid() && txID !in pendingInbounds
      modifies `pendingInbounds
      ensures Valid() && fresh(pendingInbounds.Values - old(pendingInbounds.Values))
      ensures View() == old(View()).(pending := old(View()).pending[txID := Deposit(from, blockHeight, value, fee)])
    {
      var waiting := new InboundTx(from, blockHeight, value, fee);
      pendingInbounds := pendingInbounds[txID := waiting];
      assert View().pending == old(View()).pending[txID := Deposit(from, blockHeight, value, fee)];
    }

    method TakeEarlyFee(txID: string) returns (fee: nat)
      requires Valid() && txID in pendingInboundsBnB
      modifies `pendingInboundsBnB
      ensures Valid() && txID in old(View()).early && fee == old(View()).early[txID].fee
      ensures View() == old(View()).(early := old(View()).early - {txID})
    {
      fee := pendingInboundsBnB[txID].fee;
      pendingInboundsBnB := pendingInboundsBnB - {txID};
      assert View().pending == old(View()).pending;
    }

    method ProcessInboundTx(txID: string, blockHeight: nat, from: Address, to: Address, value: nat, rightToken: bool)
        returns (result: TokenResult)
      requires Valid()
      modifies this
      ensures Valid() && fresh(pendingInbounds.Values - old(pendingInbounds.Values))
      ensures (View(), result)
           == MatcherSpec.ProcessInboundTx(old(View()), txID, blockHeight, from, to, value, rightToken)
    {
      assert txID in View().pending <==> txID in pendingInbounds;
      assert txID in View().early <==> txID in pendingInboundsBnB;
      hide Hex.Decode, View, Valid;
      if txID in pendingInbounds {
        return TxExisted;
      }
      if !rightToken {
        return WrongToken;
      }
      if txID !in pendingInboundsBnB {
        StoreDeposit(txID, from, blockHeight, value, 0);
        return Stored;
      }
      var fee := TakeEarlyFee(txID);
      if !Verify(fee) {
        StoreDeposit(txID, from, blockHeight, value, fee);
        return Stored;
      }
      match Hex.Decode(txID)
      case None => return BadTxID;
      case Some(txIDBytes) => return Sent(Request(from, txIDBytes, to, value));
    }

    /** One transaction of a block, with the branches of the source. */
    method ProcessTx(b: Bridge, tx: Tx, height: nat) returns (outs: seq<Output>)
      requires Valid()
      modifies this, pendingInbounds.Values
      ensures Valid() && fresh(pendingInbounds.Values - old(pendingInbounds.Values))
      ensures (View(), outs) == Run(old(View()), TxEvents(old(View()), b, tx, height))
    {
      outs := [];
      if tx.to.None? || tx.status != Some(1) {
        return;
      }
      ghost var before := View();
      ghost var events: seq<Event> := [];
      var call := CheckErc20(b.unpack, tx.data);
      if call.Some? {
        var t := call.value;
        if tx.to.value != b.token || t.to !in b.pools || tx.sender.None? {
          return;
        }
        var result := ProcessInboundTx(Hex.Encode(tx.hash), height, tx.sender.value, t.to, t.amount,
                                       tx.to.value == b.token);
        if result.TxExisted? || result.WrongToken? {
          return;
        }
        if result.Sent? {
          outs := [ToChannel(result.req, height)];
        }
        events := [TokenEvent(tx.hash, tx.sender.value, t.to, t.amount, height)];
        RunOne(before, events[0]);
      }
      assert (View(), outs) == Run(before, events);
      ghost var middle := View();
      ghost var rest := FeePart(b, tx, height);
      ghost var sofar := outs;
      if tx.to.value in b.pools && tx.data.Some? {
        var payTxID := tx.data.value;
        var account := UpdateInboundTx(Hex.Encode(payTxID), tx.value, height);
        if account != null {
          outs := outs + [ToRetry(Request(account.address, payTxID, tx.to.value, account.token))];
        }
        RunOne(middle, rest[0]);
        assert rest == [rest[0]];
      }
      RunAppend(before, events, rest);
      assert outs == sofar + Run(middle, rest).1;
      assert events + rest == TxEvents(before, b, tx, height);
    }

    method ProcessEachBlock(b: Bridge, txs: seq<Tx>, height: nat) returns (outs: seq<Output>)
      requires Valid()
      modifies this, pendingInbounds.Values
      ensures Valid() && fresh(pendingInbounds.Values - old(pendingInbounds.Values))
      ensures (View(), outs) == Run(old(View()), BlockEvents(old(View()), b, txs, height))
    {
      outs := [];
      ghost var before := View();
      assert txs[0..] == txs && outs + Run(before, BlockEvents(before, b, txs, height)).1
                                == Run(before, BlockEvents(before, b, txs, height)).1;
      for i := 0 to |txs|
        invariant Valid() && fresh(pendingInbounds.Values - old(pendingInbounds.Values))
        invariant var (s, rest) := Run(View(), BlockEvents(View(), b, txs[i..], height));
                  (s, outs + rest) == Run(before, BlockEvents(before, b, txs, height))
      {
        BlockStep(View(), b, txs[i..], height);
        assert txs[i..][0] == txs[i] && txs[i..][1..] == txs[i + 1..];
        var out := ProcessTx(b, txs[i], height);
        ghost var rest := Run(View(), BlockEvents(View(), b, txs[i + 1..], height)).1;
        assert outs + (out + rest) == (outs + out) + rest;
        outs := outs + out;
      }
      assert txs[|txs|..] == [] && outs + [] == outs;
    }

    /** A Range pass over one map: the ids whose entry is too old. */
    static method CollectExpired(heights: map<string, nat>, currentHeight: nat) returns (expired: set<string>)
      ensures expired == ExpiredIds(heights, currentHeight)
    {
      expired := {};
      var keys := heights.Keys;
      while keys != {}
        invariant keys <= heights.Keys
        invariant expired == set id | id in heights && id !in keys && Age(currentHeight, heights[id]) > TX_TIMEOUT
      {
        var id :| id in keys;
        keys := keys - {id};
        if Age(currentHeight, heights[id]) > TX_TIMEOUT {
          expired := expired + {id};
        }
      }
    }

    method ExpiredDeposits(currentHeight: nat) returns (expired: set<string>)
      ensures expired == ExpiredIds(DepositHeights(View()), currentHeight)
    {
      var heights := map id | id in pendingInbounds :: pendingInbounds[id].pubBlockHeight;
      assert heights == DepositHeights(View());
      expired := CollectExpired(heights, currentHeight);
    }

    method ExpireFees(currentHeight: nat)
      modifies `pendingInboundsBnB
      ensures View() == old(View()).(early := old(View()).early - ExpiredIds(FeeHeights(old(View())), currentHeight))
    {
      ghost var before := View();
      var heights := map id | id in pendingInboundsBnB :: pendingInboundsBnB[id].height;
      assert heights == FeeHeights(before);
      var expired := CollectExpired(heights, currentHeight);
      pendingInboundsBnB := pendingInboundsBnB - expired;
      assert View().pending == before.pending;
    }

    method DeleteExpired(currentHeight: nat)
      requires Valid()
      modifies this
      ensures Valid() && pendingInbounds.Values <= old(pendingInbounds.Values)
      ensures View() == MatcherSpec.DeleteExpired(old(View()), currentHeight)
    {
      DeletionIsFilter(View(), currentHeight);
      var expired := ExpiredDeposits(currentHeight);
      DeleteDeposits(expired);
      ExpireFees(currentHeight);
    }

    /** A new public-chain head: its block, when it can be fetched, and then the expiry pass. */
    method OnHead(b: Bridge, head: nat, block: Option<seq<Tx>>) returns (outs: seq<Output>)
      requires Valid()
      modifies this, pendingInbounds.Values
      ensures Valid() && fresh(pendingInbounds.Values - old(pendingInbounds.Values))
      ensures (View(), outs) == Run(old(View()), HeadEvents(old(View()), b, head, block))
    {
      outs := [];
      ghost var before := View();
      ghost var events: seq<Event> := [];
      if block.Some? {
        outs := ProcessEachBlock(b, block.value, head);
        events := BlockEvents(before, b, block.value, head);
      }
      ghost var middle := View();
      DeleteExpired(head);
      RunAppend(before, events, [ExpireEvent(head)]);
      RunOne(middle, ExpireEvent(head));
      assert outs + [] == outs;
    }
  }
}
