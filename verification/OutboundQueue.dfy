/**
 * The outbound requests as mutable objects. Unlike the inbound hash, the hash a request is stored under depends on its
 * height, which is reset in place; the stored keys stay current because a height changes only while no bag holds the
 * request.
 */
module OutboundQueue {
  import opened Config
  import opened Wrappers
  import opened ByteTypes
  import opened Collections
  import opened RetryBags
  import opened O = Outbound
  import opened F = OutboundFlow
  import Landing
  import BigEndian

  type Hasher = Bytes -> nat

  function Ascii(s: string): Bytes {
    seq(|s|, i requires 0 <= i < |s| => s[i] as int % 256)
  }

  /** The hash a request is stored under; the height enters by its absolute value, as big.Int's Bytes gives it. */
  function HashOf(keccak: Hasher, r: O.Request, height: int): nat {
    keccak(r.receiver + r.fromPool + Ascii(r.txID) + BigEndian.ToBytes(if height < 0 then -height else height))
  }

  /** The text whose hash a request is stored under at a height. */
  function Preimage(r: O.Request, h: nat): Bytes {
    r.receiver + r.fromPool + Ascii(r.txID) + BigEndian.ToBytes(h)
  }

  /** The height enters the hash without its sign. */
  lemma HashOfText(keccak: Hasher, r: O.Request, h: nat)
    ensures HashOf(keccak, r, h) == HashOf(keccak, r, -(h as int)) == keccak(Preimage(r, h))
  {
  }

  /** Where the hash does not collide, resetting the height changes it unless the height stays the same. */
  lemma HashChangesWithHeight(keccak: Hasher, r: O.Request, h: nat, h': nat)
    requires keccak(Preimage(r, h)) == keccak(Preimage(r, h')) ==> Preimage(r, h) == Preimage(r, h')
    ensures HashOf(keccak, r, h) == HashOf(keccak, r, h') <==> h == h'
  {
    var prefix := r.receiver + r.fromPool + Ascii(r.txID);
    var a, b := BigEndian.ToBytes(h), BigEndian.ToBytes(h');
    if HashOf(keccak, r, h) == HashOf(keccak, r, h') {
      assert a == (prefix + a)[|prefix|..] && b == (prefix + b)[|prefix|..];
      BigEndian.FromTo(h);
      BigEndian.FromTo(h');
    }
  }

  class OutBoundReq {
    const txID: string
    const outReceiverAddress: Address
    const fromPoolAddr: Address
    const amount: nat
    /** The number of its intake. */
    ghost const serial: nat
    var blockHeight: int

    constructor (r: O.Request, blockHeight: int, ghost serial: nat)
      ensures Content() == r && this.blockHeight == blockHeight && this.serial == serial
    {
      this.serial := serial;
      txID, outReceiverAddress, fromPoolAddr, amount := r.txID, r.receiver, r.fromPool, r.amount;
      this.blockHeight := blockHeight;
    }

    function Content(): O.Request {
      O.Request(txID, outReceiverAddress, fromPoolAddr, amount)
    }

    ghost function AsItem(): Item {
      Landing.Record(serial, Content())
    }

    function Hash(keccak: Hasher): nat
      reads this
    {
      HashOf(keccak, Content(), blockHeight)
    }

    method SetItemHeight(blockHeight: int)
      modifies this
      ensures this.blockHeight == blockHeight
    {
      this.blockHeight := blockHeight;
    }
  }

  ghost predicate NonePositive(keccak: Hasher, rs: set<OutBoundReq>)
    reads rs
  {
    forall o :: o in rs ==> o.Hash(keccak) == 0
  }

  ghost predicate Largest(keccak: Hasher, rs: set<OutBoundReq>, r: OutBoundReq)
    reads rs, r
  {
    r in rs && forall o :: o in rs ==> o.Hash(keccak) <= r.Hash(keccak)
  }

  ghost function Contents(rs: seq<OutBoundReq>): seq<Item> {
    seq(|rs|, i requires 0 <= i < |rs| => rs[i].AsItem())
  }

  ghost function ContentMap(m: map<HashKey, OutBoundReq>): map<HashKey, Item> {
    map k | k in m :: m[k].AsItem()
  }

  ghost function Places(m: map<HashKey, OutBoundReq>, channel: seq<OutBoundReq>, awaiting: seq<OutBoundReq>,
                        sent: seq<OutBoundReq>, lost: seq<OutBoundReq>): multiset<OutBoundReq>
  {
    Values(m) + multiset(channel) + multiset(awaiting) + multiset(sent) + multiset(lost)
  }

  ghost function LifeOf(m: map<HashKey, OutBoundReq>, channel: seq<OutBoundReq>, awaiting: seq<OutBoundReq>,
                        sent: seq<OutBoundReq>, lost: seq<OutBoundReq>, made: nat, chain: PayChain): Life
  {
    Life(Values(ContentMap(m)), Contents(channel), Contents(awaiting), multiset(Contents(sent)),
         multiset(Contents(lost)), made, chain)
  }

  /** Moving one object in or out of a place, seen in objects and in contents. */
  lemma EntryAdded(m: map<HashKey, OutBoundReq>, k: HashKey, r: OutBoundReq, channel: seq<OutBoundReq>,
                   awaiting: seq<OutBoundReq>, sent: seq<OutBoundReq>, lost: seq<OutBoundReq>, made: nat,
                   chain: PayChain)
    requires k !in m
    ensures Places(m[k := r], channel, awaiting, sent, lost) == Places(m, channel, awaiting, sent, lost) + multiset{r}
    ensures var l := LifeOf(m, channel, awaiting, sent, lost, made, chain);
            LifeOf(m[k := r], channel, awaiting, sent, lost, made, chain) == l.(retry := l.retry + multiset{r.AsItem()})
  {
    hide Values;
    ValuesAdd(m, k, r);
    assert ContentMap(m[k := r]) == ContentMap(m)[k := r.AsItem()];
    ValuesAdd(ContentMap(m), k, r.AsItem());
  }

  lemma EntryTaken(m: map<HashKey, OutBoundReq>, k: HashKey, channel: seq<OutBoundReq>,
                   awaiting: seq<OutBoundReq>, sent: seq<OutBoundReq>, lost: seq<OutBoundReq>, made: nat,
                   chain: PayChain)
    requires k in m
    ensures Places(m - {k}, channel, awaiting, sent, lost) + multiset{m[k]} == Places(m, channel, awaiting, sent, lost)
    ensures var l := LifeOf(m, channel, awaiting, sent, lost, made, chain);
            && LifeOf(m - {k}, channel, awaiting, sent, lost, made, chain)
               == l.(retry := l.retry - multiset{m[k].AsItem()})
            && m[k].AsItem() in l.retry
    ensures m[k] in m.Values
  {
    assert m == (m - {k})[k := m[k]];
    EntryAdded(m - {k}, k, m[k], channel, awaiting, sent, lost, made, chain);
  }

  /** An object in hand is not also in the bag when every object is in one place. */
  lemma NotInBag(m: map<HashKey, OutBoundReq>, channel: seq<OutBoundReq>, awaiting: seq<OutBoundReq>,
                 sent: seq<OutBoundReq>, lost: seq<OutBoundReq>, r: OutBoundReq, accepted: set<OutBoundReq>)
    requires Places(m, channel, awaiting, sent, lost) + multiset{r} == multiset(accepted)
    ensures r !in m.Values
  {
    ValuesMember(m, r);
    assert multiset(accepted)[r] <= 1;
    assert Values(m)[r] == 0;
  }

  lemma AddItemsTwice(l: Life, xs: seq<O.Request>, ys: seq<O.Request>)
    ensures AddItems(AddItems(l, xs), ys) == AddItems(l, xs + ys)
  {
    NumberedAppend(l.made, xs, ys);
    hide Numbered;
    Joined(l.retry, multiset(Numbered(l.made, xs)), AddItems(l, xs).retry, multiset(Numbered(l.made + |xs|, ys)),
           AddItems(AddItems(l, xs), ys).retry, multiset(Numbered(l.made, xs + ys)));
  }

  lemma AddItemsNone(l: Life)
    ensures AddItems(l, []) == l
  {
    assert Numbered(l.made, []) == [];
  }

  class OutboundQueue {
    const keccak: Hasher
    const retry: RetryBag<OutBoundReq>
    var channel: seq<OutBoundReq>
    var awaiting: seq<OutBoundReq>
    ghost var sent: seq<OutBoundReq>
    ghost var lost: seq<OutBoundReq>
    /** The number of requests made. */
    ghost var made: nat
    /** The public chain. */
    ghost var chain: PayChain
    /** Every request object made so far. */
    ghost var accepted: set<OutBoundReq>

    ghost function Objects(): multiset<OutBoundReq>
      reads this, retry
    {
      Places(retry.items, channel, awaiting, sent, lost)
    }

    /** Key coherence: every stored key is the hash its request has now. */
    ghost predicate KeysCurrent()
      reads this, retry, retry.items.Values
    {
      forall k :: k in retry.items ==> k.value == retry.items[k].Hash(keccak)
    }

    /** The handler holds these objects; every other accepted one is in exactly one place. */
    ghost predicate Holding(inHand: multiset<OutBoundReq>)
      reads this, retry, retry.items.Values
    {
      Objects() + inHand == multiset(accepted) && KeysCurrent()
    }

    ghost predicate Valid()
      reads this, retry, retry.items.Values
    {
      Holding(multiset{})
    }

    ghost function View(): Life
      reads this, retry
    {
      LifeOf(retry.items, channel, awaiting, sent, lost, made, chain)
    }

    constructor (keccak: Hasher)
      ensures Valid() && View() == NEWBORN && fresh(retry) && this.keccak == keccak && retry.items == map[]
    {
      this.keccak := keccak;
      retry := new RetryBag<OutBoundReq>();
      channel, awaiting, sent, lost, accepted := [], [], [], [], {};
      made, chain := 0, NEWBORN.chain;
    }

    method AddItem(item: OutBoundReq)
      requires Holding(multiset{item})
      modifies retry
      ensures Valid() && View() == old(View()).(retry := old(View()).retry + multiset{item.AsItem()})
      ensures retry.items.Values == old(retry.items.Values) + {item}
    {
      hide Places, LifeOf;
      ghost var before := retry.items;
      ghost var key := retry.AddItem(item.Hash(keccak), item);
      EntryAdded(before, key, item, channel, awaiting, sent, lost, made, chain);
      ValuesSet(before, key, item);
    }

    /** A request whose present hash is largest in the bag, if any is positive; afterwards the bag has it no more. */
    method PopItem() returns (item: OutBoundReq?)
      requires Valid()
      modifies retry
      ensures item == null <==> old(NonePositive(keccak, retry.items.Values))
      ensures item == null ==> Valid() && View() == old(View()) && retry.items == old(retry.items)
      ensures item != null ==>
                && Holding(multiset{item}) && item in old(retry.items.Values) && item !in retry.items.Values
                && old(Largest(keccak, retry.items.Values, item))
                && retry.items.Values <= old(retry.items.Values)
                && old(View()).retry[item.AsItem()] > 0
                && View() == old(View()).(retry := old(View()).retry - multiset{item.AsItem()})
    {
      hide Places, LifeOf;
      ghost var before := retry.items;
      var top, key := retry.PopItem();
      if top.None? {
        return null;
      }
      EntryTaken(before, key, channel, awaiting, sent, lost, made, chain);
      var req: OutBoundReq := top.value;
      NotInBag(retry.items, channel, awaiting, sent, lost, req, accepted);
      assert key.value == req.Hash(keccak);
      item := req;
    }

    method Send(item: OutBoundReq)
      requires Holding(multiset{item}) && |channel| < REQ_CACHE_SIZE
      modifies `channel
      ensures Valid() && View() == old(View()).(channel := old(View()).channel + [item.AsItem()])
      ensures channel == old(channel) + [item]
    {
      hide Values, ContentMap, OutBoundReq.Hash;
      channel := channel + [item];
      assert Contents(channel) == Contents(old(channel)) + [item.AsItem()];
    }

    method Receive() returns (item: OutBoundReq)
      requires Valid() && channel != []
      modifies `channel
      ensures Holding(multiset{item}) && old(View()).channel != [] && item.AsItem() == old(View()).channel[0]
      ensures View() == old(View()).(channel := old(View()).channel[1..])
    {
      hide Values, ContentMap, OutBoundReq.Hash;
      item := channel[0];
      assert channel == [item] + channel[1..];
      channel := channel[1..];
      assert Contents(channel) == Contents(old(channel))[1..];
    }

    /** The network takes the transfer, if it does. */
    ghost method Submit(item: OutBoundReq, answer: Answer)
      requires Holding(multiset{item})
      modifies `chain
      ensures Holding(multiset{item})
      ensures View() == old(View()).(chain := ChainAfter(old(View()).chain, item.AsItem(), answer))
    {
      hide Values, ContentMap, OutBoundReq.Hash;
      chain := ChainAfter(chain, item.AsItem(), answer);
    }

    /** The chain executes a transfer, or other transactions of an account. */
    ghost method ChainMoves(e: LifeEvent)
      requires Valid() && (e.Land? || e.Advance?)
      modifies `chain
      ensures Valid() && View() == LifeStep(old(View()), e)
    {
      hide Values, ContentMap, OutBoundReq.Hash;
      chain := LifeStep(View(), e).chain;
    }

    ghost method Lose(item: OutBoundReq)
      requires Holding(multiset{item})
      modifies `lost
      ensures Valid() && View() == old(View()).(lost := old(View()).lost + multiset{item.AsItem()})
    {
      hide Values, ContentMap, OutBoundReq.Hash;
      lost := lost + [item];
      assert Contents(lost) == Contents(old(lost)) + [item.AsItem()];
    }

    ghost method Confirm(item: OutBoundReq)
      requires Holding(multiset{item})
      modifies `sent
      ensures Valid() && View() == old(View()).(sent := old(View()).sent + multiset{item.AsItem()})
    {
      hide Values, ContentMap, OutBoundReq.Hash;
      sent := sent + [item];
      assert Contents(sent) == Contents(old(sent)) + [item.AsItem()];
    }

    method Poll(item: OutBoundReq)
      requires Holding(multiset{item})
      modifies `awaiting
      ensures Valid() && View() == old(View()).(awaiting := old(View()).awaiting + [item.AsItem()])
    {
      hide Values, ContentMap, OutBoundReq.Hash;
      awaiting := awaiting + [item];
      assert Contents(awaiting) == Contents(old(awaiting)) + [item.AsItem()];
    }

    method EndPoll(i: nat) returns (item: OutBoundReq)
      requires Valid() && i < |awaiting|
      modifies `awaiting
      ensures Holding(multiset{item}) && i < |old(View()).awaiting| && item.AsItem() == old(View()).awaiting[i]
      ensures View() == old(View()).(awaiting := old(View()).awaiting[..i] + old(View()).awaiting[i + 1..])
    {
      hide Values, ContentMap, OutBoundReq.Hash;
      item := awaiting[i];
      assert awaiting == awaiting[..i] + [item] + awaiting[i + 1..];
      awaiting := awaiting[..i] + awaiting[i + 1..];
      assert Contents(awaiting) == Contents(old(awaiting))[..i] + Contents(old(awaiting))[i + 1..];
    }

    method NewOutboundReq(r: O.Request, blockHeight: int) returns (item: OutBoundReq)
      requires Valid()
      modifies `accepted, `made
      ensures fresh(item) && item.AsItem() == Landing.Record(old(View()).made, r) && item.blockHeight == blockHeight
      ensures Holding(multiset{item}) && accepted == old(accepted) + {item}
      ensures View() == old(View()).(made := old(View()).made + 1)
    {
      hide Values, ContentMap, OutBoundReq.Hash;
      item := new OutBoundReq(r, blockHeight, made);
      assert item !in accepted;
      accepted, made := accepted + {item}, made + 1;
      assert multiset(accepted) == multiset(old(accepted)) + multiset{item};
    }

    method ProcessMsg(blockHeight: int, pools: Pools, txHash: Bytes, msg: Msg)
      requires Valid()
      modifies this, retry
      ensures Valid() && View() == AddItems(old(View()), Admitted(pools, txHash, msg))
      ensures fresh(accepted - old(accepted)) && fresh(retry.items.Values - old(retry.items.Values))
      ensures forall r :: r in retry.items.Values - old(retry.items.Values) ==> r.blockHeight == blockHeight
    {
      hide Holding, Objects, View;
      var admitted := Admitted(pools, txHash, msg);
      if admitted != [] {
        var item := NewOutboundReq(admitted[0], blockHeight);
        AddItem(item);
        assert Numbered(old(View()).made, admitted) == [item.AsItem()];
      } else {
        AddItemsNone(View());
      }
    }

    /** Every message of a transaction that pays becomes a request in the bag, even when the hashes coincide. */
    method CheckOutBoundTx(blockHeight: int, tx: JoltTx)
      requires Valid()
      modifies this, retry
      ensures Valid() && View() == LifeStep(old(View()), Intake(tx))
      ensures fresh(accepted - old(accepted)) && fresh(retry.items.Values - old(retry.items.Values))
      ensures forall r :: r in retry.items.Values - old(retry.items.Values) ==> r.blockHeight == blockHeight
    {
      hide Holding, Objects, View;
      if tx.pools.None? || tx.msgs.None? {
        return;
      }
      var pools, msgs := tx.pools.value, tx.msgs.value;
      ghost var start := View();
      assert msgs[0..] == msgs;
      for i := 0 to |msgs|
        invariant Valid()
        invariant fresh(accepted - old(accepted)) && fresh(retry.items.Values - old(retry.items.Values))
        invariant forall r :: r in retry.items.Values - old(retry.items.Values) ==> r.blockHeight == blockHeight
        invariant AddItems(View(), ProcessMsgs(pools, tx.hash, msgs[i..]))
               == AddItems(start, ProcessMsgs(pools, tx.hash, msgs))
      {
        assert msgs[i..][0] == msgs[i] && msgs[i..][1..] == msgs[i + 1..];
        AddItemsTwice(View(), Admitted(pools, tx.hash, msgs[i]), ProcessMsgs(pools, tx.hash, msgs[i + 1..]));
        ProcessMsg(blockHeight, pools, tx.hash, msgs[i]);
      }
      assert msgs[|msgs|..] == [];
      AddItemsNone(View());
    }

    /** The height of a request in hand changes, which no bag holds. */
    method Reset(item: OutBoundReq, head: int)
      requires Holding(multiset{item}) && item !in retry.items.Values
      modifies item
      ensures Holding(multiset{item}) && item.blockHeight == head
    {
      hide Places;
      item.SetItemHeight(head);
    }

    /** A public-chain head: the request of largest hash has its height reset and goes back to the channel. */
    method OnPublicHead(head: int) returns (ghost pick: Option<Item>)
      requires Valid()
      requires |channel| < REQ_CACHE_SIZE || NonePositive(keccak, retry.items.Values)
      modifies this, retry, retry.items.Values
      ensures Valid() && accepted == old(accepted)
      ensures View() == LifeStep(old(View()), Retry(pick))
      ensures pick.None? <==> old(NonePositive(keccak, retry.items.Values))
      ensures pick.Some? ==>
                && old(View()).retry[pick.value] > 0
                && channel != []
                && var item := channel[|channel| - 1];
                && item in old(retry.items.Values) && item.AsItem() == pick.value && item.blockHeight == head
                && old(Largest(keccak, retry.items.Values, item))
                && forall r :: r in old(retry.items.Values) && r != item ==> r.blockHeight == old(r.blockHeight)
      ensures pick.None? ==> forall r :: r in old(retry.items.Values) ==> r.blockHeight == old(r.blockHeight)
    {
      hide Holding, Objects, View, Largest, NonePositive;
      var item := PopItem();
      if item == null {
        return None;
      }
      Reset(item, head);
      Send(item);
      pick := Some(item.AsItem());
    }

    /** The channel's receiver. */
    method HandleOutbound(answer: Answer)
      requires Valid() && channel != []
      modifies this, retry
      ensures Valid() && accepted == old(accepted)
      ensures View() == LifeStep(old(View()), Process(answer))
    {
      hide Holding, Objects, View;
      var item := Receive();
      match answer
      case SignerError => Lose(item);
      case NotSigner => Lose(item);
      case Failed => AddItem(item);
      case Submitted(_, _, _, reported) =>
        Submit(item, answer);
        if reported {
          Poll(item);
        } else {
          AddItem(item);
        }
    }

    /** A status check ends; only a transaction found to have failed is sent again. */
    method CheckReturned(i: nat, receipt: Option<nat>)
      requires Valid() && i < |awaiting|
      modifies this, retry
      ensures Valid() && accepted == old(accepted)
      ensures View() == LifeStep(old(View()), Checked(i, receipt))
    {
      hide Holding, Objects, View;
      var item := EndPoll(i);
      match StatusOf(receipt)
      case Succeeded => Confirm(item);
      case TxFailed => AddItem(item);
      case Unknown => Lose(item);
    }
  }
}
