/**
 * The inbound requests as the mutable objects they are: each lives in the retry bag, the channel or a status check, has
 * its height reset in place, and ends confirmed or dropped.
 */
module InboundQueue {
  import opened Config
  import opened Wrappers
  import opened ByteTypes
  import opened Collections
  import opened RetryBags
  import opened InboundFlow
  import Landing
  import M = MatcherSpec

  class InboundReq {
    const address: Address
    const txID: Bytes
    const toPoolAddr: Address
    const amount: nat
    var blockHeight: int

    constructor (r: M.Request, blockHeight: int)
      ensures Content() == r && this.blockHeight == blockHeight
    {
      this.address, this.txID, this.toPoolAddr, this.amount := r.from, r.txID, r.toPool, r.amount;
      this.blockHeight := blockHeight;
    }

    function Content(): M.Request {
      M.Request(address, txID, toPoolAddr, amount)
    }

    function Hash(keccak: Hasher): nat {
      Index(keccak, Content())
    }

    method SetItemHeight(blockHeight: int)
      modifies this
      ensures this.blockHeight == blockHeight
    {
      this.blockHeight := blockHeight;
    }
  }

  /** A goroutine polling the chain for an index. */
  datatype Check = Check(req: InboundReq, index: Option<nat>)

  ghost function Contents(rs: seq<InboundReq>): seq<M.Request> {
    seq(|rs|, i requires 0 <= i < |rs| => rs[i].Content())
  }

  ghost function Waits(cs: seq<Check>): seq<Waiting> {
    seq(|cs|, i requires 0 <= i < |cs| => Waiting(cs[i].req.Content(), cs[i].index))
  }

  ghost function Polled(cs: seq<Check>): seq<InboundReq> {
    seq(|cs|, i requires 0 <= i < |cs| => cs[i].req)
  }

  ghost function ContentMap(m: map<HashKey, InboundReq>): map<HashKey, M.Request> {
    map k | k in m :: m[k].Content()
  }

  /** Adding or removing one entry, seen in objects and in contents. */
  lemma EntryAdded(m: map<HashKey, InboundReq>, k: HashKey, r: InboundReq)
    requires k !in m
    ensures Values(m[k := r]) == Values(m) + multiset{r}
    ensures Values(ContentMap(m[k := r])) == Values(ContentMap(m)) + multiset{r.Content()}
  {
    hide Values;
    ValuesAdd(m, k, r);
    assert ContentMap(m[k := r]) == ContentMap(m)[k := r.Content()];
    ValuesAdd(ContentMap(m), k, r.Content());
  }

  lemma EntryRemoved(m: map<HashKey, InboundReq>, k: HashKey)
    requires k in m
    ensures Values(m) == Values(m - {k}) + multiset{m[k]}
    ensures Values(ContentMap(m)) == Values(ContentMap(m - {k})) + multiset{m[k].Content()}
    ensures Values(ContentMap(m - {k})) == Values(ContentMap(m)) - multiset{m[k].Content()}
    ensures m[k] in m.Values
  {
    hide Values;
    ValuesRemove(m, k);
    assert ContentMap(m - {k}) == ContentMap(m) - {k};
    ValuesRemove(ContentMap(m), k);
    TakenAway(Values(ContentMap(m)), Values(ContentMap(m - {k})), m[k].Content());
  }

  lemma TakenAway<T>(a: multiset<T>, b: multiset<T>, x: T)
    requires a == b + multiset{x}
    ensures b == a - multiset{x}
  {
  }

  ghost function Places(m: map<HashKey, InboundReq>, channel: seq<InboundReq>, awaiting: seq<Check>,
                        confirmed: seq<InboundReq>, dropped: seq<InboundReq>): multiset<InboundReq>
  {
    Values(m) + multiset(channel) + multiset(Polled(awaiting)) + multiset(confirmed) + multiset(dropped)
  }

  ghost function LifeOf(m: map<HashKey, InboundReq>, channel: seq<InboundReq>, awaiting: seq<Check>,
                        confirmed: seq<InboundReq>, dropped: seq<InboundReq>, chain: MintChain): Life
  {
    Life(Values(ContentMap(m)), Contents(channel), Waits(awaiting),
         multiset(Contents(confirmed)), multiset(Contents(dropped)), chain)
  }

  lemma AddedToRetry(m: map<HashKey, InboundReq>, k: HashKey, r: InboundReq, channel: seq<InboundReq>,
                     awaiting: seq<Check>, confirmed: seq<InboundReq>, dropped: seq<InboundReq>, chain: MintChain)
    requires k !in m
    ensures Places(m[k := r], channel, awaiting, confirmed, dropped)
            == Places(m, channel, awaiting, confirmed, dropped) + multiset{r}
    ensures var l := LifeOf(m, channel, awaiting, confirmed, dropped, chain);
            LifeOf(m[k := r], channel, awaiting, confirmed, dropped, chain)
            == l.(retry := l.retry + multiset{r.Content()})
  {
    hide Values;
    EntryAdded(m, k, r);
  }

  lemma AddedToAwaiting(m: map<HashKey, InboundReq>, channel: seq<InboundReq>, awaiting: seq<Check>, c: Check,
                        confirmed: seq<InboundReq>, dropped: seq<InboundReq>, chain: MintChain)
    ensures Places(m, channel, awaiting + [c], confirmed, dropped)
            == Places(m, channel, awaiting, confirmed, dropped) + multiset{c.req}
    ensures var l := LifeOf(m, channel, awaiting, confirmed, dropped, chain);
            LifeOf(m, channel, awaiting + [c], confirmed, dropped, chain)
            == l.(awaiting := l.awaiting + [Waiting(c.req.Content(), c.index)])
  {
    hide Values;
    assert Waits(awaiting + [c]) == Waits(awaiting) + [Waiting(c.req.Content(), c.index)];
    assert Polled(awaiting + [c]) == Polled(awaiting) + [c.req];
  }

  lemma EntryTaken(keccak: Hasher, m: map<HashKey, InboundReq>, k: HashKey, channel: seq<InboundReq>,
                   awaiting: seq<Check>, confirmed: seq<InboundReq>, dropped: seq<InboundReq>, chain: MintChain)
    requires Top(m, k) && forall k :: k in m ==> k.value == m[k].Hash(keccak)
    ensures Places(m - {k}, channel, awaiting, confirmed, dropped) + multiset{m[k]}
            == Places(m, channel, awaiting, confirmed, dropped)
    ensures var l := LifeOf(m, channel, awaiting, confirmed, dropped, chain);
            && LifeOf(m - {k}, channel, awaiting, confirmed, dropped, chain)
               == l.(retry := l.retry - multiset{m[k].Content()})
            && IsTop(keccak, l.retry, m[k].Content())
    ensures m[k] in m.Values
  {
    hide Values, IsTop;
    EntryRemoved(m, k);
    TopOfContents(keccak, m, k);
  }

  lemma RetryStep(keccak: Hasher, l: Life, r: M.Request)
    requires IsTop(keccak, l.retry, r) && |l.channel| < REQ_CACHE_SIZE
    ensures Enabled(keccak, l, Retry(Some(r)))
    ensures LifeStep(keccak, l, Retry(Some(r))) == l.(retry := l.retry - multiset{r}, channel := l.channel + [r])
  {
  }

  ghost predicate IsTop(keccak: Hasher, bag: multiset<M.Request>, r: M.Request) {
    r in bag && Index(keccak, r) > 0 && forall o :: o in bag ==> Index(keccak, o) <= Index(keccak, r)
  }

  ghost predicate NoneToRetry(keccak: Hasher, bag: multiset<M.Request>) {
    forall r :: r in bag ==> Index(keccak, r) == 0
  }

  /** The entry of largest key is, among the contents, a request of largest index. */
  lemma TopOfContents(keccak: Hasher, m: map<HashKey, InboundReq>, key: HashKey?)
    requires forall k :: k in m ==> k.value == m[k].Hash(keccak)
    ensures key != null && Top(m, key) ==> IsTop(keccak, Values(ContentMap(m)), m[key].Content())
    ensures (forall k :: k in m ==> k.value == 0) ==> NoneToRetry(keccak, Values(ContentMap(m)))
  {
    forall r | r in Values(ContentMap(m)) ensures exists k :: k in m && m[k].Content() == r {
      ValuesMember(ContentMap(m), r);
      var k :| k in ContentMap(m) && ContentMap(m)[k] == r;
      assert m[k].Content() == r;
    }
    if key != null && key in m {
      assert ContentMap(m)[key] == m[key].Content();
      ValuesMember(ContentMap(m), m[key].Content());
    }
  }

  ghost function Heights(rs: seq<InboundReq>): seq<int>
    reads rs
  {
    seq(|rs|, i requires 0 <= i < |rs| reads rs => rs[i].blockHeight)
  }

  /** The heights of the releases that go to the channel. */
  function SentHeights(outs: seq<M.Output>): seq<int> {
    if outs == [] then [] else (if outs[0].ToChannel? then [outs[0].height] else []) + SentHeights(outs[1..])
  }

  lemma {:induction false} SentHeightsAppend(xs: seq<M.Output>, ys: seq<M.Output>)
    ensures SentHeights(xs + ys) == SentHeights(xs) + SentHeights(ys)
  {
    if xs == [] {
      assert xs + ys == ys;
    } else {
      assert (xs + ys)[0] == xs[0] && (xs + ys)[1..] == xs[1..] + ys;
      SentHeightsAppend(xs[1..], ys);
      Regrouped(if xs[0].ToChannel? then [xs[0].height] else [], SentHeights(xs[1..]), SentHeights(ys));
    }
  }

  lemma NoneSent(before: seq<int>)
    ensures before + SentHeights([]) == before
  {
  }

  lemma OneMoreSent(before: seq<int>, outs: seq<M.Output>, i: nat)
    requires i < |outs|
    ensures (before + SentHeights(outs[..i])) + SentHeights([outs[i]]) == before + SentHeights(outs[..i + 1])
  {
    assert outs[..i + 1] == outs[..i] + [outs[i]];
    SentHeightsAppend(outs[..i], [outs[i]]);
    Regrouped(before, SentHeights(outs[..i]), SentHeights([outs[i]]));
  }

  /** What the bag has gained has height 0. */
  ghost predicate AtZero(before: set<InboundReq>, after: set<InboundReq>)
    reads after
  {
    forall r :: r in after && r !in before ==> r.blockHeight == 0
  }

  class InboundQueue {
    const keccak: Hasher
    const retry: RetryBag<InboundReq>
    var channel: seq<InboundReq>
    var awaiting: seq<Check>
    ghost var confirmed: seq<InboundReq>
    ghost var dropped: seq<InboundReq>
    /** Every request object released so far. */
    ghost var accepted: set<InboundReq>
    /** The Joltify chain. */
    ghost var chain: MintChain

    ghost function Objects(): multiset<InboundReq>
      reads this, retry
    {
      Places(retry.items, channel, awaiting, confirmed, dropped)
    }

    ghost predicate KeysCurrent()
      reads this, retry
    {
      forall k :: k in retry.items ==> k.value == retry.items[k].Hash(keccak)
    }

    /** The handler holds these objects; every other accepted one is in exactly one place. */
    ghost predicate Holding(inHand: multiset<InboundReq>)
      reads this, retry
    {
      Objects() + inHand == multiset(accepted) && KeysCurrent()
    }

    /** Each object is in exactly one place, and each retry key is the current hash of its item. */
    ghost predicate Valid()
      reads this, retry
    {
      Holding(multiset{})
    }

    ghost function View(): Life
      reads this, retry
    {
      LifeOf(retry.items, channel, awaiting, confirmed, dropped, chain)
    }

    constructor (keccak: Hasher)
      ensures Valid() && View() == NEWBORN && fresh(retry) && this.keccak == keccak
    {
      this.keccak := keccak;
      retry := new RetryBag<InboundReq>();
      channel, awaiting, confirmed, dropped, accepted := [], [], [], [], {};
      chain := NEWBORN.chain;
    }

    method AddItem(item: InboundReq)
      requires Holding(multiset{item})
      modifies retry
      ensures Valid() && View() == old(View()).(retry := old(View()).retry + multiset{item.Content()})
      ensures retry.items.Values == old(retry.items.Values) + {item}
    {
      hide Values, Places, LifeOf;
      ghost var before := retry.items;
      ghost var key := retry.AddItem(item.Hash(keccak), item);
      AddedToRetry(before, key, item, channel, awaiting, confirmed, dropped, chain);
      ValuesSet(before, key, item);
    }

    /** PopItem: None exactly when no positive hash is stored, otherwise an item of largest hash. */
    method PopItem() returns (item: InboundReq?)
      requires Valid()
      modifies retry
      ensures |old(View()).channel| == |channel|
      ensures item == null <==> forall k :: k in old(retry.items) ==> k.value == 0
      ensures item == null ==> Valid() && View() == old(View()) && NoneToRetry(keccak, old(View()).retry)
      ensures item != null ==>
                && Holding(multiset{item}) && item in old(retry.items.Values)
                && View() == old(View()).(retry := old(View()).retry - multiset{item.Content()})
                && IsTop(keccak, old(View()).retry, item.Content())
    {
      hide Places, IsTop, NoneToRetry;
      ghost var before := retry.items;
      var top, key := retry.PopItem();
      if top.None? {
        TopOfContents(keccak, before, null);
        return null;
      }
      EntryTaken(keccak, before, key, channel, awaiting, confirmed, dropped, chain);
      hide LifeOf, Top;
      item := top.value;
    }

    method Send(item: InboundReq)
      requires Holding(multiset{item}) && |channel| < REQ_CACHE_SIZE
      modifies `channel
      ensures Valid() && View() == old(View()).(channel := old(View()).channel + [item.Content()])
      ensures channel == old(channel) + [item]
    {
      hide Values;
      channel := channel + [item];
      assert Contents(channel) == Contents(old(channel)) + [item.Content()];
    }

    method Receive() returns (item: InboundReq)
      requires Valid() && channel != []
      modifies `channel
      ensures Holding(multiset{item}) && old(View()).channel != [] && item.Content() == old(View()).channel[0]
      ensures View() == old(View()).(channel := old(View()).channel[1..])
    {
      hide Values;
      item := channel[0];
      assert channel == [item] + channel[1..];
      channel := channel[1..];
      assert Contents(channel) == Contents(old(channel))[1..];
    }

    ghost method Drop(item: InboundReq)
      requires Holding(multiset{item})
      modifies `dropped
      ensures Valid() && View() == old(View()).(dropped := old(View()).dropped + multiset{item.Content()})
    {
      hide Values;
      dropped := dropped + [item];
      assert Contents(dropped) == Contents(old(dropped)) + [item.Content()];
    }

    ghost method Confirm(item: InboundReq)
      requires Holding(multiset{item})
      modifies `confirmed
      ensures Valid() && View() == old(View()).(confirmed := old(View()).confirmed + multiset{item.Content()})
    {
      hide Values;
      confirmed := confirmed + [item];
      assert Contents(confirmed) == Contents(old(confirmed)) + [item.Content()];
    }

    /** Starts the goroutine that polls for the index. */
    method Poll(item: InboundReq, index: Option<nat>)
      requires Holding(multiset{item})
      modifies `awaiting
      ensures Valid() && View() == old(View()).(awaiting := old(View()).awaiting + [Waiting(item.Content(), index)])
    {
      hide Values, Places, LifeOf;
      AddedToAwaiting(retry.items, channel, awaiting, Check(item, index), confirmed, dropped, chain);
      awaiting := awaiting + [Check(item, index)];
    }

    method EndPoll(i: nat) returns (item: InboundReq)
      requires Valid() && i < |awaiting|
      modifies `awaiting
      ensures Holding(multiset{item}) && i < |old(View()).awaiting| && item.Content() == old(View()).awaiting[i].req
      ensures View() == old(View()).(awaiting := old(View()).awaiting[..i] + old(View()).awaiting[i + 1..])
    {
      hide Values;
      item := awaiting[i].req;
      Removed(awaiting, i);
      awaiting := awaiting[..i] + awaiting[i + 1..];
      assert Waits(awaiting) == Waits(old(awaiting))[..i] + Waits(old(awaiting))[i + 1..];
    }

    method NewAccountInboundReq(r: M.Request, blockHeight: int) returns (item: InboundReq)
      requires Valid()
      modifies `accepted
      ensures fresh(item) && item.Content() == r && item.blockHeight == blockHeight
      ensures Holding(multiset{item}) && View() == old(View()) && accepted == old(accepted) + {item}
    {
      hide Values;
      item := new InboundReq(r, blockHeight);
      assert item !in accepted;
      accepted := accepted + {item};
      assert multiset(accepted) == multiset(old(accepted)) + multiset{item};
    }

    /** A deposit that completes its request sends it on with the height of its block. */
    method ReleaseToChannel(req: M.Request, height: nat)
      requires Valid() && |channel| < REQ_CACHE_SIZE
      modifies `accepted, `channel
      ensures Valid() && View() == LifeStep(keccak, old(View()), Enqueue(M.ToChannel(req, height)))
      ensures fresh(accepted - old(accepted)) && |accepted - old(accepted)| == 1
      ensures Heights(channel) == old(Heights(channel)) + [height]
    {
      hide Holding, Objects, View;
      var item := NewAccountInboundReq(req, height);
      Send(item);
      assert accepted - old(accepted) == {item};
    }

    /** A fee that completes a deposit puts its request into the bag with height 0. */
    method ReleaseToBag(req: M.Request)
      requires Valid()
      modifies `accepted, retry
      ensures Valid() && View() == LifeStep(keccak, old(View()), Enqueue(M.ToRetry(req)))
      ensures fresh(accepted - old(accepted)) && |accepted - old(accepted)| == 1
      ensures AtZero(old(retry.items.Values), retry.items.Values)
    {
      hide Holding, Objects, View;
      var item := NewAccountInboundReq(req, 0);
      AddItem(item);
      assert accepted - old(accepted) == {item};
    }

    /** A request leaves the matcher for the channel or for the retry bag. */
    method Release(out: M.Output)
      requires Valid() && (out.ToChannel? ==> |channel| < REQ_CACHE_SIZE)
      modifies this, retry
      ensures Valid() && View() == LifeStep(keccak, old(View()), Enqueue(out))
      ensures fresh(accepted - old(accepted)) && |accepted - old(accepted)| == 1
      ensures Heights(channel) == old(Heights(channel)) + SentHeights([out])
      ensures AtZero(old(retry.items.Values), retry.items.Values)
    {
      hide Holding, Objects, View, Valid, LifeStep;
      assert [out][1..] == [];
      match out
      case ToChannel(req, height) => ReleaseToChannel(req, height);
      case ToRetry(req) =>
        ReleaseToBag(req);
        assert Heights(channel) + [] == Heights(channel);
    }

    /** A block's releases, in order; the channel has room for those that go there. */
    method ReleaseAll(outs: seq<M.Output>)
      requires Valid() && AllEnabled(keccak, View(), outs)
      modifies this, retry
      ensures Valid() && View() == EnqueueAll(keccak, old(View()), outs)
      ensures Heights(channel) == old(Heights(channel)) + SentHeights(outs)
      ensures AtZero(old(retry.items.Values), retry.items.Values)
    {
      hide Holding, Objects, Valid, LifeStep, Heights, SentHeights;
      ghost var before := Heights(channel);
      assert outs[0..] == outs && outs[..0] == [];
      NoneSent(before);
      for i := 0 to |outs|
        invariant Valid() && AllEnabled(keccak, View(), outs[i..])
        invariant EnqueueAll(keccak, View(), outs[i..]) == EnqueueAll(keccak, old(View()), outs)
        invariant Heights(channel) == before + SentHeights(outs[..i])
        invariant AtZero(old(retry.items.Values), retry.items.Values)
      {
        assert outs[i..][0] == outs[i] && outs[i..][1..] == outs[i + 1..];
        Release(outs[i]);
        OneMoreSent(before, outs, i);
      }
      assert outs[|outs|..] == [] && outs[..|outs|] == outs;
    }

    /** A Joltify block: the largest failed request has its height reset and goes back to the channel. */
    method OnJoltifyBlock(height: int) returns (ghost pick: Option<M.Request>)
      requires Valid() && (|channel| < REQ_CACHE_SIZE || forall k :: k in retry.items ==> k.value == 0)
      modifies this, retry, retry.items.Values
      ensures Valid() && accepted == old(accepted)
      ensures Enabled(keccak, old(View()), Retry(pick)) && View() == LifeStep(keccak, old(View()), Retry(pick))
      ensures pick.None? ==> channel == old(channel)
      ensures pick.Some? ==>
                && |channel| == |old(channel)| + 1 && channel[..|channel| - 1] == old(channel)
                && var item := channel[|channel| - 1];
                && item in old(retry.items.Values) && item.Content() == pick.value && item.blockHeight == height
                && forall r :: r in old(retry.items.Values) && r != item ==> r.blockHeight == old(r.blockHeight)
      ensures pick.None? ==> forall r :: r in old(retry.items.Values) ==> r.blockHeight == old(r.blockHeight)
    {
      hide Holding, Objects, View;
      var item := PopItem();
      if item == null {
        return None;
      }
      RetryStep(keccak, old(View()), item.Content());
      item.SetItemHeight(height);
      Send(item);
      pick := Some(item.Content());
    }

    /** Query, check, submit: the result is an error, or the index to poll for; None is the empty index. */
    method ProcessInBound(item: InboundReq, answer: Answer) returns (result: Result<Option<nat>, ()>)
      requires answer.Failed? || answer.Looked?
      requires Holding(multiset{item})
      modifies `chain
      ensures Holding(multiset{item})
      ensures View() == old(View()).(chain := ChainAfter(keccak, old(View()).chain, item.Content(), answer))
      ensures result ==
              if answer.Failed? then Failure(())
              else if answer.seen then Success(None)
              else if answer.reported then Success(Some(item.Hash(keccak)))
              else Failure(())
    {
      if answer.Failed? {
        return Failure(());
      }
      var index := item.Hash(keccak);
      if answer.seen {
        return Success(None);
      }
      if answer.sent {
        chain := Landing.Broadcast(chain, SubmissionOf(keccak, item.Content(), answer));
      }
      if !answer.reported {
        return Failure(());
      }
      return Success(Some(index));
    }

    /** The chain records a submission, or another transaction of an account. */
    ghost method ChainMoves(e: LifeEvent)
      requires Valid() && (e.Land? || e.Advance?)
      modifies `chain
      ensures Valid() && View() == LifeStep(keccak, old(View()), e)
    {
      hide Values;
      chain := LifeStep(keccak, View(), e).chain;
    }

    /** The channel's receiver. */
    method HandleInbound(answer: Answer)
      requires Valid() && channel != []
      modifies this, retry
      ensures Valid() && accepted == old(accepted)
      ensures View() == LifeStep(keccak, old(View()), Process(answer))
    {
      hide Holding, Objects, View;
      var item := Receive();
      if answer.SignerError? || answer.NotSigner? {
        Drop(item);
        return;
      }
      var result := ProcessInBound(item, answer);
      match result
      case Failure(_) => AddItem(item);
      case Success(index) => Poll(item, index);
    }

    /** A status check ends: found, or given up and retried. */
    method CheckReturned(i: nat, found: bool)
      requires Valid() && i < |awaiting|
      modifies this, retry
      ensures Valid() && accepted == old(accepted)
      ensures View() == LifeStep(keccak, old(View()), Status(i, found))
    {
      hide Holding, Objects, View;
      var item := EndPoll(i);
      if found {
        Confirm(item);
      } else {
        AddItem(item);
      }
    }
  }

  lemma Removed(cs: seq<Check>, i: nat)
    requires i < |cs|
    ensures multiset(Polled(cs)) == multiset(Polled(cs[..i] + cs[i + 1..])) + multiset{cs[i].req}
  {
    var a, b := Polled(cs[..i]), Polled(cs[i + 1..]);
    assert Polled(cs) == a + [cs[i].req] + b;
    assert Polled(cs[..i] + cs[i + 1..]) == a + b;
  }
}
