/**
 * What each select case of the event loop does to requests and pools, and what that comes to over whole runs
 * (bridge/joltifyBridge.go:173-370).
 */
module LoopLaws {
  import opened Config
  import opened Wrappers
  import opened ByteTypes
  import opened Collections
  import opened EventLoop
  import D = Draining
  import S = Scheduler
  import R = Rotation
  import I = InboundFlow
  import IL = InboundLaws
  import O = Outbound
  import F = OutboundFlow
  import FL = OutboundLaws
  import M = MatcherSpec
  import T = MatcherTheorems

  // ---- The pools a handler knows ----

  ghost function CachedPools(c: R.Slots): set<S.Pool> {
    set slot | slot in {c.older, c.latest} && slot.Some? :: slot.value
  }

  ghost function Addresses(c: R.Slots): set<Address> {
    set pool | pool in CachedPools(c) :: pool.ethAddress
  }

  /** What the node knows of the bridge when a head comes: a deposit or fee to any cached pool is one to the bridge. */
  ghost function Known(env: Env, s: State): M.Bridge {
    M.Bridge(env.token, Addresses(s.pools.caches.pub), env.unpack)
  }

  /** The transaction as the intake meets it: with the pools of both slots, if both are filled. */
  function Met(s: State, hash: Bytes, msgs: Option<seq<O.Msg>>): O.JoltTx {
    match (s.pools.caches.jolt.older, s.pools.caches.jolt.latest)
    case (Some(a), Some(b)) => O.JoltTx(Some(O.Pools(a.joltAddress, b.joltAddress, b.ethAddress)), hash, msgs)
    case _ => O.JoltTx(None, hash, msgs)
  }

  lemma AddressesAre(c: R.Slots)
    ensures EthPools(c) == Addresses(c)
  {
    if c.older.Some? {
      assert c.older in {c.older, c.latest} && c.older.value in CachedPools(c);
    }
    if c.latest.Some? {
      assert c.latest in {c.older, c.latest} && c.latest.value in CachedPools(c);
    }
  }

  // ---- A Joltify block ----

  predicate HasTwoKeys(answer: R.Answer) {
    answer.Some? && |answer.value| == 2
  }

  ghost predicate HasPositive(keccak: I.Hasher, bag: multiset<M.Request>) {
    exists r :: r in bag && I.Index(keccak, r) > 0
  }

  /** One request of largest positive index went from the bag to the end of the channel, and nothing else changed. */
  ghost predicate RetriedOne(keccak: I.Hasher, l: I.Life, l': I.Life) {
    exists r :: && r in l.retry && I.Index(keccak, r) > 0
                && (forall o :: o in l.retry ==> I.Index(keccak, o) <= I.Index(keccak, r))
                && l' == l.(retry := l.retry - multiset{r}, channel := l.channel + [r])
  }

  /**
   * A block whose answer has two pools retries one inbound request, of largest positive index, unless there is none of
   * positive index; any other block changes nothing on the inbound side. Neither touches the outbound side.
   */
  lemma BlockRetriesLargest(env: Env, s: State, e: Event)
    requires Enabled(env, s, e) && e.JoltifyBlock?
    ensures var s' := Step(env, s, e);
            && s'.outbound == s.outbound && s'.inbound == s.inbound.(life := s'.inbound.life)
            && (if HasTwoKeys(e.answer) && HasPositive(env.keccak, s.inbound.life.retry)
                then RetriedOne(env.keccak, s.inbound.life, s'.inbound.life)
                else s'.inbound.life == s.inbound.life)
  {
    hide D.Run, I.RunAll, I.Legal, F.RunAll, F.Legal, I.Index;
    NoParts(env, s);
    if HasTwoPools(e.answer) {
      InboundOne(env.keccak, s.inbound, I.OnLife(I.Retry(e.pick)));
      if e.pick.Some? {
        assert e.pick.value in s.inbound.life.retry;
      }
    }
  }

  // ---- What every event is for the parts ----

  lemma BlockStep(env: Env, s: State, e: Event)
    requires Enabled(env, s, e) && e.JoltifyBlock?
    ensures Step(env, s, e).pools == D.Step(s.pools, env.decode, D.JoltifyBlock(e.height, e.answer, e.outcome))
    ensures HasTwoKeys(e.answer) ==> I.Enabled(env.keccak, s.inbound.life, I.Retry(e.pick))
  {
    hide D.Step, I.RunAll, F.RunAll, I.Enabled, F.Legal;
    PoolsOne(s.pools, env.decode, D.JoltifyBlock(e.height, e.answer, e.outcome));
    if HasTwoKeys(e.answer) {
      InboundOne(env.keccak, s.inbound, I.OnLife(I.Retry(e.pick)));
    }
  }

  /** A head of the public chain. */
  lemma HeadStep(env: Env, s: State, e: Event)
    requires Enabled(env, s, e) && e.PublicHead?
    ensures var head := I.OnHead(T.Head(Known(env, s), e.number, e.block));
            && I.StepEnabled(env.keccak, s.inbound, head)
            && Step(env, s, e).inbound == I.Step(env.keccak, s.inbound, head)
    ensures F.Enabled(s.outbound, F.Retry(e.retry))
    ensures Step(env, s, e).outbound == F.LifeStep(s.outbound, F.Retry(e.retry))
    ensures Step(env, s, e).pools == D.Step(s.pools, env.decode, D.PublicHead(e.number, e.outcome))
  {
    hide D.Step, I.Step, I.StepEnabled, F.LifeStep, F.Enabled;
    AddressesAre(s.pools.caches.pub);
    PoolsOne(s.pools, env.decode, D.PublicHead(e.number, e.outcome));
    InboundOne(env.keccak, s.inbound, I.OnHead(T.Head(Known(env, s), e.number, e.block)));
    OutboundOne(s.outbound, F.Retry(e.retry));
  }

  lemma TxStep(env: Env, s: State, e: Event)
    requires Enabled(env, s, e) && e.JoltifyTx?
    ensures F.Enabled(s.outbound, F.Intake(Met(s, e.hash, e.msgs)))
    ensures Step(env, s, e) == s.(outbound := F.LifeStep(s.outbound, F.Intake(Met(s, e.hash, e.msgs))))
  {
    hide F.LifeStep, F.Enabled;
    NoParts(env, s);
    OutboundOne(s.outbound, F.Intake(Met(s, e.hash, e.msgs)));
  }

  lemma InboundStep(env: Env, s: State, e: Event)
    requires Enabled(env, s, e) && (e.InboundItem? || e.InboundLater?)
    ensures var le := if e.InboundItem? then I.Process(e.mint) else e.checked;
            && I.StepEnabled(env.keccak, s.inbound, I.OnLife(le))
            && Step(env, s, e) == s.(inbound := I.Step(env.keccak, s.inbound, I.OnLife(le)))
  {
    hide I.Step, I.StepEnabled;
    NoParts(env, s);
    InboundOne(env.keccak, s.inbound, I.OnLife(if e.InboundItem? then I.Process(e.mint) else e.checked));
  }

  lemma OutboundStep(env: Env, s: State, e: Event)
    requires Enabled(env, s, e) && (e.OutboundItem? || e.OutboundLater?)
    ensures var fe := if e.OutboundItem? then F.Process(e.pay) else e.settled;
            && F.Enabled(s.outbound, fe)
            && Step(env, s, e) == s.(outbound := F.LifeStep(s.outbound, fe))
  {
    hide F.LifeStep, F.Enabled;
    NoParts(env, s);
    OutboundOne(s.outbound, if e.OutboundItem? then F.Process(e.pay) else e.settled);
  }

  // ---- What can come ----

  /** A mint is signed by the account of the latest pool, on the Joltify chain. */
  ghost predicate MintsAsLatest(s: State, mint: I.Answer) {
    mint.Looked? ==> exists pool :: s.pools.caches.jolt.latest == Some(pool) && mint.signer == pool.joltAddress
  }

  /** A transfer is signed by the account of the latest pool, on the public chain. */
  ghost predicate PaysAsLatest(s: State, pay: F.Answer) {
    pay.Submitted? ==> exists pool :: s.pools.caches.pub.latest == Some(pool) && pay.signer == pool.ethAddress
  }

  lemma TxEnabled(env: Env, s: State, hash: Bytes, msgs: Option<seq<O.Msg>>)
    ensures Enabled(env, s, JoltifyTx(hash, msgs))
  {
    hide F.LifeStep;
    NoParts(env, s);
    OutboundOne(s.outbound, F.Intake(Met(s, hash, msgs)));
  }

  lemma InboundItemIff(env: Env, s: State, mint: I.Answer)
    ensures Enabled(env, s, InboundItem(mint)) <==> s.inbound.life.channel != [] && MintsAsLatest(s, mint)
  {
    hide I.Step;
    NoParts(env, s);
    InboundOne(env.keccak, s.inbound, I.OnLife(I.Process(mint)));
  }

  lemma OutboundItemIff(env: Env, s: State, pay: F.Answer)
    ensures Enabled(env, s, OutboundItem(pay)) <==> s.outbound.channel != [] && PaysAsLatest(s, pay)
  {
    hide F.LifeStep;
    NoParts(env, s);
    OutboundOne(s.outbound, F.Process(pay));
  }

  lemma BlockIff(env: Env, s: State, height: int, answer: R.Answer, outcome: S.Outcome)
    ensures (exists pick :: Enabled(env, s, JoltifyBlock(height, answer, outcome, pick))) <==>
              || !HasTwoKeys(answer) || |s.inbound.life.channel| < REQ_CACHE_SIZE
              || !HasPositive(env.keccak, s.inbound.life.retry)
  {
    hide I.Step, I.Index, I.Enabled;
    NoParts(env, s);
    IL.NeverStuck(env.keccak, s.inbound.life);
    forall pick
      ensures Enabled(env, s, JoltifyBlock(height, answer, outcome, pick))
              <==> (HasTwoKeys(answer) ==> I.Enabled(env.keccak, s.inbound.life, I.Retry(pick)))
    {
      InboundOne(env.keccak, s.inbound, I.OnLife(I.Retry(pick)));
    }
    if !HasTwoKeys(answer) {
      assert Enabled(env, s, JoltifyBlock(height, answer, outcome, None));
    } else if pick :| I.Enabled(env.keccak, s.inbound.life, I.Retry(pick)) {
      assert Enabled(env, s, JoltifyBlock(height, answer, outcome, pick));
    }
  }

  lemma LaterIff(env: Env, s: State, i: nat, found: bool, receipt: Option<nat>)
    ensures Enabled(env, s, InboundLater(I.Status(i, found)))
            <==> I.Enabled(env.keccak, s.inbound.life, I.Status(i, found))
    ensures Enabled(env, s, OutboundLater(F.Checked(i, receipt))) <==> F.Enabled(s.outbound, F.Checked(i, receipt))
  {
    hide I.Step, F.LifeStep;
    NoParts(env, s);
    InboundOne(env.keccak, s.inbound, I.OnLife(I.Status(i, found)));
    OutboundOne(s.outbound, F.Checked(i, receipt));
  }

  /**
   * The event loop takes whatever comes: any transaction; any answer for the request at the head of a channel,
   * signed by the latest pool; any Joltify block, unless a request to retry meets a full channel.
   */
  lemma NeverStuck(env: Env, s: State, hash: Bytes, msgs: Option<seq<O.Msg>>, mint: I.Answer, pay: F.Answer,
                   height: int, answer: R.Answer, outcome: S.Outcome)
    ensures Enabled(env, s, JoltifyTx(hash, msgs))
    ensures Enabled(env, s, InboundItem(mint)) <==> s.inbound.life.channel != [] && MintsAsLatest(s, mint)
    ensures Enabled(env, s, OutboundItem(pay)) <==> s.outbound.channel != [] && PaysAsLatest(s, pay)
    ensures (exists pick :: Enabled(env, s, JoltifyBlock(height, answer, outcome, pick))) <==>
              || !HasTwoKeys(answer) || |s.inbound.life.channel| < REQ_CACHE_SIZE
              || !HasPositive(env.keccak, s.inbound.life.retry)
  {
    hide Enabled, HasTwoKeys, HasPositive, MintsAsLatest, PaysAsLatest;
    TxEnabled(env, s, hash, msgs);
    InboundItemIff(env, s, mint);
    OutboundItemIff(env, s, pay);
    BlockIff(env, s, height, answer, outcome);
  }

  // ---- Inbound requests over whole runs ----

  /** What the block of a head releases. */
  ghost function Released(env: Env, s: State, e: Event): seq<M.Output> {
    if e.PublicHead? then I.HeadRun(s.inbound.matcher, T.Head(Known(env, s), e.number, e.block)).1 else []
  }

  /** A Joltify block with two pools finds a request of positive index in the bag. */
  ghost predicate FindsWork(env: Env, s: State, e: Event) {
    e.JoltifyBlock? && HasTwoKeys(e.answer) && HasPositive(env.keccak, s.inbound.life.retry)
  }

  ghost function Retried(env: Env, s: State, e: Event): seq<M.Request> {
    if FindsWork(env, s, e) && e.pick.Some? then [e.pick.value] else []
  }

  ghost function InboundSent(env: Env, s: State, e: Event): seq<M.Request> {
    IL.ToChannels(Released(env, s, e)) + Retried(env, s, e)
  }

  ghost function InboundReceived(env: Env, s: State, e: Event): seq<M.Request> {
    if e.InboundItem? && s.inbound.life.channel != [] then [s.inbound.life.channel[0]] else []
  }

  ghost function InboundBagged(env: Env, s: State, e: Event): multiset<M.Request> {
    var l := s.inbound.life;
    IL.ToBag(Released(env, s, e))
    + (if e.InboundItem? && l.channel != [] && IL.NotSubmitted(e.mint) then multiset{l.channel[0]} else multiset{})
    + (if e.InboundLater? && e.checked.Status? && e.checked.i < |l.awaiting| && !e.checked.found
       then multiset{l.awaiting[e.checked.i].req} else multiset{})
  }

  ghost function InboundUnbagged(env: Env, s: State, e: Event): multiset<M.Request> {
    multiset(Retried(env, s, e))
  }

  /** What one event does to the inbound channel and bag. */
  ghost predicate InboundMoved(env: Env, s: State, e: Event, l': I.Life) {
    && s.inbound.life.channel + InboundSent(env, s, e) == InboundReceived(env, s, e) + l'.channel
    && s.inbound.life.retry + InboundBagged(env, s, e) == InboundUnbagged(env, s, e) + l'.retry
  }

  lemma PickIsWork(env: Env, s: State, e: Event)
    requires Enabled(env, s, e) && e.JoltifyBlock? && HasTwoKeys(e.answer)
    ensures e.pick.Some? <==> HasPositive(env.keccak, s.inbound.life.retry)
    ensures e.pick.Some? ==> e.pick.value in s.inbound.life.retry
    ensures Step(env, s, e).inbound.life == I.LifeStep(env.keccak, s.inbound.life, I.Retry(e.pick))
  {
    hide D.Run, D.Step, I.RunAll, I.Legal, F.RunAll, F.Legal, I.Index;
    InboundOne(env.keccak, s.inbound, I.OnLife(I.Retry(e.pick)));
    if e.pick.Some? {
      assert e.pick.value in s.inbound.life.retry && I.Index(env.keccak, e.pick.value) > 0;
    }
  }

  lemma BlockMoves(env: Env, s: State, e: Event)
    requires Enabled(env, s, e) && e.JoltifyBlock?
    ensures InboundMoved(env, s, e, Step(env, s, e).inbound.life)
  {
    hide Enabled, HasPositive;
    if HasTwoKeys(e.answer) {
      PickIsWork(env, s, e);
      hide Step;
    } else {
      BlockRetriesLargest(env, s, e);
      hide Step;
    }
  }

  lemma HeadMovesInbound(env: Env, s: State, e: Event)
    requires Enabled(env, s, e) && e.PublicHead?
    ensures InboundMoved(env, s, e, Step(env, s, e).inbound.life)
  {
    hide Enabled, Step, I.Step, I.StepEnabled, I.HeadRun, Known, IL.ToChannels, IL.ToBag;
    HeadStep(env, s, e);
    IL.HeadMoves(env.keccak, s.inbound, I.OnHead(T.Head(Known(env, s), e.number, e.block)));
  }

  lemma ItemMoves(env: Env, s: State, e: Event)
    requires Enabled(env, s, e) && e.InboundItem?
    ensures InboundMoved(env, s, e, Step(env, s, e).inbound.life)
  {
    hide Enabled, Step, I.Step, I.StepEnabled;
    InboundStep(env, s, e);
    IL.ChannelMoves(env.keccak, s.inbound, I.OnLife(I.Process(e.mint)));
    IL.BagMoves(env.keccak, s.inbound, I.OnLife(I.Process(e.mint)));
  }

  lemma LaterMoves(env: Env, s: State, e: Event)
    requires Enabled(env, s, e) && e.InboundLater?
    ensures InboundMoved(env, s, e, Step(env, s, e).inbound.life)
  {
    NotEnqueued(env, s, e);
    hide Enabled, Step, I.Step, I.StepEnabled;
    InboundStep(env, s, e);
    IL.ChannelMoves(env.keccak, s.inbound, I.OnLife(e.checked));
    IL.BagMoves(env.keccak, s.inbound, I.OnLife(e.checked));
  }

  lemma NotEnqueued(env: Env, s: State, e: Event)
    requires Enabled(env, s, e)
    ensures e.InboundLater? ==> !e.checked.Enqueue? && !e.checked.Retry? && !e.checked.Process?
    ensures e.OutboundLater? ==> !e.settled.Intake? && !e.settled.Retry? && !e.settled.Process?
  {
  }

  lemma OtherMoves(env: Env, s: State, e: Event)
    requires Enabled(env, s, e) && (e.JoltifyTx? || e.OutboundItem? || e.OutboundLater?)
    ensures InboundMoved(env, s, e, Step(env, s, e).inbound.life)
  {
    hide Enabled, Step;
    if e.JoltifyTx? {
      TxStep(env, s, e);
    } else {
      OutboundStep(env, s, e);
    }
  }

  lemma InboundMoves(env: Env, s: State, e: Event)
    requires Enabled(env, s, e)
    ensures InboundMoved(env, s, e, Step(env, s, e).inbound.life)
  {
    hide Enabled, Step, InboundMoved;
    match e
    case JoltifyBlock(_, _, _, _) => BlockMoves(env, s, e);
    case PublicHead(_, _, _, _) => HeadMovesInbound(env, s, e);
    case InboundItem(_) => ItemMoves(env, s, e);
    case InboundLater(_) => LaterMoves(env, s, e);
    case JoltifyTx(_, _) => OtherMoves(env, s, e);
    case OutboundItem(_) => OtherMoves(env, s, e);
    case OutboundLater(_) => OtherMoves(env, s, e);
  }

  /** What a rule gives for each event of the run, in order. */
  ghost function SeqOver<X>(env: Env, s: State, events: seq<Event>, f: (Env, State, Event) -> seq<X>): seq<X>
    decreases |events|
  {
    if events == [] then [] else f(env, s, events[0]) + SeqOver(env, Step(env, s, events[0]), events[1..], f)
  }

  ghost function BagOver<X>(env: Env, s: State, events: seq<Event>,
                            f: (Env, State, Event) -> multiset<X>): multiset<X>
    decreases |events|
  {
    if events == [] then multiset{}
    else f(env, s, events[0]) + BagOver(env, Step(env, s, events[0]), events[1..], f)
  }

  /**
   * The inbound side over every run of the event loop. The channel is first in, first out: it takes the releases of
   * each head and the retries of each block, and the handler receives from it. The bag loses those retries and gains
   * late releases, failed processing and failed checks.
   */
  lemma {:induction false} InboundOverRuns(env: Env, s: State, events: seq<Event>)
    requires Legal(env, s, events)
    ensures var l, l' := s.inbound.life, Run(env, s, events).inbound.life;
            && l.channel + SeqOver(env, s, events, InboundSent)
               == SeqOver(env, s, events, InboundReceived) + l'.channel
            && l.retry + BagOver(env, s, events, InboundBagged)
               == BagOver(env, s, events, InboundUnbagged) + l'.retry
    decreases |events|
  {
    var l := s.inbound.life;
    if events == [] {
      assert l.channel + [] == [] + l.channel;
    } else {
      hide Enabled, Step, InboundSent, InboundReceived, InboundBagged, InboundUnbagged;
      var e, s1, rest := events[0], Step(env, s, events[0]), events[1..];
      InboundMoves(env, s, e);
      InboundOverRuns(env, s1, rest);
      var l1, l' := s1.inbound.life, Run(env, s1, rest).inbound.life;
      ChainedSeq(l.channel, InboundSent(env, s, e), InboundReceived(env, s, e), l1.channel,
                 SeqOver(env, s1, rest, InboundSent), SeqOver(env, s1, rest, InboundReceived), l'.channel);
      Chained(l.retry, InboundBagged(env, s, e), InboundUnbagged(env, s, e), l1.retry,
              BagOver(env, s1, rest, InboundBagged), BagOver(env, s1, rest, InboundUnbagged), l'.retry);
    }
  }

  /** How many events of the run are of a kind, told from the state each meets. */
  ghost function Times(env: Env, s: State, events: seq<Event>, p: (Env, State, Event) -> bool): nat
    decreases |events|
  {
    if events == [] then 0
    else (if p(env, s, events[0]) then 1 else 0) + Times(env, Step(env, s, events[0]), events[1..], p)
  }

  /** The number of retries is the number of usable blocks that found a request of positive index. */
  lemma {:induction false} RetriesAreWork(env: Env, s: State, events: seq<Event>)
    requires Legal(env, s, events)
    ensures |SeqOver(env, s, events, Retried)| == Times(env, s, events, FindsWork)
    ensures |BagOver(env, s, events, InboundUnbagged)| == Times(env, s, events, FindsWork)
    decreases |events|
  {
    if events == [] {
    } else {
      hide Step, HasPositive;
      if FindsWork(env, s, events[0]) {
        PickIsWork(env, s, events[0]);
      }
      hide Enabled, FindsWork;
      RetriesAreWork(env, Step(env, s, events[0]), events[1..]);
    }
  }

  // ---- Outbound requests over whole runs ----

  ghost function Asked(env: Env, s: State, e: Event): seq<F.Item> {
    if e.JoltifyTx? then F.Numbered(s.outbound.made, O.AskedIn(Met(s, e.hash, e.msgs))) else []
  }

  ghost function OutboundSent(env: Env, s: State, e: Event): seq<F.Item> {
    if e.PublicHead? && e.retry.Some? then [e.retry.value] else []
  }

  ghost function OutboundReceived(env: Env, s: State, e: Event): seq<F.Item> {
    if e.OutboundItem? && s.outbound.channel != [] then [s.outbound.channel[0]] else []
  }

  ghost function OutboundBagged(env: Env, s: State, e: Event): multiset<F.Item> {
    multiset(Asked(env, s, e))
    + (if e.OutboundItem? && s.outbound.channel != [] && FL.NotSubmitted(e.pay)
       then multiset{s.outbound.channel[0]} else multiset{})
    + (if e.OutboundLater? && e.settled.Checked? && e.settled.i < |s.outbound.awaiting|
          && FL.Reverted(e.settled.receipt)
       then multiset{s.outbound.awaiting[e.settled.i]} else multiset{})
  }

  ghost function OutboundUnbagged(env: Env, s: State, e: Event): multiset<F.Item> {
    multiset(OutboundSent(env, s, e))
  }

  ghost predicate OutboundMoved(env: Env, s: State, e: Event, l': F.Life) {
    && s.outbound.channel + OutboundSent(env, s, e) == OutboundReceived(env, s, e) + l'.channel
    && s.outbound.retry + OutboundBagged(env, s, e) == OutboundUnbagged(env, s, e) + l'.retry
  }

  lemma OutboundSame(env: Env, s: State, e: Event)
    requires Enabled(env, s, e) && (e.JoltifyBlock? || e.InboundItem? || e.InboundLater?)
    ensures OutboundMoved(env, s, e, Step(env, s, e).outbound)
  {
    hide Enabled, Step;
    if e.JoltifyBlock? {
      BlockRetriesLargest(env, s, e);
    } else {
      InboundStep(env, s, e);
    }
  }

  lemma TxMoves(env: Env, s: State, e: Event)
    requires Enabled(env, s, e) && e.JoltifyTx?
    ensures OutboundMoved(env, s, e, Step(env, s, e).outbound)
  {
    hide Enabled, Step, F.LifeStep, F.Enabled, Met, O.AskedIn, F.Numbered;
    TxStep(env, s, e);
    FL.ChannelMoves(s.outbound, F.Intake(Met(s, e.hash, e.msgs)));
    FL.BagMoves(s.outbound, F.Intake(Met(s, e.hash, e.msgs)));
  }

  lemma HeadMovesOutbound(env: Env, s: State, e: Event)
    requires Enabled(env, s, e) && e.PublicHead?
    ensures OutboundMoved(env, s, e, Step(env, s, e).outbound)
  {
    hide Enabled, Step, F.LifeStep, F.Enabled, I.HeadRun;
    HeadStep(env, s, e);
    FL.ChannelMoves(s.outbound, F.Retry(e.retry));
    FL.BagMoves(s.outbound, F.Retry(e.retry));
  }

  lemma OutboundItemMoves(env: Env, s: State, e: Event)
    requires Enabled(env, s, e) && e.OutboundItem?
    ensures OutboundMoved(env, s, e, Step(env, s, e).outbound)
  {
    hide Enabled, Step, F.LifeStep, F.Enabled;
    OutboundStep(env, s, e);
    FL.ChannelMoves(s.outbound, F.Process(e.pay));
    FL.BagMoves(s.outbound, F.Process(e.pay));
  }

  lemma OutboundLaterMoves(env: Env, s: State, e: Event)
    requires Enabled(env, s, e) && e.OutboundLater?
    ensures OutboundMoved(env, s, e, Step(env, s, e).outbound)
  {
    NotEnqueued(env, s, e);
    hide Enabled, Step, F.LifeStep, F.Enabled;
    OutboundStep(env, s, e);
    FL.ChannelMoves(s.outbound, e.settled);
    FL.BagMoves(s.outbound, e.settled);
  }

  lemma OutboundMoves(env: Env, s: State, e: Event)
    requires Enabled(env, s, e)
    ensures OutboundMoved(env, s, e, Step(env, s, e).outbound)
  {
    hide Enabled, Step, OutboundMoved;
    match e
    case JoltifyBlock(_, _, _, _) => OutboundSame(env, s, e);
    case InboundItem(_) => OutboundSame(env, s, e);
    case InboundLater(_) => OutboundSame(env, s, e);
    case JoltifyTx(_, _) => TxMoves(env, s, e);
    case PublicHead(_, _, _, _) => HeadMovesOutbound(env, s, e);
    case OutboundItem(_) => OutboundItemMoves(env, s, e);
    case OutboundLater(_) => OutboundLaterMoves(env, s, e);
  }

  /**
   * The outbound side over every run of the event loop. Each transaction puts what its paying messages ask for into the
   * bag, each head sends one request to the channel, the handler receives them in order, and failed sends and reverted
   * transfers come back.
   */
  lemma {:induction false} OutboundOverRuns(env: Env, s: State, events: seq<Event>)
    requires Legal(env, s, events)
    ensures var l, l' := s.outbound, Run(env, s, events).outbound;
            && l.channel + SeqOver(env, s, events, OutboundSent)
               == SeqOver(env, s, events, OutboundReceived) + l'.channel
            && l.retry + BagOver(env, s, events, OutboundBagged)
               == BagOver(env, s, events, OutboundUnbagged) + l'.retry
    decreases |events|
  {
    var l := s.outbound;
    if events == [] {
      assert l.channel + [] == [] + l.channel;
    } else {
      hide Enabled, Step, OutboundSent, OutboundReceived, OutboundBagged, OutboundUnbagged;
      var e, s1, rest := events[0], Step(env, s, events[0]), events[1..];
      OutboundMoves(env, s, e);
      OutboundOverRuns(env, s1, rest);
      var l1, l' := s1.outbound, Run(env, s1, rest).outbound;
      ChainedSeq(l.channel, OutboundSent(env, s, e), OutboundReceived(env, s, e), l1.channel,
                 SeqOver(env, s1, rest, OutboundSent), SeqOver(env, s1, rest, OutboundReceived), l'.channel);
      Chained(l.retry, OutboundBagged(env, s, e), OutboundUnbagged(env, s, e), l1.retry,
              BagOver(env, s1, rest, OutboundBagged), BagOver(env, s1, rest, OutboundUnbagged), l'.retry);
    }
  }

  // ---- Pools over whole runs ----

  function AnswersOf(events: seq<Event>): seq<R.Answer> {
    if events == [] then []
    else (if events[0].JoltifyBlock? then [events[0].answer] else []) + AnswersOf(events[1..])
  }

  ghost function JoltTaken(env: Env, s: State, e: Event): seq<int> {
    if e.JoltifyBlock? then D.DueOnJolt(s.pools, env.decode, D.JoltifyBlock(e.height, e.answer, e.outcome)) else []
  }

  ghost function PubTaken(env: Env, s: State, e: Event): seq<int> {
    if e.PublicHead? then D.Due(s.pools.pub.jobs, e.number) else []
  }

  ghost predicate PoolsMoved(env: Env, s: State, e: Event, p': D.State) {
    && p'.caches == R.Run(s.pools.caches, env.decode, AnswersOf([e]))
    && p'.jolt.popped == s.pools.jolt.popped + JoltTaken(env, s, e)
    && p'.pub.popped == s.pools.pub.popped + PubTaken(env, s, e)
  }

  lemma PoolsMove(env: Env, s: State, e: Event)
    requires Enabled(env, s, e)
    ensures PoolsMoved(env, s, e, Step(env, s, e).pools)
  {
    assert [e][1..] == [];
    match e
    case JoltifyBlock(height, answer, outcome, _) =>
      assert [answer][1..] == [];
      BlockStep(env, s, e);
      D.StepPops(s.pools, env.decode, D.JoltifyBlock(height, answer, outcome));
    case PublicHead(number, _, outcome, _) =>
      HeadStep(env, s, e);
      D.StepPops(s.pools, env.decode, D.PublicHead(number, outcome));
    case JoltifyTx(_, _) => TxStep(env, s, e);
    case InboundItem(_) => InboundStep(env, s, e);
    case InboundLater(_) => InboundStep(env, s, e);
    case OutboundItem(_) => OutboundStep(env, s, e);
    case OutboundLater(_) => OutboundStep(env, s, e);
  }

  /**
   * The caches over every run are those the answers of the Joltify blocks lead to, and the drain jobs taken are
   * those due at the blocks and heads.
   */
  lemma {:induction false} PoolsOverRuns(env: Env, s: State, events: seq<Event>)
    requires Legal(env, s, events)
    ensures var p, p' := s.pools, Run(env, s, events).pools;
            && p'.caches == R.Run(p.caches, env.decode, AnswersOf(events))
            && p'.jolt.popped == p.jolt.popped + SeqOver(env, s, events, JoltTaken)
            && p'.pub.popped == p.pub.popped + SeqOver(env, s, events, PubTaken)
    decreases |events|
  {
    var p := s.pools;
    if events == [] {
      assert p.jolt.popped + [] == p.jolt.popped && p.pub.popped + [] == p.pub.popped;
    } else {
      hide Enabled, Step, JoltTaken, PubTaken, R.Run;
      var e, s1, rest := events[0], Step(env, s, events[0]), events[1..];
      PoolsMove(env, s, e);
      PoolsOverRuns(env, s1, rest);
      FirstAnswer(env.decode, p.caches, events);
      Regrouped(p.jolt.popped, JoltTaken(env, s, e), SeqOver(env, s1, rest, JoltTaken));
      Regrouped(p.pub.popped, PubTaken(env, s, e), SeqOver(env, s1, rest, PubTaken));
    }
  }

  lemma FirstAnswer(decode: R.Decoder, c: R.Caches, events: seq<Event>)
    requires events != []
    ensures R.Run(c, decode, AnswersOf(events))
            == R.Run(R.Run(c, decode, AnswersOf([events[0]])), decode, AnswersOf(events[1..]))
  {
    assert [events[0]][1..] == [];
    var answers := AnswersOf(events);
    if events[0].JoltifyBlock? {
      assert answers[0] == events[0].answer && answers[1..] == AnswersOf(events[1..]);
      assert [events[0].answer][1..] == [];
      assert AnswersOf([events[0]]) == [events[0].answer];
    } else {
      assert answers == AnswersOf(events[1..]);
      assert AnswersOf([events[0]]) == [];
    }
  }

  /**
   * When the pair on the Joltify chain, once answered twice, only repeats or rotates: at the end of every run the
   * bridge knows exactly the two pools of the pair. A deposit or fee to the public address of either counts, a
   * message to the Joltify address of either is looked at, and requests are paid from the latest.
   */
  lemma KnowsThePair(env: Env, events: seq<Event>, p: R.Pair, answers: seq<R.Answer>)
    requires Legal(env, START, events) && AnswersOf(events) == [Some(p.Keys()), Some(p.Keys())] + answers
    requires R.Faithful(env.decode, p.KeySet() + R.KeysOf(answers))
    requires R.Decodes(env.decode, p) && p.latest != p.older && R.LegalAnswers(env.decode, p, answers)
    ensures var s, q := Run(env, START, events), R.LastPair(p, answers);
            && R.Decodes(env.decode, q)
            && var older, latest := env.decode(q.older).value, env.decode(q.latest).value;
            && Known(env, s).pools == {older.ethAddress, latest.ethAddress}
            && forall hash, msgs :: Met(s, hash, msgs)
                 == O.JoltTx(Some(O.Pools(older.joltAddress, latest.joltAddress, latest.ethAddress)), hash, msgs)
  {
    PoolsOverRuns(env, START, events);
    R.RotationTrackingFromStart(env.decode, p, answers);
    hide Run, Legal;
    var s, q := Run(env, START, events), R.LastPair(p, answers);
    AddressesAre(s.pools.caches.pub);
    assert EthPools(s.pools.caches.pub)
        == {env.decode(q.older).value.ethAddress, env.decode(q.latest).value.ethAddress};
  }
}
