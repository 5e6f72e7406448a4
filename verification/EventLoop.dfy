/**
 * The whole event loop (bridge/joltifyBridge.go:154-374): one machine of the pool caches with their drain jobs, the
 * inbound side and the outbound side. The caches decide which pools the matcher and the intake know and who signs.
 */
module EventLoop {
  import opened Wrappers
  import opened ByteTypes
  import opened Landing
  import D = Draining
  import S = Scheduler
  import R = Rotation
  import I = InboundFlow
  import Sub = Submissions
  import O = Outbound
  import F = OutboundFlow
  import M = MatcherSpec
  import T = MatcherTheorems

  /** What never changes: the hash, the conversion of pool keys, the token contract and the decoder of its calls. */
  datatype Env = Env(keccak: I.Hasher, decode: R.Decoder, token: Address, unpack: M.Unpacker)

  datatype State = State(pools: D.State, inbound: I.Inbound, outbound: F.Life)

  const START := State(D.START, I.START, F.NEWBORN)

  /** The select cases, the ends of the two status checks, and the steps of the chains. */
  datatype Event =
    | JoltifyBlock(height: int, answer: R.Answer, outcome: S.Outcome, pick: Option<M.Request>)
    | JoltifyTx(hash: Bytes, msgs: Option<seq<O.Msg>>)
    | PublicHead(number: nat, block: Option<seq<M.Tx>>, outcome: S.Outcome, retry: Option<F.Item>)
    | InboundItem(mint: I.Answer)
    | OutboundItem(pay: F.Answer)
    | InboundLater(checked: I.LifeEvent)
    | OutboundLater(settled: F.LifeEvent)

  /** The public-chain addresses checkToBridge compares with. */
  function EthPools(c: R.Slots): set<Address> {
    (if c.older.Some? then {c.older.value.ethAddress} else {})
    + (if c.latest.Some? then {c.latest.value.ethAddress} else {})
  }

  /** The pools the intake knows: none until both slots are filled. */
  function IntakePools(c: R.Slots): Option<O.Pools> {
    if c.older.None? || c.latest.None? then None
    else Some(O.Pools(c.older.value.joltAddress, c.latest.value.joltAddress, c.latest.value.ethAddress))
  }

  function HeadOf(env: Env, s: State, e: Event): T.Head
    requires e.PublicHead?
  {
    T.Head(M.Bridge(env.token, EthPools(s.pools.caches.pub), env.unpack), e.number, e.block)
  }

  predicate HasTwoPools(answer: R.Answer) {
    answer.Some? && |answer.value| == 2
  }

  /** What the event is for the caches and the drain jobs. */
  function PoolPart(e: Event): seq<D.Event> {
    match e
    case JoltifyBlock(height, answer, outcome, _) => [D.JoltifyBlock(height, answer, outcome)]
    case PublicHead(number, _, outcome, _) => [D.PublicHead(number, outcome)]
    case _ => []
  }

  /** What it is for the inbound side; a block without two pools stops before the retry. */
  function InboundPart(env: Env, s: State, e: Event): seq<I.Event> {
    match e
    case JoltifyBlock(_, answer, _, pick) => if HasTwoPools(answer) then [I.OnLife(I.Retry(pick))] else []
    case PublicHead(_, _, _, _) => [I.OnHead(HeadOf(env, s, e))]
    case InboundItem(mint) => [I.OnLife(I.Process(mint))]
    case InboundLater(checked) => [I.OnLife(checked)]
    case _ => []
  }

  /** What it is for the outbound side. */
  function OutboundPart(s: State, e: Event): seq<F.LifeEvent> {
    match e
    case JoltifyTx(hash, msgs) => [F.Intake(O.JoltTx(IntakePools(s.pools.caches.jolt), hash, msgs))]
    case PublicHead(_, _, _, retry) => [F.Retry(retry)]
    case OutboundItem(pay) => [F.Process(pay)]
    case OutboundLater(settled) => [settled]
    case _ => []
  }

  ghost function Step(env: Env, s: State, e: Event): State {
    State(D.Run(s.pools, env.decode, PoolPart(e)),
          I.RunAll(env.keccak, s.inbound, InboundPart(env, s, e)),
          F.RunAll(s.outbound, OutboundPart(s, e)))
  }

  /** The pool that signs: the latest one cached, on either side. */
  predicate SignsInbound(c: R.Caches, mint: I.Answer) {
    mint.Looked? ==> c.jolt.latest.Some? && mint.signer == c.jolt.latest.value.joltAddress
  }

  predicate SignsOutbound(c: R.Caches, pay: F.Answer) {
    pay.Submitted? ==> c.pub.latest.Some? && pay.signer == c.pub.latest.value.ethAddress
  }

  /** When the event can happen. */
  ghost predicate Enabled(env: Env, s: State, e: Event) {
    && I.Legal(env.keccak, s.inbound, InboundPart(env, s, e))
    && F.Legal(s.outbound, OutboundPart(s, e))
    && (e.InboundItem? ==> SignsInbound(s.pools.caches, e.mint))
    && (e.OutboundItem? ==> SignsOutbound(s.pools.caches, e.pay))
    && (e.InboundLater? ==> e.checked.Status? || e.checked.Land? || e.checked.Advance?)
    && (e.OutboundLater? ==> e.settled.Checked? || e.settled.Land? || e.settled.Advance?)
  }

  ghost function Run(env: Env, s: State, events: seq<Event>): State
    decreases |events|
  {
    if events == [] then s else Run(env, Step(env, s, events[0]), events[1..])
  }

  ghost predicate Legal(env: Env, s: State, events: seq<Event>)
    decreases |events|
  {
    events != [] ==> Enabled(env, s, events[0]) && Legal(env, Step(env, s, events[0]), events[1..])
  }

  // ---- The three parts of a run are runs of the three machines ----

  function PoolParts(events: seq<Event>): seq<D.Event> {
    if events == [] then [] else PoolPart(events[0]) + PoolParts(events[1..])
  }

  ghost function InboundParts(env: Env, s: State, events: seq<Event>): seq<I.Event>
    decreases |events|
  {
    if events == [] then []
    else InboundPart(env, s, events[0]) + InboundParts(env, Step(env, s, events[0]), events[1..])
  }

  ghost function OutboundParts(env: Env, s: State, events: seq<Event>): seq<F.LifeEvent>
    decreases |events|
  {
    if events == [] then []
    else OutboundPart(s, events[0]) + OutboundParts(env, Step(env, s, events[0]), events[1..])
  }

  lemma {:induction false} PoolsAppend(s: D.State, decode: R.Decoder, xs: seq<D.Event>, ys: seq<D.Event>)
    ensures D.Run(s, decode, xs + ys) == D.Run(D.Run(s, decode, xs), decode, ys)
    decreases |xs|
  {
    if xs == [] {
      assert xs + ys == ys;
    } else {
      assert (xs + ys)[0] == xs[0] && (xs + ys)[1..] == xs[1..] + ys;
      PoolsAppend(D.Step(s, decode, xs[0]), decode, xs[1..], ys);
    }
  }

  lemma {:induction false} InboundAppend(keccak: I.Hasher, s: I.Inbound, xs: seq<I.Event>, ys: seq<I.Event>)
    ensures I.RunAll(keccak, s, xs + ys) == I.RunAll(keccak, I.RunAll(keccak, s, xs), ys)
    ensures I.Legal(keccak, s, xs + ys) <==> I.Legal(keccak, s, xs) && I.Legal(keccak, I.RunAll(keccak, s, xs), ys)
    decreases |xs|
  {
    hide I.Step, I.StepEnabled;
    if xs == [] {
      assert xs + ys == ys;
    } else {
      assert (xs + ys)[0] == xs[0] && (xs + ys)[1..] == xs[1..] + ys;
      InboundAppend(keccak, I.Step(keccak, s, xs[0]), xs[1..], ys);
    }
  }

  lemma {:induction false} OutboundAppend(l: F.Life, xs: seq<F.LifeEvent>, ys: seq<F.LifeEvent>)
    ensures F.RunAll(l, xs + ys) == F.RunAll(F.RunAll(l, xs), ys)
    ensures F.Legal(l, xs + ys) <==> F.Legal(l, xs) && F.Legal(F.RunAll(l, xs), ys)
    decreases |xs|
  {
    hide F.LifeStep, F.Enabled;
    if xs == [] {
      assert xs + ys == ys;
    } else {
      assert (xs + ys)[0] == xs[0] && (xs + ys)[1..] == xs[1..] + ys;
      OutboundAppend(F.LifeStep(l, xs[0]), xs[1..], ys);
    }
  }

  /**
   * What every theorem about one part says holds of the whole: a run of the event loop is, on each part, a legal run of
   * that part's machine, with the pools cached at the time where that machine leaves them open.
   */
  lemma {:induction false} PartsAreRuns(env: Env, s: State, events: seq<Event>)
    requires Legal(env, s, events)
    ensures var s' := Run(env, s, events);
            && s'.pools == D.Run(s.pools, env.decode, PoolParts(events))
            && s'.inbound == I.RunAll(env.keccak, s.inbound, InboundParts(env, s, events))
            && s'.outbound == F.RunAll(s.outbound, OutboundParts(env, s, events))
    ensures I.Legal(env.keccak, s.inbound, InboundParts(env, s, events))
    ensures F.Legal(s.outbound, OutboundParts(env, s, events))
    decreases |events|
  {
    hide InboundPart, OutboundPart, PoolPart, D.Run, I.RunAll, I.Legal, F.RunAll, F.Legal;
    if events == [] {
      NoParts(env, s);
    } else {
      var e, s1, rest := events[0], Step(env, s, events[0]), events[1..];
      PartsAreRuns(env, s1, rest);
      PoolsAppend(s.pools, env.decode, PoolPart(e), PoolParts(rest));
      InboundAppend(env.keccak, s.inbound, InboundPart(env, s, e), InboundParts(env, s1, rest));
      OutboundAppend(s.outbound, OutboundPart(s, e), OutboundParts(env, s1, rest));
    }
  }

  lemma NoParts(env: Env, s: State)
    ensures D.Run(s.pools, env.decode, []) == s.pools
    ensures I.RunAll(env.keccak, s.inbound, []) == s.inbound && I.Legal(env.keccak, s.inbound, [])
    ensures F.RunAll(s.outbound, []) == s.outbound && F.Legal(s.outbound, [])
  {
  }

  // ---- No handler reads a pool that is not cached ----

  /** The event makes its handler read the latest pool: it has a request or a drain job in hand. */
  ghost predicate ReadsLatest(env: Env, s: State, e: Event) {
    || (e.InboundItem? && s.inbound.life.channel != [])
    || (e.OutboundItem? && s.outbound.channel != [])
    || (e.PublicHead? && S.PopAfter(s.pools.pub.jobs, e.number).Some?)
  }

  ghost predicate Cached(c: R.Caches) {
    c.pub.latest.Some? && c.jolt.latest.Some?
  }

  /** Before the first pool is cached there is nothing to work on. */
  ghost predicate Idle(s: State) {
    && s.inbound.matcher == M.EMPTY && I.Everywhere(s.inbound.life) == multiset{}
    && F.Everywhere(s.outbound) == multiset{}
    && s.pools.jolt.jobs == map[] && s.pools.pub.jobs == map[]
  }

  ghost predicate WorkHasPools(s: State) {
    R.Coherent(s.pools.caches) && (Cached(s.pools.caches) || Idle(s))
  }

  lemma PoolsOne(s: D.State, decode: R.Decoder, e: D.Event)
    ensures D.Run(s, decode, [e]) == D.Step(s, decode, e)
  {
    assert [e][1..] == [];
  }

  lemma InboundOne(keccak: I.Hasher, s: I.Inbound, e: I.Event)
    ensures I.RunAll(keccak, s, [e]) == I.Step(keccak, s, e)
    ensures I.Legal(keccak, s, [e]) <==> I.StepEnabled(keccak, s, e)
  {
    hide I.Step, I.StepEnabled;
    assert [e][1..] == [];
  }

  lemma OutboundOne(l: F.Life, e: F.LifeEvent)
    ensures F.RunAll(l, [e]) == F.LifeStep(l, e)
    ensures F.Legal(l, [e]) <==> F.Enabled(l, e)
  {
    hide F.LifeStep, F.Enabled;
    assert [e][1..] == [];
  }

  /** Caching pools never empties a slot, and a job comes only from a full cache. */
  lemma PoolsKeepCached(s: D.State, decode: R.Decoder, e: D.Event)
    requires R.Coherent(s.caches)
    ensures var s' := D.Step(s, decode, e);
            && R.Coherent(s'.caches)
            && (Cached(s.caches) ==> Cached(s'.caches))
            && (!Cached(s.caches) && s.jolt.jobs == map[] && s.pub.jobs == map[]
                ==> s'.jolt.jobs == map[] && s'.pub.jobs == map[])
  {
    hide S.PopAfter, S.Run;
    match e
    case JoltifyBlock(height, answer, outcome) =>
      R.CachesAgree(s.caches, decode, [answer]);
      assert [answer][1..] == [];
      var r := R.OnAnswer(s.caches, decode, answer);
      S.BlockSteps(s.jolt, height, r.retired, outcome);
    case PublicHead(height, outcome) =>
      if s.pub.jobs == map[] {
        NothingToDrain(S.Step(s.pub, S.Tick(height)), outcome);
      }
  }

  lemma NothingToDrain(s: S.Side, outcome: S.Outcome)
    requires s.jobs == map[]
    ensures S.Step(s, S.Drain(outcome)) == s
  {
  }

  /** Without a pool no transaction counts: the matcher stays empty and releases nothing. */
  lemma {:induction false} NoPoolNoEvents(s: M.State, b: M.Bridge, txs: seq<M.Tx>, height: nat)
    requires b.pools == {}
    ensures M.BlockEvents(s, b, txs, height) == []
    decreases |txs|
  {
    if txs == [] {
    } else {
      assert M.TxEvents(s, b, txs[0], height) == [];
      NoPoolNoEvents(s, b, txs[1..], height);
    }
  }

  lemma NoPoolHead(keccak: I.Hasher, s: I.Inbound, h: T.Head)
    requires h.bridge.pools == {} && s.matcher == M.EMPTY
    ensures I.Step(keccak, s, I.OnHead(h)).matcher == M.EMPTY && I.Step(keccak, s, I.OnHead(h)).life == s.life
  {
    if h.block.Some? {
      NoPoolNoEvents(s.matcher, h.bridge, h.block.value, h.number);
    }
    var events := M.HeadEvents(s.matcher, h.bridge, h.number, h.block);
    assert events == [M.ExpireEvent(h.number)];
    M.RunOne(s.matcher, events[0]);
    assert M.DeleteExpired(M.EMPTY, h.number).pending == map[] && M.DeleteExpired(M.EMPTY, h.number).early == map[];
  }

  /** Without requests the inbound side stays without. */
  lemma IdleInbound(env: Env, s: State, e: Event)
    requires WorkHasPools(s) && !Cached(s.pools.caches) && Enabled(env, s, e)
    ensures var inbound := I.RunAll(env.keccak, s.inbound, InboundPart(env, s, e));
            inbound.matcher == M.EMPTY && I.Everywhere(inbound.life) == multiset{}
  {
    hide I.Step, I.StepEnabled, I.Everywhere, I.Legal, I.RunAll;
    var part := InboundPart(env, s, e);
    if part == [] {
      NoParts(env, s);
    } else {
      InboundOne(env.keccak, s.inbound, part[0]);
      if e.PublicHead? {
        assert EthPools(s.pools.caches.pub) == {};
        NoPoolHead(env.keccak, s.inbound, part[0].head);
      } else {
        IdleLife(env.keccak, s.inbound, part[0].life);
      }
    }
  }

  lemma IdleLife(keccak: I.Hasher, s: I.Inbound, e: I.LifeEvent)
    requires I.StepEnabled(keccak, s, I.OnLife(e)) && I.Everywhere(s.life) == multiset{}
    ensures var s' := I.Step(keccak, s, I.OnLife(e));
            s'.matcher == s.matcher && I.Everywhere(s'.life) == multiset{}
  {
    I.StepKeepsRequests(keccak, s.life, e);
  }

  lemma IdleOutbound(env: Env, s: State, e: Event)
    requires WorkHasPools(s) && !Cached(s.pools.caches) && Enabled(env, s, e)
    ensures F.Everywhere(F.RunAll(s.outbound, OutboundPart(s, e))) == multiset{}
  {
    hide F.LifeStep, F.Enabled, F.Everywhere, F.Legal, F.RunAll;
    var part := OutboundPart(s, e);
    if part == [] {
      NoParts(env, s);
    } else {
      OutboundOne(s.outbound, part[0]);
      F.StepKeepsRequests(s.outbound, part[0]);
      assert F.Taken(part[0]) == [];
      F.NoIntake(s.outbound.made);
    }
  }

  lemma StepKeepsWorkHasPools(env: Env, s: State, e: Event)
    requires WorkHasPools(s) && Enabled(env, s, e)
    ensures WorkHasPools(Step(env, s, e))
  {
    var part := PoolPart(e);
    if part == [] {
      NoParts(env, s);
    } else {
      PoolsOne(s.pools, env.decode, part[0]);
      PoolsKeepCached(s.pools, env.decode, part[0]);
    }
    if !Cached(s.pools.caches) {
      IdleInbound(env, s, e);
      IdleOutbound(env, s, e);
    }
    hide InboundPart, OutboundPart, PoolPart, D.Run, I.RunAll, F.RunAll, I.Everywhere, F.Everywhere, R.Coherent, D.Step;
  }

  lemma {:induction false} RunKeepsWorkHasPools(env: Env, s: State, events: seq<Event>)
    requires WorkHasPools(s) && Legal(env, s, events)
    ensures WorkHasPools(Run(env, s, events))
    decreases |events|
  {
    hide WorkHasPools, Step, Enabled;
    if events == [] {
    } else {
      StepKeepsWorkHasPools(env, s, events[0]);
      RunKeepsWorkHasPools(env, Step(env, s, events[0]), events[1..]);
    }
  }

  lemma IdleReadsNothing(env: Env, s: State, e: Event)
    requires Idle(s)
    ensures !ReadsLatest(env, s, e)
  {
  }

  /**
   * Over every run of the event loop: whoever reads the latest pool finds one, in both caches, and the same in both.
   */
  lemma NoNilPool(env: Env, events: seq<Event>, e: Event)
    requires Legal(env, START, events) && ReadsLatest(env, Run(env, START, events), e)
    ensures var c := Run(env, START, events).pools.caches;
            c.pub.latest.Some? && c.jolt.latest == c.pub.latest
  {
    assert WorkHasPools(START) by {
      assert I.Everywhere(I.NEWBORN) == multiset{} && F.Everywhere(F.NEWBORN) == multiset{};
    }
    RunKeepsWorkHasPools(env, START, events);
    var s := Run(env, START, events);
    if Idle(s) {
      IdleReadsNothing(env, s, e);
    }
  }

  // ---- Who signs a transfer ----

  /** The address of the latest pool when each outbound request was made, in the order of intake. */
  ghost function IntakeSenders(env: Env, s: State, events: seq<Event>): seq<Address>
    decreases |events|
  {
    if events == [] then []
    else SendersOf(s, events[0]) + IntakeSenders(env, Step(env, s, events[0]), events[1..])
  }

  function Repeated(a: Address, n: nat): seq<Address> {
    seq(n, _ => a)
  }

  /** The latest pool's address, once for each request the event makes. */
  function SendersOf(s: State, e: Event): seq<Address> {
    if e.JoltifyTx? && IntakePools(s.pools.caches.jolt).Some?
    then Repeated(s.pools.caches.jolt.latest.value.ethAddress, |TakenBy(s, e)|) else []
  }

  function TakenBy(s: State, e: Event): seq<O.Request> {
    if e.JoltifyTx? then O.CheckOutBoundTx(O.JoltTx(IntakePools(s.pools.caches.jolt), e.hash, e.msgs)) else []
  }

  function Senders(rs: seq<O.Request>): seq<Address> {
    seq(|rs|, i requires 0 <= i < |rs| => rs[i].fromPool)
  }

  lemma SendersAppend(xs: seq<O.Request>, ys: seq<O.Request>)
    ensures Senders(xs + ys) == Senders(xs) + Senders(ys)
    ensures Senders([]) == []
  {
  }

  lemma {:induction false} MsgsFromPool(pools: O.Pools, hash: Bytes, msgs: seq<O.Msg>)
    ensures Senders(O.ProcessMsgs(pools, hash, msgs)) == Repeated(pools.ethAddress, |O.ProcessMsgs(pools, hash, msgs)|)
  {
    if msgs == [] {
    } else {
      MsgsFromPool(pools, hash, msgs[1..]);
      var first, rest := O.Admitted(pools, hash, msgs[0]), O.ProcessMsgs(pools, hash, msgs[1..]);
      AdmittedFromPool(pools, hash, msgs[0]);
      hide O.ProcessMsg, O.Admitted;
      SendersAppend(first, rest);
      assert Repeated(pools.ethAddress, |first| + |rest|)
          == Repeated(pools.ethAddress, |first|) + Repeated(pools.ethAddress, |rest|);
    }
  }

  lemma AdmittedFromPool(pools: O.Pools, hash: Bytes, msg: O.Msg)
    ensures Senders(O.Admitted(pools, hash, msg)) == Repeated(pools.ethAddress, |O.Admitted(pools, hash, msg)|)
  {
  }

  lemma TakenFromPool(s: State, e: Event)
    ensures Senders(TakenBy(s, e)) == SendersOf(s, e)
  {
    if e.JoltifyTx? && e.msgs.Some? && IntakePools(s.pools.caches.jolt).Some? {
      MsgsFromPool(IntakePools(s.pools.caches.jolt).value, e.hash, e.msgs.value);
    }
  }

  lemma IntakeOfPart(s: State, e: Event)
    requires e.OutboundLater? ==> !e.settled.Intake?
    ensures O.IntakeOf(F.TxsOf(OutboundPart(s, e))) == TakenBy(s, e)
  {
    hide O.CheckOutBoundTx;
    var part := OutboundPart(s, e);
    if part == [] {
      F.NoIntake(0);
    } else {
      F.IntakeCons(part);
      assert part[1..] == [];
      F.NoIntake(0);
      assert TakenBy(s, e) + [] == TakenBy(s, e);
    }
  }

  lemma {:induction false} TxsAppend(xs: seq<F.LifeEvent>, ys: seq<F.LifeEvent>)
    ensures O.IntakeOf(F.TxsOf(xs + ys)) == O.IntakeOf(F.TxsOf(xs)) + O.IntakeOf(F.TxsOf(ys))
    decreases |xs|
  {
    hide O.IntakeOf, F.TxsOf;
    F.NoIntake(0);
    if xs == [] {
      assert xs + ys == ys && [] + O.IntakeOf(F.TxsOf(ys)) == O.IntakeOf(F.TxsOf(ys));
    } else {
      assert (xs + ys)[0] == xs[0] && (xs + ys)[1..] == xs[1..] + ys;
      F.IntakeCons(xs);
      F.IntakeCons(xs + ys);
      TxsAppend(xs[1..], ys);
      var a, b, c := F.Taken(xs[0]), O.IntakeOf(F.TxsOf(xs[1..])), O.IntakeOf(F.TxsOf(ys));
      assert a + (b + c) == (a + b) + c;
    }
  }

  /** The senders of all requests made are the latest pools at their intakes. */
  lemma {:induction false} SendersAreIntakePools(env: Env, s: State, events: seq<Event>)
    requires Legal(env, s, events)
    ensures Senders(O.IntakeOf(F.TxsOf(OutboundParts(env, s, events)))) == IntakeSenders(env, s, events)
    decreases |events|
  {
    hide Step, Enabled, OutboundPart, O.IntakeOf, F.TxsOf, SendersOf, TakenBy, Senders;
    if events == [] {
      F.NoIntake(0);
      SendersAppend([], []);
    } else {
      var e, s', rest := events[0], Step(env, s, events[0]), events[1..];
      EnabledTakesNoOther(env, s, e);
      IntakeOfPart(s, e);
      TakenFromPool(s, e);
      SendersAreIntakePools(env, s', rest);
      TxsAppend(OutboundPart(s, e), OutboundParts(env, s', rest));
      SendersAppend(TakenBy(s, e), O.IntakeOf(F.TxsOf(OutboundParts(env, s', rest))));
    }
  }

  lemma EnabledTakesNoOther(env: Env, s: State, e: Event)
    requires Enabled(env, s, e)
    ensures e.OutboundLater? ==> !e.settled.Intake?
  {
  }

  lemma NumberedIsAsked(asked: seq<O.Request>, x: F.Item)
    requires x in F.Numbered(0, asked)
    ensures x.key < |asked| && asked[x.key] == x.item
  {
    var i :| 0 <= i < |asked| && F.Numbered(0, asked)[i] == x;
  }

  /** Wherever an outbound request is, it names as sender the pool that was the latest one when it was made. */
  lemma SentFromIntakePool(env: Env, events: seq<Event>, x: F.Item)
    requires Legal(env, START, events) && x in F.Everywhere(Run(env, START, events).outbound)
    ensures x.key < |IntakeSenders(env, START, events)| && x.item.fromPool == IntakeSenders(env, START, events)[x.key]
  {
    PartsAreRuns(env, START, events);
    SendersAreIntakePools(env, START, events);
    var parts := OutboundParts(env, START, events);
    F.EveryRequestInOnePlace(F.NEWBORN, parts);
    var asked := O.IntakeOf(F.TxsOf(parts));
    assert F.Everywhere(F.NEWBORN) == multiset{};
    hide F.Everywhere, F.Numbered, Legal, Run, F.RunAll;
    assert x in multiset(F.Numbered(0, asked));
    NumberedIsAsked(asked, x);
  }

  /**
   * A transfer is signed by the pool it names as sender exactly if the latest pool has the address of the one that was
   * latest when the request was made.
   */
  lemma SenderSignsIff(env: Env, events: seq<Event>, e: Event)
    requires Legal(env, START, events) && Enabled(env, Run(env, START, events), e)
    requires e.OutboundItem? && e.pay.Submitted?
    ensures var s, senders := Run(env, START, events), IntakeSenders(env, START, events);
            && s.outbound.channel != [] && s.pools.caches.pub.latest.Some? && s.outbound.channel[0].key < |senders|
            && (s.outbound.channel[0].item.fromPool == e.pay.signer
                <==> senders[s.outbound.channel[0].key] == s.pools.caches.pub.latest.value.ethAddress)
  {
    var s := Run(env, START, events);
    OutboundOne(s.outbound, F.Process(e.pay));
    var x := s.outbound.channel[0];
    assert x in F.Everywhere(s.outbound);
    hide F.Everywhere, Run, Legal;
    SentFromIntakePool(env, events, x);
  }

  // ---- One pool, no double mint ----

  /** Every mint of the run is signed by this account. */
  ghost predicate SignerStays(env: Env, s: State, events: seq<Event>, account: Address)
    decreases |events|
  {
    events != [] ==>
      && (events[0].InboundItem? && events[0].mint.Looked? ==>
            s.pools.caches.jolt.latest.Some? && s.pools.caches.jolt.latest.value.joltAddress == account)
      && SignerStays(env, Step(env, s, events[0]), events[1..], account)
  }

  ghost predicate SignsAs(account: Address, e: I.Event) {
    e.OnLife? && e.life.Process? && e.life.answer.Looked? ==> e.life.answer.signer == account
  }

  lemma PartSignsAs(env: Env, s: State, e: Event, account: Address)
    requires Enabled(env, s, e)
    requires e.InboundItem? && e.mint.Looked? ==>
               s.pools.caches.jolt.latest.Some? && s.pools.caches.jolt.latest.value.joltAddress == account
    ensures forall x :: x in InboundPart(env, s, e) ==> SignsAs(account, x)
  {
  }

  lemma {:induction false} PartsSignAs(env: Env, s: State, events: seq<Event>, account: Address)
    requires Legal(env, s, events) && SignerStays(env, s, events, account)
    ensures forall x :: x in InboundParts(env, s, events) ==> SignsAs(account, x)
    decreases |events|
  {
    hide Step, Enabled, InboundPart, SignsAs;
    if events == [] {
    } else {
      PartSignsAs(env, s, events[0], account);
      PartsSignAs(env, Step(env, s, events[0]), events[1..], account);
    }
  }

  /**
   * While the latest pool stays, at least whenever a mint is signed, and queries and lookups tell the truth, the whole
   * event loop never comes to a point where an index could be minted twice.
   */
  lemma NoRotationMintsOnce(env: Env, events: seq<Event>, account: Address)
    requires Legal(env, START, events) && SignerStays(env, START, events, account)
    requires I.Honest(env.keccak, I.START, InboundParts(env, START, events))
    ensures Sub.NeverCanMintTwice(env.keccak, I.START, InboundParts(env, START, events))
    ensures RecordedOnce(Run(env, START, events).inbound.life.chain.recorded)
  {
    PartsAreRuns(env, START, events);
    PartsSignAs(env, START, events, account);
    var parts := InboundParts(env, START, events);
    assert forall x :: x in parts && x.OnLife? && x.life.Process? && x.life.answer.Looked? ==> SignsAs(account, x);
    assert Sub.SignedBy(account, I.NEWBORN.chain, parts);
    Sub.OnePoolMintsOnce(env.keccak, I.START, parts, account);
  }
}
