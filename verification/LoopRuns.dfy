/** A run of the whole event loop, with every answer truthful, in which a rotation mints one deposit twice. */
module LoopRuns {
  import opened Wrappers
  import opened ByteTypes
  import opened Landing
  import opened EventLoop
  import opened LoopLaws
  import D = Draining
  import DR = DrainRuns
  import DM = DoubleMints
  import ER = EventRuns
  import S = Scheduler
  import R = Rotation
  import I = InboundFlow
  import F = OutboundFlow
  import M = MatcherSpec
  import T = MatcherTheorems

  function Whole(pools: D.State, inbound: I.Inbound): State {
    State(pools, inbound, F.NEWBORN)
  }

  lemma BlockGoes(env: Env, pools: D.State, inbound: I.Inbound, height: int, keys: seq<string>, outcome: S.Outcome,
                  pick: Option<M.Request>)
    requires |keys| == 2 && I.StepEnabled(env.keccak, inbound, I.OnLife(I.Retry(pick)))
    ensures ER.Goes(env, Whole(pools, inbound), JoltifyBlock(height, Some(keys), outcome, pick),
                    Whole(D.Step(pools, env.decode, D.JoltifyBlock(height, Some(keys), outcome)),
                          I.Step(env.keccak, inbound, I.OnLife(I.Retry(pick)))))
  {
    hide D.Step, I.Step, I.StepEnabled, D.Run, I.RunAll, I.Legal, F.RunAll, F.Legal;
    InboundOne(env.keccak, inbound, I.OnLife(I.Retry(pick)));
    PoolsOne(pools, env.decode, D.JoltifyBlock(height, Some(keys), outcome));
    NoParts(env, Whole(pools, inbound));
  }

  lemma HeadGoes(env: Env, pools: D.State, p: DM.Payment, height: nat, outcome: S.Outcome)
    requires DM.Fits(Known(env, Whole(pools, I.START)), p)
    ensures var b := Known(env, Whole(pools, I.START));
            ER.Goes(env, Whole(pools, I.START),
                    PublicHead(height, Some([DM.FeeTx(p), DM.DepositTx(b, p)]), outcome, None),
                    Whole(D.Step(pools, env.decode, D.PublicHead(height, outcome)),
                          DM.Queued(DM.RequestOf(p), false, I.NEWBORN.chain)))
  {
    hide D.Step, I.Step, I.StepEnabled, D.Run, I.RunAll, I.Legal, F.RunAll, F.Legal, DM.Fits, DM.Queued;
    var s, b := Whole(pools, I.START), Known(env, Whole(pools, I.START));
    AddressesAre(pools.caches.pub);
    DM.HeadQueues(env.keccak, b, p, height);
    InboundOne(env.keccak, I.START, I.OnHead(DM.PaymentHead(b, p, height)));
    OutboundOne(F.NEWBORN, F.Retry(None));
    PoolsOne(pools, env.decode, D.PublicHead(height, outcome));
  }

  lemma MintGoes(env: Env, pools: D.State, inbound: I.Inbound, mint: I.Answer, inbound': I.Inbound)
    requires DM.Goes(env.keccak, inbound, I.Process(mint), inbound') && SignsInbound(pools.caches, mint)
    ensures ER.Goes(env, Whole(pools, inbound), InboundItem(mint), Whole(pools, inbound'))
  {
    hide I.LifeStep, I.Enabled, D.Run, I.RunAll, I.Legal, F.RunAll, F.Legal;
    InboundOne(env.keccak, inbound, I.OnLife(I.Process(mint)));
    NoParts(env, Whole(pools, inbound));
  }

  lemma LandGoes(env: Env, pools: D.State, inbound: I.Inbound, inbound': I.Inbound)
    requires DM.Goes(env.keccak, inbound, I.Land(0), inbound')
    ensures ER.Goes(env, Whole(pools, inbound), InboundLater(I.Land(0)), Whole(pools, inbound'))
  {
    hide I.LifeStep, I.Enabled, D.Run, I.RunAll, I.Legal, F.RunAll, F.Legal;
    InboundOne(env.keccak, inbound, I.OnLife(I.Land(0)));
    NoParts(env, Whole(pools, inbound));
  }

  // ---- The pools of the run ----

  /** Filled and repaired at blocks 1 and 2. */
  ghost function Filled(decode: R.Decoder, a: string, b: string, o: S.Outcome): D.State {
    D.Step(D.Step(D.START, decode, D.JoltifyBlock(1, Some([b, a]), o)), decode, D.JoltifyBlock(2, Some([b, a]), o))
  }

  /** The head that brings the payment. */
  ghost function Headed(decode: R.Decoder, a: string, b: string, o: S.Outcome, height: nat): D.State {
    D.Step(Filled(decode, a, b, o), decode, D.PublicHead(height, S.Empty))
  }

  /** Rotated at block 3. */
  ghost function Rotated(decode: R.Decoder, a: string, b: string, c: string, o: S.Outcome, height: nat): D.State {
    D.Step(Headed(decode, a, b, o, height), decode, D.JoltifyBlock(3, Some([c, b]), S.Empty))
  }

  ghost predicate ThreePools(decode: R.Decoder, a: string, b: string, c: string) {
    && R.Faithful(decode, {a, b, c}) && a !in {b, c} && b != c
    && decode(a).Some? && decode(b).Some? && decode(c).Some?
  }

  lemma CachesAre(decode: R.Decoder, a: string, b: string, c: string, o: S.Outcome, height: nat)
    requires ThreePools(decode, a, b, c)
    ensures Filled(decode, a, b, o).caches == DR.PairOf(decode(a).value, decode(b).value)
    ensures Headed(decode, a, b, o, height).caches == DR.PairOf(decode(a).value, decode(b).value)
    ensures Rotated(decode, a, b, c, o, height).caches == DR.PairOf(decode(b).value, decode(c).value)
  {
    var ba, cb := R.Pair(b, a), R.Pair(c, b);
    assert ba.Keys() == [b, a] && cb.Keys() == [c, b];
    DR.FillTwice(decode, ba, o);
    ER.HeadKeepsCaches(Filled(decode, a, b, o), decode, height, S.Empty);
    DR.Rotates(Headed(decode, a, b, o, height), decode, ba, cb, 3, S.Empty);
    hide D.Step;
  }

  // ---- The run ----

  function Bridge(env: Env, a: string, b: string): M.Bridge
    requires env.decode(a).Some? && env.decode(b).Some?
  {
    M.Bridge(env.token, {env.decode(a).value.ethAddress, env.decode(b).value.ethAddress}, env.unpack)
  }

  /** Before the rotation: filled twice, the payment's head, and a mint nobody reports. */
  function Before(env: Env, a: string, b: string, o: S.Outcome, p: DM.Payment, height: nat): seq<Event>
    requires env.decode(a).Some? && env.decode(b).Some?
  {
    [JoltifyBlock(1, Some([b, a]), o, None)] + ([JoltifyBlock(2, Some([b, a]), o, None)]
    + ([PublicHead(height, Some([DM.FeeTx(p), DM.DepositTx(Bridge(env, a, b), p)]), S.Empty, None)]
    + [InboundItem(I.Looked(false, env.decode(b).value.joltAddress, 0, true, false))]))
  }

  /** The block that rotates and retries, a mint by the new pool, and both submissions land. */
  function After(env: Env, b: string, c: string, r: M.Request): seq<Event>
    requires env.decode(c).Some?
  {
    [JoltifyBlock(3, Some([c, b]), S.Empty, Some(r))]
    + ([InboundItem(I.Looked(false, env.decode(c).value.joltAddress, 0, true, true))]
    + ([InboundLater(I.Land(0))] + ([InboundLater(I.Land(0))] + [])))
  }

  /** The request in the bag, its submission in flight. */
  function Pending(env: Env, r: M.Request, a: Address, a': Address): I.Inbound
    requires a != a'
  {
    DM.Queued(r, true, DM.RotationChains(Record(I.Index(env.keccak, r), r), a, a').0)
  }

  lemma FillsGo(env: Env, a: string, b: string, o: S.Outcome)
    ensures var p1 := D.Step(D.START, env.decode, D.JoltifyBlock(1, Some([b, a]), o));
            && ER.Goes(env, START, JoltifyBlock(1, Some([b, a]), o, None), Whole(p1, I.START))
            && ER.Goes(env, Whole(p1, I.START), JoltifyBlock(2, Some([b, a]), o, None),
                    Whole(Filled(env.decode, a, b, o), I.START))
  {
    hide ER.Goes, D.Step;
    assert START == Whole(D.START, I.START);
    ER.NothingToRetry(env.keccak);
    BlockGoes(env, D.START, I.START, 1, [b, a], o, None);
    BlockGoes(env, D.Step(D.START, env.decode, D.JoltifyBlock(1, Some([b, a]), o)), I.START, 2, [b, a], o, None);
  }

  lemma PaymentGoes(env: Env, a: string, b: string, c: string, o: S.Outcome, p: DM.Payment, height: nat)
    requires ThreePools(env.decode, a, b, c) && DM.Fits(Bridge(env, a, b), p)
    ensures ER.Goes(env, Whole(Filled(env.decode, a, b, o), I.START),
                    PublicHead(height, Some([DM.FeeTx(p), DM.DepositTx(Bridge(env, a, b), p)]), S.Empty, None),
                    Whole(Headed(env.decode, a, b, o, height), DM.Queued(DM.RequestOf(p), false, I.NEWBORN.chain)))
  {
    CachesAre(env.decode, a, b, c, o, height);
    var s := Whole(Filled(env.decode, a, b, o), I.START);
    AddressesAre(s.pools.caches.pub);
    assert Known(env, s) == Bridge(env, a, b);
    hide ER.Goes, DM.Fits, Filled;
    HeadGoes(env, s.pools, p, height, S.Empty);
  }

  lemma FirstMintGoes(env: Env, pools: D.State, r: M.Request, a: Address, a': Address)
    requires a != a' && pools.caches.jolt.latest.Some? && pools.caches.jolt.latest.value.joltAddress == a
    ensures ER.Goes(env, Whole(pools, DM.Queued(r, false, I.NEWBORN.chain)),
                    InboundItem(I.Looked(false, a, 0, true, false)),
                    Whole(pools, Pending(env, r, a, a')))
  {
    hide ER.Goes, DM.Goes, DM.Queued;
    DM.LooksGoes(env.keccak, r, I.NEWBORN.chain, a, 0, false);
    MintGoes(env, pools, DM.Queued(r, false, I.NEWBORN.chain), I.Looked(false, a, 0, true, false),
             Pending(env, r, a, a'));
  }

  /** Where the run is before the rotation. */
  ghost function Waiting(env: Env, a: string, b: string, c: string, o: S.Outcome, p: DM.Payment, height: nat): State
    requires ThreePools(env.decode, a, b, c)
  {
    var x, y := env.decode(b).value.joltAddress, env.decode(c).value.joltAddress;
    assert x != y;
    Whole(Headed(env.decode, a, b, o, height), Pending(env, DM.RequestOf(p), x, y))
  }

  lemma MintBefore(env: Env, a: string, b: string, c: string, o: S.Outcome, p: DM.Payment, height: nat)
    requires ThreePools(env.decode, a, b, c)
    ensures ER.Goes(env, Whole(Headed(env.decode, a, b, o, height),
                               DM.Queued(DM.RequestOf(p), false, I.NEWBORN.chain)),
                    InboundItem(I.Looked(false, env.decode(b).value.joltAddress, 0, true, false)),
                    Waiting(env, a, b, c, o, p, height))
  {
    hide ER.Goes, Headed, Filled, Pending, DM.Queued;
    CachesAre(env.decode, a, b, c, o, height);
    FirstMintGoes(env, Headed(env.decode, a, b, o, height), DM.RequestOf(p), env.decode(b).value.joltAddress,
                  env.decode(c).value.joltAddress);
  }

  lemma RunBefore(env: Env, a: string, b: string, c: string, o: S.Outcome, p: DM.Payment, height: nat,
                  events: seq<Event>)
    requires ThreePools(env.decode, a, b, c) && DM.Fits(Bridge(env, a, b), p)
    requires Legal(env, Waiting(env, a, b, c, o, p, height), events)
    ensures Legal(env, START, Before(env, a, b, o, p, height) + events)
    ensures Run(env, START, Before(env, a, b, o, p, height) + events)
            == Run(env, Waiting(env, a, b, c, o, p, height), events)
  {
    hide ER.Goes, Legal, Run, Filled, Headed, Waiting, DM.Fits, D.Step, DM.Queued;
    FillsGo(env, a, b, o);
    PaymentGoes(env, a, b, c, o, p, height);
    MintBefore(env, a, b, c, o, p, height);
    var e1, e2 := JoltifyBlock(1, Some([b, a]), o, None), JoltifyBlock(2, Some([b, a]), o, None);
    var e3 := PublicHead(height, Some([DM.FeeTx(p), DM.DepositTx(Bridge(env, a, b), p)]), S.Empty, None);
    var e4 := InboundItem(I.Looked(false, env.decode(b).value.joltAddress, 0, true, false));
    var s1 := Whole(D.Step(D.START, env.decode, D.JoltifyBlock(1, Some([b, a]), o)), I.START);
    var s2, s4 := Whole(Filled(env.decode, a, b, o), I.START), Waiting(env, a, b, c, o, p, height);
    var s3 := Whole(Headed(env.decode, a, b, o, height), DM.Queued(DM.RequestOf(p), false, I.NEWBORN.chain));
    ER.RunGoes(env, s3, e4, s4, events);
    ER.RunGoes(env, s2, e3, s3, [e4] + events);
    ER.RunGoes(env, s1, e2, s2, [e3] + ([e4] + events));
    ER.RunGoes(env, START, e1, s1, [e2] + ([e3] + ([e4] + events)));
    FourFirst(e1, e2, e3, e4, events);
  }

  lemma FourFirst<X>(a: X, b: X, c: X, d: X, xs: seq<X>)
    ensures ([a] + ([b] + ([c] + [d]))) + xs == [a] + ([b] + ([c] + ([d] + xs)))
  {
  }

  lemma RetryGoes(env: Env, a: string, b: string, c: string, o: S.Outcome, r: M.Request, height: nat, x: Address,
                  y: Address)
    requires x != y && I.Index(env.keccak, r) > 0
    ensures ER.Goes(env, Whole(Headed(env.decode, a, b, o, height), Pending(env, r, x, y)),
                    JoltifyBlock(3, Some([c, b]), S.Empty, Some(r)),
                    Whole(Rotated(env.decode, a, b, c, o, height),
                          DM.Queued(r, false, DM.RotationChains(Record(I.Index(env.keccak, r), r), x, y).0)))
  {
    var chain := DM.RotationChains(Record(I.Index(env.keccak, r), r), x, y).0;
    hide ER.Goes, D.Step, Headed;
    DM.RetryGoes(env.keccak, r, chain);
    BlockGoes(env, Headed(env.decode, a, b, o, height), DM.Queued(r, true, chain), 3, [c, b], S.Empty, Some(r));
  }

  lemma SecondMintGoes(env: Env, pools: D.State, r: M.Request, a: Address, a': Address)
    requires a != a' && pools.caches.jolt.latest.Some? && pools.caches.jolt.latest.value.joltAddress == a'
    ensures var rec := Record(I.Index(env.keccak, r), r);
            var cs := DM.RotationChains(rec, a, a');
            && ER.Goes(env, Whole(pools, DM.Queued(r, false, cs.0)), InboundItem(I.Looked(false, a', 0, true, true)),
                    Whole(pools, DM.Checking(env.keccak, r, cs.1)))
            && ER.Goes(env, Whole(pools, DM.Checking(env.keccak, r, cs.1)), InboundLater(I.Land(0)),
                    Whole(pools, DM.Checking(env.keccak, r, cs.2)))
            && ER.Goes(env, Whole(pools, DM.Checking(env.keccak, r, cs.2)), InboundLater(I.Land(0)),
                    Whole(pools, DM.Checking(env.keccak, r, cs.3)))
  {
    var cs := DM.RotationChains(Record(I.Index(env.keccak, r), r), a, a');
    hide ER.Goes, DM.Goes, DM.Queued, DM.Checking;
    DM.LooksGoes(env.keccak, r, cs.0, a', 0, true);
    DM.LandGoes(env.keccak, r, true, cs.1);
    DM.LandGoes(env.keccak, r, true, cs.2);
    MintGoes(env, pools, DM.Queued(r, false, cs.0), I.Looked(false, a', 0, true, true),
             DM.Checking(env.keccak, r, cs.1));
    LandGoes(env, pools, DM.Checking(env.keccak, r, cs.1), DM.Checking(env.keccak, r, cs.2));
    LandGoes(env, pools, DM.Checking(env.keccak, r, cs.2), DM.Checking(env.keccak, r, cs.3));
  }

  lemma RunAfter(env: Env, a: string, b: string, c: string, o: S.Outcome, p: DM.Payment, height: nat)
    requires ThreePools(env.decode, a, b, c) && I.Index(env.keccak, DM.RequestOf(p)) > 0
    ensures var rec := Record(I.Index(env.keccak, DM.RequestOf(p)), DM.RequestOf(p));
            var s, events := Waiting(env, a, b, c, o, p, height), After(env, b, c, DM.RequestOf(p));
            Legal(env, s, events) && Run(env, s, events).inbound.life.chain.recorded == [rec, rec]
  {
    var r := DM.RequestOf(p);
    var x, y := env.decode(b).value.joltAddress, env.decode(c).value.joltAddress;
    assert x != y;
    var cs := DM.RotationChains(Record(I.Index(env.keccak, r), r), x, y);
    var pools := Rotated(env.decode, a, b, c, o, height);
    var last := Whole(pools, DM.Checking(env.keccak, r, cs.3));
    assert last.inbound.life.chain == cs.3;
    hide ER.Goes, Legal, Run, Headed, Rotated, Pending, ThreePools, DM.Queued, DM.Checking;
    CachesAre(env.decode, a, b, c, o, height);
    RetryGoes(env, a, b, c, o, r, height, x, y);
    SecondMintGoes(env, pools, r, x, y);
    var s1, s2 := Whole(pools, DM.Queued(r, false, cs.0)), Whole(pools, DM.Checking(env.keccak, r, cs.1));
    var s3 := Whole(pools, DM.Checking(env.keccak, r, cs.2));
    var mint, land := InboundItem(I.Looked(false, y, 0, true, true)), InboundLater(I.Land(0));
    ER.Stays(env, last);
    ER.RunGoes(env, s3, land, last, []);
    ER.RunGoes(env, s2, land, s3, [land] + []);
    ER.RunGoes(env, s1, mint, s2, [land] + ([land] + []));
    ER.RunGoes(env, Waiting(env, a, b, c, o, p, height), JoltifyBlock(3, Some([c, b]), S.Empty, Some(r)), s1,
            [mint] + ([land] + ([land] + [])));
  }

  /**
   * The whole event loop mints one deposit twice although no answer is false: the pool that signed a submission
   * nobody reported is rotated out before it lands, the block that rotates retries the request, and the new pool's
   * lookup finds nothing yet.
   */
  lemma RotationMintsTwice(env: Env, a: string, b: string, c: string, o: S.Outcome, p: DM.Payment, height: nat)
    requires ThreePools(env.decode, a, b, c) && DM.Fits(Bridge(env, a, b), p)
    requires I.Index(env.keccak, DM.RequestOf(p)) > 0
    ensures var events := Before(env, a, b, o, p, height) + After(env, b, c, DM.RequestOf(p));
            var rec := Record(I.Index(env.keccak, DM.RequestOf(p)), DM.RequestOf(p));
            Legal(env, START, events) && Run(env, START, events).inbound.life.chain.recorded == [rec, rec]
  {
    hide DM.Fits, Legal, Run, Before, After, Waiting;
    RunAfter(env, a, b, c, o, p, height);
    RunBefore(env, a, b, c, o, p, height, After(env, b, c, DM.RequestOf(p)));
  }
}
