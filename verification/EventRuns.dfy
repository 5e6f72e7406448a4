/** A run of the event loop after which a transfer is signed by another pool than the one it names as sender. */
module EventRuns {
  import opened Wrappers
  import opened ByteTypes
  import opened Landing
  import opened EventLoop
  import D = Draining
  import DR = DrainRuns
  import S = Scheduler
  import R = Rotation
  import I = InboundFlow
  import O = Outbound
  import F = OutboundFlow
  import P = Payments
  import M = MatcherSpec
  import T = MatcherTheorems

  ghost predicate Goes(env: Env, s: State, e: Event, s': State) {
    Enabled(env, s, e) && Step(env, s, e) == s'
  }

  lemma RunGoes(env: Env, s: State, e: Event, s': State, events: seq<Event>)
    requires Goes(env, s, e, s') && Legal(env, s', events)
    ensures Legal(env, s, [e] + events) && Run(env, s, [e] + events) == Run(env, s', events)
  {
    hide Enabled, Step;
    assert ([e] + events)[1..] == events;
  }

  lemma Stays(env: Env, s: State)
    ensures Legal(env, s, []) && Run(env, s, []) == s
  {
  }

  function With(pools: D.State, outbound: F.Life): State {
    State(pools, I.START, outbound)
  }

  lemma NothingToRetry(keccak: I.Hasher)
    ensures I.StepEnabled(keccak, I.START, I.OnLife(I.Retry(None)))
    ensures I.Step(keccak, I.START, I.OnLife(I.Retry(None))) == I.START
  {
  }

  lemma BlockGoes(env: Env, pools: D.State, outbound: F.Life, height: int, keys: seq<string>, outcome: S.Outcome)
    requires |keys| == 2
    ensures Goes(env, With(pools, outbound), JoltifyBlock(height, Some(keys), outcome, None),
                 With(D.Step(pools, env.decode, D.JoltifyBlock(height, Some(keys), outcome)), outbound))
  {
    hide D.Step, I.Step, I.StepEnabled, D.Run, I.RunAll, I.Legal, F.RunAll, F.Legal;
    var s, e := With(pools, outbound), JoltifyBlock(height, Some(keys), outcome, None);
    NothingToRetry(env.keccak);
    InboundOne(env.keccak, I.START, I.OnLife(I.Retry(None)));
    PoolsOne(pools, env.decode, D.JoltifyBlock(height, Some(keys), outcome));
    NoParts(env, s);
  }

  lemma TxGoes(env: Env, pools: D.State, hash: Bytes, msgs: Option<seq<O.Msg>>, r: O.Request)
    requires O.CheckOutBoundTx(O.JoltTx(IntakePools(pools.caches.jolt), hash, msgs)) == [r]
    ensures Goes(env, With(pools, F.NEWBORN), JoltifyTx(hash, msgs),
                 With(pools, P.InRetry(Record(0, r), F.NEWBORN.chain)))
  {
    var tx := O.JoltTx(IntakePools(pools.caches.jolt), hash, msgs);
    P.IntakeGoes(tx, r);
    hide F.LifeStep, F.Enabled, D.Run, I.RunAll, I.Legal, F.RunAll, F.Legal, O.CheckOutBoundTx;
    OutboundOne(F.NEWBORN, F.Intake(tx));
    NoParts(env, With(pools, F.NEWBORN));
  }

  lemma EmptyHead(keccak: I.Hasher, b: M.Bridge, number: nat)
    ensures I.StepEnabled(keccak, I.START, I.OnHead(T.Head(b, number, None)))
    ensures I.Step(keccak, I.START, I.OnHead(T.Head(b, number, None))) == I.START
  {
    var events := M.HeadEvents(M.EMPTY, b, number, None);
    assert events == [M.ExpireEvent(number)];
    M.RunOne(M.EMPTY, events[0]);
    assert M.DeleteExpired(M.EMPTY, number).pending == map[] && M.DeleteExpired(M.EMPTY, number).early == map[];
    assert I.Hashes(events) == {};
  }

  lemma HeadGoes(env: Env, pools: D.State, x: F.Item, number: nat, outcome: S.Outcome)
    ensures Goes(env, With(pools, P.InRetry(x, F.NEWBORN.chain)), PublicHead(number, None, outcome, Some(x)),
                 With(D.Step(pools, env.decode, D.PublicHead(number, outcome)), P.InChannel(x, F.NEWBORN.chain)))
  {
    var s, e := With(pools, P.InRetry(x, F.NEWBORN.chain)), PublicHead(number, None, outcome, Some(x));
    P.RetryGoes(x, F.NEWBORN.chain);
    hide F.LifeStep, F.Enabled, D.Step, I.Step, I.StepEnabled, D.Run, I.RunAll, I.Legal, F.RunAll, F.Legal;
    EmptyHead(env.keccak, HeadOf(env, s, e).bridge, number);
    InboundOne(env.keccak, I.START, I.OnHead(HeadOf(env, s, e)));
    OutboundOne(s.outbound, F.Retry(Some(x)));
    PoolsOne(pools, env.decode, D.PublicHead(number, outcome));
  }

  lemma SendEnabled(env: Env, pools: D.State, x: F.Item, pay: F.Answer)
    requires SignsOutbound(pools.caches, pay)
    ensures Enabled(env, With(pools, P.InChannel(x, F.NEWBORN.chain)), OutboundItem(pay))
  {
    hide D.Run, I.RunAll, F.RunAll;
    OutboundOne(P.InChannel(x, F.NEWBORN.chain), F.Process(pay));
  }

  /** The caches and jobs of the run: filled, repaired, rotated, and a head of the public chain. */
  ghost function PoolsAfter(decode: R.Decoder, a: string, b: string, c: string, o: S.Outcome, n: nat): D.State {
    if n == 0 then D.START
    else
      var before := PoolsAfter(decode, a, b, c, o, n - 1);
      if n <= 2 then D.Step(before, decode, D.JoltifyBlock(n, Some([b, a]), o))
      else if n == 3 then D.Step(before, decode, D.JoltifyBlock(3, Some([c, b]), S.Empty))
      else D.Step(before, decode, D.PublicHead(1, S.Empty))
  }

  lemma PoolsSteps(decode: R.Decoder, a: string, b: string, c: string, o: S.Outcome)
    ensures PoolsAfter(decode, a, b, c, o, 0) == D.START
    ensures PoolsAfter(decode, a, b, c, o, 1)
            == D.Step(PoolsAfter(decode, a, b, c, o, 0), decode, D.JoltifyBlock(1, Some([b, a]), o))
    ensures PoolsAfter(decode, a, b, c, o, 2)
            == D.Step(PoolsAfter(decode, a, b, c, o, 1), decode, D.JoltifyBlock(2, Some([b, a]), o))
    ensures PoolsAfter(decode, a, b, c, o, 3)
            == D.Step(PoolsAfter(decode, a, b, c, o, 2), decode, D.JoltifyBlock(3, Some([c, b]), S.Empty))
    ensures PoolsAfter(decode, a, b, c, o, 4)
            == D.Step(PoolsAfter(decode, a, b, c, o, 3), decode, D.PublicHead(1, S.Empty))
  {
    hide D.Step;
  }

  lemma CachesAfter(decode: R.Decoder, a: string, b: string, c: string, o: S.Outcome)
    requires R.Faithful(decode, {a, b, c}) && a !in {b, c} && b != c
    requires decode(a).Some? && decode(b).Some? && decode(c).Some?
    ensures PoolsAfter(decode, a, b, c, o, 2).caches == DR.PairOf(decode(a).value, decode(b).value)
    ensures PoolsAfter(decode, a, b, c, o, 4).caches == DR.PairOf(decode(b).value, decode(c).value)
  {
    var ba, cb := R.Pair(b, a), R.Pair(c, b);
    var p2, p3 := PoolsAfter(decode, a, b, c, o, 2), PoolsAfter(decode, a, b, c, o, 3);
    PoolsSteps(decode, a, b, c, o);
    hide PoolsAfter;
    assert ba.Keys() == [b, a] && cb.Keys() == [c, b];
    DR.FillTwice(decode, ba, o);
    assert p2 == D.State(DR.PairOf(decode(a).value, decode(b).value), S.START.(height := 2), S.START);
    DR.Rotates(p2, decode, ba, cb, 3, S.Empty);
    HeadKeepsCaches(p3, decode, 1, S.Empty);
    hide D.Step;
  }

  lemma HeadKeepsCaches(s: D.State, decode: R.Decoder, height: int, outcome: S.Outcome)
    ensures D.Step(s, decode, D.PublicHead(height, outcome)).caches == s.caches
  {
  }

  function RotationEvents(a: string, b: string, c: string, hash: Bytes, msgs: Option<seq<O.Msg>>, x: F.Item,
                          o: S.Outcome): seq<Event>
  {
    [JoltifyBlock(1, Some([b, a]), o, None), JoltifyBlock(2, Some([b, a]), o, None), JoltifyTx(hash, msgs),
     JoltifyBlock(3, Some([c, b]), S.Empty, None), PublicHead(1, None, S.Empty, Some(x))]
  }

  /** The request in the channel after the rotation. */
  ghost function Rotated(decode: R.Decoder, a: string, b: string, c: string, x: F.Item, o: S.Outcome): State {
    With(PoolsAfter(decode, a, b, c, o, 4), P.InChannel(x, F.NEWBORN.chain))
  }

  lemma RotationRuns(env: Env, a: string, b: string, c: string, hash: Bytes, msgs: Option<seq<O.Msg>>, r: O.Request,
                     o: S.Outcome)
    requires var pools := IntakePools(PoolsAfter(env.decode, a, b, c, o, 2).caches.jolt);
             O.CheckOutBoundTx(O.JoltTx(pools, hash, msgs)) == [r]
    ensures var events := RotationEvents(a, b, c, hash, msgs, Record(0, r), o);
            Legal(env, START, events) && Run(env, START, events) == Rotated(env.decode, a, b, c, Record(0, r), o)
  {
    var x, d := Record(0, r), env.decode;
    PoolsSteps(d, a, b, c, o);
    assert START == With(D.START, F.NEWBORN);
    hide Goes, Legal, Run, O.CheckOutBoundTx, With, D.Step, P.InRetry, P.InChannel, IntakePools, PoolsAfter;
    var s1, s2 := With(PoolsAfter(d, a, b, c, o, 1), F.NEWBORN), With(PoolsAfter(d, a, b, c, o, 2), F.NEWBORN);
    var s3 := With(PoolsAfter(d, a, b, c, o, 2), P.InRetry(x, F.NEWBORN.chain));
    var s4 := With(PoolsAfter(d, a, b, c, o, 3), P.InRetry(x, F.NEWBORN.chain));
    var s5 := Rotated(d, a, b, c, x, o);
    var e1, e2 := JoltifyBlock(1, Some([b, a]), o, None), JoltifyBlock(2, Some([b, a]), o, None);
    var e3, e4 := JoltifyTx(hash, msgs), JoltifyBlock(3, Some([c, b]), S.Empty, None);
    var e5 := PublicHead(1, None, S.Empty, Some(x));
    BlockGoes(env, PoolsAfter(d, a, b, c, o, 0), F.NEWBORN, 1, [b, a], o);
    BlockGoes(env, PoolsAfter(d, a, b, c, o, 1), F.NEWBORN, 2, [b, a], o);
    TxGoes(env, PoolsAfter(d, a, b, c, o, 2), hash, msgs, r);
    BlockGoes(env, PoolsAfter(d, a, b, c, o, 2), P.InRetry(x, F.NEWBORN.chain), 3, [c, b], S.Empty);
    HeadGoes(env, PoolsAfter(d, a, b, c, o, 3), x, 1, S.Empty);
    Stays(env, s5);
    RunGoes(env, s4, e5, s5, []);
    RunGoes(env, s3, e4, s4, [e5] + []);
    RunGoes(env, s2, e3, s3, [e4] + ([e5] + []));
    RunGoes(env, s1, e2, s2, [e3] + ([e4] + ([e5] + [])));
    RunGoes(env, START, e1, s1, [e2] + ([e3] + ([e4] + ([e5] + []))));
    FiveFirst(e1, e2, e3, e4, e5);
  }

  lemma FiveFirst<X>(a: X, b: X, c: X, d: X, e: X)
    ensures [a, b, c, d, e] == [a] + ([b] + ([c] + ([d] + ([e] + []))))
  {
  }

  /**
   * The pools rotate between the intake of a request and its transfer: the transfer names the old latest pool as sender
   * and is signed by the new one.
   */
  lemma RotationChangesSigner(env: Env, a: string, b: string, c: string, hash: Bytes, msgs: Option<seq<O.Msg>>,
                              r: O.Request, o: S.Outcome)
    requires R.Faithful(env.decode, {a, b, c}) && a !in {b, c} && b != c
    requires env.decode(a).Some? && env.decode(b).Some? && env.decode(c).Some?
    requires var pools := O.Pools(env.decode(a).value.joltAddress, env.decode(b).value.joltAddress,
                                  env.decode(b).value.ethAddress);
             O.CheckOutBoundTx(O.JoltTx(Some(pools), hash, msgs)) == [r]
    ensures var x := Record(0, r);
            var events := RotationEvents(a, b, c, hash, msgs, x, o);
            var send := OutboundItem(F.Submitted(env.decode(c).value.ethAddress, 0, true, true));
            var s := Run(env, START, events);
            && Legal(env, START, events) && Enabled(env, s, send)
            && s.outbound.channel == [x] && x.item.fromPool == env.decode(b).value.ethAddress
  {
    var x := Record(0, r);
    CachesAfter(env.decode, a, b, c, o);
    RequestFromPool(O.Pools(env.decode(a).value.joltAddress, env.decode(b).value.joltAddress,
                            env.decode(b).value.ethAddress), hash, msgs, r);
    hide Goes, O.CheckOutBoundTx, Run, Legal, Enabled, PoolsAfter, RotationEvents;
    RotationRuns(env, a, b, c, hash, msgs, r, o);
    SendEnabled(env, PoolsAfter(env.decode, a, b, c, o, 4), x,
                F.Submitted(env.decode(c).value.ethAddress, 0, true, true));
  }

  lemma RequestFromPool(pools: O.Pools, hash: Bytes, msgs: Option<seq<O.Msg>>, r: O.Request)
    requires O.CheckOutBoundTx(O.JoltTx(Some(pools), hash, msgs)) == [r]
    ensures r.fromPool == pools.ethAddress
  {
    MsgsFromPool(pools, hash, msgs.value);
    var rs := O.ProcessMsgs(pools, hash, msgs.value);
    assert Senders(rs)[0] == rs[0].fromPool && Repeated(pools.ethAddress, 1)[0] == pools.ethAddress;
  }
}
