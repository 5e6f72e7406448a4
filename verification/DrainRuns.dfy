/** Runs of the pool caches and drain jobs in which something goes wrong. */
module DrainRuns {
  import opened Wrappers
  import opened Draining
  import opened LivePools
  import S = Scheduler
  import R = Rotation

  function JobsOnly(jobs: map<int, S.Pool>, height: int, popped: seq<int>,
                    scheduled: multiset<S.Pool>, lost: multiset<S.Pool>)
    : S.Side
  {
    S.Side(jobs, height, popped, scheduled, multiset{}, multiset{}, lost)
  }

  function PairOf(older: S.Pool, latest: S.Pool): R.Caches {
    R.Caches(R.Slots(Some(older), Some(latest)), R.Slots(Some(older), Some(latest)))
  }

  lemma NothingDue(s: S.Side, outcome: S.Outcome)
    requires S.PopAfter(s.jobs, s.height).None?
    ensures S.Step(s, S.Drain(outcome)) == s
  {
  }

  /** The caches are filled, reversed, and then in order; nothing is scheduled. */
  lemma FillTwice(decode: R.Decoder, p: R.Pair, outcome: S.Outcome)
    requires R.Faithful(decode, p.KeySet()) && R.Decodes(decode, p) && p.latest != p.older
    ensures var once := Step(START, decode, JoltifyBlock(1, Some(p.Keys()), outcome));
            Step(once, decode, JoltifyBlock(2, Some(p.Keys()), outcome))
            == State(PairOf(decode(p.older).value, decode(p.latest).value), S.START.(height := 2), S.START)
  {
    hide S.Run, S.PopAfter;
    R.SecondAnswerRepairsIff(decode, p, p);
    var once := Step(START, decode, JoltifyBlock(1, Some(p.Keys()), outcome));
    var r := R.OnAnswer(once.caches, decode, Some(p.Keys()));
    assert r.proceed;
    S.BlockSteps(once.jolt, 2, None, outcome);
    NothingDue(S.START.(height := 2), outcome);
  }

  lemma Rotates(s: State, decode: R.Decoder, p: R.Pair, q: R.Pair, height: int, outcome: S.Outcome)
    requires R.Faithful(decode, p.KeySet() + q.KeySet()) && R.Tracks(s.caches, decode, p) && R.Decodes(decode, q)
    requires R.Follows(p, q) && q.latest != p.older && p != q
    ensures var s1 := S.Step(S.Step(s.jolt, S.Tick(height)), S.Retire(decode(p.older).value));
            Step(s, decode, JoltifyBlock(height, Some(q.Keys()), outcome))
            == State(PairOf(decode(q.older).value, decode(q.latest).value), S.Step(s1, S.Drain(outcome)),
                     S.Step(s.pub, S.Retire(decode(p.older).value)))
  {
    hide S.Run, S.PopAfter, S.Step;
    R.TracksIffFollows(s.caches, decode, p, q);
    S.BlockSteps(s.jolt, height, decode(p.older), outcome);
  }

  lemma Repeats(s: State, decode: R.Decoder, p: R.Pair, height: int, outcome: S.Outcome)
    requires R.Faithful(decode, p.KeySet()) && R.Tracks(s.caches, decode, p)
    ensures Step(s, decode, JoltifyBlock(height, Some(p.Keys()), outcome))
            == s.(jolt := S.Step(S.Step(s.jolt, S.Tick(height)), S.Drain(outcome)))
  {
    hide S.Run, S.PopAfter, S.Step;
    R.TracksIffFollows(s.caches, decode, p, p);
    S.BlockSteps(s.jolt, height, None, outcome);
  }

  /** The job of `a`, retired at 3, is tried at 9 and put back. */
  lemma RetiredThenPutBack(jobs: S.Side, a: S.Pool)
    requires jobs == JobsOnly(map[2 := a], 3, [], multiset{a}, multiset{})
    ensures S.Step(S.Step(jobs, S.Tick(9)), S.Drain(S.NotEmpty))
            == JobsOnly(map[9 := a], 9, [2], multiset{a}, multiset{})
  {
    hide S.PopAfter;
    S.SingleJob(map[2 := a], 2, a, 9);
    assert map[2 := a] - {2} == map[];
  }

  lemma RetiredAt(s: S.Side, a: S.Pool)
    requires s == S.START.(height := 2)
    ensures S.Step(S.Step(S.Step(s, S.Tick(3)), S.Retire(a)), S.Drain(S.Empty))
            == JobsOnly(map[2 := a], 3, [], multiset{a}, multiset{})
  {
    var s' := JobsOnly(map[2 := a], 3, [], multiset{a}, multiset{});
    assert S.Step(S.Step(s, S.Tick(3)), S.Retire(a)) == s';
    hide S.PopAfter, S.Step;
    S.SingleJob(s'.jobs, 2, a, 3);
    NothingDue(s', S.Empty);
  }

  lemma OverwrittenAt(s: S.Side, a: S.Pool, b: S.Pool)
    requires s == JobsOnly(map[9 := a], 9, [2], multiset{a}, multiset{})
    ensures S.Step(S.Step(S.Step(s, S.Tick(10)), S.Retire(b)), S.Drain(S.Empty))
            == JobsOnly(map[9 := b], 10, [2], multiset{a, b}, multiset{a})
  {
    var s' := JobsOnly(map[9 := b], 10, [2], multiset{a, b}, multiset{a});
    OverwrittenThen(s, a, b);
    hide S.PopAfter, S.Step;
    S.SingleJob(s'.jobs, 9, b, 10);
    NothingDue(s', S.Empty);
  }

  lemma RetireOver(s: S.Side, k: int, a: S.Pool, b: S.Pool)
    requires s.jobs == map[k := a] && k == S.RetireKey(s.height)
    ensures S.Step(s, S.Retire(b))
            == s.(jobs := map[k := b], scheduled := s.scheduled + multiset{b}, lost := s.lost + multiset{a})
  {
    assert map[k := a][k := b] == map[k := b];
  }

  lemma TwoInBag<T>(a: T, b: T)
    ensures multiset{a} + multiset{b} == multiset{a, b} && multiset{} + multiset{a} == multiset{a}
  {
  }

  lemma OverwrittenThen(s: S.Side, a: S.Pool, b: S.Pool)
    requires s == JobsOnly(map[9 := a], 9, [2], multiset{a}, multiset{})
    ensures S.Step(S.Step(s, S.Tick(10)), S.Retire(b)) == JobsOnly(map[9 := b], 10, [2], multiset{a, b}, multiset{a})
  {
    assert S.Step(s, S.Tick(10)) == s.(height := 10);
    hide S.Step;
    RetireOver(s.(height := 10), 9, a, b);
    TwoInBag(a, b);
  }

  /** Two rotations before the first public head: the second job takes the key of the first. */
  lemma OverwrittenOnPublic(a: S.Pool, b: S.Pool)
    ensures S.Step(S.Step(S.START, S.Retire(a)), S.Retire(b))
            == JobsOnly(map[-1 := b], 0, [], multiset{a, b}, multiset{a})
  {
    assert map[-1 := a][-1 := b] == map[-1 := b];
  }

  /**
   * A run of the whole machine that loses the job of a retired pool on both chains: filled at 1 and 2, rotated at 3,
   * the drain tried and put back at 9, and rotated again at 10.
   */
  lemma RotationAfterPutBackLosesJob(decode: R.Decoder, a: string, b: string, c: string, d: string, o: S.Outcome)
    requires R.Faithful(decode, {a, b, c, d})
    requires decode(a).Some? && decode(b).Some? && decode(c).Some? && decode(d).Some?
    requires a !in {b, c, d} && b !in {c, d} && c != d
    ensures var events := [JoltifyBlock(1, Some([b, a]), o), JoltifyBlock(2, Some([b, a]), o),
                           JoltifyBlock(3, Some([c, b]), S.Empty), JoltifyBlock(9, Some([c, b]), S.NotEmpty),
                           JoltifyBlock(10, Some([d, c]), S.Empty)];
            var s := Run(START, decode, events);
            && s.jolt.lost == multiset{decode(a).value} && s.jolt.jobs == map[9 := decode(b).value]
            && s.pub.lost == multiset{decode(a).value} && s.pub.jobs == map[-1 := decode(b).value]
  {
    var pa, pb, pc, pd := decode(a).value, decode(b).value, decode(c).value, decode(d).value;
    var ba, cb, dc := R.Pair(b, a), R.Pair(c, b), R.Pair(d, c);
    var s2 := State(PairOf(pa, pb), S.START.(height := 2), S.START);
    FillTwice(decode, ba, o);
    var s3 :=
      State(PairOf(pb, pc), JobsOnly(map[2 := pa], 3, [], multiset{pa}, multiset{}), S.Step(S.START, S.Retire(pa)));
    Rotates(s2, decode, ba, cb, 3, S.Empty);
    RetiredAt(s2.jolt, pa);
    var s4 := s3.(jolt := JobsOnly(map[9 := pa], 9, [2], multiset{pa}, multiset{}));
    Repeats(s3, decode, cb, 9, S.NotEmpty);
    RetiredThenPutBack(s3.jolt, pa);
    var s5 := State(PairOf(pc, pd), JobsOnly(map[9 := pb], 10, [2], multiset{pa, pb}, multiset{pa}),
                    S.Step(s3.pub, S.Retire(pb)));
    Rotates(s4, decode, cb, dc, 10, S.Empty);
    OverwrittenAt(s4.jolt, pa, pb);
    OverwrittenOnPublic(pa, pb);
    hide Step, S.Step, PairOf, S.PopAfter;
    var e1, e2 := JoltifyBlock(1, Some([b, a]), o), JoltifyBlock(2, Some([b, a]), o);
    var e3, e4 := JoltifyBlock(3, Some([c, b]), S.Empty), JoltifyBlock(9, Some([c, b]), S.NotEmpty);
    var e5 := JoltifyBlock(10, Some([d, c]), S.Empty);
    RunFive(decode, START, e1, e2, e3, e4, e5);
  }

  lemma RetiredNext(s: S.Side, a: S.Pool, b: S.Pool)
    requires s == JobsOnly(map[2 := a], 3, [], multiset{a}, multiset{})
    ensures var s' := S.Step(S.Step(S.Step(s, S.Tick(4)), S.Retire(b)), S.Drain(S.Empty));
            s'.jobs == map[2 := a, 3 := b] && s'.height == 4 && s'.popped == []
  {
    var s' := S.Step(S.Step(s, S.Tick(4)), S.Retire(b));
    assert s'.jobs == map[2 := a][3 := b] && s'.height == 4;
    S.PopAfterIsOldest(s');
    hide S.PopAfter;
  }

  /** The two jobs at 9: the older one is taken, and put back under the present height. */
  lemma TakenAtNine(s: S.Side, a: S.Pool, b: S.Pool)
    requires s.jobs == map[2 := a, 3 := b] && s.height == 4 && s.popped == []
    ensures var ticked := S.Step(s, S.Tick(9));
            && S.PopAfter(ticked.jobs, ticked.height) == Some(2)
            && var s' := S.Step(ticked, S.Drain(S.NotEmpty));
               s'.popped == [2] && s'.jobs == map[3 := b, 9 := a]
  {
    var ticked := S.Step(s, S.Tick(9));
    assert 2 in ticked.jobs && 3 in ticked.jobs;
    assert S.Int64Sub(9, 2) == 7;
    assert S.PopAfter(ticked.jobs, 9) == Some(2);
    assert (map[2 := a, 3 := b] - {2})[9 := a] == map[3 := b, 9 := a];
    hide S.PopAfter;
  }

  /**
   * A run of the whole machine that drains a pool in use: it leaves the pair at 3 and comes back at 4, and the job
   * of its exit, which has waited all the while, is taken at 9.
   */
  lemma ReturnedPoolIsDrained(decode: R.Decoder, a: string, b: string, c: string, o: S.Outcome)
    requires R.Faithful(decode, {a, b, c}) && decode(a).Some? && decode(b).Some? && decode(c).Some?
    requires a !in {b, c} && b != c
    ensures var first := [JoltifyBlock(1, Some([b, a]), o), JoltifyBlock(2, Some([b, a]), o),
                          JoltifyBlock(3, Some([c, b]), S.Empty), JoltifyBlock(4, Some([a, c]), S.Empty)];
            var last := JoltifyBlock(9, Some([a, c]), S.NotEmpty);
            var s, s' := Run(START, decode, first), Run(START, decode, first + [last]);
            && R.Tracks(s.caches, decode, R.Pair(a, c)) && R.Tracks(s'.caches, decode, R.Pair(a, c))
            && DrainsLive(s, decode, R.Pair(a, c), last)
            && s'.jolt.popped == [2] && s'.jolt.jobs == map[3 := decode(b).value, 9 := decode(a).value]
  {
    var pa, pb, pc := decode(a).value, decode(b).value, decode(c).value;
    var ba, cb, ac := R.Pair(b, a), R.Pair(c, b), R.Pair(a, c);
    var s2 := State(PairOf(pa, pb), S.START.(height := 2), S.START);
    FillTwice(decode, ba, o);
    var s3 :=
      State(PairOf(pb, pc), JobsOnly(map[2 := pa], 3, [], multiset{pa}, multiset{}), S.Step(S.START, S.Retire(pa)));
    Rotates(s2, decode, ba, cb, 3, S.Empty);
    RetiredAt(s2.jolt, pa);
    Rotates(s3, decode, cb, ac, 4, S.Empty);
    RetiredNext(s3.jolt, pa, pb);
    var e1, e2 := JoltifyBlock(1, Some([b, a]), o), JoltifyBlock(2, Some([b, a]), o);
    var e3, e4 := JoltifyBlock(3, Some([c, b]), S.Empty), JoltifyBlock(4, Some([a, c]), S.Empty);
    var last := JoltifyBlock(9, Some([a, c]), S.NotEmpty);
    var s4 := Step(s3, decode, e4);
    assert R.Tracks(s4.caches, decode, ac);
    ReturnedAtNine(s4, decode, ac, pa, pb);
    hide Step, S.Step, S.PopAfter, DrainsLive, R.Tracks;
    RunFour(decode, START, e1, e2, e3, e4);
    RunFive(decode, START, e1, e2, e3, e4, last);
    assert [e1, e2, e3, e4] + [last] == [e1, e2, e3, e4, last];
  }

  lemma ReturnedAtNine(s: State, decode: R.Decoder, p: R.Pair, a: S.Pool, b: S.Pool)
    requires R.Faithful(decode, p.KeySet()) && R.Tracks(s.caches, decode, p) && a.pk == p.latest
    requires s.jolt.jobs == map[2 := a, 3 := b] && s.jolt.height == 4 && s.jolt.popped == []
    ensures var e := JoltifyBlock(9, Some(p.Keys()), S.NotEmpty);
            var s' := Step(s, decode, e);
            && DrainsLive(s, decode, p, e) && s'.caches == s.caches
            && s'.jolt.popped == [2] && s'.jolt.jobs == map[3 := b, 9 := a]
  {
    var e := JoltifyBlock(9, Some(p.Keys()), S.NotEmpty);
    Repeats(s, decode, p, 9, S.NotEmpty);
    TakenAtNine(s.jolt, a, b);
    R.TracksIffFollows(s.caches, decode, p, p);
    var ticked := S.Step(s.jolt, S.Tick(9));
    assert ticked.jobs[2].pk == p.latest;
    assert BeforeDrain(s, decode, e).jolt == ticked && DrainsJolt(s, decode, e);
    hide S.PopAfter, S.Step, Step, BeforeDrain, R.OnAnswer;
  }

  lemma RunFour(decode: R.Decoder, s: State, e1: Event, e2: Event, e3: Event, e4: Event)
    ensures Run(s, decode, [e1, e2, e3, e4])
            == Step(Step(Step(Step(s, decode, e1), decode, e2), decode, e3), decode, e4)
  {
    hide Step;
    RunCons(decode, s, e1, [e2, e3, e4]);
    var s1 := Step(s, decode, e1);
    RunCons(decode, s1, e2, [e3, e4]);
    var s2 := Step(s1, decode, e2);
    RunCons(decode, s2, e3, [e4]);
    RunCons(decode, Step(s2, decode, e3), e4, []);
    assert [e1, e2, e3, e4] == [e1] + [e2, e3, e4] && [e2, e3, e4] == [e2] + [e3, e4];
    assert [e3, e4] == [e3] + [e4] && [e4] == [e4] + [];
  }

  lemma RunCons(decode: R.Decoder, s: State, e: Event, events: seq<Event>)
    ensures Run(s, decode, [e] + events) == Run(Step(s, decode, e), decode, events)
  {
    assert ([e] + events)[1..] == events;
  }

  lemma RunFive(decode: R.Decoder, s: State, e1: Event, e2: Event, e3: Event, e4: Event, e5: Event)
    ensures Run(s, decode, [e1, e2, e3, e4, e5])
            == Step(Step(Step(Step(Step(s, decode, e1), decode, e2), decode, e3), decode, e4), decode, e5)
  {
    hide Step;
    RunCons(decode, s, e1, [e2, e3, e4, e5]);
    RunFour(decode, Step(s, decode, e1), e2, e3, e4, e5);
    assert [e1, e2, e3, e4, e5] == [e1] + [e2, e3, e4, e5];
  }
}
