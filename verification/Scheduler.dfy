/**
 * The drain jobs of retired pools, keyed by height (pubchain/tx_inbound.go:324-359, joltifybridge/types.go:41-77), and
 * what the event loop does with them on either chain (bridge/joltifyBridge.go:217-247, 279-308).
 */
module Scheduler {
  import opened Config
  import opened Wrappers
  import opened ByteTypes
  import opened Collections

  /** A pool as cached: its public key and the addresses derived from it. */
  datatype Pool = Pool(pk: string, joltAddress: Address, ethAddress: Address)

  /** Subtraction of int64 values. */
  function Int64Sub(a: int, b: int): int {
    (a - b + MAX_INT64 + 1) % TWO_64 - (MAX_INT64 + 1)
  }

  /** The one int64 that differs from the plain difference by a multiple of 2^64. */
  lemma Int64SubIff(a: int, b: int, r: int)
    ensures Int64Sub(a, b) == r <==> -MAX_INT64 - 1 <= r <= MAX_INT64 && (a - b - r) % TWO_64 == 0
  {
    var x := a - b + MAX_INT64 + 1;
    var q := x / TWO_64;
    assert x == q * TWO_64 + x % TWO_64;
    assert a - b - Int64Sub(a, b) == q * TWO_64;
    if -MAX_INT64 - 1 <= r <= MAX_INT64 && (a - b - r) % TWO_64 == 0 {
      var p := (a - b - r) / TWO_64;
      assert (q - p) * TWO_64 == r - Int64Sub(a, b);
    }
  }

  ghost predicate Least<V>(jobs: map<int, V>, k: int) {
    k in jobs && forall j :: j in jobs ==> k <= j
  }

  ghost function MinKey<V>(jobs: map<int, V>): (k: int)
    requires jobs != map[]
    ensures Least(jobs, k)
    decreases jobs.Keys
  {
    HasElement(jobs.Keys);
    var k :| k in jobs.Keys;
    var rest := jobs - {k};
    assert rest.Keys == jobs.Keys - {k};
    assert forall j :: j in jobs ==> j == k || j in rest.Keys;
    if rest == map[] then k
    else
      var m := MinKey(rest);
      if k <= m then k else m
  }

  /** The key PopMoveFundItemAfterBlock takes: the least one, once it is more than six blocks old. */
  ghost function PopAfter<V>(jobs: map<int, V>, height: int): (key: Option<int>)
    ensures key.Some? ==> Least(jobs, key.value)
  {
    if jobs == map[] then None
    else if MinKey(jobs) < MAX_INT64 && Int64Sub(height, MinKey(jobs)) > MIN_CHECK_BLOCK_GAP then Some(MinKey(jobs))
    else None
  }

  /** It takes a key exactly if that is the least stored, not the sentinel of the scan, and old enough in int64. */
  lemma PopAfterIff<V>(jobs: map<int, V>, height: int, k: int)
    ensures PopAfter(jobs, height) == Some(k)
            <==> Least(jobs, k) && k < MAX_INT64 && Int64Sub(height, k) > MIN_CHECK_BLOCK_GAP
  {
    hide Int64Sub;
  }

  class MoveFundQueue<V> {
    var moveFundReq: map<int, V>

    constructor ()
      ensures moveFundReq == map[]
    {
      moveFundReq := map[];
    }

    method AddMoveFundItem(pool: V, height: int)
      modifies this
      ensures moveFundReq == old(moveFundReq)[height := pool]
    {
      moveFundReq := moveFundReq[height := pool];
    }

    /** The scan of both pops; MAX_INT64 when nothing is stored below it. */
    method LeastHeight() returns (min: int)
      ensures min <= MAX_INT64
      ensures min < MAX_INT64 ==> Least(moveFundReq, min)
      ensures min == MAX_INT64 ==> forall k :: k in moveFundReq ==> k >= MAX_INT64
    {
      min := MAX_INT64;
      var todo := moveFundReq.Keys;
      while todo != {}
        invariant todo <= moveFundReq.Keys
        invariant min == MAX_INT64 || (min < MAX_INT64 && min in moveFundReq)
        invariant forall k :: k in moveFundReq && k !in todo ==> min <= k
      {
        HasElement(todo);
        var h :| h in todo;
        todo := todo - {h};
        if h <= min {
          min := h;
        }
      }
    }

    method PopMoveFundItem() returns (item: Option<(V, int)>)
      modifies this
      ensures item.None? <==> forall k :: k in old(moveFundReq) ==> k >= MAX_INT64
      ensures item.None? ==> moveFundReq == old(moveFundReq)
      ensures item.Some? ==>
                && Least(old(moveFundReq), item.value.1) && item.value.0 == old(moveFundReq)[item.value.1]
                && moveFundReq == old(moveFundReq) - {item.value.1}
    {
      var min := LeastHeight();
      if min < MAX_INT64 {
        item := Some((moveFundReq[min], min));
        moveFundReq := moveFundReq - {min};
      } else {
        item := None;
      }
    }

    method PopMoveFundItemAfterBlock(currentBlockHeight: int) returns (item: Option<(V, int)>)
      modifies this
      ensures var key := PopAfter(old(moveFundReq), currentBlockHeight);
              if key.None? then item.None? && moveFundReq == old(moveFundReq)
              else
                && item == Some((old(moveFundReq)[key.value], key.value))
                && moveFundReq == old(moveFundReq) - {key.value}
    {
      var min := LeastHeight();
      if min < MAX_INT64 && Int64Sub(currentBlockHeight, min) > MIN_CHECK_BLOCK_GAP {
        item := Some((moveFundReq[min], min));
        moveFundReq := moveFundReq - {min};
      } else {
        item := None;
      }
    }
  }

  // ---- One chain side over a run ----

  /** What comes of a popped job: the signer check, and then the transfer. */
  datatype Outcome = SignerError | NotSigner | Empty | NotEmpty | Failed

  /**
   * The jobs of one side and its height, with the history: the keys popped so far, and the pools scheduled, observed
   * empty, abandoned at the signer check, and overwritten by a job stored under the same height.
   */
  datatype Side = Side(
    jobs: map<int, Pool>,
    height: int,
    popped: seq<int>,
    scheduled: multiset<Pool>,
    emptied: multiset<Pool>,
    abandoned: multiset<Pool>,
    lost: multiset<Pool>)

  const START := Side(map[], 0, [], multiset{}, multiset{}, multiset{}, multiset{})

  datatype Event = Tick(height: int) | Retire(pool: Pool) | Drain(outcome: Outcome)

  function Store(s: Side, key: int, pool: Pool): Side {
    s.(jobs := s.jobs[key := pool], lost := if key in s.jobs then s.lost + multiset{s.jobs[key]} else s.lost)
  }

  /** The key of a pool retired at `height`. */
  function RetireKey(height: int): int {
    height - MIN_CHECK_BLOCK_GAP + 5
  }

  ghost function Step(s: Side, e: Event): Side {
    match e
    case Tick(height) => s.(height := height)
    case Retire(pool) => Store(s, RetireKey(s.height), pool).(scheduled := s.scheduled + multiset{pool})
    case Drain(outcome) =>
      match PopAfter(s.jobs, s.height)
      case None => s
      case Some(k) =>
        var pool := s.jobs[k];
        var s' := s.(jobs := s.jobs - {k}, popped := s.popped + [k]);
        match outcome
        case SignerError => s'.(abandoned := s.abandoned + multiset{pool})
        case NotSigner => s'.(abandoned := s.abandoned + multiset{pool})
        case Empty => s'.(emptied := s.emptied + multiset{pool})
        case NotEmpty => Store(s', s.height, pool)
        case Failed => Store(s', s.height, pool)
  }

  ghost function Run(s: Side, events: seq<Event>): Side
    decreases |events|
  {
    if events == [] then s else Run(Step(s, events[0]), events[1..])
  }

  /** Heights go up strictly and stay within int64. */
  ghost predicate Legal(height: int, events: seq<Event>)
    decreases |events|
  {
    events != [] ==>
      if events[0].Tick? then height < events[0].height < MAX_INT64 && Legal(events[0].height, events[1..])
      else Legal(height, events[1..])
  }

  ghost predicate Increasing(ks: seq<int>) {
    forall i, j :: 0 <= i < j < |ks| ==> ks[i] < ks[j]
  }

  /** Keys never exceed the height, and everything popped is below everything stored and more than six blocks old. */
  ghost predicate Ordered(s: Side) {
    && 0 <= s.height < MAX_INT64
    && (forall k :: k in s.jobs ==> -1 <= k <= s.height)
    && Increasing(s.popped)
    && (forall p :: p in s.popped ==> p < s.height - MIN_CHECK_BLOCK_GAP)
    && (forall p, k :: p in s.popped && k in s.jobs ==> p < k)
  }

  /** On ordered states the int64 guard is the plain one. */
  lemma PopAfterIsOldest(s: Side)
    requires Ordered(s)
    ensures var key := PopAfter(s.jobs, s.height);
            && (key.Some? ==> Least(s.jobs, key.value) && s.height - key.value > MIN_CHECK_BLOCK_GAP)
            && (key.None? ==> forall k :: k in s.jobs ==> s.height - k <= MIN_CHECK_BLOCK_GAP)
  {
    if s.jobs != map[] {
      var d := s.height - MinKey(s.jobs);
      assert 0 <= d + MAX_INT64 + 1 < TWO_64;
      assert Int64Sub(s.height, MinKey(s.jobs)) == d;
    }
  }

  lemma DrainKeepsOrdered(s: Side, outcome: Outcome)
    requires Ordered(s)
    ensures Ordered(Step(s, Drain(outcome)))
  {
    PopAfterIsOldest(s);
    hide PopAfter;
    assert forall i :: 0 <= i < |s.popped| ==> s.popped[i] in s.popped;
  }

  lemma StepKeepsOrdered(s: Side, e: Event)
    requires Ordered(s) && (e.Tick? ==> s.height < e.height < MAX_INT64)
    ensures Ordered(Step(s, e))
  {
    if e.Drain? {
      DrainKeepsOrdered(s, e.outcome);
    }
  }

  lemma {:induction false} RunKeepsOrdered(s: Side, events: seq<Event>)
    requires Ordered(s) && Legal(s.height, events)
    ensures Ordered(Run(s, events))
    decreases |events|
  {
    if events == [] {
    } else {
      StepKeepsOrdered(s, events[0]);
      RunKeepsOrdered(Step(s, events[0]), events[1..]);
    }
  }

  /**
   * Over every run with rising heights the popped keys rise strictly; at its end a drain would take the least key, and
   * only one more than six blocks old, and if it takes none then no stored job is older than that.
   */
  lemma PopsRise(events: seq<Event>)
    requires Legal(0, events)
    ensures var s := Run(START, events);
            var key := PopAfter(s.jobs, s.height);
            && Increasing(s.popped)
            && (key.Some? ==> Least(s.jobs, key.value) && s.height - key.value > MIN_CHECK_BLOCK_GAP)
            && (key.None? ==> forall k :: k in s.jobs ==> s.height - k <= MIN_CHECK_BLOCK_GAP)
  {
    RunKeepsOrdered(START, events);
    PopAfterIsOldest(Run(START, events));
  }

  /**
   * The first drain of a pool retired at some height waits for six more blocks, though the source's comment says the
   * first try does not wait: its key is one block old at once, not seven. While it is least, it is taken exactly then.
   */
  lemma FirstDrainWaits(s: Side, pool: Pool, later: int)
    requires Ordered(s) && s.height <= later < MAX_INT64
    requires forall k :: k in s.jobs ==> RetireKey(s.height) <= k
    ensures PopAfter(Step(s, Retire(pool)).jobs, later) == Some(RetireKey(s.height)) <==> later >= s.height + 6
  {
    var s' := Step(s, Retire(pool)).(height := later);
    StepKeepsOrdered(s, Retire(pool));
    PopAfterIsOldest(s');
    assert RetireKey(s.height) in s'.jobs;
  }

  /** Whatever happens after it was retired, a pool's job is not taken before six blocks later. */
  lemma NeverDrainedEarly(s: Side, pool: Pool, events: seq<Event>)
    requires Ordered(s) && Legal(s.height, events)
    ensures RetireKey(s.height) in Run(Step(s, Retire(pool)), events).popped
            ==> Run(Step(s, Retire(pool)), events).height >= s.height + 6
  {
    StepKeepsOrdered(s, Retire(pool));
    RunKeepsOrdered(Step(s, Retire(pool)), events);
  }

  // ---- No job lost ----

  ghost predicate Balanced(s: Side) {
    s.scheduled == Values(s.jobs) + s.emptied + s.abandoned + s.lost
  }

  lemma StoreAdds(s: Side, key: int, pool: Pool)
    ensures Values(Store(s, key, pool).jobs) + Store(s, key, pool).lost == Values(s.jobs) + s.lost + multiset{pool}
  {
    hide Values;
    if key in s.jobs {
      var rest := s.jobs - {key};
      ValuesRemove(s.jobs, key);
      ValuesAdd(rest, key, pool);
      assert rest[key := pool] == s.jobs[key := pool];
    } else {
      ValuesAdd(s.jobs, key, pool);
    }
  }

  lemma Shifted<T>(v: multiset<T>, e: multiset<T>, a: multiset<T>, l: multiset<T>, v': multiset<T>, l': multiset<T>,
                   x: multiset<T>)
    requires v' + l' == v + l + x
    ensures v' + e + a + l' == (v + e + a + l) + x
  {
    assert v' + e + a + l' == (v' + l') + e + a;
  }

  lemma StepKeepsBalance(s: Side, e: Event)
    requires Balanced(s)
    ensures Balanced(Step(s, e))
  {
    hide Values;
    match e
    case Tick(_) =>
    case Retire(pool) =>
      StoreAdds(s, RetireKey(s.height), pool);
      var s' := Store(s, RetireKey(s.height), pool);
      Shifted(Values(s.jobs), s.emptied, s.abandoned, s.lost, Values(s'.jobs), s'.lost, multiset{pool});
    case Drain(outcome) =>
      DrainKeepsBalance(s, outcome);
  }

  lemma DrainKeepsBalance(s: Side, outcome: Outcome)
    requires Balanced(s)
    ensures Balanced(Step(s, Drain(outcome)))
  {
    hide Values;
    var key := PopAfter(s.jobs, s.height);
    if key.Some? {
      var k, pool := key.value, s.jobs[key.value];
      var s1 := s.(jobs := s.jobs - {k}, popped := s.popped + [k]);
      ValuesRemove(s.jobs, k);
      assert s.scheduled == Values(s1.jobs) + s.emptied + s.abandoned + s.lost + multiset{pool};
      StoreAdds(s1, s.height, pool);
      var s2 := Store(s1, s.height, pool);
      Shifted(Values(s1.jobs), s.emptied, s.abandoned, s.lost, Values(s2.jobs), s2.lost, multiset{pool});
    }
  }

  /**
   * Every pool scheduled on a side is still scheduled there, observed empty, abandoned at the signer check, or was
   * overwritten: over all events whatsoever, as multisets of pools.
   */
  lemma {:induction false} EveryJobAccountedFor(s: Side, events: seq<Event>)
    requires Balanced(s)
    ensures Balanced(Run(s, events))
    decreases |events|
  {
    if events == [] {
    } else {
      StepKeepsBalance(s, events[0]);
      EveryJobAccountedFor(Step(s, events[0]), events[1..]);
    }
  }

  /** The event stores a job under a height that another job has. */
  ghost predicate Collides(s: Side, e: Event) {
    match e
    case Tick(_) => false
    case Retire(_) => RetireKey(s.height) in s.jobs
    case Drain(outcome) =>
      && (outcome.NotEmpty? || outcome.Failed?)
      && PopAfter(s.jobs, s.height).Some?
      && s.height in s.jobs - {PopAfter(s.jobs, s.height).value}
  }

  ghost predicate NoCollision(s: Side, events: seq<Event>)
    decreases |events|
  {
    events != [] ==> !Collides(s, events[0]) && NoCollision(Step(s, events[0]), events[1..])
  }

  lemma StepLosesIffCollides(s: Side, e: Event)
    ensures Step(s, e).lost == s.lost <==> !Collides(s, e)
    ensures s.lost <= Step(s, e).lost
  {
  }

  lemma {:induction false} LostGrows(s: Side, events: seq<Event>)
    ensures s.lost <= Run(s, events).lost
    decreases |events|
  {
    if events == [] {
    } else {
      StepLosesIffCollides(s, events[0]);
      LostGrows(Step(s, events[0]), events[1..]);
    }
  }

  lemma {:induction false} LosesIffCollides(s: Side, events: seq<Event>)
    ensures Run(s, events).lost == s.lost <==> NoCollision(s, events)
    decreases |events|
  {
    if events == [] {
    } else {
      var s' := Step(s, events[0]);
      StepLosesIffCollides(s, events[0]);
      LosesIffCollides(s', events[1..]);
      LostGrows(s', events[1..]);
    }
  }

  /** No drain job is lost exactly on the runs where no two jobs meet under one height. */
  lemma NoJobLostIff(events: seq<Event>)
    ensures var s := Run(START, events);
            s.scheduled == Values(s.jobs) + s.emptied + s.abandoned <==> NoCollision(START, events)
  {
    EveryJobAccountedFor(START, events);
    LosesIffCollides(START, events);
    var s := Run(START, events);
    var kept := Values(s.jobs) + s.emptied + s.abandoned;
    assert s.scheduled == kept + s.lost;
    if s.scheduled == kept {
      assert |kept + s.lost| == |kept| + |s.lost|;
      assert s.lost == multiset{};
    }
  }

  /** A Joltify block: the height, perhaps a rotation, and a drain. */
  function Block(height: int, retired: Option<Pool>, outcome: Outcome): seq<Event> {
    [Tick(height)] + (if retired.Some? then [Retire(retired.value)] else []) + [Drain(outcome)]
  }

  lemma BlockSteps(s: Side, height: int, retired: Option<Pool>, outcome: Outcome)
    ensures var s1 := Step(s, Tick(height));
            var s2 := if retired.Some? then Step(s1, Retire(retired.value)) else s1;
            Run(s, Block(height, retired, outcome)) == Step(s2, Drain(outcome))
  {
    var rest := (if retired.Some? then [Retire(retired.value)] else []) + [Drain(outcome)];
    assert Block(height, retired, outcome) == [Tick(height)] + rest;
    RunCons(s, Tick(height), rest);
    var s1 := Step(s, Tick(height));
    if retired.Some? {
      RunCons(s1, Retire(retired.value), [Drain(outcome)]);
      RunCons(Step(s1, Retire(retired.value)), Drain(outcome), []);
    } else {
      assert rest == [Drain(outcome)];
      RunCons(s1, Drain(outcome), []);
    }
    assert [Drain(outcome)] == [Drain(outcome)] + [];
  }

  lemma RunCons(s: Side, e: Event, events: seq<Event>)
    ensures Run(s, [e] + events) == Run(Step(s, e), events)
  {
    assert ([e] + events)[1..] == events;
  }

  /**
   * On the Joltify side a block loses a job exactly when it rotates the pools right after a block that put a job back:
   * both are stored under the earlier block's height, and the job put back is the one overwritten.
   */
  lemma BlockLosesIff(s: Side, height: int, retired: Option<Pool>, outcome: Outcome)
    requires Ordered(s) && s.height < height < MAX_INT64
    ensures var s' := Run(s, Block(height, retired, outcome));
            s'.lost == if retired.Some? && height == s.height + 1 && s.height in s.jobs
                       then s.lost + multiset{s.jobs[s.height]} else s.lost
  {
    BlockSteps(s, height, retired, outcome);
    hide PopAfter, Run, Step, Ordered;
    Ticked(s, height);
    var s1 := Step(s, Tick(height));
    if retired.Some? {
      OneRetire(s1, retired.value);
      BelowAfterRetire(s1, retired.value, height);
      DrainLosesNothing(Step(s1, Retire(retired.value)), outcome);
    } else {
      DrainLosesNothing(s1, outcome);
    }
  }

  lemma Ticked(s: Side, height: int)
    requires Ordered(s) && s.height < height
    ensures var s1 := Step(s, Tick(height));
            && s1.height == height && s1.jobs == s.jobs && s1.lost == s.lost
            && forall k :: k in s.jobs ==> k <= s.height
  {
  }

  lemma BelowAfterRetire(s: Side, pool: Pool, height: int)
    requires s.height == height && forall k :: k in s.jobs ==> k < height
    ensures Step(s, Retire(pool)).height == height
    ensures forall k :: k in Step(s, Retire(pool)).jobs ==> k < height
  {
  }

  lemma DrainLosesNothing(s: Side, outcome: Outcome)
    requires s.height !in s.jobs
    ensures Step(s, Drain(outcome)).lost == s.lost
  {
    hide PopAfter;
  }

  function Retires(pools: seq<Pool>): seq<Event> {
    if pools == [] then [] else [Retire(pools[0])] + Retires(pools[1..])
  }

  /** Between two heads of the public chain: a head with its drain, and the rotations seen before the next head. */
  function HeadPeriod(height: int, outcome: Outcome, retired: seq<Pool>): seq<Event> {
    [Tick(height)] + ([Drain(outcome)] + Retires(retired))
  }

  /** What rotations at one height overwrite: the job they find under their key, and all of their own but the last. */
  ghost function Overwritten(s: Side, retired: seq<Pool>): multiset<Pool> {
    if retired == [] then multiset{}
    else
      (if RetireKey(s.height) in s.jobs then multiset{s.jobs[RetireKey(s.height)]} else multiset{})
      + multiset(retired[..|retired| - 1])
  }

  lemma OneRetire(s: Side, pool: Pool)
    ensures var s', key := Step(s, Retire(pool)), RetireKey(s.height);
            && s'.height == s.height && key in s'.jobs && s'.jobs[key] == pool
            && s'.lost == s.lost + if key in s.jobs then multiset{s.jobs[key]} else multiset{}
  {
  }

  lemma AllButLast(pools: seq<Pool>)
    requires |pools| >= 2
    ensures multiset(pools[..|pools| - 1]) == multiset{pools[0]} + multiset(pools[1..][..|pools| - 2])
  {
    assert pools[..|pools| - 1] == [pools[0]] + pools[1..][..|pools| - 2];
  }

  lemma {:induction false} RetiresLose(s: Side, retired: seq<Pool>)
    ensures Run(s, Retires(retired)).lost == s.lost + Overwritten(s, retired)
    decreases |retired|
  {
    if retired == [] {
    } else {
      var s', rest := Step(s, Retire(retired[0])), retired[1..];
      RunCons(s, Retire(retired[0]), Retires(rest));
      OneRetire(s, retired[0]);
      RetiresLose(s', rest);
      hide Step, Run;
      if rest == [] {
        assert retired[..|retired| - 1] == [];
      } else {
        AllButLast(retired);
      }
    }
  }

  lemma DrainedJobs(s: Side, height: int, outcome: Outcome)
    requires Ordered(s) && s.height < height < MAX_INT64
    ensures var s' := Step(Step(s, Tick(height)), Drain(outcome));
            && s'.lost == s.lost && s'.height == height
            && (height - 1 in s'.jobs <==> height == s.height + 1 && s.height in s.jobs)
            && (height - 1 in s'.jobs ==> s'.jobs[height - 1] == s.jobs[s.height])
  {
    var s1 := Step(s, Tick(height));
    StepKeepsOrdered(s, Tick(height));
    PopAfterIsOldest(s1);
    hide PopAfter;
  }

  /**
   * On the public side jobs are lost exactly when the pools rotate before the next head: all but the last of the pools
   * retired in that time, and a job put back at the head before, if that is one below this one.
   */
  lemma HeadPeriodLosesIff(s: Side, height: int, outcome: Outcome, retired: seq<Pool>)
    requires Ordered(s) && s.height < height < MAX_INT64
    ensures Run(s, HeadPeriod(height, outcome, retired)).lost
            == if retired == [] then s.lost
               else s.lost
                    + ((if height == s.height + 1 && s.height in s.jobs then multiset{s.jobs[s.height]} else multiset{})
                       + multiset(retired[..|retired| - 1]))
  {
    hide Run, PopAfter, Retires;
    var s1 := Step(s, Tick(height));
    RunCons(s, Tick(height), [Drain(outcome)] + Retires(retired));
    RunCons(s1, Drain(outcome), Retires(retired));
    DrainedJobs(s, height, outcome);
    RetiresLose(Step(s1, Drain(outcome)), retired);
    hide Step, Ordered;
  }

  lemma SingleJob(jobs: map<int, Pool>, k: int, p: Pool, height: int)
    requires jobs == map[k := p] && -1 <= k <= height < MAX_INT64
    ensures PopAfter(jobs, height) == if height - k > MIN_CHECK_BLOCK_GAP then Some(k) else None
  {
    assert k in jobs && MinKey(jobs) == k;
    assert (height - k + MAX_INT64 + 1) % TWO_64 == height - k + MAX_INT64 + 1;
  }
}
