/** Whether a pool in use can be drained: jobs that wait for pools of the chain's present pair. */
module LivePools {
  import opened Config
  import opened Wrappers
  import opened Draining
  import S = Scheduler
  import R = Rotation

  ghost predicate Names(jobs: map<int, S.Pool>, key: string) {
    exists k :: k in jobs && jobs[k].pk == key
  }

  ghost predicate NamesPair(jobs: map<int, S.Pool>, p: R.Pair) {
    Names(jobs, p.latest) || Names(jobs, p.older)
  }

  /** No job waits for a pool of the pair, on either chain. */
  ghost predicate SparesLive(s: State, p: R.Pair) {
    !NamesPair(s.jolt.jobs, p) && !NamesPair(s.pub.jobs, p)
  }

  predicate Usable(e: Event) {
    e.JoltifyBlock? && e.answer.Some? && |e.answer.value| == 2
  }

  /** The chain's pair after the event. */
  function PairAfter(p: R.Pair, e: Event): R.Pair {
    if Usable(e) then R.Pair(e.answer.value[0], e.answer.value[1]) else p
  }

  /** The new latest pool is one that left the pair earlier and whose drain job still waits. */
  ghost predicate Reenters(s: State, decode: R.Decoder, p: R.Pair, e: Event) {
    var latest := PairAfter(p, e).latest;
    && Usable(e) && latest !in p.KeySet()
    && (Names(BeforeDrain(s, decode, e).jolt.jobs, latest) || Names(BeforeDrain(s, decode, e).pub.jobs, latest))
  }

  lemma StoredNames(jobs: map<int, S.Pool>, k: int, pool: S.Pool, key: string)
    ensures Names(jobs[k := pool], key) ==> Names(jobs, key) || pool.pk == key
  {
  }

  lemma RetireNames(s: S.Side, retired: Option<S.Pool>, key: string)
    ensures Names(RetireOn(s, retired).jobs, key) ==> Names(s.jobs, key) || (retired.Some? && retired.value.pk == key)
  {
    if retired.Some? {
      StoredNames(s.jobs, S.RetireKey(s.height), retired.value, key);
    }
  }

  lemma DrainNames(s: S.Side, outcome: S.Outcome, key: string)
    ensures Names(S.Step(s, S.Drain(outcome)).jobs, key) ==> Names(s.jobs, key)
  {
    hide S.PopAfter;
    var taken := S.PopAfter(s.jobs, s.height);
    if taken.Some? {
      StoredNames(s.jobs - {taken.value}, s.height, s.jobs[taken.value], key);
      assert Names(s.jobs - {taken.value}, key) ==> Names(s.jobs, key);
    }
  }

  lemma StepNames(s: State, decode: R.Decoder, e: Event, key: string)
    ensures Names(Step(s, decode, e).jolt.jobs, key) ==> Names(BeforeDrain(s, decode, e).jolt.jobs, key)
    ensures Names(Step(s, decode, e).pub.jobs, key) ==> Names(BeforeDrain(s, decode, e).pub.jobs, key)
  {
    hide S.Step, Step, BeforeDrain, Names;
    StepIsDrain(s, decode, e);
    DrainNames(BeforeDrain(s, decode, e).jolt, e.outcome, key);
    DrainNames(BeforeDrain(s, decode, e).pub, e.outcome, key);
  }

  lemma BeforeDrainNames(s: State, decode: R.Decoder, e: Event, key: string)
    ensures var retired := if e.JoltifyBlock? then R.OnAnswer(s.caches, decode, e.answer).retired else None;
            var named := retired.Some? && retired.value.pk == key;
            && (Names(BeforeDrain(s, decode, e).jolt.jobs, key) ==> Names(s.jolt.jobs, key) || named)
            && (Names(BeforeDrain(s, decode, e).pub.jobs, key) ==> Names(s.pub.jobs, key) || named)
  {
    hide R.OnAnswer, Names;
    if e.JoltifyBlock? {
      var retired := R.OnAnswer(s.caches, decode, e.answer).retired;
      RetireNames(S.Step(s.jolt, S.Tick(e.height)), retired, key);
      RetireNames(s.pub, retired, key);
    }
  }

  /** One event of a run whose pair of different pools repeats or rotates, with no key standing for two pools. */
  ghost predicate Regular(decode: R.Decoder, p: R.Pair, e: Event) {
    var q := PairAfter(p, e);
    && R.Decodes(decode, q) && q.latest != q.older && R.Follows(p, q)
    && R.Faithful(decode, p.KeySet() + q.KeySet())
  }

  ghost predicate AllRegular(decode: R.Decoder, p: R.Pair, events: seq<Event>)
    decreases |events|
  {
    events != [] ==> Regular(decode, p, events[0]) && AllRegular(decode, PairAfter(p, events[0]), events[1..])
  }

  /** The caches hold the pair, of two different pools, and no job waits for either. */
  ghost predicate InOrder(s: State, decode: R.Decoder, p: R.Pair) {
    R.Tracks(s.caches, decode, p) && p.latest != p.older && SparesLive(s, p)
  }

  lemma RegularTracks(s: State, decode: R.Decoder, p: R.Pair, e: Event)
    requires R.Tracks(s.caches, decode, p) && p.latest != p.older && Regular(decode, p, e)
    ensures R.Tracks(BeforeDrain(s, decode, e).caches, decode, PairAfter(p, e))
    ensures var q := PairAfter(p, e);
            var retired := if e.JoltifyBlock? then R.OnAnswer(s.caches, decode, e.answer).retired else None;
            && q.latest != q.older && R.Follows(p, q)
            && (retired.Some? ==> retired.value.pk == p.older && p.older !in q.KeySet())
  {
    if Usable(e) {
      var q := PairAfter(p, e);
      assert e.answer.value == q.Keys();
      R.TracksIffFollows(s.caches, decode, p, q);
    }
  }

  lemma StepKeepsCaches(s: State, decode: R.Decoder, e: Event)
    ensures Step(s, decode, e).caches == BeforeDrain(s, decode, e).caches
  {
    StepIsDrain(s, decode, e);
  }

  /** A job can wait for a pool in use only when that pool has just come back while its job waited. */
  lemma SparesLiveIff(s: State, decode: R.Decoder, p: R.Pair, e: Event)
    requires InOrder(s, decode, p) && Regular(decode, p, e)
    ensures SparesLive(BeforeDrain(s, decode, e), PairAfter(p, e)) <==> !Reenters(s, decode, p, e)
    ensures !Reenters(s, decode, p, e) ==> InOrder(Step(s, decode, e), decode, PairAfter(p, e))
  {
    hide R.OnAnswer, BeforeDrain, DrainsJolt, Step, S.Step, Names, R.Tracks, R.Decodes, R.Faithful, Regular;
    RegularTracks(s, decode, p, e);
    StepKeepsCaches(s, decode, e);
    var q := PairAfter(p, e);
    BeforeDrainNames(s, decode, e, q.latest);
    BeforeDrainNames(s, decode, e, q.older);
    StepNames(s, decode, e, q.latest);
    StepNames(s, decode, e, q.older);
  }

  ghost predicate NeverReenters(s: State, decode: R.Decoder, p: R.Pair, events: seq<Event>)
    decreases |events|
  {
    events != [] ==>
      && !Reenters(s, decode, p, events[0])
      && NeverReenters(Step(s, decode, events[0]), decode, PairAfter(p, events[0]), events[1..])
  }

  // ---- Jobs taken ----

  /** A drain of this side takes a job for the key. */
  ghost predicate DrainTakes(side: S.Side, key: string) {
    var taken := S.PopAfter(side.jobs, side.height);
    taken.Some? && side.jobs[taken.value].pk == key
  }

  ghost predicate Takes(s: State, decode: R.Decoder, e: Event, key: string) {
    || (DrainsJolt(s, decode, e) && DrainTakes(BeforeDrain(s, decode, e).jolt, key))
    || (e.PublicHead? && DrainTakes(BeforeDrain(s, decode, e).pub, key))
  }

  /** The event drains a pool of the chain's present pair. */
  ghost predicate DrainsLive(s: State, decode: R.Decoder, p: R.Pair, e: Event) {
    Takes(s, decode, e, PairAfter(p, e).latest) || Takes(s, decode, e, PairAfter(p, e).older)
  }

  ghost predicate NeverDrainsLive(s: State, decode: R.Decoder, p: R.Pair, events: seq<Event>)
    decreases |events|
  {
    events != [] ==>
      && !DrainsLive(s, decode, p, events[0])
      && NeverDrainsLive(Step(s, decode, events[0]), decode, PairAfter(p, events[0]), events[1..])
  }

  lemma TakesNamed(side: S.Side, key: string)
    ensures DrainTakes(side, key) ==> Names(side.jobs, key)
  {
  }

  lemma SparedNotDrained(s: State, decode: R.Decoder, p: R.Pair, e: Event)
    requires SparesLive(BeforeDrain(s, decode, e), PairAfter(p, e))
    ensures !DrainsLive(s, decode, p, e)
  {
    hide DrainTakes, Names, BeforeDrain, DrainsJolt;
    var b, q := BeforeDrain(s, decode, e), PairAfter(p, e);
    TakesNamed(b.jolt, q.latest);
    TakesNamed(b.jolt, q.older);
    TakesNamed(b.pub, q.latest);
    TakesNamed(b.pub, q.older);
  }

  lemma {:induction false} SparedNeverDrained(s: State, decode: R.Decoder, p: R.Pair, events: seq<Event>)
    requires InOrder(s, decode, p) && AllRegular(decode, p, events) && NeverReenters(s, decode, p, events)
    ensures NeverDrainsLive(s, decode, p, events)
    decreases |events|
  {
    hide InOrder, Regular, Reenters, Step, DrainsLive, SparesLive;
    if events == [] {
    } else {
      SparesLiveIff(s, decode, p, events[0]);
      SparedNotDrained(s, decode, p, events[0]);
      SparedNeverDrained(Step(s, decode, events[0]), decode, PairAfter(p, events[0]), events[1..]);
    }
  }

  // ---- Continuations that only repeat the pair ----

  ghost predicate Repeating(p: R.Pair, events: seq<Event>) {
    forall e :: e in events && e.JoltifyBlock? ==> e.answer == Some(p.Keys())
  }

  lemma {:induction false} RepeatingIsRegular(s: State, decode: R.Decoder, p: R.Pair, events: seq<Event>)
    requires Repeating(p, events) && R.Decodes(decode, p) && p.latest != p.older && R.Faithful(decode, p.KeySet())
    ensures AllRegular(decode, p, events) && NeverReenters(s, decode, p, events)
    decreases |events|
  {
    if events == [] {
    } else {
      assert events[0] in events;
      assert PairAfter(p, events[0]) == p && p.KeySet() + p.KeySet() == p.KeySet();
      RepeatingIsRegular(Step(s, decode, events[0]), decode, p, events[1..]);
    }
  }

  /** Some run that only repeats the pair, with rising heights, drains a pool of it. */
  ghost predicate CanDrainLive(s: State, decode: R.Decoder, p: R.Pair) {
    exists events ::
      && Repeating(p, events) && Rising(s.jolt.height, s.pub.height, MAX_INT64, events)
      && !NeverDrainsLive(s, decode, p, events)
  }

  /** There is room for a drain of every job within int64. */
  ghost predicate Room(side: S.Side) {
    side.height + 7 * |side.jobs| < MAX_INT64
  }

  function RepeatEvent(onJolt: bool, height: int, p: R.Pair): Event {
    if onJolt then JoltifyBlock(height, Some(p.Keys()), S.Empty) else PublicHead(height, S.Empty)
  }

  function SideOf(s: State, onJolt: bool): S.Side {
    if onJolt then s.jolt else s.pub
  }

  /** One more block or head that repeats the pair: the least job is taken, and finished with. */
  lemma RepeatTakesLeast(s: State, decode: R.Decoder, p: R.Pair, onJolt: bool)
    requires R.Tracks(s.caches, decode, p) && R.Faithful(decode, p.KeySet())
    requires var side := SideOf(s, onJolt); S.Ordered(side) && Room(side) && side.jobs != map[]
    ensures var side, e := SideOf(s, onJolt), RepeatEvent(onJolt, SideOf(s, onJolt).height + 7, p);
            var side', k := SideOf(Step(s, decode, e), onJolt), S.MinKey(side.jobs);
            && k in side.jobs && side'.height == side.height + 7 && side'.jobs == side.jobs - {k}
            && SideOf(Step(s, decode, e), !onJolt) == SideOf(s, !onJolt)
            && S.Ordered(side') && R.Tracks(Step(s, decode, e).caches, decode, p)
            && (DrainsLive(s, decode, p, e) <==> side.jobs[k].pk in p.KeySet())
  {
    var side := SideOf(s, onJolt);
    var height := side.height + 7;
    var e := RepeatEvent(onJolt, height, p);
    assert PairAfter(p, e) == p && p.KeySet() + p.KeySet() == p.KeySet();
    assert |side.jobs| >= 1;
    var ticked := S.Step(side, S.Tick(height));
    S.StepKeepsOrdered(side, S.Tick(height));
    S.PopAfterIsOldest(ticked);
    S.StepKeepsOrdered(ticked, S.Drain(S.Empty));
    assert S.PopAfter(ticked.jobs, height) == Some(S.MinKey(side.jobs));
    StepIsDrain(s, decode, e);
    if onJolt {
      R.TracksIffFollows(s.caches, decode, p, p);
      assert e.answer == Some(p.Keys());
    }
    hide S.Ordered, S.PopAfter, R.OnAnswer, R.Tracks;
  }

  lemma FewerJobs(jobs: map<int, S.Pool>, k: int, key: string)
    requires k in jobs
    ensures |jobs - {k}| == |jobs| - 1
    ensures Names(jobs, key) ==> jobs[k].pk == key || Names(jobs - {k}, key)
  {
    assert (jobs - {k}).Keys == jobs.Keys - {k};
    if Names(jobs, key) && jobs[k].pk != key {
      var j :| j in jobs && jobs[j].pk == key;
      assert j in jobs - {k} && (jobs - {k})[j].pk == key;
    }
  }

  /** A continuation begins with one more block or head that repeats the pair. */
  lemma RepeatFirst(s: State, decode: R.Decoder, p: R.Pair, onJolt: bool, height: int, rest: seq<Event>)
    requires SideOf(s, onJolt).height < height < MAX_INT64 && Repeating(p, rest)
    requires Rising(if onJolt then height else s.jolt.height, if onJolt then s.pub.height else height, MAX_INT64, rest)
    ensures var e := RepeatEvent(onJolt, height, p);
            var events := [e] + rest;
            && Repeating(p, events) && Rising(s.jolt.height, s.pub.height, MAX_INT64, events)
            && (NeverDrainsLive(s, decode, p, events)
                <==> !DrainsLive(s, decode, p, e) && NeverDrainsLive(Step(s, decode, e), decode, p, rest))
  {
    hide Step, DrainsLive;
    var e := RepeatEvent(onJolt, height, p);
    assert ([e] + rest)[1..] == rest && PairAfter(p, e) == p;
  }

  /** A job that waits for a pool of the pair is taken after those before it. */
  lemma {:induction false} WaitingIsTaken(s: State, decode: R.Decoder, p: R.Pair, onJolt: bool, key: string)
      returns (events: seq<Event>)
    requires R.Tracks(s.caches, decode, p) && R.Faithful(decode, p.KeySet()) && key in p.KeySet()
    requires var side := SideOf(s, onJolt); S.Ordered(side) && Room(side) && Names(side.jobs, key)
    ensures Repeating(p, events) && Rising(s.jolt.height, s.pub.height, MAX_INT64, events)
    ensures !NeverDrainsLive(s, decode, p, events)
    decreases |SideOf(s, onJolt).jobs|
  {
    hide Step, S.Ordered, R.Tracks, R.Faithful, DrainsLive, Names, NeverDrainsLive, Repeating, Rising, S.MinKey;
    var side := SideOf(s, onJolt);
    SomeJob(side.jobs, key);
    var k := S.MinKey(side.jobs);
    var e := RepeatEvent(onJolt, side.height + 7, p);
    RepeatTakesLeast(s, decode, p, onJolt);
    FewerJobs(side.jobs, k, key);
    if side.jobs[k].pk == key {
      NothingMore(p, SideOf(Step(s, decode, e), true).height, SideOf(Step(s, decode, e), false).height);
      RepeatFirst(s, decode, p, onJolt, side.height + 7, []);
      events := [e] + [];
    } else {
      var rest := WaitingIsTaken(Step(s, decode, e), decode, p, onJolt, key);
      RepeatFirst(s, decode, p, onJolt, side.height + 7, rest);
      events := [e] + rest;
    }
  }

  lemma NothingMore(p: R.Pair, jolt: int, pub: int)
    ensures Repeating(p, []) && Rising(jolt, pub, MAX_INT64, [])
  {
  }

  lemma SomeJob(jobs: map<int, S.Pool>, key: string)
    requires Names(jobs, key)
    ensures jobs != map[] && |jobs| >= 1
  {
  }

  /**
   * A job waits for a pool in use exactly if some continuation that only repeats the pair drains a pool of the pair.
   */
  lemma WaitingIffCanDrain(s: State, decode: R.Decoder, p: R.Pair)
    requires R.Tracks(s.caches, decode, p) && p.latest != p.older && R.Faithful(decode, p.KeySet())
    requires Ordered(s) && Room(s.jolt) && Room(s.pub)
    ensures SparesLive(s, p) <==> !CanDrainLive(s, decode, p)
  {
    if SparesLive(s, p) {
      forall events | Repeating(p, events) && Rising(s.jolt.height, s.pub.height, MAX_INT64, events)
        ensures NeverDrainsLive(s, decode, p, events)
      {
        RepeatingIsRegular(s, decode, p, events);
        SparedNeverDrained(s, decode, p, events);
      }
    } else {
      var onJolt := NamesPair(s.jolt.jobs, p);
      var key := if Names(SideOf(s, onJolt).jobs, p.latest) then p.latest else p.older;
      var events := WaitingIsTaken(s, decode, p, onJolt, key);
    }
  }

  // ---- Over whole runs ----

  /** Neither the run nor any continuation of it that only repeats the pair ever drains a pool in use. */
  ghost predicate LiveIsSafe(s: State, decode: R.Decoder, p: R.Pair, events: seq<Event>)
    decreases |events|
  {
    && !CanDrainLive(s, decode, p)
    && (events != [] ==>
          && !DrainsLive(s, decode, p, events[0])
          && LiveIsSafe(Step(s, decode, events[0]), decode, PairAfter(p, events[0]), events[1..]))
  }

  /** Heights that leave room within int64 for a drain of every job there can be. */
  const LIMIT: int := MAX_INT64 / 8 - 2

  lemma {:induction false} FewKeys(keys: set<int>, height: int)
    requires -1 <= height && forall k :: k in keys ==> -1 <= k <= height
    ensures |keys| <= height + 2
    decreases height
  {
    if height == -1 {
      assert keys <= {-1};
      if keys == {-1} {
      } else {
        assert keys == {};
      }
    } else {
      FewKeys(keys - {height}, height - 1);
      assert |keys| <= |keys - {height}| + 1;
    }
  }

  lemma OrderedHasRoom(side: S.Side)
    requires S.Ordered(side) && side.height < LIMIT
    ensures Room(side)
  {
    FewKeys(side.jobs.Keys, side.height);
    assert |side.jobs| == |side.jobs.Keys|;
  }

  /** A job that waited when the drain started and was not taken still waits. */
  lemma NotTakenWaits(side: S.Side, outcome: S.Outcome, key: string)
    requires Names(side.jobs, key) && !DrainTakes(side, key) && side.height !in side.jobs
    ensures Names(S.Step(side, S.Drain(outcome)).jobs, key)
  {
    hide S.PopAfter;
    var k :| k in side.jobs && side.jobs[k].pk == key;
    var side' := S.Step(side, S.Drain(outcome));
    assert k in side'.jobs && side'.jobs[k] == side.jobs[k];
  }

  lemma HeightFree(s: State, decode: R.Decoder, e: Event)
    requires Ordered(s) && Rises(s, e)
    ensures var b := BeforeDrain(s, decode, e);
            && (e.JoltifyBlock? ==> b.jolt.height !in b.jolt.jobs)
            && (e.PublicHead? ==> b.pub.height !in b.pub.jobs)
  {
  }

  /** A job that waits for a pool in use is taken by the event's own drain, or waits after it. */
  lemma WaitsOrTaken(s: State, decode: R.Decoder, p: R.Pair, e: Event)
    requires Ordered(s) && Rises(s, e) && !SparesLive(BeforeDrain(s, decode, e), PairAfter(p, e))
    ensures DrainsLive(s, decode, p, e) || !SparesLive(Step(s, decode, e), PairAfter(p, e))
  {
    hide Names, DrainTakes, S.Step, Step, BeforeDrain, DrainsJolt, Ordered, Rises;
    StepIsDrain(s, decode, e);
    HeightFree(s, decode, e);
    var b, s', q := BeforeDrain(s, decode, e), Step(s, decode, e), PairAfter(p, e);
    forall key | key in q.KeySet() && !DrainsLive(s, decode, p, e)
      ensures Names(b.jolt.jobs, key) ==> Names(s'.jolt.jobs, key)
      ensures Names(b.pub.jobs, key) ==> Names(s'.pub.jobs, key)
    {
      assert key == q.latest || key == q.older;
      if DrainsJolt(s, decode, e) && Names(b.jolt.jobs, key) {
        DrainsOnlyBlocks(s, decode, e);
        NotTakenWaits(b.jolt, e.outcome, key);
      }
      if e.PublicHead? && Names(b.pub.jobs, key) {
        NotTakenWaits(b.pub, e.outcome, key);
      }
    }
    assert q.latest in q.KeySet() && q.older in q.KeySet();
  }

  lemma DrainsOnlyBlocks(s: State, decode: R.Decoder, e: Event)
    ensures DrainsJolt(s, decode, e) ==> e.JoltifyBlock?
  {
  }

  lemma StateHasRoom(s: State)
    requires Ordered(s) && s.jolt.height < LIMIT && s.pub.height < LIMIT
    ensures Room(s.jolt) && Room(s.pub)
  {
    OrderedHasRoom(s.jolt);
    OrderedHasRoom(s.pub);
  }

  /** After a return the run, or a continuation of it, drains the pool that came back. */
  lemma ReturnIsUnsafe(s: State, decode: R.Decoder, p: R.Pair, e: Event)
    requires InOrder(s, decode, p) && Regular(decode, p, e) && Reenters(s, decode, p, e)
    requires Ordered(s) && Rises(s, e) && e.height < LIMIT && s.jolt.height < LIMIT && s.pub.height < LIMIT
    ensures DrainsLive(s, decode, p, e) || CanDrainLive(Step(s, decode, e), decode, PairAfter(p, e))
  {
    SparesLiveIff(s, decode, p, e);
    WaitsOrTaken(s, decode, p, e);
    if !DrainsLive(s, decode, p, e) {
      var s', q := Step(s, decode, e), PairAfter(p, e);
      RegularTracks(s, decode, p, e);
      StepIsDrain(s, decode, e);
      assert R.Tracks(s'.caches, decode, q);
      R.FaithfulToLess(decode, p.KeySet() + q.KeySet(), q.KeySet());
      StepKeepsOrdered(s, decode, e);
      hide Step, BeforeDrain, SparesLive, Reenters, DrainsLive, R.Tracks, R.Faithful, Ordered;
      StateHasRoom(s');
      WaitingIffCanDrain(s', decode, q);
    }
  }

  /**
   * Over every run whose pair repeats or rotates, with rising heights: neither it nor a continuation that only
   * repeats the pair ever drains a pool in use, on either chain, exactly if no pool comes back into the pair while a
   * drain job of its earlier exit waits.
   */
  lemma {:induction false} LiveIsSafeIff(s: State, decode: R.Decoder, p: R.Pair, events: seq<Event>)
    requires InOrder(s, decode, p) && AllRegular(decode, p, events) && R.Faithful(decode, p.KeySet())
    requires Ordered(s) && Rising(s.jolt.height, s.pub.height, LIMIT, events)
    requires s.jolt.height < LIMIT && s.pub.height < LIMIT
    ensures LiveIsSafe(s, decode, p, events) <==> NeverReenters(s, decode, p, events)
    decreases |events|
  {
    StateHasRoom(s);
    WaitingIffCanDrain(s, decode, p);
    hide Step, BeforeDrain, Reenters, DrainsLive, CanDrainLive, Ordered, R.Tracks, SparesLive, Room;
    if events == [] {
    } else {
      var e, s', q := events[0], Step(s, decode, events[0]), PairAfter(p, events[0]);
      StepKeepsOrdered(s, decode, e);
      SparesLiveIff(s, decode, p, e);
      R.FaithfulToLess(decode, p.KeySet() + q.KeySet(), q.KeySet());
      if Reenters(s, decode, p, e) {
        ReturnIsUnsafe(s, decode, p, e);
        if !DrainsLive(s, decode, p, e) {
          assert !LiveIsSafe(s', decode, q, events[1..]);
        }
      } else {
        SparedNotDrained(s, decode, p, e);
        LiveIsSafeIff(s', decode, q, events[1..]);
      }
    }
  }
}
