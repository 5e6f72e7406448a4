/** The pool caches together with the drain jobs of both chains, over whole runs of the event loop. */
module Draining {
  import opened Config
  import opened Wrappers
  import opened Collections
  import S = Scheduler
  import R = Rotation

  datatype State = State(caches: R.Caches, jolt: S.Side, pub: S.Side)

  const START := State(R.EMPTY, S.START, S.START)

  datatype Event =
    | JoltifyBlock(height: int, answer: R.Answer, outcome: S.Outcome)
    | PublicHead(height: int, outcome: S.Outcome)

  ghost function RetireOn(s: S.Side, retired: Option<S.Pool>): S.Side {
    if retired.Some? then S.Step(s, S.Retire(retired.value)) else s
  }

  /** A block that finds no usable pair, or fills the caches, stops before the drain. */
  ghost function Step(s: State, decode: R.Decoder, e: Event): State {
    match e
    case JoltifyBlock(height, answer, outcome) =>
      var r := R.OnAnswer(s.caches, decode, answer);
      State(r.caches,
            if r.proceed then S.Run(s.jolt, S.Block(height, r.retired, outcome)) else S.Step(s.jolt, S.Tick(height)),
            RetireOn(s.pub, r.retired))
    case PublicHead(height, outcome) =>
      s.(pub := S.Step(S.Step(s.pub, S.Tick(height)), S.Drain(outcome)))
  }

  ghost function Run(s: State, decode: R.Decoder, events: seq<Event>): State
    decreases |events|
  {
    if events == [] then s else Run(Step(s, decode, events[0]), decode, events[1..])
  }

  function Answers(events: seq<Event>): seq<R.Answer> {
    if events == [] then []
    else (if events[0].JoltifyBlock? then [events[0].answer] else []) + Answers(events[1..])
  }

  ghost predicate Balanced(s: State) {
    S.Balanced(s.jolt) && S.Balanced(s.pub)
  }

  function Bag(retired: Option<S.Pool>): multiset<S.Pool> {
    if retired.Some? then multiset{retired.value} else multiset{}
  }

  ghost function RetiredBy(s: State, decode: R.Decoder, e: Event): multiset<S.Pool> {
    if e.JoltifyBlock? then Bag(R.OnAnswer(s.caches, decode, e.answer).retired) else multiset{}
  }

  lemma BlockSchedules(s: S.Side, height: int, retired: Option<S.Pool>, outcome: S.Outcome)
    requires S.Balanced(s)
    ensures S.Balanced(S.Run(s, S.Block(height, retired, outcome)))
    ensures S.Run(s, S.Block(height, retired, outcome)).scheduled == s.scheduled + Bag(retired)
  {
    hide S.Balanced, S.PopAfter, S.Run;
    S.BlockSteps(s, height, retired, outcome);
    S.EveryJobAccountedFor(s, S.Block(height, retired, outcome));
  }

  lemma RetireSchedules(s: S.Side, retired: Option<S.Pool>)
    requires S.Balanced(s)
    ensures S.Balanced(RetireOn(s, retired)) && RetireOn(s, retired).scheduled == s.scheduled + Bag(retired)
  {
    hide S.Balanced;
    if retired.Some? {
      S.StepKeepsBalance(s, S.Retire(retired.value));
    }
  }

  lemma HeadSchedules(s: S.Side, height: int, outcome: S.Outcome)
    requires S.Balanced(s)
    ensures var s' := S.Step(S.Step(s, S.Tick(height)), S.Drain(outcome));
            S.Balanced(s') && s'.scheduled == s.scheduled
  {
    hide S.Balanced, S.PopAfter;
    S.StepKeepsBalance(s, S.Tick(height));
    S.StepKeepsBalance(S.Step(s, S.Tick(height)), S.Drain(outcome));
  }

  lemma UnusableRetiresNothing(s: State, decode: R.Decoder, answer: R.Answer)
    ensures !R.OnAnswer(s.caches, decode, answer).proceed ==> R.OnAnswer(s.caches, decode, answer).retired.None?
  {
  }

  lemma StepSchedules(s: State, decode: R.Decoder, e: Event)
    requires Balanced(s)
    ensures var s' := Step(s, decode, e);
            && Balanced(s')
            && s'.jolt.scheduled == s.jolt.scheduled + RetiredBy(s, decode, e)
            && s'.pub.scheduled == s.pub.scheduled + RetiredBy(s, decode, e)
  {
    match e
    case JoltifyBlock(height, answer, outcome) =>
      var r := R.OnAnswer(s.caches, decode, answer);
      UnusableRetiresNothing(s, decode, answer);
      S.StepKeepsBalance(s.jolt, S.Tick(height));
      hide S.Balanced, S.Run, R.OnAnswer, RetireOn;
      BlockSchedules(s.jolt, height, r.retired, outcome);
      RetireSchedules(s.pub, r.retired);
    case PublicHead(height, outcome) =>
      hide S.Balanced, S.Step;
      HeadSchedules(s.pub, height, outcome);
  }

  /**
   * Over every interleaving of Joltify blocks and public heads, each pool the rotation retires is scheduled on both
   * chains, and on each chain the pools scheduled are those waiting, observed empty, abandoned and overwritten.
   */
  lemma {:induction false} RetiredPoolsAccountedFor(s: State, decode: R.Decoder, events: seq<Event>)
    requires Balanced(s)
    ensures var s' := Run(s, decode, events);
            && s'.caches == R.Run(s.caches, decode, Answers(events))
            && Balanced(s')
            && s'.jolt.scheduled == s.jolt.scheduled + multiset(R.Retired(s.caches, decode, Answers(events)))
            && s'.pub.scheduled == s.pub.scheduled + multiset(R.Retired(s.caches, decode, Answers(events)))
    decreases |events|
  {
    if events == [] {
    } else {
      hide S.Balanced, R.OnAnswer, Step, R.Retired, R.Run;
      StepSchedules(s, decode, events[0]);
      RetiredNow(s, decode, events);
      RetiredPoolsAccountedFor(Step(s, decode, events[0]), decode, events[1..]);
    }
  }

  lemma RetiredNow(s: State, decode: R.Decoder, events: seq<Event>)
    requires events != []
    ensures var s1, answers, rest := Step(s, decode, events[0]), Answers(events), Answers(events[1..]);
            && R.Run(s.caches, decode, answers) == R.Run(s1.caches, decode, rest)
            && multiset(R.Retired(s.caches, decode, answers))
               == RetiredBy(s, decode, events[0]) + multiset(R.Retired(s1.caches, decode, rest))
  {
    var answers, rest := Answers(events), Answers(events[1..]);
    if events[0].JoltifyBlock? {
      assert answers[0] == events[0].answer && answers[1..] == rest;
      var r := R.OnAnswer(s.caches, decode, answers[0]);
      var head := if r.retired.Some? then [r.retired.value] else [];
      assert R.Retired(s.caches, decode, answers) == head + R.Retired(r.caches, decode, rest);
    } else {
      assert answers == rest;
    }
  }

  /**
   * The whole of pool retirement: when the chain's pair, once filled and repeated, then only repeats or rotates, every
   * pool that leaves it is on each chain waiting to be drained, observed empty, abandoned at the signer check or
   * overwritten, once for each exit; and nothing else is.
   */
  lemma EveryExitIsDrained(decode: R.Decoder, p: R.Pair, answers: seq<R.Answer>, events: seq<Event>)
    requires R.Faithful(decode, p.KeySet() + R.KeysOf(answers))
    requires R.Decodes(decode, p) && p.latest != p.older && R.LegalAnswers(decode, p, answers)
    requires Answers(events) == [Some(p.Keys()), Some(p.Keys())] + answers
    ensures var s := Run(START, decode, events);
            var retired := R.Retired(R.EMPTY, decode, Answers(events));
            && R.Keys(retired) == R.Exits(p, answers)
            && multiset(retired) == Values(s.jolt.jobs) + s.jolt.emptied + s.jolt.abandoned + s.jolt.lost
            && multiset(retired) == Values(s.pub.jobs) + s.pub.emptied + s.pub.abandoned + s.pub.lost
            && R.Tracks(s.caches, decode, R.LastPair(p, answers))
  {
    RetiredPoolsAccountedFor(START, decode, events);
    R.RotationTrackingFromStart(decode, p, answers);
  }

  // ---- Rising heights ----

  /** Heights of both chains go up strictly and stay below a limit. */
  ghost predicate Rising(jolt: int, pub: int, limit: int, events: seq<Event>)
    decreases |events|
  {
    events != [] ==>
      match events[0]
      case JoltifyBlock(height, _, _) => jolt < height < limit && Rising(height, pub, limit, events[1..])
      case PublicHead(height, _) => pub < height < limit && Rising(jolt, height, limit, events[1..])
  }

  ghost predicate Rises(s: State, e: Event) {
    (if e.JoltifyBlock? then s.jolt.height else s.pub.height) < e.height < MAX_INT64
  }

  ghost predicate Ordered(s: State) {
    S.Ordered(s.jolt) && S.Ordered(s.pub)
  }

  /** The state when the drain of the event starts: heights set and pools rotated. */
  ghost function BeforeDrain(s: State, decode: R.Decoder, e: Event): State {
    match e
    case JoltifyBlock(height, answer, _) =>
      var r := R.OnAnswer(s.caches, decode, answer);
      State(r.caches, RetireOn(S.Step(s.jolt, S.Tick(height)), r.retired), RetireOn(s.pub, r.retired))
    case PublicHead(height, _) => s.(pub := S.Step(s.pub, S.Tick(height)))
  }

  /** Whether the event goes on to a drain on the Joltify chain, or on the public one. */
  ghost predicate DrainsJolt(s: State, decode: R.Decoder, e: Event) {
    e.JoltifyBlock? && R.OnAnswer(s.caches, decode, e.answer).proceed
  }

  lemma StepIsDrain(s: State, decode: R.Decoder, e: Event)
    ensures var b, s' := BeforeDrain(s, decode, e), Step(s, decode, e);
            && s'.jolt == (if DrainsJolt(s, decode, e) then S.Step(b.jolt, S.Drain(e.outcome)) else b.jolt)
            && s'.pub == (if e.PublicHead? then S.Step(b.pub, S.Drain(e.outcome)) else b.pub)
            && s'.caches == b.caches
  {
    hide S.PopAfter, S.Run;
    match e
    case JoltifyBlock(height, answer, outcome) =>
      S.BlockSteps(s.jolt, height, R.OnAnswer(s.caches, decode, answer).retired, outcome);
      UnusableRetiresNothing(s, decode, answer);
    case PublicHead(_, _) =>
  }

  lemma RetireKeepsOrdered(s: S.Side, retired: Option<S.Pool>)
    requires S.Ordered(s)
    ensures S.Ordered(RetireOn(s, retired)) && RetireOn(s, retired).height == s.height
  {
    if retired.Some? {
      S.StepKeepsOrdered(s, S.Retire(retired.value));
    }
  }

  lemma BeforeDrainOrdered(s: State, decode: R.Decoder, e: Event)
    requires Ordered(s) && Rises(s, e)
    ensures var b := BeforeDrain(s, decode, e);
            && Ordered(b)
            && b.jolt.height == (if e.JoltifyBlock? then e.height else s.jolt.height)
            && b.pub.height == (if e.PublicHead? then e.height else s.pub.height)
  {
    hide S.Ordered, RetireOn, R.OnAnswer;
    match e
    case JoltifyBlock(height, answer, _) =>
      var retired := R.OnAnswer(s.caches, decode, answer).retired;
      S.StepKeepsOrdered(s.jolt, S.Tick(height));
      RetireKeepsOrdered(S.Step(s.jolt, S.Tick(height)), retired);
      RetireKeepsOrdered(s.pub, retired);
    case PublicHead(height, _) => S.StepKeepsOrdered(s.pub, S.Tick(height));
  }

  lemma DrainKeepsHeight(s: S.Side, outcome: S.Outcome)
    ensures S.Step(s, S.Drain(outcome)).height == s.height
  {
    hide S.PopAfter;
  }

  lemma StepKeepsOrdered(s: State, decode: R.Decoder, e: Event)
    requires Ordered(s) && Rises(s, e)
    ensures var s' := Step(s, decode, e);
            && Ordered(s')
            && s'.jolt.height == (if e.JoltifyBlock? then e.height else s.jolt.height)
            && s'.pub.height == (if e.PublicHead? then e.height else s.pub.height)
  {
    hide S.Ordered, S.Step, Step, BeforeDrain, DrainsJolt;
    StepIsDrain(s, decode, e);
    BeforeDrainOrdered(s, decode, e);
    var b := BeforeDrain(s, decode, e);
    S.StepKeepsOrdered(b.jolt, S.Drain(e.outcome));
    S.StepKeepsOrdered(b.pub, S.Drain(e.outcome));
    DrainKeepsHeight(b.jolt, e.outcome);
    DrainKeepsHeight(b.pub, e.outcome);
  }

  /**
   * Over every run with rising heights the keys popped on either chain rise strictly, and lie below all stored ones.
   */
  lemma {:induction false} OrderedOverRuns(s: State, decode: R.Decoder, events: seq<Event>)
    requires Ordered(s) && Rising(s.jolt.height, s.pub.height, MAX_INT64, events)
    ensures Ordered(Run(s, decode, events))
    ensures S.Increasing(Run(s, decode, events).jolt.popped) && S.Increasing(Run(s, decode, events).pub.popped)
    decreases |events|
  {
    hide Step, S.Increasing;
    if events == [] {
      OrderedIncreases(s);
    } else {
      hide Ordered;
      StepKeepsOrdered(s, decode, events[0]);
      OrderedOverRuns(Step(s, decode, events[0]), decode, events[1..]);
    }
  }

  lemma OrderedIncreases(s: State)
    requires Ordered(s)
    ensures S.Increasing(s.jolt.popped) && S.Increasing(s.pub.popped)
  {
    hide S.Increasing;
  }

  // ---- Lost jobs over whole runs ----

  /** The job a rotation overwrites on the Joltify side: one put back in the block right before. */
  ghost function JoltLoss(s: State, decode: R.Decoder, e: Event): multiset<S.Pool> {
    if e.JoltifyBlock? && R.OnAnswer(s.caches, decode, e.answer).retired.Some?
       && e.height == s.jolt.height + 1 && s.jolt.height in s.jolt.jobs
    then multiset{s.jolt.jobs[s.jolt.height]} else multiset{}
  }

  /** On the public side: one stored one below the last head, put back there or retired since that head. */
  ghost function PubLoss(s: State, decode: R.Decoder, e: Event): multiset<S.Pool> {
    if e.JoltifyBlock? && R.OnAnswer(s.caches, decode, e.answer).retired.Some? && s.pub.height - 1 in s.pub.jobs
    then multiset{s.pub.jobs[s.pub.height - 1]} else multiset{}
  }

  lemma HeadLosesNothing(s: S.Side, height: int, outcome: S.Outcome)
    requires S.Ordered(s) && s.height < height < MAX_INT64
    ensures S.Step(S.Step(s, S.Tick(height)), S.Drain(outcome)).lost == s.lost
  {
    S.DrainedJobs(s, height, outcome);
  }

  lemma RetireLoses(s: S.Side, pool: S.Pool)
    ensures S.Step(s, S.Retire(pool)).lost
            == s.lost + if s.height - 1 in s.jobs then multiset{s.jobs[s.height - 1]} else multiset{}
  {
    S.OneRetire(s, pool);
  }

  lemma StepLoses(s: State, decode: R.Decoder, e: Event)
    requires Ordered(s) && Rises(s, e)
    ensures Step(s, decode, e).jolt.lost == s.jolt.lost + JoltLoss(s, decode, e)
    ensures Step(s, decode, e).pub.lost == s.pub.lost + PubLoss(s, decode, e)
  {
    match e
    case JoltifyBlock(height, answer, outcome) =>
      var r := R.OnAnswer(s.caches, decode, answer);
      UnusableRetiresNothing(s, decode, answer);
      S.BlockLosesIff(s.jolt, height, r.retired, outcome);
      if r.retired.Some? {
        RetireLoses(s.pub, r.retired.value);
      }
      hide S.Run, S.Ordered, R.OnAnswer;
    case PublicHead(height, outcome) =>
      HeadLosesNothing(s.pub, height, outcome);
  }

  ghost function JoltLosses(s: State, decode: R.Decoder, events: seq<Event>): multiset<S.Pool>
    decreases |events|
  {
    if events == [] then multiset{}
    else JoltLoss(s, decode, events[0]) + JoltLosses(Step(s, decode, events[0]), decode, events[1..])
  }

  ghost function PubLosses(s: State, decode: R.Decoder, events: seq<Event>): multiset<S.Pool>
    decreases |events|
  {
    if events == [] then multiset{}
    else PubLoss(s, decode, events[0]) + PubLosses(Step(s, decode, events[0]), decode, events[1..])
  }

  /**
   * The jobs lost over every run with rising heights: on the Joltify side those put back in the block right before a
   * rotation, on the public side those stored one below the last head when a rotation comes.
   */
  lemma {:induction false} LossesOverRuns(s: State, decode: R.Decoder, events: seq<Event>)
    requires Ordered(s) && Rising(s.jolt.height, s.pub.height, MAX_INT64, events)
    ensures Run(s, decode, events).jolt.lost == s.jolt.lost + JoltLosses(s, decode, events)
    ensures Run(s, decode, events).pub.lost == s.pub.lost + PubLosses(s, decode, events)
    decreases |events|
  {
    hide Step, Ordered, JoltLoss, PubLoss;
    if events == [] {
    } else {
      var s', e, rest := Step(s, decode, events[0]), events[0], events[1..];
      StepKeepsOrdered(s, decode, e);
      StepLoses(s, decode, e);
      LossesOverRuns(s', decode, rest);
      var s'' := Run(s', decode, rest);
      Joined(s.jolt.lost, JoltLoss(s, decode, e), s'.jolt.lost, JoltLosses(s', decode, rest), s''.jolt.lost,
             JoltLosses(s, decode, events));
      Joined(s.pub.lost, PubLoss(s, decode, e), s'.pub.lost, PubLosses(s', decode, rest), s''.pub.lost,
             PubLosses(s, decode, events));
    }
  }

  // ---- When a drain is tried ----

  predicate HasTwoKeys(answer: R.Answer) {
    answer.Some? && |answer.value| == 2
  }

  /** The pool a block retires: the older one cached, when the pair differs from a full cache and another leads it. */
  ghost function RetiredAt(s: State, decode: R.Decoder, answer: R.Answer): Option<S.Pool> {
    if HasTwoKeys(answer) && s.caches.pub.older.Some? && R.NeedsUpdate(decode, answer.value, s.caches.pub)
       && s.caches.jolt.older.Some? && s.caches.jolt.older.value.pk != answer.value[0]
    then s.caches.jolt.older else None
  }

  /** The jobs of a side with the retired pool's, stored one below the side's height. */
  function Stored(jobs: map<int, S.Pool>, height: int, retired: Option<S.Pool>): map<int, S.Pool> {
    if retired.Some? then jobs[height - 1 := retired.value] else jobs
  }

  ghost function Due(jobs: map<int, S.Pool>, height: int): seq<int> {
    var key := S.PopAfter(jobs, height);
    if key.Some? then [key.value] else []
  }

  /** The job the event takes on the Joltify chain: only at blocks with two keys that find a filled cache. */
  ghost function DueOnJolt(s: State, decode: R.Decoder, e: Event): seq<int> {
    if e.JoltifyBlock? && HasTwoKeys(e.answer) && s.caches.pub.older.Some?
    then Due(Stored(s.jolt.jobs, e.height, RetiredAt(s, decode, e.answer)), e.height) else []
  }

  ghost function DueOnPub(s: State, e: Event): seq<int> {
    if e.PublicHead? then Due(s.pub.jobs, e.height) else []
  }

  lemma DrainPops(s: S.Side, outcome: S.Outcome)
    ensures S.Step(s, S.Drain(outcome)).popped == s.popped + Due(s.jobs, s.height)
  {
    hide S.PopAfter;
  }

  lemma BeforeDrainIs(s: State, decode: R.Decoder, e: Event)
    requires e.JoltifyBlock?
    ensures var b, retired := BeforeDrain(s, decode, e), RetiredAt(s, decode, e.answer);
            && b.jolt.jobs == Stored(s.jolt.jobs, e.height, retired) && b.jolt.height == e.height
            && b.pub.jobs == Stored(s.pub.jobs, s.pub.height, retired) && b.pub.height == s.pub.height
            && b.jolt.popped == s.jolt.popped && b.pub.popped == s.pub.popped
            && b.jolt.emptied == s.jolt.emptied && b.jolt.abandoned == s.jolt.abandoned
            && b.pub.emptied == s.pub.emptied && b.pub.abandoned == s.pub.abandoned
            && (DrainsJolt(s, decode, e) <==> HasTwoKeys(e.answer) && s.caches.pub.older.Some?)
  {
    hide S.PopAfter, R.NeedsUpdate;
  }

  lemma BlockPops(s: State, decode: R.Decoder, e: Event)
    requires e.JoltifyBlock?
    ensures var s' := Step(s, decode, e);
            && s'.jolt.popped == s.jolt.popped + DueOnJolt(s, decode, e) && s'.pub.popped == s.pub.popped
            && s'.pub.jobs == Stored(s.pub.jobs, s.pub.height, RetiredAt(s, decode, e.answer))
            && (DueOnJolt(s, decode, e) == [] ==>
                  s'.jolt.jobs == Stored(s.jolt.jobs, e.height, RetiredAt(s, decode, e.answer)))
            && s'.jolt.height == e.height && s'.pub.height == s.pub.height
  {
    hide Step, BeforeDrain, DrainsJolt, S.Step, Due, Stored, RetiredAt;
    StepIsDrain(s, decode, e);
    BeforeDrainIs(s, decode, e);
    var b := BeforeDrain(s, decode, e);
    DrainPops(b.jolt, e.outcome);
    DrainKeepsHeight(b.jolt, e.outcome);
    NothingDue(b.jolt, e.outcome);
    assert s.jolt.popped + [] == s.jolt.popped;
  }

  lemma NothingDue(s: S.Side, outcome: S.Outcome)
    ensures Due(s.jobs, s.height) == [] ==> S.Step(s, S.Drain(outcome)).jobs == s.jobs
  {
    hide S.PopAfter;
  }

  lemma HeadPops(s: State, decode: R.Decoder, e: Event)
    requires e.PublicHead?
    ensures var s' := Step(s, decode, e);
            && s'.pub.popped == s.pub.popped + DueOnPub(s, e) && s'.pub.height == e.height
            && s'.jolt == s.jolt && s'.caches == s.caches
  {
    DrainPops(S.Step(s.pub, S.Tick(e.height)), e.outcome);
    DrainKeepsHeight(S.Step(s.pub, S.Tick(e.height)), e.outcome);
    hide S.PopAfter, Due;
  }

  lemma StepPops(s: State, decode: R.Decoder, e: Event)
    ensures Step(s, decode, e).jolt.popped == s.jolt.popped + DueOnJolt(s, decode, e)
    ensures Step(s, decode, e).pub.popped == s.pub.popped + DueOnPub(s, e)
  {
    if e.JoltifyBlock? {
      BlockPops(s, decode, e);
    } else {
      HeadPops(s, decode, e);
    }
    hide Step, Due, RetiredAt;
    assert s.jolt.popped + [] == s.jolt.popped && s.pub.popped + [] == s.pub.popped;
  }

  ghost function JoltDues(s: State, decode: R.Decoder, events: seq<Event>): seq<int>
    decreases |events|
  {
    if events == [] then []
    else DueOnJolt(s, decode, events[0]) + JoltDues(Step(s, decode, events[0]), decode, events[1..])
  }

  ghost function PubDues(s: State, decode: R.Decoder, events: seq<Event>): seq<int>
    decreases |events|
  {
    if events == [] then [] else DueOnPub(s, events[0]) + PubDues(Step(s, decode, events[0]), decode, events[1..])
  }

  /**
   * Over every run the jobs taken are, in order, those due: on the Joltify chain at the blocks whose answer has two
   * keys and which find the caches filled, and at no others; on the public chain at every head.
   */
  lemma {:induction false} DrainsOverRuns(s: State, decode: R.Decoder, events: seq<Event>)
    ensures Run(s, decode, events).jolt.popped == s.jolt.popped + JoltDues(s, decode, events)
    ensures Run(s, decode, events).pub.popped == s.pub.popped + PubDues(s, decode, events)
    decreases |events|
  {
    if events == [] {
      assert s.jolt.popped + [] == s.jolt.popped && s.pub.popped + [] == s.pub.popped;
    } else {
      hide Step, DueOnJolt, DueOnPub;
      var e, s', rest := events[0], Step(s, decode, events[0]), events[1..];
      StepPops(s, decode, e);
      DrainsOverRuns(s', decode, rest);
      Regrouped(s.jolt.popped, DueOnJolt(s, decode, e), JoltDues(s', decode, rest));
      Regrouped(s.pub.popped, DueOnPub(s, e), PubDues(s', decode, rest));
    }
  }

  // ---- What becomes of the jobs taken ----

  ghost function PoolDue(jobs: map<int, S.Pool>, height: int): multiset<S.Pool> {
    var key := S.PopAfter(jobs, height);
    if key.Some? then multiset{jobs[key.value]} else multiset{}
  }

  /** The pool whose job the event takes on the Joltify chain. */
  ghost function TakenOnJolt(s: State, decode: R.Decoder, e: Event): multiset<S.Pool> {
    if e.JoltifyBlock? && HasTwoKeys(e.answer) && s.caches.pub.older.Some?
    then PoolDue(Stored(s.jolt.jobs, e.height, RetiredAt(s, decode, e.answer)), e.height) else multiset{}
  }

  ghost function TakenOnPub(s: State, decode: R.Decoder, e: Event): multiset<S.Pool> {
    if e.PublicHead? then PoolDue(s.pub.jobs, e.height) else multiset{}
  }

  ghost predicate Fated(before: S.Side, after: S.Side, taken: multiset<S.Pool>, outcome: S.Outcome) {
    && after.emptied == before.emptied + (if outcome.Empty? then taken else multiset{})
    && after.abandoned == before.abandoned
                          + (if outcome.SignerError? || outcome.NotSigner? then taken else multiset{})
  }

  lemma DrainFates(s: S.Side, outcome: S.Outcome)
    ensures Fated(s, S.Step(s, S.Drain(outcome)), PoolDue(s.jobs, s.height), outcome)
  {
    hide S.PopAfter;
  }

  lemma BlockFates(s: State, decode: R.Decoder, e: Event)
    requires e.JoltifyBlock?
    ensures Fated(s.jolt, Step(s, decode, e).jolt, TakenOnJolt(s, decode, e), e.outcome)
    ensures Fated(s.pub, Step(s, decode, e).pub, multiset{}, e.outcome)
  {
    hide Step, BeforeDrain, DrainsJolt, S.Step, PoolDue, Stored, RetiredAt;
    StepIsDrain(s, decode, e);
    BeforeDrainIs(s, decode, e);
    DrainFates(BeforeDrain(s, decode, e).jolt, e.outcome);
  }

  lemma HeadFates(s: State, decode: R.Decoder, e: Event)
    requires e.PublicHead?
    ensures Fated(s.pub, Step(s, decode, e).pub, TakenOnPub(s, decode, e), e.outcome)
    ensures Fated(s.jolt, Step(s, decode, e).jolt, multiset{}, e.outcome)
  {
    hide S.PopAfter, PoolDue;
    DrainFates(S.Step(s.pub, S.Tick(e.height)), e.outcome);
  }

  /** Which event finishes a job, and which gives it up. */
  ghost function EmptiedBy(e: Event, taken: multiset<S.Pool>): multiset<S.Pool> {
    if e.outcome.Empty? then taken else multiset{}
  }

  ghost function AbandonedBy(e: Event, taken: multiset<S.Pool>): multiset<S.Pool> {
    if e.outcome.SignerError? || e.outcome.NotSigner? then taken else multiset{}
  }

  ghost function Over(s: State, decode: R.Decoder, events: seq<Event>,
                      taken: (State, R.Decoder, Event) -> multiset<S.Pool>,
                      kind: (Event, multiset<S.Pool>) -> multiset<S.Pool>): multiset<S.Pool>
    decreases |events|
  {
    if events == [] then multiset{}
    else
      kind(events[0], taken(s, decode, events[0]))
      + Over(Step(s, decode, events[0]), decode, events[1..], taken, kind)
  }

  lemma StepFates(s: State, decode: R.Decoder, e: Event)
    ensures var s', j, p := Step(s, decode, e), TakenOnJolt(s, decode, e), TakenOnPub(s, decode, e);
            && s'.jolt.emptied == s.jolt.emptied + EmptiedBy(e, j)
            && s'.jolt.abandoned == s.jolt.abandoned + AbandonedBy(e, j)
            && s'.pub.emptied == s.pub.emptied + EmptiedBy(e, p)
            && s'.pub.abandoned == s.pub.abandoned + AbandonedBy(e, p)
  {
    hide Step, PoolDue, RetiredAt, Stored;
    if e.JoltifyBlock? {
      BlockFates(s, decode, e);
    } else {
      HeadFates(s, decode, e);
    }
  }

  /**
   * The pools observed empty over every run are those whose job a drain took that found the account empty, and those
   * abandoned the ones whose job a drain took that failed the signer check; all other jobs taken go back.
   */
  lemma {:induction false} FatesOverRuns(s: State, decode: R.Decoder, events: seq<Event>)
    ensures var s' := Run(s, decode, events);
            && s'.jolt.emptied == s.jolt.emptied + Over(s, decode, events, TakenOnJolt, EmptiedBy)
            && s'.jolt.abandoned == s.jolt.abandoned + Over(s, decode, events, TakenOnJolt, AbandonedBy)
            && s'.pub.emptied == s.pub.emptied + Over(s, decode, events, TakenOnPub, EmptiedBy)
            && s'.pub.abandoned == s.pub.abandoned + Over(s, decode, events, TakenOnPub, AbandonedBy)
    decreases |events|
  {
    if events == [] {
    } else {
      hide Step, TakenOnJolt, TakenOnPub, EmptiedBy, AbandonedBy;
      StepFates(s, decode, events[0]);
      FatesOverRuns(Step(s, decode, events[0]), decode, events[1..]);
    }
  }
}
