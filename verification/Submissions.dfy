/** When an index can be minted twice: the submissions of a run, and when they land. */
module Submissions {
  import opened ByteTypes
  import opened InboundFlow
  import opened Landing
  import M = MatcherSpec

  lemma {:induction false} EnqueueKeepsRest(keccak: Hasher, l: Life, outs: seq<M.Output>)
    ensures var l' := EnqueueAll(keccak, l, outs);
            l'.chain == l.chain && l'.awaiting == l.awaiting && l'.confirmed == l.confirmed
    decreases |outs|
  {
    if outs == [] {
    } else {
      EnqueueKeepsRest(keccak, LifeStep(keccak, l, Enqueue(outs[0])), outs[1..]);
    }
  }

  /** A submission is sent that the chain takes. */
  predicate Submits(l: Life, e: LifeEvent) {
    e.Process? && l.channel != [] && e.answer.Looked? && !e.answer.seen && e.answer.sent
  }

  /** A request is submitted although its index is on the chain: its lookup missed it. */
  ghost predicate SubmitsRecorded(keccak: Hasher, l: Life, e: LifeEvent) {
    Submits(l, e) && SendsRecorded(l.chain, SubmissionOf(keccak, l.channel[0], e.answer))
  }

  /**
   * A request is submitted while a submission for its index can still land that carries another account or another
   * number: both could be recorded.
   */
  ghost predicate SubmitsBeside(keccak: Hasher, l: Life, e: LifeEvent) {
    Submits(l, e) && SendsBeside(l.chain, SubmissionOf(keccak, l.channel[0], e.answer))
  }

  ghost predicate SubmitsRiskily(keccak: Hasher, s: Inbound, e: Event) {
    e.OnLife? && (SubmitsRecorded(keccak, s.life, e.life) || SubmitsBeside(keccak, s.life, e.life))
  }

  lemma ProcessIsSent(keccak: Hasher, l: Life, answer: Answer)
    requires l.channel != []
    ensures LifeStep(keccak, l, Process(answer)).chain == ChainAfter(keccak, l.chain, l.channel[0], answer)
  {
  }

  lemma ProcessKeepsSafeIff(keccak: Hasher, l: Life, answer: Answer)
    requires l.channel != [] && Safe(l.chain)
    ensures Safe(LifeStep(keccak, l, Process(answer)).chain)
            <==> !SubmitsRecorded(keccak, l, Process(answer)) && !SubmitsBeside(keccak, l, Process(answer))
  {
    hide Safe, LifeStep, SendsRecorded, SendsBeside, Broadcast;
    ProcessIsSent(keccak, l, answer);
    if Submits(l, Process(answer)) {
      SendKeepsSafeIff(l.chain, SubmissionOf(keccak, l.channel[0], answer));
    }
  }

  /** A step makes a safe chain unsafe exactly by a risky submission, and on a safe one no index is recorded again. */
  lemma StepKeepsSafeIff(keccak: Hasher, s: Inbound, e: Event)
    requires StepEnabled(keccak, s, e) && Safe(s.life.chain) && RecordedOnce(s.life.chain.recorded)
    ensures Safe(Step(keccak, s, e).life.chain) <==> !SubmitsRiskily(keccak, s, e)
    ensures RecordedOnce(Step(keccak, s, e).life.chain.recorded)
  {
    hide Safe, EnqueueAll, AllEnabled, RecordedOnce, Landed, Advanced, LandsAgain;
    match e
    case OnHead(h) => EnqueueKeepsRest(keccak, s.life, HeadRun(s.matcher, h).1);
    case OnLife(le) =>
      match le {
        case Process(answer) =>
          ProcessKeepsSafeIff(keccak, s.life, answer);
          ProcessIsSent(keccak, s.life, answer);
        case Land(n) =>
          LandKeepsSafe(s.life.chain, n);
          LandRecordsOnceIff(s.life.chain, n);
        case Advance(account, times) =>
          AdvanceKeepsSafe(s.life.chain, account, times);
          AdvanceKeepsRest(s.life.chain, account, times);
        case Enqueue(_) =>
        case Retry(_) =>
        case Status(_, _) =>
      }
  }

  ghost predicate NeverSubmitsRiskily(keccak: Hasher, s: Inbound, events: seq<Event>)
    decreases |events|
  {
    events != [] ==>
      && !SubmitsRiskily(keccak, s, events[0])
      && NeverSubmitsRiskily(keccak, Step(keccak, s, events[0]), events[1..])
  }

  /** Whatever the chain still records, in whatever order, every index is on it at most once. */
  ghost predicate CannotMintTwice(c: MintChain) {
    forall moves :: Possible(c, moves) ==> RecordedOnce(Moved(c, moves).recorded)
  }

  lemma SafeIff(c: MintChain)
    requires RecordedOnce(c.recorded)
    ensures Safe(c) <==> CannotMintTwice(c)
  {
    if Safe(c) {
      forall moves | Possible(c, moves) ensures RecordedOnce(Moved(c, moves).recorded) {
        SafeStaysSafe(c, moves);
      }
    } else {
      var moves := UnsafeCanRecordTwice(c);
    }
  }

  /** So at every moment of the run. */
  ghost predicate NeverCanMintTwice(keccak: Hasher, s: Inbound, events: seq<Event>)
    decreases |events|
  {
    && CannotMintTwice(s.life.chain)
    && (events != [] ==> NeverCanMintTwice(keccak, Step(keccak, s, events[0]), events[1..]))
  }

  /**
   * Over every run, with no trust in any answer: at no moment can the submissions in flight come to mint an index
   * twice, exactly if no request is submitted whose index is already on the chain, or while a submission for its
   * index can still land that carries another account or number.
   */
  lemma {:induction false} NeverCanMintTwiceIff(keccak: Hasher, s: Inbound, events: seq<Event>)
    requires Legal(keccak, s, events) && Safe(s.life.chain) && RecordedOnce(s.life.chain.recorded)
    ensures NeverCanMintTwice(keccak, s, events) <==> NeverSubmitsRiskily(keccak, s, events)
    ensures NeverSubmitsRiskily(keccak, s, events) ==> RecordedOnce(RunAll(keccak, s, events).life.chain.recorded)
    decreases |events|
  {
    SafeIff(s.life.chain);
    if events == [] {
    } else {
      hide Safe, Step, StepEnabled, SubmitsRiskily, RecordedOnce, CannotMintTwice;
      var s' := Step(keccak, s, events[0]);
      StepKeepsSafeIff(keccak, s, events[0]);
      if SubmitsRiskily(keccak, s, events[0]) {
        UnsafeNow(keccak, s', events[1..]);
      } else {
        NeverCanMintTwiceIff(keccak, s', events[1..]);
      }
    }
  }

  lemma UnsafeNow(keccak: Hasher, s: Inbound, events: seq<Event>)
    requires !Safe(s.life.chain) && RecordedOnce(s.life.chain.recorded)
    ensures !NeverCanMintTwice(keccak, s, events)
  {
    SafeIff(s.life.chain);
  }

  // ---- Runs that tell the truth ----

  /** No submission in flight carries a number its account has not reached: true where account queries are truthful. */
  ghost predicate NoneAhead(c: MintChain) {
    forall n :: 0 <= n < |c.inFlight| ==> c.inFlight[n].number <= NumberOf(c, c.inFlight[n].account)
  }

  /** A request is submitted while another account's submission for its index can still land. */
  ghost predicate SubmitsAcross(keccak: Hasher, s: Inbound, e: Event) {
    && e.OnLife? && Submits(s.life, e.life)
    && Live(s.life.chain, SubmissionOf(keccak, s.life.channel[0], e.life.answer))
    && exists n: nat :: Threatens(s.life.chain, n, Index(keccak, s.life.channel[0]))
                        && s.life.chain.inFlight[n].account != e.life.answer.signer
  }

  lemma TruthfulRiskIff(keccak: Hasher, s: Inbound, e: Event)
    requires NoneAhead(s.life.chain)
    requires e.OnLife? ==> QueryTruthful(s.life, e.life) && LookupTruthful(keccak, s.life, e.life)
    ensures SubmitsRiskily(keccak, s, e) <==> SubmitsAcross(keccak, s, e)
  {
    if e.OnLife? && Submits(s.life, e.life) {
      var c, sub := s.life.chain, SubmissionOf(keccak, s.life.channel[0], e.life.answer);
      assert forall n: nat, key :: Threatens(c, n, key) ==> c.inFlight[n].number == NumberOf(c, c.inFlight[n].account);
      assert Live(c, sub) ==> sub.number == NumberOf(c, sub.account);
    }
  }

  lemma LandKeepsNoneAhead(c: MintChain, n: nat)
    requires NoneAhead(c) && n < |c.inFlight|
    ensures NoneAhead(Landed(c, n))
  {
    forall k | 0 <= k < |Landed(c, n).inFlight|
      ensures Landed(c, n).inFlight[k].number <= NumberOf(Landed(c, n), Landed(c, n).inFlight[k].account)
    {
      LandedInFlight(c, n, k);
    }
  }

  lemma StepKeepsNoneAhead(keccak: Hasher, s: Inbound, e: Event)
    requires NoneAhead(s.life.chain) && StepEnabled(keccak, s, e) && (e.OnLife? ==> QueryTruthful(s.life, e.life))
    ensures NoneAhead(Step(keccak, s, e).life.chain)
  {
    hide EnqueueAll, AllEnabled, Landed;
    match e
    case OnHead(h) => EnqueueKeepsRest(keccak, s.life, HeadRun(s.matcher, h).1);
    case OnLife(le) =>
      if le.Land? {
        LandKeepsNoneAhead(s.life.chain, le.n);
      }
  }

  ghost predicate NeverSubmitsAcross(keccak: Hasher, s: Inbound, events: seq<Event>)
    decreases |events|
  {
    events != [] ==>
      && !SubmitsAcross(keccak, s, events[0])
      && NeverSubmitsAcross(keccak, Step(keccak, s, events[0]), events[1..])
  }

  /**
   * On runs with truthful account queries and lookups the only risk is another account: the account is queried
   * before the lookup, so of two submissions of one account that could both land the second would have found the
   * first recorded.
   */
  lemma {:induction false} HonestRiskIff(keccak: Hasher, s: Inbound, events: seq<Event>)
    requires Legal(keccak, s, events) && Honest(keccak, s, events) && NoneAhead(s.life.chain)
    ensures NeverSubmitsRiskily(keccak, s, events) <==> NeverSubmitsAcross(keccak, s, events)
    decreases |events|
  {
    if events == [] {
    } else {
      hide Step, StepEnabled, SubmitsRiskily, SubmitsAcross, NoneAhead, QueryTruthful, LookupTruthful;
      TruthfulRiskIff(keccak, s, events[0]);
      StepKeepsNoneAhead(keccak, s, events[0]);
      HonestRiskIff(keccak, Step(keccak, s, events[0]), events[1..]);
    }
  }

  /** Every submission of the run, in flight or to come, is signed by this account. */
  ghost predicate SignedBy(account: Address, c: MintChain, events: seq<Event>) {
    && (forall sub :: sub in c.inFlight ==> sub.account == account)
    && (forall e :: e in events && e.OnLife? && e.life.Process? && e.life.answer.Looked? ==>
          e.life.answer.signer == account)
  }

  lemma StepSignedBy(keccak: Hasher, s: Inbound, e: Event, account: Address)
    requires SignedBy(account, s.life.chain, [e])
    ensures SignedBy(account, Step(keccak, s, e).life.chain, []) && !SubmitsAcross(keccak, s, e)
  {
    hide EnqueueAll;
    assert e in [e];
    if e.OnHead? {
      EnqueueKeepsRest(keccak, s.life, HeadRun(s.matcher, e.head).1);
    } else if e.life.Land? && e.life.n < |s.life.chain.inFlight| {
      assert forall k :: 0 <= k < |Landed(s.life.chain, e.life.n).inFlight| ==>
          Landed(s.life.chain, e.life.n).inFlight[k] in s.life.chain.inFlight;
    }
  }

  lemma {:induction false} OneAccountNeverAcross(keccak: Hasher, s: Inbound, events: seq<Event>, account: Address)
    requires SignedBy(account, s.life.chain, events)
    ensures NeverSubmitsAcross(keccak, s, events)
    decreases |events|
  {
    if events == [] {
    } else {
      hide Step, SubmitsAcross;
      assert events[0] in events;
      StepSignedBy(keccak, s, events[0], account);
      OneAccountNeverAcross(keccak, Step(keccak, s, events[0]), events[1..], account);
    }
  }

  /**
   * As long as one pool signs and queries and lookups are truthful, no index can come to be minted twice, however late
   * submissions land and however often requests are submitted again.
   */
  lemma OnePoolMintsOnce(keccak: Hasher, s: Inbound, events: seq<Event>, account: Address)
    requires Legal(keccak, s, events) && Honest(keccak, s, events) && SignedBy(account, s.life.chain, events)
    requires Safe(s.life.chain) && RecordedOnce(s.life.chain.recorded) && NoneAhead(s.life.chain)
    ensures NeverCanMintTwice(keccak, s, events) && RecordedOnce(RunAll(keccak, s, events).life.chain.recorded)
  {
    OneAccountNeverAcross(keccak, s, events, account);
    HonestRiskIff(keccak, s, events);
    NeverCanMintTwiceIff(keccak, s, events);
  }
}
