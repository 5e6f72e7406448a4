/**
 * The queue of pool proposals a validator has yet to submit (joltifybridge/bridge.go:351-430): appended after a key
 * generation, and looked at once for every Joltify block.
 */
module Proposals {
  import opened Wrappers

  datatype Proposal = Proposal(poolPubKey: string, blockHeight: int)

  /**
   * `account` says whether the query of the creator's account went well, `due` is the height text parsed as int64;
   * `built` says whether gas estimation, signing and encoding went well, `broadcast` whether the chain took it.
   */
  datatype Event =
    | Prepare(poolPubKey: string, account: bool, due: Option<int>)
    | Block(height: int, built: bool, broadcast: bool)

  /** The cache, and the proposals taken off it so far with the height at which that was. */
  datatype State = State(cache: seq<Proposal>, taken: seq<(Proposal, int)>)

  function Step(s: State, e: Event): State {
    match e
    case Prepare(poolPubKey, account, due) =>
      if account && due.Some? then s.(cache := s.cache + [Proposal(poolPubKey, due.value)]) else s
    case Block(height, built, _) =>
      if s.cache != [] && s.cache[0].blockHeight == height && built
      then State(s.cache[1..], s.taken + [(s.cache[0], height)]) else s
  }

  function Run(s: State, events: seq<Event>): State
    decreases |events|
  {
    if events == [] then s else Run(Step(s, events[0]), events[1..])
  }

  class ProposalQueue {
    var msgSendCache: seq<Proposal>
    ghost var taken: seq<(Proposal, int)>

    ghost function View(): State
      reads this
    {
      State(msgSendCache, taken)
    }

    constructor ()
      ensures View() == State([], [])
    {
      msgSendCache, taken := [], [];
    }

    /** Appends a proposal, unless the account cannot be queried or the height not be parsed. */
    method PrepareTssPool(pubKey: string, account: bool, height: Option<int>) returns (err: bool)
      modifies this
      ensures View() == Step(old(View()), Prepare(pubKey, account, height))
      ensures err <==> msgSendCache == old(msgSendCache)
    {
      if !account {
        return true;
      }
      match height
      case None => return true;
      case Some(dHeight) =>
        msgSendCache := msgSendCache + [Proposal(pubKey, dHeight)];
        return false;
    }

    /** The key of the proposal the chain took, if it took one. */
    method CheckAndUpdatePool(blockHeight: int, built: bool, broadcast: bool) returns (done: Option<string>)
      modifies this
      ensures View() == Step(old(View()), Block(blockHeight, built, broadcast))
      ensures done == if broadcast && |msgSendCache| < |old(msgSendCache)| then Some(old(msgSendCache)[0].poolPubKey)
                      else None
    {
      if |msgSendCache| < 1 {
        return None;
      }
      var el := msgSendCache[0];
      if el.blockHeight != blockHeight || !built {
        return None;
      }
      msgSendCache := msgSendCache[1..];
      taken := taken + [(el, blockHeight)];
      return if broadcast then Some(el.poolPubKey) else None;
    }
  }

  /** What was prepared over a run. */
  function Prepared(events: seq<Event>): seq<Proposal> {
    if events == [] then [] else ComesThrough(events[0]) + Prepared(events[1..])
  }

  /** The proposal of a key generated, for the height given, if the query and the parsing go well. */
  function ComesThrough(e: Event): seq<Proposal> {
    if e.Prepare? && e.account && e.due.Some? then [Proposal(e.poolPubKey, e.due.value)] else []
  }

  function TakenProposals(taken: seq<(Proposal, int)>): seq<Proposal> {
    seq(|taken|, i requires 0 <= i < |taken| => taken[i].0)
  }

  /** First in, first out: what was prepared is, in order, what was taken and what still waits. */
  lemma {:induction false} FirstInFirstOut(s: State, events: seq<Event>)
    ensures var s' := Run(s, events);
            TakenProposals(s'.taken) + s'.cache == TakenProposals(s.taken) + s.cache + Prepared(events)
    decreases |events|
  {
    if events == [] {
      assert TakenProposals(s.taken) + s.cache + [] == TakenProposals(s.taken) + s.cache;
    } else {
      var s1 := Step(s, events[0]);
      FirstInFirstOut(s1, events[1..]);
      var now := ComesThrough(events[0]);
      assert TakenProposals(s1.taken) + s1.cache == TakenProposals(s.taken) + s.cache + now;
      var sofar := TakenProposals(s.taken) + s.cache;
      assert (sofar + now) + Prepared(events[1..]) == sofar + (now + Prepared(events[1..]));
    }
  }

  /** Block heights go up strictly. */
  ghost predicate Rising(height: int, events: seq<Event>)
    decreases |events|
  {
    events != [] ==>
      if events[0].Block? then height < events[0].height && Rising(events[0].height, events[1..])
      else Rising(height, events[1..])
  }

  ghost predicate Builds(events: seq<Event>, height: int) {
    exists e :: e in events && e.Block? && e.height == height && e.built
  }

  /** Every proposal is taken at its own height. */
  ghost predicate OnTime(s: State) {
    forall t :: t in s.taken ==> t.1 == t.0.blockHeight
  }

  lemma {:induction false} TakenOnTime(s: State, events: seq<Event>)
    requires OnTime(s)
    ensures OnTime(Run(s, events)) && s.taken <= Run(s, events).taken
    decreases |events|
  {
    if events == [] {
    } else {
      TakenOnTime(Step(s, events[0]), events[1..]);
    }
  }

  lemma {:induction false} NoBuildBelow(height: int, events: seq<Event>, h: int)
    requires Rising(height, events) && h <= height
    ensures !Builds(events, h)
    decreases |events|
  {
    if events == [] {
    } else {
      var now := if events[0].Block? then events[0].height else height;
      NoBuildBelow(now, events[1..], h);
      assert events == [events[0]] + events[1..];
    }
  }

  /**
   * The head of the queue leaves it over a run exactly when a block at its own height gets its transaction built; so
   * once that height has passed, neither it nor any proposal behind it is ever taken.
   */
  lemma {:induction false} HeadLeavesIff(s: State, height: int, events: seq<Event>)
    requires s.cache != [] && Rising(height, events)
    ensures Run(s, events).taken != s.taken <==> Builds(events, s.cache[0].blockHeight)
    ensures s.cache[0].blockHeight <= height ==> Run(s, events).taken == s.taken && s.cache <= Run(s, events).cache
    decreases |events|
  {
    if events == [] {
    } else {
      var s1, h := Step(s, events[0]), s.cache[0].blockHeight;
      var now := if events[0].Block? then events[0].height else height;
      assert Builds(events, h)
          <==> (events[0].Block? && events[0].height == h && events[0].built) || Builds(events[1..], h) by {
        assert events == [events[0]] + events[1..];
        assert events[0] in events;
      }
      if s1.taken != s.taken {
        GrowsOnly(s1, events[1..]);
      } else {
        HeadLeavesIff(s1, now, events[1..]);
      }
    }
  }

  lemma {:induction false} GrowsOnly(s: State, events: seq<Event>)
    ensures s.taken <= Run(s, events).taken
    decreases |events|
  {
    if events == [] {
    } else {
      GrowsOnly(Step(s, events[0]), events[1..]);
    }
  }
}
