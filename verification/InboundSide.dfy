/** Matcher and queue together: a public-chain head as the event loop handles it on the inbound side. */
module InboundSide {
  import opened ByteTypes
  import opened InboundFlow
  import Matcher
  import Q = InboundQueue
  import T = MatcherTheorems
  import M = MatcherSpec

  lemma {:induction false} RunSendsAt(s: M.State, events: seq<M.Event>, h: nat)
    requires forall e :: e in events && e.TokenEvent? ==> e.height == h
    ensures forall x :: x in Q.SentHeights(M.Run(s, events).1) ==> x == h
    decreases |events|
  {
    if events == [] {
    } else {
      var (s', out) := M.Apply(s, events[0]);
      RunSendsAt(s', events[1..], h);
      Q.SentHeightsAppend(out, M.Run(s', events[1..]).1);
      assert |out| <= 1 && (out != [] ==> out[1..] == []);
      assert events[0] in events;
    }
  }

  /** What a head sends to the channel carries its number. */
  lemma HeadSendsAt(s: M.State, h: T.Head)
    ensures forall x :: x in Q.SentHeights(HeadRun(s, h).1) ==> x == h.number
  {
    if h.block.Some? {
      T.BlockHeights(s, h.bridge, h.block.value, h.number);
    }
    RunSendsAt(s, M.HeadEvents(s, h.bridge, h.number, h.block), h.number);
  }

  class InboundSide {
    const matcher: Matcher.InboundMatcher
    const queue: Q.InboundQueue
    /** The ids of the calls counted as deposits. */
    ghost var seen: set<Bytes>

    ghost predicate Valid()
      reads this, matcher, queue, queue.retry
    {
      matcher.Valid() && queue.Valid()
    }

    ghost function View(): Inbound
      reads this, matcher, matcher.pendingInbounds.Values, queue, queue.retry
    {
      Inbound(matcher.View(), queue.View(), seen)
    }

    constructor (keccak: Hasher)
      ensures Valid() && View() == START && queue.keccak == keccak
      ensures fresh(matcher) && fresh(queue) && fresh(queue.retry)
    {
      matcher := new Matcher.InboundMatcher();
      queue := new Q.InboundQueue(keccak);
      seen := {};
    }

    /** The block's releases enter the queue in order; the channel must have room for those that go there. */
    method OnHead(h: T.Head)
      requires Valid() && AllEnabled(queue.keccak, queue.View(), HeadRun(matcher.View(), h).1)
      modifies this, matcher, matcher.pendingInbounds.Values, queue, queue.retry
      ensures Valid() && View() == Step(queue.keccak, old(View()), Event.OnHead(h))
      ensures Q.Heights(queue.channel)
              == old(Q.Heights(queue.channel)) + Q.SentHeights(HeadRun(old(matcher.View()), h).1)
      ensures forall x :: x in Q.SentHeights(HeadRun(old(matcher.View()), h).1) ==> x == h.number
      ensures Q.AtZero(old(queue.retry.items.Values), queue.retry.items.Values)
    {
      hide M.Run, M.HeadEvents, AllEnabled, EnqueueAll, Hashes;
      hide Q.InboundQueue.Holding, Q.InboundQueue.View, Q.InboundQueue.Valid;
      hide Matcher.InboundMatcher.View, Matcher.InboundMatcher.Valid;
      ghost var before := View();
      HeadSendsAt(before.matcher, h);
      hide Q.Heights, Q.SentHeights;
      var outs := matcher.OnHead(h.bridge, h.number, h.block);
      queue.ReleaseAll(outs);
      seen := seen + Hashes(M.HeadEvents(before.matcher, h.bridge, h.number, h.block));
    }
  }
}
