/** The part of the event loop that keeps the pool caches and drains retired pools. */
module PoolKeeper {
  import opened Config
  import opened Wrappers
  import S = Scheduler
  import R = Rotation
  import D = Draining

  lemma CoherentAfter(c: R.Caches, decode: R.Decoder, answer: R.Answer)
    requires R.Coherent(c)
    ensures R.Coherent(R.OnAnswer(c, decode, answer).caches)
  {
    R.CachesAgree(c, decode, [answer]);
    assert [answer][1..] == [];
  }

  class PoolKeeper {
    const decode: R.Decoder
    var pubPools: R.Slots
    var joltPools: R.Slots
    const pubQueue: S.MoveFundQueue<S.Pool>
    const joltQueue: S.MoveFundQueue<S.Pool>
    var pubHeight: int
    var joltHeight: int
    /** The history of each side's jobs. */
    ghost var pubSide: S.Side
    ghost var joltSide: S.Side

    ghost predicate Valid()
      reads this, pubQueue, joltQueue
    {
      && pubQueue != joltQueue
      && pubSide.jobs == pubQueue.moveFundReq && pubSide.height == pubHeight
      && joltSide.jobs == joltQueue.moveFundReq && joltSide.height == joltHeight
    }

    ghost function Caches(): R.Caches
      reads this
    {
      R.Caches(pubPools, joltPools)
    }

    ghost function View(): D.State
      reads this
    {
      D.State(Caches(), joltSide, pubSide)
    }

    constructor (decode: R.Decoder)
      ensures Valid() && this.decode == decode && fresh(pubQueue) && fresh(joltQueue)
      ensures View() == D.START
    {
      this.decode := decode;
      pubPools, joltPools := R.NO_POOLS, R.NO_POOLS;
      pubQueue := new S.MoveFundQueue<S.Pool>();
      joltQueue := new S.MoveFundQueue<S.Pool>();
      pubHeight, joltHeight := 0, 0;
      pubSide, joltSide := S.START, S.START;
    }

    /** Collects the two converted keys, then compares them with the cache in reverse. */
    method NeedUpdate(pks: seq<string>) returns (need: bool)
      requires |pks| == 2
      ensures need == R.NeedsUpdate(decode, pks, pubPools)
    {
      if pubPools.older.None? || pubPools.latest.None? {
        return true;
      }
      var qPools: seq<S.Pool> := [];
      for i := 0 to 2
        invariant |qPools| == i
        invariant forall j :: 0 <= j < i ==> decode(pks[j]) == Some(qPools[j])
      {
        var p := decode(pks[i]);
        if p.None? {
          return false;
        }
        qPools := qPools + [p.value];
      }
      need := !(qPools[0].joltAddress == pubPools.latest.value.joltAddress
                && qPools[1].joltAddress == pubPools.older.value.joltAddress);
    }

    method UpdatePubPool(pk: string)
      modifies `pubPools
      ensures pubPools == R.Update(old(pubPools), decode, pk)
    {
      var p := decode(pk);
      if p.Some? {
        if pubPools.latest.Some? {
          pubPools := pubPools.(older := pubPools.latest);
        }
        pubPools := pubPools.(latest := p);
      }
    }

    /** Also returns the pool that was in the first slot; None for a key that does not convert. */
    method UpdateJoltPool(pk: string) returns (previous: Option<S.Pool>)
      modifies `joltPools
      ensures joltPools == R.Update(old(joltPools), decode, pk)
      ensures previous == if decode(pk).Some? then old(joltPools).older else None
    {
      var p := decode(pk);
      if p.None? {
        return None;
      }
      previous := joltPools.older;
      if joltPools.latest.Some? {
        joltPools := joltPools.(older := joltPools.latest);
      }
      joltPools := joltPools.(latest := p);
    }

    /** Fills or rotates the caches; `retired` has been scheduled on both sides. */
    method FollowChain(answer: R.Answer) returns (proceed: bool, ghost retired: Option<S.Pool>)
      requires Valid() && R.Coherent(Caches())
      modifies this, pubQueue, joltQueue
      ensures Valid() && pubHeight == old(pubHeight) && joltHeight == old(joltHeight)
      ensures R.Rotated(Caches(), proceed, retired) == R.OnAnswer(old(Caches()), decode, answer)
      ensures pubSide == (if retired.Some? then S.Step(old(pubSide), S.Retire(retired.value)) else old(pubSide))
      ensures joltSide == (if retired.Some? then S.Step(old(joltSide), S.Retire(retired.value)) else old(joltSide))
    {
      retired := None;
      if answer.None? || |answer.value| != 2 {
        return false, None;
      }
      var pks := answer.value;
      if pubPools.older.None? {
        for i := 0 to 2
          invariant Valid() && pubHeight == old(pubHeight) && joltHeight == old(joltHeight)
          invariant pubSide == old(pubSide) && joltSide == old(joltSide)
          invariant i == 0 ==> Caches() == old(Caches())
          invariant i == 1 ==> Caches() == R.Caches(R.Update(old(pubPools), decode, pks[0]),
                                                    R.Update(old(joltPools), decode, pks[0]))
          invariant i == 2 ==> Caches() == R.FirstFill(old(Caches()), decode, pks)
        {
          UpdatePubPool(pks[i]);
          var _ := UpdateJoltPool(pks[i]);
        }
        return false, None;
      }
      var need := NeedUpdate(pks);
      if need {
        R.RotationHasPrevious(Caches(), decode, pks);
        UpdatePubPool(pks[0]);
        var previous := UpdateJoltPool(pks[0]);
        if previous.value.pk != pks[0] {
          joltQueue.AddMoveFundItem(previous.value, joltHeight - MIN_CHECK_BLOCK_GAP + 5);
          pubQueue.AddMoveFundItem(previous.value, pubHeight - MIN_CHECK_BLOCK_GAP + 5);
          retired := previous;
          joltSide := S.Step(joltSide, S.Retire(previous.value));
          pubSide := S.Step(pubSide, S.Retire(previous.value));
        }
      }
      proceed := true;
    }

    /** Takes the oldest job, if it is old enough, and puts it back unless it is finished with. */
    method DrainJolt(outcome: S.Outcome)
      requires Valid()
      modifies `joltSide, joltQueue
      ensures Valid() && joltSide == S.Step(old(joltSide), S.Drain(outcome))
      ensures pubQueue.moveFundReq == old(pubQueue.moveFundReq)
    {
      hide S.PopAfter;
      var item := joltQueue.PopMoveFundItemAfterBlock(joltHeight);
      if item.Some? && !outcome.SignerError? && !outcome.NotSigner? && !outcome.Empty? {
        joltQueue.AddMoveFundItem(item.value.0, joltHeight);
      }
      joltSide := S.Step(joltSide, S.Drain(outcome));
    }

    method DrainPub(outcome: S.Outcome)
      requires Valid()
      modifies `pubSide, pubQueue
      ensures Valid() && pubSide == S.Step(old(pubSide), S.Drain(outcome))
      ensures joltQueue.moveFundReq == old(joltQueue.moveFundReq)
    {
      hide S.PopAfter;
      var item := pubQueue.PopMoveFundItemAfterBlock(pubHeight);
      if item.Some? && !outcome.SignerError? && !outcome.NotSigner? && !outcome.Empty? {
        pubQueue.AddMoveFundItem(item.value.0, pubHeight);
      }
      pubSide := S.Step(pubSide, S.Drain(outcome));
    }

    /** A new Joltify block. */
    method OnJoltifyBlock(height: int, answer: R.Answer, outcome: S.Outcome)
      requires Valid() && R.Coherent(Caches())
      modifies this, pubQueue, joltQueue
      ensures Valid() && R.Coherent(Caches())
      ensures View() == D.Step(old(View()), decode, D.JoltifyBlock(height, answer, outcome))
    {
      ghost var e := D.JoltifyBlock(height, answer, outcome);
      D.StepIsDrain(View(), decode, e);
      CoherentAfter(Caches(), decode, answer);
      hide D.Step, R.OnAnswer, R.Coherent, S.PopAfter;
      SetJoltHeight(height);
      var proceed, retired := FollowChain(answer);
      if proceed {
        DrainJolt(outcome);
      }
    }

    method SetJoltHeight(height: int)
      requires Valid()
      modifies `joltHeight, `joltSide
      ensures Valid() && joltSide == S.Step(old(joltSide), S.Tick(height))
    {
      joltHeight := height;
      joltSide := S.Step(joltSide, S.Tick(height));
    }

    /** A new public-chain head, after its block has been processed. */
    method OnPublicHead(height: int, outcome: S.Outcome)
      requires Valid()
      modifies this, pubQueue
      ensures Valid() && View() == D.Step(old(View()), decode, D.PublicHead(height, outcome))
    {
      pubHeight := height;
      pubSide := S.Step(pubSide, S.Tick(height));
      DrainPub(outcome);
    }
  }
}
