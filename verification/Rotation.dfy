/**
 * The two cached pool windows and how they follow the pair of pools on the Joltify chain
 * (bridge/joltifyBridge.go:179-222, bridge/helper.go:9-36, joltifybridge/tx_outbound.go:122-153,
 * pubchain/tx_inbound.go:223-256).
 */
module Rotation {
  import opened Wrappers
  import opened Collections
  import opened Scheduler

  /** The two slots of a cache: index 0 and index 1. */
  datatype Slots = Slots(older: Option<Pool>, latest: Option<Pool>)

  const NO_POOLS := Slots(None, None)

  /** The pool a public key stands for, where the key converts to both addresses. */
  type Decoder = string -> Option<Pool>

  /** The chain's answer: None for a failed query, otherwise public keys, the latest first. */
  type Answer = Option<seq<string>>

  function Update(slots: Slots, decode: Decoder, pk: string): Slots {
    match decode(pk)
    case None => slots
    case Some(p) => Slots(if slots.latest.Some? then slots.latest else slots.older, Some(p))
  }

  /**
   * Whether the pair differs from the cache, compared by Joltify address; a key that does not convert stops the
   * test.
   */
  function NeedsUpdate(decode: Decoder, pks: seq<string>, cache: Slots): bool
    requires |pks| == 2
  {
    if cache.older.None? || cache.latest.None? then true
    else if decode(pks[0]).None? || decode(pks[1]).None? then false
    else
      || decode(pks[0]).value.joltAddress != cache.latest.value.joltAddress
      || decode(pks[1]).value.joltAddress != cache.older.value.joltAddress
  }

  datatype Caches = Caches(pub: Slots, jolt: Slots)

  const EMPTY := Caches(NO_POOLS, NO_POOLS)

  /** `proceed` tells whether the block goes on to the drain; `retired` is the pool it schedules for draining. */
  datatype Rotated = Rotated(caches: Caches, proceed: bool, retired: Option<Pool>)

  function FirstFill(c: Caches, decode: Decoder, pks: seq<string>): Caches
    requires |pks| == 2
  {
    Caches(Update(Update(c.pub, decode, pks[0]), decode, pks[1]),
           Update(Update(c.jolt, decode, pks[0]), decode, pks[1]))
  }

  function OnAnswer(c: Caches, decode: Decoder, answer: Answer): Rotated {
    if answer.None? || |answer.value| != 2 then Rotated(c, false, None)
    else
      var pks := answer.value;
      if c.pub.older.None? then Rotated(FirstFill(c, decode, pks), false, None)
      else if NeedsUpdate(decode, pks, c.pub) then
        var previous := c.jolt.older;
        Rotated(Caches(Update(c.pub, decode, pks[0]), Update(c.jolt, decode, pks[0])), true,
                if previous.Some? && previous.value.pk != pks[0] then previous else None)
      else Rotated(c, true, None)
  }

  // ---- Runs ----

  function Run(c: Caches, decode: Decoder, answers: seq<Answer>): Caches
    decreases |answers|
  {
    if answers == [] then c else Run(OnAnswer(c, decode, answers[0]).caches, decode, answers[1..])
  }

  /** The pools scheduled for draining over a run, in order. */
  function Retired(c: Caches, decode: Decoder, answers: seq<Answer>): seq<Pool>
    decreases |answers|
  {
    if answers == [] then []
    else
      var r := OnAnswer(c, decode, answers[0]);
      (if r.retired.Some? then [r.retired.value] else []) + Retired(r.caches, decode, answers[1..])
  }

  /** A window fills its second slot first. */
  ghost predicate Coherent(c: Caches) {
    c.pub == c.jolt && (c.pub.older.Some? ==> c.pub.latest.Some?)
  }

  /** Both caches are equal after any answers whatever, failed queries and bad keys included. */
  lemma {:induction false} CachesAgree(c: Caches, decode: Decoder, answers: seq<Answer>)
    requires Coherent(c)
    ensures Coherent(Run(c, decode, answers))
    decreases |answers|
  {
    if answers == [] {
    } else {
      CachesAgree(OnAnswer(c, decode, answers[0]).caches, decode, answers[1..]);
    }
  }

  /** The pools an answer pushes into a window: both of the first pair, latest first; later the latest of a new pair. */
  ghost function Pushed(decode: Decoder, slots: Slots, answer: Answer): seq<Pool> {
    if answer.None? || |answer.value| != 2 then []
    else if slots.older.None? then Converted(decode, answer.value[0]) + Converted(decode, answer.value[1])
    else if slots.latest.Some? && Shows(decode, slots, answer.value) then []
    else if slots.latest.Some? && exists i :: 0 <= i < 2 && decode(answer.value[i]).None? then []
    else Converted(decode, answer.value[0])
  }

  ghost function Converted(decode: Decoder, pk: string): seq<Pool> {
    if decode(pk).Some? then [decode(pk).value] else []
  }

  /** The window shows the pair: its pools have the addresses of the keys. */
  ghost predicate Shows(decode: Decoder, slots: Slots, pks: seq<string>)
    requires |pks| == 2 && slots.older.Some? && slots.latest.Some?
  {
    && decode(pks[0]).Some? && decode(pks[0]).value.joltAddress == slots.latest.value.joltAddress
    && decode(pks[1]).Some? && decode(pks[1]).value.joltAddress == slots.older.value.joltAddress
  }

  /** Exactly when a full cache needs no update: a key does not convert, or it shows the pair. */
  lemma NeedsUpdateIff(decode: Decoder, pks: seq<string>, slots: Slots)
    requires |pks| == 2
    ensures slots.older.None? || slots.latest.None? ==> NeedsUpdate(decode, pks, slots)
    ensures slots.older.Some? && slots.latest.Some? ==>
              (NeedsUpdate(decode, pks, slots)
               <==> (forall pk :: pk in pks ==> decode(pk).Some?) && !Shows(decode, slots, pks))
  {
    assert pks[0] in pks && pks[1] in pks;
  }

  ghost function AllPushed(c: Caches, decode: Decoder, answers: seq<Answer>): seq<Pool>
    decreases |answers|
  {
    if answers == [] then []
    else Pushed(decode, c.pub, answers[0]) + AllPushed(OnAnswer(c, decode, answers[0]).caches, decode, answers[1..])
  }

  /** The window holds the last two of these pools, the last one as the latest. */
  ghost predicate LastTwo(slots: Slots, pools: seq<Pool>) {
    && slots.latest == (if |pools| >= 1 then Some(pools[|pools| - 1]) else None)
    && slots.older == (if |pools| >= 2 then Some(pools[|pools| - 2]) else None)
  }

  lemma UpdateShifts(slots: Slots, decode: Decoder, pk: string, pools: seq<Pool>)
    requires LastTwo(slots, pools)
    ensures LastTwo(Update(slots, decode, pk), pools + Converted(decode, pk))
  {
    assert pools + [] == pools;
  }

  lemma AnswerShifts(c: Caches, decode: Decoder, answer: Answer, pools: seq<Pool>)
    requires c.pub == c.jolt && LastTwo(c.pub, pools)
    ensures var c' := OnAnswer(c, decode, answer).caches;
            c'.pub == c'.jolt && LastTwo(c'.pub, pools + Pushed(decode, c.pub, answer))
  {
    assert pools + [] == pools;
    if answer.Some? && |answer.value| == 2 {
      var x, y := answer.value[0], answer.value[1];
      UpdateShifts(c.pub, decode, x, pools);
      if c.pub.older.None? {
        UpdateShifts(Update(c.pub, decode, x), decode, y, pools + Converted(decode, x));
        assert (pools + Converted(decode, x)) + Converted(decode, y)
            == pools + (Converted(decode, x) + Converted(decode, y));
      }
      hide Update, LastTwo, Converted;
    }
  }

  /**
   * Over any answers whatever, failed queries and bad keys included, either window holds the last two pools pushed into
   * it.
   */
  lemma {:induction false} WindowsHoldLastTwo(c: Caches, decode: Decoder, answers: seq<Answer>, pools: seq<Pool>)
    requires c.pub == c.jolt && LastTwo(c.pub, pools)
    ensures var c' := Run(c, decode, answers);
            c'.pub == c'.jolt && LastTwo(c'.pub, pools + AllPushed(c, decode, answers))
    decreases |answers|
  {
    if answers == [] {
      assert pools + [] == pools;
    } else {
      hide OnAnswer, LastTwo, Pushed;
      var c', now := OnAnswer(c, decode, answers[0]).caches, Pushed(decode, c.pub, answers[0]);
      AnswerShifts(c, decode, answers[0], pools);
      WindowsHoldLastTwo(c', decode, answers[1..], pools + now);
      Regrouped(pools, now, AllPushed(c', decode, answers[1..]));
    }
  }

  /** On equal caches the rotation branch always has a previous pool to compare: the dereference cannot fail. */
  lemma RotationHasPrevious(c: Caches, decode: Decoder, pks: seq<string>)
    requires Coherent(c) && |pks| == 2 && c.pub.older.Some? && NeedsUpdate(decode, pks, c.pub)
    ensures c.jolt.older.Some? && decode(pks[0]).Some?
    ensures OnAnswer(c, decode, Some(pks)).caches.pub.latest == decode(pks[0])
  {
  }

  /** Among these keys a pool keeps the key it came from, and different keys have different Joltify addresses. */
  ghost predicate Faithful(decode: Decoder, keys: set<string>) {
    && (forall x :: x in keys && decode(x).Some? ==> decode(x).value.pk == x)
    && (forall x, y :: x in keys && y in keys && decode(x).Some? && decode(y).Some? && x != y ==>
          decode(x).value.joltAddress != decode(y).value.joltAddress)
  }

  /** A pair of pools on the chain. */
  datatype Pair = Pair(latest: string, older: string) {
    function Keys(): seq<string> {
      [latest, older]
    }

    function KeySet(): set<string> {
      {latest, older}
    }
  }

  ghost predicate Decodes(decode: Decoder, p: Pair) {
    decode(p.latest).Some? && decode(p.older).Some?
  }

  /** Both caches hold the pair, older pool first. */
  ghost predicate Tracks(c: Caches, decode: Decoder, p: Pair) {
    && Decodes(decode, p)
    && c.pub == c.jolt == Slots(decode(p.older), decode(p.latest))
  }

  /** The pair stays, or a new latest pool pushes the latest to older. */
  predicate Follows(p: Pair, q: Pair) {
    q == p || q.older == p.latest
  }

  /**
   * One answer, exactly: the caches keep tracking the chain if and only if the new pair repeats the old one or is one
   * rotation away from it; a missed rotation breaks tracking.
   */
  lemma TracksIffFollows(c: Caches, decode: Decoder, p: Pair, q: Pair)
    requires Faithful(decode, p.KeySet() + q.KeySet()) && Tracks(c, decode, p) && Decodes(decode, q)
    ensures var r := OnAnswer(c, decode, Some(q.Keys()));
            && (Tracks(r.caches, decode, q) <==> Follows(p, q))
            && r.proceed
            && r.retired == (if q != p && q.latest != p.older then decode(p.older) else None)
            && (Tracks(r.caches, decode, q) ==> !NeedsUpdate(decode, q.Keys(), r.caches.pub))
  {
  }

  /** Two rotations between two answers: the caches keep the pool in between, which is in the pair no more. */
  lemma MissedRotationLosesTrack(c: Caches, decode: Decoder, p: Pair, q: Pair)
    requires Faithful(decode, p.KeySet() + q.KeySet()) && Tracks(c, decode, p) && Decodes(decode, q)
    requires q.latest !in p.KeySet() && q.older !in p.KeySet()
    ensures var r := OnAnswer(c, decode, Some(q.Keys()));
            r.caches.pub == Slots(decode(p.latest), decode(q.latest)) && !Tracks(r.caches, decode, q)
  {
    TracksIffFollows(c, decode, p, q);
  }

  /** A rotation schedules a pool still in the pair exactly when the pair held that pool twice. */
  lemma LivePoolRetiredIff(c: Caches, decode: Decoder, p: Pair, q: Pair)
    requires Faithful(decode, p.KeySet() + q.KeySet()) && Tracks(c, decode, p) && Decodes(decode, q) && Follows(p, q)
    ensures var retired := OnAnswer(c, decode, Some(q.Keys())).retired;
            retired.Some? && retired.value.pk in {q.latest, q.older}
            <==> q != p && p.latest == p.older && q.latest != p.older
  {
    TracksIffFollows(c, decode, p, q);
  }

  /**
   * The first fill takes the latest pool first and so caches the pair reversed; the next answer repairs it exactly when
   * it still names that older pool as the older one, or names the reversed pair.
   */
  lemma SecondAnswerRepairsIff(decode: Decoder, p: Pair, q: Pair)
    requires Faithful(decode, p.KeySet() + q.KeySet()) && Decodes(decode, p) && Decodes(decode, q)
    ensures var first := OnAnswer(EMPTY, decode, Some(p.Keys()));
            var second := OnAnswer(first.caches, decode, Some(q.Keys()));
            && first.retired == None
            && first.caches.pub == first.caches.jolt == Slots(decode(p.latest), decode(p.older))
            && (Tracks(second.caches, decode, q) <==> q.older == p.older || q == Pair(p.older, p.latest))
            && (q == p ==> second.retired == None)
  {
  }

  /** A rotation right after the first fill: the pool it pushed out of the pair stays cached as the older one. */
  lemma EarlyRotationKeepsReversal(decode: Decoder, p: Pair, latest: string)
    requires Faithful(decode, p.KeySet() + {latest}) && Decodes(decode, p) && decode(latest).Some?
    requires p.latest != p.older && latest !in p.KeySet()
    ensures var first := OnAnswer(EMPTY, decode, Some(p.Keys()));
            var second := OnAnswer(first.caches, decode, Some(Pair(latest, p.latest).Keys()));
            second.caches.pub == Slots(decode(p.older), decode(latest))
            && !Tracks(second.caches, decode, Pair(latest, p.latest))
  {
    SecondAnswerRepairsIff(decode, p, Pair(latest, p.latest));
  }

  /** The answers that count are pairs, each following the one before; failed queries may come between. */
  ghost predicate LegalAnswers(decode: Decoder, p: Pair, answers: seq<Answer>)
    decreases |answers|
  {
    answers != [] ==>
      match answers[0]
      case None => LegalAnswers(decode, p, answers[1..])
      case Some(pks) =>
        if |pks| != 2 then LegalAnswers(decode, p, answers[1..])
        else
          var q := Pair(pks[0], pks[1]);
          && Decodes(decode, q) && q.latest != q.older && Follows(p, q)
          && LegalAnswers(decode, q, answers[1..])
  }

  /** The keys of a run. */
  function KeysOf(answers: seq<Answer>): set<string> {
    if answers == [] then {}
    else (if answers[0].Some? then set k | k in answers[0].value else {}) + KeysOf(answers[1..])
  }

  lemma FaithfulToLess(decode: Decoder, keys: set<string>, fewer: set<string>)
    requires Faithful(decode, keys) && fewer <= keys
    ensures Faithful(decode, fewer)
  {
  }

  function LastPair(p: Pair, answers: seq<Answer>): Pair
    decreases |answers|
  {
    if answers == [] then p
    else if answers[0].Some? && |answers[0].value| == 2 then
      LastPair(Pair(answers[0].value[0], answers[0].value[1]), answers[1..])
    else LastPair(p, answers[1..])
  }

  /** The pools that leave the pair, in order, once for each time they leave. */
  function Exits(p: Pair, answers: seq<Answer>): seq<string>
    decreases |answers|
  {
    if answers == [] then []
    else if answers[0].Some? && |answers[0].value| == 2 then
      var q := Pair(answers[0].value[0], answers[0].value[1]);
      (if p.older != q.latest && p.older != q.older then [p.older] else []) + Exits(q, answers[1..])
    else Exits(p, answers[1..])
  }

  function Keys(pools: seq<Pool>): seq<string> {
    if pools == [] then [] else [pools[0].pk] + Keys(pools[1..])
  }

  /**
   * From a tracked pair of two different pools, over any legal answers: both caches hold the chain's pair at the
   * end, it needs no update, and the pools scheduled for draining are exactly those that left the pair, once for
   * each exit.
   */
  lemma {:induction false} RotationTracking(c: Caches, decode: Decoder, p: Pair, answers: seq<Answer>)
    requires Faithful(decode, p.KeySet() + KeysOf(answers))
    requires Tracks(c, decode, p) && p.latest != p.older && LegalAnswers(decode, p, answers)
    ensures Tracks(Run(c, decode, answers), decode, LastPair(p, answers))
    ensures !NeedsUpdate(decode, LastPair(p, answers).Keys(), Run(c, decode, answers).pub)
    ensures Keys(Retired(c, decode, answers)) == Exits(p, answers)
    decreases |answers|
  {
    if answers == [] {
    } else {
      var r := OnAnswer(c, decode, answers[0]);
      var rest := Retired(r.caches, decode, answers[1..]);
      if answers[0].Some? && |answers[0].value| == 2 {
        var q := Pair(answers[0].value[0], answers[0].value[1]);
        assert answers[0].value == q.Keys();
        FaithfulToLess(decode, p.KeySet() + KeysOf(answers), p.KeySet() + q.KeySet());
        FaithfulToLess(decode, p.KeySet() + KeysOf(answers), q.KeySet() + KeysOf(answers[1..]));
        TracksIffFollows(c, decode, p, q);
        RotationTracking(r.caches, decode, q, answers[1..]);
        if r.retired.Some? {
          var x := r.retired.value;
          assert ([x] + rest)[0] == x && ([x] + rest)[1..] == rest;
        } else {
          assert [] + rest == rest;
        }
      } else {
        FaithfulToLess(decode, p.KeySet() + KeysOf(answers), p.KeySet() + KeysOf(answers[1..]));
        RotationTracking(r.caches, decode, p, answers[1..]);
        assert [] + rest == rest;
      }
    }
  }

  /** The same from the start: a first fill, the same pair again, and then any legal answers. */
  lemma RotationTrackingFromStart(decode: Decoder, p: Pair, answers: seq<Answer>)
    requires Faithful(decode, p.KeySet() + KeysOf(answers))
    requires Decodes(decode, p) && p.latest != p.older && LegalAnswers(decode, p, answers)
    ensures var all := [Some(p.Keys()), Some(p.Keys())] + answers;
            && Tracks(Run(EMPTY, decode, all), decode, LastPair(p, answers))
            && Keys(Retired(EMPTY, decode, all)) == Exits(p, answers)
  {
    var all: seq<Answer> := [Some(p.Keys()), Some(p.Keys())] + answers;
    var first := OnAnswer(EMPTY, decode, all[0]);
    var second := OnAnswer(first.caches, decode, all[1]);
    FaithfulToLess(decode, p.KeySet() + KeysOf(answers), p.KeySet() + p.KeySet());
    SecondAnswerRepairsIff(decode, p, p);
    assert Tracks(second.caches, decode, p);
    RotationTracking(second.caches, decode, p, answers);
    assert all[1..][0] == all[1] && all[1..][1..] == answers;
    assert [] + ([] + Retired(second.caches, decode, answers)) == Retired(second.caches, decode, answers);
  }
}
