/** What the matcher guarantees over every sequence of events. */
module MatcherTheorems {
  import opened Config
  import opened Wrappers
  import opened ByteTypes
  import opened MatcherSpec
  import Hex

  /** No id waits on both sides, and every waiting deposit is short of fee. */
  ghost predicate Inv(s: State) {
    && s.pending.Keys !! s.early.Keys
    && forall id :: id in s.pending ==> s.pending[id].fee < MIN_FEE
  }

  lemma ApplyKeepsInv(s: State, e: Event)
    requires Inv(s)
    ensures Inv(Apply(s, e).0)
  {
  }

  /**
   * What a deposit comes to: refused, and then nothing changes, exactly if its id waits already or it is for another
   * token; sent on exactly if its fee is there and its id is hexadecimal; otherwise it waits, or its id is dropped.
   */
  lemma DepositResult(s: State, id: string, height: nat, from: Address, to: Address, value: nat, rightToken: bool)
    ensures var (s', r) := ProcessInboundTx(s, id, height, from, to, value, rightToken);
            var fee := if id in s.early then s.early[id].fee else 0;
            && (r.TxExisted? <==> id in s.pending)
            && (r.WrongToken? <==> id !in s.pending && !rightToken)
            && (r.Sent? || r.BadTxID? <==> id !in s.pending && rightToken && fee >= MIN_FEE)
            && (r.Sent? ==> Hex.Decode(id) == Some(r.req.txID) && r.req == Request(from, r.req.txID, to, value))
            && (r.BadTxID? ==> Hex.Decode(id).None?)
            && (r.TxExisted? || r.WrongToken? ==> s' == s)
            && (r.Sent? || r.BadTxID? ==> s' == s.(early := s.early - {id}))
            && (r.Stored? ==> s' == State(s.pending[id := Deposit(from, height, value, fee)], s.early - {id}))
  {
    if id !in s.early {
      assert s.early - {id} == s.early;
    }
  }

  lemma {:induction false} RunKeepsInv(s: State, events: seq<Event>)
    requires Inv(s)
    ensures Inv(Run(s, events).0)
    decreases |events|
  {
    if events == [] {
    } else {
      ApplyKeepsInv(s, events[0]);
      RunKeepsInv(Apply(s, events[0]).0, events[1..]);
    }
  }

  // ---- One id at a time ----

  /** What the matcher holds for one id. */
  datatype Slot = Slot(deposit: Option<Deposit>, early: Option<EarlyFee>)

  ghost function Lookup<K, V>(m: map<K, V>, k: K): Option<V> {
    if k in m then Some(m[k]) else None
  }

  ghost function SlotOf(s: State, b: Bytes): Slot {
    var id := Hex.Encode(b);
    Slot(Lookup(s.pending, id), Lookup(s.early, id))
  }

  function Fresh(now: nat, height: nat): bool {
    Age(now, height) <= TX_TIMEOUT
  }

  /** The automaton of a single id; events of other ids are ignored. */
  ghost function SlotApply(slot: Slot, b: Bytes, e: Event): (Slot, seq<Output>) {
    match e
    case TokenEvent(hash, from, to, amount, height) =>
      if hash != b || slot.deposit.Some? then (slot, [])
      else if slot.early.None? then (Slot(Some(Deposit(from, height, amount, 0)), None), [])
      else if slot.early.value.fee < MIN_FEE then
        (Slot(Some(Deposit(from, height, amount, slot.early.value.fee)), None), [])
      else (Slot(None, None), [ToChannel(Request(from, b, to, amount), height)])
    case FeeEvent(txID, pool, fee, height) =>
      if txID != b then (slot, [])
      else if slot.deposit.None? then (slot.(early := Some(EarlyFee(height, fee))), [])
      else
        var d := slot.deposit.value.(fee := slot.deposit.value.fee + fee);
        if d.fee < MIN_FEE then (slot.(deposit := Some(d)), [])
        else (slot.(deposit := None), [ToRetry(Request(d.from, b, pool, d.amount))])
    case ExpireEvent(now) =>
      (Slot(if slot.deposit.Some? && Fresh(now, slot.deposit.value.height) then slot.deposit else None,
            if slot.early.Some? && Fresh(now, slot.early.value.height) then slot.early else None), [])
  }

  ghost function SlotRun(slot: Slot, b: Bytes, events: seq<Event>): (Slot, seq<Output>)
    decreases |events|
  {
    if events == [] then (slot, [])
    else
      var (slot', out) := SlotApply(slot, b, events[0]);
      var (slot'', outs) := SlotRun(slot', b, events[1..]);
      (slot'', out + outs)
  }

  ghost function OutputsOf(outs: seq<Output>, b: Bytes): seq<Output> {
    if outs == [] then []
    else (if outs[0].req.txID == b then [outs[0]] else []) + OutputsOf(outs[1..], b)
  }

  lemma {:induction false} OutputsOfAppend(xs: seq<Output>, ys: seq<Output>, b: Bytes)
    ensures OutputsOf(xs + ys, b) == OutputsOf(xs, b) + OutputsOf(ys, b)
  {
    if xs == [] {
      assert xs + ys == ys;
    } else {
      assert (xs + ys)[0] == xs[0] && (xs + ys)[1..] == xs[1..] + ys;
      OutputsOfAppend(xs[1..], ys, b);
      var first := if xs[0].req.txID == b then [xs[0]] else [];
      assert first + (OutputsOf(xs[1..], b) + OutputsOf(ys, b)) == (first + OutputsOf(xs[1..], b)) + OutputsOf(ys, b);
    }
  }

  function IdOf(e: Event): Bytes
    requires !e.ExpireEvent?
  {
    if e.TokenEvent? then e.hash else e.txID
  }

  lemma OutputsOfOne(o: Output, b: Bytes)
    ensures OutputsOf([o], b) == if o.req.txID == b then [o] else []
  {
    assert [o][1..] == [];
  }

  ghost predicate IsLocal(s: State, e: Event, b: Bytes) {
    SlotApply(SlotOf(s, b), b, e) == (SlotOf(Apply(s, e).0, b), OutputsOf(Apply(s, e).1, b))
  }

  lemma TokenIsLocal(s: State, e: Event, b: Bytes)
    requires Inv(s) && e.TokenEvent?
    ensures IsLocal(s, e, b)
  {
    hide Hex.Encode, Hex.Decode;
    Hex.DecodeEncode(b);
    Hex.DecodeEncode(e.hash);
    if Apply(s, e).1 != [] {
      OutputsOfOne(Apply(s, e).1[0], b);
    }
  }

  lemma FeeIsLocal(s: State, e: Event, b: Bytes)
    requires Inv(s) && e.FeeEvent?
    ensures IsLocal(s, e, b)
  {
    if e.txID == b {
      OwnFee(s, e);
    } else {
      OtherFee(s, e, b);
    }
  }

  lemma OwnFee(s: State, e: Event)
    requires Inv(s) && e.FeeEvent?
    ensures IsLocal(s, e, e.txID)
  {
    var (s', done) := UpdateInboundTx(s, Hex.Encode(e.txID), e.fee, e.height);
    if done.Some? {
      OutputsOfOne(ToRetry(Request(done.value.from, e.txID, e.pool, done.value.amount)), e.txID);
    }
  }

  lemma OtherFee(s: State, e: Event, b: Bytes)
    requires e.FeeEvent? && e.txID != b
    ensures IsLocal(s, e, b)
  {
    if Hex.Encode(e.txID) == Hex.Encode(b) {
      Hex.EncodeInjective(e.txID, b);
    }
    var (s', done) := UpdateInboundTx(s, Hex.Encode(e.txID), e.fee, e.height);
    assert SlotOf(s', b) == SlotOf(s, b);
    if done.Some? {
      OutputsOfOne(ToRetry(Request(done.value.from, e.txID, e.pool, done.value.amount)), b);
    }
  }

  lemma ApplyIsLocal(s: State, e: Event, b: Bytes)
    requires Inv(s)
    ensures IsLocal(s, e, b)
  {
    if e.TokenEvent? {
      TokenIsLocal(s, e, b);
    } else if e.FeeEvent? {
      FeeIsLocal(s, e, b);
    }
  }

  /**
   * The matcher is one independent automaton per id: from any well-formed state, what it holds and releases for an id
   * after any events, expiry included, is what the automaton of that id alone holds and releases.
   */
  lemma {:induction false} RunIsLocal(s: State, events: seq<Event>, b: Bytes)
    requires Inv(s)
    ensures SlotRun(SlotOf(s, b), b, events) == (SlotOf(Run(s, events).0, b), OutputsOf(Run(s, events).1, b))
    decreases |events|
  {
    if events == [] {
    } else {
      var (s', out) := Apply(s, events[0]);
      ApplyKeepsInv(s, events[0]);
      ApplyIsLocal(s, events[0], b);
      RunIsLocal(s', events[1..], b);
      OutputsOfAppend(out, Run(s', events[1..]).1, b);
    }
  }

  /** The events of one id, and the expiry passes. */
  ghost function Project(events: seq<Event>, b: Bytes): seq<Event> {
    if events == [] then []
    else (if events[0].ExpireEvent? || IdOf(events[0]) == b then [events[0]] else []) + Project(events[1..], b)
  }

  lemma {:induction false} SlotRunProject(slot: Slot, b: Bytes, events: seq<Event>)
    ensures SlotRun(slot, b, Project(events, b)) == SlotRun(slot, b, events)
    decreases |events|
  {
    if events == [] {
    } else {
      SlotRunProject(SlotApply(slot, b, events[0]).0, b, events[1..]);
      if events[0].ExpireEvent? || IdOf(events[0]) == b {
        assert Project(events, b)[1..] == Project(events[1..], b);
      } else {
        assert Project(events, b) == Project(events[1..], b);
        assert [] + SlotRun(slot, b, events[1..]).1 == SlotRun(slot, b, events[1..]).1;
      }
    }
  }

  /** Events of other ids never matter. */
  lemma OtherIdsNeverMatter(s: State, events: seq<Event>, b: Bytes)
    requires Inv(s)
    ensures SlotOf(Run(s, events).0, b) == SlotOf(Run(s, Project(events, b)).0, b)
    ensures OutputsOf(Run(s, events).1, b) == OutputsOf(Run(s, Project(events, b)).1, b)
  {
    RunIsLocal(s, events, b);
    RunIsLocal(s, Project(events, b), b);
    SlotRunProject(SlotOf(s, b), b, events);
  }

  // ---- When an id is released ----

  ghost predicate IsToken(e: Event, b: Bytes) {
    e.TokenEvent? && e.hash == b
  }

  ghost predicate NoExpiry(events: seq<Event>) {
    forall e :: e in events ==> !e.ExpireEvent?
  }

  ghost predicate NoToken(events: seq<Event>, b: Bytes) {
    forall e :: e in events ==> !IsToken(e, b)
  }

  /** The last fee paid for an id; 0 if there is none. */
  ghost function LastFee(events: seq<Event>, b: Bytes): nat {
    if events == [] then 0
    else
      var e := events[|events| - 1];
      if e.FeeEvent? && e.txID == b then e.fee else LastFee(events[..|events| - 1], b)
  }

  ghost function TotalFee(events: seq<Event>, b: Bytes): nat {
    if events == [] then 0
    else (if events[0].FeeEvent? && events[0].txID == b then events[0].fee else 0) + TotalFee(events[1..], b)
  }

  ghost predicate HasFee(events: seq<Event>, b: Bytes) {
    exists e :: e in events && e.FeeEvent? && e.txID == b
  }

  lemma {:induction false} SlotRunAppend(slot: Slot, b: Bytes, xs: seq<Event>, ys: seq<Event>)
    ensures SlotRun(slot, b, xs + ys)
            == (SlotRun(SlotRun(slot, b, xs).0, b, ys).0,
                SlotRun(slot, b, xs).1 + SlotRun(SlotRun(slot, b, xs).0, b, ys).1)
    decreases |xs|
  {
    if xs == [] {
      assert xs + ys == ys;
      assert [] + SlotRun(slot, b, ys).1 == SlotRun(slot, b, ys).1;
    } else {
      assert (xs + ys)[0] == xs[0] && (xs + ys)[1..] == xs[1..] + ys;
      var (slot', out) := SlotApply(slot, b, xs[0]);
      SlotRunAppend(slot', b, xs[1..], ys);
      var mid := SlotRun(slot', b, xs[1..]);
      assert out + (mid.1 + SlotRun(mid.0, b, ys).1) == (out + mid.1) + SlotRun(mid.0, b, ys).1;
    }
  }

  lemma SlotRunOne(slot: Slot, b: Bytes, e: Event)
    ensures SlotRun(slot, b, [e]) == SlotApply(slot, b, e)
  {
    assert [e][1..] == [];
    assert SlotApply(slot, b, e).1 + [] == SlotApply(slot, b, e).1;
  }

  const NOTHING := Slot(None, None)

  /** Before the deposit each fee replaces the one before it, and nothing is released. */
  lemma {:induction false} BeforeToken(b: Bytes, events: seq<Event>)
    requires NoExpiry(events) && NoToken(events, b)
    ensures var (slot, outs) := SlotRun(NOTHING, b, events);
            && outs == [] && slot.deposit.None?
            && slot.early.Some? == HasFee(events, b)
            && (slot.early.Some? ==> slot.early.value.fee == LastFee(events, b))
            && (slot.early.None? ==> LastFee(events, b) == 0)
    decreases |events|
  {
    if events == [] {
    } else {
      var front, e := events[..|events| - 1], events[|events| - 1];
      assert events == front + [e];
      BeforeToken(b, front);
      SlotRunAppend(NOTHING, b, front, [e]);
      var slot := SlotRun(NOTHING, b, front).0;
      SlotRunOne(slot, b, e);
      assert e in events && forall x :: x in front ==> x in events;
      assert HasFee(events, b) <==> HasFee(front, b) || (e.FeeEvent? && e.txID == b);
    }
  }

  /** Without a deposit waiting or coming, fees wait or expire: nothing is released. */
  lemma {:induction false} WithoutDeposit(slot: Slot, b: Bytes, events: seq<Event>)
    requires slot.deposit.None? && NoToken(events, b)
    ensures SlotRun(slot, b, events).1 == [] && SlotRun(slot, b, events).0.deposit.None?
    decreases |events|
  {
    if events == [] {
    } else {
      assert events[0] in events;
      WithoutDeposit(SlotApply(slot, b, events[0]).0, b, events[1..]);
    }
  }

  /** A waiting deposit is released once, exactly when the fees to come complete the minimum. */
  lemma {:induction false} AfterToken(slot: Slot, b: Bytes, events: seq<Event>)
    requires slot.deposit.Some? && slot.deposit.value.fee < MIN_FEE && NoExpiry(events) && NoToken(events, b)
    ensures var outs := SlotRun(slot, b, events).1;
            if slot.deposit.value.fee + TotalFee(events, b) < MIN_FEE then
              outs == [] && SlotRun(slot, b, events).0.deposit.Some?
            else
              |outs| == 1 && outs[0].ToRetry? && outs[0].req.txID == b
              && outs[0].req.from == slot.deposit.value.from && outs[0].req.amount == slot.deposit.value.amount
    decreases |events|
  {
    if events == [] {
    } else {
      assert events[0] in events;
      var (slot', out) := SlotApply(slot, b, events[0]);
      if slot'.deposit.Some? {
        AfterToken(slot', b, events[1..]);
      } else {
        WithoutDeposit(slot', b, events[1..]);
      }
    }
  }

  /** An id without a deposit, waiting or coming, is never released, whatever else happens and expires. */
  lemma NeverReleasedWithoutToken(s: State, b: Bytes, events: seq<Event>)
    requires Inv(s) && SlotOf(s, b).deposit.None? && NoToken(events, b)
    ensures OutputsOf(Run(s, events).1, b) == [] && SlotOf(Run(s, events).0, b).deposit.None?
  {
    RunIsLocal(s, events, b);
    WithoutDeposit(SlotOf(s, b), b, events);
  }

  /**
   * The release rule in closed form. For any interleaving without expiry with one deposit for the id, the id is
   * released exactly when the last fee before the deposit plus all fees after it reach the minimum; then it is
   * released once, for the depositor and the amount of the deposit.
   */
  lemma ReleasedIffFeesReachMinimum(b: Bytes, before: seq<Event>, token: Event, after: seq<Event>)
    requires IsToken(token, b)
    requires NoExpiry(before) && NoExpiry(after) && NoToken(before, b) && NoToken(after, b)
    ensures var outs := OutputsOf(Run(EMPTY, before + [token] + after).1, b);
            if LastFee(before, b) + TotalFee(after, b) < MIN_FEE then outs == []
            else |outs| == 1 && outs[0].req.from == token.from && outs[0].req.amount == token.amount
                 && outs[0].req.txID == b
  {
    RunIsLocal(EMPTY, before + [token] + after, b);
    BeforeToken(b, before);
    var slot := SlotRun(NOTHING, b, before).0;
    var (slot', out) := SlotApply(slot, b, token);
    SlotRunAppend(NOTHING, b, before + [token], after);
    SlotRunAppend(NOTHING, b, before, [token]);
    SlotRunOne(slot, b, token);
    if slot'.deposit.Some? {
      AfterToken(slot', b, after);
    } else {
      WithoutDeposit(slot', b, after);
    }
  }

  /**
   * Order confluence. A deposit and one sufficient fee give the same request whichever comes first and whatever other
   * ids do in between, up to the pool each one names and the route: the retry bag or the channel.
   */
  lemma OrderConfluence(s: State, token: Event, fee: Event, mid: seq<Event>, b: Bytes)
    requires Inv(s) && SlotOf(s, b) == NOTHING
    requires IsToken(token, b) && fee.FeeEvent? && fee.txID == b && fee.fee >= MIN_FEE
    requires NoExpiry(mid) && forall e :: e in mid ==> IdOf(e) != b
    ensures var req := Request(token.from, b, fee.pool, token.amount);
            && OutputsOf(Run(s, [token] + mid + [fee]).1, b) == [ToRetry(req)]
            && OutputsOf(Run(s, [fee] + mid + [token]).1, b) == [ToChannel(req.(toPool := token.to), token.height)]
            && SlotOf(Run(s, [token] + mid + [fee]).0, b) == SlotOf(Run(s, [fee] + mid + [token]).0, b) == NOTHING
  {
    RunIsLocal(s, [token] + mid + [fee], b);
    RunIsLocal(s, [fee] + mid + [token], b);
    ThreeParts(b, token, mid, fee);
    ThreeParts(b, fee, mid, token);
  }

  lemma ThreeParts(b: Bytes, first: Event, mid: seq<Event>, last: Event)
    requires NoExpiry(mid) && forall e :: e in mid ==> IdOf(e) != b
    ensures var (slot, out) := SlotApply(NOTHING, b, first);
            var (slot', out') := SlotApply(slot, b, last);
            SlotRun(NOTHING, b, [first] + mid + [last]) == (slot', out + out')
  {
    var (slot, out) := SlotApply(NOTHING, b, first);
    SlotRunAppend(NOTHING, b, [first] + mid, [last]);
    SlotRunAppend(NOTHING, b, [first], mid);
    SlotRunIgnores(slot, b, mid);
    SlotRunOne(NOTHING, b, first);
    SlotRunOne(slot, b, last);
    assert out + [] == out;
  }

  lemma {:induction false} SlotRunIgnores(slot: Slot, b: Bytes, events: seq<Event>)
    requires NoExpiry(events) && forall e :: e in events ==> IdOf(e) != b
    ensures SlotRun(slot, b, events) == (slot, [])
    decreases |events|
  {
    if events == [] {
    } else {
      assert events[0] in events;
      SlotRunIgnores(slot, b, events[1..]);
      assert [] + SlotRun(slot, b, events[1..]).1 == [];
    }
  }

  // ---- Conservation ----

  /** A deposit as it travels through the matcher. */
  datatype Token = Token(id: string, from: Address, amount: nat)

  ghost function TokenAt(s: State, id: string): Token
    requires id in s.pending
  {
    Token(id, s.pending[id].from, s.pending[id].amount)
  }

  ghost function PendingTokens(s: State): set<Token> {
    set id | id in s.pending :: TokenAt(s, id)
  }

  ghost function Accepted(s: State, e: Event): multiset<Token> {
    if e.TokenEvent? && Hex.Encode(e.hash) !in s.pending then multiset{Token(Hex.Encode(e.hash), e.from, e.amount)}
    else multiset{}
  }

  ghost function Expired(s: State, e: Event): multiset<Token> {
    if e.ExpireEvent? then
      multiset(set id | id in s.pending && !Fresh(e.now, s.pending[id].height) :: TokenAt(s, id))
    else multiset{}
  }

  ghost function AllAccepted(s: State, events: seq<Event>): multiset<Token>
    decreases |events|
  {
    if events == [] then multiset{} else Accepted(s, events[0]) + AllAccepted(Apply(s, events[0]).0, events[1..])
  }

  ghost function AllExpired(s: State, events: seq<Event>): multiset<Token>
    decreases |events|
  {
    if events == [] then multiset{} else Expired(s, events[0]) + AllExpired(Apply(s, events[0]).0, events[1..])
  }

  ghost function Released(outs: seq<Output>): multiset<Token> {
    if outs == [] then multiset{}
    else multiset{Token(Hex.Encode(outs[0].req.txID), outs[0].req.from, outs[0].req.amount)} + Released(outs[1..])
  }

  lemma {:induction false} ReleasedAppend(xs: seq<Output>, ys: seq<Output>)
    ensures Released(xs + ys) == Released(xs) + Released(ys)
  {
    if xs == [] {
      assert xs + ys == ys;
    } else {
      assert (xs + ys)[1..] == xs[1..] + ys;
      ReleasedAppend(xs[1..], ys);
    }
  }

  lemma PendingAdd(s: State, id: string, d: Deposit)
    requires id !in s.pending
    ensures multiset(PendingTokens(s.(pending := s.pending[id := d])))
            == multiset(PendingTokens(s)) + multiset{Token(id, d.from, d.amount)}
  {
    var s' := s.(pending := s.pending[id := d]);
    assert PendingTokens(s') == PendingTokens(s) + {TokenAt(s', id)} by {
      forall t | t in PendingTokens(s) + {TokenAt(s', id)} ensures t in PendingTokens(s') {
        if t in PendingTokens(s) {
          var j :| j in s.pending && TokenAt(s, j) == t;
          assert TokenAt(s', j) == t;
        }
      }
    }
    assert TokenAt(s', id) !in PendingTokens(s);
  }

  lemma PendingRemove(s: State, id: string)
    requires id in s.pending
    ensures multiset(PendingTokens(s.(pending := s.pending - {id}))) + multiset{TokenAt(s, id)}
            == multiset(PendingTokens(s))
  {
    var s' := s.(pending := s.pending - {id});
    PendingAdd(s', id, s.pending[id]);
    assert s'.pending[id := s.pending[id]] == s.pending;
  }

  lemma PendingTopUp(s: State, id: string, fee: nat)
    requires id in s.pending
    ensures PendingTokens(s.(pending := s.pending[id := s.pending[id].(fee := fee)])) == PendingTokens(s)
  {
    var s' := s.(pending := s.pending[id := s.pending[id].(fee := fee)]);
    assert s'.pending.Keys == s.pending.Keys;
    assert forall j :: j in s.pending ==> TokenAt(s', j) == TokenAt(s, j);
    forall t | t in PendingTokens(s) ensures t in PendingTokens(s') {
      var j :| j in s.pending && TokenAt(s, j) == t;
      assert TokenAt(s', j) == t;
    }
  }

  lemma PendingExpire(s: State, now: nat)
    ensures multiset(PendingTokens(s)) == multiset(PendingTokens(DeleteExpired(s, now))) + Expired(s, ExpireEvent(now))
  {
    var s' := DeleteExpired(s, now);
    var gone := set id | id in s.pending && !Fresh(now, s.pending[id].height) :: TokenAt(s, id);
    assert forall j :: j in s'.pending ==> TokenAt(s', j) == TokenAt(s, j);
    forall t | t in PendingTokens(s) ensures t in PendingTokens(s') + gone {
      var j :| j in s.pending && TokenAt(s, j) == t;
      if j in s'.pending {
        assert TokenAt(s', j) == t;
      }
    }
    forall t | t in PendingTokens(s') ensures t in PendingTokens(s) {
      var j :| j in s'.pending && TokenAt(s', j) == t;
      assert TokenAt(s, j) == t;
    }
    assert PendingTokens(s) == PendingTokens(s') + gone;
    assert PendingTokens(s') !! gone;
  }

  lemma ReleasedOne(o: Output)
    ensures Released([o]) == multiset{Token(Hex.Encode(o.req.txID), o.req.from, o.req.amount)}
  {
    assert [o][1..] == [];
  }

  ghost predicate Conserves(s: State, e: Event) {
    var (s', out) := Apply(s, e);
    multiset(PendingTokens(s)) + Accepted(s, e) == Released(out) + Expired(s, e) + multiset(PendingTokens(s'))
  }

  lemma TokenConserves(s: State, e: Event)
    requires e.TokenEvent?
    ensures Conserves(s, e)
  {
    hide Hex.Encode, Hex.Decode;
    var id := Hex.Encode(e.hash);
    Hex.DecodeEncode(e.hash);
    var (s', out) := Apply(s, e);
    if id !in s.pending {
      if id !in s.early {
        PendingAdd(s, id, Deposit(e.from, e.height, e.amount, 0));
      } else {
        var t := s.(early := s.early - {id});
        assert PendingTokens(t) == PendingTokens(s);
        if s.early[id].fee < MIN_FEE {
          PendingAdd(t, id, Deposit(e.from, e.height, e.amount, s.early[id].fee));
        } else {
          ReleasedOne(out[0]);
        }
      }
    }
  }

  lemma FeeConserves(s: State, e: Event)
    requires e.FeeEvent?
    ensures Conserves(s, e)
  {
    var id := Hex.Encode(e.txID);
    var (s', out) := Apply(s, e);
    if id !in s.pending {
      assert PendingTokens(s') == PendingTokens(s);
    } else if s.pending[id].fee + e.fee >= MIN_FEE {
      PendingRemove(s, id);
      ReleasedOne(out[0]);
    } else {
      PendingTopUp(s, id, s.pending[id].fee + e.fee);
    }
  }

  lemma ApplyConserves(s: State, e: Event)
    ensures Conserves(s, e)
  {
    match e
    case TokenEvent(_, _, _, _, _) => TokenConserves(s, e);
    case FeeEvent(_, _, _, _) => FeeConserves(s, e);
    case ExpireEvent(now) => PendingExpire(s, now);
  }

  lemma Balance<T>(p: multiset<T>, a: multiset<T>, r: multiset<T>, e: multiset<T>, p': multiset<T>,
                   a': multiset<T>, r': multiset<T>, e': multiset<T>, p'': multiset<T>)
    requires p + a == r + e + p' && p' + a' == r' + e' + p''
    ensures p + (a + a') == (r + r') + (e + e') + p''
  {
    assert p + (a + a') == (p + a) + a';
    assert (r + e + p') + a' == r + e + (p' + a');
  }

  /**
   * Nothing is lost or made up: over any events, the deposits waiting at first and those accepted are, as multisets of
   * (id, depositor, amount), those released, those expired and those waiting at the end.
   */
  lemma {:induction false} RunConserves(s: State, events: seq<Event>)
    ensures multiset(PendingTokens(s)) + AllAccepted(s, events)
            == Released(Run(s, events).1) + AllExpired(s, events) + multiset(PendingTokens(Run(s, events).0))
    decreases |events|
  {
    if events == [] {
    } else {
      var (s', out) := Apply(s, events[0]);
      ApplyConserves(s, events[0]);
      RunConserves(s', events[1..]);
      ReleasedAppend(out, Run(s', events[1..]).1);
      Balance(multiset(PendingTokens(s)), Accepted(s, events[0]), Released(out), Expired(s, events[0]),
              multiset(PendingTokens(s')), AllAccepted(s', events[1..]), Released(Run(s', events[1..]).1),
              AllExpired(s', events[1..]), multiset(PendingTokens(Run(s, events).0)));
    }
  }

  // ---- Expiry ----

  ghost predicate HeightsAtMost(s: State, h: nat) {
    && (forall id :: id in s.pending ==> s.pending[id].height <= h)
    && (forall id :: id in s.early ==> s.early[id].height <= h)
  }

  ghost predicate HeightsAtLeast(s: State, h: int) {
    && (forall id :: id in s.pending ==> s.pending[id].height >= h)
    && (forall id :: id in s.early ==> s.early[id].height >= h)
  }

  /**
   * The age rule in wrapping arithmetic. Keeping exactly the entries at most 300 blocks old is what the code does
   * unless the head is below the entry's block; then an entry the rule keeps is deleted, except within 300 of the wrap.
   */
  lemma AgeRuleIff(now: nat, height: nat)
    requires now < TWO_64 && height < TWO_64
    ensures (Fresh(now, height) <==> now - height <= TX_TIMEOUT)
            <==> height <= now || now + TWO_64 - height <= TX_TIMEOUT
  {
    assert (now - height) % TWO_64 == if height <= now then now - height else now - height + TWO_64;
  }

  /** A head one below an entry's block deletes the entry at once. */
  lemma HeadGoingBackExpires(d: Deposit)
    requires 1 <= d.height < TWO_64
    ensures DeleteExpired(State(map["00" := d], map[]), d.height - 1).pending == map[]
  {
    AgeRuleIff(d.height - 1, d.height);
  }

  /** The public-chain heads, each with the pools and the block it brings. */
  datatype Head = Head(bridge: Bridge, number: nat, block: Option<seq<Tx>>)

  ghost function BeforeExpiry(s: State, head: Head): State {
    if head.block.Some? then Run(s, BlockEvents(s, head.bridge, head.block.value, head.number)).0 else s
  }

  ghost function AfterHeads(s: State, heads: seq<Head>): State
    decreases |heads|
  {
    if heads == [] then s
    else AfterHeads(Run(s, HeadEvents(s, heads[0].bridge, heads[0].number, heads[0].block)).0, heads[1..])
  }

  lemma HeadStep(s: State, head: Head)
    ensures Run(s, HeadEvents(s, head.bridge, head.number, head.block)).0
            == DeleteExpired(BeforeExpiry(s, head), head.number)
  {
    var es := if head.block.Some? then BlockEvents(s, head.bridge, head.block.value, head.number) else [];
    RunAppend(s, es, [ExpireEvent(head.number)]);
    RunOne(Run(s, es).0, ExpireEvent(head.number));
    if head.block.None? {
      assert es + [ExpireEvent(head.number)] == [ExpireEvent(head.number)];
    }
  }

  lemma {:induction false} RunHeights(s: State, events: seq<Event>, h: nat)
    requires HeightsAtMost(s, h)
    requires forall e :: e in events ==> !e.ExpireEvent? && e.height == h
    ensures HeightsAtMost(Run(s, events).0, h)
    decreases |events|
  {
    if events == [] {
    } else {
      RunHeights(Apply(s, events[0]).0, events[1..], h);
    }
  }

  lemma {:induction false} BlockHeights(s: State, b: Bridge, txs: seq<Tx>, h: nat)
    ensures forall e :: e in BlockEvents(s, b, txs, h) ==> !e.ExpireEvent? && e.height == h
    decreases |txs|
  {
    if txs == [] {
    } else {
      BlockHeights(Run(s, TxEvents(s, b, txs[0], h)).0, b, txs[1..], h);
    }
  }

  /** Exactly the entries at most 300 blocks old survive a head, in both maps. */
  ghost predicate ExactFilter(before: State, after: State, now: nat) {
    && (forall id :: id in after.pending <==> id in before.pending && now - before.pending[id].height <= TX_TIMEOUT)
    && (forall id :: id in after.early <==> id in before.early && now - before.early[id].height <= TX_TIMEOUT)
    && (forall id :: id in after.pending ==> after.pending[id] == before.pending[id])
    && (forall id :: id in after.early ==> after.early[id] == before.early[id])
  }

  lemma HeadIsExactFilter(s: State, head: Head)
    requires HeightsAtMost(s, head.number) && head.number < TWO_64
    ensures HeightsAtMost(BeforeExpiry(s, head), head.number)
    ensures var after := DeleteExpired(BeforeExpiry(s, head), head.number);
            && ExactFilter(BeforeExpiry(s, head), after, head.number)
            && HeightsAtMost(after, head.number) && HeightsAtLeast(after, head.number - TX_TIMEOUT)
  {
    var before := BeforeExpiry(s, head);
    if head.block.Some? {
      BlockHeights(s, head.bridge, head.block.value, head.number);
      RunHeights(s, BlockEvents(s, head.bridge, head.block.value, head.number), head.number);
    }
    forall id | id in before.pending
      ensures Fresh(head.number, before.pending[id].height) <==> head.number - before.pending[id].height <= TX_TIMEOUT
    {
      AgeRuleIff(head.number, before.pending[id].height);
    }
    forall id | id in before.early
      ensures Fresh(head.number, before.early[id].height) <==> head.number - before.early[id].height <= TX_TIMEOUT
    {
      AgeRuleIff(head.number, before.early[id].height);
    }
  }

  ghost predicate NonDecreasing(heads: seq<Head>) {
    forall i, j :: 0 <= i < j < |heads| ==> heads[i].number <= heads[j].number
  }

  /**
   * With heads that never go back the subtraction never wraps: at every head of the run, no stored height exceeds it
   * and the collect-then-delete passes are the exact filter.
   */
  lemma {:induction false} ExpiryIsExactOverRuns(s: State, heads: seq<Head>, k: nat)
    requires NonDecreasing(heads) && k < |heads|
    requires forall i :: 0 <= i < |heads| ==> heads[i].number < TWO_64
    requires HeightsAtMost(s, heads[0].number)
    ensures var before := BeforeExpiry(AfterHeads(s, heads[..k]), heads[k]);
            && HeightsAtMost(before, heads[k].number)
            && ExactFilter(before, AfterHeads(s, heads[..k + 1]), heads[k].number)
    decreases |heads|
  {
    var s' := Run(s, HeadEvents(s, heads[0].bridge, heads[0].number, heads[0].block)).0;
    HeadStep(s, heads[0]);
    HeadIsExactFilter(s, heads[0]);
    if k == 0 {
      assert heads[..1][1..] == [] && heads[..1][0] == heads[0];
      assert AfterHeads(s, heads[..1]) == s';
    } else {
      assert heads[..k][0] == heads[0] && heads[..k][1..] == heads[1..][..k - 1];
      assert heads[..k + 1][0] == heads[0] && heads[..k + 1][1..] == heads[1..][..k];
      assert heads[1..][0] == heads[1];
      ExpiryIsExactOverRuns(s', heads[1..], k - 1);
    }
  }
}
