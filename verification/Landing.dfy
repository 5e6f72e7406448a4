/**
 * Transactions that a chain takes now and records later: each carries a number of its account, and the chain records it
 * only when the account is at that number. What can still be recorded twice, and when it is harmless to send once more.
 */
module Landing {
  import opened ByteTypes

  /** What a transaction asks the chain to record, under a key that should be recorded once. */
  datatype Record<R> = Record(key: nat, item: R)

  datatype Sending<R> = Sending(rec: Record<R>, account: Address, number: nat)

  /** The records in order, the transactions in flight, and the number each account is at. */
  datatype Chain<R> = Chain(recorded: seq<Record<R>>, inFlight: seq<Sending<R>>, numbers: map<Address, nat>)

  /** The number the next transaction of an account must carry. */
  function NumberOf<R>(c: Chain<R>, account: Address): nat {
    if account in c.numbers then c.numbers[account] else 0
  }

  /** The chain can record it now. */
  predicate Next<R>(c: Chain<R>, s: Sending<R>) {
    s.number == NumberOf(c, s.account)
  }

  /** The chain could still record it. */
  predicate Live<R>(c: Chain<R>, s: Sending<R>) {
    s.number >= NumberOf(c, s.account)
  }

  /** Other transactions take the next numbers of an account. */
  function Advanced<R>(c: Chain<R>, account: Address, times: nat): Chain<R> {
    c.(numbers := c.numbers[account := NumberOf(c, account) + times])
  }

  function Landed<R>(c: Chain<R>, n: nat): Chain<R>
    requires n < |c.inFlight|
  {
    Advanced(c, c.inFlight[n].account, 1)
    .(recorded := c.recorded + [c.inFlight[n].rec], inFlight := c.inFlight[..n] + c.inFlight[n + 1..])
  }

  function Broadcast<R>(c: Chain<R>, s: Sending<R>): Chain<R> {
    c.(inFlight := c.inFlight + [s])
  }

  ghost predicate Has<R>(recorded: seq<Record<R>>, key: nat) {
    exists i :: 0 <= i < |recorded| && recorded[i].key == key
  }

  ghost predicate RecordedOnce<R>(recorded: seq<Record<R>>) {
    forall i, j :: 0 <= i < j < |recorded| ==> recorded[i].key != recorded[j].key
  }

  // ---- Safe chains ----

  /** Transaction `n` could still be recorded, and is for this key. */
  ghost predicate Threatens<R>(c: Chain<R>, n: nat, key: nat) {
    n < |c.inFlight| && Live(c, c.inFlight[n]) && c.inFlight[n].rec.key == key
  }

  /** The two carry the same number of the same account: at most one of them can be recorded. */
  predicate Rivals<R>(a: Sending<R>, b: Sending<R>) {
    a.account == b.account && a.number == b.number
  }

  /** No live transaction is for a recorded key, and all live ones for one key are rivals. */
  ghost predicate Safe<R>(c: Chain<R>) {
    && (forall n: nat, key :: Threatens(c, n, key) ==> !Has(c.recorded, key))
    && (forall m: nat, n: nat, key :: Threatens(c, m, key) && Threatens(c, n, key) ==>
          Rivals(c.inFlight[m], c.inFlight[n]))
  }

  /** The chain records a transaction for a key it holds. */
  ghost predicate LandsAgain<R>(c: Chain<R>, n: nat) {
    n < |c.inFlight| && Has(c.recorded, c.inFlight[n].rec.key)
  }

  lemma LandRecordsOnceIff<R>(c: Chain<R>, n: nat)
    requires n < |c.inFlight| && RecordedOnce(c.recorded)
    ensures RecordedOnce(Landed(c, n).recorded) <==> !LandsAgain(c, n)
  {
    var recorded := Landed(c, n).recorded;
    assert recorded[|c.recorded|] == c.inFlight[n].rec;
    assert forall i :: 0 <= i < |c.recorded| ==> recorded[i] == c.recorded[i];
  }

  /** Where a transaction was before transaction `n` landed. */
  function Before(n: nat, k: nat): nat {
    if k < n then k else k + 1
  }

  lemma LandedInFlight<R>(c: Chain<R>, n: nat, k: nat)
    requires n < |c.inFlight| && k < |Landed(c, n).inFlight|
    ensures Before(n, k) < |c.inFlight| && Landed(c, n).inFlight[k] == c.inFlight[Before(n, k)]
  {
  }

  /** Landing uses up the account's number: what is live afterwards was live before and is no rival. */
  lemma StillLive<R>(c: Chain<R>, n: nat, k: nat, key: nat)
    requires n < |c.inFlight| && Next(c, c.inFlight[n]) && Threatens(Landed(c, n), k, key)
    ensures Threatens(c, Before(n, k), key) && Landed(c, n).inFlight[k] == c.inFlight[Before(n, k)]
    ensures !Rivals(c.inFlight[Before(n, k)], c.inFlight[n])
  {
    LandedInFlight(c, n, k);
  }

  lemma LandKeepsSafe<R>(c: Chain<R>, n: nat)
    requires Safe(c) && n < |c.inFlight| && Next(c, c.inFlight[n])
    ensures Safe(Landed(c, n)) && !LandsAgain(c, n)
  {
    var c', landing := Landed(c, n), c.inFlight[n].rec.key;
    assert Threatens(c, n, landing);
    forall k: nat, key | Threatens(c', k, key) ensures !Has(c'.recorded, key) {
      StillLive(c, n, k, key);
      assert c'.recorded == c.recorded + [c.inFlight[n].rec];
    }
    forall j: nat, k: nat, key | Threatens(c', j, key) && Threatens(c', k, key)
      ensures Rivals(c'.inFlight[j], c'.inFlight[k])
    {
      StillLive(c, n, j, key);
      StillLive(c, n, k, key);
    }
  }

  lemma AdvanceKeepsSafe<R>(c: Chain<R>, account: Address, times: nat)
    requires Safe(c)
    ensures Safe(Advanced(c, account, times))
  {
    var c' := Advanced(c, account, times);
    assert forall k: nat, key :: Threatens(c', k, key) ==> Threatens(c, k, key);
  }

  // ---- What can still happen ----

  /** The chain records a transaction, or other transactions use up numbers of an account. */
  datatype Move = Lands(n: nat) | Advances(account: Address, times: nat)

  predicate Possible<R>(c: Chain<R>, moves: seq<Move>)
    decreases |moves|
  {
    if moves == [] then true
    else
      match moves[0]
      case Lands(n) => n < |c.inFlight| && Next(c, c.inFlight[n]) && Possible(Landed(c, n), moves[1..])
      case Advances(account, times) => Possible(Advanced(c, account, times), moves[1..])
  }

  function Moved<R>(c: Chain<R>, moves: seq<Move>): Chain<R>
    decreases |moves|
  {
    if moves == [] then c
    else
      match moves[0]
      case Lands(n) => if n < |c.inFlight| then Moved(Landed(c, n), moves[1..]) else Moved(c, moves[1..])
      case Advances(account, times) => Moved(Advanced(c, account, times), moves[1..])
  }

  lemma AdvanceKeepsRest<R>(c: Chain<R>, account: Address, times: nat)
    ensures var c' := Advanced(c, account, times);
            && c'.recorded == c.recorded && c'.inFlight == c.inFlight
            && NumberOf(c', account) == NumberOf(c, account) + times
            && forall a :: a != account ==> NumberOf(c', a) == NumberOf(c, a)
  {
  }

  lemma {:induction false} SafeStaysSafe<R>(c: Chain<R>, moves: seq<Move>)
    requires Safe(c) && RecordedOnce(c.recorded) && Possible(c, moves)
    ensures RecordedOnce(Moved(c, moves).recorded)
    decreases |moves|
  {
    if moves == [] {
    } else {
      hide Safe, RecordedOnce, LandsAgain, Landed, Advanced, Next;
      match moves[0]
      case Lands(n) =>
        LandKeepsSafe(c, n);
        LandRecordsOnceIff(c, n);
        SafeStaysSafe(Landed(c, n), moves[1..]);
      case Advances(account, times) =>
        AdvanceKeepsSafe(c, account, times);
        AdvanceKeepsRest(c, account, times);
        SafeStaysSafe(Advanced(c, account, times), moves[1..]);
    }
  }

  /** A live transaction is recorded after the numbers before its own are used up. */
  function Reach<R>(c: Chain<R>, n: nat): seq<Move>
    requires n < |c.inFlight| && Live(c, c.inFlight[n])
  {
    var s := c.inFlight[n];
    [Advances(s.account, s.number - NumberOf(c, s.account)), Lands(n)]
  }

  /** The chain in which a live transaction has been recorded next. */
  function Reached<R>(c: Chain<R>, n: nat): Chain<R>
    requires n < |c.inFlight| && Live(c, c.inFlight[n])
  {
    var s := c.inFlight[n];
    Landed(Advanced(c, s.account, s.number - NumberOf(c, s.account)), n)
  }

  lemma ReachIsPossible<R>(c: Chain<R>, n: nat, more: seq<Move>)
    requires n < |c.inFlight| && Live(c, c.inFlight[n])
    ensures Possible(c, Reach(c, n) + more) <==> Possible(Reached(c, n), more)
    ensures Moved(c, Reach(c, n) + more) == Moved(Reached(c, n), more)
  {
    var moves := Reach(c, n) + more;
    assert moves[1..] == [Lands(n)] + more && ([Lands(n)] + more)[1..] == more;
  }

  lemma ReachedRecords<R>(c: Chain<R>, n: nat)
    requires n < |c.inFlight| && Live(c, c.inFlight[n]) && RecordedOnce(c.recorded)
    ensures Reached(c, n).recorded == c.recorded + [c.inFlight[n].rec]
    ensures RecordedOnce(Reached(c, n).recorded) <==> !Has(c.recorded, c.inFlight[n].rec.key)
    ensures Has(Reached(c, n).recorded, c.inFlight[n].rec.key)
  {
    var s := c.inFlight[n];
    var c' := Advanced(c, s.account, s.number - NumberOf(c, s.account));
    LandRecordsOnceIff(c', n);
    assert Reached(c, n).recorded[|c.recorded|].key == s.rec.key;
  }

  /** Where transaction `k` is after another one has landed. */
  function After(n: nat, k: nat): nat
    requires k != n
  {
    if k < n then k else k - 1
  }

  /** When one of two live transactions has landed, the other, unless its number was passed, is still live. */
  lemma OtherStillLive<R>(c: Chain<R>, m: nat, n: nat)
    requires m < |c.inFlight| && n < |c.inFlight| && m != n && Live(c, c.inFlight[m]) && Live(c, c.inFlight[n])
    requires c.inFlight[m].account == c.inFlight[n].account ==> c.inFlight[m].number < c.inFlight[n].number
    ensures var c', k := Reached(c, m), After(m, n);
            k < |c'.inFlight| && c'.inFlight[k] == c.inFlight[n] && Live(c', c'.inFlight[k])
  {
    var s := c.inFlight[m];
    AdvanceKeepsRest(c, s.account, s.number - NumberOf(c, s.account));
    var c1 := Advanced(c, s.account, s.number - NumberOf(c, s.account));
    AdvanceKeepsRest(c1, s.account, 1);
  }

  lemma TwoLandings<R>(c: Chain<R>, m: nat, n: nat) returns (moves: seq<Move>)
    requires m < |c.inFlight| && n < |c.inFlight| && m != n && Live(c, c.inFlight[m]) && Live(c, c.inFlight[n])
    requires c.inFlight[m].account == c.inFlight[n].account ==> c.inFlight[m].number < c.inFlight[n].number
    requires c.inFlight[m].rec.key == c.inFlight[n].rec.key
    requires RecordedOnce(c.recorded) && !Has(c.recorded, c.inFlight[m].rec.key)
    ensures Possible(c, moves) && !RecordedOnce(Moved(c, moves).recorded)
  {
    hide Reach, Reached, Possible, Moved, Has, RecordedOnce;
    OtherStillLive(c, m, n);
    ReachedRecords(c, m);
    var c', k := Reached(c, m), After(m, n);
    ReachedRecords(c', k);
    moves := Reach(c, m) + (Reach(c', k) + []);
    ReachIsPossible(c, m, Reach(c', k) + []);
    ReachIsPossible(c', k, []);
    NoMoves(Reached(c', k));
  }

  lemma NoMoves<R>(c: Chain<R>)
    ensures Possible(c, []) && Moved(c, []) == c
  {
  }

  lemma UnsafeCanRecordTwice<R>(c: Chain<R>) returns (moves: seq<Move>)
    requires RecordedOnce(c.recorded) && !Safe(c)
    ensures Possible(c, moves) && !RecordedOnce(Moved(c, moves).recorded)
  {
    if n: nat, key :| Threatens(c, n, key) && Has(c.recorded, key) {
      hide Reach, Reached, Possible, Moved, Has, RecordedOnce;
      moves := Reach(c, n) + [];
      ReachedRecords(c, n);
      ReachIsPossible(c, n, []);
      NoMoves(Reached(c, n));
    } else {
      var m: nat, n: nat, key :| Threatens(c, m, key) && Threatens(c, n, key) && !Rivals(c.inFlight[m], c.inFlight[n]);
      var a, b := c.inFlight[m], c.inFlight[n];
      if a.account == b.account && b.number < a.number {
        moves := TwoLandings(c, n, m);
      } else {
        moves := TwoLandings(c, m, n);
      }
    }
  }

  /**
   * Exactly when transactions in flight are harmless: whatever the chain still records, in whatever order, no key is
   * recorded twice, if and only if no live transaction is for a recorded key and all live ones for one key are rivals.
   */
  lemma LateLandingsHarmlessIff<R>(c: Chain<R>)
    requires RecordedOnce(c.recorded)
    ensures Safe(c) <==> forall moves :: Possible(c, moves) ==> RecordedOnce(Moved(c, moves).recorded)
  {
    if Safe(c) {
      forall moves | Possible(c, moves) ensures RecordedOnce(Moved(c, moves).recorded) {
        SafeStaysSafe(c, moves);
      }
    } else {
      var moves := UnsafeCanRecordTwice(c);
    }
  }

  // ---- Sending once more ----

  /** A transaction that can land is sent for a key that the chain has recorded. */
  ghost predicate SendsRecorded<R>(c: Chain<R>, s: Sending<R>) {
    Live(c, s) && Has(c.recorded, s.rec.key)
  }

  /** A transaction that can land is sent while one for its key that is no rival can land too. */
  ghost predicate SendsBeside<R>(c: Chain<R>, s: Sending<R>) {
    Live(c, s) && exists n: nat :: Threatens(c, n, s.rec.key) && !Rivals(c.inFlight[n], s)
  }

  lemma SentThreats<R>(c: Chain<R>, s: Sending<R>, n: nat, key: nat)
    ensures n != |c.inFlight| ==> (Threatens(Broadcast(c, s), n, key) <==> Threatens(c, n, key))
    ensures n == |c.inFlight| ==> (Threatens(Broadcast(c, s), n, key) <==> Live(c, s) && key == s.rec.key)
    ensures n < |c.inFlight| ==> Broadcast(c, s).inFlight[n] == c.inFlight[n]
  {
  }

  /** Sending keeps the chain safe unless it is for a recorded key or beside another that can land. */
  lemma SendKeepsSafeIff<R>(c: Chain<R>, s: Sending<R>)
    requires Safe(c)
    ensures Safe(Broadcast(c, s)) <==> !SendsRecorded(c, s) && !SendsBeside(c, s)
  {
    var c', last := Broadcast(c, s), |c.inFlight|;
    forall n: nat, key
      ensures n != last ==> (Threatens(c', n, key) <==> Threatens(c, n, key))
      ensures n < last ==> c'.inFlight[n] == c.inFlight[n]
    {
      SentThreats(c, s, n, key);
    }
    SentThreats(c, s, last, s.rec.key);
    assert forall key :: Threatens(c', last, key) ==> key == s.rec.key;
    if SendsBeside(c, s) {
      var n: nat :| Threatens(c, n, s.rec.key) && !Rivals(c.inFlight[n], s);
      assert Threatens(c', n, s.rec.key) && Threatens(c', last, s.rec.key) && c'.inFlight[last] == s;
    }
  }
}
