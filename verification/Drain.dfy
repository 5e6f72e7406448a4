/** The decimal arithmetic of the Cosmos SDK that the bridge uses: 18 decimals, ties to even. */
module DecRounding {
  import opened Config
  import opened Wrappers

  const PRECISION: int := 1_000_000_000_000_000_000
  const GAS_FEE_RATIO: nat := 1_500_000_000_000_000_000

  /** Drops 18 decimals; a negative number is rounded through its absolute value. */
  function ChopAndRound(d: int): int
    decreases d < 0
  {
    if d < 0 then -ChopAndRound(-d)
    else
      var quo, rem := d / PRECISION, d % PRECISION;
      if rem == 0 || 2 * rem < PRECISION then quo
      else if 2 * rem > PRECISION then quo + 1
      else if quo % 2 == 0 then quo
      else quo + 1
  }

  /** The result is the nearest integer, and the even one of two nearest; nothing else is. */
  lemma ChopIsNearestEven(d: int, q: int)
    ensures ChopAndRound(d) == q <==>
            && -PRECISION <= 2 * (d - q * PRECISION) <= PRECISION
            && (2 * (d - q * PRECISION) in {PRECISION, -PRECISION} ==> q % 2 == 0)
    decreases d < 0
  {
    if d < 0 {
      ChopIsNearestEven(-d, -q);
    } else {
      var quo, rem := d / PRECISION, d % PRECISION;
      assert d == quo * PRECISION + rem;
      if -PRECISION <= 2 * (d - q * PRECISION) <= PRECISION {
        assert q == quo || q == quo + 1;
      }
    }
  }

  /** A base-unit amount times 1.5, as moveBnb computes it. */
  function MulGasRatio(t: nat): int {
    ChopAndRound(t * GAS_FEE_RATIO)
  }

  lemma RatioIs(t: nat, q: int)
    requires -1 <= 3 * t - 2 * q <= 1
    requires 3 * t != 2 * q ==> q % 2 == 0
    ensures MulGasRatio(t) == q
  {
    assert 2 * (t * GAS_FEE_RATIO - q * PRECISION) == (3 * t - 2 * q) * PRECISION;
    ChopIsNearestEven(t * GAS_FEE_RATIO, q);
  }

  /** Half of 3t, and the even neighbour when 3t is odd. */
  function HalfAsMuchAgain(t: nat): (q: int)
    ensures -1 <= 3 * t - 2 * q <= 1 && (3 * t != 2 * q ==> q % 2 == 0)
    ensures t <= q <= 2 * t
  {
    if t == 0 then 0
    else if t == 1 then 2
    else if t == 2 then 3
    else if t == 3 then 4
    else 6 + HalfAsMuchAgain(t - 4)
  }

  lemma RatioClosedForm(t: nat)
    ensures MulGasRatio(t) == HalfAsMuchAgain(t)
    ensures t <= MulGasRatio(t) <= 2 * t
  {
    RatioIs(t, HalfAsMuchAgain(t));
  }

  /** GasEstimation's rounding; None where RoundInt64 panics. */
  function GasWanted(gasUsed: nat): Option<nat> {
    var wanted := ChopAndRound(ChopAndRound((gasUsed * PRECISION) * GAS_FEE_RATIO));
    if 0 <= wanted <= MAX_INT64 then Some(wanted) else None
  }

  /**
   * Scaling up first changes nothing: the gas asked for is the same half-even product, it covers the gas simulated,
   * and there is none exactly when the product leaves int64.
   */
  lemma GasWantedCovers(gasUsed: nat)
    ensures GasWanted(gasUsed).None? <==> MulGasRatio(gasUsed) > MAX_INT64
    ensures GasWanted(gasUsed).Some? ==> gasUsed <= GasWanted(gasUsed).value == MulGasRatio(gasUsed) <= 2 * gasUsed
  {
    ChopIsNearestEven((gasUsed * PRECISION) * GAS_FEE_RATIO, gasUsed * GAS_FEE_RATIO);
    RatioClosedForm(gasUsed);
  }
}

/** Draining a retired pool's account on the public chain (pubchain/tx_inbound.go:361-508). */
module Drain {
  import opened Config
  import opened Wrappers
  import opened DecRounding

  datatype Gas = Gas(price: nat, limit: nat) {
    function Cost(): nat {
      price * limit
    }
  }

  datatype SendOutcome = Accepted | AlreadyKnown | Rejected

  /** What the chain and the signers answer in one round; None and false are failed queries. */
  datatype Answers = Answers(
    token: Option<nat>,
    bnb: Option<nat>,
    tokenSend: SendOutcome,
    nonce: bool,
    gas: Option<Gas>,
    signed: bool,
    bnbSend: SendOutcome)

  datatype Transfer = TokenTransfer(amount: nat) | BnbTransfer(value: nat, gas: Gas)

  /** `built` is the transfer handed to the chain, whatever became of it. */
  datatype MoveResult = MoveResult(empty: bool, err: bool, built: Option<Transfer>)

  /** What is left of the balance after half as much gas again as the estimate, if that is more than dust. */
  function Sweep(balance: nat, gas: Gas): Option<nat> {
    var move := balance - MulGasRatio(gas.Cost());
    if move > DUST then Some(move) else None
  }

  function MoveBnb(balance: nat, a: Answers): MoveResult {
    if a.gas.None? then MoveResult(false, true, None)
    else
      match Sweep(balance, a.gas.value)
      case None => MoveResult(false, false, None)
      case Some(value) =>
        if !a.signed then MoveResult(false, true, None)
        else MoveResult(false, a.bnbSend.Rejected?, Some(BnbTransfer(value, a.gas.value)))
  }

  function MoveFunds(a: Answers): MoveResult {
    if a.token.None? || a.bnb.None? then MoveResult(false, true, None)
    else if a.token.value == 0 && a.bnb.value <= DUST then MoveResult(true, false, None)
    else if a.token.value > 0 then MoveResult(false, a.tokenSend.Rejected?, Some(TokenTransfer(a.token.value)))
    else if a.bnb.value > 0 then
      if !a.nonce then MoveResult(false, true, None) else MoveBnb(a.bnb.value, a)
    else MoveResult(false, false, None)
  }

  /** All tokens are sent whenever both balances are known and there are any. */
  ghost predicate SendsTokens(a: Answers) {
    a.token.Some? && a.bnb.Some? && a.token.value > 0
  }

  /** Tokens gone, every answer at hand, and more BNB than dust and half as much again as the gas. */
  ghost predicate SweepsBnb(a: Answers) {
    && a.token == Some(0) && a.bnb.Some? && a.nonce && a.gas.Some? && a.signed
    && a.bnb.value > DUST + HalfAsMuchAgain(a.gas.value.Cost())
  }

  /** An answer is missing: a balance; or, for BNB beyond dust, the nonce, the gas, or the signature of a sweep. */
  ghost predicate Misses(a: Answers) {
    || a.token.None? || a.bnb.None?
    || (a.bnb.value > DUST
        && (|| !a.nonce || a.gas.None?
            || (a.bnb.value > DUST + HalfAsMuchAgain(a.gas.value.Cost()) && !a.signed)))
  }

  /**
   * Exactly which transfer a round builds: all the tokens, or only without tokens a BNB sweep, which carries more than
   * dust and leaves its own gas in the account. Empty is reported exactly for an observed account without tokens and
   * with at most dust, and a built transfer fails the round exactly when it is rejected; without one the round fails
   * exactly when an answer it needs is missing.
   */
  lemma MoveFundsIsSafe(a: Answers)
    ensures var r := MoveFunds(a);
            && (SendsTokens(a) ==> r.built == Some(TokenTransfer(a.token.value)) && r.err == a.tokenSend.Rejected?)
            && (SweepsBnb(a) ==>
                  && r.built == Some(BnbTransfer(a.bnb.value - HalfAsMuchAgain(a.gas.value.Cost()), a.gas.value))
                  && r.err == a.bnbSend.Rejected?
                  && r.built.value.value > DUST && r.built.value.value + a.gas.value.Cost() <= a.bnb.value)
            && (!SendsTokens(a) && !SweepsBnb(a) ==> r.built.None? && r.err == Misses(a))
            && (r.empty <==> a.token == Some(0) && a.bnb.Some? && a.bnb.value <= DUST)
            && (r.empty ==> !r.err)
  {
    if a.gas.Some? {
      RatioClosedForm(a.gas.value.Cost());
    }
  }

  datatype Account = Account(token: nat, bnb: nat)

  /** Fixed costs of the two transfers; a token transfer is rejected when the account cannot pay for it. */
  datatype Costs = Costs(gas: Gas, tokenGas: nat)

  function Honest(acc: Account, c: Costs): Answers {
    Answers(Some(acc.token), Some(acc.bnb), if acc.bnb >= c.tokenGas then Accepted else Rejected,
            true, Some(c.gas), true, Accepted)
  }

  /** The account after a round in which every transfer the account can pay for goes through. */
  function Round(acc: Account, c: Costs): Account {
    match MoveFunds(Honest(acc, c)).built
    case Some(TokenTransfer(amount)) =>
      if acc.bnb >= c.tokenGas then Account(0, acc.bnb - c.tokenGas) else acc
    case Some(BnbTransfer(value, gas)) =>
      if value + gas.Cost() <= acc.bnb then Account(acc.token, acc.bnb - value - gas.Cost()) else acc
    case None => acc
  }

  function After(acc: Account, c: Costs, n: nat): Account
    decreases n
  {
    if n == 0 then acc else After(Round(acc, c), c, n - 1)
  }

  predicate EmptyAt(acc: Account, c: Costs, n: nat) {
    MoveFunds(Honest(After(acc, c, n), c)).empty
  }

  predicate Sweepable(bnb: int, gas: Gas) {
    || 0 <= bnb <= DUST
    || (bnb > DUST + MulGasRatio(gas.Cost()) && MulGasRatio(gas.Cost()) - gas.Cost() <= DUST)
  }

  /** The token transfer is affordable, and the BNB left then is dust or worth a sweep that leaves only dust. */
  predicate Drainable(acc: Account, c: Costs) {
    Sweepable(if acc.token > 0 then acc.bnb - c.tokenGas else acc.bnb, c.gas)
  }

  lemma RoundKeepsDrainable(acc: Account, c: Costs)
    ensures Drainable(Round(acc, c), c) <==> Drainable(acc, c)
  {
    RatioClosedForm(c.gas.Cost());
  }

  lemma {:induction false} AfterKeepsDrainable(acc: Account, c: Costs, n: nat)
    ensures Drainable(After(acc, c, n), c) <==> Drainable(acc, c)
    decreases n
  {
    if n == 0 {
    } else {
      RoundKeepsDrainable(acc, c);
      AfterKeepsDrainable(Round(acc, c), c, n - 1);
    }
  }

  /** Within two transfers a drainable account is reported empty. */
  lemma DrainableEmptiesInTwoRounds(acc: Account, c: Costs)
    requires Drainable(acc, c)
    ensures exists n: nat :: n <= 2 && EmptyAt(acc, c, n)
  {
    RatioClosedForm(c.gas.Cost());
    var acc1 := Round(acc, c);
    var acc2 := Round(acc1, c);
    assert After(acc, c, 0) == acc;
    assert After(acc1, c, 0) == acc1 && After(acc, c, 1) == acc1;
    assert After(acc2, c, 0) == acc2 && After(acc1, c, 1) == acc2 && After(acc, c, 2) == acc2;
    if MoveFunds(Honest(acc, c)).empty {
      assert EmptyAt(acc, c, 0);
    } else if MoveFunds(Honest(acc1, c)).empty {
      assert EmptyAt(acc, c, 1);
    } else {
      assert EmptyAt(acc, c, 2);
    }
  }

  /** For every account and every fixed cost: the rounds ever report empty exactly when the account is drainable. */
  lemma DrainTerminatesIff(acc: Account, c: Costs)
    ensures (exists n: nat :: EmptyAt(acc, c, n)) <==> Drainable(acc, c)
  {
    if n: nat :| EmptyAt(acc, c, n) {
      AfterKeepsDrainable(acc, c, n);
    }
    if Drainable(acc, c) {
      DrainableEmptiesInTwoRounds(acc, c);
    }
  }

  /** An account with dust and the gas reserve exactly is never reported empty, as long as a sweep costs any gas. */
  lemma DustAndReserveNeverDrain(c: Costs)
    requires c.gas.Cost() > 0
    ensures var acc := Account(0, DUST + HalfAsMuchAgain(c.gas.Cost()));
            !exists n: nat :: EmptyAt(acc, c, n)
  {
    RatioClosedForm(c.gas.Cost());
    DrainTerminatesIff(Account(0, DUST + HalfAsMuchAgain(c.gas.Cost())), c);
  }
}

/** What a drain round means for the job that asked for it (bridge/joltifyBridge.go:229-247, 286-308). */
module DrainOutcomes {
  import opened Wrappers
  import opened Config
  import opened Drain
  import S = Scheduler

  /** The signer check comes first: None is its failure. */
  function PublicOutcome(signer: Option<bool>, a: Answers): S.Outcome {
    if signer.None? then S.SignerError
    else if !signer.value then S.NotSigner
    else
      var r := MoveFunds(a);
      if r.err then S.Failed else if r.empty then S.Empty else S.NotEmpty
  }

  /** MoveFunds on the Joltify chain: account and balance queries, then one transfer of all coins. */
  function JoltifyOutcome(signer: Option<bool>, account: bool, coins: Option<seq<nat>>, sent: bool): S.Outcome {
    if signer.None? then S.SignerError
    else if !signer.value then S.NotSigner
    else if !account || coins.None? then S.Failed
    else if coins.value == [] then S.Empty
    else if sent then S.NotEmpty
    else S.Failed
  }

  predicate ObservedEmpty(a: Answers) {
    a.token == Some(0) && a.bnb.Some? && a.bnb.value <= DUST
  }

  /** The fate of the job stored under `k`: put back under the present height, finished, or given up. */
  ghost predicate Fate(s: S.Side, s': S.Side, k: int, signer: bool, empty: bool)
    requires k in s.jobs
  {
    var pool, rest := s.jobs[k], s.jobs - {k};
    && s'.popped == s.popped + [k]
    && s'.jobs == (if signer && !empty then rest[s.height := pool] else rest)
    && s'.emptied == (if signer && empty then s.emptied + multiset{pool} else s.emptied)
    && s'.abandoned == (if signer then s.abandoned else s.abandoned + multiset{pool})
  }

  lemma DrainFate(s: S.Side, k: int, outcome: S.Outcome)
    requires S.PopAfter(s.jobs, s.height) == Some(k)
    ensures Fate(s, S.Step(s, S.Drain(outcome)), k, !outcome.SignerError? && !outcome.NotSigner?, outcome.Empty?)
  {
    hide S.PopAfter;
  }

  lemma PublicJobEndsIff(s: S.Side, k: int, signer: Option<bool>, a: Answers)
    requires S.PopAfter(s.jobs, s.height) == Some(k)
    ensures Fate(s, S.Step(s, S.Drain(PublicOutcome(signer, a))), k, signer == Some(true), ObservedEmpty(a))
  {
    hide S.PopAfter, S.Step, MoveFunds;
    DrainFate(s, k, PublicOutcome(signer, a));
    MoveFundsIsSafe(a);
  }

  lemma JoltifyJobEndsIff(s: S.Side, k: int, signer: Option<bool>, account: bool, coins: Option<seq<nat>>, sent: bool)
    requires S.PopAfter(s.jobs, s.height) == Some(k)
    ensures Fate(s, S.Step(s, S.Drain(JoltifyOutcome(signer, account, coins, sent))), k, signer == Some(true),
                 account && coins == Some([]))
  {
    hide S.PopAfter, S.Step;
    DrainFate(s, k, JoltifyOutcome(signer, account, coins, sent));
  }

  /**
   * The job a drain takes is, on either chain, abandoned exactly when the node is no signer or cannot tell, finished
   * exactly when a signer observes an empty account, and otherwise stored again under the present height.
   */
  lemma JobEndsIff(s: S.Side, k: int, signer: Option<bool>, a: Answers, account: bool, coins: Option<seq<nat>>,
                   sent: bool)
    requires S.PopAfter(s.jobs, s.height) == Some(k)
    ensures Fate(s, S.Step(s, S.Drain(PublicOutcome(signer, a))), k, signer == Some(true), ObservedEmpty(a))
    ensures Fate(s, S.Step(s, S.Drain(JoltifyOutcome(signer, account, coins, sent))), k, signer == Some(true),
                 account && coins == Some([]))
  {
    hide S.PopAfter, S.Step, Fate, PublicOutcome, JoltifyOutcome;
    PublicJobEndsIff(s, k, signer, a);
    JoltifyJobEndsIff(s, k, signer, account, coins, sent);
  }
}
