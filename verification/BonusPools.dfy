/** How much of the two pools all calculations of a run can hand out together. */
module BonusPools {
  import opened Wrappers
  import opened Sums
  import opened Requests
  import opened Amounts
  import opened Receipts
  import opened BonusMath
  import opened BonusShares
  import opened Pipeline
  import opened PipelineInvariant
  import opened PipelineSteps
  import opened PipelineSafety
  import opened BonusPayout
  import opened Deployment

  datatype Pool = Swap | Vesting

  function PoolSize(c: Config, p: Pool): nat {
    match p
    case Swap => c.swapPool
    case Vesting => c.vestingPool
  }

  function BonusOf(r: Row, p: Pool): nat {
    match p
    case Swap => OrZero(r.swapBonus)
    case Vesting => OrZero(r.vestingBonus)
  }

  function BonusByKey(t: Table, p: Pool): map<Key, nat> {
    map k | k in t :: BonusOf(t[k], p)
  }

  /** Everything the table holds of one kind of bonus. */
  ghost function HandedOut(t: Table, p: Pool): nat {
    MapSum(BonusByKey(t, p))
  }

  function BonusIn(st: Stmt, p: Pool): nat {
    match st
    case UpdateBonuses(_, swap, vest) => if p.Swap? then swap else vest
    case _ => 0
  }

  function BonusesIn(q: seq<Stmt>, p: Pool): (s: seq<nat>)
    ensures |s| == |q| && forall i :: 0 <= i < |q| ==> s[i] == BonusIn(q[i], p)
  {
    seq(|q|, i requires 0 <= i < |q| => BonusIn(q[i], p))
  }

  /** ... and what the calculation has issued on top of it. */
  ghost function HandedOutSoFar(s: Sys, p: Pool): nat {
    HandedOut(s.table, p) + Sum(BonusesIn(s.calcIssued, p))
  }

  /** Nothing but a write of the calculation adds to the table. */
  lemma OthersAddNothing(t: Table, t': Table, p: Pool)
    requires forall k :: k in t' && BonusOf(t'[k], p) > 0 ==> k in t && BonusOf(t'[k], p) <= BonusOf(t[k], p)
    ensures HandedOut(t', p) <= HandedOut(t, p)
  {
    MapSumInjects<Key, Key>(BonusByKey(t', p), BonusByKey(t, p), (k: Key) => k);
  }

  lemma FirstAmount(q: seq<Stmt>, p: Pool)
    requires q != []
    ensures Sum(BonusesIn(q, p)) == BonusIn(q[0], p) + Sum(BonusesIn(q[1..], p))
  {
    assert BonusesIn(q, p) == [BonusIn(q[0], p)] + BonusesIn(q[1..], p);
    SumAppend([BonusIn(q[0], p)], BonusesIn(q[1..], p));
    SumSingleton(BonusIn(q[0], p));
  }

  /** A write of the calculation moves its amount from the queue into a row that held none. */
  lemma WriteMovesBonus(c: Config, s: Sys, applied: bool, p: Pool)
    requires Inv(c, s) && s.calcIssued != []
    ensures HandedOutSoFar(DoCalcExec(s, applied), p) <= HandedOutSoFar(s, p)
  {
    hide MapSum, Sum, BookOk, ControlOk, ResetOk, DisbursalOk;
    var st := s.calcIssued[0];
    FirstAmount(s.calcIssued, p);
    assert StmtReady(c, s.eth, s.table, st) && Writer(st) == TheCalculation;
    assert RowOk(c, s.eth, st.key, s.table[st.key]);
    if applied {
      MapSumUpdate(BonusByKey(s.table, p), st.key, BonusIn(st, p));
      assert BonusByKey(Exec(st, s.table), p) == BonusByKey(s.table, p)[st.key := BonusIn(st, p)];
    }
  }

  /** A calculation issues at most one whole pool. */
  lemma CalculationFitsPool(c: Config, s: Sys, reqs: seq<Req>, p: Pool)
    requires CanCalcSelect(s, reqs)
    ensures HandedOutSoFar(DoCalcSelect(c, s, reqs), p)
         <= HandedOutSoFar(s, p) + (if Divisible(reqs) then PoolSize(c, p) else 0)
  {
    hide IsSelect, HandedOut;
    if Divisible(reqs) {
      var q := BonusStmts(c, reqs);
      match p
      case Swap =>
        SwapPoolDust(c, reqs);
        assert BonusesIn(q, p) == SwapBonuses(c, reqs);
      case Vesting =>
        VestingPoolDust(c, reqs);
        assert BonusesIn(q, p) == VestingBonuses(c, reqs);
    }
  }

  /** A row holds bonuses only from BONUS_CALCULATED on, and other processes leave such rows alone. */
  lemma OtherStepAdds(c: Config, s: Sys, step: Step, p: Pool)
    requires Inv(c, s) && Enabled(c, s, step) && Inv(c, Apply(c, s, step)) && !IsBonusStep(step)
    ensures HandedOutSoFar(Apply(c, s, step), p) <= HandedOutSoFar(s, p)
  {
    var s' := Apply(c, s, step);
    assert BonusQuiet(s, s') by {
      hide Inv, Apply, Enabled, BonusQuiet;
      OutsideBonusStep(c, s, step);
    }
    RowsAddNothing(c, s, s', p);
  }

  lemma RowsAddNothing(c: Config, s: Sys, s': Sys, p: Pool)
    requires RowsOk(c, s'.eth, s'.table) && BonusQuiet(s, s')
    ensures HandedOutSoFar(s', p) <= HandedOutSoFar(s, p)
  {
    hide MapSum, Sum, OwedAndPaid, SameLosses;
    forall k | k in s'.table && BonusOf(s'.table[k], p) > 0
      ensures k in s.table && BonusOf(s'.table[k], p) <= BonusOf(s.table[k], p)
    {
      assert RowOk(c, s'.eth, k, s'.table[k]);
    }
    OthersAddNothing(s.table, s'.table, p);
  }

  lemma RewardAddsNothing(c: Config, s: Sys, applied: bool, p: Pool)
    requires Inv(c, s) && s.dispIssued != []
    ensures HandedOutSoFar(DoDispExec(s, applied), p) <= HandedOutSoFar(s, p)
  {
    hide MapSum, Sum, BookOk, ControlOk, ResetOk, DisbursalOk, RowsOk;
    var st := s.dispIssued[0];
    assert StmtReady(c, s.eth, s.table, st) && Writer(st) == TheDisbursal;
    OthersAddNothing(s.table, Exec(st, s.table), p);
  }

  /** Whether this step starts a calculation that hands something out. */
  predicate Calculates(step: Step) {
    step.CalcSelect? && Divisible(step.reqs)
  }

  lemma BonusStepFits(c: Config, s: Sys, step: Step, p: Pool)
    requires Inv(c, s) && Enabled(c, s, step) && IsBonusStep(step)
    ensures HandedOutSoFar(Apply(c, s, step), p) <= HandedOutSoFar(s, p) + (if Calculates(step) then PoolSize(c, p) else 0)
  {
    hide Inv, HandedOut, BonusStmts, IsSelect, IsDisbursalSelect, BonusBatch, PayBonus, Lose;
    match step
    case CalcSelect(reqs) => CalculationFitsPool(c, s, reqs, p);
    case CalcExec(applied) => WriteMovesBonus(c, s, applied, p);
    case CalcCrash => assert Sum(BonusesIn([], p)) == 0;
    case DispExec(applied) => RewardAddsNothing(c, s, applied, p);
    case _ =>
  }

  lemma StepFitsPools(c: Config, s: Sys, step: Step, p: Pool)
    requires Inv(c, s) && Enabled(c, s, step)
    ensures HandedOutSoFar(Apply(c, s, step), p) <= HandedOutSoFar(s, p) + (if Calculates(step) then PoolSize(c, p) else 0)
  {
    hide Inv, HandedOutSoFar, Apply, Enabled, Calculates;
    if IsBonusStep(step) {
      BonusStepFits(c, s, step, p);
    } else {
      StepInv(c, s, step);
      OtherStepAdds(c, s, step, p);
    }
  }

  function Calculations(steps: seq<Step>): nat
    decreases |steps|
  {
    if steps == [] then 0 else (if Calculates(steps[0]) then 1 else 0) + Calculations(steps[1..])
  }

  lemma {:induction false} RunFitsPools(c: Config, s: Sys, steps: seq<Step>, p: Pool)
    requires Inv(c, s) && IsRun(c, s, steps)
    ensures HandedOutSoFar(Play(c, s, steps), p) <= HandedOutSoFar(s, p) + Calculations(steps) * PoolSize(c, p)
    decreases |steps|
  {
    hide Inv, Apply, Enabled, HandedOutSoFar, Calculates;
    if steps != [] {
      StepFitsPools(c, s, steps[0], p);
      StepInv(c, s, steps[0]);
      RunFitsPools(c, Apply(c, s, steps[0]), steps[1..], p);
      Distribute(PoolSize(c, p), if Calculates(steps[0]) then 1 else 0, Calculations(steps[1..]));
    }
  }

  /**
    Over every run, the bonuses of each kind that all rows hold together are at most the pool times the number of
    calculations: after a partial failure the rest of the rows shares a fresh pool, and no more than that.
   */
  lemma BonusesFitPools(c: Config, s: Sys, steps: seq<Step>, p: Pool)
    requires IsStart(c, s) && IsRun(c, s, steps)
    ensures HandedOut(Play(c, s, steps).table, p) <= Calculations(steps) * PoolSize(c, p)
  {
    hide IsRun, Play, Inv;
    var token, height :| s == Start(token, height) && token.self == c.token;
    ReachableInv(c, s, []) by { NoSteps(c, s); }
    NoSteps(c, s);
    RunFitsPools(c, s, steps, p);
    assert BonusByKey(s.table, p) == map[] && BonusesIn(s.calcIssued, p) == [];
  }

  lemma NoSteps(c: Config, s: Sys)
    ensures IsRun(c, s, []) && Play(c, s, []) == s
  {
  }
}
