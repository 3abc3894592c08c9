/** Whole-run balance of the bonus disbursal: what is still owed and what was paid add up to a constant. */
module BonusPayout {
  import opened Wrappers
  import opened Sums
  import opened Requests
  import opened Amounts
  import opened Receipts
  import opened Greedy
  import opened BonusMath
  import opened Pipeline
  import opened PipelineInvariant
  import opened PipelineSteps
  import opened PipelineFrame
  import opened PipelineSafety
  import opened PipelineLedger

  /** Bonuses calculated but not paid: rows whose write is pending (`settling`) have been paid already. */
  function Owed(t: Table, settling: set<Key>): map<Key, nat> {
    map k | k in t && t[k].status == BonusCalculated && k !in settling :: BonusDue(t[k])
  }

  ghost function Outstanding(t: Table, settling: set<Key>): nat {
    MapSum(Owed(t, settling))
  }

  function BonusTokensByKey(book: Book): map<Key, nat> {
    map k | k in book :: Sum(book[k].bonus)
  }

  ghost function BonusTokensPaid(book: Book): nat {
    MapSum(BonusTokensByKey(book))
  }

  lemma BonusWritten(book: Book, k: Key, a: Account)
    ensures BonusTokensPaid(book[k := a]) + Sum(Acct(book, k).bonus) == BonusTokensPaid(book) + Sum(a.bonus)
  {
    MapSumUpdate(BonusTokensByKey(book), k, Sum(a.bonus));
    assert BonusTokensByKey(book[k := a]) == BonusTokensByKey(book)[k := Sum(a.bonus)];
  }

  lemma {:induction false} InitialKeepsBonuses(book: Book, batch: seq<Weighted<Req>>)
    ensures BonusTokensPaid(PayInitial(book, batch)) == BonusTokensPaid(book)
    decreases |batch|
  {
    if batch != [] {
      var n := |batch| - 1;
      var b := PayInitial(book, batch[..n]);
      var a := Acct(b, batch[n].item.key);
      InitialKeepsBonuses(book, batch[..n]);
      BonusWritten(b, batch[n].item.key, PaidInitial(a, batch[n]));
    }
  }

  lemma {:induction false} BonusesPaid(book: Book, batch: seq<Weighted<Req>>)
    ensures BonusTokensPaid(PayBonus(book, batch)) == BonusTokensPaid(book) + Cost(batch)
    decreases |batch|
  {
    if batch != [] {
      var n := |batch| - 1;
      var b := PayBonus(book, batch[..n]);
      BonusesPaid(book, batch[..n]);
      OneMoreBonus(b, batch[n]);
      CostLast(batch);
    }
  }

  lemma OneMoreBonus(book: Book, x: Weighted<Req>)
    ensures BonusTokensPaid(book[x.item.key := PaidBonus(Acct(book, x.item.key), x)]) == BonusTokensPaid(book) + x.amount
  {
    var a := Acct(book, x.item.key);
    SumAppend(a.bonus, [x.amount]);
    SumSingleton(x.amount);
    BonusWritten(book, x.item.key, PaidBonus(a, x));
  }

  lemma LossKeepsBonuses(book: Book, st: Stmt)
    ensures BonusTokensPaid(LoseOne(book, st)) == BonusTokensPaid(book)
  {
    BonusWritten(book, st.key, Loss(Acct(book, st.key), st));
  }

  lemma {:induction false} LossesKeepBonuses(book: Book, q: seq<Stmt>)
    ensures BonusTokensPaid(Lose(book, q)) == BonusTokensPaid(book)
    decreases |q|
  {
    if q != [] {
      LossKeepsBonuses(book, q[0]);
      LossesKeepBonuses(LoseOne(book, q[0]), q[1..]);
    }
  }

  lemma OwedLess(t: Table, settling: set<Key>, k: Key)
    requires k in t && t[k].status == BonusCalculated && k !in settling
    ensures Outstanding(t, settling + {k}) + BonusDue(t[k]) == Outstanding(t, settling)
  {
    MapSumRemove(Owed(t, settling), k);
    assert Owed(t, settling + {k}) == Owed(t, settling) - {k};
  }

  function ItemKeys(batch: seq<Weighted<Req>>): set<Key> {
    set i | 0 <= i < |batch| :: batch[i].item.key
  }

  /** Paying a batch takes exactly its cost off what is owed. */
  lemma {:induction false} BatchSettles(t: Table, batch: seq<Weighted<Req>>, n: nat)
    requires BonusBatchOk(t, batch) && n <= |batch|
    ensures Outstanding(t, ItemKeys(batch[..n])) + Cost(batch[..n]) == Outstanding(t, {})
    decreases n
  {
    if n == 0 {
      assert ItemKeys(batch[..0]) == {};
    } else {
      BatchSettles(t, batch, n - 1);
      CostPrefix(batch, n - 1);
      ItemKeysStep(batch, n - 1);
      OwedLess(t, ItemKeys(batch[..n - 1]), batch[n - 1].item.key);
    }
  }

  lemma ItemKeysStep(batch: seq<Weighted<Req>>, n: nat)
    requires DistinctItems(batch) && n < |batch|
    ensures ItemKeys(batch[..n + 1]) == ItemKeys(batch[..n]) + {batch[n].item.key}
    ensures batch[n].item.key !in ItemKeys(batch[..n])
  {
    forall k | k in ItemKeys(batch[..n + 1]) ensures k in ItemKeys(batch[..n]) + {batch[n].item.key} {
      var i :| 0 <= i < n + 1 && batch[..n + 1][i].item.key == k;
      if i < n { assert batch[..n][i].item.key == k; }
    }
    forall k | k in ItemKeys(batch[..n]) ensures k in ItemKeys(batch[..n + 1]) {
      var i :| 0 <= i < n && batch[..n][i].item.key == k;
      assert batch[..n + 1][i].item.key == k;
    }
    assert batch[..n + 1][n].item.key == batch[n].item.key;
  }

  lemma PaySettles(t: Table, batch: seq<Weighted<Req>>)
    requires BonusBatchOk(t, batch)
    ensures Outstanding(t, Keys(AfterBonusStmts(batch))) + Cost(batch) == Outstanding(t, {})
  {
    BatchSettles(t, batch, |batch|);
    assert batch[..|batch|] == batch;
    assert ItemKeys(batch) == Keys(AfterBonusStmts(batch)) by {
      forall k ensures k in ItemKeys(batch) <==> k in Keys(AfterBonusStmts(batch)) {
        BatchKeys(batch, k);
      }
    }
  }

  /** When the write of a paid row takes effect, nothing owed changes. */
  lemma WriteSettles(c: Config, eth: Eth, t: Table, q: seq<Stmt>)
    requires QueueOk(c, eth, t, q, TheDisbursal) && q != []
    ensures Outstanding(Exec(q[0], t), Keys(q[1..])) == Outstanding(t, Keys(q))
  {
    assert StmtReady(c, eth, t, q[0]) && Writer(q[0]) == TheDisbursal;
    PopKeys(q);
    assert Owed(Exec(q[0], t), Keys(q[1..])) == Owed(t, Keys(q));
  }

  /** Rows the scheduler, the reset or the API move are neither owed a bonus before nor after. */
  lemma OthersOweNothing(t: Table, t': Table, mover: Actor, settling: set<Key>)
    requires RowStepsOk(t, t', mover) && mover in {TheScheduler, TheReset, Nobody}
    requires forall k :: k in t' && k !in t ==> t'[k].status != BonusCalculated
    ensures Outstanding(t', settling) == Outstanding(t, settling)
  {
    forall k | k in t ensures t'[k].status == BonusCalculated <==> t[k].status == BonusCalculated
      ensures t[k].status == BonusCalculated ==> t'[k] == t[k]
    {
      assert RowStepOk(t[k], t'[k], mover);
    }
    assert Owed(t', settling) == Owed(t, settling);
  }

  /** Steps that neither calculate new bonuses nor lose a bonus write. */
  predicate KeepsBalance(s: Sys, step: Step) {
    && !step.CalcExec?
    && (step.DispExec? ==> step.applied)
    && (step.DispCrash? ==> s.dispIssued == [])
  }

  ghost function OwedAndPaid(s: Sys): nat {
    Outstanding(s.table, Keys(s.dispIssued)) + BonusTokensPaid(s.book)
  }

  lemma DispPayBalance(c: Config, s: Sys, allowed: nat, balance: nat)
    requires Inv(c, s) && CanDispPay(s, allowed, balance)
    ensures OwedAndPaid(DoDispPay(s, allowed, balance)) == OwedAndPaid(s)
  {
    var batch := BonusBatch(s.disp.value, allowed, balance);
    BonusBatchFits(s.table, s.disp.value, allowed, balance);
    PaySettles(s.table, batch);
    BonusesPaid(s.book, batch);
    assert Keys(s.dispIssued) == {};
  }

  lemma OtherBalance(c: Config, s: Sys, step: Step)
    requires Inv(c, s) && Enabled(c, s, step) && KeepsBalance(s, step) && !step.DispPay? && !step.DispExec?
    ensures Outstanding(TableAfter(c, s, step), Keys(s.dispIssued)) == Outstanding(s.table, Keys(s.dispIssued))
  {
    hide Inv, Enabled, TableAfter, Outstanding, RowStepsOk;
    MovesLegal(c, s, step);
    NewRows(c, s, step);
    OthersOweNothing(s.table, TableAfter(c, s, step), MoverOf(step), Keys(s.dispIssued));
  }

  /** Only the API adds rows, and they start at the beginning. */
  lemma NewRows(c: Config, s: Sys, step: Step)
    requires Enabled(c, s, step)
    ensures forall k :: k in TableAfter(c, s, step) && k !in s.table ==> TableAfter(c, s, step)[k].status.Code() < 1
  {
    if step.ResetCommit? {
      DrainKeys(ResetStmts(s.reset.value), s.table);
    }
  }

  lemma OtherBooks(c: Config, s: Sys, step: Step)
    requires Enabled(c, s, step) && KeepsBalance(s, step) && !step.DispPay?
    ensures BonusTokensPaid(BookAfter(c, s, step)) == BonusTokensPaid(s.book)
  {
    match step
    case SchedPayFirst => InitialKeepsBonuses(s.book, PaidBy(s, step));
    case SchedPaySecond => InitialKeepsBonuses(s.book, PaidBy(s, step));
    case SchedCrash => LossesKeepBonuses(s.book, SchedQueue(s));
    case SchedExec(_, _) => LossKeepsBonuses(s.book, SchedQueue(s)[0]);
    case _ =>
  }

  lemma OtherDispIssued(c: Config, s: Sys, step: Step)
    requires Enabled(c, s, step) && KeepsBalance(s, step) && !step.DispPay? && !step.DispExec?
    ensures Apply(c, s, step).dispIssued == s.dispIssued
  {
    if IsSchedulerStep(step) {
      hide Enabled, Apply;
      SchedulerFrame(c, s, step);
    } else if !IsBonusStep(step) {
      hide Enabled, Apply;
      OtherFrame(c, s, step);
    } else {
      hide IsSelect, BonusStmts, Divisible, IsDisbursalSelect, Lose;
    }
  }

  lemma AfterStep(c: Config, s: Sys, step: Step)
    requires Enabled(c, s, step)
    ensures Apply(c, s, step).table == TableAfter(c, s, step)
    ensures Apply(c, s, step).book == BookAfter(c, s, step)
  {
    hide Apply, Enabled, TableAfter, BookAfter;
    if step.SchedPayFirst? || step.SchedPaySecond? {
      ApplyPaymentBook(c, s, step);
      ApplySchedulerTable(c, s, step);
    } else if IsSchedulerStep(step) {
      ApplySchedulerBook(c, s, step);
      ApplySchedulerTable(c, s, step);
    } else {
      ApplyOtherBook(c, s, step);
      ApplyOtherTable(c, s, step);
    }
  }

  lemma DispExecBalance(c: Config, s: Sys)
    requires Inv(c, s) && s.dispIssued != []
    ensures OwedAndPaid(DoDispExec(s, true)) == OwedAndPaid(s)
  {
    WriteSettles(c, s.eth, s.table, s.dispIssued);
  }

  lemma OtherStepBalance(c: Config, s: Sys, step: Step)
    requires Inv(c, s) && Enabled(c, s, step) && KeepsBalance(s, step) && !step.DispPay? && !step.DispExec?
    ensures OwedAndPaid(Apply(c, s, step)) == OwedAndPaid(s)
  {
    hide Inv, Enabled, Apply, KeepsBalance, TableAfter, BookAfter;
    AfterStep(c, s, step);
    OtherBalance(c, s, step);
    OtherBooks(c, s, step);
    OtherDispIssued(c, s, step);
  }

  /** One step, whoever takes it. */
  lemma StepBalance(c: Config, s: Sys, step: Step)
    requires Inv(c, s) && Enabled(c, s, step) && KeepsBalance(s, step)
    ensures OwedAndPaid(Apply(c, s, step)) == OwedAndPaid(s)
  {
    hide Inv, OwedAndPaid;
    if step.DispPay? {
      DispPayBalance(c, s, step.allowed, step.balance);
    } else if step.DispExec? {
      DispExecBalance(c, s);
    } else {
      OtherStepBalance(c, s, step);
    }
  }

  /** Every step of a run keeps the balance. */
  predicate RunKeepsBalance(c: Config, s: Sys, steps: seq<Step>)
    requires IsRun(c, s, steps)
    decreases |steps|
  {
    steps == [] || (KeepsBalance(s, steps[0]) && RunKeepsBalance(c, Apply(c, s, steps[0]), steps[1..]))
  }

  /**
    For any choice of batches, under any interleaving without a new calculation or a lost write: paid plus
    owed is constant, so once nothing is owed the payout is exactly the sum of the bonuses due at the start.
   */
  lemma {:induction false} PayoutBalances(c: Config, s: Sys, steps: seq<Step>)
    requires Inv(c, s) && IsRun(c, s, steps) && RunKeepsBalance(c, s, steps)
    ensures OwedAndPaid(Play(c, s, steps)) == OwedAndPaid(s)
    decreases |steps|
  {
    hide Inv, Apply, Enabled, OwedAndPaid, KeepsBalance;
    if steps != [] {
      StepBalance(c, s, steps[0]);
      StepInv(c, s, steps[0]);
      PayoutBalances(c, Apply(c, s, steps[0]), steps[1..]);
    }
  }

  lemma NothingOwed(t: Table, settling: set<Key>)
    requires forall k :: k in t ==> t[k].status != BonusCalculated
    ensures Outstanding(t, settling) == 0
  {
    assert Owed(t, settling) == map[];
  }

  // ---- Calculation leaves nothing to calculate ----

  /**
    Once the writes of a calculation have taken effect no row awaits calculation any more, and each selected
    row holds its own bonuses; so a further run selects nothing, computes zeros and changes nothing.
   */
  lemma CalculationLeavesNone(c: Config, t: Table, reqs: seq<Req>)
    requires IsSelect(reqs, t, AwaitsCalculation) && Divisible(reqs)
    ensures var t' := Drain(BonusStmts(c, reqs), t);
            && (forall k :: k in t' ==> !AwaitsCalculation(t'[k]))
            && (forall i :: 0 <= i < |reqs| ==>
                  && reqs[i].key in t'
                  && t'[reqs[i].key].status == BonusCalculated
                  && t'[reqs[i].key].swapBonus == Some(SwapBonus(c, reqs, i))
                  && t'[reqs[i].key].vestingBonus == Some(VestingBonus(c, reqs, i)))
  {
    var q := BonusStmts(c, reqs);
    var t' := Drain(q, t);
    DrainKeys(q, t);
    forall i | 0 <= i < |reqs| ensures reqs[i].key in t' && t'[reqs[i].key] == Assign(q[i], t[reqs[i].key]) {
      DrainEach(q, t, i);
    }
    forall k | k in t' ensures !AwaitsCalculation(t'[k]) {
      if i :| 0 <= i < |reqs| && reqs[i].key == k {
        assert t'[k].status == BonusCalculated;
      } else {
        DrainUntouched(q, t, k);
      }
    }
  }

  lemma SelectedRowMatches(reqs: seq<Req>, t: Table, i: nat)
    requires AreRows(reqs, t, AwaitsCalculation) && i < |reqs|
    ensures exists k :: k in t && AwaitsCalculation(t[k])
  {
    assert AwaitsCalculation(t[reqs[i].key]);
  }

  lemma SecondCalculationIdle(c: Config, s: Sys, reqs: seq<Req>)
    requires forall k :: k in s.table ==> !AwaitsCalculation(s.table[k])
    requires CanCalcSelect(s, reqs)
    ensures reqs == [] && Divisible(reqs) && DoCalcSelect(c, s, reqs) == s
    ensures TotalTransferred(reqs) == 0 && TotalByVesting(reqs) == 0
  {
    if reqs != [] {
      SelectedRowMatches(reqs, s.table, 0);
    }
  }
}
