/** The scheduler makes progress: every write of it that takes effect uses up a finite rank. */
module PipelineProgress {
  import opened Wrappers
  import opened Sums
  import opened Requests
  import opened Pipeline
  import opened PipelineInvariant
  import opened PipelineSteps
  import opened PipelineSafety
  import opened Receipts

  /** Writes of the scheduler a row in this status can still see. */
  function Rank(st: Status): nat {
    match st
    case SigValid => 3
    case TxnParsed => 2
    case TxnConfirmed => 1
    case _ => 0
  }

  function Ranks(t: Table): map<Key, nat> {
    map k | k in t :: Rank(t[k].status)
  }

  ghost function RankSum(t: Table): nat {
    MapSum(Ranks(t))
  }

  lemma RankBound(t: Table)
    ensures RankSum(t) <= 3 * |t|
  {
    assert |Ranks(t)| == |t| by {
      assert |Ranks(t)| == |Ranks(t).Keys| && |t| == |t.Keys| && Ranks(t).Keys == t.Keys;
    }
    MapSumBound(Ranks(t), 3);
  }

  /** A legal move by the scheduler lowers the rank of its row. */
  lemma RankDrops(c: Config, eth: Eth, t: Table, st: Stmt)
    requires StmtReady(c, eth, t, st) && Writer(st) == TheScheduler
    ensures RankSum(Exec(st, t)) < RankSum(t)
  {
    var r := Rank(Exec(st, t)[st.key].status);
    MapSumUpdate(Ranks(t), st.key, r);
    assert Ranks(Exec(st, t)) == Ranks(t)[st.key := r];
  }

  /** Moves of the bonus script are above the ranked statuses. */
  lemma RankKept(c: Config, eth: Eth, t: Table, st: Stmt)
    requires StmtReady(c, eth, t, st) && Writer(st) in {TheCalculation, TheDisbursal}
    ensures RankSum(Exec(st, t)) == RankSum(t)
  {
    assert Ranks(Exec(st, t)) == Ranks(t);
  }

  /** Steps that can put a row back before the scheduler. */
  predicate AddsWork(step: Step) {
    step.Track? || step.ResetCommit?
  }

  function WriteCount(step: Step): nat {
    if step.SchedExec? && step.applied then 1 else 0
  }

  function SchedulerWrites(steps: seq<Step>): nat
    decreases |steps|
  {
    if steps == [] then 0 else WriteCount(steps[0]) + SchedulerWrites(steps[1..])
  }

  lemma TableRank(c: Config, s: Sys, step: Step)
    requires Inv(c, s) && Enabled(c, s, step) && !AddsWork(step)
    ensures RankSum(TableAfter(c, s, step)) + WriteCount(step) <= RankSum(s.table)
  {
    match MoverOf(step)
    case TheScheduler =>
      assert StmtReady(c, s.eth, s.table, SchedQueue(s)[0]) && Writer(SchedQueue(s)[0]) == TheScheduler;
      RankDrops(c, s.eth, s.table, SchedQueue(s)[0]);
    case TheCalculation =>
      assert StmtReady(c, s.eth, s.table, s.calcIssued[0]) && Writer(s.calcIssued[0]) == TheCalculation;
      RankKept(c, s.eth, s.table, s.calcIssued[0]);
    case TheDisbursal =>
      assert StmtReady(c, s.eth, s.table, s.dispIssued[0]) && Writer(s.dispIssued[0]) == TheDisbursal;
      RankKept(c, s.eth, s.table, s.dispIssued[0]);
    case _ =>
  }

  lemma StepRank(c: Config, s: Sys, step: Step)
    requires Inv(c, s) && Enabled(c, s, step) && !AddsWork(step)
    ensures RankSum(Apply(c, s, step).table) + WriteCount(step) <= RankSum(s.table)
  {
    hide Inv, Apply, Enabled, TableAfter;
    if IsSchedulerStep(step) {
      ApplySchedulerTable(c, s, step);
    } else {
      ApplyOtherTable(c, s, step);
    }
    TableRank(c, s, step);
  }

  /** Between two additions of work, the scheduler's writes are paid for by the drop in rank. */
  lemma {:induction false} WritesUseRank(c: Config, s: Sys, steps: seq<Step>)
    requires Inv(c, s) && IsRun(c, s, steps)
    requires forall i :: 0 <= i < |steps| ==> !AddsWork(steps[i])
    ensures SchedulerWrites(steps) + RankSum(Play(c, s, steps).table) <= RankSum(s.table)
    decreases |steps|
  {
    hide Inv, Apply, Enabled;
    if steps != [] {
      StepRank(c, s, steps[0]);
      StepInv(c, s, steps[0]);
      assert forall i :: 0 <= i < |steps[1..]| ==> steps[1..][i] == steps[i + 1];
      WritesUseRank(c, Apply(c, s, steps[0]), steps[1..]);
    }
  }

  /** So there are at most three of them for each row of the table. */
  lemma AtMostThreeWritesPerRow(c: Config, s: Sys, steps: seq<Step>)
    requires Inv(c, s) && IsRun(c, s, steps)
    requires forall i :: 0 <= i < |steps| ==> !AddsWork(steps[i])
    ensures SchedulerWrites(steps) <= 3 * |s.table|
  {
    hide Play, IsRun;
    WritesUseRank(c, s, steps);
    RankBound(s.table);
  }
}
