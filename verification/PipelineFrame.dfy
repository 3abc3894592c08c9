/** What a step leaves alone: each process changes its own part of the state only. */
module PipelineFrame {
  import opened Wrappers
  import opened Sums
  import opened Requests
  import opened Receipts
  import opened Greedy
  import opened BonusMath
  import opened Pipeline
  import opened PipelineInvariant
  import opened PipelineSteps
  import E = Erc20

  function TokenAfter(s: Sys, step: Step): E.Token {
    if step.Mine? then E.Mine(s.eth.token, step.tx).0 else s.eth.token
  }

  predicate IsResetStep(step: Step) {
    step.ResetSelect? || step.ResetCommit? || step.ResetRollback?
  }

  /** What the scheduler never touches. */
  predicate SchedulerKeeps(s: Sys, s': Sys) {
    && s'.eth == s.eth && s'.reset == s.reset
    && s'.disp == s.disp && s'.dispIssued == s.dispIssued && s'.calcIssued == s.calcIssued
    && s.log <= s'.log
  }

  lemma PaymentFrame(c: Config, s: Sys, step: Step)
    requires Enabled(c, s, step) && (step.SchedPayFirst? || step.SchedPaySecond? || step.SchedJudge?)
    ensures SchedulerKeeps(s, Apply(c, s, step))
  {
    hide Judge, InitialBatch, FirstBatch, HonestAnswers, FetchAll, PayInitial;
  }

  /** A step of the scheduler: the chain and the other scripts stay as they are, and the log only grows. */
  lemma SchedulerFrame(c: Config, s: Sys, step: Step)
    requires Enabled(c, s, step) && IsSchedulerStep(step)
    ensures SchedulerKeeps(s, Apply(c, s, step))
  {
    hide Judge, InitialBatch, FirstBatch, IsSelect, HonestAnswers, Lose, LoseOne, PayInitial, Exec;
    if step.SchedPayFirst? || step.SchedPaySecond? || step.SchedJudge? {
      PaymentFrame(c, s, step);
    }
  }

  /** What the other processes never touch of the scheduler. */
  predicate OthersKeep(s: Sys, s': Sys) {
    && s'.sched == s.sched && s'.backlog == s.backlog && s'.issued == s.issued && s'.failed == s.failed && s'.log == s.log
  }

  lemma BonusFrame(c: Config, s: Sys, step: Step)
    requires Enabled(c, s, step) && IsBonusStep(step)
    ensures OthersKeep(s, Apply(c, s, step)) && Apply(c, s, step).eth == s.eth && Apply(c, s, step).reset == s.reset
  {
    hide IsSelect, BonusStmts, Divisible, IsDisbursalSelect, BonusBatch, PayBonus, Lose, LoseOne, Exec;
  }

  /** A step of anybody else: the scheduler, its statements and its log stay as they are. */
  lemma OtherFrame(c: Config, s: Sys, step: Step)
    requires Enabled(c, s, step) && !IsSchedulerStep(step)
    ensures var s' := Apply(c, s, step);
            && OthersKeep(s, s')
            && EthGrows(s.eth, s'.eth) && s'.eth.token == TokenAfter(s, step)
            && (!IsResetStep(step) ==> s'.reset == s.reset)
            && (!IsBonusStep(step) ==> s'.disp == s.disp && s'.dispIssued == s.dispIssued && s'.calcIssued == s.calcIssued)
  {
    if IsBonusStep(step) {
      hide Enabled, Apply;
      BonusFrame(c, s, step);
    } else {
      hide IsInvalidSelect, Drain;
    }
  }
}
