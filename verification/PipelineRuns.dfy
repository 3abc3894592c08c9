/** What one run of the scheduler can pay, from its SELECT on, whatever throws, fails or is lost on the way. */
module PipelineRuns {
  import opened Wrappers
  import opened Sums
  import opened Requests
  import opened Amounts
  import opened Receipts
  import opened Greedy
  import opened Pipeline
  import opened PipelineInvariant
  import opened PipelineSteps
  import opened PipelineFrame
  import opened PipelineSafety
  import opened PipelineLedger
  import E = Erc20

  // ---- The two batches of a run ----

  /** Rows that were confirmed when the run selected them: its first batch is chosen among these. */
  function FirstGroup(reqs: seq<Req>): set<Key> {
    ReqKeys(WithStatus(reqs, TxnConfirmed))
  }

  /** The scheduler is in the run that selected reqs, or that run is over. */
  predicate SameRun(sched: Scheduler, reqs: seq<Req>) {
    match sched
    case Ready(rs) => rs == reqs
    case AtFirstBatch(rs, _) => rs == reqs
    case FirstSettling(rs, _) => rs == reqs
    case AtFetch(rs, _) => rs == reqs
    case Judged(confirmed, _) => ReqKeys(confirmed) !! FirstGroup(reqs)
    case _ => true
  }

  predicate NoSelect(steps: seq<Step>) {
    forall i :: 0 <= i < |steps| ==> !steps[i].SchedSelect?
  }

  /** Groups of different status share no row: all come from one SELECT. */
  lemma GroupsApart(reqs: seq<Req>, st: Status, st': Status)
    requires DistinctReqs(reqs) && st != st'
    ensures ReqKeys(WithStatus(reqs, st)) !! ReqKeys(WithStatus(reqs, st'))
  {
    hide WithStatus;
    var a, b := WithStatus(reqs, st), WithStatus(reqs, st');
    WithStatusOk(reqs, st);
    WithStatusOk(reqs, st');
    forall i, j | 0 <= i < |a| && 0 <= j < |b| ensures a[i].key != b[j].key {
      assert a[i] in reqs && b[j] in reqs;
    }
  }

  /** What judging finds confirmed was not confirmed before. */
  lemma JudgedApart(c: Config, s: Sys, answers: seq<Option<Receipt>>)
    requires Inv(c, s) && CanJudge(s, answers)
    ensures ReqKeys(Judge(c, s.sched.reqs, FetchAll(c, answers), s.eth.height).confirmed) !! FirstGroup(s.sched.reqs)
  {
    hide Judge, WithStatus, QueueOk, BookOk, ResetOk, DisbursalOk, RowsOk, AgreesUnconfirmed, FetchAll;
    var reqs := s.sched.reqs;
    var j := Judge(c, reqs, FetchAll(c, answers), s.eth.height);
    JudgeOk(c, s.eth, s.table, reqs, answers);
    GroupsApart(reqs, SigValid, TxnConfirmed);
    GroupsApart(reqs, TxnParsed, TxnConfirmed);
    assert forall i :: 0 <= i < |j.confirmed| ==>
      j.confirmed[i].key in ReqKeys(WithStatus(reqs, SigValid)) + ReqKeys(WithStatus(reqs, TxnParsed));
  }

  lemma StepSameRun(c: Config, s: Sys, step: Step, reqs: seq<Req>)
    requires Inv(c, s) && Enabled(c, s, step) && !step.SchedSelect? && SameRun(s.sched, reqs)
    ensures SameRun(Apply(c, s, step).sched, reqs)
  {
    hide Inv, Judge, InitialBatch, FirstBatch, HonestAnswers, FetchAll, PayInitial, Lose, FirstGroup, ReqKeys;
    if !IsSchedulerStep(step) {
      OtherFrame(c, s, step);
    } else if step.SchedJudge? {
      JudgedApart(c, s, step.answers);
    }
  }

  lemma {:induction false} RunSame(c: Config, s: Sys, steps: seq<Step>, reqs: seq<Req>)
    requires Inv(c, s) && IsRun(c, s, steps) && NoSelect(steps) && SameRun(s.sched, reqs)
    ensures SameRun(Play(c, s, steps).sched, reqs)
    decreases |steps|
  {
    hide Inv, Apply, Enabled, SameRun;
    if steps != [] {
      StepSameRun(c, s, steps[0], reqs);
      StepInv(c, s, steps[0]);
      assert forall i :: 0 <= i < |steps[1..]| ==> steps[1..][i] == steps[i + 1];
      RunSame(c, Apply(c, s, steps[0]), steps[1..], reqs);
    }
  }

  /**
    Within one run, the batch that was already confirmed and the rows found confirmed later never share a row, whether
    or not the first batch was paid and whatever became of its writes.
   */
  lemma BatchesApart(c: Config, s: Sys, steps: seq<Step>)
    requires Inv(c, s) && s.sched.Ready? && IsRun(c, s, steps) && NoSelect(steps)
    ensures var e := Play(c, s, steps);
            e.sched.Judged? ==> ReqKeys(e.sched.confirmed) !! ReqKeys(WithStatus(s.sched.reqs, TxnConfirmed))
  {
    hide Inv, Play, IsRun;
    RunSame(c, s, steps, s.sched.reqs);
  }

  // ---- Payments of one row ----

  /** Nobody in a batch gets more than the balance: a request that alone exceeds it is never selected. */
  lemma BatchWithin(reqs: seq<Req>, allowed: nat, balance: nat, i: nat)
    requires i < |InitialBatch(reqs, allowed, balance)|
    ensures InitialBatch(reqs, allowed, balance)[i].amount <= balance
  {
    var batch := InitialBatch(reqs, allowed, balance);
    CostPrefix(batch, i);
    CostPrefixMonotone(batch, i + 1, |batch|);
    assert batch[..|batch|] == batch;
  }

  /** The rows the next payment is chosen among. */
  function PayGroup(s: Sys): seq<Req> {
    match s.sched
    case AtFirstBatch(reqs, _) => WithStatus(reqs, TxnConfirmed)
    case Judged(confirmed, _) => confirmed
    case _ => []
  }

  lemma PayGroupOk(c: Config, s: Sys, step: Step)
    requires Inv(c, s) && Enabled(c, s, step) && (step.SchedPayFirst? || step.SchedPaySecond?)
    ensures DistinctReqs(PayGroup(s)) && AgreesConfirmed(PayGroup(s), s.table)
    ensures BudgetOf(s.sched).Some?
    ensures PaidBy(s, step) == InitialBatch(PayGroup(s), BudgetOf(s.sched).value.allowed, BudgetOf(s.sched).value.balance)
    ensures BookAfter(c, s, step) == PayInitial(s.book, PaidBy(s, step))
  {
    hide QueueOk, BookOk, ResetOk, DisbursalOk, RowsOk, InitialBatch, WithStatus, PayInitial;
    if step.SchedPayFirst? {
      FirstGroupAgrees(s.table, s.sched.reqs);
    } else {
      assert Drain(s.issued, s.table) == s.table;
    }
  }

  /** One payment step pays a row nothing, or once: then the row is of the group paid, and gets at most the balance. */
  lemma PaymentAcct(c: Config, s: Sys, step: Step, k: Key)
    requires Inv(c, s) && Enabled(c, s, step) && (step.SchedPayFirst? || step.SchedPaySecond?)
    ensures var a, a' := Acct(s.book, k).initial, Acct(BookAfter(c, s, step), k).initial;
            || a' == a
            || (&& k in ReqKeys(PayGroup(s)) && BudgetOf(s.sched).Some?
                && exists x :: a' == a + [x] && x <= BudgetOf(s.sched).value.balance)
  {
    hide Inv, Enabled, InitialBatch, PayInitial, BookAfter, PaidBy, PayGroup, AgreesConfirmed;
    PayGroupOk(c, s, step);
    var group, b := PayGroup(s), BudgetOf(s.sched).value;
    var batch := InitialBatch(group, b.allowed, b.balance);
    InitialBatchFits(s.table, group, b.allowed, b.balance);
    PayInitialAcct(s.book, batch, k);
    if i :| 0 <= i < |batch| && batch[i].item.key == k {
      BatchWithin(group, b.allowed, b.balance, i);
      InGroup(group, batch[i].item);
    }
  }

  lemma InGroup(group: seq<Req>, r: Req)
    requires r in group
    ensures r.key in ReqKeys(group)
  {
  }

  lemma {:induction false} BonusKeepsInitial(book: Book, batch: seq<Weighted<Req>>, k: Key)
    ensures Acct(PayBonus(book, batch), k).initial == Acct(book, k).initial
    decreases |batch|
  {
    if batch != [] {
      BonusKeepsInitial(book, batch[..|batch| - 1], k);
    }
  }

  lemma {:induction false} LossKeepsInitial(book: Book, q: seq<Stmt>, k: Key)
    ensures Acct(Lose(book, q), k).initial == Acct(book, k).initial
    decreases |q|
  {
    if q != [] {
      LossKeepsInitial(LoseOne(book, q[0]), q[1..], k);
    }
  }

  /** No other step makes an initial payment. */
  lemma OthersPayNothing(c: Config, s: Sys, step: Step, k: Key)
    requires Enabled(c, s, step) && !step.SchedPayFirst? && !step.SchedPaySecond?
    ensures Acct(BookAfter(c, s, step), k).initial == Acct(s.book, k).initial
  {
    hide BonusBatch, PayBonus, Lose;
    match step
    case SchedCrash => LossKeepsInitial(s.book, SchedQueue(s), k);
    case DispPay(allowed, balance) => BonusKeepsInitial(s.book, BonusBatch(s.disp.value, allowed, balance), k);
    case DispCrash => LossKeepsInitial(s.book, s.dispIssued, k);
    case _ =>
  }

  // ---- Once per run ----

  /** At most one payment of at most `limit` was added. */
  predicate OneMore(a: seq<nat>, a': seq<nat>, limit: nat) {
    a' == a || (|a'| == |a| + 1 && a'[..|a|] == a && a'[|a|] <= limit)
  }

  predicate LimitKept(sched: Scheduler, limit: nat) {
    BudgetOf(sched).Some? ==> BudgetOf(sched).value.balance <= limit
  }

  /** Between the SELECT and the second batch only rows of the first group can have been paid. */
  predicate PaidInRun(a: seq<nat>, s: Sys, k: Key, reqs: seq<Req>, limit: nat) {
    var a' := Acct(s.book, k).initial;
    && OneMore(a, a', limit)
    && (s.sched.Ready? || s.sched.AtFirstBatch? ==> a' == a)
    && ((s.sched.FirstSettling? || s.sched.AtFetch? || s.sched.Judged?) && k !in FirstGroup(reqs) ==> a' == a)
  }

  lemma StepLimit(c: Config, s: Sys, step: Step, limit: nat)
    requires Enabled(c, s, step) && LimitKept(s.sched, limit) && (step.SchedDetails? ==> step.balance <= limit)
    ensures LimitKept(Apply(c, s, step).sched, limit)
  {
    hide Judge, InitialBatch, FirstBatch, HonestAnswers, FetchAll, PayInitial, Lose, IsSelect;
    if !IsSchedulerStep(step) {
      OtherFrame(c, s, step);
    }
  }

  /** Which point of a run a step leads to, as far as payments depend on it. */
  lemma StepOrder(c: Config, s: Sys, step: Step)
    requires Enabled(c, s, step) && !step.SchedSelect? && !step.SchedPayFirst? && !step.SchedPaySecond?
    ensures var before, after := s.sched, Apply(c, s, step).sched;
            && (after.Ready? || after.AtFirstBatch? ==> before.Ready? || before.AtFirstBatch?)
            && (after.FirstSettling? || after.AtFetch? || after.Judged? ==>
                  before.AtFirstBatch? || before.FirstSettling? || before.AtFetch? || before.Judged?)
  {
    hide Judge, HonestAnswers, FetchAll, Lose;
    if !IsSchedulerStep(step) {
      OtherFrame(c, s, step);
    }
  }

  lemma PaymentOrder(c: Config, s: Sys, step: Step)
    requires Enabled(c, s, step) && (step.SchedPayFirst? || step.SchedPaySecond?)
    ensures Apply(c, s, step).sched.FirstSettling? <==> step.SchedPayFirst?
    ensures Apply(c, s, step).sched.SecondSettling? <==> step.SchedPaySecond?
    ensures if step.SchedPayFirst? then s.sched.AtFirstBatch? else s.sched.Judged?
  {
    hide InitialBatch, FirstBatch, PayInitial;
  }

  lemma StepPaidInRun(c: Config, a: seq<nat>, s: Sys, step: Step, k: Key, reqs: seq<Req>, limit: nat)
    requires Inv(c, s) && Enabled(c, s, step) && !step.SchedSelect?
    requires SameRun(s.sched, reqs) && LimitKept(s.sched, limit) && PaidInRun(a, s, k, reqs, limit)
    ensures PaidInRun(a, Apply(c, s, step), k, reqs, limit)
  {
    hide Inv, Enabled, Apply, BookAfter, ReqKeys, WithStatus;
    BookStep(c, s, step);
    if step.SchedPayFirst? || step.SchedPaySecond? {
      PaymentOrder(c, s, step);
      PaymentAcct(c, s, step, k);
    } else {
      StepOrder(c, s, step);
      OthersPayNothing(c, s, step, k);
    }
  }

  lemma BookStep(c: Config, s: Sys, step: Step)
    requires Enabled(c, s, step)
    ensures Apply(c, s, step).book == BookAfter(c, s, step)
  {
    hide Enabled, Apply, BookAfter;
    if step.SchedPayFirst? || step.SchedPaySecond? {
      ApplyPaymentBook(c, s, step);
    } else if IsSchedulerStep(step) {
      ApplySchedulerBook(c, s, step);
    } else {
      ApplyOtherBook(c, s, step);
    }
  }

  lemma {:induction false} RunPaid(c: Config, a: seq<nat>, s: Sys, steps: seq<Step>, k: Key, reqs: seq<Req>, allowed: nat, balance: nat)
    requires Inv(c, s) && IsRun(c, s, steps) && OneRun(steps, allowed, balance)
    requires SameRun(s.sched, reqs) && LimitKept(s.sched, balance) && PaidInRun(a, s, k, reqs, balance)
    ensures PaidInRun(a, Play(c, s, steps), k, reqs, balance)
    decreases |steps|
  {
    hide Inv, Apply, Enabled, SameRun, LimitKept, PaidInRun;
    if steps != [] {
      StepPaidInRun(c, a, s, steps[0], k, reqs, balance);
      StepSameRun(c, s, steps[0], reqs);
      StepLimit(c, s, steps[0], balance);
      StepInv(c, s, steps[0]);
      assert forall i :: 0 <= i < |steps[1..]| ==> steps[1..][i] == steps[i + 1];
      RunPaid(c, a, Apply(c, s, steps[0]), steps[1..], k, reqs, allowed, balance);
    }
  }

  /**
    However a run of the scheduler goes on after its SELECT, whatever throws in it and whichever of its writes are
    lost: it pays each row at most once, and never more than the balance it read.
   */
  lemma OncePerRun(c: Config, s: Sys, steps: seq<Step>, k: Key, allowed: nat, balance: nat)
    requires Inv(c, s) && s.sched.Ready? && IsRun(c, s, steps) && OneRun(steps, allowed, balance)
    ensures OneMore(Acct(s.book, k).initial, Acct(Play(c, s, steps).book, k).initial, balance)
  {
    hide Inv, Play, IsRun;
    RunPaid(c, Acct(s.book, k).initial, s, steps, k, s.sched.reqs, allowed, balance);
  }

  // ---- Amounts over all runs ----

  /** No run read a balance above the limit. */
  predicate BalancesWithin(steps: seq<Step>, limit: nat) {
    forall i :: 0 <= i < |steps| ==> steps[i].SchedDetails? ==> steps[i].balance <= limit
  }

  predicate AmountsWithin(s: Sys, k: Key, limit: nat) {
    forall i :: 0 <= i < |Acct(s.book, k).initial| ==> Acct(s.book, k).initial[i] <= limit
  }

  lemma StepAmounts(c: Config, s: Sys, step: Step, k: Key, limit: nat)
    requires Inv(c, s) && Enabled(c, s, step) && LimitKept(s.sched, limit) && AmountsWithin(s, k, limit)
    ensures AmountsWithin(Apply(c, s, step), k, limit)
  {
    hide Inv, Enabled, Apply, BookAfter;
    BookStep(c, s, step);
    if step.SchedPayFirst? || step.SchedPaySecond? {
      PaymentAcct(c, s, step, k);
    } else {
      OthersPayNothing(c, s, step, k);
    }
  }

  lemma {:induction false} RunAmounts(c: Config, s: Sys, steps: seq<Step>, k: Key, limit: nat)
    requires Inv(c, s) && IsRun(c, s, steps) && BalancesWithin(steps, limit)
    requires LimitKept(s.sched, limit) && AmountsWithin(s, k, limit)
    ensures AmountsWithin(Play(c, s, steps), k, limit)
    decreases |steps|
  {
    hide Inv, Apply, Enabled, LimitKept, AmountsWithin;
    if steps != [] {
      StepAmounts(c, s, steps[0], k, limit);
      StepLimit(c, s, steps[0], limit);
      StepInv(c, s, steps[0]);
      assert forall i :: 0 <= i < |steps[1..]| ==> steps[1..][i] == steps[i + 1];
      RunAmounts(c, Apply(c, s, steps[0]), steps[1..], k, limit);
    }
  }

  /**
    Over every run of the system, whatever a row was accepted for: every amount paid for it, and the amount its column
    records, is at most the largest balance any run of the scheduler read. So amounts fit the 22-character column
    whenever the migrator's balance stays below 10^22.
   */
  lemma AmountsFitColumn(c: Config, s: Sys, steps: seq<Step>, k: Key, limit: nat)
    requires IsStart(c, s) && IsRun(c, s, steps) && BalancesWithin(steps, limit)
    ensures var e := Play(c, s, steps);
            && (forall i :: 0 <= i < |Acct(e.book, k).initial| ==> Acct(e.book, k).initial[i] <= limit)
            && (k in e.table && e.table[k].migrationTokens.Some? ==> e.table[k].migrationTokens.value <= limit)
    ensures limit < 10_000_000_000_000_000_000_000
            && k in Play(c, s, steps).table && Play(c, s, steps).table[k].migrationTokens.Some? ==>
              Play(c, s, steps).table[k].migrationTokens.value < 10_000_000_000_000_000_000_000
  {
    hide IsRun, Play, Inv;
    StartReady(c, s, k, limit);
    RunAmounts(c, s, steps, k, limit);
    ReachableInv(c, s, steps);
    if k in Play(c, s, steps).table && Play(c, s, steps).table[k].migrationTokens.Some? {
      RecordedIsPaid(c, Play(c, s, steps), k);
    }
  }

  lemma StartReady(c: Config, s: Sys, k: Key, limit: nat)
    requires IsStart(c, s)
    ensures Inv(c, s) && LimitKept(s.sched, limit) && AmountsWithin(s, k, limit)
  {
    var token, height :| s == Start(token, height) && E.SupplyOk(token) && token.self == c.token;
    StartInv(c, token, height);
  }

  lemma RecordedIsPaid(c: Config, s: Sys, k: Key)
    requires Inv(c, s) && k in s.table && s.table[k].migrationTokens.Some?
    ensures Acct(s.book, k).initial != [] && s.table[k].migrationTokens.value == Acct(s.book, k).initial[0]
  {
    hide QueueOk, ControlOk, ResetOk, DisbursalOk;
    assert RowOk(c, s.eth, k, s.table[k]);
    assert AcctOk(s.table[k], Acct(s.book, k), k in PayingKeys(SchedQueue(s)), k in Keys(s.dispIssued));
  }
}
