/** What holds of every row, in every reachable state, under every interleaving. */
module PipelineSafety {
  import opened Wrappers
  import opened Sums
  import opened Requests
  import opened Amounts
  import opened Receipts
  import opened Greedy
  import opened BonusMath
  import opened Pipeline
  import opened PipelineInvariant
  import opened PipelineSteps
  import E = Erc20

  /** The system as first deployed, whoever deployed the token and whatever its history so far. */
  ghost predicate IsStart(c: Config, s: Sys) {
    exists token, height :: s == Start(token, height) && E.SupplyOk(token) && token.self == c.token
  }

  lemma ReachableInv(c: Config, s: Sys, steps: seq<Step>)
    requires IsStart(c, s) && IsRun(c, s, steps)
    ensures Inv(c, Play(c, s, steps))
  {
    hide Play, IsRun, Inv;
    var token, height :| s == Start(token, height) && E.SupplyOk(token) && token.self == c.token;
    StartInv(c, token, height);
    RunInv(c, s, steps);
  }

  // ---- Non-interference ----

  /** Whose UPDATE this step lets take effect. */
  function MoverOf(step: Step): Actor {
    match step
    case ResetCommit => TheReset
    case SchedExec(applied, _) => if applied then TheScheduler else Nobody
    case CalcExec(applied) => if applied then TheCalculation else Nobody
    case DispExec(applied) => if applied then TheDisbursal else Nobody
    case _ => Nobody
  }

  /** What a step may do to one row: nothing, or a legal move by the owner of its status. */
  predicate RowStepOk(r: Row, r': Row, mover: Actor) {
    && r'.mainnet == r.mainnet && r'.vesting == r.vesting
    && (r.status.Code() >= TxnParsed.Code() ==> r'.erc20 == r.erc20)
    && (r.status.Code() >= TxnConfirmed.Code() ==> r'.block == r.block)
    && (r.status.Code() >= InitialTransferDone.Code() ==> r'.migrationTokens == r.migrationTokens)
    && (r' == r || (Owner(r.status) == mover && LegalMove(r.status, r'.status)))
  }

  lemma ExecRows(c: Config, eth: Eth, t: Table, st: Stmt)
    requires StmtReady(c, eth, t, st)
    ensures Exec(st, t).Keys == t.Keys
    ensures forall k :: k in t ==> RowStepOk(t[k], Exec(st, t)[k], Writer(st))
  {
  }

  /** The table after a step. */
  function TableAfter(c: Config, s: Sys, step: Step): Table
    requires Enabled(c, s, step)
  {
    match step
    case Track(k, mainnet, vesting) => s.table[k := NewRow(mainnet, vesting, k.addr in c.blacklist)]
    case ResetCommit => Drain(ResetStmts(s.reset.value), s.table)
    case SchedExec(applied, _) => if applied then Exec(SchedQueue(s)[0], s.table) else s.table
    case CalcExec(applied) => if applied then Exec(s.calcIssued[0], s.table) else s.table
    case DispExec(applied) => if applied then Exec(s.dispIssued[0], s.table) else s.table
    case _ => s.table
  }

  lemma ApplySchedulerTable(c: Config, s: Sys, step: Step)
    requires Enabled(c, s, step) && IsSchedulerStep(step)
    ensures Apply(c, s, step).table == TableAfter(c, s, step)
  {
    hide Judge, InitialBatch, FirstBatch, IsSelect, HonestAnswers, FetchAll, Lose, PayInitial, LoseOne;
  }

  lemma ApplyOtherTable(c: Config, s: Sys, step: Step)
    requires Enabled(c, s, step) && !IsSchedulerStep(step)
    ensures Apply(c, s, step).table == TableAfter(c, s, step)
  {
    hide BonusStmts, Divisible, IsSelect, IsDisbursalSelect, IsInvalidSelect, BonusBatch, Lose, PayBonus;
  }

  /** Every row of the table, over one step. */
  predicate RowStepsOk(t: Table, t': Table, mover: Actor) {
    forall k :: k in t ==> k in t' && RowStepOk(t[k], t'[k], mover)
  }

  /** The head of a process's queue moves a row that process owns. */
  lemma HeadMove(c: Config, eth: Eth, t: Table, q: seq<Stmt>, a: Actor)
    requires QueueOk(c, eth, t, q, a) && q != []
    ensures RowStepsOk(t, Exec(q[0], t), a)
  {
    assert StmtReady(c, eth, t, q[0]) && Writer(q[0]) == a;
    ExecRows(c, eth, t, q[0]);
  }

  lemma ResetMove(c: Config, eth: Eth, t: Table, keys: seq<Key>)
    requires QueueOk(c, eth, t, ResetStmts(keys), TheReset)
    ensures RowStepsOk(t, Drain(ResetStmts(keys), t), TheReset)
  {
    ResetRows(c, eth, t, keys);
  }

  /** Steps that let no UPDATE take effect leave every existing row as it is. */
  lemma QuietStep(c: Config, s: Sys, step: Step)
    requires Enabled(c, s, step) && MoverOf(step) == Nobody
    ensures RowStepsOk(s.table, TableAfter(c, s, step), Nobody)
  {
  }

  lemma MovesLegal(c: Config, s: Sys, step: Step)
    requires Inv(c, s) && Enabled(c, s, step)
    ensures RowStepsOk(s.table, TableAfter(c, s, step), MoverOf(step))
  {
    match MoverOf(step)
    case TheReset => ResetMove(c, s.eth, s.table, s.reset.value);
    case TheScheduler => HeadMove(c, s.eth, s.table, SchedQueue(s), TheScheduler);
    case TheCalculation => HeadMove(c, s.eth, s.table, s.calcIssued, TheCalculation);
    case TheDisbursal => HeadMove(c, s.eth, s.table, s.dispIssued, TheDisbursal);
    case Nobody => QuietStep(c, s, step);
  }

  /** No UPDATE guards on the status it overwrites, and yet every one of them is a legal move of an owned row. */
  lemma NonInterference(c: Config, s: Sys, step: Step)
    requires Inv(c, s) && Enabled(c, s, step)
    ensures RowStepsOk(s.table, Apply(c, s, step).table, MoverOf(step))
  {
    hide Inv, Apply, RowStepsOk, Enabled, TableAfter;
    if IsSchedulerStep(step) {
      ApplySchedulerTable(c, s, step);
    } else {
      ApplyOtherTable(c, s, step);
    }
    MovesLegal(c, s, step);
  }

  /** r' is a later version of r. */
  predicate Later(r: Row, r': Row) {
    && r'.mainnet == r.mainnet && r'.vesting == r.vesting
    && (r.status.Code() >= TxnParsed.Code() ==> r'.status.Code() >= r.status.Code() && r'.erc20 == r.erc20)
    && (r.status.Code() >= TxnConfirmed.Code() ==> r'.block == r.block)
    && (r.status.Code() >= InitialTransferDone.Code() ==> r'.migrationTokens == r.migrationTokens)
    && (r.status == InvalidBlacklist ==> r' == r)
  }

  lemma MoveLater(r: Row, r': Row, mover: Actor)
    requires RowStepOk(r, r', mover)
    ensures Later(r, r')
  {
  }

  predicate RowsLater(t: Table, t': Table) {
    forall k :: k in t ==> k in t' && Later(t[k], t'[k])
  }

  lemma LaterTrans(r: Row, r': Row, r'': Row)
    requires Later(r, r') && Later(r', r'')
    ensures Later(r, r'')
  {
  }

  lemma RowsLaterTrans(t: Table, t': Table, t'': Table)
    requires RowsLater(t, t') && RowsLater(t', t'')
    ensures RowsLater(t, t'')
  {
    forall k | k in t ensures k in t'' && Later(t[k], t''[k]) {
      LaterTrans(t[k], t'[k], t''[k]);
    }
  }

  lemma StepRowsLater(c: Config, s: Sys, step: Step)
    requires Inv(c, s) && Enabled(c, s, step)
    ensures RowsLater(s.table, Apply(c, s, step).table)
  {
    hide Inv, Apply, Enabled;
    NonInterference(c, s, step);
    forall k | k in s.table ensures k in Apply(c, s, step).table && Later(s.table[k], Apply(c, s, step).table[k]) {
      MoveLater(s.table[k], Apply(c, s, step).table[k], MoverOf(step));
    }
  }

  /**
    Over whole runs: a parsed row never goes back, so a paid row never becomes payable again, and a
    blacklisted row never moves at all. The recipient, the vesting choice and a recorded deposit or block never change.
   */
  lemma {:induction false} NoWayBack(c: Config, s: Sys, steps: seq<Step>)
    requires Inv(c, s) && IsRun(c, s, steps)
    ensures RowsLater(s.table, Play(c, s, steps).table)
    decreases |steps|
  {
    hide Inv, Apply, Enabled;
    if steps != [] {
      var s' := Apply(c, s, steps[0]);
      StepRowsLater(c, s, steps[0]);
      StepInv(c, s, steps[0]);
      NoWayBack(c, s', steps[1..]);
      RowsLaterTrans(s.table, s'.table, Play(c, s, steps).table);
    }
  }

  /** The reset works from a snapshot taken outside its transaction; nothing in it has moved by COMMIT time. */
  lemma StaleSnapshotStillInvalid(c: Config, s: Sys, steps: seq<Step>)
    requires IsStart(c, s) && IsRun(c, s, steps)
    ensures var e := Play(c, s, steps);
            e.reset.Some? ==> forall k :: k in e.reset.value ==> k in e.table && e.table[k].status == Invalid
  {
    hide Play, IsRun;
    ReachableInv(c, s, steps);
    var e := Play(c, s, steps);
    if e.reset.Some? {
      forall k | k in e.reset.value ensures k in e.table && e.table[k].status == Invalid {
        var i :| 0 <= i < |e.reset.value| && e.reset.value[i] == k;
        assert StmtReady(c, e.eth, e.table, ResetStmts(e.reset.value)[i]);
      }
    }
  }

  // ---- Row data ----

  /** What the columns of a row mean, by status, in every reachable state. */
  lemma RowData(c: Config, s: Sys, steps: seq<Step>, k: Key)
    requires IsStart(c, s) && IsRun(c, s, steps) && k in Play(c, s, steps).table
    ensures var e := Play(c, s, steps);
            var r := e.table[k];
            && (r.status == InvalidBlacklist <==> k.addr in c.blacklist)
            && (r.status.Code() >= 1 ==> r.erc20.Some? && k.hash in e.eth.mined && Backs(c, e.eth.mined[k.hash], k, r.erc20.value))
            && (r.status.Code() >= 2 ==> r.block.Some? && r.block.value + c.confirmations < e.eth.height)
            && (r.status.Code() >= 3 ==> Acct(e.book, k).initial != []
                                         && r.migrationTokens == Some(Acct(e.book, k).initial[0]))
            && (r.status.Code() >= 4 ==> r.vesting.Some? && r.swapBonus.Some? && r.vestingBonus.Some?)
            && (r.vesting.None? ==> r.status.Code() <= 3)
  {
    hide Play, IsRun;
    ReachableInv(c, s, steps);
    var e := Play(c, s, steps);
    assert RowOk(c, e.eth, k, e.table[k]);
    assert AcctOk(e.table[k], Acct(e.book, k), k in PayingKeys(SchedQueue(e)), k in Keys(e.dispIssued));
  }

  /** One Ethereum transaction is behind at most one parsed row, although the key also holds the address. */
  lemma UniqueBacking(c: Config, s: Sys, steps: seq<Step>, k: Key, j: Key)
    requires IsStart(c, s) && IsRun(c, s, steps)
    requires k in Play(c, s, steps).table && Play(c, s, steps).table[k].status.Code() >= TxnParsed.Code()
    requires j in Play(c, s, steps).table && Play(c, s, steps).table[j].status.Code() >= TxnParsed.Code()
    requires k.hash == j.hash
    ensures k == j
  {
    hide Play, IsRun;
    ReachableInv(c, s, steps);
    var e := Play(c, s, steps);
    assert RowOk(c, e.eth, k, e.table[k]) && RowOk(c, e.eth, j, e.table[j]);
    BackingUnique(c, e.eth.mined[k.hash], k, j, e.table[k].erc20.value, e.table[j].erc20.value);
  }

  // ---- Memory and table ----

  /**
    When the second batch is about to be paid, the in-memory rows agree with the table in all that fixes
    the payment, so paying now or leaving the row to the next run pays the same amount to the same account.
   */
  lemma MemoryMatchesTable(c: Config, s: Sys, steps: seq<Step>, i: nat)
    requires IsStart(c, s) && IsRun(c, s, steps)
    requires var e := Play(c, s, steps); e.sched.Judged? && e.issued == [] && !e.failed && i < |e.sched.confirmed|
    ensures var e := Play(c, s, steps);
            var r := e.sched.confirmed[i];
            && r.key in e.table
            && r.row.status == TxnConfirmed == e.table[r.key].status
            && r.row.erc20 == e.table[r.key].erc20 && r.row.erc20.Some?
            && r.key.hash in e.eth.mined && Backs(c, e.eth.mined[r.key.hash], r.key, r.row.erc20.value)
            && r.row.mainnet == e.table[r.key].mainnet
            && InitialDue(r.row) == InitialDue(e.table[r.key])
  {
    hide Play, IsRun;
    ReachableInv(c, s, steps);
    var e := Play(c, s, steps);
    assert Drain(e.issued, e.table) == e.table;
    var k := e.sched.confirmed[i].key;
    assert RowOk(c, e.eth, k, e.table[k]);
  }

  // ---- How often a row is paid ----

  /**
    Over all runs, failing ones included, a row is paid its initial tokens once per write that took effect
    (at most one) plus once per write that was lost, plus once while the write is still pending; each time
    exactly what is due. The same holds for the bonus.
   */
  lemma PaymentMultiplicity(c: Config, s: Sys, steps: seq<Step>, k: Key)
    requires IsStart(c, s) && IsRun(c, s, steps) && k in Play(c, s, steps).table
    ensures var e := Play(c, s, steps);
            var r, a := e.table[k], Acct(e.book, k);
            && (forall i :: 0 <= i < |a.initial| ==> a.initial[i] == InitialDue(r))
            && (forall i :: 0 <= i < |a.bonus| ==> a.bonus[i] == BonusDue(r))
            && |a.initial| <= 1 + a.initialLost
            && |a.bonus| <= 1 + a.bonusLost
            && (r.status.Code() >= 3 ==> |a.initial| == 1 + a.initialLost)
            && (r.status.Code() == 5 ==> |a.bonus| == 1 + a.bonusLost)
            && (r.status.Code() < 2 ==> a.initial == [])
            && (r.status.Code() < 4 ==> a.bonus == [])
  {
    hide Play, IsRun;
    ReachableInv(c, s, steps);
    var e := Play(c, s, steps);
    assert AcctOk(e.table[k], Acct(e.book, k), k in PayingKeys(SchedQueue(e)), k in Keys(e.dispIssued));
  }

  /** A row that ran its whole course without a lost write got exactly its entitlement. */
  lemma WholeLifeEntitlement(c: Config, s: Sys, steps: seq<Step>, k: Key)
    requires IsStart(c, s) && IsRun(c, s, steps) && k in Play(c, s, steps).table
    requires var e := Play(c, s, steps);
             e.table[k].status == BonusTransferred && Acct(e.book, k).initialLost == 0 == Acct(e.book, k).bonusLost
    ensures var e := Play(c, s, steps);
            var r, a := e.table[k], Acct(e.book, k);
            && r.erc20.Some? && r.swapBonus.Some? && r.vestingBonus.Some?
            && Sum(a.initial) + Sum(a.bonus)
               == FromERC20ToDockTokens(r.erc20.value) + r.swapBonus.value
                  + (if r.vesting == Some(true) then r.vestingBonus.value else 0)
  {
    hide Play, IsRun;
    ReachableInv(c, s, steps);
    PaymentMultiplicity(c, s, steps, k);
    var e := Play(c, s, steps);
    var r, a := e.table[k], Acct(e.book, k);
    assert RowOk(c, e.eth, k, r);
    SumConstant(a.initial, InitialDue(r));
    SumConstant(a.bonus, BonusDue(r));
    LifetimeEntitlement(r);
  }
}
