/** The bonus script against the running system (src/bonus.js and the database half of src/bonus-utils.js). */
module BonusScript {
  import opened Wrappers
  import opened Sums
  import opened Requests
  import opened Amounts
  import opened Receipts
  import opened Greedy
  import opened BonusMath
  import opened BonusShares
  import opened Pipeline
  import opened PipelineInvariant
  import opened PipelineSteps
  import opened PipelineSafety
  import opened PipelineLedger
  import opened BonusPayout
  import opened BonusDisbursal
  import opened BonusCalculation
  import opened Deployment

  // ---- bonus.js 0 ----

  /** Rows fetched for calculation, one object each. */
  method AsBonusRows(reqs: seq<Req>) returns (rows: seq<BonusRow>)
    ensures DistinctRows(rows) && Reqs(rows) == reqs
    ensures forall i :: 0 <= i < |rows| ==> fresh(rows[i])
  {
    rows := [];
    for i := 0 to |reqs|
      invariant |rows| == i && DistinctRows(rows)
      invariant forall j :: 0 <= j < i ==> rows[j].req == reqs[j]
      invariant forall j :: 0 <= j < i ==> fresh(rows[j])
    {
      var r := new BonusRow(reqs[i]);
      rows := rows + [r];
    }
  }

  /** Row i once its bonuses are written. */
  function WithBonuses(c: Config, reqs: seq<Req>, i: nat): Row
    requires i < |reqs| && Divisible(reqs)
  {
    reqs[i].row.(status := BonusCalculated,
                 swapBonus := Some(SwapBonus(c, reqs, i)),
                 vestingBonus := Some(VestingBonus(c, reqs, i)))
  }

  /** Between two writes: the first n rows hold their bonuses, the others are as selected. */
  predicate HalfWritten(c: Config, s: Sys, reqs: seq<Req>, n: nat)
    requires Divisible(reqs)
  {
    && n <= |reqs| && DistinctReqs(reqs)
    && s.calcIssued == BonusStmts(c, reqs)[n..]
    && (forall i :: 0 <= i < |reqs| ==> reqs[i].key in s.table && AwaitsCalculation(reqs[i].row))
    && (forall i :: 0 <= i < n ==> s.table[reqs[i].key] == WithBonuses(c, reqs, i))
    && (forall i :: n <= i < |reqs| ==> s.table[reqs[i].key] == reqs[i].row)
  }

  lemma StillHalfWritten(c: Config, s: Sys, s': Sys, reqs: seq<Req>, n: nat)
    requires Divisible(reqs) && HalfWritten(c, s, reqs, n) && BonusQuiet(s, s')
    ensures HalfWritten(c, s', reqs, n)
  {
    hide WithBonuses, BonusStmts, Divisible, OwedAndPaid, SameLosses, AwaitsCalculation;
    forall i | 0 <= i < |reqs| ensures reqs[i].key in s'.table && s'.table[reqs[i].key] == s.table[reqs[i].key] {
      HalfWrittenRow(c, s, reqs, n, i);
    }
  }

  lemma HalfWrittenRow(c: Config, s: Sys, reqs: seq<Req>, n: nat, i: nat)
    requires Divisible(reqs) && HalfWritten(c, s, reqs, n) && i < |reqs|
    ensures reqs[i].key in s.table && s.table[reqs[i].key].status.Code() >= 3
  {
    hide BonusStmts, Divisible, SwapBonus, VestingBonus;
  }

  lemma OneMoreWritten(c: Config, s: Sys, reqs: seq<Req>, n: nat)
    requires Divisible(reqs) && HalfWritten(c, s, reqs, n) && n < |reqs|
    ensures s.calcIssued != [] && HalfWritten(c, DoCalcExec(s, true), reqs, n + 1)
  {
    assert s.calcIssued[0] == UpdateBonuses(reqs[n].key, SwapBonus(c, reqs, n), VestingBonus(c, reqs, n));
    assert s.calcIssued[1..] == BonusStmts(c, reqs)[n + 1..];
  }

  /** Every row of t that has its initial transfer and a vesting choice, but no bonuses yet, is among reqs. */
  predicate SelectsAwaiting(t: Table, reqs: seq<Req>) {
    forall k :: k in t && t[k].status == InitialTransferDone && t[k].vesting.Some? ==> exists i :: 0 <= i < |reqs| && reqs[i].key == k
  }

  method SelectForCalculation(d: Deployment) returns (reqs: seq<Req>)
    requires d.Valid() && d.s.calcIssued == []
    modifies d, d.db, d.token
    ensures d.Valid() && old(d.trace) <= d.trace
    ensures SelectsAwaiting(old(d.s).table, reqs) && AwaitingRows(reqs, old(d.s).table)
    ensures if Divisible(reqs) then HalfWritten(d.c, d.s, reqs, 0) else d.s.calcIssued == []
  {
    hide IsRun, Play, IsStart;
    reqs := d.db.GetPendingBonusCalcRequests();
    SelectIsAwaiting(reqs, d.s.table);
    d.Do(CalcSelect(reqs));
  }

  /** ... and reqs are only those, each once, as they are in t. */
  predicate AwaitingRows(reqs: seq<Req>, t: Table) {
    && DistinctReqs(reqs) && SelectsAwaiting(t, reqs)
    && (forall i :: 0 <= i < |reqs| ==>
          && reqs[i].key in t && t[reqs[i].key] == reqs[i].row
          && reqs[i].row.status == InitialTransferDone && reqs[i].row.vesting.Some?)
  }

  lemma SelectIsAwaiting(reqs: seq<Req>, t: Table)
    requires IsSelect(reqs, t, AwaitsCalculation)
    ensures AwaitingRows(reqs, t)
  {
    forall k | k in t && t[k].status == InitialTransferDone && t[k].vesting.Some? ensures exists i :: 0 <= i < |reqs| && reqs[i].key == k {
      assert AwaitsCalculation(t[k]);
    }
    forall i | 0 <= i < |reqs| ensures reqs[i].row.status == InitialTransferDone && reqs[i].row.vesting.Some? {
      assert AwaitsCalculation(reqs[i].row);
    }
  }

  /** Rows that await calculation keep doing so until the script writes them. */
  lemma StillAwaiting(s: Sys, s': Sys, reqs: seq<Req>)
    requires BonusQuiet(s, s') && SelectsAwaiting(s'.table, reqs)
    ensures SelectsAwaiting(s.table, reqs)
  {
    forall k | k in s.table && s.table[k].status == InitialTransferDone && s.table[k].vesting.Some? ensures exists i :: 0 <= i < |reqs| && reqs[i].key == k {
      assert s'.table[k] == s.table[k];
    }
  }

  /** A statement may fail, or take effect without its report coming back. */
  method AttemptWrite(smooth: bool) returns (applied: bool, reported: bool)
    ensures reported ==> applied
    ensures smooth ==> reported
  {
    applied := Attempt(smooth);
    reported := Attempt(smooth);
    reported := applied && reported;
  }

  /** updateDBWithBonuses. */
  method UpdateDBWithBonuses(d: Deployment, smooth: bool, reqs: seq<Req>) returns (ok: bool)
    requires d.Valid() && Divisible(reqs) && HalfWritten(d.c, d.s, reqs, 0)
    modifies d, d.db, d.token
    ensures d.Valid() && old(d.trace) <= d.trace
    ensures smooth ==> ok
    ensures ok ==> HalfWritten(d.c, d.s, reqs, |reqs|)
  {
    hide IsRun, Play, IsStart, HalfWritten, Inv, Divisible, BonusStmts, BonusQuiet;
    for n := 0 to |reqs|
      invariant d.Valid() && old(d.trace) <= d.trace && HalfWritten(d.c, d.s, reqs, n)
    {
      ghost var before := d.s;
      d.InterleaveBonus();
      StillHalfWritten(d.c, before, d.s, reqs, n);
      var applied, reported := AttemptWrite(smooth);
      OneMoreWritten(d.c, d.s, reqs, n);
      d.Do(CalcExec(applied));
      if !reported {
        return false;
      }
    }
    ok := true;
  }

  /**
    calculateBonusesAndUpdateDB: when nothing outside fails it throws exactly if a total over the rows awaiting
    calculation is zero. On success each of those rows holds its own pro-rata bonuses, every row that awaited
    calculation at the call among them, and the totals returned are the sums of what the rows now hold.
   */
  method CalculateBonusesAndUpdateDB(d: Deployment, smooth: bool)
    returns (reqs: seq<Req>, r: Result<Totals, ()>, ghost at: seq<Step>)
    requires d.Valid() && d.s.calcIssued == []
    modifies d, d.db, d.token
    ensures d.Valid() && old(d.trace) <= d.trace
    ensures old(d.trace) <= at <= d.trace && IsRun(d.c, d.start, at)
    ensures AwaitingRows(reqs, Play(d.c, d.start, at).table) && SelectsAwaiting(old(d.s).table, reqs)
    ensures r.Ok? ==>
              && Divisible(reqs) && d.s.calcIssued == []
              && (forall i :: 0 <= i < |reqs| ==>
                    reqs[i].key in d.s.table && d.s.table[reqs[i].key] == WithBonuses(d.c, reqs, i))
              && r.value == Totals(TotalTransferred(reqs), TotalByVesting(reqs),
                                   Sum(SwapBonuses(d.c, reqs)), Sum(VestingBonuses(d.c, reqs)))
              && r.value.swapBonus <= d.c.swapPool && r.value.vestingBonus <= d.c.vestingPool
    ensures !Divisible(reqs) ==> r.Err?
    ensures smooth && Divisible(reqs) ==> r.Ok?
  {
    hide IsRun, Play, IsStart, BonusQuiet, AwaitingRows, SelectsAwaiting, RowsLater, EthGrows, TotalTransferred, TotalByVesting;
    d.InterleaveBonus();
    ghost var before := d.s;
    at := d.trace;
    d.Since(at);
    reqs := SelectForCalculation(d);
    StillAwaiting(old(d.s), before, reqs);
    var rows := AsBonusRows(reqs);
    r := CalculateBonuses(d.c, rows);
    if r.Err? {
      return;
    }
    var ok := UpdateDBWithBonuses(d, smooth, reqs);
    if !ok {
      r := Err(());
    }
  }

  // ---- bonus.js 1 ----

  /** Rows whose bonus is calculated and not recorded as paid. */
  function Unrewarded(t: Table): set<Key> {
    set k | k in t && t[k].status == BonusCalculated
  }

  predicate RewardOnly(r: Row, r': Row) {
    r.status.Code() >= BonusCalculated.Code() ==> r' == r || r' == r.(status := BonusTransferred)
  }

  /** What any stretch of the script's run keeps, if no write of it is lost. */
  ghost predicate Rewarding(s: Sys, s': Sys) {
    && OwedAndPaid(s') == OwedAndPaid(s)
    && SameLosses(s.book, s'.book)
    && (forall k :: k in s.table ==> k in s'.table && RewardOnly(s.table[k], s'.table[k]))
    && Unrewarded(s'.table) <= Unrewarded(s.table)
  }

  lemma QuietRewarding(s: Sys, s': Sys)
    requires BonusQuiet(s, s')
    ensures Rewarding(s, s') && Unrewarded(s'.table) == Unrewarded(s.table)
  {
    forall k ensures k in Unrewarded(s'.table) <==> k in Unrewarded(s.table) {
    }
  }

  lemma RewardingSame(s: Sys, s': Sys)
    requires s'.table == s.table && s'.book == s.book && s'.dispIssued == s.dispIssued
    ensures Rewarding(s, s')
  {
  }

  lemma RewardingTrans(s: Sys, s': Sys, s'': Sys)
    requires Rewarding(s, s') && Rewarding(s', s'')
    ensures Rewarding(s, s'')
  {
    forall k | k in s.table ensures k in s''.table && RewardOnly(s.table[k], s''.table[k]) {
      assert RewardOnly(s.table[k], s'.table[k]) && RewardOnly(s'.table[k], s''.table[k]);
    }
  }

  /** The write of a paid row takes it out of the unrewarded ones. */
  lemma WriteRewards(c: Config, s: Sys)
    requires Inv(c, s) && s.dispIssued != []
    ensures var s' := DoDispExec(s, true);
            Rewarding(s, s') && |Unrewarded(s'.table)| == |Unrewarded(s.table)| - 1
  {
    hide Inv, OwedAndPaid, Unrewarded;
    HeadReady(c, s);
    RowRewarded(s.table, s.dispIssued[0].key);
    StepBalance(c, s, DispExec(true));
  }

  lemma HeadReady(c: Config, s: Sys)
    requires Inv(c, s) && s.dispIssued != []
    ensures s.dispIssued[0].UpdateAfterBonus? && s.dispIssued[0].key in s.table
    ensures s.table[s.dispIssued[0].key].status == BonusCalculated
  {
    assert StmtReady(c, s.eth, s.table, s.dispIssued[0]) && Writer(s.dispIssued[0]) == TheDisbursal;
  }

  lemma RowRewarded(t: Table, k: Key)
    requires k in t && t[k].status == BonusCalculated
    ensures var t' := Exec(UpdateAfterBonus(k), t);
            && |Unrewarded(t')| == |Unrewarded(t)| - 1 && Unrewarded(t') <= Unrewarded(t)
            && forall j :: j in t ==> j in t' && RewardOnly(t[j], t'[j])
  {
    assert Unrewarded(Exec(UpdateAfterBonus(k), t)) == Unrewarded(t) - {k};
  }

  lemma PaymentRewards(c: Config, s: Sys, allowed: nat, balance: nat)
    requires Inv(c, s) && CanDispPay(s, allowed, balance)
    ensures var s' := DoDispPay(s, allowed, balance);
            && Rewarding(s, s') && s'.table == s.table && s'.disp.None?
            && |s'.dispIssued| == |BonusBatch(s.disp.value, allowed, balance)|
  {
    hide Inv, OwedAndPaid, BonusBatch, PayBonus, Unrewarded;
    StepBalance(c, s, DispPay(allowed, balance));
    PaymentLosesNothing(s.book, BonusBatch(s.disp.value, allowed, balance));
  }

  /** At rest: nothing selected, nothing pending, and no calculation under way. */
  predicate AtRest(s: Sys) {
    s.disp.None? && s.dispIssued == [] && s.calcIssued == []
  }

  /** An await of the script. */
  method Wait(d: Deployment)
    requires d.Valid()
    modifies d, d.db, d.token
    ensures d.Valid() && old(d.trace) <= d.trace && BonusQuiet(old(d.s), d.s)
    ensures Rewarding(old(d.s), d.s) && Unrewarded(d.s.table) == Unrewarded(old(d.s).table)
  {
    hide IsRun, Play, IsStart;
    d.InterleaveBonus();
    QuietRewarding(old(d.s), d.s);
  }

  method SelectForDispatch(d: Deployment, batchSize: nat) returns (reqs: seq<Req>)
    requires d.Valid() && AtRest(d.s)
    modifies d, d.db, d.token
    ensures d.Valid() && old(d.trace) <= d.trace
    ensures Rewarding(old(d.s), d.s)
    ensures d.s == old(d.s).(disp := Some(reqs)) && IsDisbursalSelect(reqs, d.s.table, batchSize)
    ensures batchSize > 0 && reqs == [] ==> Unrewarded(d.s.table) == {}
  {
    hide IsRun, Play, IsStart, Rewarding, Inv, Unrewarded, IsDisbursalSelect;
    reqs := d.db.GetPendingBonusDispRequests(batchSize);
    d.Do(DispSelect(reqs, batchSize));
    RewardingSame(old(d.s), d.s);
    d.Invariant();
    if batchSize > 0 && reqs == [] {
      NothingSelected(d.c, d.s, batchSize);
    }
  }

  /** An empty batch means that no row awaits its bonus: a row whose bonus is calculated has made its vesting choice. */
  lemma NothingSelected(c: Config, s: Sys, batchSize: nat)
    requires Inv(c, s) && batchSize > 0 && IsDisbursalSelect([], s.table, batchSize)
    ensures Unrewarded(s.table) == {}
  {
    forall k | k in s.table ensures s.table[k].status != BonusCalculated {
      assert RowOk(c, s.eth, k, s.table[k]);
    }
  }

  /** The script forgets its batch: it was empty, or the script dies before paying it. */
  method Forget(d: Deployment)
    requires d.Valid() && d.s.disp.Some?
    modifies d, d.db, d.token
    ensures d.Valid() && old(d.trace) <= d.trace
    ensures d.s.disp.None? && d.s.dispIssued == [] && d.s.calcIssued == old(d.s).calcIssued
    ensures d.s.table == old(d.s).table
    ensures Rewarding(old(d.s), d.s) && Unrewarded(d.s.table) == Unrewarded(old(d.s).table)
  {
    hide IsRun, Play, IsStart, Rewarding, Inv, Unrewarded;
    d.Invariant();
    ForgetsOnly(d.c, d.s);
    d.Do(DispCrash);
    RewardingSame(old(d.s), d.s);
  }

  lemma ForgetsOnly(c: Config, s: Sys)
    requires Inv(c, s) && s.disp.Some?
    ensures s.dispIssued == [] && DoDispCrash(s) == s.(disp := None)
  {
  }

  /** The recipients of a chain call are the accounts of the rows it pays, with the rows' amounts. */
  predicate SameRecipients(recips: seq<Recipient>, batch: seq<Weighted<Req>>) {
    && |recips| == |batch|
    && (forall i :: 0 <= i < |batch| ==>
          recips[i].item.address == batch[i].item.row.mainnet && recips[i].amount == batch[i].amount)
  }

  /** giveBonuses: one atomic payment, to exactly the recipients named and of their amounts. */
  method GiveBonuses(d: Deployment, recips: seq<Recipient>, allowed: nat, balance: nat)
    requires d.Valid() && CanDispPay(d.s, allowed, balance) && d.s.calcIssued == []
    requires SameRecipients(recips, BonusBatch(d.s.disp.value, allowed, balance))
    modifies d, d.db, d.token
    ensures d.Valid() && old(d.trace) <= d.trace && d.s.disp.None? && d.s.calcIssued == []
    ensures |d.s.dispIssued| == |BonusBatch(old(d.s).disp.value, allowed, balance)|
    ensures Rewarding(old(d.s), d.s) && Unrewarded(d.s.table) == Unrewarded(old(d.s).table)
    ensures BonusTokensPaid(d.s.book) == BonusTokensPaid(old(d.s).book) + Cost(recips)
  {
    hide IsRun, Play, IsStart, Rewarding, Unrewarded, Inv, BonusBatch, PayBonus;
    d.Invariant();
    PaymentRewards(d.c, d.s, allowed, balance);
    BonusesPaid(d.s.book, BonusBatch(d.s.disp.value, allowed, balance));
    assert AmountsOf(recips) == AmountsOf(BonusBatch(d.s.disp.value, allowed, balance));
    d.Do(DispPay(allowed, balance));
  }

  /** The write of one paid row, at its turn. */
  method WriteOne(d: Deployment, smooth: bool) returns (ok: bool)
    requires d.Valid() && d.s.dispIssued != []
    modifies d, d.db, d.token
    ensures d.Valid() && old(d.trace) <= d.trace
    ensures smooth ==> ok
    ensures ok ==>
              && Rewarding(old(d.s), d.s) && |Unrewarded(d.s.table)| == |Unrewarded(old(d.s).table)| - 1
              && d.s.dispIssued == old(d.s).dispIssued[1..]
              && d.s.disp == old(d.s).disp && d.s.calcIssued == old(d.s).calcIssued
  {
    hide IsRun, Play, IsStart, Rewarding, Unrewarded, Inv, OwedAndPaid, SameLosses;
    Wait(d);
    ghost var before := d.s;
    var applied, reported := AttemptWrite(smooth);
    d.Invariant();
    WriteRewards(d.c, d.s);
    d.Do(DispExec(applied));
    ok := reported;
    if ok {
      RewardingTrans(old(d.s), before, d.s);
    }
  }

  /** updateDBPostBonusTrsfr. */
  method UpdateDBPostBonusTransfer(d: Deployment, smooth: bool) returns (ok: bool)
    requires d.Valid() && d.s.disp.None? && d.s.calcIssued == []
    modifies d, d.db, d.token
    ensures d.Valid() && old(d.trace) <= d.trace
    ensures smooth ==> ok
    ensures ok ==>
              && AtRest(d.s) && Rewarding(old(d.s), d.s)
              && |Unrewarded(d.s.table)| == |Unrewarded(old(d.s).table)| - |old(d.s).dispIssued|
  {
    hide IsRun, Play, IsStart, Rewarding, Unrewarded;
    ghost var s0 := d.s;
    RewardingSame(s0, d.s);
    while d.s.dispIssued != []
      invariant d.Valid() && old(d.trace) <= d.trace && Rewarding(s0, d.s)
      invariant d.s.disp.None? && d.s.calcIssued == []
      invariant |Unrewarded(d.s.table)| - |d.s.dispIssued| == |Unrewarded(s0.table)| - |s0.dispIssued|
      decreases |d.s.dispIssued|
    {
      ghost var before := d.s;
      var written := WriteOne(d, smooth);
      if !written {
        return false;
      }
      RewardingTrans(s0, before, d.s);
    }
    ok := true;
  }

  /** Why a dispatch throws: no row fits the limits, an offset is no safe number, or something outside failed. */
  datatype Failure = NobodyFits | UnsafeOffset | External

  predicate SomeOffsetUnsafe(oc: OffsetConfig, t: Table) {
    exists k :: k in t && t[k].status.Code() >= BonusCalculated.Code() && !IsSafeNumber(Offset(oc, t[k]))
  }

  /**
    dispatchBonusesAndUpdateDB: with no failure, the number it returns is how many rows left BONUS_CALCULATED,
    and with a positive batch size it returns 0 only when none is left. When nothing outside fails it throws only if
    an offset is unsafe, or if there are rows to pay and the limits do not allow even the cheapest of its batch.
   */
  method DispatchBonusesAndUpdateDB(d: Deployment, env: Environment, oc: OffsetConfig, batchSize: nat)
    returns (r: Result<nat, Failure>, ghost requests: seq<Req>)
    requires d.Valid() && AtRest(d.s)
    modifies d, d.db, d.token
    ensures d.Valid() && old(d.trace) <= d.trace
    ensures env.smooth ==> r != Err(External)
    ensures r == Err(UnsafeOffset) ==> SomeOffsetUnsafe(oc, d.s.table)
    ensures r == Err(NobodyFits) ==>
              Rewarding(old(d.s), d.s) && IsDisbursalSelect(requests, d.s.table, batchSize) && CannotPayAny(requests, env)
    ensures r.Ok? ==>
              && AtRest(d.s) && Rewarding(old(d.s), d.s)
              && |Unrewarded(d.s.table)| + r.value == |Unrewarded(old(d.s).table)|
              && (batchSize > 0 && r.value == 0 ==> Unrewarded(d.s.table) == {})
  {
    hide IsRun, Play, IsStart, Rewarding, IsDisbursalSelect, BonusBatch, Unrewarded;
    requests := [];
    Wait(d); // getMigratorDetails and the alarm
    var known := Attempt(env.smooth);
    if !known {
      return Err(External), requests;
    }
    ghost var s1 := d.s;
    var batch := SelectForDispatch(d, batchSize);
    requests := batch;
    ghost var s2 := d.s;
    RewardingTrans(old(d.s), s1, s2);
    if |batch| == 0 {
      Forget(d);
      RewardingTrans(old(d.s), s2, d.s);
      return Ok(0), requests;
    }
    r := PayAndRecord(d, env.smooth, oc, batch, env.allowed, env.balance);
    if r.Ok? || r.error.NobodyFits? {
      RewardingTrans(old(d.s), s2, d.s);
    }
    if r == Err(NobodyFits) {
      NobodyCanBePaid(batch, env);
    }
  }

  /** There are rows to pay, but the allowance is used up or each of them alone exceeds the balance. */
  predicate CannotPayAny(reqs: seq<Req>, env: Environment) {
    reqs != [] && (env.allowed == 0 || forall i :: 0 <= i < |reqs| ==> BonusDue(reqs[i].row) > env.balance)
  }

  lemma NobodyCanBePaid(reqs: seq<Req>, env: Environment)
    requires reqs != [] && BonusBatch(reqs, env.allowed, env.balance) == []
    ensures CannotPayAny(reqs, env)
  {
    SelectEmpty(WeighBonus(reqs), env.allowed, env.balance);
    if env.allowed > 0 {
      forall i | 0 <= i < |reqs| ensures BonusDue(reqs[i].row) > env.balance {
        assert WeighBonus(reqs)[i].amount == BonusDue(reqs[i].row);
      }
    }
  }

  lemma UnsafeInTable(c: Config, s: Sys, oc: OffsetConfig, allowed: nat, balance: nat)
    requires Inv(c, s) && s.disp.Some?
    requires exists i :: 0 <= i < |BonusBatch(s.disp.value, allowed, balance)|
                         && !IsSafeNumber(Offset(oc, BonusBatch(s.disp.value, allowed, balance)[i].item.row))
    ensures SomeOffsetUnsafe(oc, s.table)
  {
    var w := WeighBonus(s.disp.value);
    var batch := Select(w, allowed, balance);
    var i :| 0 <= i < |batch| && !IsSafeNumber(Offset(oc, batch[i].item.row));
    SelectFits(w, allowed, balance);
    assert batch[i] in multiset(batch) && batch[i] in multiset(w);
    var j :| 0 <= j < |w| && w[j] == batch[i];
    assert AwaitsDisbursal(s.disp.value[j].row) && s.table[s.disp.value[j].key] == s.disp.value[j].row;
  }

  /** From the selected rows on: prepare, pay, record. */
  method PayAndRecord(d: Deployment, smooth: bool, oc: OffsetConfig, requests: seq<Req>, allowed: nat, balance: nat)
    returns (r: Result<nat, Failure>)
    requires d.Valid() && d.s.disp == Some(requests) && d.s.dispIssued == [] && d.s.calcIssued == []
    modifies d, d.db, d.token
    ensures d.Valid() && old(d.trace) <= d.trace
    ensures smooth ==> r != Err(External)
    ensures r == Err(NobodyFits) <==> BonusBatch(requests, allowed, balance) == []
    ensures r == Err(NobodyFits) ==> d.s.table == old(d.s).table && Rewarding(old(d.s), d.s)
    ensures r == Err(UnsafeOffset) ==> SomeOffsetUnsafe(oc, d.s.table)
    ensures r.Ok? ==>
              && 0 < r.value <= allowed
              && AtRest(d.s) && Rewarding(old(d.s), d.s)
              && |Unrewarded(d.s.table)| + r.value == |Unrewarded(old(d.s).table)|
  {
    hide IsRun, Play, IsStart, Rewarding, IsDisbursalSelect, BonusBatch, Unrewarded;
    var count, recips := PrepareBatch(oc, requests, allowed, balance);
    if count == 0 {
      Forget(d);
      return Err(NobodyFits);
    }
    if recips.Err? {
      d.Invariant();
      UnsafeInTable(d.c, d.s, oc, allowed, balance);
      Forget(d);
      return Err(UnsafeOffset);
    }
    assert SameRecipients(recips.value, BonusBatch(requests, allowed, balance));
    var ok := PayThenRecord(d, smooth, recips.value, allowed, balance);
    r := if ok then Ok(count) else Err(External);
  }

  method PayThenRecord(d: Deployment, smooth: bool, recips: seq<Recipient>, allowed: nat, balance: nat) returns (ok: bool)
    requires d.Valid() && CanDispPay(d.s, allowed, balance) && d.s.dispIssued == [] && d.s.calcIssued == []
    requires SameRecipients(recips, BonusBatch(d.s.disp.value, allowed, balance))
    modifies d, d.db, d.token
    ensures d.Valid() && old(d.trace) <= d.trace
    ensures smooth ==> ok
    ensures ok ==>
              && AtRest(d.s) && Rewarding(old(d.s), d.s)
              && |Unrewarded(d.s.table)| + |recips| == |Unrewarded(old(d.s).table)|
  {
    hide IsRun, Play, IsStart, Rewarding, IsDisbursalSelect, BonusBatch, Unrewarded;
    Wait(d);
    ghost var s1 := d.s;
    var accepted := Attempt(smooth);
    if !accepted {
      Forget(d);
      return false;
    }
    GiveBonuses(d, recips, allowed, balance);
    ghost var s2 := d.s;
    RewardingTrans(old(d.s), s1, s2);
    ok := UpdateDBPostBonusTransfer(d, smooth);
    if ok {
      RewardingTrans(old(d.s), s2, d.s);
    }
  }

  /**
    What a complete dispatch did for one row: recorded, and paid its bonus once more than before, to its own account.
   */
  predicate PaidOnce(s: Sys, s': Sys, k: Key)
    requires k in s.table
  {
    && k in s'.table && s'.table[k] == s.table[k].(status := BonusTransferred)
    && Acct(s'.book, k).bonus == Acct(s.book, k).bonus + [BonusDue(s.table[k])]
    && |Acct(s'.book, k).payees| == |Acct(s'.book, k).initial| + |Acct(s'.book, k).bonus|
    && (forall i :: 0 <= i < |Acct(s'.book, k).payees| ==> Acct(s'.book, k).payees[i] == s.table[k].mainnet)
  }

  lemma CompleteForRow(s: Sys, s': Sys, k: Key, paying: bool, paying': bool)
    requires k in s.table && s.table[k].status == BonusCalculated && k in s'.table && s'.table[k].status != BonusCalculated
    requires RewardOnly(s.table[k], s'.table[k]) && Acct(s'.book, k).bonusLost == Acct(s.book, k).bonusLost
    requires AcctOk(s.table[k], Acct(s.book, k), paying, false) && AcctOk(s'.table[k], Acct(s'.book, k), paying', false)
    ensures PaidOnce(s, s', k)
  {
    AccountComplete(s.table[k], Acct(s.book, k), Acct(s'.book, k), paying, paying');
  }

  /** At rest, no bonus is between its payment and its record. */
  lemma AcctAtRest(c: Config, s: Sys, k: Key)
    requires Inv(c, s) && AtRest(s) && k in s.table
    ensures AcctOk(s.table[k], Acct(s.book, k), k in PayingKeys(SchedQueue(s)), false)
  {
    hide QueueOk, ControlOk, ResetOk, DisbursalOk, RowsOk, AcctOk;
    assert k !in Keys(s.dispIssued);
  }

  lemma CompleteForAll(c: Config, s: Sys, s': Sys)
    requires Inv(c, s) && Inv(c, s') && AtRest(s) && AtRest(s') && Rewarding(s, s') && Unrewarded(s'.table) == {}
    ensures forall k :: k in Unrewarded(s.table) ==> PaidOnce(s, s', k)
  {
    hide Inv, AcctOk, OwedAndPaid, PaidOnce, RewardOnly;
    forall k | k in Unrewarded(s.table) ensures PaidOnce(s, s', k) {
      AcctAtRest(c, s, k);
      AcctAtRest(c, s', k);
      assert k !in Unrewarded(s'.table);
      CompleteForRow(s, s', k, k in PayingKeys(SchedQueue(s)), k in PayingKeys(SchedQueue(s')));
    }
  }

  lemma AccountComplete(r: Row, a: Account, a': Account, paying: bool, paying': bool)
    requires r.status == BonusCalculated && a'.bonusLost == a.bonusLost
    requires AcctOk(r, a, paying, false) && AcctOk(r.(status := BonusTransferred), a', paying', false)
    ensures a'.bonus == a.bonus + [BonusDue(r)]
  {
    assert |a'.bonus| == |a.bonus| + 1;
    assert BonusDue(r.(status := BonusTransferred)) == BonusDue(r);
  }

  /** ... and for the whole payout. */
  lemma CompleteInAll(s: Sys, s': Sys)
    requires AtRest(s) && AtRest(s') && Rewarding(s, s') && Unrewarded(s'.table) == {}
    ensures BonusTokensPaid(s'.book) == BonusTokensPaid(s.book) + Outstanding(s.table, {})
  {
    assert Keys(s.dispIssued) == {} && Keys(s'.dispIssued) == {};
    forall k | k in s'.table ensures s'.table[k].status != BonusCalculated {
      assert k !in Unrewarded(s'.table);
    }
    NothingOwed(s'.table, {});
  }

  const BATCH_SIZE: nat := 10

  /** Every bonus outstanding fits the balance by itself, and the allowance is not used up. */
  predicate RoomForEach(t: Table, env: Environment) {
    env.allowed > 0 && forall k :: k in Unrewarded(t) ==> BonusDue(t[k]) <= env.balance
  }

  lemma RoomAtLast(s: Sys, s': Sys, env: Environment, requests: seq<Req>, batchSize: nat)
    requires Rewarding(s, s') && IsDisbursalSelect(requests, s'.table, batchSize) && CannotPayAny(requests, env)
    ensures !RoomForEach(s.table, env)
  {
    var k := requests[0].key;
    assert AwaitsDisbursal(requests[0].row) && s'.table[k] == requests[0].row;
    assert k in Unrewarded(s'.table);
    assert RewardOnly(s.table[k], s'.table[k]);
  }

  /**
    The do-while loop of bonus.js: it terminates because every round that does not throw takes rows out of
    BONUS_CALCULATED or is the last. When it ends normally, every row that awaited its bonus has been paid it,
    once, whatever the batches were, and the tokens paid are exactly the sum of what was due. It does end normally
    if nothing outside fails, no offset is unsafe, and no round's limits are below a single outstanding bonus.
   */
  method DispatchAllBonuses(d: Deployment, envs: nat -> Environment, oc: OffsetConfig)
    returns (r: Result<(), Failure>, rounds: nat, ghost requests: seq<Req>)
    requires d.Valid() && AtRest(d.s)
    modifies d, d.db, d.token
    ensures d.Valid() && old(d.trace) <= d.trace
    ensures r == Err(External) ==> !envs(rounds).smooth
    ensures r == Err(UnsafeOffset) ==> SomeOffsetUnsafe(oc, d.s.table)
    ensures r == Err(NobodyFits) ==>
              && IsDisbursalSelect(requests, d.s.table, 10) && CannotPayAny(requests, envs(rounds))
              && !RoomForEach(old(d.s).table, envs(rounds))
    ensures r.Ok? ==>
              && Unrewarded(d.s.table) == {}
              && (forall k :: k in Unrewarded(old(d.s).table) ==> PaidOnce(old(d.s), d.s, k))
              && BonusTokensPaid(d.s.book) == BonusTokensPaid(old(d.s).book) + Outstanding(old(d.s).table, {})
  {
    hide IsRun, Play, IsStart, Rewarding, IsDisbursalSelect, Inv, RoomForEach, CannotPayAny, PaidOnce;
    ghost var s0 := d.s;
    d.Invariant();
    RewardingSame(s0, d.s);
    var processed := 1;
    rounds, requests := 0, [];
    while processed > 0
      invariant d.Valid() && old(d.trace) <= d.trace && AtRest(d.s) && Rewarding(s0, d.s)
      invariant processed == 0 ==> Unrewarded(d.s.table) == {}
      decreases |Unrewarded(d.s.table)|, processed
    {
      ghost var before := d.s;
      var batch;
      batch, requests := DispatchBonusesAndUpdateDB(d, envs(rounds), oc, BATCH_SIZE);
      if batch.Err? {
        if batch.error.NobodyFits? {
          RewardingTrans(s0, before, d.s);
          RoomAtLast(s0, d.s, envs(rounds), requests, BATCH_SIZE);
        }
        return Err(batch.error), rounds, requests;
      }
      RewardingTrans(s0, before, d.s);
      processed, rounds := batch.value, rounds + 1;
    }
    d.Invariant();
    CompleteInAll(s0, d.s);
    CompleteForAll(d.c, s0, d.s);
    r := Ok(());
  }
}
