/**
  The running system as an object the scripts act on: the request table, the token contract and the rest of the
  state. It is only ever changed by steps of the pipeline, each of which runs its statement on the table object or
  its transaction on the contract object, and the trace of the steps is kept. So whatever the code does is a run of
  the state machine.
 */
module Deployment {
  import opened Wrappers
  import opened Sums
  import opened Requests
  import opened Receipts
  import opened Greedy
  import opened BonusMath
  import opened Pipeline
  import opened PipelineInvariant
  import opened PipelineSteps
  import opened PipelineFrame
  import opened PipelineSafety
  import opened PipelineLedger
  import opened BonusPayout
  import E = Erc20
  import DB = RequestTable
  import T = DockToken

  /** Steps other processes, the chains and the database may take while process `who` awaits something. */
  predicate Outside(who: Actor, step: Step) {
    match who
    case TheScheduler => !IsSchedulerStep(step) || step.SchedExec?
    case TheReset => !IsResetStep(step)
    case TheDisbursal => !IsBonusStep(step)
    case _ => true
  }

  /**
    While one process waits, nothing of the others is held up: only its own control steps are excluded, not even the
    statements it has issued.
   */
  lemma OthersRunFreely(step: Step)
    ensures Outside(TheScheduler, step) || step.SchedSelect? || step.SchedDetails? || step.SchedPayFirst? || step.SchedSkipFirst?
         || step.SchedFirstSettled? || step.SchedJudge? || step.SchedPaySecond? || step.SchedStop? || step.SchedCrash?
    ensures Outside(TheReset, step) || step.ResetSelect? || step.ResetCommit? || step.ResetRollback?
    ensures Outside(TheDisbursal, step) || step.CalcSelect? || step.CalcExec? || step.CalcCrash?
         || step.DispSelect? || step.DispPay? || step.DispExec? || step.DispCrash?
  {
  }

  /**
    What lies outside the code, such as nodes, mails and the database, either goes well or not. A `smooth` call is
    one during which all of it goes well. The environment also holds what the outside answers when it is asked: the
    migrator's limits, and the block under which the node reports a transaction.
   */
  datatype Environment = Environment(smooth: bool, allowed: nat, balance: nat, blocks: Hash -> Option<nat>)

  method Attempt(smooth: bool) returns (ok: bool)
    ensures smooth ==> ok
  {
    var luck: bool := *;
    ok := smooth || luck;
  }

  /** The database carries out this step's statement and says so. */
  predicate GoesWell(step: Step) {
    step.SchedExec? ==> step.reported
  }

  lemma SmoothStep(c: Config, s: Sys, step: Step)
    requires Enabled(c, s, step) && Outside(TheScheduler, step) && GoesWell(step) && !s.failed
    ensures !Apply(c, s, step).failed
  {
    if !step.SchedExec? {
      OtherFrame(c, s, step);
    }
  }

  /** What the scheduler can count on across an await. */
  ghost predicate QuietChange(s: Sys, s': Sys) {
    && s'.sched == s.sched
    && EthGrows(s.eth, s'.eth)
    && |SchedQueue(s')| <= |SchedQueue(s)|
    && (s.issued == [] ==> s'.issued == [] && s'.failed == s.failed)
    && TokensPaid(s'.book) == TokensPaid(s.book) && RecipientsPaid(s'.book) == RecipientsPaid(s.book)
  }

  lemma OutsideStep(c: Config, s: Sys, step: Step)
    requires Enabled(c, s, step) && Outside(TheScheduler, step)
    ensures QuietChange(s, Apply(c, s, step))
  {
    EmptyCost();
    StepTotals(c, s, step);
    if step.SchedExec? {
      ExecQuiet(s, step.applied, step.reported);
    } else {
      OtherFrame(c, s, step);
    }
  }

  lemma ExecQuiet(s: Sys, applied: bool, reported: bool)
    requires CanExec(s, applied, reported)
    ensures var s' := DoExec(s, applied, reported);
            && s'.sched == s.sched && s'.eth == s.eth && |SchedQueue(s')| == |SchedQueue(s)| - 1
            && (s.issued == [] ==> s'.issued == [] && s'.failed == s.failed)
  {
  }

  /** What the statement wrote still shows in the table; what MarkInvalid writes may have been reset meanwhile. */
  predicate Stays(t: Table, st: Stmt) {
    && st.key in t
    && match st
       case MarkParsed(k, e) => t[k].status.Code() >= 1 && t[k].erc20 == Some(e)
       case MarkParsedAndConfirmed(k, e, b) => t[k].status.Code() >= 2 && t[k].erc20 == Some(e) && t[k].block == Some(b)
       case MarkConfirmed(k, b) => t[k].status.Code() >= 2 && t[k].block == Some(b)
       case MarkInitialDone(k, n) => t[k].status.Code() >= 3 && t[k].migrationTokens == Some(n)
       case _ => true
  }

  /** The statement took effect after the first `from` ones did, and its effect stays. */
  predicate Landed(s: Sys, from: nat, st: Stmt) {
    from <= |s.log| && st in s.log[from..] && Stays(s.table, st)
  }

  lemma StillLanded(s: Sys, s': Sys, from: nat, st: Stmt)
    requires Landed(s, from, st) && s.log <= s'.log && RowsLater(s.table, s'.table)
    ensures Landed(s', from, st)
  {
    var i :| from <= i < |s.log| && s.log[i] == st;
    assert s'.log[i] == st;
  }

  /** An awaited statement stays issued until it fails or lands, and what has landed stays so. */
  predicate WritesLand(s: Sys, s': Sys) {
    && (s.failed ==> s'.failed)
    && s.log <= s'.log
    && RowsLater(s.table, s'.table)
    && (forall st :: st in s.issued ==> st in s'.issued || s'.failed || Landed(s', |s.log|, st))
  }

  lemma StepWritesLand(c: Config, s: Sys, step: Step)
    requires Inv(c, s) && Enabled(c, s, step) && Outside(TheScheduler, step)
    ensures WritesLand(s, Apply(c, s, step))
  {
    StepRowsLater(c, s, step);
    if step.SchedExec? {
      ExecLands(c, s, step.applied, step.reported);
    } else {
      OtherFrame(c, s, step);
    }
  }

  lemma StepGrows(c: Config, s: Sys, step: Step)
    requires Enabled(c, s, step)
    ensures EthGrows(s.eth, Apply(c, s, step).eth)
  {
    hide Enabled, Apply;
    if IsSchedulerStep(step) {
      SchedulerFrame(c, s, step);
    } else {
      OtherFrame(c, s, step);
    }
  }

  lemma StepToken(c: Config, s: Sys, step: Step)
    requires Enabled(c, s, step)
    ensures Apply(c, s, step).eth.token == TokenAfter(s, step)
  {
    hide Enabled, Apply;
    if IsSchedulerStep(step) {
      SchedulerFrame(c, s, step);
    } else {
      OtherFrame(c, s, step);
    }
  }

  lemma StepLog(c: Config, s: Sys, step: Step)
    requires Enabled(c, s, step)
    ensures s.log <= Apply(c, s, step).log
  {
    hide Enabled, Apply;
    if IsSchedulerStep(step) {
      SchedulerFrame(c, s, step);
    } else {
      OtherFrame(c, s, step);
    }
  }

  /** Over a run, the chain only grows, and so does the log. */
  lemma {:induction false} ChainGrows(c: Config, s: Sys, steps: seq<Step>)
    requires IsRun(c, s, steps)
    ensures EthGrows(s.eth, Play(c, s, steps).eth) && s.log <= Play(c, s, steps).log
    decreases |steps|
  {
    if steps != [] {
      hide Enabled, Apply;
      StepGrows(c, s, steps[0]);
      StepLog(c, s, steps[0]);
      ChainGrows(c, Apply(c, s, steps[0]), steps[1..]);
    }
  }

  lemma {:induction false} RunSplits(c: Config, s: Sys, steps: seq<Step>, n: nat)
    requires IsRun(c, s, steps) && n <= |steps|
    ensures IsRun(c, s, steps[..n]) && IsRun(c, Play(c, s, steps[..n]), steps[n..])
    ensures Play(c, s, steps) == Play(c, Play(c, s, steps[..n]), steps[n..])
    decreases |steps|
  {
    if n == 0 {
      assert steps[..0] == [] && steps[0..] == steps;
    } else {
      assert steps[..n][1..] == steps[1..][..n - 1] && steps[n..] == steps[1..][n - 1..];
      RunSplits(c, Apply(c, s, steps[0]), steps[1..], n - 1);
    }
  }

  lemma ExecLands(c: Config, s: Sys, applied: bool, reported: bool)
    requires Inv(c, s) && CanExec(s, applied, reported)
    ensures var s' := DoExec(s, applied, reported);
            && (s.failed ==> s'.failed)
            && s.log <= s'.log
            && (forall st :: st in s.issued ==> st in s'.issued || s'.failed || Landed(s', |s.log|, st))
  {
    var st := SchedQueue(s)[0];
    assert StmtReady(c, s.eth, s.table, st);
    AppliedStays(s.table, st);
    if s.backlog == [] {
      assert s.issued == [st] + s.issued[1..];
    }
  }

  lemma AppliedStays(t: Table, st: Stmt)
    requires st.key in t
    ensures Stays(Exec(st, t), st)
  {
  }

  lemma WritesLandTrans(s: Sys, s': Sys, s'': Sys)
    requires WritesLand(s, s') && WritesLand(s', s'')
    ensures WritesLand(s, s'')
  {
    hide Stays;
    RowsLaterTrans(s.table, s'.table, s''.table);
    forall st | st in s.issued ensures st in s''.issued || s''.failed || Landed(s'', |s.log|, st) {
      if !s''.failed && st !in s'.issued {
        StillLanded(s', s'', |s.log|, st);
      }
    }
  }

  /** What the bonus script can count on: the others neither touch its rows nor what it paid for them. */
  ghost predicate BonusQuiet(s: Sys, s': Sys) {
    && s'.disp == s.disp && s'.dispIssued == s.dispIssued && s'.calcIssued == s.calcIssued
    && (forall k :: k in s.table ==> k in s'.table)
    && (forall k :: k in s.table && s.table[k].status.Code() >= 3 ==> s'.table[k] == s.table[k])
    && (forall k :: k in s'.table && s'.table[k].status.Code() >= 4 ==> k in s.table && s'.table[k] == s.table[k])
    && OwedAndPaid(s') == OwedAndPaid(s)
    && SameLosses(s.book, s'.book)
  }

  /** No bonus write was lost in between. */
  ghost predicate SameLosses(book: Book, book': Book) {
    forall k :: Acct(book', k).bonusLost == Acct(book, k).bonusLost
  }

  lemma {:induction false} PaymentLosesNothing(book: Book, batch: seq<Weighted<Req>>)
    ensures SameLosses(book, PayInitial(book, batch)) && SameLosses(book, PayBonus(book, batch))
    decreases |batch|
  {
    if batch != [] {
      PaymentLosesNothing(book, batch[..|batch| - 1]);
    }
  }

  /** Only a bonus write can be lost as one. */
  lemma {:induction false} OthersLoseNothing(book: Book, q: seq<Stmt>)
    requires forall i :: 0 <= i < |q| ==> !q[i].UpdateAfterBonus?
    ensures SameLosses(book, Lose(book, q))
    decreases |q|
  {
    if q != [] {
      OthersLoseNothing(LoseOne(book, q[0]), q[1..]);
    }
  }

  lemma BonusRowsKept(t: Table, t': Table, mover: Actor)
    requires RowStepsOk(t, t', mover) && mover in {TheScheduler, TheReset, Nobody}
    requires forall k :: k in t' && k !in t ==> t'[k].status.Code() < 1
    ensures forall k :: k in t && t[k].status.Code() >= 3 ==> t'[k] == t[k]
    ensures forall k :: k in t' && t'[k].status.Code() >= 4 ==> k in t && t'[k] == t[k]
  {
    forall k | k in t ensures t[k].status.Code() >= 3 || t'[k].status.Code() >= 4 ==> t'[k] == t[k] {
      assert RowStepOk(t[k], t'[k], mover);
    }
  }

  lemma QueueNotBonus(c: Config, s: Sys)
    requires Inv(c, s)
    ensures forall i :: 0 <= i < |SchedQueue(s)| ==> !SchedQueue(s)[i].UpdateAfterBonus?
  {
    forall i | 0 <= i < |SchedQueue(s)| ensures !SchedQueue(s)[i].UpdateAfterBonus? {
      assert Writer(SchedQueue(s)[i]) == TheScheduler;
    }
  }

  lemma OtherLosses(c: Config, s: Sys, step: Step)
    requires Inv(c, s) && Enabled(c, s, step) && !IsBonusStep(step)
    ensures SameLosses(s.book, BookAfter(c, s, step))
  {
    QueueNotBonus(c, s);
    BookLosses(c, s, step);
  }

  lemma BookLosses(c: Config, s: Sys, step: Step)
    requires forall i :: 0 <= i < |SchedQueue(s)| ==> !SchedQueue(s)[i].UpdateAfterBonus?
    requires Enabled(c, s, step) && !IsBonusStep(step)
    ensures SameLosses(s.book, BookAfter(c, s, step))
  {
    match step
    case SchedPayFirst => PaymentLosesNothing(s.book, PaidBy(s, step));
    case SchedPaySecond => PaymentLosesNothing(s.book, PaidBy(s, step));
    case SchedCrash => OthersLoseNothing(s.book, SchedQueue(s));
    case SchedExec(_, _) => LoseOneAcct(s.book, SchedQueue(s)[0]);
    case _ =>
  }

  lemma OtherBonusQueues(c: Config, s: Sys, step: Step)
    requires Enabled(c, s, step) && !IsBonusStep(step)
    ensures var s' := Apply(c, s, step);
            s'.disp == s.disp && s'.dispIssued == s.dispIssued && s'.calcIssued == s.calcIssued
  {
    hide Enabled, Apply;
    if IsSchedulerStep(step) {
      SchedulerFrame(c, s, step);
    } else {
      OtherFrame(c, s, step);
    }
  }

  lemma OutsideBonusStep(c: Config, s: Sys, step: Step)
    requires Inv(c, s) && Enabled(c, s, step) && Outside(TheDisbursal, step)
    ensures BonusQuiet(s, Apply(c, s, step))
  {
    MovesLegal(c, s, step);
    NewRows(c, s, step);
    AfterStep(c, s, step);
    StepBalance(c, s, step);
    OtherLosses(c, s, step);
    OtherBonusQueues(c, s, step);
    BonusRowsKept(s.table, TableAfter(c, s, step), MoverOf(step));
  }

  lemma BonusQuietTrans(s: Sys, s': Sys, s'': Sys)
    requires BonusQuiet(s, s') && BonusQuiet(s', s'')
    ensures BonusQuiet(s, s'')
  {
  }

  /** What the reset can count on: its snapshot's rows stay as they are; others move on, but never back. */
  ghost predicate ResetQuiet(s: Sys, s': Sys) {
    && s'.reset == s.reset
    && RowsLater(s.table, s'.table)
    && (forall k :: k in s.table && s.table[k].status == Invalid ==> s'.table[k] == s.table[k])
  }

  lemma InvalidRowsKept(t: Table, t': Table, mover: Actor)
    requires RowStepsOk(t, t', mover)
    ensures RowsLater(t, t')
    ensures mover != TheReset ==> forall k :: k in t && t[k].status == Invalid ==> t'[k] == t[k]
  {
    forall k | k in t ensures Later(t[k], t'[k]) {
      MoveLater(t[k], t'[k], mover);
    }
  }

  lemma OutsideResetStep(c: Config, s: Sys, step: Step)
    requires Inv(c, s) && Enabled(c, s, step) && Outside(TheReset, step)
    ensures ResetQuiet(s, Apply(c, s, step))
  {
    NonInterference(c, s, step);
    InvalidRowsKept(s.table, Apply(c, s, step).table, MoverOf(step));
    SnapshotKept(c, s, step);
  }

  lemma ResetQuietTrans(s: Sys, s': Sys, s'': Sys)
    requires ResetQuiet(s, s') && ResetQuiet(s', s'')
    ensures ResetQuiet(s, s'')
  {
    RowsLaterTrans(s.table, s'.table, s''.table);
  }

  lemma SnapshotKept(c: Config, s: Sys, step: Step)
    requires Enabled(c, s, step) && Outside(TheReset, step)
    ensures Apply(c, s, step).reset == s.reset
  {
    hide Enabled, Apply;
    if IsSchedulerStep(step) {
      SchedulerFrame(c, s, step);
    } else {
      OtherFrame(c, s, step);
    }
  }

  class Deployment {
    const c: Config
    const db: DB.RequestTable
    const token: T.DockToken
    ghost const start: Sys
    var s: Sys
    ghost var trace: seq<Step>

    /** The state is what the trace leads to from a fresh start, and the two objects hold their parts of it. */
    ghost predicate Valid()
      reads this, db, token
    {
      && IsStart(c, start) && IsRun(c, start, trace) && s == Play(c, start, trace)
      && db.rows == s.table && token.State() == s.eth.token
    }

    constructor (config: Config, contract: T.DockToken, height: nat)
      requires contract.Valid() && contract.self == config.token
      ensures Valid() && s == Start(contract.State(), height) && trace == [] && token == contract && fresh(db)
    {
      var t := E.Token(contract.self, contract.owner, contract.adminAddr, contract.tokenOfferingAddr,
                       contract.transferEnabled, contract.balances, contract.allowed);
      c, s, trace := config, Start(t, height), [];
      token := contract;
      db := new DB.RequestTable();
      start := Start(t, height);
    }

    /** Everything proved of runs holds of the object. */
    lemma Invariant()
      requires Valid()
      ensures Inv(c, s)
    {
      ReachableInv(c, start, trace);
    }

    /** Since any earlier point of the trace, rows only moved on and the chain only grew. */
    lemma Since(earlier: seq<Step>)
      requires Valid() && earlier <= trace
      ensures IsRun(c, start, earlier)
      ensures RowsLater(Play(c, start, earlier).table, s.table) && EthGrows(Play(c, start, earlier).eth, s.eth)
      ensures Play(c, start, earlier).log <= s.log
    {
      RunSplits(c, start, trace, |earlier|);
      assert trace[..|earlier|] == earlier;
      ReachableInv(c, start, earlier);
      NoWayBack(c, Play(c, start, earlier), trace[|earlier|..]);
      ChainGrows(c, Play(c, start, earlier), trace[|earlier|..]);
    }

    /** The database's part of a step. */
    method RunStatements(step: Step)
      requires Enabled(c, s, step) && db.rows == s.table
      modifies db
      ensures db.rows == TableAfter(c, s, step)
    {
      match step
      case Track(k, mainnet, vesting) => var r := db.TrackNewRequest(c.blacklist, mainnet, k.addr, k.hash, vesting);
      case ResetCommit => db.RunAll(ResetStmts(s.reset.value));
      case SchedExec(applied, _) => if applied { db.Run(SchedQueue(s)[0]); }
      case CalcExec(applied) => if applied { db.Run(s.calcIssued[0]); }
      case DispExec(applied) => if applied { db.Run(s.dispIssued[0]); }
      case _ =>
    }

    /** The token contract's part of a step. */
    method RunTransaction(step: Step)
      requires token.State() == s.eth.token
      modifies token
      ensures token.State() == TokenAfter(s, step)
    {
      if step.Mine? {
        var record := token.Submit(step.tx);
      }
    }

    method Do(step: Step)
      requires Valid() && Enabled(c, s, step)
      modifies this, db, token
      ensures Valid() && s == Apply(c, old(s), step) && trace == old(trace) + [step]
    {
      hide Enabled, Apply, TableAfter, TokenAfter;
      PlayAppend(c, start, trace, step);
      AfterStep(c, s, step);
      StepToken(c, s, step);
      RunStatements(step);
      RunTransaction(step);
      s := Apply(c, s, step);
      trace := trace + [step];
    }

    method StepBesideScheduler(step: Step)
      requires Valid() && Enabled(c, s, step) && Outside(TheScheduler, step)
      modifies this, db, token
      ensures s == Apply(c, old(s), step)
      ensures Valid() && old(trace) <= trace && QuietChange(old(s), s) && WritesLand(old(s), s)
    {
      Invariant();
      OutsideStep(c, s, step);
      StepWritesLand(c, s, step);
      Do(step);
    }

    /** An await: any number of steps of everybody else. */
    method Interleave(smooth: bool)
      modifies this, db, token
      requires Valid()
      ensures smooth && !old(s).failed ==> !s.failed
      ensures Valid() && old(trace) <= trace && QuietChange(old(s), s) && WritesLand(old(s), s)
    {
      var script: seq<Step> := *;
      for i := 0 to |script|
        invariant Valid() && old(trace) <= trace && QuietChange(old(s), s) && WritesLand(old(s), s)
        invariant smooth && !old(s).failed ==> !s.failed
      {
        if Outside(TheScheduler, script[i]) && Enabled(c, s, script[i]) && (smooth ==> GoesWell(script[i])) {
          ghost var before := s;
          if smooth && !s.failed {
            SmoothStep(c, s, script[i]);
          }
          StepBesideScheduler(script[i]);
          WritesLandTrans(old(s), before, s);
        }
      }
    }

    method StepBesideBonus(step: Step)
      requires Valid() && Enabled(c, s, step) && Outside(TheDisbursal, step)
      modifies this, db, token
      ensures Valid() && old(trace) <= trace && BonusQuiet(old(s), s)
    {
      Invariant();
      OutsideBonusStep(c, s, step);
      Do(step);
    }

    /** The same while the bonus script waits. */
    method InterleaveBonus()
      modifies this, db, token
      requires Valid()
      ensures Valid() && old(trace) <= trace && BonusQuiet(old(s), s)
    {
      var script: seq<Step> := *;
      for i := 0 to |script|
        invariant Valid() && old(trace) <= trace && BonusQuiet(old(s), s)
      {
        if Outside(TheDisbursal, script[i]) && Enabled(c, s, script[i]) {
          ghost var before := s;
          StepBesideBonus(script[i]);
          BonusQuietTrans(old(s), before, s);
        }
      }
    }

    method StepBesideReset(step: Step)
      requires Valid() && Enabled(c, s, step) && Outside(TheReset, step)
      modifies this, db, token
      ensures Valid() && old(trace) <= trace && ResetQuiet(old(s), s)
    {
      Invariant();
      OutsideResetStep(c, s, step);
      Do(step);
    }

    /** The same while the reset waits. */
    method InterleaveReset()
      modifies this, db, token
      requires Valid()
      ensures Valid() && old(trace) <= trace && ResetQuiet(old(s), s)
    {
      var script: seq<Step> := *;
      for i := 0 to |script|
        invariant Valid() && old(trace) <= trace && ResetQuiet(old(s), s)
      {
        if Outside(TheReset, script[i]) && Enabled(c, s, script[i]) {
          ghost var before := s;
          StepBesideReset(script[i]);
          ResetQuietTrans(old(s), before, s);
        }
      }
    }

    /** The database answers the oldest statement of the scheduler's client, one way or another. */
    method RunOldest(smooth: bool)
      requires Valid() && SchedQueue(s) != []
      modifies this, db, token
      ensures smooth && !old(s).failed ==> !s.failed
      ensures Valid() && old(trace) <= trace && QuietChange(old(s), s) && WritesLand(old(s), s)
      ensures |SchedQueue(s)| < |SchedQueue(old(s))|
    {
      var applied := Attempt(smooth);
      var reported := Attempt(smooth);
      var step := SchedExec(applied, applied && reported);
      ExecQuiet(s, applied, applied && reported);
      StepBesideScheduler(step);
    }

    /** A SELECT takes its turn behind the client's pending statements. */
    method AwaitTurn()
      requires Valid()
      modifies this, db, token
      ensures Valid() && old(trace) <= trace && QuietChange(old(s), s) && SchedQueue(s) == []
    {
      Interleave(false);
      while SchedQueue(s) != []
        invariant Valid() && old(trace) <= trace && QuietChange(old(s), s)
        decreases |SchedQueue(s)|
      {
        RunOldest(false);
      }
    }

    /** await Promise.all(writes): all fulfilled, or rejected as soon as one is. */
    method AwaitWrites(smooth: bool) returns (ok: bool)
      requires Valid()
      modifies this, db, token
      ensures Valid() && old(trace) <= trace && QuietChange(old(s), s)
      ensures if ok then s.issued == [] && !s.failed else s.failed
      ensures smooth && !old(s).failed ==> ok
      ensures ok ==> forall st :: st in old(s).issued ==> Landed(s, |old(s).log|, st)
    {
      Interleave(smooth);
      while s.issued != [] && !s.failed
        invariant Valid() && old(trace) <= trace && QuietChange(old(s), s) && WritesLand(old(s), s)
        invariant smooth && !old(s).failed ==> !s.failed
        decreases |SchedQueue(s)|
      {
        ghost var before := s;
        RunOldest(smooth);
        WritesLandTrans(old(s), before, s);
      }
      ok := !s.failed;
    }
  }
}
