/** Whose request a row is, and who gets its payments: fixed by the one insertion that created it. */
module PipelineOwners {
  import opened Wrappers
  import opened Sums
  import opened Requests
  import opened Amounts
  import opened Receipts
  import opened Greedy
  import opened Pipeline
  import opened PipelineInvariant
  import opened PipelineSteps
  import opened PipelineSafety
  import E = Erc20

  /** The row names the account and the vesting choice of step i, which inserted it. */
  predicate InsertedBy(steps: seq<Step>, i: nat, k: Key, r: Row) {
    i < |steps| && steps[i].Track? && steps[i].key == k && steps[i].mainnet == r.mainnet && steps[i].vesting == r.vesting
  }

  lemma NewKeysTracked(c: Config, s: Sys, step: Step, k: Key)
    requires Inv(c, s) && Enabled(c, s, step) && k in Apply(c, s, step).table
    ensures k in s.table ==>
              && Apply(c, s, step).table[k].mainnet == s.table[k].mainnet
              && Apply(c, s, step).table[k].vesting == s.table[k].vesting
    ensures k !in s.table ==>
              InsertedBy([step], 0, k, Apply(c, s, step).table[k])
  {
    if k in s.table {
      hide Inv, Apply, Enabled, Owner, LegalMove;
      NonInterference(c, s, step);
      assert RowStepOk(s.table[k], Apply(c, s, step).table[k], MoverOf(step));
    } else {
      OnlyTrackInserts(c, s, step, k);
    }
  }

  lemma OnlyTrackInserts(c: Config, s: Sys, step: Step, k: Key)
    requires Enabled(c, s, step) && k !in s.table && k in Apply(c, s, step).table
    ensures InsertedBy([step], 0, k, Apply(c, s, step).table[k])
  {
    if IsSchedulerStep(step) {
      hide Enabled, Apply;
      ApplySchedulerTable(c, s, step);
    } else {
      hide Enabled, Apply;
      ApplyOtherTable(c, s, step);
      if step.ResetCommit? {
        ResetKeys(c, s);
      }
    }
  }

  lemma ResetKeys(c: Config, s: Sys)
    requires Enabled(c, s, ResetCommit)
    ensures TableAfter(c, s, ResetCommit).Keys == s.table.Keys
  {
    DrainKeys(ResetStmts(s.reset.value), s.table);
  }

  lemma {:induction false} RunInserts(c: Config, s: Sys, steps: seq<Step>, k: Key)
    requires Inv(c, s) && IsRun(c, s, steps) && k in Play(c, s, steps).table
    ensures var r := Play(c, s, steps).table[k];
            || (k in s.table && r.mainnet == s.table[k].mainnet && r.vesting == s.table[k].vesting)
            || (k !in s.table && exists i: nat :: InsertedBy(steps, i, k, r))
    decreases |steps|
  {
    hide Inv, Apply, Enabled;
    if steps != [] {
      var s' := Apply(c, s, steps[0]);
      var r := Play(c, s, steps).table[k];
      StepInv(c, s, steps[0]);
      RunInserts(c, s', steps[1..], k);
      if k in s'.table {
        NewKeysTracked(c, s, steps[0], k);
        if k !in s.table {
          assert InsertedBy(steps, 0, k, r);
        }
      } else {
        var i: nat :| InsertedBy(steps[1..], i, k, r);
        assert InsertedBy(steps, i + 1, k, r);
        StillThere(c, s, steps[0], k);
      }
    }
  }

  lemma StillThere(c: Config, s: Sys, step: Step, k: Key)
    requires Inv(c, s) && Enabled(c, s, step)
    ensures k in s.table ==> k in Apply(c, s, step).table
  {
    hide Inv, Apply, Enabled, Later;
    StepRowsLater(c, s, step);
  }

  lemma TrackIsNew(c: Config, s: Sys, step: Step)
    requires Enabled(c, s, step)
    ensures step.Track? ==> step.key !in s.table && step.key in Apply(c, s, step).table
  {
  }

  /** A key that is there cannot be inserted again. */
  lemma {:induction false} NoSecondTrack(c: Config, s: Sys, steps: seq<Step>, k: Key, i: nat)
    requires Inv(c, s) && IsRun(c, s, steps) && k in s.table && i < |steps|
    ensures !(steps[i].Track? && steps[i].key == k)
    decreases |steps|
  {
    hide Inv, Apply, Enabled;
    if i == 0 {
      TrackIsNew(c, s, steps[0]);
    } else {
      StepInv(c, s, steps[0]);
      StillThere(c, s, steps[0], k);
      NoSecondTrack(c, Apply(c, s, steps[0]), steps[1..], k, i - 1);
    }
  }

  lemma {:induction false} OneTrack(c: Config, s: Sys, steps: seq<Step>, i: nat, j: nat)
    requires Inv(c, s) && IsRun(c, s, steps) && i < j < |steps| && steps[i].Track? && steps[j].Track?
    ensures steps[i].key != steps[j].key
    decreases |steps|
  {
    hide Inv, Apply, Enabled;
    StepInv(c, s, steps[0]);
    if i == 0 {
      TrackIsNew(c, s, steps[0]);
      NoSecondTrack(c, Apply(c, s, steps[0]), steps[1..], steps[0].key, j - 1);
    } else {
      OneTrack(c, Apply(c, s, steps[0]), steps[1..], i - 1, j - 1);
    }
  }

  /**
    In every reachable state each row was inserted by exactly one request, and it still names the account and the
    vesting choice of that request.
   */
  lemma RowOfItsRequest(c: Config, s: Sys, steps: seq<Step>, k: Key)
    requires IsStart(c, s) && IsRun(c, s, steps) && k in Play(c, s, steps).table
    ensures exists i: nat :: InsertedBy(steps, i, k, Play(c, s, steps).table[k])
    ensures forall i, j :: 0 <= i < j < |steps| && steps[i].Track? && steps[j].Track? ==> steps[i].key != steps[j].key
  {
    hide IsRun, Play, Inv, InsertedBy;
    StartOwnsNothing(c, s);
    RunInserts(c, s, steps, k);
    forall i, j | 0 <= i < j < |steps| && steps[i].Track? && steps[j].Track? ensures steps[i].key != steps[j].key {
      OneTrack(c, s, steps, i, j);
    }
  }

  lemma StartOwnsNothing(c: Config, s: Sys)
    requires IsStart(c, s)
    ensures Inv(c, s) && s.table == map[]
  {
    var token, height :| s == Start(token, height) && E.SupplyOk(token) && token.self == c.token;
    StartInv(c, token, height);
  }

  /**
    Over every run, each payment the Dock chain ever made for a row, initial or bonus, repeated or not, went to the
    account its request named when it was inserted.
   */
  lemma PaidToRequester(c: Config, s: Sys, steps: seq<Step>, k: Key, i: nat)
    requires IsStart(c, s) && IsRun(c, s, steps) && i < |steps| && steps[i].Track? && steps[i].key == k
    requires k in Play(c, s, steps).table
    ensures var a := Acct(Play(c, s, steps).book, k);
            && |a.payees| == |a.initial| + |a.bonus|
            && forall j :: 0 <= j < |a.payees| ==> a.payees[j] == steps[i].mainnet
  {
    hide IsRun, Play, Inv, IsStart;
    RowOfItsRequest(c, s, steps, k);
    var n: nat :| InsertedBy(steps, n, k, Play(c, s, steps).table[k]);
    ReachableInv(c, s, steps);
    OwnerPaid(c, Play(c, s, steps), k);
  }

  lemma OwnerPaid(c: Config, s: Sys, k: Key)
    requires Inv(c, s) && k in s.table
    ensures PaidToOwner(s.table[k], Acct(s.book, k))
  {
    hide QueueOk, ControlOk, ResetOk, DisbursalOk, RowsOk;
    assert AcctOk(s.table[k], Acct(s.book, k), k in PayingKeys(SchedQueue(s)), k in Keys(s.dispIssued));
  }
}
