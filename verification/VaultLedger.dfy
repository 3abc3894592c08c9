/** The deposits the receipts speak of are those of the token's own ledger: they explain the vault's balance. */
module VaultLedger {
  import opened Wrappers
  import opened Sums
  import opened Requests
  import opened Amounts
  import opened Receipts
  import opened Pipeline
  import opened PipelineInvariant
  import opened PipelineSteps
  import opened PipelineFrame
  import opened PipelineSafety
  import opened PipelineLedger
  import E = Erc20

  /** Token units that a list of logs moves out of the vault. */
  function VaultSpending(c: Config, logs: seq<Log>): nat {
    if logs == [] then 0
    else
      var l := logs[|logs| - 1];
      VaultSpending(c, logs[..|logs| - 1])
      + (if l.event == Event.Transfer && l.topic1 == Some(c.vault) && l.data.Some? then l.data.value else 0)
  }

  lemma LastLog(c: Config, logs: seq<Log>, l: Log)
    ensures VaultValue(c, logs + [l])
         == VaultValue(c, logs) + (if l.event == Event.Transfer && l.topic2 == Some(c.vault) && l.data.Some? then l.data.value else 0)
    ensures VaultSpending(c, logs + [l])
         == VaultSpending(c, logs) + (if l.event == Event.Transfer && l.topic1 == Some(c.vault) && l.data.Some? then l.data.value else 0)
  {
    assert (logs + [l])[..|logs + [l]| - 1] == logs;
  }

  /** t' is t after some calls with these logs, as far as the vault is concerned. */
  predicate VaultExplained(c: Config, t: E.Token, logs: seq<Log>, t': E.Token) {
    E.Balance(t', c.vault) + VaultSpending(c, logs) == E.Balance(t, c.vault) + VaultValue(c, logs)
  }

  /** One call: only its Transfer log, if it has one, moves the vault's balance, and by exactly the value it names. */
  lemma CallExplained(c: Config, t: E.Token, logs: seq<Log>, t': E.Token, sender: Address, call: E.Call)
    requires E.SupplyOk(t') && VaultExplained(c, t, logs, t') && E.Execute(t', sender, call).Done?
    ensures VaultExplained(c, t, logs + [E.Execute(t', sender, call).log], E.Execute(t', sender, call).token)
  {
    hide E.Move;
    var done := E.Execute(t', sender, call);
    LastLog(c, logs, done.log);
    match call
    case DoTransfer(to, value) => E.TransferExact(t', sender, to, value);
    case DoTransferFrom(from, to, value) => E.TransferFromExact(t', sender, from, to, value);
    case _ =>
  }

  lemma {:induction false} RelayExplained(c: Config, t: E.Token, calls: seq<(Address, E.Call)>)
    requires E.SupplyOk(t)
    ensures VaultExplained(c, t, E.Relay(t, calls).1, E.Relay(t, calls).0)
    decreases |calls|
  {
    if calls != [] {
      var n := |calls| - 1;
      RelayExplained(c, t, calls[..n]);
      E.RelayKeepsSupply(t, calls[..n]);
      var (t', logs) := E.Relay(t, calls[..n]);
      if E.Execute(t', calls[n].0, calls[n].1).Done? {
        CallExplained(c, t, logs, t', calls[n].0, calls[n].1);
      }
    }
  }

  lemma MineExplained(c: Config, t: E.Token, tx: E.Tx)
    requires E.SupplyOk(t)
    ensures VaultExplained(c, t, E.Mine(t, tx).1.logs, E.Mine(t, tx).0)
  {
    match tx
    case Direct(sender, call) =>
      if E.Execute(t, sender, call).Done? {
        CallExplained(c, t, [], t, sender, call);
        assert [] + [E.Execute(t, sender, call).log] == [E.Execute(t, sender, call).log];
      }
    case Relayed(_, calls) => RelayExplained(c, t, calls);
  }

  // ---- Over runs ----

  function WithdrawalsByHash(c: Config, eth: Eth): map<Hash, nat> {
    map h | h in eth.mined :: VaultSpending(c, eth.mined[h].logs)
  }

  /** Everything ever transferred out of the vault, over all mined transactions. */
  ghost function VaultWithdrawals(c: Config, eth: Eth): nat {
    MapSum(WithdrawalsByHash(c, eth))
  }

  /** The vault's balance, against what the mined transactions moved in and out since it was `opening`. */
  ghost predicate VaultBalanced(c: Config, eth: Eth, opening: nat) {
    E.Balance(eth.token, c.vault) + VaultWithdrawals(c, eth) == opening + VaultDeposits(c, eth)
  }

  lemma MinedBalanced(c: Config, s: Sys, h: Hash, tx: E.Tx, opening: nat)
    requires E.SupplyOk(s.eth.token) && h !in s.eth.mined && VaultBalanced(c, s.eth, opening)
    ensures VaultBalanced(c, DoMine(s, h, tx).eth, opening)
  {
    hide E.Mine, MapSum, VaultValue, VaultSpending;
    var eth, eth' := s.eth, DoMine(s, h, tx).eth;
    var logs := E.Mine(eth.token, tx).1.logs;
    MineExplained(c, eth.token, tx);
    MapSumUpdate(DepositsByHash(c, eth), h, VaultValue(c, logs));
    assert DepositsByHash(c, eth') == DepositsByHash(c, eth)[h := VaultValue(c, logs)];
    MapSumUpdate(WithdrawalsByHash(c, eth), h, VaultSpending(c, logs));
    assert WithdrawalsByHash(c, eth') == WithdrawalsByHash(c, eth)[h := VaultSpending(c, logs)];
  }

  /** Only mining changes the token, and only it adds transactions. */
  lemma EthUnmined(c: Config, s: Sys, step: Step)
    requires Enabled(c, s, step) && !step.Mine?
    ensures Apply(c, s, step).eth.mined == s.eth.mined && Apply(c, s, step).eth.token == s.eth.token
  {
    if IsSchedulerStep(step) {
      hide Enabled, Apply;
      SchedulerFrame(c, s, step);
    } else if IsBonusStep(step) {
      hide Enabled, Apply;
      BonusFrame(c, s, step);
    } else {
      hide IsInvalidSelect, Drain;
    }
  }

  lemma StepBalanced(c: Config, s: Sys, step: Step, opening: nat)
    requires E.SupplyOk(s.eth.token) && Enabled(c, s, step) && VaultBalanced(c, s.eth, opening)
    ensures VaultBalanced(c, Apply(c, s, step).eth, opening)
  {
    hide VaultBalanced, E.SupplyOk;
    if step.Mine? {
      MinedBalanced(c, s, step.hash, step.tx, opening);
    } else {
      hide Enabled, Apply;
      EthUnmined(c, s, step);
      SameBalanced(c, s.eth, Apply(c, s, step).eth, opening);
    }
  }

  lemma SameBalanced(c: Config, eth: Eth, eth': Eth, opening: nat)
    requires VaultBalanced(c, eth, opening) && eth'.mined == eth.mined && eth'.token == eth.token
    ensures VaultBalanced(c, eth', opening)
  {
    assert DepositsByHash(c, eth') == DepositsByHash(c, eth);
    assert WithdrawalsByHash(c, eth') == WithdrawalsByHash(c, eth);
  }

  lemma {:induction false} RunBalanced(c: Config, s: Sys, steps: seq<Step>, opening: nat)
    requires Inv(c, s) && IsRun(c, s, steps) && VaultBalanced(c, s.eth, opening)
    ensures VaultBalanced(c, Play(c, s, steps).eth, opening)
    decreases |steps|
  {
    hide Inv, Apply, Enabled, VaultBalanced, E.SupplyOk;
    if steps != [] {
      SupplyHere(c, s);
      StepBalanced(c, s, steps[0], opening);
      StepInv(c, s, steps[0]);
      RunBalanced(c, Apply(c, s, steps[0]), steps[1..], opening);
    }
  }

  lemma SupplyHere(c: Config, s: Sys)
    requires Inv(c, s)
    ensures E.SupplyOk(s.eth.token)
  {
  }

  /**
    Over every run, what the model counts as deposits and withdrawals is what the token's ledger did to the vault:
    its balance is the opening one plus the deposits less the withdrawals.
   */
  lemma DepositsExplainBalance(c: Config, s: Sys, steps: seq<Step>)
    requires IsStart(c, s) && IsRun(c, s, steps)
    ensures var e := Play(c, s, steps);
            E.Balance(e.eth.token, c.vault) + VaultWithdrawals(c, e.eth) == E.Balance(s.eth.token, c.vault) + VaultDeposits(c, e.eth)
  {
    var token, height :| s == Start(token, height) && E.SupplyOk(token) && token.self == c.token;
    hide IsRun, Play;
    StartInv(c, token, height);
    assert DepositsByHash(c, s.eth) == map[] && WithdrawalsByHash(c, s.eth) == map[];
    RunBalanced(c, s, steps, E.Balance(token, c.vault));
  }

  // ---- Records ----

  /** Step i mined the transaction h, and its record is what the token made of it then. */
  ghost predicate MinedBy(c: Config, s: Sys, steps: seq<Step>, i: nat, h: Hash, record: TxRecord)
    requires IsRun(c, s, steps)
  {
    && i < |steps| && steps[i].Mine? && steps[i].hash == h
    && IsRun(c, s, steps[..i]) && record == E.Mine(Play(c, s, steps[..i]).eth.token, steps[i].tx).1
  }

  lemma MinedNow(c: Config, s: Sys, step: Step, h: Hash)
    requires Enabled(c, s, step)
    ensures h in s.eth.mined ==> h in Apply(c, s, step).eth.mined && Apply(c, s, step).eth.mined[h] == s.eth.mined[h]
    ensures h in Apply(c, s, step).eth.mined && h !in s.eth.mined ==>
              step.Mine? && step.hash == h && Apply(c, s, step).eth.mined[h] == E.Mine(s.eth.token, step.tx).1
  {
    if !step.Mine? {
      hide Enabled, Apply;
      EthUnmined(c, s, step);
    }
  }

  lemma MinedLater(c: Config, s: Sys, steps: seq<Step>, i: nat, h: Hash, record: TxRecord)
    requires steps != [] && IsRun(c, s, steps) && MinedBy(c, Apply(c, s, steps[0]), steps[1..], i, h, record)
    ensures MinedBy(c, s, steps, i + 1, h, record)
  {
    hide Enabled, Apply, E.Mine;
    assert steps[..i + 1][0] == steps[0] && steps[..i + 1][1..] == steps[1..][..i];
  }

  /**
    Over every run, each receipt a node can show is that of the one transaction mined under its hash, as the token
    executed it at that point.
   */
  lemma {:induction false} RecordOfItsTransaction(c: Config, s: Sys, steps: seq<Step>, h: Hash)
    requires IsRun(c, s, steps) && h in Play(c, s, steps).eth.mined
    ensures || (h in s.eth.mined && Play(c, s, steps).eth.mined[h] == s.eth.mined[h])
            || (h !in s.eth.mined && exists i: nat :: MinedBy(c, s, steps, i, h, Play(c, s, steps).eth.mined[h]))
    decreases |steps|
  {
    hide Enabled, Apply, E.Mine;
    if steps != [] {
      var s' := Apply(c, s, steps[0]);
      var record := Play(c, s, steps).eth.mined[h];
      MinedNow(c, s, steps[0], h);
      RecordOfItsTransaction(c, s', steps[1..], h);
      if h !in s'.eth.mined {
        var i: nat :| MinedBy(c, s', steps[1..], i, h, record);
        MinedLater(c, s, steps, i, h, record);
      } else if h !in s.eth.mined {
        assert steps[..0] == [];
        assert MinedBy(c, s, steps, 0, h, record);
      }
    }
  }
}
