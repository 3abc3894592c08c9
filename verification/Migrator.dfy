/** The code of src/migrations.js, src/scheduler.js and src/schedule_invalid.js. */
module Migrator {
  import opened Wrappers
  import opened Sums
  import opened Requests
  import opened Amounts
  import opened Receipts
  import opened Greedy
  import opened Pipeline
  import opened PipelineInvariant
  import opened PipelineSteps
  import opened PipelineSafety
  import opened PipelineLedger
  import opened RequestTable
  import opened Deployment
  import E = Erc20

  // ---- Pure parts of a run ----

  /** reqByStatus: one pass over the requests, pushing each to its group. */
  method GroupByStatus(requests: seq<Req>) returns (sigValid: seq<Req>, parsed: seq<Req>, confirmed: seq<Req>)
    ensures sigValid == WithStatus(requests, SigValid)
    ensures parsed == WithStatus(requests, TxnParsed)
    ensures confirmed == WithStatus(requests, TxnConfirmed)
  {
    sigValid, parsed, confirmed := [], [], [];
    for i := 0 to |requests|
      invariant sigValid == WithStatus(requests[..i], SigValid)
      invariant parsed == WithStatus(requests[..i], TxnParsed)
      invariant confirmed == WithStatus(requests[..i], TxnConfirmed)
    {
      var r := requests[i];
      assert requests[..i + 1][..i] == requests[..i];
      if r.row.status == SigValid {
        sigValid := sigValid + [r];
      } else if r.row.status == TxnParsed {
        parsed := parsed + [r];
      } else if r.row.status == TxnConfirmed {
        confirmed := confirmed + [r];
      }
    }
    assert requests[..|requests|] == requests;
  }

  /** The selection half of migrateConfirmedRequests: who is paid, and what it costs. */
  method SelectForMigration(dbReqs: seq<Req>, allowedMigrations: nat, balance: nat)
    returns (batch: seq<Weighted<Req>>, accum: nat)
    ensures batch == InitialBatch(dbReqs, allowedMigrations, balance) && accum == Cost(batch)
  {
    var confirmed: seq<Weighted<Req>> := [];
    for i := 0 to |dbReqs|
      invariant |confirmed| == i
      invariant forall j :: 0 <= j < i ==> confirmed[j] == Weighted(dbReqs[j], InitialDue(dbReqs[j].row))
    {
      confirmed := confirmed + [Weighted(dbReqs[i], InitialTokens(Deposited(dbReqs[i].row), dbReqs[i].row.vesting))];
    }
    assert confirmed == WeighInitial(dbReqs);
    batch, accum := SelectInPlace(confirmed, allowedMigrations, balance);
  }

  /** The forEach over SIG_VALID requests. */
  method JudgeSigValid(c: Config, reqs: seq<Req>, txns: seq<Fetched>, currentBlockNumber: nat)
    returns (writes: seq<Stmt>, confirmedReqs: seq<Req>)
    requires |reqs| <= |txns|
    ensures Judgement(writes, confirmedReqs, false) == JudgeNew(c, reqs, txns, currentBlockNumber)
  {
    writes, confirmedReqs := [], [];
    for i := 0 to |reqs|
      invariant Judgement(writes, confirmedReqs, false) == JudgeNew(c, reqs[..i], txns, currentBlockNumber)
    {
      assert reqs[..i + 1][..i] == reqs[..i];
      var req := reqs[i];
      if txns[i].Ok? && IsValidTransferFrom(txns[i].value, req.key.addr) {
        var txn := txns[i].value;
        if IsTxnConfirmedAsOf(c, txn, currentBlockNumber) {
          var updated := req.row.(status := TxnConfirmed);
          updated := updated.(erc20 := Some(txn.value));
          confirmedReqs := confirmedReqs + [Req(req.key, updated)];
          writes := writes + [MarkParsedAndConfirmed(req.key, txn.value, txn.block.value)];
        } else {
          writes := writes + [MarkParsed(req.key, txn.value)];
        }
      } else {
        writes := writes + [MarkInvalid(req.key)];
      }
    }
    assert reqs[..|reqs|] == reqs;
  }

  /** The forEach over TXN_PARSED requests; it throws on the first missing transaction. */
  method JudgeTxnParsed(c: Config, reqs: seq<Req>, txns: seq<Fetched>, txnListOffset: nat, currentBlockNumber: nat,
                        writes0: seq<Stmt>, confirmed0: seq<Req>)
    returns (writes: seq<Stmt>, confirmedReqs: seq<Req>, threw: bool)
    requires txnListOffset + |reqs| <= |txns|
    ensures Judgement(writes, confirmedReqs, threw)
         == JudgeParsed(c, Judgement(writes0, confirmed0, false), reqs, txns, txnListOffset, currentBlockNumber)
  {
    writes, confirmedReqs, threw := writes0, confirmed0, false;
    ghost var j0 := Judgement(writes0, confirmed0, false);
    var index := 0;
    while index < |reqs| && !threw
      invariant 0 <= index <= |reqs|
      invariant Judgement(writes, confirmedReqs, threw)
             == JudgeParsed(c, j0, reqs[..index], txns, txnListOffset, currentBlockNumber)
    {
      assert reqs[..index + 1][..index] == reqs[..index];
      match txns[txnListOffset + index] {
        case Err(_) =>
          threw := true;
        case Ok(txn) =>
          if IsTxnConfirmedAsOf(c, txn, currentBlockNumber) {
            confirmedReqs := confirmedReqs + [Req(reqs[index].key, reqs[index].row.(status := TxnConfirmed))];
            writes := writes + [MarkConfirmed(reqs[index].key, txn.block.value)];
          }
      }
      index := index + 1;
    }
    if threw {
      AbortedStays(c, j0, reqs, txns, txnListOffset, currentBlockNumber, index);
    } else {
      assert reqs[..index] == reqs;
    }
  }

  lemma {:induction false} AbortedStays(c: Config, j: Judgement, reqs: seq<Req>, txns: seq<Fetched>, offset: nat, height: nat, n: nat)
    requires n <= |reqs| && offset + |reqs| <= |txns|
    requires JudgeParsed(c, j, reqs[..n], txns, offset, height).aborted
    ensures JudgeParsed(c, j, reqs, txns, offset, height) == JudgeParsed(c, j, reqs[..n], txns, offset, height)
    decreases |reqs|
  {
    if n == |reqs| {
      assert reqs[..n] == reqs;
    } else {
      var m := |reqs| - 1;
      assert reqs[..m][..n] == reqs[..n];
      AbortedStays(c, j, reqs[..m], txns, offset, height, n);
    }
  }

  // ---- One run ----

  /** The point before a batch payment, with the code's local variables as the machine records them. */
  predicate AtPayment(s: Sys, dbReqs: seq<Req>, allowed: nat, balance: nat) {
    || (&& s.sched.AtFirstBatch? && dbReqs == WithStatus(s.sched.reqs, TxnConfirmed)
        && s.sched.budget.allowed == allowed && s.sched.budget.balance == balance)
    || (&& s.sched.Judged? && dbReqs == s.sched.confirmed && s.issued == [] && !s.failed
        && s.sched.budget.allowed == allowed && s.sched.budget.balance == balance)
  }

  function PaymentStep(s: Sys): Step {
    if s.sched.AtFirstBatch? then SchedPayFirst else SchedPaySecond
  }

  /** The scheduler right after that payment. */
  predicate JustPaid(before: Scheduler, after: Scheduler, batch: seq<Weighted<Req>>) {
    if before.AtFirstBatch? then
      && after.FirstSettling? && after.reqs == before.reqs
      && |batch| <= before.budget.allowed && Cost(batch) <= before.budget.balance
      && after.budget.allowed == before.budget.allowed - |batch|
      && after.budget.balance == before.budget.balance - Cost(batch)
    else after.SecondSettling?
  }

  lemma PaymentEffect(c: Config, s: Sys, dbReqs: seq<Req>, allowed: nat, balance: nat)
    requires AtPayment(s, dbReqs, allowed, balance) && InitialBatch(dbReqs, allowed, balance) != []
    ensures Enabled(c, s, PaymentStep(s))
    ensures var s' := Apply(c, s, PaymentStep(s));
            && JustPaid(s.sched, s'.sched, InitialBatch(dbReqs, allowed, balance))
            && TokensPaid(s'.book) == TokensPaid(s.book) + Cost(InitialBatch(dbReqs, allowed, balance))
            && RecipientsPaid(s'.book) == RecipientsPaid(s.book) + |InitialBatch(dbReqs, allowed, balance)|
            && s'.issued == InitialDoneStmts(InitialBatch(dbReqs, allowed, balance)) && !s'.failed && s'.log == s.log
  {
    StepTotals(c, s, PaymentStep(s));
  }

  datatype Failure = NobodyFits | Refused

  /**
    migrateConfirmedRequests: select, then one atomic transfer to all selected, or an exception and no transfer.
    `accum` is what was really paid, and never more than the balance passed in.
   */
  method MigrateConfirmedRequests(d: Deployment, env: Environment, dbReqs: seq<Req>, allowedMigrations: nat, balance: nat)
    returns (r: Result<(seq<Weighted<Req>>, nat), Failure>)
    requires d.Valid() && AtPayment(d.s, dbReqs, allowedMigrations, balance)
    modifies d, d.db, d.token
    ensures d.Valid() && old(d.trace) <= d.trace
    ensures r.Ok? ==>
              && r.value.0 == InitialBatch(dbReqs, allowedMigrations, balance)
              && |r.value.0| <= allowedMigrations && r.value.1 == Cost(r.value.0) <= balance
              && JustPaid(old(d.s).sched, d.s.sched, r.value.0)
              && TokensPaid(d.s.book) == TokensPaid(old(d.s).book) + r.value.1
              && RecipientsPaid(d.s.book) == RecipientsPaid(old(d.s).book) + |r.value.0|
              && d.s.issued == InitialDoneStmts(r.value.0) && !d.s.failed && old(d.s).log <= d.s.log
    ensures r.Err? ==> QuietChange(old(d.s), d.s)
    ensures r == Err(NobodyFits) ==> InitialBatch(dbReqs, allowedMigrations, balance) == []
    ensures env.smooth ==> r != Err(Refused)
  {
    hide IsRun, Play, IsStart;
    var batch, accum := SelectForMigration(dbReqs, allowedMigrations, balance);
    d.Interleave(env.smooth); // the alarm mails
    if |batch| == 0 {
      return Err(NobodyFits);
    }
    var sent := Attempt(env.smooth);
    if !sent && |batch| < |dbReqs| {
      return Err(Refused);
    }
    var accepted := Attempt(env.smooth);
    if !accepted {
      return Err(Refused);
    }
    var recipients: seq<Weighted<DockAddress>> :=
      seq(|batch|, i requires 0 <= i < |batch| => Weighted(batch[i].item.row.mainnet, batch[i].amount));
    assert AmountsOf(recipients) == AmountsOf(batch);
    Migrate(d, recipients, dbReqs, allowedMigrations, balance);
    r := Ok((batch, accum));
  }

  /** The chain call: each selected request's own account gets its amount, all of them or none. */
  method Migrate(d: Deployment, recipients: seq<Weighted<DockAddress>>, ghost dbReqs: seq<Req>, ghost allowed: nat, ghost balance: nat)
    requires d.Valid() && AtPayment(d.s, dbReqs, allowed, balance)
    requires var batch := InitialBatch(dbReqs, allowed, balance);
             && batch != [] && |recipients| == |batch|
             && forall i :: 0 <= i < |batch| ==> recipients[i] == Weighted(batch[i].item.row.mainnet, batch[i].amount)
    modifies d, d.db, d.token
    ensures d.Valid() && old(d.trace) <= d.trace
    ensures JustPaid(old(d.s).sched, d.s.sched, InitialBatch(dbReqs, allowed, balance))
    ensures TokensPaid(d.s.book) == TokensPaid(old(d.s).book) + Cost(recipients)
    ensures RecipientsPaid(d.s.book) == RecipientsPaid(old(d.s).book) + |recipients|
    ensures d.s.issued == InitialDoneStmts(InitialBatch(dbReqs, allowed, balance)) && !d.s.failed && d.s.log == old(d.s).log
  {
    hide IsRun, Play, IsStart, InitialBatch;
    assert AmountsOf(recipients) == AmountsOf(InitialBatch(dbReqs, allowed, balance));
    PaymentEffect(d.c, d.s, dbReqs, allowed, balance);
    d.Do(PaymentStep(d.s));
  }

  /** One fetch: a node may have nothing to say, or the fixed record under the block number it has for it. */
  method FetchReceipt(d: Deployment, env: Environment, hash: Hash) returns (answer: Option<Receipt>)
    requires d.Valid()
    modifies d, d.db, d.token
    ensures d.Valid() && old(d.trace) <= d.trace && QuietChange(old(d.s), d.s)
    ensures HonestAnswer(d.s.eth.mined, hash, answer)
    ensures answer.Some? ==> answer.value.block == env.blocks(hash)
    ensures env.smooth && hash in old(d.s).eth.mined ==> answer.Some?
  {
    hide IsRun, Play, IsStart;
    d.Interleave(env.smooth);
    var visible := Attempt(env.smooth);
    answer := if visible && hash in d.s.eth.mined then Some(Receipt(d.s.eth.mined[hash], env.blocks(hash))) else None;
  }

  /** Honest answers so far; in a smooth call, nothing that was mined when the fetching began is missing. */
  predicate Fetching(env: Environment, mined0: map<Hash, TxRecord>, eth: Eth, reqs: seq<Req>, answers: seq<Option<Receipt>>) {
    && |answers| <= |reqs|
    && (forall i :: 0 <= i < |answers| ==> HonestAnswer(eth.mined, reqs[i].key.hash, answers[i]))
    && (forall i :: 0 <= i < |answers| && answers[i].Some? ==> answers[i].value.block == env.blocks(reqs[i].key.hash))
    && (forall i :: 0 <= i < |answers| && env.smooth && reqs[i].key.hash in mined0 ==> answers[i].Some?)
  }

  lemma OneMoreFetched(env: Environment, mined0: map<Hash, TxRecord>, eth: Eth, eth': Eth, reqs: seq<Req>,
                       answers: seq<Option<Receipt>>, answer: Option<Receipt>)
    requires Fetching(env, mined0, eth, reqs, answers) && EthGrows(eth, eth') && |answers| < |reqs|
    requires forall h :: h in mined0 ==> h in eth.mined
    requires HonestAnswer(eth'.mined, reqs[|answers|].key.hash, answer)
    requires answer.Some? ==> answer.value.block == env.blocks(reqs[|answers|].key.hash)
    requires env.smooth && reqs[|answers|].key.hash in eth.mined ==> answer.Some?
    ensures Fetching(env, mined0, eth', reqs, answers + [answer])
  {
  }

  lemma StillFetching(env: Environment, before: Eth, before': Eth, eth: Eth, eth': Eth, reqs: seq<Req>, answers: seq<Option<Receipt>>)
    requires Fetching(env, before'.mined, eth, reqs, answers) && EthGrows(before, before') && EthGrows(eth, eth')
    ensures Fetching(env, before.mined, eth', reqs, answers)
  {
  }

  /** The fetches of all unconfirmed requests, in one list. */
  method FetchReceipts(d: Deployment, env: Environment, unconfirmedReqs: seq<Req>) returns (answers: seq<Option<Receipt>>)
    requires d.Valid()
    modifies d, d.db, d.token
    ensures d.Valid() && old(d.trace) <= d.trace && QuietChange(old(d.s), d.s)
    ensures |answers| == |unconfirmedReqs|
    ensures Fetching(env, old(d.s).eth.mined, d.s.eth, unconfirmedReqs, answers)
  {
    hide IsRun, Play, IsStart;
    answers := [];
    for i := 0 to |unconfirmedReqs|
      invariant d.Valid() && old(d.trace) <= d.trace && QuietChange(old(d.s), d.s)
      invariant |answers| == i && Fetching(env, old(d.s).eth.mined, d.s.eth, unconfirmedReqs, answers)
    {
      ghost var eth := d.s.eth;
      var answer := FetchReceipt(d, env, unconfirmedReqs[i].key.hash);
      OneMoreFetched(env, old(d.s).eth.mined, eth, d.s.eth, unconfirmedReqs, answers, answer);
      answers := answers + [answer];
    }
  }

  /** The run throws: its statements stay with the client, the next run queues behind them. */
  method Throw(d: Deployment)
    requires d.Valid() && !d.s.sched.Idle?
    modifies d, d.db, d.token
    ensures d.Valid() && old(d.trace) <= d.trace && d.s.sched.Idle?
    ensures d.s.book == old(d.s).book && d.s.table == old(d.s).table && d.s.eth == old(d.s).eth && d.s.log == old(d.s).log
  {
    hide IsRun, Play, IsStart;
    d.Do(SchedStop);
  }

  /** The totals moved by no more than the limits. */
  ghost predicate SpentWithin(b: Book, b': Book, allowed: nat, balance: nat) {
    && TokensPaid(b) <= TokensPaid(b') <= TokensPaid(b) + balance
    && RecipientsPaid(b) <= RecipientsPaid(b') <= RecipientsPaid(b) + allowed
  }

  // Each of these is one step of the pipeline, with what the code relies on afterwards.

  method SelectPending(d: Deployment) returns (requests: seq<Req>)
    requires d.Valid() && d.s.sched.Idle?
    modifies d, d.db, d.token
    ensures d.Valid() && old(d.trace) <= d.trace && d.s.sched == Ready(requests)
    ensures SpentWithin(old(d.s).book, d.s.book, 0, 0)
    ensures PendingRows(requests, d.s.table) && |old(d.trace)| < |d.trace|
  {
    hide IsRun, Play, IsStart;
    d.AwaitTurn();
    requests := d.db.GetPendingMigrationRequests();
    SelectIsPending(requests, d.s.table);
    d.Do(SchedSelect(requests));
  }

  method ReadLimits(d: Deployment, allowed: nat, balance: nat)
    requires d.Valid() && d.s.sched.Ready?
    modifies d, d.db, d.token
    ensures d.Valid() && old(d.trace) <= d.trace && d.s.book == old(d.s).book
    ensures d.s.sched == AtFirstBatch(old(d.s).sched.reqs, Budget(allowed, balance, allowed, balance, 0, 0))
  {
    hide IsRun, Play, IsStart;
    d.Do(SchedDetails(allowed, balance));
  }

  method FirstBatchSettled(d: Deployment)
    requires d.Valid() && d.s.sched.FirstSettling? && (d.s.issued == [] || d.s.failed)
    modifies d, d.db, d.token
    ensures d.Valid() && old(d.trace) <= d.trace && d.s.book == old(d.s).book
    ensures d.s.table == old(d.s).table && d.s.log == old(d.s).log
    ensures d.s.sched == AtFetch(old(d.s).sched.reqs, old(d.s).sched.budget)
  {
    hide IsRun, Play, IsStart;
    d.Do(SchedFirstSettled);
  }

  method SkipFirstBatch(d: Deployment)
    requires d.Valid() && d.s.sched.AtFirstBatch?
    modifies d, d.db, d.token
    ensures d.Valid() && old(d.trace) <= d.trace && d.s.book == old(d.s).book
    ensures d.s.sched == AtFetch(old(d.s).sched.reqs, old(d.s).sched.budget)
  {
    hide IsRun, Play, IsStart;
    d.Do(SchedSkipFirst);
  }

  /** Hands the statements of the two forEach loops to the client; a throw ends the run with them issued. */
  method IssueJudgement(d: Deployment, answers: seq<Option<Receipt>>, j: Judgement)
    requires d.Valid() && CanJudge(d.s, answers)
    requires j == Judge(d.c, d.s.sched.reqs, FetchAll(d.c, answers), d.s.eth.height)
    modifies d, d.db, d.token
    ensures d.Valid() && old(d.trace) <= d.trace && d.s.book == old(d.s).book
    ensures d.s.sched == if j.aborted then Idle else Judged(j.confirmed, old(d.s).sched.budget)
    ensures !j.aborted ==> d.s.issued == j.writes && !d.s.failed && d.s.eth == old(d.s).eth && d.s.log == old(d.s).log
  {
    hide IsRun, Play, IsStart;
    d.Do(SchedJudge(answers));
  }

  /** Every one of these statements took effect after the first `from` ones, and what it wrote still shows. */
  predicate AllLanded(s: Sys, from: nat, q: seq<Stmt>) {
    forall st :: st in q ==> Landed(s, from, st)
  }

  lemma LandedBefore(s: Sys, from: nat, from': nat, q: seq<Stmt>)
    requires from <= from' && AllLanded(s, from', q)
    ensures AllLanded(s, from, q)
  {
    hide Stays;
    forall st | st in q ensures Landed(s, from, st) {
      assert Landed(s, from', st);
      var i :| from' <= i < |s.log| && s.log[i] == st;
    }
  }

  /** The first part of a run: the batch that was already confirmed. Its cost comes off before any table write. */
  method PayAlreadyConfirmed(d: Deployment, env: Environment, confirmed: seq<Req>, allowed0: nat, balance0: nat)
    returns (caught: bool, clean: bool, migrated: seq<Weighted<Req>>)
    requires d.Valid() && d.s.sched.AtFirstBatch? && confirmed == WithStatus(d.s.sched.reqs, TxnConfirmed)
    requires d.s.sched.budget.allowed == allowed0 && d.s.sched.budget.balance == balance0
    modifies d, d.db, d.token
    ensures d.Valid() && old(d.trace) <= d.trace
    ensures d.s.sched.AtFetch? && d.s.sched.reqs == old(d.s).sched.reqs
    ensures d.s.sched.budget.allowed == allowed0 - |migrated| && d.s.sched.budget.balance == balance0 - Cost(migrated)
    ensures TokensPaid(d.s.book) == TokensPaid(old(d.s).book) + Cost(migrated)
    ensures RecipientsPaid(d.s.book) == RecipientsPaid(old(d.s).book) + |migrated|
    ensures env.smooth ==> clean
    ensures clean ==>
              && migrated == InitialBatch(confirmed, allowed0, balance0)
              && AllLanded(d.s, |old(d.s).log|, InitialDoneStmts(migrated))
  {
    hide IsRun, Play, IsStart;
    caught, clean, migrated := false, true, [];
    EmptyCost();
    if |confirmed| == 0 {
      NothingToSelect(allowed0, balance0);
      SkipFirstBatch(d);
      return;
    }
    var migration := MigrateConfirmedRequests(d, env, confirmed, allowed0, balance0);
    if migration.Err? {
      caught, clean := true, migration.error.NobodyFits?;
      SkipFirstBatch(d);
      return;
    }
    migrated := migration.value.0;
    clean := SettlePayment(d, env, migrated);
    caught := !clean;
    FirstBatchSettled(d);
  }

  /** updateMigratedRequestsInDb. */
  method SettlePayment(d: Deployment, env: Environment, migrated: seq<Weighted<Req>>) returns (ok: bool)
    requires d.Valid() && d.s.issued == InitialDoneStmts(migrated) && !d.s.failed
    modifies d, d.db, d.token
    ensures d.Valid() && old(d.trace) <= d.trace && d.s.sched == old(d.s).sched
    ensures SpentWithin(old(d.s).book, d.s.book, 0, 0)
    ensures d.s.issued == [] || d.s.failed
    ensures env.smooth ==> ok
    ensures ok ==> AllLanded(d.s, |old(d.s).log|, InitialDoneStmts(migrated))
  {
    hide IsRun, Play, IsStart;
    ok := d.AwaitWrites(env.smooth);
  }

  lemma NothingToSelect(allowed: nat, balance: nat)
    ensures InitialBatch([], allowed, balance) == []
  {
    assert Sort<Req>([]) == [] && WeighInitial([]) == [];
  }

  /** What the run learnt of its unconfirmed rows, and what it decided. */
  datatype Findings = Findings(answers: seq<Option<Receipt>>, height: nat, judgement: Judgement)

  /** Every row was judged by what the node showed of its own transaction, at a height reached during the call. */
  predicate FindingsOk(c: Config, env: Environment, before: Eth, eth: Eth, reqs: seq<Req>, f: Findings) {
    && |f.answers| == |Unconfirmed(reqs)| && Fetching(env, before.mined, eth, Unconfirmed(reqs), f.answers)
    && before.height <= f.height <= eth.height
    && f.judgement == Judge(c, reqs, FetchAll(c, f.answers), f.height)
    && !f.judgement.aborted
  }

  lemma StillFound(c: Config, env: Environment, before: Eth, before': Eth, eth: Eth, eth': Eth, reqs: seq<Req>, f: Findings)
    requires FindingsOk(c, env, before', eth, reqs, f) && EthGrows(before, before') && EthGrows(eth, eth')
    ensures FindingsOk(c, env, before, eth', reqs, f)
  {
    hide Judge, FetchAll;
    StillFetching(env, before, before', eth, eth', Unconfirmed(reqs), f.answers);
  }

  /**
    A parsed row is backed by a mined transaction that is accepted for good. So judging throws only when a node does
    not show a transaction it had shown before.
   */
  lemma NeverThrows(c: Config, env: Environment, s: Sys, eth: Eth, sigValid: seq<Req>, parsed: seq<Req>, answers: seq<Option<Receipt>>,
                    height: nat)
    requires Inv(c, s) && s.sched.AtFetch?
    requires sigValid == WithStatus(s.sched.reqs, SigValid) && parsed == WithStatus(s.sched.reqs, TxnParsed)
    requires |answers| == |sigValid + parsed| && env.smooth && Fetching(env, s.eth.mined, eth, sigValid + parsed, answers)
    requires EthGrows(s.eth, eth)
    ensures !Judge(c, s.sched.reqs, FetchAll(c, answers), height).aborted
  {
    var txns := FetchAll(c, answers);
    forall i | |sigValid| <= i < |txns| ensures txns[i].Ok? {
      ParsedStillAccepted(c, s, parsed, i - |sigValid|, answers[i]);
    }
    NewNeverThrows(c, sigValid, txns, height);
    AllFoundNeverThrows(c, JudgeNew(c, sigValid, txns, height), parsed, txns, |sigValid|, height);
  }

  lemma ParsedStillAccepted(c: Config, s: Sys, parsed: seq<Req>, i: nat, answer: Option<Receipt>)
    requires Inv(c, s) && s.sched.AtFetch? && parsed == WithStatus(s.sched.reqs, TxnParsed) && i < |parsed|
    requires parsed[i].key.hash in s.eth.mined ==> answer.Some? && answer.value.tx == s.eth.mined[parsed[i].key.hash]
    ensures TransferToVault(c, answer).Ok?
  {
    WithStatusOk(s.sched.reqs, TxnParsed);
    var k := parsed[i].key;
    assert parsed[i] in s.sched.reqs;
    assert RowOk(c, s.eth, k, s.table[k]);
    AcceptanceMeansBacking(c, answer, k);
  }

  lemma {:induction false} NewNeverThrows(c: Config, reqs: seq<Req>, txns: seq<Fetched>, height: nat)
    requires |reqs| <= |txns|
    ensures !JudgeNew(c, reqs, txns, height).aborted
    decreases |reqs|
  {
    if reqs != [] {
      NewNeverThrows(c, reqs[..|reqs| - 1], txns, height);
    }
  }

  lemma {:induction false} AllFoundNeverThrows(c: Config, j: Judgement, reqs: seq<Req>, txns: seq<Fetched>, offset: nat, height: nat)
    requires offset + |reqs| <= |txns| && !j.aborted
    requires forall i :: offset <= i < offset + |reqs| ==> txns[i].Ok?
    ensures !JudgeParsed(c, j, reqs, txns, offset, height).aborted
    decreases |reqs|
  {
    if reqs != [] {
      AllFoundNeverThrows(c, j, reqs[..|reqs| - 1], txns, offset, height);
    }
  }

  lemma ReadyToJudge(s: Sys, env: Environment, mined0: map<Hash, TxRecord>, answers: seq<Option<Receipt>>)
    requires s.sched.AtFetch? && |answers| == |Unconfirmed(s.sched.reqs)|
    requires Fetching(env, mined0, s.eth, Unconfirmed(s.sched.reqs), answers)
    ensures CanJudge(s, answers)
  {
  }

  lemma FoundNow(c: Config, env: Environment, before: Eth, eth: Eth, eth': Eth, reqs: seq<Req>, f: Findings)
    requires |f.answers| == |Unconfirmed(reqs)| && Fetching(env, before.mined, eth, Unconfirmed(reqs), f.answers)
    requires before.height <= f.height <= eth.height && EthGrows(eth, eth')
    requires f.judgement == Judge(c, reqs, FetchAll(c, f.answers), f.height) && !f.judgement.aborted
    ensures FindingsOk(c, env, before, eth', reqs, f)
  {
    hide Judge, FetchAll;
    StillFetching(env, before, before, eth, eth', Unconfirmed(reqs), f.answers);
  }

  /** The two forEach loops, one after the other. */
  method JudgeBoth(c: Config, ghost reqs: seq<Req>, sigValid: seq<Req>, parsed: seq<Req>, txns: seq<Fetched>, currentBlockNumber: nat)
    returns (j: Judgement)
    requires sigValid == WithStatus(reqs, SigValid) && parsed == WithStatus(reqs, TxnParsed) && |txns| == |Unconfirmed(reqs)|
    ensures j == Judge(c, reqs, txns, currentBlockNumber)
  {
    hide JudgeNew, JudgeParsed, WithStatus;
    var writes, confirmedReqs := JudgeSigValid(c, sigValid, txns, currentBlockNumber);
    var threw;
    writes, confirmedReqs, threw :=
      JudgeTxnParsed(c, parsed, txns, |sigValid|, currentBlockNumber, writes, confirmedReqs);
    j := Judgement(writes, confirmedReqs, threw);
  }

  /** Fetch, parse, check confirmation, and write the verdicts down; None when any of it failed. */
  method JudgeUnconfirmed(d: Deployment, env: Environment, sigValid: seq<Req>, parsed: seq<Req>) returns (r: Option<Findings>)
    requires d.Valid() && d.s.sched.AtFetch?
    requires sigValid == WithStatus(d.s.sched.reqs, SigValid) && parsed == WithStatus(d.s.sched.reqs, TxnParsed)
    modifies d, d.db, d.token
    ensures d.Valid() && old(d.trace) <= d.trace && SpentWithin(old(d.s).book, d.s.book, 0, 0)
    ensures r.None? ==> !env.smooth && d.s.sched.Idle?
    ensures r.Some? ==>
              && d.s.sched == Judged(r.value.judgement.confirmed, old(d.s).sched.budget)
              && d.s.issued == [] && !d.s.failed
              && FindingsOk(d.c, env, old(d.s).eth, d.s.eth, old(d.s).sched.reqs, r.value)
              && AllLanded(d.s, |old(d.s).log|, r.value.judgement.writes)
  {
    hide IsRun, Play, IsStart, Inv, AllLanded, FindingsOk, RowsLater, Judge, WithStatus, Fetching, CanJudge, TokensPaid, RecipientsPaid;
    ghost var s0 := d.s;
    d.Invariant();
    var answers := FetchReceipts(d, env, sigValid + parsed);
    d.Since(old(d.trace));
    var txns := FetchAll(d.c, answers);
    var nodeAnswers := Attempt(env.smooth);
    if !nodeAnswers {
      Throw(d);
      return None;
    }
    ghost var s1 := d.s;
    var currentBlockNumber := d.s.eth.height;
    var j := JudgeBoth(d.c, d.s.sched.reqs, sigValid, parsed, txns, currentBlockNumber);
    if env.smooth {
      NeverThrows(d.c, env, s0, d.s.eth, sigValid, parsed, answers, currentBlockNumber);
    }
    ReadyToJudge(d.s, env, s0.eth.mined, answers);
    IssueJudgement(d, answers, j);
    if j.aborted {
      return None;
    }
    var ok := SettleJudgement(d, env);
    if !ok {
      return None;
    }
    r := Some(Findings(answers, currentBlockNumber, j));
    LandedBefore(d.s, |s0.log|, |s1.log|, j.writes);
    FoundNow(d.c, env, s0.eth, s1.eth, d.s.eth, s0.sched.reqs, r.value);
  }

  /** await Promise.all of the verdicts: a single failed write ends the run. */
  method SettleJudgement(d: Deployment, env: Environment) returns (ok: bool)
    requires d.Valid() && d.s.sched.Judged? && !d.s.failed
    modifies d, d.db, d.token
    ensures env.smooth ==> ok
    ensures d.Valid() && old(d.trace) <= d.trace && SpentWithin(old(d.s).book, d.s.book, 0, 0)
    ensures if ok then d.s.sched == old(d.s).sched && d.s.issued == [] && !d.s.failed else d.s.sched.Idle?
    ensures EthGrows(old(d.s).eth, d.s.eth)
    ensures ok ==> AllLanded(d.s, |old(d.s).log|, old(d.s).issued)
  {
    hide IsRun, Play, IsStart;
    ok := d.AwaitWrites(env.smooth);
    if !ok {
      Throw(d);
    }
  }

  /** The batch confirmed in this run, with what the first batch left of the limits. */
  method PayNewlyConfirmed(d: Deployment, env: Environment, confirmedReqs: seq<Req>, allowedMigrations: nat, balance: nat)
    returns (clean: bool, migrated: seq<Weighted<Req>>)
    requires d.Valid() && AtPayment(d.s, confirmedReqs, allowedMigrations, balance)
    modifies d, d.db, d.token
    ensures d.Valid() && old(d.trace) <= d.trace && d.s.sched.Idle?
    ensures |migrated| <= allowedMigrations && Cost(migrated) <= balance
    ensures TokensPaid(d.s.book) == TokensPaid(old(d.s).book) + Cost(migrated)
    ensures RecipientsPaid(d.s.book) == RecipientsPaid(old(d.s).book) + |migrated|
    ensures env.smooth ==> clean
    ensures clean ==>
              && migrated == InitialBatch(confirmedReqs, allowedMigrations, balance)
              && AllLanded(d.s, |old(d.s).log|, InitialDoneStmts(migrated))
  {
    hide IsRun, Play, IsStart;
    clean, migrated := true, [];
    EmptyCost();
    if |confirmedReqs| == 0 {
      NothingToSelect(allowedMigrations, balance);
    } else {
      var migration := MigrateConfirmedRequests(d, env, confirmedReqs, allowedMigrations, balance);
      match migration {
        case Err(failure) =>
          clean := failure.NobodyFits?;
        case Ok((batch, _)) =>
          migrated := batch;
          clean := SettlePayment(d, env, migrated);
      }
    }
    Throw(d);
  }

  /** A run in which nothing outside the code failed; a batch that nobody fits into is no failure. */
  datatype Report = Report(first: seq<Weighted<Req>>, findings: Findings, second: seq<Weighted<Req>>)

  /**
    What such a run did is a function of the rows it selected and of what the outside answered: it paid the greedy
    choice of the confirmed rows, judged each unconfirmed row by its own receipt, paid the greedy choice of the newly
    confirmed ones from what was left, and every one of its statements took effect.
   */
  predicate RunDone(c: Config, env: Environment, before: Sys, requests: seq<Req>, run: Report, s: Sys) {
    && run.first == InitialBatch(WithStatus(requests, TxnConfirmed), env.allowed, env.balance)
    && |run.first| <= env.allowed && Cost(run.first) <= env.balance
    && FindingsOk(c, env, before.eth, s.eth, requests, run.findings)
    && run.second == InitialBatch(run.findings.judgement.confirmed, env.allowed - |run.first|, env.balance - Cost(run.first))
    && AllLanded(s, |before.log|, InitialDoneStmts(run.first))
    && AllLanded(s, |before.log|, run.findings.judgement.writes)
    && AllLanded(s, |before.log|, InitialDoneStmts(run.second))
  }

  lemma LandedSince(d: Deployment, earlier: seq<Step>, from: nat, q: seq<Stmt>)
    requires d.Valid() && earlier <= d.trace && IsRun(d.c, d.start, earlier)
    requires AllLanded(Play(d.c, d.start, earlier), from, q)
    ensures AllLanded(d.s, from, q)
  {
    hide IsRun, Play, IsStart, Landed;
    d.Since(earlier);
    forall st | st in q ensures Landed(d.s, from, st) {
      StillLanded(Play(d.c, d.start, earlier), d.s, from, st);
    }
  }

  /** The second part of a run: the rows that were not confirmed yet. */
  method ConfirmAndPay(d: Deployment, env: Environment, sigValid: seq<Req>, parsed: seq<Req>, allowedMigrations: nat, balance: nat)
    returns (r: Option<(Findings, seq<Weighted<Req>>)>)
    requires d.Valid() && d.s.sched.AtFetch?
    requires sigValid == WithStatus(d.s.sched.reqs, SigValid) && parsed == WithStatus(d.s.sched.reqs, TxnParsed)
    requires d.s.sched.budget.allowed == allowedMigrations && d.s.sched.budget.balance == balance
    modifies d, d.db, d.token
    ensures d.Valid() && old(d.trace) <= d.trace && d.s.sched.Idle?
    ensures SpentWithin(old(d.s).book, d.s.book, allowedMigrations, balance)
    ensures env.smooth ==> r.Some?
    ensures r.Some? ==>
              && FindingsOk(d.c, env, old(d.s).eth, d.s.eth, old(d.s).sched.reqs, r.value.0)
              && r.value.1 == InitialBatch(r.value.0.judgement.confirmed, allowedMigrations, balance)
              && TokensPaid(d.s.book) == TokensPaid(old(d.s).book) + Cost(r.value.1)
              && AllLanded(d.s, |old(d.s).log|, r.value.0.judgement.writes)
              && AllLanded(d.s, |old(d.s).log|, InitialDoneStmts(r.value.1))
  {
    hide IsRun, Play, IsStart, InitialBatch, AllLanded, FindingsOk, RowsLater, TokensPaid, RecipientsPaid, Cost;
    ghost var s0 := d.s;
    var found := JudgeUnconfirmed(d, env, sigValid, parsed);
    if found.None? {
      return None;
    }
    d.Since(old(d.trace));
    ghost var s1, tr1 := d.s, d.trace;
    var clean, migrated := PayNewlyConfirmed(d, env, found.value.judgement.confirmed, allowedMigrations, balance);
    r := if clean then Some((found.value, migrated)) else None;
    d.Since(tr1);
    LandedSince(d, tr1, |s0.log|, found.value.judgement.writes);
    StillFound(d.c, env, s0.eth, s0.eth, s1.eth, d.s.eth, s0.sched.reqs, found.value);
    if clean {
      LandedBefore(d.s, |s0.log|, |s1.log|, InitialDoneStmts(migrated));
    }
  }

  /** Inside the catch block: when the mail throws as well, the run is over. */
  method SendFailureMail(d: Deployment, env: Environment) returns (sent: bool)
    requires d.Valid() && d.s.sched.AtFetch?
    modifies d, d.db, d.token
    ensures d.Valid() && old(d.trace) <= d.trace && SpentWithin(old(d.s).book, d.s.book, 0, 0)
    ensures d.s.sched == if sent then old(d.s).sched else Idle
    ensures env.smooth ==> sent
  {
    hide IsRun, Play, IsStart;
    d.Interleave(env.smooth);
    sent := Attempt(env.smooth);
    if !sent {
      Throw(d);
    }
  }

  /** The first half of a run: None when it ended there. */
  method FirstHalf(d: Deployment, env: Environment, confirmed: seq<Req>) returns (r: Option<(bool, seq<Weighted<Req>>)>)
    requires d.Valid() && d.s.sched.AtFirstBatch? && confirmed == WithStatus(d.s.sched.reqs, TxnConfirmed)
    requires d.s.sched.budget.allowed == env.allowed && d.s.sched.budget.balance == env.balance
    modifies d, d.db, d.token
    ensures d.Valid() && old(d.trace) <= d.trace
    ensures r.None? ==> !env.smooth && d.s.sched.Idle? && SpentWithin(old(d.s).book, d.s.book, env.allowed, env.balance)
    ensures r.Some? ==>
              && d.s.sched.AtFetch? && d.s.sched.reqs == old(d.s).sched.reqs
              && d.s.sched.budget.allowed == env.allowed - |r.value.1|
              && d.s.sched.budget.balance == env.balance - Cost(r.value.1)
              && TokensPaid(d.s.book) == TokensPaid(old(d.s).book) + Cost(r.value.1)
              && RecipientsPaid(d.s.book) == RecipientsPaid(old(d.s).book) + |r.value.1|
              && (env.smooth ==> r.value.0)
              && (r.value.0 ==>
                    && r.value.1 == InitialBatch(confirmed, env.allowed, env.balance)
                    && AllLanded(d.s, |old(d.s).log|, InitialDoneStmts(r.value.1)))
  {
    hide IsRun, Play, IsStart, InitialBatch, AllLanded, RowsLater, WithStatus, TokensPaid, RecipientsPaid, Cost, EthGrows;
    ghost var s0 := d.s;
    var caught, clean, first := PayAlreadyConfirmed(d, env, confirmed, env.allowed, env.balance);
    ghost var tr0 := d.trace;
    d.Since(tr0);
    if caught {
      var sent := SendFailureMail(d, env);
      if !sent {
        return None;
      }
    }
    r := Some((clean, first));
    if clean {
      LandedSince(d, tr0, |s0.log|, InitialDoneStmts(first));
    }
  }

  /** A run after its limits are known. */
  method RunWithin(d: Deployment, env: Environment, requests: seq<Req>) returns (r: Option<Report>)
    requires d.Valid()
    requires d.s.sched == AtFirstBatch(requests, Budget(env.allowed, env.balance, env.allowed, env.balance, 0, 0))
    modifies d, d.db, d.token
    ensures d.Valid() && old(d.trace) <= d.trace && d.s.sched.Idle?
    ensures SpentWithin(old(d.s).book, d.s.book, env.allowed, env.balance)
    ensures env.smooth ==> r.Some?
    ensures r.Some? ==> RunDone(d.c, env, old(d.s), requests, r.value, d.s)
    ensures r.Some? ==>
              TokensPaid(d.s.book) == TokensPaid(old(d.s).book) + Cost(r.value.first) + Cost(r.value.second)
  {
    hide IsRun, Play, IsStart, InitialBatch, AllLanded, FindingsOk, RunDone, RowsLater, TokensPaid, RecipientsPaid, Cost, EthGrows;
    ghost var s0 := d.s;
    var sigValid, parsed, confirmed := GroupByStatus(requests);
    var half := FirstHalf(d, env, confirmed);
    if half.None? {
      return None;
    }
    var (clean, first) := half.value;
    d.Since(old(d.trace));
    ghost var s1, tr1 := d.s, d.trace;
    var allowed1: nat, balance1: nat := env.allowed - |first|, env.balance - Cost(first);
    var rest := ConfirmAndPay(d, env, sigValid, parsed, allowed1, balance1);
    if !clean || rest.None? {
      return None;
    }
    r := Some(Report(first, rest.value.0, rest.value.1));
    LandedSince(d, tr1, |s0.log|, InitialDoneStmts(first));
    BothParts(d.c, env, s0, s1, requests, r.value, d.s, allowed1, balance1);
  }

  lemma BothParts(c: Config, env: Environment, s0: Sys, s1: Sys, requests: seq<Req>, run: Report, s: Sys, allowed1: nat, balance1: nat)
    requires allowed1 == env.allowed - |run.first| && balance1 == env.balance - Cost(run.first)
    requires run.first == InitialBatch(WithStatus(requests, TxnConfirmed), env.allowed, env.balance)
    requires AllLanded(s, |s0.log|, InitialDoneStmts(run.first))
    requires s0.log <= s1.log && EthGrows(s0.eth, s1.eth)
    requires FindingsOk(c, env, s1.eth, s.eth, requests, run.findings) && AllLanded(s, |s1.log|, run.findings.judgement.writes)
    requires run.second == InitialBatch(run.findings.judgement.confirmed, allowed1, balance1)
    requires AllLanded(s, |s1.log|, InitialDoneStmts(run.second))
    ensures RunDone(c, env, s0, requests, run, s)
  {
    hide AllLanded, FindingsOk, InitialBatch, WithStatus;
    LandedBefore(s, |s0.log|, |s1.log|, run.findings.judgement.writes);
    LandedBefore(s, |s0.log|, |s1.log|, InitialDoneStmts(run.second));
    StillFound(c, env, s0.eth, s1.eth, s.eth, s.eth, requests, run.findings);
  }

  // ---- What a run achieves ----

  /** There is room for all of these rows. */
  predicate Fits(reqs: seq<Req>, allowed: nat, balance: nat) {
    |reqs| <= allowed && Cost(WeighInitial(reqs)) <= balance
  }

  /** Each of these rows is recorded as paid, with exactly the amount it was due. */
  predicate AllPaid(reqs: seq<Req>, t: Table) {
    forall i :: 0 <= i < |reqs| ==>
      && reqs[i].key in t && t[reqs[i].key].status.Code() >= InitialTransferDone.Code()
      && t[reqs[i].key].migrationTokens == Some(InitialDue(reqs[i].row))
  }

  /** A batch with room for everybody pays everybody. */
  lemma RoomForAll(reqs: seq<Req>, allowed: nat, balance: nat, s: Sys, from: nat)
    requires Fits(reqs, allowed, balance) && AllLanded(s, from, InitialDoneStmts(InitialBatch(reqs, allowed, balance)))
    ensures AllPaid(reqs, s.table)
  {
    hide InitialBatch, Cost;
    var w, batch := WeighInitial(reqs), InitialBatch(reqs, allowed, balance);
    assert multiset(batch) == multiset(w) by { BatchIsAll(reqs, allowed, balance); }
    forall i | 0 <= i < |reqs|
      ensures reqs[i].key in s.table && s.table[reqs[i].key].status.Code() >= InitialTransferDone.Code()
      ensures s.table[reqs[i].key].migrationTokens == Some(InitialDue(reqs[i].row))
    {
      assert w[i] in multiset(w);
      assert w[i] in multiset(batch);
      var j :| 0 <= j < |batch| && batch[j] == w[i];
      var st := InitialDoneStmts(batch)[j];
      assert st in InitialDoneStmts(batch);
      assert Landed(s, from, st);
    }
  }

  lemma BatchIsAll(reqs: seq<Req>, allowed: nat, balance: nat)
    requires Fits(reqs, allowed, balance)
    ensures multiset(InitialBatch(reqs, allowed, balance)) == multiset(WeighInitial(reqs))
    ensures Cost(InitialBatch(reqs, allowed, balance)) == Cost(WeighInitial(reqs))
    ensures |InitialBatch(reqs, allowed, balance)| == |reqs|
  {
    hide Select, Cost, BagCost;
    var w := WeighInitial(reqs);
    SelectAll(w, allowed, balance);
    BagCostOfSeq(w);
    BagCostOfSeq(Select(w, allowed, balance));
    assert |multiset(w)| == |w| && |multiset(Select(w, allowed, balance))| == |Select(w, allowed, balance)|;
  }

  /** The rows a run found confirmed, before it started and by its own judgement. */
  function ConfirmedRows(requests: seq<Req>, run: Report): seq<Req> {
    WithStatus(requests, TxnConfirmed) + run.findings.judgement.confirmed
  }

  /**
    What a caller wants of a run: when the rows that were confirmed fit the limits, each of them is paid and recorded
    at the end; when those the run itself confirms fit as well, so is each of them.
   */
  lemma EverybodyPaid(c: Config, env: Environment, before: Sys, requests: seq<Req>, run: Report, s: Sys)
    requires RunDone(c, env, before, requests, run, s)
    ensures Fits(WithStatus(requests, TxnConfirmed), env.allowed, env.balance) ==>
              AllPaid(WithStatus(requests, TxnConfirmed), s.table)
    ensures Fits(ConfirmedRows(requests, run), env.allowed, env.balance) ==> AllPaid(ConfirmedRows(requests, run), s.table)
  {
    hide InitialBatch, WithStatus, Cost, Landed, FindingsOk;
    var a, b := WithStatus(requests, TxnConfirmed), run.findings.judgement.confirmed;
    if Fits(a, env.allowed, env.balance) {
      RoomForAll(a, env.allowed, env.balance, s, |before.log|);
    }
    if Fits(a + b, env.allowed, env.balance) {
      CostOfBoth(a, b);
      RoomForAll(a, env.allowed, env.balance, s, |before.log|);
      BatchIsAll(a, env.allowed, env.balance);
      RoomForAll(b, env.allowed - |run.first|, env.balance - Cost(run.first), s, |before.log|);
    }
  }

  lemma CostOfBoth(a: seq<Req>, b: seq<Req>)
    ensures Cost(WeighInitial(a + b)) == Cost(WeighInitial(a)) + Cost(WeighInitial(b))
  {
    assert AmountsOf(WeighInitial(a + b)) == AmountsOf(WeighInitial(a)) + AmountsOf(WeighInitial(b));
    SumAppend(AmountsOf(WeighInitial(a)), AmountsOf(WeighInitial(b)));
  }

  // ---- ... in terms of the table ----

  /** reqs are exactly the rows of t that are neither invalid nor migrated yet, each once, as they are in t. */
  predicate PendingRows(reqs: seq<Req>, t: Table) {
    && DistinctReqs(reqs)
    && (forall i :: 0 <= i < |reqs| ==>
          && reqs[i].key in t && t[reqs[i].key] == reqs[i].row
          && reqs[i].row.status in {SigValid, TxnParsed, TxnConfirmed})
    && (forall k :: k in t && t[k].status in {SigValid, TxnParsed, TxnConfirmed} ==>
          exists i :: 0 <= i < |reqs| && reqs[i].key == k)
  }

  /** The status condition of the SELECT picks the statuses it is meant to. */
  lemma SelectIsPending(reqs: seq<Req>, t: Table)
    requires IsSelect(reqs, t, IsPending)
    ensures PendingRows(reqs, t)
  {
    forall k | k in t && t[k].status in {SigValid, TxnParsed, TxnConfirmed} ensures exists i :: 0 <= i < |reqs| && reqs[i].key == k {
      assert IsPending(t[k]);
    }
    forall i | 0 <= i < |reqs| ensures reqs[i].row.status in {SigValid, TxnParsed, TxnConfirmed} {
      assert IsPending(reqs[i].row);
    }
  }

  /** What the confirmed rows of a table are due. */
  function ConfirmedDue(t: Table): map<Key, nat> {
    map k | k in t && t[k].status == TxnConfirmed :: InitialDue(t[k])
  }

  /** There is room for every confirmed row of the table. */
  ghost predicate TableFits(t: Table, allowed: nat, balance: nat) {
    |ConfirmedDue(t)| <= allowed && MapSum(ConfirmedDue(t)) <= balance
  }

  /** Every row confirmed in t is migrated in t', and recorded with the amount it was due. */
  predicate ConfirmedPaid(t: Table, t': Table) {
    forall k :: k in t && t[k].status == TxnConfirmed ==>
      && k in t' && t'[k].status in {InitialTransferDone, BonusCalculated, BonusTransferred}
      && t'[k].migrationTokens == Some(InitialDue(t[k]))
  }

  /** Distinct rows that make up a map of dues. */
  predicate RowsOfDues(group: seq<Req>, m: map<Key, nat>) {
    && DistinctReqs(group)
    && (forall i :: 0 <= i < |group| ==> group[i].key in m && m[group[i].key] == InitialDue(group[i].row))
    && (forall k :: k in m ==> exists i :: 0 <= i < |group| && group[i].key == k)
  }

  lemma WithoutLastDue(group: seq<Req>, m: map<Key, nat>)
    requires group != [] && RowsOfDues(group, m)
    ensures RowsOfDues(group[..|group| - 1], m - {group[|group| - 1].key})
    ensures var last := group[|group| - 1]; last.key in m && m[last.key] == InitialDue(last.row)
  {
    hide InitialDue;
    var n := |group| - 1;
    forall j | j in m && j != group[n].key ensures exists i :: 0 <= i < n && group[..n][i].key == j {
      var i :| 0 <= i < |group| && group[i].key == j;
      assert group[..n][i].key == j;
    }
  }

  lemma LastDue(group: seq<Req>)
    requires group != []
    ensures var n := |group| - 1;
            Cost(WeighInitial(group)) == Cost(WeighInitial(group[..n])) + InitialDue(group[n].row)
  {
    hide Cost;
    assert WeighInitial(group)[..|group| - 1] == WeighInitial(group[..|group| - 1]);
    CostLast(WeighInitial(group));
  }

  lemma DueTaken(m: map<Key, nat>, k: Key)
    requires k in m
    ensures |m| == |m - {k}| + 1 && MapSum(m) == m[k] + MapSum(m - {k})
  {
    MapSumRemove(m, k);
    assert m.Keys == (m - {k}).Keys + {k};
  }

  lemma NoDues(m: map<Key, nat>)
    requires RowsOfDues([], m)
    ensures |m| == 0 == MapSum(m) && Cost(WeighInitial([])) == 0
  {
    assert m == map[];
  }

  /** They are as many as the dues, and due as much. */
  lemma {:induction false} DuesOfRows(group: seq<Req>, m: map<Key, nat>)
    requires RowsOfDues(group, m)
    ensures |group| == |m| && Cost(WeighInitial(group)) == MapSum(m)
    decreases |group|
  {
    hide MapSum, Cost, InitialDue, RowsOfDues, WeighInitial;
    if group == [] {
      NoDues(m);
    } else {
      var n := |group| - 1;
      WithoutLastDue(group, m);
      DuesOfRows(group[..n], m - {group[n].key});
      DueTaken(m, group[n].key);
      LastDue(group);
    }
  }

  lemma TableFitsRows(t: Table, reqs: seq<Req>)
    requires PendingRows(reqs, t)
    ensures var group := WithStatus(reqs, TxnConfirmed);
            |group| == |ConfirmedDue(t)| && Cost(WeighInitial(group)) == MapSum(ConfirmedDue(t))
  {
    hide WithStatus, InitialDue, MapSum, Cost;
    var group := WithStatus(reqs, TxnConfirmed);
    WithStatusOk(reqs, TxnConfirmed);
    forall k | k in ConfirmedDue(t) ensures exists i :: 0 <= i < |group| && group[i].key == k {
      var i :| 0 <= i < |reqs| && reqs[i].key == k;
      assert reqs[i] in group;
    }
    DuesOfRows(group, ConfirmedDue(t));
  }

  lemma RowsPaidTablePaid(t: Table, reqs: seq<Req>, t': Table)
    requires PendingRows(reqs, t) && AllPaid(WithStatus(reqs, TxnConfirmed), t')
    ensures ConfirmedPaid(t, t')
  {
    hide WithStatus, InitialDue;
    var group := WithStatus(reqs, TxnConfirmed);
    WithStatusOk(reqs, TxnConfirmed);
    forall k | k in t && t[k].status == TxnConfirmed
      ensures k in t' && t'[k].status in {InitialTransferDone, BonusCalculated, BonusTransferred}
      ensures t'[k].migrationTokens == Some(InitialDue(t[k]))
    {
      var i :| 0 <= i < |reqs| && reqs[i].key == k;
      assert reqs[i] in group;
      var j :| 0 <= j < |group| && group[j] == reqs[i];
    }
  }

  /** A run that goes through and has room for every confirmed row of the table it selected from pays all of them. */
  lemma TablePaid(c: Config, env: Environment, before: Sys, t: Table, requests: seq<Req>, run: Report, s: Sys)
    requires RunDone(c, env, before, requests, run, s) && PendingRows(requests, t)
    ensures TableFits(t, env.allowed, env.balance) ==> ConfirmedPaid(t, s.table)
  {
    hide RunDone, PendingRows, AllPaid, WithStatus, ConfirmedPaid;
    EverybodyPaid(c, env, before, requests, run, s);
    TableFitsRows(t, requests);
    if TableFits(t, env.allowed, env.balance) {
      RowsPaidTablePaid(t, requests, s.table);
    }
  }

  /** At the point `at` of an execution, reqs are exactly the pending rows of the table. */
  ghost predicate SelectedAt(c: Config, start: Sys, trace: seq<Step>, at: seq<Step>, reqs: seq<Req>) {
    && at <= trace && IsRun(c, start, at)
    && PendingRows(reqs, Play(c, start, at).table)
  }

  /**
    processPendingRequests. Whatever the chains, the database and the other processes do at its awaits, and
    however it ends, it is a run of the pipeline, and it pays at most the balance to at most the allowance it read.
    When nothing outside fails it goes through to its end. Then RunDone says exactly what it paid and wrote for the
    rows that were pending when it selected them, and every row of the table confirmed then is paid if there is room
    for all.
   */
  method ProcessPendingRequests(d: Deployment, env: Environment)
    returns (requests: seq<Req>, r: Option<Report>, ghost at: seq<Step>)
    requires d.Valid() && d.s.sched.Idle?
    modifies d, d.db, d.token
    ensures d.Valid() && old(d.trace) <= at <= d.trace && d.s.sched.Idle?
    ensures SelectedAt(d.c, d.start, d.trace, at, requests) && |old(d.trace)| < |at|
    ensures SpentWithin(old(d.s).book, d.s.book, env.allowed, env.balance)
    ensures env.smooth ==> r.Some?
    ensures r.Some? ==> RunDone(d.c, env, old(d.s), requests, r.value, d.s)
    ensures r.Some? && Fits(WithStatus(requests, TxnConfirmed), env.allowed, env.balance) ==>
              AllPaid(WithStatus(requests, TxnConfirmed), d.s.table)
    ensures r.Some? && TableFits(Play(d.c, d.start, at).table, env.allowed, env.balance) ==>
              ConfirmedPaid(Play(d.c, d.start, at).table, d.s.table)
    ensures r.Some? ==>
              TokensPaid(d.s.book) == TokensPaid(old(d.s).book) + Cost(r.value.first) + Cost(r.value.second)
  {
    hide IsRun, Play, IsStart, PendingRows, TableFits, ConfirmedPaid, Fits, AllPaid, RunDone, RowsLater, WithStatus;
    ghost var s0 := d.s;
    requests := SelectPending(d);
    at := d.trace;
    ghost var t := d.s.table;
    r := None;
    var ready := ReadDetails(d, env);
    if ready {
      d.Since(old(d.trace));
      ghost var s1 := d.s;
      r := RunWithin(d, env, requests);
      if r.Some? {
        StartedEarlier(d.c, env, s0, s1, requests, r.value, d.s);
        EverybodyPaid(d.c, env, s0, requests, r.value, d.s);
        TablePaid(d.c, env, s0, t, requests, r.value, d.s);
      }
    }
    d.Since(at);
  }

  lemma StartedEarlier(c: Config, env: Environment, s0: Sys, s1: Sys, requests: seq<Req>, run: Report, s: Sys)
    requires RunDone(c, env, s1, requests, run, s) && s0.log <= s1.log && EthGrows(s0.eth, s1.eth)
    ensures RunDone(c, env, s0, requests, run, s)
  {
    hide AllLanded, FindingsOk, InitialBatch, WithStatus;
    LandedBefore(s, |s0.log|, |s1.log|, InitialDoneStmts(run.first));
    LandedBefore(s, |s0.log|, |s1.log|, run.findings.judgement.writes);
    LandedBefore(s, |s0.log|, |s1.log|, InitialDoneStmts(run.second));
    StillFound(c, env, s0.eth, s1.eth, s.eth, s.eth, requests, run.findings);
  }

  /** The limits, and the refuelling alarm that may follow; both are awaited, and both may throw. */
  method ReadDetails(d: Deployment, env: Environment) returns (ready: bool)
    requires d.Valid() && d.s.sched.Ready?
    modifies d, d.db, d.token
    ensures d.Valid() && old(d.trace) <= d.trace && SpentWithin(old(d.s).book, d.s.book, 0, 0)
    ensures env.smooth ==> ready
    ensures d.s.sched == if ready then AtFirstBatch(old(d.s).sched.reqs, Budget(env.allowed, env.balance, env.allowed, env.balance, 0, 0))
                         else Idle
  {
    hide IsRun, Play, IsStart;
    d.Interleave(env.smooth);
    var answered := Attempt(env.smooth);
    if !answered {
      Throw(d);
      return false;
    }
    ReadLimits(d, env.allowed, env.balance);
    d.Interleave(env.smooth);
    ready := Attempt(env.smooth);
    if !ready {
      Throw(d);
    }
  }

  // ---- scheduler.js ----

  function Balances(envs: nat -> Environment, n: nat): (b: seq<nat>)
    ensures |b| == n && forall i :: 0 <= i < n ==> b[i] == envs(i).balance
  {
    seq<nat>(n, i requires 0 <= i < n => envs(i).balance)
  }

  /** What one round of the scheduler left behind: if it was smooth and had room, the rows confirmed then are paid. */
  ghost predicate RoundKept(c: Config, start: Sys, trace: seq<Step>, t: Table, env: Environment, at: seq<Step>, reqs: seq<Req>) {
    && SelectedAt(c, start, trace, at, reqs)
    && (env.smooth && TableFits(Play(c, start, at).table, env.allowed, env.balance) ==>
          ConfirmedPaid(Play(c, start, at).table, t))
  }

  lemma EarlierRound(c: Config, start: Sys, trace: seq<Step>, trace': seq<Step>, t: Table, t': Table,
                     env: Environment, at: seq<Step>, reqs: seq<Req>)
    requires RoundKept(c, start, trace, t, env, at, reqs) && trace <= trace' && RowsLater(t, t')
    ensures RoundKept(c, start, trace', t', env, at, reqs) && at <= trace
  {
    hide IsRun, Play, PendingRows, TableFits, ConfirmedPaid;
    if env.smooth && TableFits(Play(c, start, at).table, env.allowed, env.balance) {
      StillPaid(Play(c, start, at).table, t, t');
    }
  }

  /** Points of an execution, each after the one before. */
  predicate Successive(ats: seq<seq<Step>>) {
    forall i, j :: 0 <= i < j < |ats| ==> ats[i] <= ats[j] && |ats[i]| < |ats[j]|
  }

  lemma OneLater(ats: seq<seq<Step>>, now: seq<Step>, at: seq<Step>)
    requires Successive(ats) && now <= at && |now| < |at|
    requires forall i :: 0 <= i < |ats| ==> ats[i] <= now
    ensures Successive(ats + [at])
  {
  }

  lemma OneMoreBalance(envs: nat -> Environment, n: nat)
    ensures Sum(Balances(envs, n + 1)) == Sum(Balances(envs, n)) + envs(n).balance
  {
    assert Balances(envs, n + 1)[..n] == Balances(envs, n);
  }

  /** A run, and the sleep after it. */
  method OneRound(d: Deployment, env: Environment) returns (requests: seq<Req>, ghost at: seq<Step>)
    requires d.Valid() && d.s.sched.Idle?
    modifies d, d.db, d.token
    ensures d.Valid() && old(d.trace) <= at <= d.trace && d.s.sched.Idle?
    ensures RoundKept(d.c, d.start, d.trace, d.s.table, env, at, requests) && |old(d.trace)| < |at|
    ensures TokensPaid(d.s.book) <= TokensPaid(old(d.s).book) + env.balance
  {
    hide IsRun, Play, IsStart;
    var report;
    requests, report, at := ProcessPendingRequests(d, env);
    ghost var t, tr := d.s.table, d.trace;
    d.Interleave(env.smooth);
    EarlierRound(d.c, d.start, tr, d.trace, t, d.s.table, env, at, requests);
  }

  lemma StillPaid(was: Table, t: Table, t': Table)
    requires ConfirmedPaid(was, t) && RowsLater(t, t')
    ensures ConfirmedPaid(was, t')
  {
    hide InitialDue;
    forall k | k in was && was[k].status == TxnConfirmed
      ensures k in t' && t'[k].status in {InitialTransferDone, BonusCalculated, BonusTransferred}
      ensures t'[k].migrationTokens == Some(InitialDue(was[k]))
    {
      assert Later(t[k], t'[k]);
    }
  }

  /** ... and so for all rounds so far, each selected later than the one before. */
  ghost predicate RoundsKept(c: Config, start: Sys, trace: seq<Step>, t: Table, envs: nat -> Environment,
                             from: seq<Step>, ats: seq<seq<Step>>, selected: seq<seq<Req>>) {
    && |ats| == |selected| && Successive(ats)
    && (forall i :: 0 <= i < |ats| ==> from <= ats[i] && RoundKept(c, start, trace, t, envs(i), ats[i], selected[i]))
  }

  lemma NoneYet(c: Config, start: Sys, trace: seq<Step>, t: Table, envs: nat -> Environment)
    ensures RoundsKept(c, start, trace, t, envs, trace, [], [])
  {
  }

  lemma OneMoreRound(c: Config, start: Sys, trace: seq<Step>, trace': seq<Step>, t: Table, t': Table, envs: nat -> Environment,
                     from: seq<Step>, ats: seq<seq<Step>>, selected: seq<seq<Req>>, at: seq<Step>, reqs: seq<Req>)
    requires RoundsKept(c, start, trace, t, envs, from, ats, selected)
    requires from <= trace <= at <= trace' && |trace| < |at| && RowsLater(t, t')
    requires RoundKept(c, start, trace', t', envs(|ats|), at, reqs)
    ensures RoundsKept(c, start, trace', t', envs, from, ats + [at], selected + [reqs])
  {
    hide RoundKept, RowsLater, Successive;
    forall i | 0 <= i < |ats| ensures RoundKept(c, start, trace', t', envs(i), ats[i], selected[i]) && ats[i] <= trace {
      EarlierRound(c, start, trace, trace', t, t', envs(i), ats[i], selected[i]);
    }
    OneLater(ats, trace, at);
  }

  /**
    scheduler.js: runs follow each other and never overlap; an exception only ends the run it happens in. In every
    round the rows pending at its SELECT are processed: a smooth round with room pays each confirmed one for good.
    All rounds together pay at most the balances read, and no row more often than once plus its lost writes.
   */
  method SchedulePendingChecks(d: Deployment, rounds: nat, envs: nat -> Environment)
    returns (ghost ats: seq<seq<Step>>, selected: seq<seq<Req>>)
    requires d.Valid() && d.s.sched.Idle?
    modifies d, d.db, d.token
    ensures d.Valid() && old(d.trace) <= d.trace && d.s.sched.Idle?
    ensures |ats| == rounds && RoundsKept(d.c, d.start, d.trace, d.s.table, envs, old(d.trace), ats, selected)
    ensures TokensPaid(d.s.book) <= TokensPaid(old(d.s).book) + Sum(Balances(envs, rounds))
    ensures forall k :: k in d.s.table ==> |Acct(d.s.book, k).initial| <= 1 + Acct(d.s.book, k).initialLost
  {
    hide IsRun, Play, IsStart, RoundKept, RoundsKept, RowsLater, Sum, Acct, TokensPaid, RecipientsPaid, EthGrows;
    ghost var from := d.trace;
    ats, selected := [], [];
    NoneYet(d.c, d.start, d.trace, d.s.table, envs);
    for n := 0 to rounds
      invariant d.Valid() && from <= d.trace && d.s.sched.Idle?
      invariant |ats| == n && RoundsKept(d.c, d.start, d.trace, d.s.table, envs, from, ats, selected)
      invariant TokensPaid(d.s.book) <= TokensPaid(old(d.s).book) + Sum(Balances(envs, n))
    {
      ghost var t, tr := d.s.table, d.trace;
      var reqs, at := OneRound(d, envs(n));
      d.Since(tr);
      OneMoreRound(d.c, d.start, tr, d.trace, t, d.s.table, envs, from, ats, selected, at, reqs);
      ats, selected := ats + [at], selected + [reqs];
      OneMoreBalance(envs, n);
    }
    forall k | k in d.s.table ensures |Acct(d.s.book, k).initial| <= 1 + Acct(d.s.book, k).initialLost {
      PaymentMultiplicity(d.c, d.start, d.trace, k);
    }
  }

  // ---- schedule_invalid.js ----

  datatype Outcome = Committed | Untouched

  /**
    resetAllInvalidMigrations: the snapshot is written back in one transaction, long after it was read. Either
    every row that was INVALID at the start ends SIG_VALID, otherwise as it was, or the transaction changes nothing.
   */
  method ResetAllInvalidMigrations(d: Deployment, smooth: bool) returns (outcome: Outcome)
    requires d.Valid() && d.s.reset.None?
    modifies d, d.db, d.token
    ensures d.Valid() && old(d.trace) <= d.trace && d.s.reset.None?
    ensures smooth ==> outcome.Committed?
    ensures RowsLater(old(d.s).table, d.s.table)
    ensures forall k :: k in old(d.s).table && old(d.s).table[k].status == Invalid ==>
              d.s.table[k] == if outcome.Committed? then old(d.s).table[k].(status := SigValid) else old(d.s).table[k]
  {
    hide IsRun, Play, IsStart;
    d.InterleaveReset();
    var keys := SelectInvalid(d);
    if |keys| == 0 {
      return Committed;
    }
    d.InterleaveReset(); // BEGIN, the UPDATEs, COMMIT
    outcome := EndTransaction(d, smooth);
    d.Since(old(d.trace));
  }

  method SelectInvalid(d: Deployment) returns (keys: seq<Key>)
    requires d.Valid() && d.s.reset.None?
    modifies d, d.db, d.token
    ensures d.Valid() && old(d.trace) <= d.trace && d.s.table == old(d.s).table
    ensures d.s.reset == if keys == [] then None else Some(keys)
    ensures forall k :: k in d.s.table ==> (d.s.table[k].status == Invalid <==> k in keys)
  {
    hide IsRun, Play, IsStart;
    var requests := d.db.GetInvalidRequests();
    keys := KeysOf(requests);
    KeysSelected(requests, d.s.table);
    d.Do(ResetSelect(keys));
  }

  /** COMMIT, unless something failed since BEGIN. */
  method EndTransaction(d: Deployment, smooth: bool) returns (outcome: Outcome)
    requires d.Valid() && d.s.reset.Some?
    modifies d, d.db, d.token
    ensures smooth ==> outcome.Committed?
    ensures d.Valid() && old(d.trace) <= d.trace && d.s.reset.None?
    ensures old(d.s).table.Keys <= d.s.table.Keys
    ensures forall k :: k in old(d.s).table && !(outcome.Committed? && k in old(d.s).reset.value) ==>
              d.s.table[k] == old(d.s).table[k]
    ensures outcome.Committed? ==> forall k :: k in old(d.s).reset.value ==>
              k in old(d.s).table && d.s.table[k] == old(d.s).table[k].(status := SigValid)
  {
    hide IsRun, Play, IsStart;
    var committed := Attempt(smooth);
    if !committed {
      d.Do(ResetRollback);
      return Untouched;
    }
    d.Invariant();
    ResetEffect(d.c, d.s);
    d.Do(ResetCommit);
    outcome := Committed;
  }

  lemma ResetEffect(c: Config, s: Sys)
    requires Inv(c, s) && s.reset.Some?
    ensures var t' := DoResetCommit(s).table;
            && RowsLater(s.table, t')
            && (forall k :: k in s.table && k !in s.reset.value ==> t'[k] == s.table[k])
            && (forall k :: k in s.reset.value ==> k in s.table && t'[k] == s.table[k].(status := SigValid))
  {
    ResetRows(c, s.eth, s.table, s.reset.value);
    ResetMove(c, s.eth, s.table, s.reset.value);
    InvalidRowsKept(s.table, Drain(ResetStmts(s.reset.value), s.table), TheReset);
  }

  function KeysOf(reqs: seq<Req>): (keys: seq<Key>)
    ensures |keys| == |reqs| && forall i :: 0 <= i < |reqs| ==> keys[i] == reqs[i].key
  {
    seq(|reqs|, i requires 0 <= i < |reqs| => reqs[i].key)
  }

  lemma KeysSelected(reqs: seq<Req>, t: Table)
    requires IsSelect(reqs, t, IsInvalid)
    ensures IsInvalidSelect(KeysOf(reqs), t)
  {
    forall k | k in t && t[k].status == Invalid ensures k in KeysOf(reqs) {
      assert IsInvalid(t[k]);
      var i :| 0 <= i < |reqs| && reqs[i].key == k;
      assert KeysOf(reqs)[i] == k;
    }
  }

  /** One pass of the reset between two points of an execution: unless something outside failed, it reset its rows. */
  ghost predicate ResetKept(c: Config, start: Sys, trace: seq<Step>, smooth: bool, from: seq<Step>, to: seq<Step>) {
    && from <= to <= trace && IsRun(c, start, from) && IsRun(c, start, to)
    && (smooth ==>
          forall k :: k in Play(c, start, from).table && Play(c, start, from).table[k].status == Invalid ==>
            k in Play(c, start, to).table
            && Play(c, start, to).table[k] == Play(c, start, from).table[k].(status := SigValid))
  }

  method OnePass(d: Deployment, smooth: bool) returns (ghost from: seq<Step>, ghost to: seq<Step>)
    requires d.Valid() && d.s.reset.None?
    modifies d, d.db, d.token
    ensures d.Valid() && old(d.trace) == from <= to <= d.trace && d.s.reset.None?
    ensures ResetKept(d.c, d.start, d.trace, smooth, from, to)
  {
    hide IsRun, Play, IsStart;
    from := d.trace;
    var outcome := ResetAllInvalidMigrations(d, smooth);
    to := d.trace;
    d.Since(from);
    d.InterleaveReset(); // asleep
    d.Since(to);
  }

  /**
    The endless loop of schedule_invalid.js, beside all other processes: every smooth pass puts exactly the rows that
    were INVALID when it began back to SIG_VALID, and over all passes no row that was parsed becomes unparsed.
   */
  method ScheduleInvalidChecks(d: Deployment, rounds: nat, smooth: nat -> bool)
    returns (ghost froms: seq<seq<Step>>, ghost tos: seq<seq<Step>>)
    requires d.Valid() && d.s.reset.None?
    modifies d, d.db, d.token
    ensures d.Valid() && old(d.trace) <= d.trace && d.s.reset.None?
    ensures |froms| == rounds == |tos|
    ensures forall i :: 0 <= i < rounds ==> ResetKept(d.c, d.start, d.trace, smooth(i), froms[i], tos[i])
    ensures forall i :: 0 <= i < rounds ==> old(d.trace) <= froms[i]
    ensures forall i, j :: 0 <= i < j < rounds ==> tos[i] <= froms[j]
    ensures RowsLater(old(d.s).table, d.s.table)
  {
    hide IsRun, Play, IsStart;
    froms, tos := [], [];
    for n := 0 to rounds
      invariant d.Valid() && old(d.trace) <= d.trace && d.s.reset.None?
      invariant |froms| == n == |tos|
      invariant forall i :: 0 <= i < n ==> ResetKept(d.c, d.start, d.trace, smooth(i), froms[i], tos[i])
      invariant forall i :: 0 <= i < n ==> old(d.trace) <= froms[i]
      invariant forall i, j :: 0 <= i < j < n ==> tos[i] <= froms[j]
    {
      ghost var tr := d.trace;
      var from, to := OnePass(d, smooth(n));
      assert forall i :: 0 <= i < n ==> tos[i] <= tr;
      froms, tos := froms + [from], tos + [to];
    }
    d.Since(old(d.trace));
  }
}
