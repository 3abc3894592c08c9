/** Every step of every process keeps the global invariant. */
module PipelineSteps {
  import opened Wrappers
  import opened Sums
  import opened Requests
  import opened Amounts
  import opened Receipts
  import opened Greedy
  import opened BonusMath
  import opened Pipeline
  import opened PipelineInvariant
  import E = Erc20

  lemma StartInv(c: Config, token: E.Token, height: nat)
    requires E.SupplyOk(token) && token.self == c.token
    ensures Inv(c, Start(token, height))
  {
  }

  // ---- The chain and the API ----

  lemma EthStep(c: Config, s: Sys, eth': Eth)
    requires Inv(c, s) && EthOk(c, eth') && EthGrows(s.eth, eth')
    ensures Inv(c, s.(eth := eth'))
  {
    RowsFrame(c, s.eth, eth', s.table);
    QueueFrame(c, s.eth, eth', s.table, s.table, SchedQueue(s), TheScheduler);
    QueueFrame(c, s.eth, eth', s.table, s.table, s.calcIssued, TheCalculation);
    QueueFrame(c, s.eth, eth', s.table, s.table, s.dispIssued, TheDisbursal);
    if s.reset.Some? {
      QueueFrame(c, s.eth, eth', s.table, s.table, ResetStmts(s.reset.value), TheReset);
    }
  }

  lemma MineInv(c: Config, s: Sys, h: Hash, tx: E.Tx)
    requires Inv(c, s) && h !in s.eth.mined
    ensures Inv(c, DoMine(s, h, tx))
  {
    E.MineKeepsSupply(s.eth.token, tx);
    EthStep(c, s, DoMine(s, h, tx).eth);
  }

  lemma HeightInv(c: Config, s: Sys, h: nat)
    requires Inv(c, s) && h >= s.eth.height
    ensures Inv(c, s.(eth := s.eth.(height := h)))
  {
    EthStep(c, s, s.eth.(height := h));
  }

  /** Local variables of a run survive whatever the other processes do to the table. */
  lemma ControlFrame(t: Table, t': Table, sched: Scheduler, backlog: seq<Stmt>, issued: seq<Stmt>, failed: bool)
    requires ControlOk(t, sched, backlog, issued, failed) && KeepsOwned(t, t', TheScheduler)
    ensures ControlOk(t', sched, backlog, issued, failed)
  {
    if sched.Judged? && !failed {
      var conf := sched.confirmed;
      forall i | 0 <= i < |conf|
        ensures conf[i].key in t' && Owner(t'[conf[i].key].status) == TheScheduler
        ensures conf[i].key in Drain(issued, t') && Drain(issued, t')[conf[i].key] == Drain(issued, t)[conf[i].key]
      {
        DrainLocal(issued, t, t', conf[i].key);
      }
    }
  }

  lemma DisbursalFrame(t: Table, t': Table, disp: Option<seq<Req>>, dispIssued: seq<Stmt>)
    requires DisbursalOk(t, disp, dispIssued) && KeepsOwned(t, t', TheDisbursal)
    ensures DisbursalOk(t', disp, dispIssued)
  {
  }

  /** When one process moves its own rows, everything the other processes rely on stands. */
  lemma OthersUndisturbed(c: Config, s: Sys, t': Table, mover: Actor)
    requires Inv(c, s) && (forall a :: a != mover ==> KeepsOwned(s.table, t', a))
    ensures mover != TheScheduler ==>
              QueueOk(c, s.eth, t', SchedQueue(s), TheScheduler) && ControlOk(t', s.sched, s.backlog, s.issued, s.failed)
    ensures mover != TheCalculation ==> QueueOk(c, s.eth, t', s.calcIssued, TheCalculation)
    ensures mover != TheDisbursal ==>
              QueueOk(c, s.eth, t', s.dispIssued, TheDisbursal) && DisbursalOk(t', s.disp, s.dispIssued)
    ensures mover != TheReset ==> ResetOk(c, s.eth, t', s.reset)
  {
    if mover != TheScheduler {
      QueueFrame(c, s.eth, s.eth, s.table, t', SchedQueue(s), TheScheduler);
      ControlFrame(s.table, t', s.sched, s.backlog, s.issued, s.failed);
    }
    if mover != TheCalculation {
      QueueFrame(c, s.eth, s.eth, s.table, t', s.calcIssued, TheCalculation);
    }
    if mover != TheDisbursal {
      QueueFrame(c, s.eth, s.eth, s.table, t', s.dispIssued, TheDisbursal);
      DisbursalFrame(s.table, t', s.disp, s.dispIssued);
    }
    if mover != TheReset && s.reset.Some? {
      QueueFrame(c, s.eth, s.eth, s.table, t', ResetStmts(s.reset.value), TheReset);
    }
  }

  lemma TrackInv(c: Config, s: Sys, k: Key, mainnet: DockAddress, vesting: Option<bool>)
    requires Inv(c, s) && k !in s.table
    ensures Inv(c, DoTrack(c, s, k, mainnet, vesting))
  {
    var t' := DoTrack(c, s, k, mainnet, vesting).table;
    OthersUndisturbed(c, s, t', Nobody);
    FreshRowBook(c, s, k, t');
  }

  lemma FreshRowBook(c: Config, s: Sys, k: Key, t': Table)
    requires Inv(c, s) && k !in s.table
    requires t'.Keys == s.table.Keys + {k} && (forall j :: j in s.table ==> t'[j] == s.table[j])
    requires t'[k].status.Code() < 1
    ensures BookOk(t', SchedQueue(s), s.dispIssued, s.book)
  {
    assert k !in PayingKeys(SchedQueue(s)) && k !in Keys(s.dispIssued);
  }

  // ---- The reset ----

  lemma ResetSelectInv(c: Config, s: Sys, keys: seq<Key>)
    requires Inv(c, s) && CanResetSelect(s, keys)
    ensures Inv(c, DoResetSelect(s, keys))
  {
  }

  /** COMMIT changes exactly the snapshot's rows, and only from INVALID to SIG_VALID. */
  lemma ResetRows(c: Config, eth: Eth, t: Table, keys: seq<Key>)
    requires QueueOk(c, eth, t, ResetStmts(keys), TheReset)
    ensures var t' := Drain(ResetStmts(keys), t);
            && t'.Keys == t.Keys
            && (forall k :: k in t && k !in keys ==> t'[k] == t[k])
            && (forall k :: k in keys ==> k in t && t[k].status == Invalid && t'[k] == t[k].(status := SigValid))
  {
    var q := ResetStmts(keys);
    DrainKeys(q, t);
    forall k | k in t && k !in keys ensures Drain(q, t)[k] == t[k] {
      DrainUntouched(q, t, k);
    }
    forall k | k in keys
      ensures k in t && t[k].status == Invalid && Drain(q, t)[k] == t[k].(status := SigValid)
    {
      var i :| 0 <= i < |keys| && keys[i] == k;
      assert StmtReady(c, eth, t, q[i]);
      DrainEach(q, t, i);
    }
  }

  lemma ResetBook(t: Table, t': Table, keys: seq<Key>, q: seq<Stmt>, dispQ: seq<Stmt>, book: Book)
    requires BookOk(t, q, dispQ, book) && t'.Keys == t.Keys
    requires forall k :: k in t && k !in keys ==> t'[k] == t[k]
    requires forall k :: k in keys ==> k in t && t[k].status == Invalid && t'[k] == t[k].(status := SigValid)
    ensures BookOk(t', q, dispQ, book)
  {
    forall k | k in t' ensures AcctOk(t'[k], Acct(book, k), k in PayingKeys(q), k in Keys(dispQ)) {
      assert AcctOk(t[k], Acct(book, k), k in PayingKeys(q), k in Keys(dispQ));
    }
  }

  lemma ResetCommitInv(c: Config, s: Sys)
    requires Inv(c, s) && s.reset.Some?
    ensures Inv(c, DoResetCommit(s))
  {
    var q := ResetStmts(s.reset.value);
    DrainReady(c, s.eth, s.table, q, TheReset);
    OthersUndisturbed(c, s, Drain(q, s.table), TheReset);
    ResetRows(c, s.eth, s.table, s.reset.value);
    ResetBook(s.table, Drain(q, s.table), s.reset.value, SchedQueue(s), s.dispIssued, s.book);
  }

  // ---- The scheduler ----

  lemma ResetRollbackInv(c: Config, s: Sys)
    requires Inv(c, s)
    ensures Inv(c, s.(reset := None))
  {
  }

  lemma SchedSelectInv(c: Config, s: Sys, reqs: seq<Req>)
    requires Inv(c, s) && CanSchedSelect(s, reqs)
    ensures Inv(c, s.(sched := Ready(reqs)))
  {
    assert |s.backlog| + |s.issued| == |SchedQueue(s)|;
  }

  lemma DetailsInv(c: Config, s: Sys, allowed: nat, balance: nat)
    requires Inv(c, s) && s.sched.Ready?
    ensures Inv(c, DoDetails(s, allowed, balance))
  {
  }

  lemma SkipFirstInv(c: Config, s: Sys)
    requires Inv(c, s) && s.sched.AtFirstBatch?
    ensures Inv(c, DoSkipFirst(s))
  {
  }

  lemma FirstSettledInv(c: Config, s: Sys)
    requires Inv(c, s) && CanFirstSettled(s)
    ensures Inv(c, DoFirstSettled(s))
  {
    assert SchedQueue(DoFirstSettled(s)) == SchedQueue(s);
  }

  lemma StopInv(c: Config, s: Sys)
    requires Inv(c, s)
    ensures Inv(c, DoStop(s))
  {
    assert SchedQueue(DoStop(s)) == SchedQueue(s);
  }

  lemma PayQueue(c: Config, eth: Eth, t: Table, q: seq<Stmt>, batch: seq<Weighted<Req>>)
    requires QueueOk(c, eth, t, q, TheScheduler) && InitialBatchOk(t, batch)
    requires forall i :: 0 <= i < |batch| ==> batch[i].item.key !in Keys(q)
    ensures QueueOk(c, eth, t, q + InitialDoneStmts(batch), TheScheduler)
  {
    var p := InitialDoneStmts(batch);
    forall i, j | 0 <= i < |q| && 0 <= j < |p| ensures q[i].key != p[j].key {
      assert q[i].key in Keys(q);
    }
    AppendQueue(c, eth, t, q, p, TheScheduler);
  }

  lemma BatchKeys(batch: seq<Weighted<Req>>, k: Key)
    ensures k in PayingKeys(InitialDoneStmts(batch)) <==> exists i :: 0 <= i < |batch| && batch[i].item.key == k
    ensures k in Keys(AfterBonusStmts(batch)) <==> exists i :: 0 <= i < |batch| && batch[i].item.key == k
  {
    var p := InitialDoneStmts(batch);
    var r := AfterBonusStmts(batch);
    if i :| 0 <= i < |batch| && batch[i].item.key == k {
      assert p[i].key == k && r[i].key == k;
    }
  }

  /** A payment to the account of the request leaves all payments of the row with it. */
  lemma PayeeAdded(r: Row, a: Account, x: Weighted<Req>)
    requires PaidToOwner(r, a) && x.item.row.mainnet == r.mainnet
    ensures PaidToOwner(r, PaidInitial(a, x)) && PaidToOwner(r, PaidBonus(a, x))
  {
  }

  lemma InitialAdded(r: Row, a: Account, x: Weighted<Req>, rewarding: bool)
    requires AcctOk(r, a, false, rewarding) && r.status == TxnConfirmed
    requires x.amount == InitialDue(r) && x.item.row.mainnet == r.mainnet
    ensures AcctOk(r, PaidInitial(a, x), true, rewarding)
  {
    hide InitialDue, BonusDue, PaidToOwner;
    PayeeAdded(r, a, x);
  }

  lemma BonusAdded(r: Row, a: Account, x: Weighted<Req>, paying: bool)
    requires AcctOk(r, a, paying, false) && r.status == BonusCalculated
    requires x.amount == BonusDue(r) && x.item.row.mainnet == r.mainnet
    ensures AcctOk(r, PaidBonus(a, x), paying, true)
  {
    hide InitialDue, BonusDue, PaidToOwner;
    PayeeAdded(r, a, x);
  }

  /** One account when a batch is paid. */
  lemma PayOneAcct(t: Table, book: Book, batch: seq<Weighted<Req>>, k: Key, paying: bool, rewarding: bool)
    requires InitialBatchOk(t, batch) && k in t
    requires AcctOk(t[k], Acct(book, k), paying, rewarding)
    requires paying ==> forall i :: 0 <= i < |batch| ==> batch[i].item.key != k
    ensures AcctOk(t[k], Acct(PayInitial(book, batch), k),
                   paying || k in PayingKeys(InitialDoneStmts(batch)), rewarding)
  {
    hide PayInitial, PaidInitial, AcctOk, InitialDue, PayingKeys, InitialDoneStmts;
    PayInitialAcct(book, batch, k);
    BatchKeys(batch, k);
    if i :| 0 <= i < |batch| && batch[i].item.key == k {
      InitialAdded(t[k], Acct(book, k), batch[i], rewarding);
    }
  }

  /** Paying a batch of due rows whose writes are not pending yet, and issuing those writes. */
  lemma PayBook(t: Table, q: seq<Stmt>, dispQ: seq<Stmt>, book: Book, batch: seq<Weighted<Req>>)
    requires BookOk(t, q, dispQ, book) && InitialBatchOk(t, batch)
    requires forall i :: 0 <= i < |batch| ==> batch[i].item.key !in Keys(q)
    ensures BookOk(t, q + InitialDoneStmts(batch), dispQ, PayInitial(book, batch))
  {
    var p := InitialDoneStmts(batch);
    var book' := PayInitial(book, batch);
    PayingAppend(q, p);
    forall k | k in book' ensures k in t {
      PayInitialAcct(book, batch, k);
    }
    forall k | k in t ensures AcctOk(t[k], Acct(book', k), k in PayingKeys(q + p), k in Keys(dispQ)) {
      assert k in PayingKeys(q) ==> k in Keys(q);
      PayOneAcct(t, book, batch, k, k in PayingKeys(q), k in Keys(dispQ));
    }
  }

  lemma PayBatch(c: Config, eth: Eth, t: Table, q: seq<Stmt>, dispQ: seq<Stmt>, book: Book, batch: seq<Weighted<Req>>)
    requires QueueOk(c, eth, t, q, TheScheduler) && BookOk(t, q, dispQ, book)
    requires InitialBatchOk(t, batch)
    requires forall i :: 0 <= i < |batch| ==> batch[i].item.key !in Keys(q)
    ensures QueueOk(c, eth, t, q + InitialDoneStmts(batch), TheScheduler)
    ensures BookOk(t, q + InitialDoneStmts(batch), dispQ, PayInitial(book, batch))
  {
    PayQueue(c, eth, t, q, batch);
    PayBook(t, q, dispQ, book, batch);
  }

  lemma PayingAppend(q: seq<Stmt>, p: seq<Stmt>)
    ensures PayingKeys(q + p) == PayingKeys(q) + PayingKeys(p)
    ensures Keys(q + p) == Keys(q) + Keys(p)
  {
    forall k | k in PayingKeys(p) ensures k in PayingKeys(q + p) {
      var i :| 0 <= i < |p| && p[i].MarkInitialDone? && p[i].key == k;
      assert (q + p)[|q| + i] == p[i];
    }
    forall k | k in Keys(p) ensures k in Keys(q + p) {
      var i :| 0 <= i < |p| && p[i].key == k;
      assert (q + p)[|q| + i] == p[i];
    }
    forall k | k in PayingKeys(q) ensures k in PayingKeys(q + p) {
      var i :| 0 <= i < |q| && q[i].MarkInitialDone? && q[i].key == k;
      assert (q + p)[i] == q[i];
    }
    forall k | k in Keys(q) ensures k in Keys(q + p) {
      var i :| 0 <= i < |q| && q[i].key == k;
      assert (q + p)[i] == q[i];
    }
  }

  /** The rows of the first batch are table rows. */
  lemma FirstGroupAgrees(t: Table, reqs: seq<Req>)
    requires AreRows(reqs, t, IsPending)
    ensures DistinctReqs(WithStatus(reqs, TxnConfirmed)) && AgreesConfirmed(WithStatus(reqs, TxnConfirmed), t)
  {
    WithStatusOk(reqs, TxnConfirmed);
  }

  lemma PayFirstInv(c: Config, s: Sys)
    requires Inv(c, s) && CanPayFirst(s)
    ensures Inv(c, DoPayFirst(s))
  {
    hide BookOk, RowsOk, EthOk, ResetOk, DisbursalOk, InitialBatchOk;
    var s' := DoPayFirst(s);
    var batch := FirstBatch(s.sched.reqs, s.sched.budget);
    FirstGroupAgrees(s.table, s.sched.reqs);
    InitialBatchFits(s.table, WithStatus(s.sched.reqs, TxnConfirmed), s.sched.budget.allowed, s.sched.budget.balance);
    PayBatch(c, s.eth, s.table, SchedQueue(s), s.dispIssued, s.book, batch);
    assert SchedQueue(s') == SchedQueue(s) + InitialDoneStmts(batch);
  }

  lemma PaySecondInv(c: Config, s: Sys)
    requires Inv(c, s) && CanPaySecond(s)
    ensures Inv(c, DoPaySecond(s))
  {
    hide BookOk, RowsOk, EthOk, ResetOk, DisbursalOk, InitialBatchOk;
    var s' := DoPaySecond(s);
    var batch := InitialBatch(s.sched.confirmed, s.sched.budget.allowed, s.sched.budget.balance);
    assert Drain(s.issued, s.table) == s.table;
    InitialBatchFits(s.table, s.sched.confirmed, s.sched.budget.allowed, s.sched.budget.balance);
    assert SchedQueue(s) == s.backlog;
    forall i | 0 <= i < |batch| ensures batch[i].item.key !in Keys(SchedQueue(s)) {
      assert batch[i].item in s.sched.confirmed;
    }
    PayBatch(c, s.eth, s.table, SchedQueue(s), s.dispIssued, s.book, batch);
    assert SchedQueue(s') == SchedQueue(s) + InitialDoneStmts(batch);
  }

  // ---- Judging ----

  /** Invariant of the two forEach loops; `seen` are the keys judged so far. */
  predicate JudgedOk(c: Config, eth: Eth, t: Table, j: Judgement, seen: set<Key>) {
    && QueueOk(c, eth, t, j.writes, TheScheduler)
    && (forall i :: 0 <= i < |j.writes| ==> !j.writes[i].MarkInitialDone? && j.writes[i].key in seen)
    && DistinctReqs(j.confirmed)
    && (forall i :: 0 <= i < |j.confirmed| ==> j.confirmed[i].key in t && j.confirmed[i].key in seen)
    && AgreesConfirmed(j.confirmed, Drain(j.writes, t))
  }

  lemma AddWrite(c: Config, eth: Eth, t: Table, j: Judgement, st: Stmt, seen: set<Key>)
    requires JudgedOk(c, eth, t, j, seen) && st.key !in seen
    requires StmtReady(c, eth, t, st) && Writer(st) == TheScheduler && !st.MarkInitialDone?
    ensures JudgedOk(c, eth, t, j.(writes := j.writes + [st]), seen + {st.key})
    ensures Drain(j.writes + [st], t).Keys == t.Keys
    ensures Drain(j.writes + [st], t)[st.key] == Assign(st, t[st.key])
  {
    AppendQueue(c, eth, t, j.writes, [st], TheScheduler);
    DrainKeys(j.writes, t);
    DrainAppend(j.writes, st, t);
    DrainUntouched(j.writes, t, st.key);
    forall i | 0 <= i < |j.confirmed| ensures j.confirmed[i].key != st.key { }
  }

  lemma AddConfirmed(c: Config, eth: Eth, t: Table, j: Judgement, r: Req, seen: set<Key>)
    requires JudgedOk(c, eth, t, j, seen)
    requires r.key in seen && r.key in t && AgreesConfirmed([r], Drain(j.writes, t))
    requires forall i :: 0 <= i < |j.confirmed| ==> j.confirmed[i].key != r.key
    ensures JudgedOk(c, eth, t, j.(confirmed := j.confirmed + [r]), seen)
  {
    assert [r][0] == r;
  }

  lemma JudgeNewOneOk(c: Config, eth: Eth, t: Table, j: Judgement, req: Req, answer: Option<Receipt>, seen: set<Key>)
    requires JudgedOk(c, eth, t, j, seen) && req.key !in seen
    requires req.key in t && t[req.key] == req.row && req.row.status == SigValid
    requires HonestAnswer(eth.mined, req.key.hash, answer)
    ensures JudgedOk(c, eth, t, JudgeNewOne(c, j, req, TransferToVault(c, answer), eth.height), seen + {req.key})
  {
    var txn := TransferToVault(c, answer);
    AcceptanceMeansBacking(c, answer, req.key);
    if txn.Ok? && IsValidTransferFrom(txn.value, req.key.addr) {
      if IsTxnConfirmedAsOf(c, txn.value, eth.height) {
        var st := MarkParsedAndConfirmed(req.key, txn.value.value, txn.value.block.value);
        AddWrite(c, eth, t, j, st, seen);
        AddConfirmed(c, eth, t, j.(writes := j.writes + [st]),
          req.(row := req.row.(status := TxnConfirmed, erc20 := Some(txn.value.value))), seen + {req.key});
      } else {
        AddWrite(c, eth, t, j, MarkParsed(req.key, txn.value.value), seen);
      }
    } else {
      AddWrite(c, eth, t, j, MarkInvalid(req.key), seen);
    }
  }

  lemma JudgeParsedOneOk(c: Config, eth: Eth, t: Table, j: Judgement, req: Req, answer: Option<Receipt>, seen: set<Key>)
    requires JudgedOk(c, eth, t, j, seen) && req.key !in seen
    requires req.key in t && t[req.key] == req.row && req.row.status == TxnParsed
    requires HonestAnswer(eth.mined, req.key.hash, answer)
    ensures JudgedOk(c, eth, t, JudgeParsedOne(c, j, req, TransferToVault(c, answer), eth.height), seen + {req.key})
  {
    var txn := TransferToVault(c, answer);
    if !j.aborted && txn.Ok? && IsTxnConfirmedAsOf(c, txn.value, eth.height) {
      var st := MarkConfirmed(req.key, txn.value.block.value);
      AddWrite(c, eth, t, j, st, seen);
      AddConfirmed(c, eth, t, j.(writes := j.writes + [st]), req.(row := req.row.(status := TxnConfirmed)), seen + {req.key});
    }
  }

  function ReqKeys(reqs: seq<Req>): set<Key> {
    set i | 0 <= i < |reqs| :: reqs[i].key
  }

  /** Every new row, each with the answer fetched for its own hash. */
  predicate AnswersMatch(eth: Eth, t: Table, reqs: seq<Req>, answers: seq<Option<Receipt>>, offset: nat, st: Status) {
    && DistinctReqs(reqs) && offset + |reqs| <= |answers|
    && (forall i :: 0 <= i < |reqs| ==>
          && reqs[i].key in t && t[reqs[i].key] == reqs[i].row && reqs[i].row.status == st
          && HonestAnswer(eth.mined, reqs[i].key.hash, answers[offset + i]))
  }

  lemma {:induction false} JudgeNewOk(c: Config, eth: Eth, t: Table, reqs: seq<Req>, answers: seq<Option<Receipt>>)
    requires AnswersMatch(eth, t, reqs, answers, 0, SigValid)
    ensures JudgedOk(c, eth, t, JudgeNew(c, reqs, FetchAll(c, answers), eth.height), ReqKeys(reqs))
    decreases |reqs|
  {
    if reqs != [] {
      var n := |reqs| - 1;
      JudgeNewOk(c, eth, t, reqs[..n], answers);
      assert ReqKeys(reqs) == ReqKeys(reqs[..n]) + {reqs[n].key} by { SplitKeys(reqs); }
      JudgeNewOneOk(c, eth, t, JudgeNew(c, reqs[..n], FetchAll(c, answers), eth.height), reqs[n], answers[n], ReqKeys(reqs[..n]));
    }
  }

  lemma SplitKeys(reqs: seq<Req>)
    requires reqs != []
    ensures ReqKeys(reqs) == ReqKeys(reqs[..|reqs| - 1]) + {reqs[|reqs| - 1].key}
  {
    var n := |reqs| - 1;
    forall k | k in ReqKeys(reqs[..n]) ensures k in ReqKeys(reqs) {
      var i :| 0 <= i < n && reqs[..n][i].key == k;
      assert reqs[i].key == k;
    }
    forall k | k in ReqKeys(reqs) ensures k in ReqKeys(reqs[..n]) + {reqs[n].key} {
      var i :| 0 <= i < |reqs| && reqs[i].key == k;
      if i < n { assert reqs[..n][i].key == k; }
    }
  }

  lemma {:induction false} JudgeParsedOk(c: Config, eth: Eth, t: Table, j: Judgement, reqs: seq<Req>,
                                         answers: seq<Option<Receipt>>, offset: nat, seen: set<Key>)
    requires JudgedOk(c, eth, t, j, seen) && AnswersMatch(eth, t, reqs, answers, offset, TxnParsed)
    requires seen !! ReqKeys(reqs)
    ensures JudgedOk(c, eth, t, JudgeParsed(c, j, reqs, FetchAll(c, answers), offset, eth.height), seen + ReqKeys(reqs))
    decreases |reqs|
  {
    if reqs == [] {
      assert seen + ReqKeys(reqs) == seen;
    } else {
      var n := |reqs| - 1;
      SplitKeys(reqs);
      JudgeParsedOk(c, eth, t, j, reqs[..n], answers, offset, seen);
      var j' := JudgeParsed(c, j, reqs[..n], FetchAll(c, answers), offset, eth.height);
      LastKeyNew(reqs);
      JudgeParsedOneOk(c, eth, t, j', reqs[n], answers[offset + n], seen + ReqKeys(reqs[..n]));
      assert seen + ReqKeys(reqs) == seen + ReqKeys(reqs[..n]) + {reqs[n].key};
    }
  }

  lemma LastKeyNew(reqs: seq<Req>)
    requires DistinctReqs(reqs) && reqs != []
    ensures reqs[|reqs| - 1].key !in ReqKeys(reqs[..|reqs| - 1])
  {
  }

  lemma AnswerCount(eth: Eth, reqs: seq<Req>, answers: seq<Option<Receipt>>)
    requires HonestAnswers(eth.mined, reqs, answers)
    ensures |answers| == |Unconfirmed(reqs)|
  {
  }

  lemma GroupsMatch(eth: Eth, t: Table, reqs: seq<Req>, answers: seq<Option<Receipt>>)
    requires DistinctReqs(reqs) && AgreesUnconfirmed(reqs, t) && HonestAnswers(eth.mined, reqs, answers)
    ensures AnswersMatch(eth, t, WithStatus(reqs, SigValid), answers, 0, SigValid)
    ensures AnswersMatch(eth, t, WithStatus(reqs, TxnParsed), answers, |WithStatus(reqs, SigValid)|, TxnParsed)
    ensures forall k :: k in ReqKeys(WithStatus(reqs, SigValid)) ==> k in t && t[k].status == SigValid
    ensures forall k :: k in ReqKeys(WithStatus(reqs, TxnParsed)) ==> k in t && t[k].status == TxnParsed
  {
    hide WithStatus, HonestAnswers, AgreesUnconfirmed, AnswersMatch;
    WithStatusOk(reqs, SigValid);
    WithStatusOk(reqs, TxnParsed);
    var a, b := WithStatus(reqs, SigValid), WithStatus(reqs, TxnParsed);
    assert |answers| == |a + b| by { AnswerCount(eth, reqs, answers); }
    assert (a + b)[0..|a|] == a && (a + b)[|a|..|a| + |b|] == b;
    GroupMatches(eth, t, reqs, WithStatus(reqs, SigValid), answers, 0, SigValid);
    GroupMatches(eth, t, reqs, WithStatus(reqs, TxnParsed), answers, |WithStatus(reqs, SigValid)|, TxnParsed);
  }

  /**
    Judging as a whole: although the fetches of both groups are one concatenated list, every row is judged
    by the receipt of its own hash, and the in-memory rows are what the issued statements will make of the table.
   */
  lemma JudgeOk(c: Config, eth: Eth, t: Table, reqs: seq<Req>, answers: seq<Option<Receipt>>)
    requires DistinctReqs(reqs) && AgreesUnconfirmed(reqs, t)
    requires HonestAnswers(eth.mined, reqs, answers)
    ensures JudgedOk(c, eth, t, Judge(c, reqs, FetchAll(c, answers), eth.height),
                     ReqKeys(WithStatus(reqs, SigValid)) + ReqKeys(WithStatus(reqs, TxnParsed)))
    ensures forall k :: k in ReqKeys(WithStatus(reqs, SigValid)) + ReqKeys(WithStatus(reqs, TxnParsed)) ==>
              k in t && t[k].status in {SigValid, TxnParsed}
  {
    var newReqs := WithStatus(reqs, SigValid);
    var parsed := WithStatus(reqs, TxnParsed);
    GroupsMatch(eth, t, reqs, answers);
    JudgeNewOk(c, eth, t, newReqs, answers);
    JudgeParsedOk(c, eth, t, JudgeNew(c, newReqs, FetchAll(c, answers), eth.height), parsed, answers, |newReqs|, ReqKeys(newReqs));
  }

  lemma GroupMatches(eth: Eth, t: Table, reqs: seq<Req>, group: seq<Req>, answers: seq<Option<Receipt>>, offset: nat, st: Status)
    requires AgreesUnconfirmed(reqs, t) && st in {SigValid, TxnParsed}
    requires DistinctReqs(group) && (forall i :: 0 <= i < |group| ==> group[i] in reqs && group[i].row.status == st)
    requires HonestAnswers(eth.mined, reqs, answers) && offset + |group| <= |answers|
    requires Unconfirmed(reqs)[offset..offset + |group|] == group
    ensures AnswersMatch(eth, t, group, answers, offset, st)
    ensures forall k :: k in ReqKeys(group) ==> k in t && t[k].status == st
  {
    forall i | 0 <= i < |group|
      ensures group[i].key in t && t[group[i].key] == group[i].row
      ensures HonestAnswer(eth.mined, group[i].key.hash, answers[offset + i])
    {
      assert group[i] in reqs;
      assert Unconfirmed(reqs)[offset + i] == Unconfirmed(reqs)[offset..offset + |group|][i];
    }
  }

  /** Nothing the run still has pending from its first batch concerns an unconfirmed row. */
  lemma BacklogApart(c: Config, eth: Eth, t: Table, backlog: seq<Stmt>, k: Key)
    requires QueueOk(c, eth, t, backlog, TheScheduler) && OnlyPays(backlog)
    requires k in t && t[k].status in {SigValid, TxnParsed}
    ensures k !in Keys(backlog)
  {
    forall i | 0 <= i < |backlog| ensures backlog[i].key != k {
      assert StmtReady(c, eth, t, backlog[i]);
    }
  }

  lemma JudgeQueue(c: Config, eth: Eth, t: Table, backlog: seq<Stmt>, j: Judgement, seen: set<Key>)
    requires QueueOk(c, eth, t, backlog, TheScheduler) && OnlyPays(backlog)
    requires JudgedOk(c, eth, t, j, seen)
    requires forall k :: k in seen ==> k in t && t[k].status in {SigValid, TxnParsed}
    ensures QueueOk(c, eth, t, backlog + j.writes, TheScheduler)
    ensures PayingKeys(backlog + j.writes) == PayingKeys(backlog)
    ensures forall i :: 0 <= i < |j.confirmed| ==> j.confirmed[i].key !in Keys(backlog)
  {
    forall k | k in seen ensures k !in Keys(backlog) {
      BacklogApart(c, eth, t, backlog, k);
    }
    forall i, n | 0 <= i < |backlog| && 0 <= n < |j.writes| ensures backlog[i].key != j.writes[n].key {
      assert backlog[i].key in Keys(backlog);
    }
    AppendQueue(c, eth, t, backlog, j.writes, TheScheduler);
    PayingAppend(backlog, j.writes);
    assert PayingKeys(j.writes) == {};
  }

  lemma JudgeControl(c: Config, eth: Eth, t: Table, backlog: seq<Stmt>, j: Judgement, seen: set<Key>, b: Budget)
    requires QueueOk(c, eth, t, backlog, TheScheduler) && OnlyPays(backlog) && BudgetOk(b)
    requires JudgedOk(c, eth, t, j, seen)
    requires forall k :: k in seen ==> k in t && t[k].status in {SigValid, TxnParsed}
    ensures ControlOk(t, Judged(j.confirmed, b), backlog, j.writes, false)
  {
    JudgeQueue(c, eth, t, backlog, j, seen);
  }

  lemma JudgeInv(c: Config, s: Sys, answers: seq<Option<Receipt>>)
    requires Inv(c, s) && CanJudge(s, answers)
    ensures Inv(c, DoJudge(c, s, answers))
  {
    hide RowsOk, EthOk, ResetOk, DisbursalOk, JudgedOk, Judge;
    var reqs := s.sched.reqs;
    var j := Judge(c, reqs, FetchAll(c, answers), s.eth.height);
    var s' := DoJudge(c, s, answers);
    var seen := ReqKeys(WithStatus(reqs, SigValid)) + ReqKeys(WithStatus(reqs, TxnParsed));
    JudgeOk(c, s.eth, s.table, reqs, answers);
    assert SchedQueue(s) == s.backlog;
    assert SchedQueue(s') == s.backlog + j.writes;
    JudgeQueue(c, s.eth, s.table, s.backlog, j, seen);
    JudgeControl(c, s.eth, s.table, s.backlog, j, seen, s.sched.budget);
  }

  // ---- Statements taking effect, or not ----

  lemma PopKeys(q: seq<Stmt>)
    requires DistinctKeys(q) && q != []
    ensures PayingKeys(q[1..]) == PayingKeys(q) - {q[0].key}
    ensures Keys(q[1..]) == Keys(q) - {q[0].key}
    ensures q[0].key in PayingKeys(q) <==> q[0].MarkInitialDone?
    ensures q[0].key in Keys(q)
  {
    assert q == [q[0]] + q[1..];
    PayingAppend([q[0]], q[1..]);
    assert [q[0]][0] == q[0];
    assert PayingKeys([q[0]]) == if q[0].MarkInitialDone? then {q[0].key} else {};
    assert Keys([q[0]]) == {q[0].key};
    assert q[0].key !in Keys(q[1..]);
    assert PayingKeys(q[1..]) <= Keys(q[1..]);
  }

  /** One account when one statement of the scheduler takes effect, or is lost. */
  lemma SchedExecAcct(c: Config, eth: Eth, t: Table, st: Stmt, a: Account)
    requires StmtReady(c, eth, t, st) && Writer(st) == TheScheduler
    requires AcctOk(t[st.key], a, st.MarkInitialDone?, false)
    ensures AcctOk(Assign(st, t[st.key]), a, false, false)
    ensures AcctOk(t[st.key], if st.MarkInitialDone? then a.(initialLost := a.initialLost + 1) else a, false, false)
  {
  }

  lemma DispExecAcct(c: Config, eth: Eth, t: Table, st: Stmt, a: Account)
    requires StmtReady(c, eth, t, st) && Writer(st) == TheDisbursal
    requires AcctOk(t[st.key], a, false, true)
    ensures AcctOk(Assign(st, t[st.key]), a, false, false)
    ensures AcctOk(t[st.key], a.(bonusLost := a.bonusLost + 1), false, false)
  {
  }

  lemma CalcExecAcct(c: Config, eth: Eth, t: Table, st: Stmt, a: Account, paying: bool)
    requires StmtReady(c, eth, t, st) && Writer(st) == TheCalculation
    requires AcctOk(t[st.key], a, paying, false)
    ensures AcctOk(Assign(st, t[st.key]), a, paying, false)
  {
  }

  /** A key is in at most one process's queue. */
  lemma QueuesApart(c: Config, eth: Eth, t: Table, st: Stmt, q: seq<Stmt>, a: Actor)
    requires StmtReady(c, eth, t, st) && Writer(st) != a && QueueOk(c, eth, t, q, a)
    ensures st.key !in Keys(q)
  {
    forall i | 0 <= i < |q| ensures q[i].key != st.key {
      assert StmtReady(c, eth, t, q[i]);
    }
  }

  /** Books change one account at a time. */
  lemma BookFrame(t: Table, q: seq<Stmt>, dispQ: seq<Stmt>, book: Book,
                  t': Table, q': seq<Stmt>, dispQ': seq<Stmt>, book': Book, k: Key)
    requires BookOk(t, q, dispQ, book) && k in t
    requires t'.Keys == t.Keys && (forall j :: j in t && j != k ==> t'[j] == t[j])
    requires book'.Keys <= book.Keys + {k} && (forall j :: j != k ==> Acct(book', j) == Acct(book, j))
    requires PayingKeys(q') == PayingKeys(q) - {k} || q' == q
    requires Keys(dispQ') == Keys(dispQ) - {k} || dispQ' == dispQ
    requires AcctOk(t'[k], Acct(book', k), k in PayingKeys(q'), k in Keys(dispQ'))
    ensures BookOk(t', q', dispQ', book')
  {
    forall j | j in t' ensures AcctOk(t'[j], Acct(book', j), j in PayingKeys(q'), j in Keys(dispQ')) {
      if j != k {
        assert AcctOk(t[j], Acct(book, j), j in PayingKeys(q), j in Keys(dispQ));
      }
    }
  }

  /** The books after the head of the scheduler's queue took effect or was lost. */
  lemma SchedExecBook(c: Config, eth: Eth, t: Table, q: seq<Stmt>, dispQ: seq<Stmt>, book: Book)
    requires QueueOk(c, eth, t, q, TheScheduler) && q != []
    requires QueueOk(c, eth, t, dispQ, TheDisbursal) && BookOk(t, q, dispQ, book)
    ensures BookOk(Exec(q[0], t), q[1..], dispQ, book)
    ensures BookOk(t, q[1..], dispQ, LoseOne(book, q[0]))
  {
    var k := q[0].key;
    assert StmtReady(c, eth, t, q[0]) && Writer(q[0]) == TheScheduler;
    PopKeys(q);
    QueuesApart(c, eth, t, q[0], dispQ, TheDisbursal);
    assert AcctOk(t[k], Acct(book, k), k in PayingKeys(q), k in Keys(dispQ));
    SchedExecAcct(c, eth, t, q[0], Acct(book, k));
    BookFrame(t, q, dispQ, book, Exec(q[0], t), q[1..], dispQ, book, k);
    LoseOneAcct(book, q[0]);
    BookFrame(t, q, dispQ, book, t, q[1..], dispQ, LoseOne(book, q[0]), k);
  }

  lemma LoseOneAcct(book: Book, st: Stmt)
    ensures LoseOne(book, st).Keys <= book.Keys + {st.key}
    ensures forall j :: j != st.key ==> Acct(LoseOne(book, st), j) == Acct(book, j)
    ensures var a := Acct(book, st.key);
            Acct(LoseOne(book, st), st.key)
            == if st.MarkInitialDone? then a.(initialLost := a.initialLost + 1)
               else if st.UpdateAfterBonus? then a.(bonusLost := a.bonusLost + 1) else a
  {
  }

  lemma DispExecBook(c: Config, eth: Eth, t: Table, q: seq<Stmt>, dispQ: seq<Stmt>, book: Book)
    requires QueueOk(c, eth, t, dispQ, TheDisbursal) && dispQ != []
    requires QueueOk(c, eth, t, q, TheScheduler) && BookOk(t, q, dispQ, book)
    ensures BookOk(Exec(dispQ[0], t), q, dispQ[1..], book)
    ensures BookOk(t, q, dispQ[1..], LoseOne(book, dispQ[0]))
  {
    var k := dispQ[0].key;
    assert StmtReady(c, eth, t, dispQ[0]) && Writer(dispQ[0]) == TheDisbursal;
    PopKeys(dispQ);
    QueuesApart(c, eth, t, dispQ[0], q, TheScheduler);
    assert AcctOk(t[k], Acct(book, k), k in PayingKeys(q), k in Keys(dispQ));
    DispExecAcct(c, eth, t, dispQ[0], Acct(book, k));
    BookFrame(t, q, dispQ, book, Exec(dispQ[0], t), q, dispQ[1..], book, k);
    LoseOneAcct(book, dispQ[0]);
    BookFrame(t, q, dispQ, book, t, q, dispQ[1..], LoseOne(book, dispQ[0]), k);
  }

  lemma CalcExecBook(c: Config, eth: Eth, t: Table, calcQ: seq<Stmt>, q: seq<Stmt>, dispQ: seq<Stmt>, book: Book)
    requires QueueOk(c, eth, t, calcQ, TheCalculation) && calcQ != []
    requires QueueOk(c, eth, t, dispQ, TheDisbursal) && BookOk(t, q, dispQ, book)
    ensures BookOk(Exec(calcQ[0], t), q, dispQ, book)
  {
    var k := calcQ[0].key;
    assert StmtReady(c, eth, t, calcQ[0]) && Writer(calcQ[0]) == TheCalculation;
    QueuesApart(c, eth, t, calcQ[0], dispQ, TheDisbursal);
    assert AcctOk(t[k], Acct(book, k), k in PayingKeys(q), k in Keys(dispQ));
    CalcExecAcct(c, eth, t, calcQ[0], Acct(book, k), k in PayingKeys(q));
    BookFrame(t, q, dispQ, book, Exec(calcQ[0], t), q, dispQ, book, k);
  }

  lemma PayingRunExec(c: Config, eth: Eth, t: Table, st: Stmt, reqs: seq<Req>)
    requires StmtReady(c, eth, t, st) && st.MarkInitialDone? && AgreesUnconfirmed(reqs, t)
    ensures AgreesUnconfirmed(reqs, Exec(st, t))
  {
  }

  /** A run's in-memory verdicts stay what the remaining statements will make of the table. */
  lemma JudgedExec(t: Table, t': Table, confirmed: seq<Req>, b: Budget, backlog: seq<Stmt>, backlog': seq<Stmt>,
                   issued: seq<Stmt>, issued': seq<Stmt>, st: Stmt)
    requires ControlOk(t, Judged(confirmed, b), backlog, issued, false)
    requires DistinctKeys(backlog + issued) && t' == Exec(st, t)
    requires (backlog != [] && st == backlog[0] && backlog' == backlog[1..] && issued' == issued)
          || (backlog == [] == backlog' && issued != [] && st == issued[0] && issued' == issued[1..])
    ensures ControlOk(t', Judged(confirmed, b), backlog', issued', false)
  {
    assert Keys(backlog') <= Keys(backlog);
    forall i | 0 <= i < |confirmed|
      ensures confirmed[i].key in t' && Owner(t'[confirmed[i].key].status) == TheScheduler
      ensures confirmed[i].key in Drain(issued', t')
      ensures Drain(issued', t')[confirmed[i].key] == Drain(issued, t)[confirmed[i].key]
    {
      JudgedExecOne(t, issued, backlog, st, confirmed[i].key);
    }
  }

  lemma JudgedExecOne(t: Table, issued: seq<Stmt>, backlog: seq<Stmt>, st: Stmt, k: Key)
    requires k in t && Owner(t[k].status) == TheScheduler && k !in Keys(backlog)
    requires k in Drain(issued, t) && Drain(issued, t)[k].status == TxnConfirmed
    requires DistinctKeys(backlog + issued)
    requires if backlog != [] then st == backlog[0] else issued != [] && st == issued[0]
    ensures k in Exec(st, t) && Owner(Exec(st, t)[k].status) == TheScheduler
    ensures var rest := if backlog != [] then issued else issued[1..];
            k in Drain(rest, Exec(st, t)) && Drain(rest, Exec(st, t))[k] == Drain(issued, t)[k]
  {
    if backlog != [] {
      assert st.key in Keys(backlog);
      DrainLocal(issued, t, Exec(st, t), k);
    } else {
      assert backlog + issued == issued;
      if k == st.key {
        DrainUntouched(issued[1..], Exec(st, t), k);
      }
    }
  }

  lemma PopOnlyPays(q: seq<Stmt>)
    requires OnlyPays(q) && q != []
    ensures q[0].MarkInitialDone? && OnlyPays(q[1..])
  {
  }

  /** What the scheduler knows locally, after the head of its own queue ran. */
  lemma SchedExecControl(c: Config, s: Sys, applied: bool, reported: bool)
    requires QueueOk(c, s.eth, s.table, SchedQueue(s), TheScheduler)
    requires ControlOk(s.table, s.sched, s.backlog, s.issued, s.failed)
    requires CanExec(s, applied, reported)
    ensures var s' := DoExec(s, applied, reported);
            ControlOk(s'.table, s'.sched, s'.backlog, s'.issued, s'.failed)
  {
    var q := SchedQueue(s);
    assert SchedQueue(DoExec(s, applied, reported)) == q[1..];
    assert StmtReady(c, s.eth, s.table, q[0]);
    match s.sched
    case Judged(_, _) => JudgedExecControl(s, applied, reported);
    case FirstSettling(reqs, _) =>
      PopOnlyPays(q);
      PayingRunExec(c, s.eth, s.table, q[0], reqs);
    case AtFetch(reqs, _) =>
      assert q == s.backlog;
      PopOnlyPays(q);
      PayingRunExec(c, s.eth, s.table, q[0], reqs);
    case _ =>
  }

  lemma JudgedExecControl(s: Sys, applied: bool, reported: bool)
    requires DistinctKeys(SchedQueue(s)) && s.sched.Judged?
    requires ControlOk(s.table, s.sched, s.backlog, s.issued, s.failed)
    requires CanExec(s, applied, reported)
    ensures var s' := DoExec(s, applied, reported);
            ControlOk(s'.table, s'.sched, s'.backlog, s'.issued, s'.failed)
  {
    var s' := DoExec(s, applied, reported);
    assert Keys(s'.backlog) <= Keys(s.backlog);
    if !s'.failed {
      if applied {
        JudgedExec(s.table, s'.table, s.sched.confirmed, s.sched.budget, s.backlog, s'.backlog, s.issued, s'.issued, SchedQueue(s)[0]);
      } else {
        JudgedLostBacklog(s.table, s.sched.confirmed, s.sched.budget, s.backlog, s.issued);
      }
    }
  }

  lemma JudgedLostBacklog(t: Table, confirmed: seq<Req>, b: Budget, backlog: seq<Stmt>, issued: seq<Stmt>)
    requires ControlOk(t, Judged(confirmed, b), backlog, issued, false) && backlog != []
    ensures ControlOk(t, Judged(confirmed, b), backlog[1..], issued, false)
  {
    assert Keys(backlog[1..]) <= Keys(backlog);
  }

  lemma SchedExecTable(c: Config, s: Sys)
    requires Inv(c, s) && SchedQueue(s) != []
    ensures var q := SchedQueue(s);
            var t' := Exec(q[0], s.table);
            && RowsOk(c, s.eth, t')
            && QueueOk(c, s.eth, t', s.calcIssued, TheCalculation)
            && QueueOk(c, s.eth, t', s.dispIssued, TheDisbursal)
            && DisbursalOk(t', s.disp, s.dispIssued)
            && ResetOk(c, s.eth, t', s.reset)
  {
    var q := SchedQueue(s);
    assert StmtReady(c, s.eth, s.table, q[0]) && Writer(q[0]) == TheScheduler;
    ExecReady(c, s.eth, s.table, q[0]);
    OthersUndisturbed(c, s, Exec(q[0], s.table), TheScheduler);
  }

  lemma SchedExecInv(c: Config, s: Sys, applied: bool, reported: bool)
    requires Inv(c, s) && CanExec(s, applied, reported)
    ensures Inv(c, DoExec(s, applied, reported))
  {
    hide QueueOk, BookOk, ControlOk, RowsOk, EthOk, ResetOk, DisbursalOk;
    var q := SchedQueue(s);
    var s' := DoExec(s, applied, reported);
    assert SchedQueue(s') == q[1..];
    assert QueueOk(c, s.eth, s'.table, SchedQueue(s'), TheScheduler) by {
      PopQueue(c, s.eth, s.table, q, TheScheduler);
    }
    assert BookOk(s'.table, SchedQueue(s'), s.dispIssued, s'.book) by {
      SchedExecBook(c, s.eth, s.table, q, s.dispIssued, s.book);
    }
    assert ControlOk(s'.table, s'.sched, s'.backlog, s'.issued, s'.failed) by {
      SchedExecControl(c, s, applied, reported);
    }
    if applied {
      SchedExecTable(c, s);
    }
  }

  /** A crash forgets every pending statement; the books remember which payments lost their write. */
  lemma {:induction false} SchedCrashBook(c: Config, eth: Eth, t: Table, q: seq<Stmt>, dispQ: seq<Stmt>, book: Book)
    requires QueueOk(c, eth, t, q, TheScheduler)
    requires QueueOk(c, eth, t, dispQ, TheDisbursal) && BookOk(t, q, dispQ, book)
    ensures BookOk(t, [], dispQ, Lose(book, q))
    decreases |q|
  {
    if q != [] {
      SchedExecBook(c, eth, t, q, dispQ, book);
      PopQueue(c, eth, t, q, TheScheduler);
      SchedCrashBook(c, eth, t, q[1..], dispQ, LoseOne(book, q[0]));
    }
  }

  lemma {:induction false} DispCrashBook(c: Config, eth: Eth, t: Table, q: seq<Stmt>, dispQ: seq<Stmt>, book: Book)
    requires QueueOk(c, eth, t, q, TheScheduler)
    requires QueueOk(c, eth, t, dispQ, TheDisbursal) && BookOk(t, q, dispQ, book)
    ensures BookOk(t, q, [], Lose(book, dispQ))
    decreases |dispQ|
  {
    if dispQ != [] {
      DispExecBook(c, eth, t, q, dispQ, book);
      PopQueue(c, eth, t, dispQ, TheDisbursal);
      DispCrashBook(c, eth, t, q, dispQ[1..], LoseOne(book, dispQ[0]));
    }
  }

  lemma SchedCrashInv(c: Config, s: Sys)
    requires Inv(c, s)
    ensures Inv(c, DoCrash(s))
  {
    SchedCrashBook(c, s.eth, s.table, SchedQueue(s), s.dispIssued, s.book);
  }

  // ---- The bonus script ----

  lemma CalcQueue(c: Config, eth: Eth, t: Table, reqs: seq<Req>)
    requires AreRows(reqs, t, AwaitsCalculation) && Divisible(reqs)
    ensures QueueOk(c, eth, t, BonusStmts(c, reqs), TheCalculation)
  {
  }

  lemma CalcSelectInv(c: Config, s: Sys, reqs: seq<Req>)
    requires Inv(c, s) && CanCalcSelect(s, reqs)
    ensures Inv(c, DoCalcSelect(c, s, reqs))
  {
    if Divisible(reqs) {
      CalcQueue(c, s.eth, s.table, reqs);
    }
  }

  lemma CalcExecInv(c: Config, s: Sys, applied: bool)
    requires Inv(c, s) && s.calcIssued != []
    ensures Inv(c, DoCalcExec(s, applied))
  {
    PopQueue(c, s.eth, s.table, s.calcIssued, TheCalculation);
    if applied {
      assert StmtReady(c, s.eth, s.table, s.calcIssued[0]);
      ExecReady(c, s.eth, s.table, s.calcIssued[0]);
      CalcExecBook(c, s.eth, s.table, s.calcIssued, SchedQueue(s), s.dispIssued, s.book);
      OthersUndisturbed(c, s, Exec(s.calcIssued[0], s.table), TheCalculation);
    }
  }

  lemma RewardOneAcct(t: Table, book: Book, batch: seq<Weighted<Req>>, k: Key, paying: bool)
    requires BonusBatchOk(t, batch) && k in t && AcctOk(t[k], Acct(book, k), paying, false)
    ensures AcctOk(t[k], Acct(PayBonus(book, batch), k), paying, k in Keys(AfterBonusStmts(batch)))
  {
    hide PayBonus, PaidBonus, AcctOk, BonusDue, Keys, AfterBonusStmts;
    PayBonusAcct(book, batch, k);
    BatchKeys(batch, k);
    if i :| 0 <= i < |batch| && batch[i].item.key == k {
      BonusAdded(t[k], Acct(book, k), batch[i], paying);
    }
  }

  lemma RewardBook(t: Table, q: seq<Stmt>, book: Book, batch: seq<Weighted<Req>>)
    requires BookOk(t, q, [], book) && BonusBatchOk(t, batch)
    ensures BookOk(t, q, AfterBonusStmts(batch), PayBonus(book, batch))
  {
    var book' := PayBonus(book, batch);
    var p := AfterBonusStmts(batch);
    forall k | k in book' ensures k in t {
      PayBonusAcct(book, batch, k);
    }
    forall k | k in t ensures AcctOk(t[k], Acct(book', k), k in PayingKeys(q), k in Keys(p)) {
      assert AcctOk(t[k], Acct(book, k), k in PayingKeys(q), false);
      RewardOneAcct(t, book, batch, k, k in PayingKeys(q));
    }
  }

  lemma RewardQueue(c: Config, eth: Eth, t: Table, batch: seq<Weighted<Req>>)
    requires BonusBatchOk(t, batch)
    ensures QueueOk(c, eth, t, AfterBonusStmts(batch), TheDisbursal)
  {
  }

  lemma DispPayInv(c: Config, s: Sys, allowed: nat, balance: nat)
    requires Inv(c, s) && CanDispPay(s, allowed, balance)
    ensures Inv(c, DoDispPay(s, allowed, balance))
  {
    BonusBatchFits(s.table, s.disp.value, allowed, balance);
    RewardQueue(c, s.eth, s.table, BonusBatch(s.disp.value, allowed, balance));
    RewardBook(s.table, SchedQueue(s), s.book, BonusBatch(s.disp.value, allowed, balance));
  }

  lemma DispExecInv(c: Config, s: Sys, applied: bool)
    requires Inv(c, s) && s.dispIssued != []
    ensures Inv(c, DoDispExec(s, applied))
  {
    PopQueue(c, s.eth, s.table, s.dispIssued, TheDisbursal);
    DispExecBook(c, s.eth, s.table, SchedQueue(s), s.dispIssued, s.book);
    if applied {
      assert StmtReady(c, s.eth, s.table, s.dispIssued[0]);
      ExecReady(c, s.eth, s.table, s.dispIssued[0]);
      OthersUndisturbed(c, s, Exec(s.dispIssued[0], s.table), TheDisbursal);
    }
  }

  lemma DispCrashInv(c: Config, s: Sys)
    requires Inv(c, s)
    ensures Inv(c, DoDispCrash(s))
  {
    DispCrashBook(c, s.eth, s.table, SchedQueue(s), s.dispIssued, s.book);
  }

  lemma DispSelectInv(c: Config, s: Sys, reqs: seq<Req>, batchSize: nat)
    requires Inv(c, s) && CanDispSelect(s, reqs, batchSize)
    ensures Inv(c, s.(disp := Some(reqs)))
  {
  }

  lemma CalcCrashInv(c: Config, s: Sys)
    requires Inv(c, s)
    ensures Inv(c, s.(calcIssued := []))
  {
  }

  // ---- All steps, all runs ----

  predicate IsSchedulerStep(step: Step) {
    step.SchedSelect? || step.SchedDetails? || step.SchedPayFirst? || step.SchedSkipFirst? || step.SchedFirstSettled?
    || step.SchedJudge? || step.SchedPaySecond? || step.SchedStop? || step.SchedCrash? || step.SchedExec?
  }

  predicate IsBonusStep(step: Step) {
    step.CalcSelect? || step.CalcExec? || step.CalcCrash?
    || step.DispSelect? || step.DispPay? || step.DispExec? || step.DispCrash?
  }

  lemma SchedulerStepInv(c: Config, s: Sys, step: Step)
    requires Inv(c, s) && Enabled(c, s, step) && IsSchedulerStep(step)
    ensures Inv(c, Apply(c, s, step))
  {
    hide Inv, IsSelect, HonestAnswers, Judge, InitialBatch, FirstBatch, Lose, PayInitial;
    match step
    case SchedSelect(reqs) => SchedSelectInv(c, s, reqs);
    case SchedDetails(allowed, balance) => DetailsInv(c, s, allowed, balance);
    case SchedPayFirst => PayFirstInv(c, s);
    case SchedSkipFirst => SkipFirstInv(c, s);
    case SchedFirstSettled => FirstSettledInv(c, s);
    case SchedStop => StopInv(c, s);
    case SchedJudge(answers) => JudgeInv(c, s, answers);
    case SchedPaySecond => PaySecondInv(c, s);
    case SchedCrash => SchedCrashInv(c, s);
    case SchedExec(applied, reported) => SchedExecInv(c, s, applied, reported);
  }

  lemma BonusStepInv(c: Config, s: Sys, step: Step)
    requires Inv(c, s) && Enabled(c, s, step) && IsBonusStep(step)
    ensures Inv(c, Apply(c, s, step))
  {
    hide Inv, BonusStmts, BonusBatch, PayBonus, Lose, IsSelect, IsDisbursalSelect, Divisible;
    match step
    case CalcSelect(reqs) => CalcSelectInv(c, s, reqs);
    case CalcExec(applied) => CalcExecInv(c, s, applied);
    case CalcCrash => CalcCrashInv(c, s);
    case _ => DisbursalStepInv(c, s, step);
  }

  lemma DisbursalStepInv(c: Config, s: Sys, step: Step)
    requires Inv(c, s) && Enabled(c, s, step)
    requires step.DispSelect? || step.DispPay? || step.DispExec? || step.DispCrash?
    ensures Inv(c, Apply(c, s, step))
  {
    hide Inv, BonusBatch, PayBonus, Lose, IsSelect, IsDisbursalSelect;
    match step
    case DispSelect(reqs, batchSize) => DispSelectInv(c, s, reqs, batchSize);
    case DispPay(allowed, balance) => DispPayInv(c, s, allowed, balance);
    case DispExec(applied) => DispExecInv(c, s, applied);
    case DispCrash => DispCrashInv(c, s);
  }

  /** Any step of any process, in any state that satisfies the invariant. */
  lemma StepInv(c: Config, s: Sys, step: Step)
    requires Inv(c, s) && Enabled(c, s, step)
    ensures Inv(c, Apply(c, s, step))
  {
    hide Inv, IsInvalidSelect;
    if IsSchedulerStep(step) {
      SchedulerStepInv(c, s, step);
    } else if IsBonusStep(step) {
      BonusStepInv(c, s, step);
    } else {
      match step
      case Mine(h, tx) => MineInv(c, s, h, tx);
      case NewHeight(h) => HeightInv(c, s, h);
      case Track(k, m, v) => TrackInv(c, s, k, m, v);
      case ResetSelect(keys) => ResetSelectInv(c, s, keys);
      case ResetCommit => ResetCommitInv(c, s);
      case ResetRollback => ResetRollbackInv(c, s);
    }
  }

  /** The invariant holds in every reachable state, under every interleaving. */
  lemma {:induction false} RunInv(c: Config, s: Sys, steps: seq<Step>)
    requires Inv(c, s) && IsRun(c, s, steps)
    ensures Inv(c, Play(c, s, steps))
    decreases |steps|
  {
    hide Inv, Apply, Enabled;
    if steps != [] {
      StepInv(c, s, steps[0]);
      RunInv(c, Apply(c, s, steps[0]), steps[1..]);
    }
  }
}
