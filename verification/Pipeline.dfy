/**
  The two-ledger migration as a state machine. Processes interleave at the granularity of single
  database statements; every nondeterministic choice is an argument of the step that makes it.
 */
module Pipeline {
  import opened Wrappers
  import opened Sums
  import opened Requests
  import opened Amounts
  import opened Receipts
  import opened Greedy
  import opened BonusMath
  import E = Erc20

  // ---- State ----

  /** The Ethereum side. A mined record is fixed; its receipt may come and go and change block. */
  datatype Eth = Eth(token: E.Token, mined: map<Hash, TxRecord>, height: nat)

  /**
    What the Dock chain paid for one row, to which accounts, and how many of the following table writes never took
    effect.
   */
  datatype Account = Account(initial: seq<nat>, initialLost: nat, bonus: seq<nat>, bonusLost: nat, payees: seq<DockAddress>)

  const UNPAID: Account := Account([], 0, [], 0, [])

  /** One more initial payment, and one more bonus, to the account the request in memory names. */
  function PaidInitial(a: Account, x: Weighted<Req>): Account {
    a.(initial := a.initial + [x.amount], payees := a.payees + [x.item.row.mainnet])
  }

  function PaidBonus(a: Account, x: Weighted<Req>): Account {
    a.(bonus := a.bonus + [x.amount], payees := a.payees + [x.item.row.mainnet])
  }

  type Book = map<Key, Account>

  function Acct(book: Book, k: Key): Account {
    if k in book then book[k] else UNPAID
  }

  /** Limits read at the start of a run, what is left of them in the code's variables, and what was really paid. */
  datatype Budget = Budget(allowed0: nat, balance0: nat, allowed: nat, balance: nat, recipients: nat, paid: nat)

  /** Where processPendingRequests is, with the local variables that are still live there. */
  datatype Scheduler =
    | Idle
    | Ready(reqs: seq<Req>)
    | AtFirstBatch(reqs: seq<Req>, budget: Budget)
    | FirstSettling(reqs: seq<Req>, budget: Budget)
    | AtFetch(reqs: seq<Req>, budget: Budget)
    | Judged(confirmed: seq<Req>, budget: Budget)
    | SecondSettling(budget: Budget)

  /**
    `issued` are the statements the scheduler currently awaits, `backlog` earlier ones whose await already
    ended in a rejection. The client runs backlog before issued, each first in first out. `log` is every statement
    of the scheduler that ever took effect.
   */
  datatype Sys = Sys(
    eth: Eth,
    table: Table,
    sched: Scheduler,
    backlog: seq<Stmt>,
    issued: seq<Stmt>,
    failed: bool,
    reset: Option<seq<Key>>,
    calcIssued: seq<Stmt>,
    disp: Option<seq<Req>>,
    dispIssued: seq<Stmt>,
    book: Book,
    log: seq<Stmt>)

  function Start(token: E.Token, height: nat): Sys {
    Sys(Eth(token, map[], height), map[], Idle, [], [], false, None, [], None, [], map[], [])
  }

  function SchedQueue(s: Sys): seq<Stmt> {
    s.backlog + s.issued
  }

  // ---- What the scheduler computes between two awaits ----

  /** One group of reqByStatus, in table order. */
  function WithStatus(reqs: seq<Req>, st: Status): seq<Req>
    decreases |reqs|
  {
    if reqs == [] then []
    else
      var rest := WithStatus(reqs[..|reqs| - 1], st);
      if reqs[|reqs| - 1].row.status == st then rest + [reqs[|reqs| - 1]] else rest
  }

  function WeighInitial(reqs: seq<Req>): (w: seq<Weighted<Req>>)
    ensures |w| == |reqs| && forall i :: 0 <= i < |reqs| ==> w[i] == Weighted(reqs[i], InitialDue(reqs[i].row))
  {
    seq(|reqs|, i requires 0 <= i < |reqs| => Weighted(reqs[i], InitialDue(reqs[i].row)))
  }

  function WeighBonus(reqs: seq<Req>): (w: seq<Weighted<Req>>)
    ensures |w| == |reqs| && forall i :: 0 <= i < |reqs| ==> w[i] == Weighted(reqs[i], BonusDue(reqs[i].row))
  {
    seq(|reqs|, i requires 0 <= i < |reqs| => Weighted(reqs[i], BonusDue(reqs[i].row)))
  }

  function InitialBatch(reqs: seq<Req>, allowed: nat, balance: nat): seq<Weighted<Req>> {
    Select(WeighInitial(reqs), allowed, balance)
  }

  function BonusBatch(reqs: seq<Req>, allowed: nat, balance: nat): seq<Weighted<Req>> {
    Select(WeighBonus(reqs), allowed, balance)
  }

  function InitialDoneStmts(batch: seq<Weighted<Req>>): (q: seq<Stmt>)
    ensures |q| == |batch|
    ensures forall i :: 0 <= i < |batch| ==> q[i] == MarkInitialDone(batch[i].item.key, batch[i].amount)
  {
    seq(|batch|, i requires 0 <= i < |batch| => MarkInitialDone(batch[i].item.key, batch[i].amount))
  }

  function AfterBonusStmts(batch: seq<Weighted<Req>>): (q: seq<Stmt>)
    ensures |q| == |batch|
    ensures forall i :: 0 <= i < |batch| ==> q[i] == UpdateAfterBonus(batch[i].item.key)
  {
    seq(|batch|, i requires 0 <= i < |batch| => UpdateAfterBonus(batch[i].item.key))
  }

  /** Statements to issue, in-memory rows found confirmed, and whether judging threw. */
  datatype Judgement = Judgement(writes: seq<Stmt>, confirmed: seq<Req>, aborted: bool)

  type Fetched = Result<Transferred, Rejection>

  /** One SIG_VALID row against its own settled fetch: always exactly one statement. */
  function JudgeNewOne(c: Config, j: Judgement, req: Req, txn: Fetched, height: nat): Judgement {
    if txn.Ok? && IsValidTransferFrom(txn.value, req.key.addr) then
      if IsTxnConfirmedAsOf(c, txn.value, height) then
        j.(writes := j.writes + [MarkParsedAndConfirmed(req.key, txn.value.value, txn.value.block.value)],
           confirmed := j.confirmed + [req.(row := req.row.(status := TxnConfirmed, erc20 := Some(txn.value.value)))])
      else
        j.(writes := j.writes + [MarkParsed(req.key, txn.value.value)])
    else
      j.(writes := j.writes + [MarkInvalid(req.key)])
  }

  /** One TXN_PARSED row: a rejected fetch leaves no transaction to look at, and the run throws. */
  function JudgeParsedOne(c: Config, j: Judgement, req: Req, txn: Fetched, height: nat): Judgement {
    if j.aborted then j
    else
      match txn
      case Err(_) => j.(aborted := true)
      case Ok(t) =>
        if IsTxnConfirmedAsOf(c, t, height) then
          j.(writes := j.writes + [MarkConfirmed(req.key, t.block.value)],
             confirmed := j.confirmed + [req.(row := req.row.(status := TxnConfirmed))])
        else j
  }

  /** The forEach over the new rows: row i is judged by fetch i. */
  function JudgeNew(c: Config, reqs: seq<Req>, txns: seq<Fetched>, height: nat): Judgement
    requires |reqs| <= |txns|
    decreases |reqs|
  {
    if reqs == [] then Judgement([], [], false)
    else
      var n := |reqs| - 1;
      JudgeNewOne(c, JudgeNew(c, reqs[..n], txns, height), reqs[n], txns[n], height)
  }

  /** The forEach over the parsed rows: row i is judged by fetch offset + i of the concatenated list. */
  function JudgeParsed(c: Config, j: Judgement, reqs: seq<Req>, txns: seq<Fetched>, offset: nat, height: nat): Judgement
    requires offset + |reqs| <= |txns|
    decreases |reqs|
  {
    if reqs == [] then j
    else
      var n := |reqs| - 1;
      JudgeParsedOne(c, JudgeParsed(c, j, reqs[..n], txns, offset, height), reqs[n], txns[offset + n], height)
  }

  function Unconfirmed(reqs: seq<Req>): seq<Req> {
    WithStatus(reqs, SigValid) + WithStatus(reqs, TxnParsed)
  }

  function FetchAll(c: Config, answers: seq<Option<Receipt>>): (txns: seq<Fetched>)
    ensures |txns| == |answers| && forall i :: 0 <= i < |answers| ==> txns[i] == TransferToVault(c, answers[i])
  {
    seq(|answers|, i requires 0 <= i < |answers| => TransferToVault(c, answers[i]))
  }

  function Judge(c: Config, reqs: seq<Req>, txns: seq<Fetched>, height: nat): Judgement
    requires |txns| == |Unconfirmed(reqs)|
  {
    var newReqs := WithStatus(reqs, SigValid);
    JudgeParsed(c, JudgeNew(c, newReqs, txns, height), WithStatus(reqs, TxnParsed), txns, |newReqs|, height)
  }

  // ---- Books ----

  function PayInitial(book: Book, batch: seq<Weighted<Req>>): Book
    decreases |batch|
  {
    if batch == [] then book
    else
      var n := |batch| - 1;
      var b := PayInitial(book, batch[..n]);
      var a := Acct(b, batch[n].item.key);
      b[batch[n].item.key := PaidInitial(a, batch[n])]
  }

  function PayBonus(book: Book, batch: seq<Weighted<Req>>): Book
    decreases |batch|
  {
    if batch == [] then book
    else
      var n := |batch| - 1;
      var b := PayBonus(book, batch[..n]);
      var a := Acct(b, batch[n].item.key);
      b[batch[n].item.key := PaidBonus(a, batch[n])]
  }

  /** The account of a payment whose following write will never take effect. */
  function Loss(a: Account, st: Stmt): Account {
    if st.MarkInitialDone? then a.(initialLost := a.initialLost + 1)
    else if st.UpdateAfterBonus? then a.(bonusLost := a.bonusLost + 1)
    else a
  }

  /** A statement that will never take effect: only the two post-payment writes leave a trace. */
  function LoseOne(book: Book, st: Stmt): Book {
    if st.MarkInitialDone? || st.UpdateAfterBonus? then book[st.key := Loss(Acct(book, st.key), st)] else book
  }

  function Lose(book: Book, q: seq<Stmt>): Book
    decreases |q|
  {
    if q == [] then book else Lose(LoseOne(book, q[0]), q[1..])
  }

  // ---- Steps ----

  datatype Step =
    // the chains and the API
    | Mine(hash: Hash, tx: E.Tx)
    | NewHeight(height: nat)
    | Track(key: Key, mainnet: DockAddress, vesting: Option<bool>)
    // schedule_invalid.js
    | ResetSelect(keys: seq<Key>)
    | ResetCommit
    | ResetRollback
    // scheduler.js
    | SchedSelect(reqs: seq<Req>)
    | SchedDetails(allowed: nat, balance: nat)
    | SchedPayFirst
    | SchedSkipFirst
    | SchedFirstSettled
    | SchedJudge(answers: seq<Option<Receipt>>)
    | SchedPaySecond
    | SchedStop
    | SchedCrash
    | SchedExec(applied: bool, reported: bool)
    // bonus.js 0
    | CalcSelect(reqs: seq<Req>)
    | CalcExec(applied: bool)
    | CalcCrash
    // bonus.js 1
    | DispSelect(reqs: seq<Req>, batchSize: nat)
    | DispPay(allowed: nat, balance: nat)
    | DispExec(applied: bool)
    | DispCrash

  /** reqs are rows of t satisfying p, each once, as one SELECT returns them. */
  predicate AreRows(reqs: seq<Req>, t: Table, p: Row -> bool) {
    && DistinctReqs(reqs)
    && (forall i :: 0 <= i < |reqs| ==> reqs[i].key in t && t[reqs[i].key] == reqs[i].row && p(reqs[i].row))
  }

  /** ... and they are all of them. */
  predicate IsSelect(reqs: seq<Req>, t: Table, p: Row -> bool) {
    && AreRows(reqs, t, p)
    && (forall k :: k in t && p(t[k]) ==> exists i :: 0 <= i < |reqs| && reqs[i].key == k)
  }

  /** LIMIT batchSize, vesting rows first. */
  predicate IsDisbursalSelect(reqs: seq<Req>, t: Table, batchSize: nat) {
    && AreRows(reqs, t, AwaitsDisbursal)
    && |reqs| <= batchSize
    && (|reqs| < batchSize ==> IsSelect(reqs, t, AwaitsDisbursal))
    && (forall i, j :: 0 <= i < j < |reqs| && IsVesting(reqs[j].row) ==> IsVesting(reqs[i].row))
    && ((exists i :: 0 <= i < |reqs| && !IsVesting(reqs[i].row)) ==>
          forall k :: k in t && AwaitsDisbursal(t[k]) && IsVesting(t[k]) ==> exists i :: 0 <= i < |reqs| && reqs[i].key == k)
  }

  predicate IsInvalidSelect(keys: seq<Key>, t: Table) {
    && (forall i, j :: 0 <= i < j < |keys| ==> keys[i] != keys[j])
    && (forall i :: 0 <= i < |keys| ==> keys[i] in t && t[keys[i]].status == Invalid)
    && (forall k :: k in t && t[k].status == Invalid ==> k in keys)
  }

  /** A node's answer is nothing, or the fixed record of that hash under some block number. */
  predicate HonestAnswer(mined: map<Hash, TxRecord>, h: Hash, answer: Option<Receipt>) {
    answer.Some? ==> h in mined && answer.value.tx == mined[h]
  }

  function ResetStmts(keys: seq<Key>): (q: seq<Stmt>)
    ensures |q| == |keys| && forall i :: 0 <= i < |keys| ==> q[i] == ResetStatus(keys[i])
  {
    seq(|keys|, i requires 0 <= i < |keys| => ResetStatus(keys[i]))
  }

  function Charge(b: Budget, batch: seq<Weighted<Req>>): Budget {
    b.(recipients := b.recipients + |batch|, paid := b.paid + Cost(batch))
  }

  /** The code subtracts what the first batch used before it touches the table. */
  function Deduct(b: Budget, batch: seq<Weighted<Req>>): Budget
    requires |batch| <= b.allowed && Cost(batch) <= b.balance
  {
    b.(allowed := b.allowed - |batch|, balance := b.balance - Cost(batch))
  }

  function FirstBatch(reqs: seq<Req>, b: Budget): (r: seq<Weighted<Req>>)
    ensures |r| <= b.allowed && Cost(r) <= b.balance
  {
    InitialBatch(WithStatus(reqs, TxnConfirmed), b.allowed, b.balance)
  }

  // Each step: when it may happen, and the state it leaves.

  function DoMine(s: Sys, h: Hash, tx: E.Tx): Sys {
    var (token, record) := E.Mine(s.eth.token, tx);
    s.(eth := s.eth.(token := token, mined := s.eth.mined[h := record]))
  }

  function DoTrack(c: Config, s: Sys, k: Key, mainnet: DockAddress, vesting: Option<bool>): Sys {
    s.(table := s.table[k := NewRow(mainnet, vesting, k.addr in c.blacklist)])
  }

  predicate CanResetSelect(s: Sys, keys: seq<Key>) {
    s.reset.None? && IsInvalidSelect(keys, s.table)
  }

  function DoResetSelect(s: Sys, keys: seq<Key>): Sys {
    if keys == [] then s else s.(reset := Some(keys))
  }

  function DoResetCommit(s: Sys): Sys
    requires s.reset.Some?
  {
    s.(table := Drain(ResetStmts(s.reset.value), s.table), reset := None)
  }

  /** The SELECT waits behind every statement the client still holds. */
  predicate CanSchedSelect(s: Sys, reqs: seq<Req>) {
    s.sched.Idle? && SchedQueue(s) == [] && IsSelect(reqs, s.table, IsPending)
  }

  function DoDetails(s: Sys, allowed: nat, balance: nat): Sys
    requires s.sched.Ready?
  {
    s.(sched := AtFirstBatch(s.sched.reqs, Budget(allowed, balance, allowed, balance, 0, 0)))
  }

  predicate CanPayFirst(s: Sys) {
    s.sched.AtFirstBatch? && FirstBatch(s.sched.reqs, s.sched.budget) != []
  }

  function DoPayFirst(s: Sys): Sys
    requires CanPayFirst(s)
  {
    var batch := FirstBatch(s.sched.reqs, s.sched.budget);
    s.(sched := FirstSettling(s.sched.reqs, Charge(Deduct(s.sched.budget, batch), batch)),
       book := PayInitial(s.book, batch),
       issued := InitialDoneStmts(batch),
       failed := false)
  }

  function DoSkipFirst(s: Sys): Sys
    requires s.sched.AtFirstBatch?
  {
    s.(sched := AtFetch(s.sched.reqs, s.sched.budget))
  }

  /** All first-batch writes succeeded, or one was rejected and the catch block carries on. */
  predicate CanFirstSettled(s: Sys) {
    s.sched.FirstSettling? && (s.issued == [] || s.failed)
  }

  function DoFirstSettled(s: Sys): Sys
    requires CanFirstSettled(s)
  {
    s.(sched := AtFetch(s.sched.reqs, s.sched.budget), backlog := SchedQueue(s), issued := [])
  }

  predicate HonestAnswers(mined: map<Hash, TxRecord>, reqs: seq<Req>, answers: seq<Option<Receipt>>) {
    && |answers| == |Unconfirmed(reqs)|
    && (forall i :: 0 <= i < |answers| ==> HonestAnswer(mined, Unconfirmed(reqs)[i].key.hash, answers[i]))
  }

  predicate CanJudge(s: Sys, answers: seq<Option<Receipt>>) {
    s.sched.AtFetch? && HonestAnswers(s.eth.mined, s.sched.reqs, answers)
  }

  /** When judging throws, the statements issued so far stay with the client. */
  function DoJudge(c: Config, s: Sys, answers: seq<Option<Receipt>>): Sys
    requires CanJudge(s, answers)
  {
    var j := Judge(c, s.sched.reqs, FetchAll(c, answers), s.eth.height);
    if j.aborted then s.(sched := Idle, backlog := s.backlog + j.writes)
    else s.(sched := Judged(j.confirmed, s.sched.budget), issued := j.writes, failed := false)
  }

  predicate CanPaySecond(s: Sys) {
    s.sched.Judged? && s.issued == [] && !s.failed
    && InitialBatch(s.sched.confirmed, s.sched.budget.allowed, s.sched.budget.balance) != []
  }

  function DoPaySecond(s: Sys): Sys
    requires CanPaySecond(s)
  {
    var batch := InitialBatch(s.sched.confirmed, s.sched.budget.allowed, s.sched.budget.balance);
    s.(sched := SecondSettling(Charge(s.sched.budget, batch)),
       book := PayInitial(s.book, batch),
       issued := InitialDoneStmts(batch),
       failed := false)
  }

  /** The run ends: normally, or by any exception, in which case its statements stay with the client. */
  function DoStop(s: Sys): Sys {
    s.(sched := Idle, backlog := SchedQueue(s), issued := [])
  }

  /** The process dies with its client. */
  function DoCrash(s: Sys): Sys {
    s.(sched := Idle, backlog := [], issued := [], book := Lose(s.book, SchedQueue(s)))
  }

  /** An error report may follow a statement that did take effect, never the other way round. */
  predicate CanExec(s: Sys, applied: bool, reported: bool) {
    SchedQueue(s) != [] && (reported ==> applied)
  }

  function DoExec(s: Sys, applied: bool, reported: bool): Sys
    requires CanExec(s, applied, reported)
  {
    var st := SchedQueue(s)[0];
    var s' := if s.backlog != []
              then s.(backlog := s.backlog[1..])
              else s.(issued := s.issued[1..], failed := s.failed || !reported);
    if applied then s'.(table := Exec(st, s.table), log := s.log + [st]) else s'.(book := LoseOne(s.book, st))
  }

  predicate CanCalcSelect(s: Sys, reqs: seq<Req>) {
    s.calcIssued == [] && IsSelect(reqs, s.table, AwaitsCalculation)
  }

  function DoCalcSelect(c: Config, s: Sys, reqs: seq<Req>): Sys {
    if Divisible(reqs) then s.(calcIssued := BonusStmts(c, reqs)) else s
  }

  function DoCalcExec(s: Sys, applied: bool): Sys
    requires s.calcIssued != []
  {
    s.(calcIssued := s.calcIssued[1..], table := if applied then Exec(s.calcIssued[0], s.table) else s.table)
  }

  predicate CanDispSelect(s: Sys, reqs: seq<Req>, batchSize: nat) {
    s.disp.None? && s.dispIssued == [] && IsDisbursalSelect(reqs, s.table, batchSize)
  }

  predicate CanDispPay(s: Sys, allowed: nat, balance: nat) {
    s.disp.Some? && BonusBatch(s.disp.value, allowed, balance) != []
  }

  function DoDispPay(s: Sys, allowed: nat, balance: nat): Sys
    requires CanDispPay(s, allowed, balance)
  {
    var batch := BonusBatch(s.disp.value, allowed, balance);
    s.(disp := None, book := PayBonus(s.book, batch), dispIssued := AfterBonusStmts(batch))
  }

  function DoDispExec(s: Sys, applied: bool): Sys
    requires s.dispIssued != []
  {
    var s' := s.(dispIssued := s.dispIssued[1..]);
    if applied then s'.(table := Exec(s.dispIssued[0], s.table)) else s'.(book := LoseOne(s.book, s.dispIssued[0]))
  }

  function DoDispCrash(s: Sys): Sys {
    s.(disp := None, dispIssued := [], book := Lose(s.book, s.dispIssued))
  }

  /** May this step happen now? */
  predicate Enabled(c: Config, s: Sys, step: Step) {
    match step
    case Mine(h, tx) => h !in s.eth.mined && (tx.Relayed? ==> tx.via != c.token)
    case NewHeight(h) => h >= s.eth.height
    case Track(k, _, _) => k !in s.table
    case ResetSelect(keys) => CanResetSelect(s, keys)
    case ResetCommit => s.reset.Some?
    case ResetRollback => s.reset.Some?
    case SchedSelect(reqs) => CanSchedSelect(s, reqs)
    case SchedDetails(_, _) => s.sched.Ready?
    case SchedPayFirst => CanPayFirst(s)
    case SchedSkipFirst => s.sched.AtFirstBatch?
    case SchedFirstSettled => CanFirstSettled(s)
    case SchedJudge(answers) => CanJudge(s, answers)
    case SchedPaySecond => CanPaySecond(s)
    case SchedStop => !s.sched.Idle?
    case SchedCrash => true
    case SchedExec(applied, reported) => CanExec(s, applied, reported)
    case CalcSelect(reqs) => CanCalcSelect(s, reqs)
    case CalcExec(_) => s.calcIssued != []
    case CalcCrash => true
    case DispSelect(reqs, batchSize) => CanDispSelect(s, reqs, batchSize)
    case DispPay(allowed, balance) => CanDispPay(s, allowed, balance)
    case DispExec(_) => s.dispIssued != []
    case DispCrash => true
  }

  /** The state after an enabled step. */
  function Apply(c: Config, s: Sys, step: Step): Sys
    requires Enabled(c, s, step)
  {
    match step
    case Mine(h, tx) => DoMine(s, h, tx)
    case NewHeight(h) => s.(eth := s.eth.(height := h))
    case Track(k, mainnet, vesting) => DoTrack(c, s, k, mainnet, vesting)
    case ResetSelect(keys) => DoResetSelect(s, keys)
    case ResetCommit => DoResetCommit(s)
    case ResetRollback => s.(reset := None)
    case SchedSelect(reqs) => s.(sched := Ready(reqs))
    case SchedDetails(allowed, balance) => DoDetails(s, allowed, balance)
    case SchedPayFirst => DoPayFirst(s)
    case SchedSkipFirst => DoSkipFirst(s)
    case SchedFirstSettled => DoFirstSettled(s)
    case SchedJudge(answers) => DoJudge(c, s, answers)
    case SchedPaySecond => DoPaySecond(s)
    case SchedStop => DoStop(s)
    case SchedCrash => DoCrash(s)
    case SchedExec(applied, reported) => DoExec(s, applied, reported)
    case CalcSelect(reqs) => DoCalcSelect(c, s, reqs)
    case CalcExec(applied) => DoCalcExec(s, applied)
    case CalcCrash => s.(calcIssued := [])
    case DispSelect(reqs, _) => s.(disp := Some(reqs))
    case DispPay(allowed, balance) => DoDispPay(s, allowed, balance)
    case DispExec(applied) => DoDispExec(s, applied)
    case DispCrash => DoDispCrash(s)
  }

  // ---- Runs ----

  predicate IsRun(c: Config, s: Sys, steps: seq<Step>)
    decreases |steps|
  {
    steps == [] || (Enabled(c, s, steps[0]) && IsRun(c, Apply(c, s, steps[0]), steps[1..]))
  }

  function Play(c: Config, s: Sys, steps: seq<Step>): Sys
    requires IsRun(c, s, steps)
    decreases |steps|
  {
    if steps == [] then s else Play(c, Apply(c, s, steps[0]), steps[1..])
  }

  lemma {:induction false} PlayAppend(c: Config, s: Sys, steps: seq<Step>, step: Step)
    requires IsRun(c, s, steps) && Enabled(c, Play(c, s, steps), step)
    ensures IsRun(c, s, steps + [step]) && Play(c, s, steps + [step]) == Apply(c, Play(c, s, steps), step)
    decreases |steps|
  {
    if steps == [] {
      assert steps + [step] == [step];
    } else {
      assert (steps + [step])[1..] == steps[1..] + [step];
      PlayAppend(c, Apply(c, s, steps[0]), steps[1..], step);
    }
  }
}
