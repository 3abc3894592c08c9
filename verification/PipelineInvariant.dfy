/**
  The global invariant of the pipeline. No UPDATE tests the status it overwrites, so what keeps the
  processes apart is that every pending statement finds its row in a status its own process owns.
 */
module PipelineInvariant {
  import opened Wrappers
  import opened Sums
  import opened Requests
  import opened Amounts
  import opened Receipts
  import opened Greedy
  import opened BonusMath
  import opened Pipeline
  import E = Erc20

  datatype Actor = TheScheduler | TheReset | TheCalculation | TheDisbursal | Nobody

  /** The only process that may move a row out of a status. */
  function Owner(st: Status): Actor {
    match st
    case InvalidBlacklist => Nobody
    case Invalid => TheReset
    case SigValid => TheScheduler
    case TxnParsed => TheScheduler
    case TxnConfirmed => TheScheduler
    case InitialTransferDone => TheCalculation
    case BonusCalculated => TheDisbursal
    case BonusTransferred => Nobody
  }

  function Writer(st: Stmt): Actor {
    match st
    case ResetStatus(_) => TheReset
    case UpdateBonuses(_, _, _) => TheCalculation
    case UpdateAfterBonus(_) => TheDisbursal
    case _ => TheScheduler
  }

  /** The documented life of a request. */
  predicate LegalMove(from: Status, to: Status) {
    match from
    case Invalid => to == SigValid
    case SigValid => to in {Invalid, TxnParsed, TxnConfirmed}
    case TxnParsed => to == TxnConfirmed
    case TxnConfirmed => to == InitialTransferDone
    case InitialTransferDone => to == BonusCalculated
    case BonusCalculated => to == BonusTransferred
    case _ => false
  }

  // ---- The parts of the invariant ----

  ghost predicate EthOk(c: Config, eth: Eth) {
    && E.SupplyOk(eth.token) && eth.token.self == c.token
    && (forall h :: h in eth.mined ==> E.LogsBounded(eth.mined[h].logs))
  }

  predicate EthGrows(eth: Eth, eth': Eth) {
    && (forall h :: h in eth.mined ==> h in eth'.mined && eth'.mined[h] == eth.mined[h])
    && eth.height <= eth'.height
  }

  predicate Backed(c: Config, eth: Eth, k: Key, v: nat) {
    k.hash in eth.mined && Backs(c, eth.mined[k.hash], k, v)
  }

  /** Buried under the required confirmations. */
  predicate Buried(c: Config, eth: Eth, block: nat) {
    0 < block <= MAX_SAFE_INTEGER && block + c.confirmations < eth.height
  }

  /** What each status promises about the columns. */
  predicate RowOk(c: Config, eth: Eth, k: Key, r: Row) {
    var code := r.status.Code();
    && (r.status == InvalidBlacklist <==> k.addr in c.blacklist)
    && (if code >= 1 then r.erc20.Some? && Backed(c, eth, k, r.erc20.value) else r.erc20.None?)
    && (if code >= 2 then r.block.Some? && Buried(c, eth, r.block.value) else r.block.None?)
    && (r.migrationTokens == if code >= 3 then Some(InitialDue(r)) else None)
    && (if code >= 4
        then r.vesting.Some? && r.swapBonus.Some? && r.vestingBonus.Some? && (!IsVesting(r) ==> r.vestingBonus == Some(0))
        else r.swapBonus.None? && r.vestingBonus.None?)
  }

  predicate RowsOk(c: Config, eth: Eth, t: Table) {
    forall k :: k in t ==> RowOk(c, eth, k, t[k])
  }

  /** A pending statement finds its row where its writer expects it, with data that fit. */
  predicate StmtReady(c: Config, eth: Eth, t: Table, st: Stmt) {
    && st.key in t
    && match st
       case MarkInvalid(k) => t[k].status == SigValid
       case MarkParsed(k, e) => t[k].status == SigValid && Backed(c, eth, k, e)
       case MarkParsedAndConfirmed(k, e, b) => t[k].status == SigValid && Backed(c, eth, k, e) && Buried(c, eth, b)
       case MarkConfirmed(k, b) => t[k].status == TxnParsed && Buried(c, eth, b)
       case MarkInitialDone(k, n) => t[k].status == TxnConfirmed && n == InitialDue(t[k])
       case UpdateBonuses(k, _, v) => AwaitsCalculation(t[k]) && (!IsVesting(t[k]) ==> v == 0)
       case UpdateAfterBonus(k) => t[k].status == BonusCalculated
       case ResetStatus(k) => t[k].status == Invalid
  }

  /** A process's pending statements: one per key, its own, all ready. */
  predicate QueueOk(c: Config, eth: Eth, t: Table, q: seq<Stmt>, a: Actor) {
    && DistinctKeys(q)
    && (forall i :: 0 <= i < |q| ==> StmtReady(c, eth, t, q[i]) && Writer(q[i]) == a)
  }

  /** Rows owned by a are untouched. */
  predicate KeepsOwned(t: Table, t': Table, a: Actor) {
    forall k :: k in t && Owner(t[k].status) == a ==> k in t' && t'[k] == t[k]
  }

  /** Keys whose initial payment was made and whose write is still pending. */
  function PayingKeys(q: seq<Stmt>): set<Key> {
    set i | 0 <= i < |q| && q[i].MarkInitialDone? :: q[i].key
  }

  predicate OnlyPays(q: seq<Stmt>) {
    forall i :: 0 <= i < |q| ==> q[i].MarkInitialDone?
  }

  predicate AllEqual(s: seq<nat>, x: nat) {
    forall i :: 0 <= i < |s| ==> s[i] == x
  }

  /** Every payment of a row went to the account of its request. */
  predicate PaidToOwner(r: Row, a: Account) {
    |a.payees| == |a.initial| + |a.bonus| && forall i :: 0 <= i < |a.payees| ==> a.payees[i] == r.mainnet
  }

  /** What the chain paid for a row, against its status and the writes still pending or lost. */
  predicate AcctOk(r: Row, a: Account, paying: bool, rewarding: bool) {
    var code := r.status.Code();
    && AllEqual(a.initial, InitialDue(r)) && AllEqual(a.bonus, BonusDue(r)) && PaidToOwner(r, a)
    && |a.initial| == (if code < 2 then 0 else a.initialLost + (if code >= 3 || paying then 1 else 0))
    && (code < 2 ==> a.initialLost == 0)
    && |a.bonus| == (if code < 4 then 0 else a.bonusLost + (if code >= 5 || rewarding then 1 else 0))
    && (code < 4 ==> a.bonusLost == 0)
  }

  ghost predicate BookOk(t: Table, q: seq<Stmt>, dispQ: seq<Stmt>, book: Book) {
    && (forall k :: k in book ==> k in t)
    && (forall k :: k in t ==> AcctOk(t[k], Acct(book, k), k in PayingKeys(q), k in Keys(dispQ)))
  }

  /** Snapshot rows still equal to the table, as far as the run has not moved them itself. */
  predicate AgreesUnconfirmed(reqs: seq<Req>, t: Table) {
    forall i :: 0 <= i < |reqs| && reqs[i].row.status in {SigValid, TxnParsed} ==>
      reqs[i].key in t && t[reqs[i].key] == reqs[i].row
  }

  /** In-memory confirmed rows match the table in everything the payment depends on. */
  predicate AgreesConfirmed(reqs: seq<Req>, t: Table) {
    forall i :: 0 <= i < |reqs| ==>
      && reqs[i].key in t
      && reqs[i].row.status == TxnConfirmed == t[reqs[i].key].status
      && reqs[i].row.erc20 == t[reqs[i].key].erc20
      && reqs[i].row.vesting == t[reqs[i].key].vesting
      && reqs[i].row.mainnet == t[reqs[i].key].mainnet
  }

  predicate BudgetOk(b: Budget) {
    b.paid + b.balance == b.balance0 && b.recipients + b.allowed == b.allowed0
  }

  predicate WithinBudget(b: Budget) {
    b.paid <= b.balance0 && b.recipients <= b.allowed0
  }

  /** What the scheduler's local variables mean at each point of a run. */
  predicate ControlOk(t: Table, sched: Scheduler, backlog: seq<Stmt>, issued: seq<Stmt>, failed: bool) {
    match sched
    case Idle => issued == []
    case Ready(reqs) => backlog == [] && issued == [] && AreRows(reqs, t, IsPending)
    case AtFirstBatch(reqs, b) => backlog == [] && issued == [] && AreRows(reqs, t, IsPending) && BudgetOk(b)
    case FirstSettling(reqs, b) =>
      OnlyPays(backlog + issued) && DistinctReqs(reqs) && AgreesUnconfirmed(reqs, t) && BudgetOk(b)
    case AtFetch(reqs, b) =>
      issued == [] && OnlyPays(backlog) && DistinctReqs(reqs) && AgreesUnconfirmed(reqs, t) && BudgetOk(b)
    case Judged(confirmed, b) =>
      && DistinctReqs(confirmed) && BudgetOk(b)
      && (forall i :: 0 <= i < |confirmed| ==> confirmed[i].key !in Keys(backlog))
      && (!failed ==>
            && (forall i :: 0 <= i < |confirmed| ==> confirmed[i].key in t && Owner(t[confirmed[i].key].status) == TheScheduler)
            && AgreesConfirmed(confirmed, Drain(issued, t)))
    case SecondSettling(b) => WithinBudget(b)
  }

  predicate DisbursalOk(t: Table, disp: Option<seq<Req>>, dispIssued: seq<Stmt>) {
    disp.Some? ==> dispIssued == [] && AreRows(disp.value, t, AwaitsDisbursal)
  }

  /** The reset's stale snapshot: every row in it is still INVALID. */
  predicate ResetOk(c: Config, eth: Eth, t: Table, reset: Option<seq<Key>>) {
    reset.Some? ==> QueueOk(c, eth, t, ResetStmts(reset.value), TheReset)
  }

  ghost predicate Inv(c: Config, s: Sys) {
    && EthOk(c, s.eth)
    && RowsOk(c, s.eth, s.table)
    && QueueOk(c, s.eth, s.table, SchedQueue(s), TheScheduler)
    && QueueOk(c, s.eth, s.table, s.calcIssued, TheCalculation)
    && QueueOk(c, s.eth, s.table, s.dispIssued, TheDisbursal)
    && ResetOk(c, s.eth, s.table, s.reset)
    && DisbursalOk(s.table, s.disp, s.dispIssued)
    && ControlOk(s.table, s.sched, s.backlog, s.issued, s.failed)
    && BookOk(s.table, SchedQueue(s), s.dispIssued, s.book)
  }

  // ---- Statements and queues ----

  lemma RowsFrame(c: Config, eth: Eth, eth': Eth, t: Table)
    requires RowsOk(c, eth, t) && EthGrows(eth, eth')
    ensures RowsOk(c, eth', t)
  {
  }

  /** Whatever another process does to its own rows, a pending statement stays ready. */
  lemma QueueFrame(c: Config, eth: Eth, eth': Eth, t: Table, t': Table, q: seq<Stmt>, a: Actor)
    requires QueueOk(c, eth, t, q, a) && EthGrows(eth, eth') && KeepsOwned(t, t', a)
    ensures QueueOk(c, eth', t', q, a)
  {
    forall i | 0 <= i < |q| ensures StmtReady(c, eth', t', q[i]) {
      assert StmtReady(c, eth, t, q[i]);
      assert Owner(t[q[i].key].status) == a;
    }
  }

  /** One ready statement: a legal move of a row its writer owns, and nothing else. */
  lemma ExecReady(c: Config, eth: Eth, t: Table, st: Stmt)
    requires RowsOk(c, eth, t) && StmtReady(c, eth, t, st)
    ensures RowsOk(c, eth, Exec(st, t))
    ensures Owner(t[st.key].status) == Writer(st)
    ensures LegalMove(t[st.key].status, Exec(st, t)[st.key].status)
    ensures forall a :: a != Writer(st) ==> KeepsOwned(t, Exec(st, t), a)
  {
    assert RowOk(c, eth, st.key, t[st.key]);
  }

  lemma PopQueue(c: Config, eth: Eth, t: Table, q: seq<Stmt>, a: Actor)
    requires QueueOk(c, eth, t, q, a) && q != []
    ensures QueueOk(c, eth, t, q[1..], a) && QueueOk(c, eth, Exec(q[0], t), q[1..], a)
  {
    assert StmtReady(c, eth, t, q[0]);
    forall i | 0 <= i < |q[1..]| ensures StmtReady(c, eth, t, q[1..][i]) && StmtReady(c, eth, Exec(q[0], t), q[1..][i]) {
      assert StmtReady(c, eth, t, q[i + 1]);
      assert q[0].key != q[i + 1].key;
    }
  }

  lemma AppendQueue(c: Config, eth: Eth, t: Table, q: seq<Stmt>, p: seq<Stmt>, a: Actor)
    requires QueueOk(c, eth, t, q, a) && QueueOk(c, eth, t, p, a)
    requires forall i, j :: 0 <= i < |q| && 0 <= j < |p| ==> q[i].key != p[j].key
    ensures QueueOk(c, eth, t, q + p, a)
  {
  }

  /** A whole transaction of ready statements: what the reset's COMMIT makes visible at once. */
  lemma {:induction false} DrainReady(c: Config, eth: Eth, t: Table, q: seq<Stmt>, a: Actor)
    requires RowsOk(c, eth, t) && QueueOk(c, eth, t, q, a)
    ensures RowsOk(c, eth, Drain(q, t))
    ensures forall b :: b != a ==> KeepsOwned(t, Drain(q, t), b)
    decreases |q|
  {
    if q != [] {
      assert StmtReady(c, eth, t, q[0]);
      ExecReady(c, eth, t, q[0]);
      PopQueue(c, eth, t, q, a);
      var t' := Exec(q[0], t);
      DrainReady(c, eth, t', q[1..], a);
      forall b | b != a ensures KeepsOwned(t, Drain(q, t), b) {
        assert KeepsOwned(t, t', b) && KeepsOwned(t', Drain(q[1..], t'), b);
      }
    }
  }

  // ---- Books ----

  predicate DistinctItems(batch: seq<Weighted<Req>>) {
    forall i, j :: 0 <= i < j < |batch| ==> batch[i].item.key != batch[j].item.key
  }

  lemma {:induction false} PayInitialAcct(book: Book, batch: seq<Weighted<Req>>, k: Key)
    requires DistinctItems(batch)
    ensures (forall i :: 0 <= i < |batch| ==> batch[i].item.key != k) ==>
              Acct(PayInitial(book, batch), k) == Acct(book, k) && (k in PayInitial(book, batch) ==> k in book)
    ensures forall i :: 0 <= i < |batch| && batch[i].item.key == k ==>
              Acct(PayInitial(book, batch), k)
              == PaidInitial(Acct(book, k), batch[i])
    decreases |batch|
  {
    if batch != [] {
      var n := |batch| - 1;
      PayInitialAcct(book, batch[..n], k);
      forall i | 0 <= i < n ensures batch[..n][i].item.key == batch[i].item.key { }
    }
  }

  lemma {:induction false} PayBonusAcct(book: Book, batch: seq<Weighted<Req>>, k: Key)
    requires DistinctItems(batch)
    ensures (forall i :: 0 <= i < |batch| ==> batch[i].item.key != k) ==>
              Acct(PayBonus(book, batch), k) == Acct(book, k) && (k in PayBonus(book, batch) ==> k in book)
    ensures forall i :: 0 <= i < |batch| && batch[i].item.key == k ==>
              Acct(PayBonus(book, batch), k)
              == PaidBonus(Acct(book, k), batch[i])
    decreases |batch|
  {
    if batch != [] {
      var n := |batch| - 1;
      PayBonusAcct(book, batch[..n], k);
      forall i | 0 <= i < n ensures batch[..n][i].item.key == batch[i].item.key { }
    }
  }

  // ---- Batches ----

  lemma {:induction false} AtMostOnce<T>(s: seq<T>, x: T)
    requires forall i, j :: 0 <= i < j < |s| ==> s[i] != s[j]
    ensures multiset(s)[x] <= 1
    decreases |s|
  {
    if s != [] {
      var p := s[..|s| - 1];
      assert s == p + [s[|s| - 1]];
      AtMostOnce(p, x);
      if s[|s| - 1] == x {
        assert x !in p;
      }
    }
  }

  lemma AtLeastTwice<T>(s: seq<T>, i: nat, j: nat)
    requires i < j < |s| && s[i] == s[j]
    ensures multiset(s)[s[i]] >= 2
  {
    assert s == s[..j] + s[j..];
    assert s[i] in multiset(s[..j]) && s[i] in multiset(s[j..]) by {
      assert s[..j][i] == s[i] && s[j..][0] == s[i];
    }
  }

  /** A selection from distinct rows is made of distinct rows. */
  lemma SelectionDistinct(w: seq<Weighted<Req>>, batch: seq<Weighted<Req>>)
    requires DistinctItems(w) && multiset(batch) <= multiset(w)
    ensures DistinctItems(batch)
    ensures forall i :: 0 <= i < |batch| ==> batch[i] in w
  {
    forall i | 0 <= i < |batch| ensures batch[i] in w {
      assert batch[i] in multiset(batch);
    }
    forall i, j | 0 <= i < j < |batch| ensures batch[i].item.key != batch[j].item.key {
      if batch[i].item.key == batch[j].item.key {
        assert batch[i] in w && batch[j] in w;
        assert batch[i] == batch[j];
        AtLeastTwice(batch, i, j);
        AtMostOnce(w, batch[i]);
      }
    }
  }

  /** A batch names distinct confirmed rows of the table and pays each what the table says is due. */
  predicate InitialBatchOk(t: Table, batch: seq<Weighted<Req>>) {
    && DistinctItems(batch)
    && (forall i :: 0 <= i < |batch| ==>
          && batch[i].item.key in t
          && t[batch[i].item.key].status == TxnConfirmed
          && batch[i].amount == InitialDue(t[batch[i].item.key])
          && batch[i].item.row.mainnet == t[batch[i].item.key].mainnet)
  }

  lemma InitialBatchFits(t: Table, reqs: seq<Req>, allowed: nat, balance: nat)
    requires DistinctReqs(reqs) && AgreesConfirmed(reqs, t)
    ensures InitialBatchOk(t, InitialBatch(reqs, allowed, balance))
    ensures |InitialBatch(reqs, allowed, balance)| <= allowed && Cost(InitialBatch(reqs, allowed, balance)) <= balance
    ensures forall i :: 0 <= i < |InitialBatch(reqs, allowed, balance)| ==> InitialBatch(reqs, allowed, balance)[i].item in reqs
  {
    var w := WeighInitial(reqs);
    SelectFits(w, allowed, balance);
    SelectionDistinct(w, Select(w, allowed, balance));
    forall i | 0 <= i < |Select(w, allowed, balance)|
      ensures Select(w, allowed, balance)[i].item in reqs
      ensures Select(w, allowed, balance)[i].amount == InitialDue(t[Select(w, allowed, balance)[i].item.key])
      ensures Select(w, allowed, balance)[i].item.row.mainnet == t[Select(w, allowed, balance)[i].item.key].mainnet
    {
      var j :| 0 <= j < |w| && w[j] == Select(w, allowed, balance)[i];
      assert w[j].item == reqs[j];
    }
  }

  predicate BonusBatchOk(t: Table, batch: seq<Weighted<Req>>) {
    && DistinctItems(batch)
    && (forall i :: 0 <= i < |batch| ==>
          && batch[i].item.key in t
          && t[batch[i].item.key].status == BonusCalculated
          && batch[i].amount == BonusDue(t[batch[i].item.key])
          && batch[i].item.row.mainnet == t[batch[i].item.key].mainnet)
  }

  lemma BonusBatchFits(t: Table, reqs: seq<Req>, allowed: nat, balance: nat)
    requires AreRows(reqs, t, AwaitsDisbursal)
    ensures BonusBatchOk(t, BonusBatch(reqs, allowed, balance))
    ensures |BonusBatch(reqs, allowed, balance)| <= allowed && Cost(BonusBatch(reqs, allowed, balance)) <= balance
  {
    var w := WeighBonus(reqs);
    SelectFits(w, allowed, balance);
    SelectionDistinct(w, Select(w, allowed, balance));
    forall i | 0 <= i < |Select(w, allowed, balance)|
      ensures Select(w, allowed, balance)[i].item in reqs
      ensures Select(w, allowed, balance)[i].amount == BonusDue(Select(w, allowed, balance)[i].item.row)
      ensures Select(w, allowed, balance)[i].item.row.mainnet == t[Select(w, allowed, balance)[i].item.key].mainnet
    {
      var j :| 0 <= j < |w| && w[j] == Select(w, allowed, balance)[i];
      assert w[j].item == reqs[j];
    }
  }

  lemma {:induction false} WithStatusOk(reqs: seq<Req>, st: Status)
    requires DistinctReqs(reqs)
    ensures DistinctReqs(WithStatus(reqs, st))
    ensures forall i :: 0 <= i < |WithStatus(reqs, st)| ==> WithStatus(reqs, st)[i] in reqs && WithStatus(reqs, st)[i].row.status == st
    ensures forall r :: r in reqs && r.row.status == st ==> r in WithStatus(reqs, st)
    decreases |reqs|
  {
    if reqs != [] {
      var p := reqs[..|reqs| - 1];
      WithStatusOk(p, st);
      assert forall r :: r in p ==> r in reqs && r.key != reqs[|reqs| - 1].key;
      assert reqs == p + [reqs[|reqs| - 1]];
    }
  }
}
