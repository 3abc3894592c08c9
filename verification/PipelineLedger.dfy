/** Totals: what the Dock chain paid against what the vault received, and against the limits of one run. */
module PipelineLedger {
  import opened Wrappers
  import opened Sums
  import opened Requests
  import opened Amounts
  import opened Receipts
  import opened Greedy
  import opened BonusMath
  import opened Pipeline
  import opened PipelineInvariant
  import opened PipelineSteps
  import opened PipelineSafety
  import E = Erc20

  // ---- Cross-ledger conservation ----

  function DepositsByHash(c: Config, eth: Eth): map<Hash, nat> {
    map h | h in eth.mined :: VaultValue(c, eth.mined[h].logs)
  }

  /** Everything ever transferred to the vault, over all mined transactions. */
  ghost function VaultDeposits(c: Config, eth: Eth): nat {
    MapSum(DepositsByHash(c, eth))
  }

  /** What acceptance does not check itself: the single log of this transaction is a Transfer. */
  predicate IsTransfer(eth: Eth, h: Hash) {
    h in eth.mined && |eth.mined[h].logs| == 1 && eth.mined[h].logs[0].event == Event.Transfer
  }

  /** A row on the books: one the Dock chain has paid something for. */
  predicate Booked(s: Sys, k: Key) {
    k in s.book && k in s.table
  }

  /** Every booked row that names an amount was accepted for a Transfer. */
  predicate BookedAreTransfers(s: Sys) {
    forall k :: k in s.book && k in s.table && Deposited(s.table[k]) > 0 ==> IsTransfer(s.eth, k.hash)
  }

  /** Principal paid to one row: initial transfers, and the vesting half inside each bonus. */
  function Principal(r: Row, a: Account): nat {
    Sum(a.initial) + |a.bonus| * HeldBack(Deposited(r), r.vesting)
  }

  /** Principal that was paid although its write was lost, and that the next payment repeats. */
  function Repeated(r: Row, a: Account): nat {
    a.initialLost * InitialDue(r) + a.bonusLost * HeldBack(Deposited(r), r.vesting)
  }

  function PrincipalByKey(s: Sys): map<Key, nat> {
    map k | k in s.book && k in s.table :: Principal(s.table[k], s.book[k])
  }

  function RepeatedByKey(s: Sys): map<Key, nat> {
    map k | k in s.book && k in s.table :: Repeated(s.table[k], s.book[k])
  }

  ghost function PrincipalPaid(s: Sys): nat {
    MapSum(PrincipalByKey(s))
  }

  ghost function PrincipalRepeated(s: Sys): nat {
    MapSum(RepeatedByKey(s))
  }

  /** Every payment of this row that was made is recorded or about to be. */
  predicate NothingLost(s: Sys, k: Key) {
    Acct(s.book, k).initialLost == 0 && Acct(s.book, k).bonusLost == 0
  }

  predicate NoLostWrites(s: Sys) {
    forall k :: k in s.book ==> NothingLost(s, k)
  }

  lemma AtMostOneMore(n: nat, lost: nat, due: nat)
    requires n <= lost + 1
    ensures n * due <= lost * due + due
  {
    var gap := lost + 1 - n;
    assert gap * due >= 0;
    assert lost * due + due == (n + gap) * due == n * due + gap * due;
  }

  /** One row: principal beyond the repeated payments never exceeds the converted deposit. */
  lemma RowConservation(c: Config, eth: Eth, k: Key, r: Row, a: Account, paying: bool, rewarding: bool)
    requires RowOk(c, eth, k, r) && AcctOk(r, a, paying, rewarding)
    ensures Principal(r, a) <= FromERC20ToDockTokens(Deposited(r)) + Repeated(r, a)
    ensures 1_000_000_000_000 * Principal(r, a) <= Deposited(r) + 1_000_000_000_000 * Repeated(r, a)
  {
    var due, held := InitialDue(r), HeldBack(Deposited(r), r.vesting);
    SumConstant(a.initial, due);
    AtMostOneMore(|a.initial|, a.initialLost, due);
    AtMostOneMore(|a.bonus|, a.bonusLost, held);
    SharesRecombine(Deposited(r), r.vesting);
    ConversionSlack(Deposited(r));
  }

  // Amounts by row: what the booked rows name, and how much of it is a deposit or is not.

  function Named(s: Sys): map<Key, nat> {
    map k | k in s.book && k in s.table :: Deposited(s.table[k])
  }

  function NamedByTransfers(s: Sys): map<Key, nat> {
    map k | k in s.book && k in s.table :: if IsTransfer(s.eth, k.hash) then Deposited(s.table[k]) else 0
  }

  function NamedByOthers(s: Sys): map<Key, nat> {
    map k | k in s.book && k in s.table :: if IsTransfer(s.eth, k.hash) then 0 else Deposited(s.table[k])
  }

  /** What booked rows name and no Transfer is behind. */
  ghost function Unbacked(s: Sys): nat {
    MapSum(NamedByOthers(s))
  }

  /** A booked row names the value of its own transaction if that is a Transfer; and then that is its deposit. */
  lemma BookedDeposit(c: Config, s: Sys, k: Key)
    requires Inv(c, s) && Booked(s, k) && Deposited(s.table[k]) > 0
    ensures Backed(c, s.eth, k, Deposited(s.table[k]))
    ensures VaultValue(c, s.eth.mined[k.hash].logs) == if IsTransfer(s.eth, k.hash) then Deposited(s.table[k]) else 0
  {
    hide BookOk, QueueOk, ControlOk, ResetOk, DisbursalOk;
    assert RowOk(c, s.eth, k, s.table[k]);
    var logs := s.eth.mined[k.hash].logs;
    BackingIsDeposit(c, s.eth.mined[k.hash], k, Deposited(s.table[k]));
    assert logs[..0] == [] && VaultValue(c, []) == 0;
  }

  lemma BookedTransfer(c: Config, s: Sys, k: Key)
    requires Inv(c, s) && k in NamedByTransfers(s) && NamedByTransfers(s)[k] > 0
    ensures Backed(c, s.eth, k, NamedByTransfers(s)[k])
    ensures k.hash in DepositsByHash(c, s.eth) && NamedByTransfers(s)[k] == DepositsByHash(c, s.eth)[k.hash]
  {
    hide Inv, Backs, VaultValue;
    BookedDeposit(c, s, k);
  }

  /** The Transfers behind the rows on the books are distinct deposits of the vault. */
  lemma DepositsBehindRows(c: Config, s: Sys)
    requires Inv(c, s)
    ensures MapSum(NamedByTransfers(s)) <= VaultDeposits(c, s.eth)
  {
    hide Inv, Backs;
    var m: map<Key, nat> := NamedByTransfers(s);
    var n: map<Hash, nat> := DepositsByHash(c, s.eth);
    forall k | k in m && m[k] > 0 ensures k.hash in n && m[k] <= n[k.hash] && Backed(c, s.eth, k, m[k]) {
      BookedTransfer(c, s, k);
    }
    forall k, j | k in m && j in m && m[k] > 0 && m[j] > 0 && k.hash == j.hash ensures k == j {
      BackingUnique(c, s.eth.mined[k.hash], k, j, m[k], m[j]);
    }
    MapSumInjects<Key, Hash>(m, n, (k: Key) => k.hash);
  }

  /** Nothing is unbacked exactly when every booked amount was accepted for a Transfer. */
  lemma UnbackedExactly(s: Sys)
    ensures Unbacked(s) == 0 <==> BookedAreTransfers(s)
  {
    var m := NamedByOthers(s);
    if BookedAreTransfers(s) {
      MapSumBound(m, 0);
    } else {
      var k :| k in s.book && k in s.table && Deposited(s.table[k]) > 0 && !IsTransfer(s.eth, k.hash);
      assert k in m && m[k] == Deposited(s.table[k]);
      MapSumEntry(m, k);
    }
  }

  lemma BookedConservation(c: Config, s: Sys, k: Key)
    requires Inv(c, s) && Booked(s, k)
    ensures 1_000_000_000_000 * PrincipalByKey(s)[k] <= Named(s)[k] + 1_000_000_000_000 * RepeatedByKey(s)[k]
  {
    hide QueueOk, ControlOk, ResetOk, DisbursalOk, AcctOk, Principal, Repeated;
    assert AcctOk(s.table[k], Acct(s.book, k), k in PayingKeys(SchedQueue(s)), k in Keys(s.dispIssued));
    RowConservation(c, s.eth, k, s.table[k], s.book[k], k in PayingKeys(SchedQueue(s)), k in Keys(s.dispIssued));
  }

  /** Entrywise comparison with a scaled term on both sides, summed up. */
  lemma ScaledSums(p: map<Key, nat>, d: map<Key, nat>, q: map<Key, nat>)
    requires p.Keys == d.Keys == q.Keys
    requires forall k :: k in p ==> 1_000_000_000_000 * p[k] <= d[k] + 1_000_000_000_000 * q[k]
    ensures 1_000_000_000_000 * MapSum(p) <= MapSum(d) + 1_000_000_000_000 * MapSum(q)
  {
    hide MapSum;
    var fp: map<Key, nat> := map k | k in p :: 1_000_000_000_000 * p[k];
    var fq: map<Key, nat> := map k | k in q :: 1_000_000_000_000 * q[k];
    var dq: map<Key, nat> := map k | k in d :: d[k] + fq[k];
    MapSumScale(p, fp, 1_000_000_000_000);
    MapSumScale(q, fq, 1_000_000_000_000);
    MapSumAdd(d, fq, dq);
    MapSumLe(fp, dq);
  }

  /** Conservation in any state that satisfies the invariant, with no hypothesis on events or writes. */
  lemma Conservation(c: Config, s: Sys)
    requires Inv(c, s)
    ensures 1_000_000_000_000 * PrincipalPaid(s) <= VaultDeposits(c, s.eth) + Unbacked(s) + 1_000_000_000_000 * PrincipalRepeated(s)
  {
    hide Inv, VaultDeposits;
    forall k | k in PrincipalByKey(s)
      ensures 1_000_000_000_000 * PrincipalByKey(s)[k] <= Named(s)[k] + 1_000_000_000_000 * RepeatedByKey(s)[k]
    {
      BookedConservation(c, s, k);
    }
    ScaledSums(PrincipalByKey(s), Named(s), RepeatedByKey(s));
    MapSumAdd(NamedByTransfers(s), NamedByOthers(s), Named(s));
    DepositsBehindRows(c, s);
  }

  lemma NothingRepeated(s: Sys)
    requires NoLostWrites(s)
    ensures PrincipalRepeated(s) == 0
  {
    MapSumBound(RepeatedByKey(s), 0);
  }

  /**
    Over every run, with no hypothesis: principal paid is at most what was transferred to the vault, plus what booked
    rows name without a Transfer behind it, plus what lost writes made the scheduler repeat. The second term vanishes
    exactly when every booked row was accepted for a Transfer, the third when no write was lost.
   */
  lemma CrossLedgerConservation(c: Config, s: Sys, steps: seq<Step>)
    requires IsStart(c, s) && IsRun(c, s, steps)
    ensures var e := Play(c, s, steps);
            && 1_000_000_000_000 * PrincipalPaid(e) <= VaultDeposits(c, e.eth) + Unbacked(e) + 1_000_000_000_000 * PrincipalRepeated(e)
            && (Unbacked(e) == 0 <==> BookedAreTransfers(e))
            && (NoLostWrites(e) ==> PrincipalRepeated(e) == 0)
            && (NoLostWrites(e) && BookedAreTransfers(e) ==> 1_000_000_000_000 * PrincipalPaid(e) <= VaultDeposits(c, e.eth))
  {
    hide Play, IsRun, Inv, PrincipalPaid, PrincipalRepeated, VaultDeposits, BookedAreTransfers, NoLostWrites, Unbacked;
    ReachableInv(c, s, steps);
    var e := Play(c, s, steps);
    Conservation(c, e);
    UnbackedExactly(e);
    if NoLostWrites(e) {
      NothingRepeated(e);
    }
  }

  /**
    For one row: once at least one unit of principal was paid for it and no write of its own was lost, its own
    transaction covers that principal if and only if its log is a Transfer.
   */
  lemma CoveredExactly(c: Config, s: Sys, steps: seq<Step>, k: Key)
    requires IsStart(c, s) && IsRun(c, s, steps)
    requires var e := Play(c, s, steps); Booked(e, k) && NothingLost(e, k) && Principal(e.table[k], e.book[k]) > 0
    ensures var e := Play(c, s, steps);
            && k.hash in e.eth.mined
            && (1_000_000_000_000 * Principal(e.table[k], e.book[k]) <= VaultValue(c, e.eth.mined[k.hash].logs)
                <==> IsTransfer(e.eth, k.hash))
  {
    hide Play, IsRun, Inv, Principal;
    ReachableInv(c, s, steps);
    var e := Play(c, s, steps);
    BookedConservation(c, e, k);
    assert Repeated(e.table[k], e.book[k]) == 0;
    BookedDeposit(c, e, k);
  }

  /** All principal of this row has been paid. */
  predicate FullyPaid(r: Row) {
    r.status == BonusTransferred || (r.status.Code() >= 3 && !IsVesting(r))
  }

  lemma FullyPaidSlack(c: Config, eth: Eth, k: Key, r: Row, a: Account, paying: bool, rewarding: bool)
    requires RowOk(c, eth, k, r) && AcctOk(r, a, paying, rewarding) && FullyPaid(r)
    requires a.initialLost == 0 == a.bonusLost
    ensures 1_000_000_000_000 * Principal(r, a) <= Deposited(r) <= 1_000_000_000_000 * Principal(r, a) + (999_999_999_999)
  {
    SumConstant(a.initial, InitialDue(r));
    SharesRecombine(Deposited(r), r.vesting);
    ConversionSlack(Deposited(r));
  }

  /** Rows that are fully paid, without a lost write of their own. */
  predicate SettledRows(s: Sys, settled: set<Key>) {
    forall k :: k in settled ==> k in s.table && FullyPaid(s.table[k]) && NothingLost(s, k)
  }

  function PrincipalOf(s: Sys, settled: set<Key>): map<Key, nat>
    requires SettledRows(s, settled)
  {
    map k | k in settled :: Principal(s.table[k], Acct(s.book, k))
  }

  function DepositsOf(s: Sys, settled: set<Key>): map<Key, nat>
    requires SettledRows(s, settled)
  {
    map k | k in settled :: Deposited(s.table[k])
  }

  lemma SettledRow(c: Config, s: Sys, k: Key)
    requires Inv(c, s) && k in s.table && FullyPaid(s.table[k]) && NothingLost(s, k)
    ensures var p := Principal(s.table[k], Acct(s.book, k));
            1_000_000_000_000 * p <= Deposited(s.table[k]) <= 1_000_000_000_000 * p + (999_999_999_999)
  {
    hide QueueOk, ControlOk, ResetOk, DisbursalOk, Principal;
    assert RowOk(c, s.eth, k, s.table[k]);
    assert AcctOk(s.table[k], Acct(s.book, k), k in PayingKeys(SchedQueue(s)), k in Keys(s.dispIssued));
    FullyPaidSlack(c, s.eth, k, s.table[k], Acct(s.book, k), k in PayingKeys(SchedQueue(s)), k in Keys(s.dispIssued));
  }

  lemma SettledSlackNow(c: Config, s: Sys, settled: set<Key>)
    requires Inv(c, s) && SettledRows(s, settled)
    ensures var p := MapSum(PrincipalOf(s, settled));
            1_000_000_000_000 * p <= MapSum(DepositsOf(s, settled)) <= 1_000_000_000_000 * p + (999_999_999_999) * |settled|
  {
    hide Inv, FullyPaid, NothingLost, Principal, MapSum;
    var p: map<Key, nat> := PrincipalOf(s, settled);
    var d: map<Key, nat> := DepositsOf(s, settled);
    forall k | k in settled ensures 1_000_000_000_000 * p[k] <= d[k] <= 1_000_000_000_000 * p[k] + (999_999_999_999) {
      SettledRow(c, s, k);
    }
    SlackSum(p, d, settled);
  }

  /**
    Once the rows of a set are fully paid, conversion kept back less than one mainnet unit for each. For a single row
    that is the set of it alone; what happened to other rows does not matter.
   */
  lemma SettledSlack(c: Config, s: Sys, steps: seq<Step>, settled: set<Key>)
    requires IsStart(c, s) && IsRun(c, s, steps) && SettledRows(Play(c, s, steps), settled)
    ensures var e := Play(c, s, steps);
            var p := MapSum(PrincipalOf(e, settled));
            1_000_000_000_000 * p <= MapSum(DepositsOf(e, settled)) <= 1_000_000_000_000 * p + (999_999_999_999) * |settled|
  {
    hide Play, IsRun, Inv, SettledRows;
    ReachableInv(c, s, steps);
    SettledSlackNow(c, Play(c, s, steps), settled);
  }

  lemma SlackSum(p: map<Key, nat>, d: map<Key, nat>, settled: set<Key>)
    requires p.Keys == d.Keys == settled
    requires forall k :: k in settled ==> 1_000_000_000_000 * p[k] <= d[k] <= 1_000_000_000_000 * p[k] + (999_999_999_999)
    ensures 1_000_000_000_000 * MapSum(p) <= MapSum(d) <= 1_000_000_000_000 * MapSum(p) + (999_999_999_999) * |settled|
  {
    hide MapSum;
    var fp: map<Key, nat> := map k | k in settled :: 1_000_000_000_000 * p[k];
    var slack: map<Key, nat> := map k | k in settled :: d[k] - fp[k];
    assert |slack| == |slack.Keys| && slack.Keys == settled;
    MapSumScale(p, fp, 1_000_000_000_000);
    MapSumAdd(fp, slack, d);
    MapSumBound(slack, 999_999_999_999);
  }

  /** Under the supply invariant the amount of a row accepted for a Transfer is at most 10^15 and fits its column. */
  lemma MigratedAmountFits(c: Config, s: Sys, steps: seq<Step>, k: Key)
    requires IsStart(c, s) && IsRun(c, s, steps)
    requires k in Play(c, s, steps).table && Play(c, s, steps).table[k].status.Code() >= TxnParsed.Code()
    requires IsTransfer(Play(c, s, steps).eth, k.hash)
    ensures Deposited(Play(c, s, steps).table[k]) <= E.INITIAL_SUPPLY
    ensures InitialDue(Play(c, s, steps).table[k]) <= 1_000_000_000_000_000
  {
    hide Play, IsRun;
    ReachableInv(c, s, steps);
    var e := Play(c, s, steps);
    var r := e.table[k];
    assert RowOk(c, e.eth, k, r);
    assert E.LogsBounded(e.eth.mined[k.hash].logs);
    assert e.eth.mined[k.hash].logs[0].event == Event.Transfer;
    ConversionMonotone(Deposited(r), E.INITIAL_SUPPLY);
  }

  // ---- The budget of one run ----

  function InitialTokensByKey(book: Book): map<Key, nat> {
    map k | k in book :: Sum(book[k].initial)
  }

  function InitialCountsByKey(book: Book): map<Key, nat> {
    map k | k in book :: |book[k].initial|
  }

  /** Tokens and recipients of all initial payments so far. */
  ghost function TokensPaid(book: Book): nat {
    MapSum(InitialTokensByKey(book))
  }

  ghost function RecipientsPaid(book: Book): nat {
    MapSum(InitialCountsByKey(book))
  }

  lemma AccountWritten(book: Book, k: Key, a: Account)
    ensures TokensPaid(book[k := a]) + Sum(Acct(book, k).initial) == TokensPaid(book) + Sum(a.initial)
    ensures RecipientsPaid(book[k := a]) + |Acct(book, k).initial| == RecipientsPaid(book) + |a.initial|
  {
    TokensWritten(book, k, a);
    CountWritten(book, k, a);
  }

  lemma TokensWritten(book: Book, k: Key, a: Account)
    ensures TokensPaid(book[k := a]) + Sum(Acct(book, k).initial) == TokensPaid(book) + Sum(a.initial)
  {
    hide Sum, MapSum;
    MapSumUpdate(InitialTokensByKey(book), k, Sum(a.initial));
    assert InitialTokensByKey(book[k := a]) == InitialTokensByKey(book)[k := Sum(a.initial)];
    EmptySum();
  }

  lemma CountWritten(book: Book, k: Key, a: Account)
    ensures RecipientsPaid(book[k := a]) + |Acct(book, k).initial| == RecipientsPaid(book) + |a.initial|
  {
    hide MapSum;
    MapSumUpdate(InitialCountsByKey(book), k, |a.initial|);
    assert InitialCountsByKey(book[k := a]) == InitialCountsByKey(book)[k := |a.initial|];
  }

  lemma EmptySum()
    ensures Sum([]) == 0
  {
  }

  lemma OneMoreInitial(book: Book, x: Weighted<Req>)
    ensures var book' := book[x.item.key := PaidInitial(Acct(book, x.item.key), x)];
            TokensPaid(book') == TokensPaid(book) + x.amount && RecipientsPaid(book') == RecipientsPaid(book) + 1
  {
    var a := Acct(book, x.item.key);
    SumAppend(a.initial, [x.amount]);
    SumSingleton(x.amount);
    AccountWritten(book, x.item.key, PaidInitial(a, x));
  }

  lemma {:induction false} PayInitialTotals(book: Book, batch: seq<Weighted<Req>>)
    ensures TokensPaid(PayInitial(book, batch)) == TokensPaid(book) + Cost(batch)
    ensures RecipientsPaid(PayInitial(book, batch)) == RecipientsPaid(book) + |batch|
    decreases |batch|
  {
    if batch != [] {
      var n := |batch| - 1;
      var b := PayInitial(book, batch[..n]);
      PayInitialTotals(book, batch[..n]);
      OneMoreInitial(b, batch[n]);
      CostLast(batch);
    }
  }

  lemma {:induction false} PayBonusTotals(book: Book, batch: seq<Weighted<Req>>)
    ensures TokensPaid(PayBonus(book, batch)) == TokensPaid(book)
    ensures RecipientsPaid(PayBonus(book, batch)) == RecipientsPaid(book)
    decreases |batch|
  {
    if batch != [] {
      var n := |batch| - 1;
      var b := PayBonus(book, batch[..n]);
      var a := Acct(b, batch[n].item.key);
      PayBonusTotals(book, batch[..n]);
      AccountWritten(b, batch[n].item.key, PaidBonus(a, batch[n]));
    }
  }

  lemma LoseOneTotals(book: Book, st: Stmt)
    ensures TokensPaid(LoseOne(book, st)) == TokensPaid(book)
    ensures RecipientsPaid(LoseOne(book, st)) == RecipientsPaid(book)
  {
    AccountWritten(book, st.key, Loss(Acct(book, st.key), st));
  }

  lemma {:induction false} LoseTotals(book: Book, q: seq<Stmt>)
    ensures TokensPaid(Lose(book, q)) == TokensPaid(book)
    ensures RecipientsPaid(Lose(book, q)) == RecipientsPaid(book)
    decreases |q|
  {
    if q != [] {
      LoseOneTotals(book, q[0]);
      LoseTotals(LoseOne(book, q[0]), q[1..]);
    }
  }

  /** The books after a step. */
  function BookAfter(c: Config, s: Sys, step: Step): Book
    requires Enabled(c, s, step)
  {
    match step
    case SchedPayFirst => PayInitial(s.book, PaidBy(s, step))
    case SchedPaySecond => PayInitial(s.book, PaidBy(s, step))
    case SchedCrash => Lose(s.book, SchedQueue(s))
    case SchedExec(applied, _) => if applied then s.book else LoseOne(s.book, SchedQueue(s)[0])
    case DispPay(allowed, balance) => PayBonus(s.book, BonusBatch(s.disp.value, allowed, balance))
    case DispExec(applied) => if applied then s.book else LoseOne(s.book, s.dispIssued[0])
    case DispCrash => Lose(s.book, s.dispIssued)
    case _ => s.book
  }

  lemma ApplyPaymentBook(c: Config, s: Sys, step: Step)
    requires Enabled(c, s, step) && (step.SchedPayFirst? || step.SchedPaySecond?)
    ensures Apply(c, s, step).book == BookAfter(c, s, step)
  {
  }

  lemma ApplySchedulerBook(c: Config, s: Sys, step: Step)
    requires Enabled(c, s, step) && IsSchedulerStep(step) && !step.SchedPayFirst? && !step.SchedPaySecond?
    ensures Apply(c, s, step).book == BookAfter(c, s, step)
  {
    hide Judge, InitialBatch, FirstBatch, IsSelect, HonestAnswers, FetchAll, Exec;
  }

  lemma ApplyOtherBook(c: Config, s: Sys, step: Step)
    requires Enabled(c, s, step) && !IsSchedulerStep(step)
    ensures Apply(c, s, step).book == BookAfter(c, s, step)
  {
    hide BonusStmts, Divisible, IsSelect, IsDisbursalSelect, IsInvalidSelect, BonusBatch;
  }

  /** Only the two batch payments of a run change the totals, by the cost and size of the batch. */
  lemma StepTotals(c: Config, s: Sys, step: Step)
    requires Enabled(c, s, step)
    ensures TokensPaid(Apply(c, s, step).book) == TokensPaid(s.book) + Cost(PaidBy(s, step))
    ensures RecipientsPaid(Apply(c, s, step).book) == RecipientsPaid(s.book) + |PaidBy(s, step)|
  {
    hide Apply, Enabled, BookAfter;
    if step.SchedPayFirst? || step.SchedPaySecond? {
      ApplyPaymentBook(c, s, step);
    } else if IsSchedulerStep(step) {
      ApplySchedulerBook(c, s, step);
    } else {
      ApplyOtherBook(c, s, step);
    }
    BookTotals(c, s, step);
  }

  lemma BookTotals(c: Config, s: Sys, step: Step)
    requires Enabled(c, s, step)
    ensures TokensPaid(BookAfter(c, s, step)) == TokensPaid(s.book) + Cost(PaidBy(s, step))
    ensures RecipientsPaid(BookAfter(c, s, step)) == RecipientsPaid(s.book) + |PaidBy(s, step)|
  {
    match step
    case SchedPayFirst => PayInitialTotals(s.book, PaidBy(s, step));
    case SchedPaySecond => PayInitialTotals(s.book, PaidBy(s, step));
    case SchedCrash => LoseTotals(s.book, SchedQueue(s));
    case SchedExec(_, _) => LoseOneTotals(s.book, SchedQueue(s)[0]);
    case DispPay(allowed, balance) => PayBonusTotals(s.book, BonusBatch(s.disp.value, allowed, balance));
    case DispExec(_) => LoseOneTotals(s.book, s.dispIssued[0]);
    case DispCrash => LoseTotals(s.book, s.dispIssued);
    case _ =>
  }

  function PaidBy(s: Sys, step: Step): seq<Weighted<Req>> {
    if step.SchedPayFirst? && s.sched.AtFirstBatch? then FirstBatch(s.sched.reqs, s.sched.budget)
    else if step.SchedPaySecond? && s.sched.Judged? then
      InitialBatch(s.sched.confirmed, s.sched.budget.allowed, s.sched.budget.balance)
    else []
  }

  /** The limits of the run the scheduler is in, if it has read them. */
  function BudgetOf(sched: Scheduler): Option<Budget> {
    match sched
    case Idle => None
    case Ready(_) => None
    case AtFirstBatch(_, b) => Some(b)
    case FirstSettling(_, b) => Some(b)
    case AtFetch(_, b) => Some(b)
    case Judged(_, b) => Some(b)
    case SecondSettling(b) => Some(b)
  }

  /** A run with the given limits, when the totals had been base tokens and heads recipients before it paid. */
  ghost predicate RunSoFar(book: Book, sched: Scheduler, allowed: nat, balance: nat, base: nat, heads: nat) {
    && base <= TokensPaid(book) <= base + balance
    && heads <= RecipientsPaid(book) <= heads + allowed
    && (sched.Ready? ==> TokensPaid(book) == base && RecipientsPaid(book) == heads)
    && (BudgetOf(sched).Some? ==>
          var b := BudgetOf(sched).value;
          && b.allowed0 == allowed && b.balance0 == balance
          && TokensPaid(book) == base + b.paid && RecipientsPaid(book) == heads + b.recipients)
  }

  /** How a step moves the scheduler's record of its limits. */
  ghost predicate BudgetStep(sched: Scheduler, sched': Scheduler, step: Step, paid: seq<Weighted<Req>>) {
    && (sched'.Ready? ==> sched.Ready? && paid == [])
    && (paid != [] ==> BudgetOf(sched').Some?)
    && (BudgetOf(sched').Some? ==>
          var b := BudgetOf(sched').value;
          if step.SchedDetails? then
            sched.Ready? && paid == [] && b == Budget(step.allowed, step.balance, step.allowed, step.balance, 0, 0)
          else
            && BudgetOf(sched).Some?
            && b.allowed0 == BudgetOf(sched).value.allowed0 && b.balance0 == BudgetOf(sched).value.balance0
            && b.paid == BudgetOf(sched).value.paid + Cost(paid)
            && b.recipients == BudgetOf(sched).value.recipients + |paid|)
  }

  lemma PaymentBudget(c: Config, s: Sys, step: Step)
    requires Enabled(c, s, step) && (step.SchedPayFirst? || step.SchedPaySecond?)
    ensures BudgetStep(s.sched, Apply(c, s, step).sched, step, PaidBy(s, step))
  {
  }

  lemma ControlBudget(c: Config, s: Sys, step: Step)
    requires Enabled(c, s, step) && IsSchedulerStep(step)
    requires !step.SchedSelect? && !step.SchedPayFirst? && !step.SchedPaySecond?
    ensures BudgetStep(s.sched, Apply(c, s, step).sched, step, PaidBy(s, step))
  {
    hide Enabled, Apply, BudgetStep;
    if step.SchedJudge? || step.SchedExec? {
      MiddleBudget(c, s, step);
    } else {
      EdgeBudget(c, s, step);
    }
  }

  lemma MiddleBudget(c: Config, s: Sys, step: Step)
    requires Enabled(c, s, step) && (step.SchedJudge? || step.SchedExec?)
    ensures BudgetStep(s.sched, Apply(c, s, step).sched, step, PaidBy(s, step))
  {
    hide Judge, HonestAnswers, FetchAll;
    EmptyCost();
  }

  lemma EdgeBudget(c: Config, s: Sys, step: Step)
    requires Enabled(c, s, step)
    requires step.SchedDetails? || step.SchedSkipFirst? || step.SchedFirstSettled? || step.SchedStop? || step.SchedCrash?
    ensures BudgetStep(s.sched, Apply(c, s, step).sched, step, PaidBy(s, step))
  {
    hide Lose;
    EmptyCost();
  }

  lemma OthersBudget(c: Config, s: Sys, step: Step)
    requires Enabled(c, s, step) && !IsSchedulerStep(step)
    ensures BudgetStep(s.sched, Apply(c, s, step).sched, step, PaidBy(s, step))
  {
    EmptyCost();
    assert Apply(c, s, step).sched == s.sched;
  }

  lemma EmptyCost()
    ensures Cost<Req>([]) == 0
  {
  }

  lemma LimitsKept(c: Config, s: Sys)
    requires Inv(c, s) && BudgetOf(s.sched).Some?
    ensures WithinBudget(BudgetOf(s.sched).value)
  {
  }

  lemma RunStep(c: Config, s: Sys, step: Step, allowed: nat, balance: nat, base: nat, heads: nat)
    requires Enabled(c, s, step) && RunSoFar(s.book, s.sched, allowed, balance, base, heads)
    requires !step.SchedSelect? && (step.SchedDetails? ==> step.allowed == allowed && step.balance == balance)
    requires BudgetOf(Apply(c, s, step).sched).Some? ==> WithinBudget(BudgetOf(Apply(c, s, step).sched).value)
    ensures RunSoFar(Apply(c, s, step).book, Apply(c, s, step).sched, allowed, balance, base, heads)
  {
    hide Apply, Enabled;
    StepTotals(c, s, step);
    if step.SchedPayFirst? || step.SchedPaySecond? {
      PaymentBudget(c, s, step);
    } else if IsSchedulerStep(step) {
      ControlBudget(c, s, step);
    } else {
      OthersBudget(c, s, step);
    }
    EmptyCost();
  }

  predicate OneRun(steps: seq<Step>, allowed: nat, balance: nat) {
    forall i :: 0 <= i < |steps| ==>
      !steps[i].SchedSelect? && (steps[i].SchedDetails? ==> steps[i].allowed == allowed && steps[i].balance == balance)
  }

  /**
    However a run of the scheduler goes on after it selected its rows, and whatever fails on the way, what it
    pays in its two batches together stays within the balance and the allowance it read.
   */
  lemma {:induction false} RunBudget(c: Config, s: Sys, steps: seq<Step>, allowed: nat, balance: nat, base: nat, heads: nat)
    requires Inv(c, s) && IsRun(c, s, steps) && OneRun(steps, allowed, balance)
    requires RunSoFar(s.book, s.sched, allowed, balance, base, heads)
    ensures RunSoFar(Play(c, s, steps).book, Play(c, s, steps).sched, allowed, balance, base, heads)
    decreases |steps|
  {
    hide Inv, Apply, Enabled, RunSoFar;
    if steps != [] {
      var s' := Apply(c, s, steps[0]);
      StepInv(c, s, steps[0]);
      if BudgetOf(s'.sched).Some? {
        LimitsKept(c, s');
      }
      RunStep(c, s, steps[0], allowed, balance, base, heads);
      assert forall i :: 0 <= i < |steps[1..]| ==> steps[1..][i] == steps[i + 1];
      RunBudget(c, s', steps[1..], allowed, balance, base, heads);
    }
  }

  /** In particular from the start of the run: however far it gets, at most `balance` to at most `allowed` rows. */
  lemma RunStaysWithinLimits(c: Config, s: Sys, steps: seq<Step>, allowed: nat, balance: nat)
    requires Inv(c, s) && s.sched.Ready? && IsRun(c, s, steps) && OneRun(steps, allowed, balance)
    ensures TokensPaid(s.book) <= TokensPaid(Play(c, s, steps).book) <= TokensPaid(s.book) + balance
    ensures RecipientsPaid(s.book) <= RecipientsPaid(Play(c, s, steps).book) <= RecipientsPaid(s.book) + allowed
  {
    hide Play, IsRun;
    RunBudget(c, s, steps, allowed, balance, TokensPaid(s.book), RecipientsPaid(s.book));
  }
}
