/**
  The straight way of one request through the pipeline. It shows that what the other modules speak about is
  reachable, and gives the runs in which a property fails that the code was meant to have.
 */
module PipelineWalk {
  import opened Wrappers
  import opened Sums
  import opened Requests
  import opened Amounts
  import opened Receipts
  import opened Greedy
  import opened BonusMath
  import opened BonusShares
  import opened Pipeline
  import opened PipelineInvariant
  import opened PipelineSafety
  import opened PipelineLedger
  import opened PipelineRuns
  import E = Erc20

  /** One transaction, and the request that names it. */
  datatype Walk = Walk(token: E.Token, height: nat, key: Key, tx: E.Tx, value: nat, mainnet: DockAddress, vesting: Option<bool>)

  function Record(w: Walk): TxRecord {
    E.Mine(w.token, w.tx).1
  }

  /** The receipt of the transaction is accepted for the request, its amount fits, and nothing else stands in the way. */
  ghost predicate Walkable(c: Config, w: Walk) {
    && E.SupplyOk(w.token) && w.token.self == c.token
    && Backs(c, Record(w), w.key, w.value) && (w.tx.Relayed? ==> w.tx.via != c.token)
    && w.key.addr !in c.blacklist && Due(w) < COLUMN_LIMIT
  }

  function Due(w: Walk): nat {
    InitialTokens(w.value, w.vesting)
  }

  function NewReq(w: Walk): Req {
    Req(w.key, NewRow(w.mainnet, w.vesting, false))
  }

  /** The row in memory when it is found confirmed; its block is in the table only. */
  function ConfirmedReq(w: Walk): Req {
    Req(w.key, NewReq(w).row.(status := TxnConfirmed, erc20 := Some(w.value)))
  }

  function ConfirmedRow(w: Walk): Row {
    ConfirmedReq(w).row.(block := Some(1))
  }

  function PaidRow(w: Walk): Row {
    ConfirmedRow(w).(status := InitialTransferDone, migrationTokens := Some(Due(w)))
  }

  function EthAfter(c: Config, w: Walk): Eth {
    Eth(E.Mine(w.token, w.tx).0, map[w.key.hash := Record(w)], w.height + c.confirmations + 2)
  }

  function Limits(w: Walk): Budget {
    Budget(1, Due(w), 1, Due(w), 0, 0)
  }

  function Answer(w: Walk): Option<Receipt> {
    Some(Receipt(Record(w), Some(1)))
  }

  function Batch(w: Walk): seq<Weighted<Req>> {
    [Weighted(ConfirmedReq(w), Due(w))]
  }

  function Verdict(w: Walk): Stmt {
    MarkParsedAndConfirmed(w.key, w.value, 1)
  }

  function Payment(w: Walk): Stmt {
    MarkInitialDone(w.key, Due(w))
  }

  /** A state of the walk: everything but the scheduler, its statements and what they did is at rest. */
  function At(c: Config, w: Walk, row: Row, sched: Scheduler, issued: seq<Stmt>, book: Book, log: seq<Stmt>): Sys {
    Sys(EthAfter(c, w), map[w.key := row], sched, [], issued, false, None, [], None, [], book, log)
  }

  const NO_BOOK: Book := map[]

  function PaidBook(w: Walk): Book {
    map[w.key := Account([Due(w)], 0, [], 0, [w.mainnet])]
  }

  /** The request once it is paid. */
  function Arrived(c: Config, w: Walk): Sys {
    At(c, w, PaidRow(w), Idle, [], PaidBook(w), [Verdict(w), Payment(w)])
  }

  lemma Extend(c: Config, start: Sys, steps: seq<Step>, s: Sys, step: Step, s': Sys)
    requires IsRun(c, start, steps) && Play(c, start, steps) == s
    requires Enabled(c, s, step) && Apply(c, s, step) == s'
    ensures IsRun(c, start, steps + [step]) && Play(c, start, steps + [step]) == s'
  {
    hide Enabled, Apply;
    PlayAppend(c, start, steps, step);
  }

  // ---- The steps ----

  lemma ToRequest(c: Config, w: Walk) returns (steps: seq<Step>)
    requires Walkable(c, w)
    ensures IsRun(c, Start(w.token, w.height), steps)
    ensures Play(c, Start(w.token, w.height), steps) == At(c, w, NewReq(w).row, Idle, [], NO_BOOK, [])
    ensures BalancesWithin(steps, Due(w))
  {
    var s0 := Start(w.token, w.height);
    var s1 := s0.(eth := Eth(E.Mine(w.token, w.tx).0, map[w.key.hash := Record(w)], w.height));
    var s2 := s1.(eth := EthAfter(c, w));
    var s3 := At(c, w, NewReq(w).row, Idle, [], NO_BOOK, []);
    steps := [];
    Extend(c, s0, steps, s0, Mine(w.key.hash, w.tx), s1);
    steps := steps + [Mine(w.key.hash, w.tx)];
    Extend(c, s0, steps, s1, NewHeight(s2.eth.height), s2);
    steps := steps + [NewHeight(s2.eth.height)];
    Extend(c, s0, steps, s2, Track(w.key, w.mainnet, w.vesting), s3);
    steps := steps + [Track(w.key, w.mainnet, w.vesting)];
  }

  lemma OneGroup(r: Req, st: Status)
    ensures WithStatus([r], st) == if r.row.status == st then [r] else []
  {
    assert [r][..0] == [];
    assert WithStatus([r][..0], st) == [];
  }

  lemma SelectOne(c: Config, w: Walk)
    ensures var s := At(c, w, NewReq(w).row, Idle, [], NO_BOOK, []);
            Enabled(c, s, SchedSelect([NewReq(w)]))
  {
    var t := map[w.key := NewReq(w).row];
    assert [NewReq(w)][0].key == w.key;
    assert IsSelect([NewReq(w)], t, IsPending);
  }

  lemma ToFetch(c: Config, w: Walk, start: Sys, steps: seq<Step>) returns (steps': seq<Step>)
    requires BalancesWithin(steps, Due(w))
    requires IsRun(c, start, steps) && Play(c, start, steps) == At(c, w, NewReq(w).row, Idle, [], NO_BOOK, [])
    ensures IsRun(c, start, steps')
    ensures Play(c, start, steps') == At(c, w, NewReq(w).row, AtFetch([NewReq(w)], Limits(w)), [], NO_BOOK, [])
    ensures BalancesWithin(steps', Due(w))
  {
    hide IsRun, Play;
    var req := NewReq(w);
    var s := At(c, w, req.row, Idle, [], NO_BOOK, []);
    SelectOne(c, w);
    Extend(c, start, steps, s, SchedSelect([req]), s.(sched := Ready([req])));
    steps' := steps + [SchedSelect([req])];
    Extend(c, start, steps', s.(sched := Ready([req])), SchedDetails(1, Due(w)), s.(sched := AtFirstBatch([req], Limits(w))));
    steps' := steps' + [SchedDetails(1, Due(w))];
    Extend(c, start, steps', s.(sched := AtFirstBatch([req], Limits(w))), SchedSkipFirst, s.(sched := AtFetch([req], Limits(w))));
    steps' := steps' + [SchedSkipFirst];
  }

  lemma JudgedConfirmed(c: Config, w: Walk)
    requires Walkable(c, w)
    ensures Unconfirmed([NewReq(w)]) == [NewReq(w)]
    ensures Judge(c, [NewReq(w)], FetchAll(c, [Answer(w)]), EthAfter(c, w).height) == Judgement([Verdict(w)], [ConfirmedReq(w)], false)
  {
    var req := NewReq(w);
    OneGroup(req, SigValid);
    OneGroup(req, TxnParsed);
    var txns := FetchAll(c, [Answer(w)]);
    assert txns[0] == Ok(Transferred(w.key.addr, c.vault, w.value, Some(1)));
    assert JudgeNew(c, [req][..0], txns, EthAfter(c, w).height) == Judgement([], [], false);
    assert JudgeNew(c, [req], txns, EthAfter(c, w).height) == Judgement([Verdict(w)], [ConfirmedReq(w)], false);
  }

  lemma ToVerdict(c: Config, w: Walk, start: Sys, steps: seq<Step>) returns (steps': seq<Step>)
    requires BalancesWithin(steps, Due(w))
    requires Walkable(c, w) && IsRun(c, start, steps)
    requires Play(c, start, steps) == At(c, w, NewReq(w).row, AtFetch([NewReq(w)], Limits(w)), [], NO_BOOK, [])
    ensures IsRun(c, start, steps')
    ensures Play(c, start, steps') == At(c, w, ConfirmedRow(w), Judged([ConfirmedReq(w)], Limits(w)), [], NO_BOOK, [Verdict(w)])
    ensures BalancesWithin(steps', Due(w))
  {
    hide IsRun, Play, Judge, Unconfirmed, Walkable, Record;
    var s := At(c, w, NewReq(w).row, AtFetch([NewReq(w)], Limits(w)), [], NO_BOOK, []);
    var s1 := At(c, w, NewReq(w).row, Judged([ConfirmedReq(w)], Limits(w)), [Verdict(w)], NO_BOOK, []);
    var s2 := At(c, w, ConfirmedRow(w), Judged([ConfirmedReq(w)], Limits(w)), [], NO_BOOK, [Verdict(w)]);
    JudgedConfirmed(c, w);
    Extend(c, start, steps, s, SchedJudge([Answer(w)]), s1);
    steps' := steps + [SchedJudge([Answer(w)])];
    assert SchedQueue(s1) == [Verdict(w)] && [Verdict(w)][1..] == [];
    Extend(c, start, steps', s1, SchedExec(true, true), s2);
    steps' := steps' + [SchedExec(true, true)];
  }

  /** A single row that fits is the whole selection. */
  lemma SelectSingle(x: Weighted<Req>)
    ensures Select([x], 1, x.amount) == [x] && Cost([x]) == x.amount
  {
    assert [x][..0] == [] && [x][..1] == [x];
    assert Sort([x][..0]) == [];
    assert Sort([x]) == [x];
    CostLast([x]);
    assert Take([x], 1, x.amount, 0) == 1;
  }

  lemma PayOne(w: Walk)
    ensures InitialBatch([ConfirmedReq(w)], 1, Due(w)) == Batch(w)
    ensures InitialDoneStmts(Batch(w)) == [Payment(w)]
    ensures Cost(Batch(w)) == Due(w)
  {
    assert WeighInitial([ConfirmedReq(w)]) == Batch(w);
    SelectSingle(Weighted(ConfirmedReq(w), Due(w)));
  }

  lemma BookOne(w: Walk)
    ensures PayInitial(NO_BOOK, Batch(w)) == PaidBook(w)
  {
    assert Batch(w)[..0] == [];
    assert PayInitial(NO_BOOK, Batch(w)[..0]) == NO_BOOK;
    assert [] + [Due(w)] == [Due(w)] && [] + [w.mainnet] == [w.mainnet];
  }

  function Paying(c: Config, w: Walk): Sys {
    At(c, w, ConfirmedRow(w), SecondSettling(Charge(Limits(w), Batch(w))), [Payment(w)], PaidBook(w), [Verdict(w)])
  }

  lemma PaymentStep(c: Config, w: Walk)
    ensures var s := At(c, w, ConfirmedRow(w), Judged([ConfirmedReq(w)], Limits(w)), [], NO_BOOK, [Verdict(w)]);
            Enabled(c, s, SchedPaySecond) && Apply(c, s, SchedPaySecond) == Paying(c, w)
  {
    hide InitialBatch, PayInitial, InitialDoneStmts, Cost;
    PayOne(w);
    BookOne(w);
  }

  lemma RecordedRow(w: Walk)
    ensures Exec(Payment(w), map[w.key := ConfirmedRow(w)]) == map[w.key := PaidRow(w)]
  {
  }

  lemma RecordStep(c: Config, w: Walk)
    ensures var s := Paying(c, w);
            var s' := At(c, w, PaidRow(w), s.sched, [], PaidBook(w), [Verdict(w), Payment(w)]);
            Enabled(c, s, SchedExec(true, true)) && Apply(c, s, SchedExec(true, true)) == s'
  {
    hide Due, Charge, Limits, Exec, PaidRow, ConfirmedRow;
    RecordedRow(w);
    assert SchedQueue(Paying(c, w)) == [Payment(w)] && [Payment(w)][1..] == [];
    assert [Verdict(w)] + [Payment(w)] == [Verdict(w), Payment(w)];
  }

  lemma ToPaid(c: Config, w: Walk, start: Sys, steps: seq<Step>) returns (steps': seq<Step>)
    requires BalancesWithin(steps, Due(w))
    requires IsRun(c, start, steps)
    requires Play(c, start, steps) == At(c, w, ConfirmedRow(w), Judged([ConfirmedReq(w)], Limits(w)), [], NO_BOOK, [Verdict(w)])
    ensures IsRun(c, start, steps') && Play(c, start, steps') == Arrived(c, w)
    ensures BalancesWithin(steps', Due(w))
  {
    hide IsRun, Play, Enabled, Apply;
    PaymentStep(c, w);
    RecordStep(c, w);
    var s := Paying(c, w);
    var s' := At(c, w, PaidRow(w), s.sched, [], PaidBook(w), [Verdict(w), Payment(w)]);
    Extend(c, start, steps, Play(c, start, steps), SchedPaySecond, s);
    steps' := steps + [SchedPaySecond];
    Extend(c, start, steps', s, SchedExec(true, true), s');
    steps' := steps' + [SchedExec(true, true)];
    assert Enabled(c, s', SchedStop) && Apply(c, s', SchedStop) == Arrived(c, w) by { StopStep(c, w); }
    Extend(c, start, steps', s', SchedStop, Arrived(c, w));
    steps' := steps' + [SchedStop];
  }

  lemma StopStep(c: Config, w: Walk)
    ensures var s := At(c, w, PaidRow(w), Paying(c, w).sched, [], PaidBook(w), [Verdict(w), Payment(w)]);
            Enabled(c, s, SchedStop) && Apply(c, s, SchedStop) == Arrived(c, w)
  {
    hide PaidRow, PaidBook;
  }

  /** Every acceptable transaction can be mined, requested, judged and paid: the whole way is a run of the machine,
    which need read no balance beyond the amount due. */
  lemma AcceptedIsPaid(c: Config, w: Walk) returns (steps: seq<Step>)
    requires Walkable(c, w)
    ensures IsStart(c, Start(w.token, w.height)) && IsRun(c, Start(w.token, w.height), steps)
    ensures Play(c, Start(w.token, w.height), steps) == Arrived(c, w)
    ensures BalancesWithin(steps, Due(w))
  {
    hide IsRun, Play;
    var start := Start(w.token, w.height);
    steps := ToRequest(c, w);
    steps := ToFetch(c, w, start, steps);
    steps := ToVerdict(c, w, start, steps);
    steps := ToPaid(c, w, start, steps);
  }

  // ---- A booked row without a deposit ----

  /** approve(vault, v) by a holder, requested without vesting. */
  function ApprovalWalk(c: Config, token: E.Token, height: nat, key: Key, v: E.Uint256): Walk {
    Walk(token, height, key, E.Direct(key.addr, E.DoApprove(c.vault, v)), v, 0, Some(false))
  }

  lemma ApprovalWalkable(c: Config, token: E.Token, height: nat, key: Key, v: E.Uint256)
    requires E.SupplyOk(token) && token.self == c.token && key.addr !in c.blacklist && v / 1_000_000_000_000 < COLUMN_LIMIT
    ensures Walkable(c, ApprovalWalk(c, token, height, key, v))
    ensures Record(ApprovalWalk(c, token, height, key, v)) == ApprovalRecord(c, key.addr, v)
  {
    EventIsNotExamined(c, key, v, Some(1));
  }

  lemma OneEntry<K(!new)>(k: K, v: nat)
    ensures MapSum(map[k := v]) == v
  {
    MapSumRemove(map[k := v], k);
    assert map[k := v] - {k} == map[];
  }

  /**
    Conservation without the Unbacked term is false of the code. From any start, for every amount that fits its
    column once converted: one approval of the vault, mined and requested, is paid out in full, by a run that reads a
    balance of no more than that, while the vault received nothing and no write was lost.
   */
  lemma PrincipalWithoutDeposit(c: Config, token: E.Token, height: nat, key: Key, v: E.Uint256) returns (steps: seq<Step>)
    requires E.SupplyOk(token) && token.self == c.token && key.addr !in c.blacklist && v / 1_000_000_000_000 < COLUMN_LIMIT
    ensures IsStart(c, Start(token, height)) && IsRun(c, Start(token, height), steps)
    ensures BalancesWithin(steps, v / 1_000_000_000_000)
    ensures var e := Play(c, Start(token, height), steps);
            && NoLostWrites(e) && VaultDeposits(c, e.eth) == 0 && PrincipalPaid(e) == v / 1_000_000_000_000
            && key in e.table && InitialDue(e.table[key]) == v / 1_000_000_000_000
  {
    hide IsRun, Play, Walkable;
    var w := ApprovalWalk(c, token, height, key, v);
    ApprovalWalkable(c, token, height, key, v);
    steps := AcceptedIsPaid(c, w);
    EventIsNotExamined(c, key, v, None);
    Received(c, w);
    ExactlyPaid(c, w);
  }

  /** The vault received what the one transaction transferred to it. */
  lemma Received(c: Config, w: Walk)
    ensures VaultDeposits(c, Arrived(c, w).eth) == VaultValue(c, Record(w).logs)
  {
    assert DepositsByHash(c, Arrived(c, w).eth) == map[w.key.hash := VaultValue(c, Record(w).logs)];
    OneEntry(w.key.hash, VaultValue(c, Record(w).logs));
  }

  lemma ExactlyPaid(c: Config, w: Walk)
    ensures NoLostWrites(Arrived(c, w)) && PrincipalPaid(Arrived(c, w)) == Due(w)
    ensures InitialDue(Arrived(c, w).table[w.key]) == Due(w)
  {
    SumSingleton(Due(w));
    assert PrincipalByKey(Arrived(c, w)) == map[w.key := Due(w)];
    OneEntry(w.key, Due(w));
  }

  // ---- A calculation that divides by zero ----

  /** transfer(vault, v) by a holder. */
  function TransferWalk(c: Config, token: E.Token, height: nat, key: Key, v: E.Uint256, vesting: bool): Walk {
    Walk(token, height, key, E.Direct(key.addr, E.DoTransfer(c.vault, v)), v, 0, Some(vesting))
  }

  /** Any real deposit below 10^12 units is enough: once it is migrated, the total the calculation divides by is 0. */
  lemma TotalCanBeZero(c: Config, token: E.Token, height: nat, key: Key, v: E.Uint256, vesting: bool)
    returns (steps: seq<Step>, reqs: seq<Req>)
    requires E.SupplyOk(token) && token.self == c.token && key.addr !in c.blacklist
    requires E.Execute(token, key.addr, E.DoTransfer(c.vault, v)).Done? && v < 1_000_000_000_000
    ensures IsStart(c, Start(token, height)) && IsRun(c, Start(token, height), steps)
    ensures CanCalcSelect(Play(c, Start(token, height), steps), reqs) && reqs != [] && !Divisible(reqs)
    ensures VaultDeposits(c, Play(c, Start(token, height), steps).eth) == v
  {
    hide IsRun, Play, Divisible;
    var w := TransferWalk(c, token, height, key, v, vesting);
    steps := AcceptedIsPaid(c, w);
    reqs := [Req(key, PaidRow(w))];
    assert reqs[0].key == key;
    DivisibleExactly(reqs);
    assert Record(w).logs[..0] == [] && VaultValue(c, []) == 0;
    Received(c, w);
  }
}
