/** Migration requests, their statuses, and the statements that change the request table. */
module Requests {
  import opened Wrappers

  type Address = nat
  type Hash = nat
  type DockAddress = nat

  /** Life of a request. `Code` is the number stored in the status column. */
  datatype Status =
    | InvalidBlacklist
    | Invalid
    | SigValid
    | TxnParsed
    | TxnConfirmed
    | InitialTransferDone
    | BonusCalculated
    | BonusTransferred
  {
    function Code(): int {
      match this
      case InvalidBlacklist => -2
      case Invalid => -1
      case SigValid => 0
      case TxnParsed => 1
      case TxnConfirmed => 2
      case InitialTransferDone => 3
      case BonusCalculated => 4
      case BonusTransferred => 5
    }
  }

  /** The primary key of public.requests. */
  datatype Key = Key(addr: Address, hash: Hash)

  /** The other columns that decide who is paid what. */
  datatype Row = Row(
    mainnet: DockAddress,
    vesting: Option<bool>,
    status: Status,
    erc20: Option<nat>,
    block: Option<nat>,
    migrationTokens: Option<nat>,
    swapBonus: Option<nat>,
    vestingBonus: Option<nat>)

  /** A row as a SELECT returns it. */
  datatype Req = Req(key: Key, row: Row)

  type Table = map<Key, Row>

  /** The UPDATE statements. Each is keyed by the primary key alone; none tests the current status. */
  datatype Stmt =
    | MarkInvalid(key: Key)
    | MarkParsed(key: Key, erc20: nat)
    | MarkConfirmed(key: Key, block: nat)
    | MarkParsedAndConfirmed(key: Key, erc20: nat, block: nat)
    | MarkInitialDone(key: Key, tokens: nat)
    | UpdateBonuses(key: Key, swap: nat, vest: nat)
    | UpdateAfterBonus(key: Key)
    | ResetStatus(key: Key)

  function Assign(st: Stmt, r: Row): Row {
    match st
    case MarkInvalid(_) => r.(status := Invalid)
    case MarkParsed(_, e) => r.(status := TxnParsed, erc20 := Some(e))
    case MarkConfirmed(_, b) => r.(status := TxnConfirmed, block := Some(b))
    case MarkParsedAndConfirmed(_, e, b) => r.(status := TxnConfirmed, erc20 := Some(e), block := Some(b))
    case MarkInitialDone(_, n) => r.(status := InitialTransferDone, migrationTokens := Some(n))
    case UpdateBonuses(_, s, v) => r.(status := BonusCalculated, swapBonus := Some(s), vestingBonus := Some(v))
    case UpdateAfterBonus(_) => r.(status := BonusTransferred)
    case ResetStatus(_) => r.(status := SigValid)
  }

  /** An UPDATE whose key is absent changes no row. */
  function Exec(st: Stmt, t: Table): Table {
    if st.key in t then t[st.key := Assign(st, t[st.key])] else t
  }

  /** The table once every statement of q has been applied, in order. */
  function Drain(q: seq<Stmt>, t: Table): Table
    decreases |q|
  {
    if q == [] then t else Drain(q[1..], Exec(q[0], t))
  }

  /** The row a new request starts with. */
  function NewRow(mainnet: DockAddress, vesting: Option<bool>, blacklisted: bool): Row {
    Row(mainnet, vesting, if blacklisted then InvalidBlacklist else SigValid, None, None, None, None, None)
  }

  function Keys(q: seq<Stmt>): set<Key> {
    set i | 0 <= i < |q| :: q[i].key
  }

  predicate DistinctKeys(q: seq<Stmt>) {
    forall i, j :: 0 <= i < j < |q| ==> q[i].key != q[j].key
  }

  predicate DistinctReqs(reqs: seq<Req>) {
    forall i, j :: 0 <= i < j < |reqs| ==> reqs[i].key != reqs[j].key
  }

  /** The stored numbers tell the statuses apart, and go up along the life of a request. */
  lemma StatusNumbers(st: Status, st': Status)
    ensures st.Code() == st'.Code() ==> st == st'
    ensures InvalidBlacklist.Code() < Invalid.Code() < 0 == SigValid.Code() < TxnParsed.Code() < TxnConfirmed.Code()
    ensures TxnConfirmed.Code() < InitialTransferDone.Code() < BonusCalculated.Code() < BonusTransferred.Code()
  {
  }

  /** Migration not done yet: what getPendingMigrationRequests selects. */
  predicate IsPending(r: Row) {
    SigValid.Code() <= r.status.Code() < InitialTransferDone.Code()
  }

  /** Eligible for bonus calculation. */
  predicate AwaitsCalculation(r: Row) {
    r.status == InitialTransferDone && r.vesting.Some?
  }

  /** Eligible for bonus disbursal. */
  predicate AwaitsDisbursal(r: Row) {
    r.status == BonusCalculated && r.vesting.Some?
  }

  lemma {:induction false} DrainKeys(q: seq<Stmt>, t: Table)
    ensures Drain(q, t).Keys == t.Keys
    decreases |q|
  {
    if q != [] {
      DrainKeys(q[1..], Exec(q[0], t));
    }
  }

  lemma {:induction false} DrainAppend(q: seq<Stmt>, st: Stmt, t: Table)
    ensures Drain(q + [st], t) == Exec(st, Drain(q, t))
    decreases |q|
  {
    if q == [] {
      assert q + [st] == [st];
    } else {
      assert (q + [st])[1..] == q[1..] + [st];
      DrainAppend(q[1..], st, Exec(q[0], t));
    }
  }

  /** A row is a function of its own history: statements on other keys and other rows do not matter. */
  lemma {:induction false} DrainLocal(q: seq<Stmt>, t: Table, u: Table, k: Key)
    requires k in t && k in u && t[k] == u[k]
    ensures k in Drain(q, t) && k in Drain(q, u) && Drain(q, t)[k] == Drain(q, u)[k]
    decreases |q|
  {
    if q != [] {
      DrainLocal(q[1..], Exec(q[0], t), Exec(q[0], u), k);
    }
  }

  lemma {:induction false} DrainUntouched(q: seq<Stmt>, t: Table, k: Key)
    requires k in t
    requires forall i :: 0 <= i < |q| ==> q[i].key != k
    ensures k in Drain(q, t) && Drain(q, t)[k] == t[k]
    decreases |q|
  {
    if q != [] {
      DrainUntouched(q[1..], Exec(q[0], t), k);
    }
  }

  /** With one statement per key, each row ends as its own statement leaves it, in whatever order they ran. */
  lemma {:induction false} DrainEach(q: seq<Stmt>, t: Table, i: nat)
    requires DistinctKeys(q) && i < |q| && q[i].key in t
    ensures q[i].key in Drain(q, t) && Drain(q, t)[q[i].key] == Assign(q[i], t[q[i].key])
    decreases |q|
  {
    if i == 0 {
      DrainUntouched(q[1..], Exec(q[0], t), q[0].key);
    } else {
      DrainEach(q[1..], Exec(q[0], t), i - 1);
    }
  }
}
