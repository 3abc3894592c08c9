/** Transaction receipts and their acceptance as a token transfer to the vault (src/eth-txn-utils.js). */
module Receipts {
  import opened Wrappers
  import opened Requests

  /** Which event a log's first topic names. */
  datatype Event = Transfer | Approval | OwnershipTransferred

  /** topics[1], topics[2] and the data word; None where the decoder finds nothing to decode. */
  datatype Log = Log(event: Event, topic1: Option<Address>, topic2: Option<Address>, data: Option<nat>)

  /** What a mined transaction fixes for good: outcome, target and logs. */
  datatype TxRecord = TxRecord(ok: bool, to: Option<Address>, logs: seq<Log>)

  /** A receipt adds the block, which may move and may be missing while the chain reorganises. */
  datatype Receipt = Receipt(tx: TxRecord, block: Option<nat>)

  /** The decoded transfer that the rest of the code calls `txn`. */
  datatype Transferred = Transferred(from: Address, to: Address, value: nat, block: Option<nat>)

  datatype Rejection = NoSuchTransaction | Unsuccessful | NotTokenTransfer | Undecodable | OtherRecipient

  /** Settings read from the process environment. */
  datatype Config = Config(
    token: Address,
    vault: Address,
    confirmations: nat,
    blacklist: set<Address>,
    swapPool: nat,
    vestingPool: nat)

  const MAX_SAFE_INTEGER: nat := 0x1F_FFFF_FFFF_FFFF

  function GetTransactionWithLogs(answer: Option<Receipt>): Result<Receipt, Rejection> {
    match answer
    case None => Err(NoSuchTransaction)
    case Some(r) => if !r.tx.ok then Err(Unsuccessful) else Ok(r)
  }

  /** Reads topics[1] and topics[2] and the data; the event named by topics[0] is not looked at. */
  function ParseLogAsERC20Transfer(log: Log, block: Option<nat>): Result<Transferred, Rejection> {
    match (log.topic1, log.topic2, log.data)
    case (Some(from), Some(to), Some(value)) => Ok(Transferred(from, to, value, block))
    case _ => Err(Undecodable)
  }

  function ParseTxnAsERC20Transfer(r: Receipt, contractAddress: Address): Result<Transferred, Rejection> {
    if r.tx.to == Some(contractAddress) && |r.tx.logs| == 1
    then ParseLogAsERC20Transfer(r.tx.logs[0], r.block)
    else Err(NotTokenTransfer)
  }

  function ParseTxnAsERC20TransferToRecip(r: Receipt, contractAddress: Address, recip: Address): Result<Transferred, Rejection> {
    match ParseTxnAsERC20Transfer(r, contractAddress)
    case Err(e) => Err(e)
    case Ok(t) => if t.to != recip then Err(OtherRecipient) else Ok(t)
  }

  /** getTransactionAsDockERC20TransferToVault on the node's answer for one hash. */
  function TransferToVault(c: Config, answer: Option<Receipt>): Result<Transferred, Rejection> {
    match GetTransactionWithLogs(answer)
    case Err(e) => Err(e)
    case Ok(r) => ParseTxnAsERC20TransferToRecip(r, c.token, c.vault)
  }

  /** A block number of 0, or none at all, is falsy: never confirmed. */
  predicate IsTxnConfirmedAsOf(c: Config, txn: Transferred, refBlockNumber: nat) {
    match txn.block
    case None => false
    case Some(b) => 0 < b <= MAX_SAFE_INTEGER && refBlockNumber - (b + c.confirmations) > 0
  }

  /** Every block from 1 to 2^53 - 1 that is deep enough is confirmed, and nothing else is. */
  lemma ConfirmationExact(c: Config, txn: Transferred, refBlockNumber: nat)
    ensures IsTxnConfirmedAsOf(c, txn, refBlockNumber)
       <==> exists b :: txn.block == Some(b) && 1 <= b <= 9_007_199_254_740_991 && b + c.confirmations < refBlockNumber
  {
    if txn.block.Some? {
      assert txn.block == Some(txn.block.value);
    }
  }

  predicate IsValidTransferFrom(txn: Transferred, ethAddr: Address) {
    txn.from == ethAddr
  }

  /** The mined transaction that lets row k be parsed with value v. */
  predicate Backs(c: Config, tx: TxRecord, k: Key, v: nat) {
    tx.ok && tx.to == Some(c.token) && |tx.logs| == 1
    && tx.logs[0].topic1 == Some(k.addr) && tx.logs[0].topic2 == Some(c.vault) && tx.logs[0].data == Some(v)
  }

  /** Acceptance, all rejections included, is exactly that the receipt's transaction backs the row. */
  lemma AcceptanceMeansBacking(c: Config, answer: Option<Receipt>, k: Key)
    ensures (TransferToVault(c, answer).Ok? && IsValidTransferFrom(TransferToVault(c, answer).value, k.addr))
       <==> (answer.Some? && exists v :: Backs(c, answer.value.tx, k, v))
    ensures TransferToVault(c, answer).Ok? && IsValidTransferFrom(TransferToVault(c, answer).value, k.addr) ==>
              Backs(c, answer.value.tx, k, TransferToVault(c, answer).value.value)
              && TransferToVault(c, answer).value.block == answer.value.block
  {
    var res := TransferToVault(c, answer);
    if res.Ok? && IsValidTransferFrom(res.value, k.addr) {
      assert Backs(c, answer.value.tx, k, res.value.value);
    }
  }

  /** One transaction backs one address and one amount: the sender match makes the pair unique. */
  lemma BackingUnique(c: Config, tx: TxRecord, k: Key, j: Key, v: nat, w: nat)
    requires Backs(c, tx, k, v) && Backs(c, tx, j, w)
    ensures k.addr == j.addr && v == w
  {
  }

  /** Token units that a list of logs moves to the vault. */
  function VaultValue(c: Config, logs: seq<Log>): nat {
    if logs == [] then 0
    else
      var l := logs[|logs| - 1];
      VaultValue(c, logs[..|logs| - 1])
      + (if l.event == Transfer && l.topic2 == Some(c.vault) && l.data.Some? then l.data.value else 0)
  }

  /**
    An accepted receipt stands for a deposit of its value exactly when its log is a Transfer event
    (or the value is zero); the decoder itself does not look at the event.
   */
  lemma BackingIsDeposit(c: Config, tx: TxRecord, k: Key, v: nat)
    requires Backs(c, tx, k, v)
    ensures VaultValue(c, tx.logs) == v <==> tx.logs[0].event == Transfer || v == 0
  {
    assert tx.logs[..0] == [];
    assert VaultValue(c, []) == 0;
  }

  /** The record of a call that leaves one Approval log for the vault. */
  function ApprovalRecord(c: Config, a: Address, v: nat): TxRecord {
    TxRecord(true, Some(c.token), [Log(Approval, Some(a), Some(c.vault), Some(v))])
  }

  /** The event does matter: such a record is accepted with whatever value it names, and no Transfer is behind it. */
  lemma EventIsNotExamined(c: Config, k: Key, v: nat, block: Option<nat>)
    ensures Backs(c, ApprovalRecord(c, k.addr, v), k, v)
    ensures TransferToVault(c, Some(Receipt(ApprovalRecord(c, k.addr, v), block))) == Ok(Transferred(k.addr, c.vault, v, block))
    ensures VaultValue(c, ApprovalRecord(c, k.addr, v).logs) == 0
  {
    assert VaultValue(c, ApprovalRecord(c, k.addr, v).logs[..0]) == 0;
  }
}
