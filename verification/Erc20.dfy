/** The deposit ledger: the token of erc20.sol as a function from state and call to outcome. */
module Erc20 {
  import opened Wrappers
  import opened Sums
  import opened Requests
  import opened Receipts

  /** 2^256: uint256 arithmetic wraps here. */
  const MODULUS: nat := 0x1_0000000000000000_0000000000000000_0000000000000000_0000000000000000

  /** 10^9 tokens of 10^18 units. */
  const INITIAL_SUPPLY: nat := 1_000_000_000_000_000_000_000_000_000

  const NOBODY: Address := 0

  type Uint256 = n: nat | n < MODULUS

  datatype Token = Token(
    self: Address,
    owner: Address,
    admin: Address,
    offering: Address,
    transferEnabled: bool,
    balances: map<Address, Uint256>,
    allowed: map<(Address, Address), Uint256>)

  datatype Call =
    | DoTransfer(to: Address, value: Uint256)
    | DoTransferFrom(from: Address, to: Address, value: Uint256)
    | DoApprove(spender: Address, value: Uint256)
    | DoIncreaseApproval(spender: Address, value: Uint256)
    | DoDecreaseApproval(spender: Address, value: Uint256)
    | DoTransferOwnership(newOwner: Address)
    | DoSetTokenOffering(offeringAddr: Address, amountForSale: Uint256)
    | DoEnableTransfer

  /** A failed require or assert undoes the whole call. */
  datatype Outcome = Reverted | Done(token: Token, log: Log)

  /** Wrapping sum, then the assert of SafeMath.add. */
  function SafeAdd(a: Uint256, b: Uint256): Option<Uint256> {
    var c := (a + b) % MODULUS;
    if c >= a then Some(c) else None
  }

  function SafeSub(a: Uint256, b: Uint256): Option<Uint256> {
    if b <= a then Some(a - b) else None
  }

  /** The wrap-around assert detects exactly the overflows. */
  lemma SafeAddExact(a: Uint256, b: Uint256)
    ensures SafeAdd(a, b) == if a + b < MODULUS then Some(a + b) else None
    ensures MODULUS == 115792089237316195423570985008687907853269984665640564039457584007913129639936
  {
    if a + b >= MODULUS {
      assert (a + b) % MODULUS == a + b - MODULUS;
    }
  }

  /** Mappings start at zero everywhere. */
  function Balance(t: Token, a: Address): Uint256 {
    if a in t.balances then t.balances[a] else 0
  }

  function Allowance(t: Token, a: Address, spender: Address): Uint256 {
    if (a, spender) in t.allowed then t.allowed[(a, spender)] else 0
  }

  function TransferLog(from: Address, to: Address, value: nat): Log {
    Log(Event.Transfer, Some(from), Some(to), Some(value))
  }

  function ApprovalLog(a: Address, spender: Address, value: nat): Log {
    Log(Approval, Some(a), Some(spender), Some(value))
  }

  predicate TransferAllowed(t: Token, sender: Address) {
    t.transferEnabled || sender == t.admin || sender == t.offering
  }

  predicate ValidDestination(t: Token, to: Address) {
    to != NOBODY && to != t.self && to != t.owner && to != t.admin && to != t.offering
  }

  /** Debit then credit, in that order, reading the credited balance after the debit. */
  function Move(t: Token, from: Address, to: Address, value: Uint256): Option<Token> {
    match SafeSub(Balance(t, from), value)
    case None => None
    case Some(debited) =>
      var t' := t.(balances := t.balances[from := debited]);
      match SafeAdd(Balance(t', to), value)
      case None => None
      case Some(credited) => Some(t'.(balances := t'.balances[to := credited]))
  }

  function Approve(t: Token, a: Address, spender: Address, value: Uint256): Token {
    t.(allowed := t.allowed[(a, spender) := value])
  }

  function Execute(t: Token, sender: Address, call: Call): Outcome {
    match call
    case DoTransfer(to, value) =>
      if !TransferAllowed(t, sender) || !ValidDestination(t, to) || value > Balance(t, sender) then Reverted
      else (match Move(t, sender, to, value)
            case None => Reverted
            case Some(t') => Done(t', TransferLog(sender, to, value)))
    case DoTransferFrom(from, to, value) =>
      if !TransferAllowed(t, sender) || !ValidDestination(t, to)
         || value > Balance(t, from) || value > Allowance(t, from, sender) then Reverted
      else (match Move(t, from, to, value)
            case None => Reverted
            case Some(t') => Done(Approve(t', from, sender, Allowance(t, from, sender) - value), TransferLog(from, to, value)))
    case DoApprove(spender, value) =>
      Done(Approve(t, sender, spender, value), ApprovalLog(sender, spender, value))
    case DoIncreaseApproval(spender, value) =>
      (match SafeAdd(Allowance(t, sender, spender), value)
       case None => Reverted
       case Some(n) => Done(Approve(t, sender, spender, n), ApprovalLog(sender, spender, n)))
    case DoDecreaseApproval(spender, value) =>
      var now := Allowance(t, sender, spender);
      var n := if value > now then 0 else now - value;
      Done(Approve(t, sender, spender, n), ApprovalLog(sender, spender, n))
    case DoTransferOwnership(newOwner) =>
      if sender != t.owner || newOwner == NOBODY then Reverted
      else Done(t.(owner := newOwner), Log(OwnershipTransferred, Some(t.owner), Some(newOwner), None))
    case DoSetTokenOffering(offeringAddr, amountForSale) =>
      var amount := if amountForSale == 0 then INITIAL_SUPPLY else amountForSale;
      if sender != t.owner || t.offering != NOBODY || t.transferEnabled || amount > INITIAL_SUPPLY then Reverted
      else Done(Approve(t, sender, offeringAddr, amount).(offering := offeringAddr), ApprovalLog(sender, offeringAddr, amount))
    case DoEnableTransfer =>
      if sender != t.owner then Reverted
      else Done(Approve(t, sender, t.offering, 0).(transferEnabled := true), ApprovalLog(sender, t.offering, 0))
  }

  /** The constructor: the whole supply to the deployer, an allowance of 0 to the admin. */
  function Deploy(self: Address, sender: Address, adminAddr: Address): Token {
    Token(self, sender, adminAddr, NOBODY, false, map[sender := INITIAL_SUPPLY], map[(sender, adminAddr) := 0])
  }

  /** The invariant: balances sum to the initial supply. */
  ghost predicate SupplyOk(t: Token) {
    MapSum(t.balances) == INITIAL_SUPPLY
  }

  /** The deployer owns the contract and all 10^27 units; the admin is set, may spend nothing, and transfers are off. */
  lemma DeploySupply(self: Address, sender: Address, adminAddr: Address)
    ensures SupplyOk(Deploy(self, sender, adminAddr))
    ensures var t := Deploy(self, sender, adminAddr);
            && t.self == self && t.owner == sender && t.admin == adminAddr && t.offering == 0 && !t.transferEnabled
            && (forall a :: Balance(t, a) == if a == sender then 1_000_000_000_000_000_000_000_000_000 else 0)
            && (forall a, s :: Allowance(t, a, s) == 0)
  {
    var m: map<Address, nat> := map[];
    MapSumUpdate(m, sender, INITIAL_SUPPLY);
    assert m[sender := INITIAL_SUPPLY] == map[sender := INITIAL_SUPPLY];
  }

  /** No balance exceeds the supply. */
  lemma BalanceBounded(t: Token, a: Address)
    requires SupplyOk(t)
    ensures Balance(t, a) <= INITIAL_SUPPLY
  {
    if a in t.balances {
      MapSumEntry(t.balances, a);
    }
  }

  /** Under the invariant a covered move never trips SafeMath, also when it is to oneself. */
  lemma MoveConserves(t: Token, from: Address, to: Address, value: Uint256)
    requires SupplyOk(t) && value <= Balance(t, from)
    ensures Move(t, from, to, value).Some?
    ensures SupplyOk(Move(t, from, to, value).value)
    ensures value <= INITIAL_SUPPLY
  {
    hide MapSum;
    var debited := Balance(t, from) - value;
    var t' := t.(balances := t.balances[from := debited]);
    MapSumUpdate(t.balances, from, debited);
    assert MapSum(t'.balances) == INITIAL_SUPPLY - value;
    BalanceBounded(t, from);
    if to in t'.balances {
      MapSumEntry(t'.balances, to);
    }
    SafeAddExact(Balance(t', to), value);
    MapSumUpdate(t'.balances, to, Balance(t', to) + value);
  }

  /** Every call keeps the supply, and a Transfer log never names more than the supply. */
  lemma CallKeepsSupply(t: Token, sender: Address, call: Call)
    requires SupplyOk(t)
    ensures Execute(t, sender, call).Done? ==>
              && SupplyOk(Execute(t, sender, call).token)
              && Execute(t, sender, call).token.self == t.self
              && (Execute(t, sender, call).log.event == Event.Transfer ==>
                    Execute(t, sender, call).log.data.Some? && Execute(t, sender, call).log.data.value <= INITIAL_SUPPLY)
  {
    match call
    case DoTransfer(to, value) =>
      if value <= Balance(t, sender) { MoveConserves(t, sender, to, value); }
    case DoTransferFrom(from, to, value) =>
      if value <= Balance(t, from) { MoveConserves(t, from, to, value); }
    case _ =>
  }

  /** Everything but balances and allowances. */
  predicate SameRoles(t: Token, t': Token) {
    t'.self == t.self && t'.owner == t.owner && t'.admin == t.admin && t'.offering == t.offering
    && t'.transferEnabled == t.transferEnabled
  }

  /**
    EIP-20 reading: a transfer fails only for the stated requirements, never for arithmetic; it debits and credits
    exactly the value, touches nothing else, and logs sender, receiver and value.
   */
  lemma TransferExact(t: Token, sender: Address, to: Address, value: Uint256)
    requires SupplyOk(t)
    ensures Execute(t, sender, DoTransfer(to, value)).Done?
       <==> && (t.transferEnabled || sender == t.admin || sender == t.offering)
            && to != 0 && to != t.self && to != t.owner && to != t.admin && to != t.offering
            && value <= Balance(t, sender)
    ensures Execute(t, sender, DoTransfer(to, value)).Done? ==>
              var done := Execute(t, sender, DoTransfer(to, value));
              && (forall a :: Balance(done.token, a)
                           == Balance(t, a) - (if a == sender then value else 0) + (if a == to then value else 0))
              && done.token.allowed == t.allowed && SameRoles(t, done.token)
              && done.log == Log(Event.Transfer, Some(sender), Some(to), Some(value))
  {
    if value <= Balance(t, sender) {
      MoveConserves(t, sender, to, value);
      SafeAddExact(if sender == to then Balance(t, to) - value else Balance(t, to), value);
    }
  }

  /** The same for transferFrom, which also spends the caller's allowance by exactly the value moved. */
  lemma TransferFromExact(t: Token, sender: Address, from: Address, to: Address, value: Uint256)
    requires SupplyOk(t)
    ensures Execute(t, sender, DoTransferFrom(from, to, value)).Done?
       <==> && (t.transferEnabled || sender == t.admin || sender == t.offering)
            && to != 0 && to != t.self && to != t.owner && to != t.admin && to != t.offering
            && value <= Balance(t, from) && value <= Allowance(t, from, sender)
    ensures Execute(t, sender, DoTransferFrom(from, to, value)).Done? ==>
              var done := Execute(t, sender, DoTransferFrom(from, to, value));
              && (forall a :: Balance(done.token, a)
                           == Balance(t, a) - (if a == from then value else 0) + (if a == to then value else 0))
              && (forall a, s :: Allowance(done.token, a, s)
                           == Allowance(t, a, s) - (if a == from && s == sender then value else 0))
              && SameRoles(t, done.token)
              && done.log == Log(Event.Transfer, Some(from), Some(to), Some(value))
  {
    if value <= Balance(t, from) {
      MoveConserves(t, from, to, value);
      SafeAddExact(if from == to then Balance(t, to) - value else Balance(t, to), value);
    }
  }

  /** One allowance becomes n, and nothing else changes; the log says so. */
  predicate AllowanceSet(t: Token, outcome: Outcome, a: Address, spender: Address, n: nat) {
    && outcome.Done?
    && Allowance(outcome.token, a, spender) == n
    && outcome.token.allowed == t.allowed[(a, spender) := Allowance(outcome.token, a, spender)]
    && outcome.token.balances == t.balances
    && outcome.log == Log(Approval, Some(a), Some(spender), Some(n))
  }

  /**
    Approving never fails, sets that allowance to the value and changes nothing else. So a permitted and funded
    transferFrom of at most the value by the spender then succeeds.
   */
  lemma ApproveExact(t: Token, sender: Address, spender: Address, value: Uint256)
    ensures AllowanceSet(t, Execute(t, sender, DoApprove(spender, value)), sender, spender, value)
    ensures SameRoles(t, Execute(t, sender, DoApprove(spender, value)).token)
    ensures forall a, s :: !(a == sender && s == spender) ==>
              Allowance(Execute(t, sender, DoApprove(spender, value)).token, a, s) == Allowance(t, a, s)
  {
  }

  lemma ApprovedCanBeSpent(t: Token, sender: Address, spender: Address, value: Uint256, to: Address, amount: Uint256)
    requires SupplyOk(t) && TransferAllowed(t, spender) && ValidDestination(t, to)
    requires amount <= value && amount <= Balance(t, sender)
    ensures var t' := Execute(t, sender, DoApprove(spender, value)).token;
            && Execute(t', spender, DoTransferFrom(sender, to, amount)).Done?
            && Allowance(Execute(t', spender, DoTransferFrom(sender, to, amount)).token, sender, spender) == value - amount
  {
    ApproveExact(t, sender, spender, value);
    TransferFromExact(Execute(t, sender, DoApprove(spender, value)).token, spender, sender, to, amount);
  }

  /** Raising an allowance fails only when it would not fit 256 bits; otherwise it adds the value to that allowance alone. */
  lemma IncreaseExact(t: Token, sender: Address, spender: Address, value: Uint256)
    ensures var outcome := Execute(t, sender, DoIncreaseApproval(spender, value));
            var n := Allowance(t, sender, spender) + value;
            && (outcome.Done? <==> n < MODULUS)
            && (outcome.Done? ==> AllowanceSet(t, outcome, sender, spender, n) && SameRoles(t, outcome.token))
    ensures Execute(t, sender, DoIncreaseApproval(spender, value)).Done? ==>
              forall a, s :: Allowance(Execute(t, sender, DoIncreaseApproval(spender, value)).token, a, s)
                          == Allowance(t, a, s) + (if a == sender && s == spender then value else 0)
  {
    SafeAddExact(Allowance(t, sender, spender), value);
  }

  /** Lowering never fails, stops at zero, touches that allowance alone, and undoes a raise by the same value. */
  lemma DecreaseExact(t: Token, sender: Address, spender: Address, value: Uint256)
    ensures var outcome := Execute(t, sender, DoDecreaseApproval(spender, value));
            var was := Allowance(t, sender, spender);
            && outcome.Done? && SameRoles(t, outcome.token)
            && (value <= was ==> AllowanceSet(t, outcome, sender, spender, was - value))
            && (was < value ==> AllowanceSet(t, outcome, sender, spender, 0))
    ensures Execute(t, sender, DoIncreaseApproval(spender, value)).Done? ==>
              var up := Execute(t, sender, DoIncreaseApproval(spender, value)).token;
              var back := Execute(up, sender, DoDecreaseApproval(spender, value)).token;
              forall a, s :: Allowance(back, a, s) == Allowance(t, a, s)
  {
    IncreaseExact(t, sender, spender, value);
  }

  /** Handing the contract over: only by the owner, never to nobody, and nothing else changes. */
  lemma TransferOwnershipExact(t: Token, sender: Address, newOwner: Address)
    ensures var outcome := Execute(t, sender, DoTransferOwnership(newOwner));
            && (outcome.Done? <==> sender == t.owner && newOwner != 0)
            && (outcome.Done? ==>
                  && outcome.token.owner == newOwner && SameRoles(t.(owner := newOwner), outcome.token)
                  && outcome.token.balances == t.balances && outcome.token.allowed == t.allowed
                  && outcome.log == Log(OwnershipTransferred, Some(t.owner), Some(newOwner), None))
  {
  }

  /**
    Setting the offering: only by the owner, while none is set and transfers are off, for at most 10^27; it may then
    spend exactly that amount, or all of it when the amount is given as zero.
   */
  lemma SetTokenOfferingExact(t: Token, sender: Address, offeringAddr: Address, amountForSale: Uint256)
    ensures var outcome := Execute(t, sender, DoSetTokenOffering(offeringAddr, amountForSale));
            var amount := if amountForSale == 0 then 1_000_000_000_000_000_000_000_000_000 else amountForSale;
            && (outcome.Done? <==> sender == t.owner && t.offering == 0 && !t.transferEnabled
                                   && amountForSale <= 1_000_000_000_000_000_000_000_000_000)
            && (outcome.Done? ==>
                  && AllowanceSet(t, outcome, sender, offeringAddr, amount)
                  && outcome.token.offering == offeringAddr && SameRoles(t.(offering := offeringAddr), outcome.token))
  {
  }

  /** Enabling transfers: only by the owner; it ends the offering's allowance. */
  lemma EnableTransferExact(t: Token, sender: Address)
    ensures var outcome := Execute(t, sender, DoEnableTransfer);
            && (outcome.Done? <==> sender == t.owner)
            && (outcome.Done? ==>
                  && AllowanceSet(t, outcome, sender, t.offering, 0)
                  && outcome.token.transferEnabled && SameRoles(t.(transferEnabled := true), outcome.token))
  {
  }

  /** A spender's own transfer out of another account. */
  predicate Spends(call: Call, a: Address) {
    call.DoTransferFrom? && call.from == a
  }

  /**
    Who can do what, over all calls: tokens move only by transfers that are allowed; an allowance is changed by its
    holder, or lowered by its spender using it; the roles change only by the owner's own call, the offering only
    while it is unset and transfers are off, with an allowance of at most the supply; transfers are never turned off.
   */
  lemma CallerPowers(t: Token, sender: Address, call: Call)
    requires Execute(t, sender, call).Done?
    ensures var t' := Execute(t, sender, call).token;
            && t'.self == t.self && t'.admin == t.admin
            && (t'.balances != t.balances ==> (call.DoTransfer? || call.DoTransferFrom?) && TransferAllowed(t, sender))
            && (forall a, s :: Allowance(t', a, s) != Allowance(t, a, s) ==>
                  a == sender || (s == sender && Spends(call, a) && Allowance(t', a, s) < Allowance(t, a, s)))
            && (t'.owner != t.owner ==> sender == t.owner && t'.owner != NOBODY)
            && (t'.offering != t.offering ==>
                  && sender == t.owner && t.offering == NOBODY && !t.transferEnabled
                  && 0 < Allowance(t', sender, t'.offering) <= INITIAL_SUPPLY)
            && (t.transferEnabled ==> t'.transferEnabled)
            && (t'.transferEnabled && !t.transferEnabled ==>
                  sender == t.owner && t'.offering == t.offering && Allowance(t', sender, t.offering) == 0)
  {
    match call
    case DoTransfer(to, value) => MoveLeavesRest(t, sender, to, value);
    case DoTransferFrom(from, to, value) => MoveLeavesRest(t, from, to, value);
    case _ =>
  }

  lemma MoveLeavesRest(t: Token, from: Address, to: Address, value: Uint256)
    ensures Move(t, from, to, value).Some? ==> Move(t, from, to, value).value == t.(balances := Move(t, from, to, value).value.balances)
  {
  }

  /** A transaction addressed to the token, or one through another contract that calls the token many times. */
  datatype Tx =
    | Direct(sender: Address, call: Call)
    | Relayed(via: Address, calls: seq<(Address, Call)>)

  /** Calls of one relayed transaction; the relaying contract survives the failing ones. */
  function Relay(t: Token, calls: seq<(Address, Call)>): (Token, seq<Log>)
    decreases |calls|
  {
    if calls == [] then (t, [])
    else
      var (t', logs) := Relay(t, calls[..|calls| - 1]);
      var last := calls[|calls| - 1];
      match Execute(t', last.0, last.1)
      case Reverted => (t', logs)
      case Done(t'', log) => (t'', logs + [log])
  }

  /** Token state and fixed record after mining tx. */
  function Mine(t: Token, tx: Tx): (Token, TxRecord) {
    match tx
    case Direct(sender, call) =>
      (match Execute(t, sender, call)
       case Reverted => (t, TxRecord(false, Some(t.self), []))
       case Done(t', log) => (t', TxRecord(true, Some(t.self), [log])))
    case Relayed(via, calls) =>
      var (t', logs) := Relay(t, calls);
      (t', TxRecord(true, Some(via), logs))
  }

  /** A direct transaction is addressed to the token and succeeds, changes it and logs exactly as its call does. */
  lemma DirectExact(t: Token, sender: Address, call: Call)
    ensures var (t', record) := Mine(t, Direct(sender, call));
            var outcome := Execute(t, sender, call);
            && record.to == Some(t.self) && (record.ok <==> outcome.Done?)
            && (outcome.Done? ==> t' == outcome.token && record.logs == [outcome.log])
            && (outcome.Reverted? ==> t' == t && record.logs == [])
  {
  }

  /** A relayed transaction goes through call by call: a failing call changes and logs nothing. */
  lemma RelayedExact(t: Token, via: Address, calls: seq<(Address, Call)>, last: (Address, Call))
    ensures Mine(t, Relayed(via, [])) == (t, TxRecord(true, Some(via), []))
    ensures var (t', record) := Mine(t, Relayed(via, calls));
            var (t'', record') := Mine(t, Relayed(via, calls + [last]));
            var outcome := Execute(t', last.0, last.1);
            && record'.to == Some(via) && record'.ok
            && t'' == (if outcome.Done? then outcome.token else t')
            && record'.logs == record.logs + (if outcome.Done? then [outcome.log] else [])
  {
    assert (calls + [last])[..|calls + [last]| - 1] == calls;
  }

  /** Every Transfer log of a record stays within the supply. */
  ghost predicate LogsBounded(logs: seq<Log>) {
    forall i :: 0 <= i < |logs| && logs[i].event == Event.Transfer ==>
      logs[i].data.Some? && logs[i].data.value <= INITIAL_SUPPLY
  }

  lemma {:induction false} RelayKeepsSupply(t: Token, calls: seq<(Address, Call)>)
    requires SupplyOk(t)
    ensures SupplyOk(Relay(t, calls).0) && Relay(t, calls).0.self == t.self && LogsBounded(Relay(t, calls).1)
    decreases |calls|
  {
    if calls != [] {
      var last := calls[|calls| - 1];
      RelayKeepsSupply(t, calls[..|calls| - 1]);
      CallKeepsSupply(Relay(t, calls[..|calls| - 1]).0, last.0, last.1);
    }
  }

  lemma MineKeepsSupply(t: Token, tx: Tx)
    requires SupplyOk(t)
    ensures SupplyOk(Mine(t, tx).0) && Mine(t, tx).0.self == t.self && LogsBounded(Mine(t, tx).1.logs)
  {
    match tx
    case Direct(sender, call) => CallKeepsSupply(t, sender, call);
    case Relayed(_, calls) => RelayKeepsSupply(t, calls);
  }

  /** The token after any list of transactions since deployment. */
  function History(t: Token, txs: seq<Tx>): Token
    decreases |txs|
  {
    if txs == [] then t else Mine(History(t, txs[..|txs| - 1]), txs[|txs| - 1]).0
  }

  /** Supply invariant over every run of the token. */
  lemma {:induction false} SupplyInvariant(self: Address, sender: Address, adminAddr: Address, txs: seq<Tx>)
    ensures MapSum(History(Deploy(self, sender, adminAddr), txs).balances) == 1_000_000_000_000_000_000_000_000_000
    decreases |txs|
  {
    if txs == [] {
      DeploySupply(self, sender, adminAddr);
    } else {
      SupplyInvariant(self, sender, adminAddr, txs[..|txs| - 1]);
      MineKeepsSupply(History(Deploy(self, sender, adminAddr), txs[..|txs| - 1]), txs[|txs| - 1]);
    }
  }

  /** The roles of t, and what may become of them. */
  predicate RolesLater(t: Token, t': Token) {
    && t'.self == t.self && t'.admin == t.admin
    && (t.offering != NOBODY ==> t'.offering == t.offering)
    && (t.transferEnabled ==> t'.transferEnabled && t'.offering == t.offering)
    && (t.owner != NOBODY ==> t'.owner != NOBODY)
  }

  lemma {:induction false} RelayRoles(t: Token, calls: seq<(Address, Call)>)
    ensures RolesLater(t, Relay(t, calls).0)
    decreases |calls|
  {
    if calls != [] {
      var last := calls[|calls| - 1];
      var t' := Relay(t, calls[..|calls| - 1]).0;
      RelayRoles(t, calls[..|calls| - 1]);
      if Execute(t', last.0, last.1).Done? {
        CallerPowers(t', last.0, last.1);
      }
    }
  }

  lemma MineRoles(t: Token, tx: Tx)
    ensures RolesLater(t, Mine(t, tx).0)
  {
    match tx
    case Direct(sender, call) =>
      if Execute(t, sender, call).Done? {
        CallerPowers(t, sender, call);
      }
    case Relayed(_, calls) => RelayRoles(t, calls);
  }

  /**
    Over any history: the offering is set at most once and never after transfers were enabled, transfers once
    enabled stay so, the admin is fixed, and the contract never loses its owner.
   */
  lemma {:induction false} RolesForever(t: Token, txs: seq<Tx>)
    ensures RolesLater(t, History(t, txs))
    decreases |txs|
  {
    if txs != [] {
      var t' := History(t, txs[..|txs| - 1]);
      RolesForever(t, txs[..|txs| - 1]);
      MineRoles(t', txs[|txs| - 1]);
    }
  }

  /** None of the three privileged accounts takes part. */
  predicate Outsiders(t: Token, txs: seq<Tx>) {
    forall i :: 0 <= i < |txs| ==> ByOutsiders(t, txs[i])
  }

  predicate Privileged(t: Token, a: Address) {
    a == t.owner || a == t.admin || a == t.offering
  }

  predicate ByOutsiders(t: Token, tx: Tx) {
    match tx
    case Direct(sender, _) => !Privileged(t, sender)
    case Relayed(_, calls) => forall i :: 0 <= i < |calls| ==> !Privileged(t, calls[i].0)
  }

  /** What outsiders leave alone while transfers are off: all balances, and the roles. */
  predicate SameHoldings(t: Token, t': Token) {
    t'.balances == t.balances && t'.owner == t.owner && t'.admin == t.admin
    && t'.offering == t.offering && t'.transferEnabled == t.transferEnabled
  }

  lemma {:induction false} RelayFrozen(t: Token, calls: seq<(Address, Call)>)
    requires !t.transferEnabled && forall i :: 0 <= i < |calls| ==> !Privileged(t, calls[i].0)
    ensures SameHoldings(t, Relay(t, calls).0)
    decreases |calls|
  {
    if calls != [] {
      var last := calls[|calls| - 1];
      var t' := Relay(t, calls[..|calls| - 1]).0;
      RelayFrozen(t, calls[..|calls| - 1]);
      if Execute(t', last.0, last.1).Done? {
        CallerPowers(t', last.0, last.1);
      }
    }
  }

  /** Until transfers are enabled, no history of transactions by others moves a single token. */
  lemma {:induction false} FrozenUntilEnabled(t: Token, txs: seq<Tx>)
    requires !t.transferEnabled && Outsiders(t, txs)
    ensures SameHoldings(t, History(t, txs))
    decreases |txs|
  {
    if txs != [] {
      var n := |txs| - 1;
      var t' := History(t, txs[..n]);
      FrozenUntilEnabled(t, txs[..n]);
      assert ByOutsiders(t, txs[n]);
      match txs[n]
      case Direct(sender, call) =>
        if Execute(t', sender, call).Done? {
          CallerPowers(t', sender, call);
        }
      case Relayed(_, calls) => RelayFrozen(t', calls);
    }
  }
}
