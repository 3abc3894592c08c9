/** The contract object of erc20.sol: mutable mappings, a flag, and methods that revert or take effect. */
module DockToken {
  import opened Wrappers
  import opened Sums
  import opened Requests
  import opened Receipts
  import opened Erc20

  lemma CallKeepsSupplyIf(t: Token, sender: Address, call: Call)
    ensures SupplyOk(t) && Execute(t, sender, call).Done? ==> SupplyOk(Execute(t, sender, call).token)
  {
    if SupplyOk(t) {
      CallKeepsSupply(t, sender, call);
    }
  }

  class DockToken {
    const self: Address
    var owner: Address
    var adminAddr: Address
    var tokenOfferingAddr: Address
    var transferEnabled: bool
    var balances: map<Address, Uint256>
    var allowed: map<(Address, Address), Uint256>
    var events: seq<Log>

    ghost function State(): Token
      reads this
    {
      Token(self, owner, adminAddr, tokenOfferingAddr, transferEnabled, balances, allowed)
    }

    ghost predicate Valid()
      reads this
    {
      SupplyOk(State())
    }

    /** A call took effect as specified, or left everything as it was. */
    twostate predicate Follows(sender: Address, call: Call, ok: bool)
      reads this
    {
      var outcome := Execute(old(State()), sender, call);
      && ok == outcome.Done?
      && State() == (if ok then outcome.token else old(State()))
      && events == (if ok then old(events) + [outcome.log] else old(events))
    }

    constructor (selfAddr: Address, sender: Address, admin: Address)
      ensures State() == Deploy(selfAddr, sender, admin) && Valid()
      ensures events == [TransferLog(NOBODY, sender, INITIAL_SUPPLY), ApprovalLog(sender, admin, 0)]
    {
      self, owner, adminAddr := selfAddr, sender, admin;
      tokenOfferingAddr, transferEnabled := NOBODY, false;
      balances := map[sender := INITIAL_SUPPLY];
      allowed := map[(sender, admin) := 0];
      events := [TransferLog(NOBODY, sender, INITIAL_SUPPLY), ApprovalLog(sender, admin, 0)];
      DeploySupply(selfAddr, sender, admin);
    }

    function BalanceOf(a: Address): Uint256
      reads this
    {
      if a in balances then balances[a] else 0
    }

    function AllowanceOf(a: Address, spender: Address): Uint256
      reads this
    {
      if (a, spender) in allowed then allowed[(a, spender)] else 0
    }

    predicate MayTransfer(sender: Address, to: Address)
      reads this
    {
      && (transferEnabled || sender == adminAddr || sender == tokenOfferingAddr)
      && to != NOBODY && to != self && to != owner && to != adminAddr && to != tokenOfferingAddr
    }

    /** Debit, then credit; a failed assert of SafeMath undoes the debit. */
    method MoveBalance(from: Address, to: Address, value: Uint256) returns (ok: bool)
      requires value <= BalanceOf(from)
      modifies this`balances
      ensures ok == Move(old(State()), from, to, value).Some?
      ensures State() == if ok then Move(old(State()), from, to, value).value else old(State())
    {
      var before := balances;
      balances := balances[from := BalanceOf(from) - value];
      var credited := SafeAdd(BalanceOf(to), value);
      if credited.None? {
        balances := before;
        return false;
      }
      balances := balances[to := credited.value];
      ok := true;
    }

    method Transfer(sender: Address, to: Address, value: Uint256) returns (ok: bool)
      modifies this
      ensures (old(Valid()) ==> Valid()) && Follows(sender, DoTransfer(to, value), ok)
    {
      CallKeepsSupplyIf(State(), sender, DoTransfer(to, value));
      if !MayTransfer(sender, to) || value > BalanceOf(sender) {
        return false;
      }
      ok := MoveBalance(sender, to, value);
      if !ok {
        return false;
      }
      events := events + [TransferLog(sender, to, value)];
    }

    method TransferFrom(sender: Address, from: Address, to: Address, value: Uint256) returns (ok: bool)
      modifies this
      ensures (old(Valid()) ==> Valid()) && Follows(sender, DoTransferFrom(from, to, value), ok)
    {
      CallKeepsSupplyIf(State(), sender, DoTransferFrom(from, to, value));
      if !MayTransfer(sender, to) || value > BalanceOf(from) || value > AllowanceOf(from, sender) {
        return false;
      }
      ok := MoveBalance(from, to, value);
      if !ok {
        return false;
      }
      allowed := allowed[(from, sender) := AllowanceOf(from, sender) - value];
      events := events + [TransferLog(from, to, value)];
    }

    method SetAllowance(a: Address, spender: Address, value: Uint256)
      modifies this`allowed, this`events
      ensures State() == Approve(old(State()), a, spender, value)
      ensures events == old(events) + [ApprovalLog(a, spender, value)]
    {
      allowed := allowed[(a, spender) := value];
      events := events + [ApprovalLog(a, spender, value)];
    }

    method ApproveSpender(sender: Address, spender: Address, value: Uint256) returns (ok: bool)
      modifies this
      ensures (old(Valid()) ==> Valid()) && Follows(sender, DoApprove(spender, value), ok)
    {
      CallKeepsSupplyIf(State(), sender, DoApprove(spender, value));
      SetAllowance(sender, spender, value);
      ok := true;
    }

    method IncreaseApproval(sender: Address, spender: Address, value: Uint256) returns (ok: bool)
      modifies this
      ensures (old(Valid()) ==> Valid()) && Follows(sender, DoIncreaseApproval(spender, value), ok)
    {
      CallKeepsSupplyIf(State(), sender, DoIncreaseApproval(spender, value));
      var sum := SafeAdd(AllowanceOf(sender, spender), value);
      if sum.None? {
        return false;
      }
      SetAllowance(sender, spender, sum.value);
      ok := true;
    }

    method DecreaseApproval(sender: Address, spender: Address, value: Uint256) returns (ok: bool)
      modifies this
      ensures (old(Valid()) ==> Valid()) && Follows(sender, DoDecreaseApproval(spender, value), ok)
    {
      CallKeepsSupplyIf(State(), sender, DoDecreaseApproval(spender, value));
      var oldValue := AllowanceOf(sender, spender);
      if value > oldValue {
        SetAllowance(sender, spender, 0);
      } else {
        SetAllowance(sender, spender, oldValue - value);
      }
      ok := true;
    }

    method TransferOwnership(sender: Address, newOwner: Address) returns (ok: bool)
      modifies this
      ensures (old(Valid()) ==> Valid()) && Follows(sender, DoTransferOwnership(newOwner), ok)
    {
      CallKeepsSupplyIf(State(), sender, DoTransferOwnership(newOwner));
      if sender != owner || newOwner == NOBODY {
        return false;
      }
      events := events + [Log(OwnershipTransferred, Some(owner), Some(newOwner), None)];
      owner := newOwner;
      ok := true;
    }

    method SetTokenOffering(sender: Address, offeringAddr: Address, amountForSale: Uint256) returns (ok: bool)
      modifies this
      ensures (old(Valid()) ==> Valid()) && Follows(sender, DoSetTokenOffering(offeringAddr, amountForSale), ok)
    {
      CallKeepsSupplyIf(State(), sender, DoSetTokenOffering(offeringAddr, amountForSale));
      if sender != owner || tokenOfferingAddr != NOBODY || transferEnabled {
        return false;
      }
      var amount := if amountForSale == 0 then INITIAL_SUPPLY else amountForSale;
      if amount > INITIAL_SUPPLY {
        return false;
      }
      SetAllowance(sender, offeringAddr, amount);
      tokenOfferingAddr := offeringAddr;
      ok := true;
    }

    method EnableTransfer(sender: Address) returns (ok: bool)
      modifies this
      ensures (old(Valid()) ==> Valid()) && Follows(sender, DoEnableTransfer, ok)
    {
      CallKeepsSupplyIf(State(), sender, DoEnableTransfer);
      if sender != owner {
        return false;
      }
      transferEnabled := true;
      SetAllowance(sender, tokenOfferingAddr, 0);
      ok := true;
    }

    /** One message call, whichever function it names. */
    method Call(sender: Address, call: Call) returns (ok: bool)
      modifies this
      ensures (old(Valid()) ==> Valid()) && Follows(sender, call, ok)
    {
      match call
      case DoTransfer(to, value) => ok := Transfer(sender, to, value);
      case DoTransferFrom(from, to, value) => ok := TransferFrom(sender, from, to, value);
      case DoApprove(spender, value) => ok := ApproveSpender(sender, spender, value);
      case DoIncreaseApproval(spender, value) => ok := IncreaseApproval(sender, spender, value);
      case DoDecreaseApproval(spender, value) => ok := DecreaseApproval(sender, spender, value);
      case DoTransferOwnership(newOwner) => ok := TransferOwnership(sender, newOwner);
      case DoSetTokenOffering(offeringAddr, amount) => ok := SetTokenOffering(sender, offeringAddr, amount);
      case DoEnableTransfer => ok := EnableTransfer(sender);
    }

    /** A whole transaction: its record lists exactly the events of the calls that went through. */
    method Submit(tx: Tx) returns (record: TxRecord)
      modifies this
      ensures old(Valid()) ==> Valid()
      ensures (State(), record) == Mine(old(State()), tx)
      ensures old(events) + record.logs == events
    {
      hide Execute, SupplyOk;
      var before := |events|;
      match tx {
        case Direct(sender, call) =>
          var ok := Call(sender, call);
          record := TxRecord(ok, Some(self), events[before..]);
        case Relayed(via, calls) =>
          for i := 0 to |calls|
            invariant old(Valid()) ==> Valid()
            invariant |events| >= before && events[..before] == old(events)
            invariant State() == Relay(old(State()), calls[..i]).0
            invariant events[before..] == Relay(old(State()), calls[..i]).1
          {
            assert calls[..i + 1][..i] == calls[..i];
            ghost var sofar := events;
            var ok := Call(calls[i].0, calls[i].1);
            assert events[before..] == sofar[before..] + events[|sofar|..];
          }
          assert calls[..|calls|] == calls;
          record := TxRecord(true, Some(via), events[before..]);
      }
    }
  }
}
