/** Pro-rata division of the two bonus pools (src/bonus-utils.js). */
module BonusMath {
  import opened Wrappers
  import opened Sums
  import opened Requests
  import opened Amounts
  import opened Receipts

  function TokensOf(r: Row): nat {
    FromERC20ToDockTokens(Deposited(r))
  }

  predicate IsVesting(r: Row) {
    r.vesting == Some(true)
  }

  function DockTokens(reqs: seq<Req>): (s: seq<nat>)
    ensures |s| == |reqs| && forall i :: 0 <= i < |reqs| ==> s[i] == TokensOf(reqs[i].row)
  {
    seq(|reqs|, i requires 0 <= i < |reqs| => TokensOf(reqs[i].row))
  }

  /** Tokens of the vesting rows; a row that does not vest contributes 0. */
  function VestingDockTokens(reqs: seq<Req>): (s: seq<nat>)
    ensures |s| == |reqs|
    ensures forall i :: 0 <= i < |reqs| ==> s[i] == if IsVesting(reqs[i].row) then TokensOf(reqs[i].row) else 0
  {
    seq(|reqs|, i requires 0 <= i < |reqs| => if IsVesting(reqs[i].row) then TokensOf(reqs[i].row) else 0)
  }

  function TotalTransferred(reqs: seq<Req>): nat {
    Sum(DockTokens(reqs))
  }

  function TotalByVesting(reqs: seq<Req>): nat {
    Sum(VestingDockTokens(reqs))
  }

  /** No division by zero: bn.js throws on one, and the calculation then writes nothing. */
  predicate Divisible(reqs: seq<Req>) {
    && (reqs != [] ==> TotalTransferred(reqs) > 0)
    && ((exists i :: 0 <= i < |reqs| && IsVesting(reqs[i].row)) ==> TotalByVesting(reqs) > 0)
  }

  function Share(tokens: nat, pool: nat, total: nat): nat
    requires total > 0
  {
    tokens * pool / total
  }

  function SwapBonus(c: Config, reqs: seq<Req>, i: nat): nat
    requires i < |reqs| && Divisible(reqs)
  {
    Share(TokensOf(reqs[i].row), c.swapPool, TotalTransferred(reqs))
  }

  function VestingBonus(c: Config, reqs: seq<Req>, i: nat): nat
    requires i < |reqs| && Divisible(reqs)
  {
    if IsVesting(reqs[i].row)
    then Share(TokensOf(reqs[i].row), c.vestingPool, TotalByVesting(reqs))
    else 0
  }

  /** The UPDATE of every row, in row order. */
  function BonusStmts(c: Config, reqs: seq<Req>): (q: seq<Stmt>)
    requires Divisible(reqs)
    ensures |q| == |reqs|
    ensures forall i :: 0 <= i < |reqs| ==> q[i] == UpdateBonuses(reqs[i].key, SwapBonus(c, reqs, i), VestingBonus(c, reqs, i))
  {
    seq(|reqs|, i requires 0 <= i < |reqs| => UpdateBonuses(reqs[i].key, SwapBonus(c, reqs, i), VestingBonus(c, reqs, i)))
  }
}
