/** Calculating bonuses with running totals (calculateBonuses of src/bonus-utils.js). */
module BonusCalculation {
  import opened Wrappers
  import opened Sums
  import opened Requests
  import opened Amounts
  import opened Receipts
  import opened BonusMath
  import opened BonusShares
  import opened BigNumbers

  /** A selected row, with the fields the calculation assigns to it. */
  class BonusRow {
    const req: Req
    var dockTokens: nat
    var swapBonusTokens: nat
    var vestingBonusTokens: nat

    constructor (r: Req)
      ensures req == r
    {
      req := r;
    }
  }

  function Reqs(rows: seq<BonusRow>): (reqs: seq<Req>)
    ensures |reqs| == |rows| && forall i :: 0 <= i < |rows| ==> reqs[i] == rows[i].req
  {
    seq(|rows|, i requires 0 <= i < |rows| => rows[i].req)
  }

  predicate DistinctRows(rows: seq<BonusRow>) {
    forall i, j :: 0 <= i < j < |rows| ==> rows[i] != rows[j]
  }

  datatype Totals = Totals(transferred: nat, byVesting: nat, swapBonus: nat, vestingBonus: nat)

  /** A sum grows by its last element. */
  lemma SumNext(s: seq<nat>, n: nat)
    requires n < |s|
    ensures Sum(s[..n + 1]) == Sum(s[..n]) + s[n]
  {
    assert s[..n + 1] == s[..n] + [s[n]];
    SumAppend(s[..n], [s[n]]);
    SumSingleton(s[n]);
  }

  /** The first forEach: Dock tokens per row, and the two totals. */
  method TotalUp(rows: seq<BonusRow>, totalTransferred: BigNumber, totalByVesting: BigNumber)
    requires DistinctRows(rows) && totalTransferred != totalByVesting
    requires totalTransferred.value == 0 == totalByVesting.value
    modifies rows, totalTransferred, totalByVesting
    ensures forall i :: 0 <= i < |rows| ==> rows[i].dockTokens == TokensOf(rows[i].req.row)
    ensures totalTransferred.value == TotalTransferred(Reqs(rows))
    ensures totalByVesting.value == TotalByVesting(Reqs(rows))
  {
    hide FromERC20ToDockTokens, Deposited, IsVesting;
    ghost var all, vesting := DockTokens(Reqs(rows)), VestingDockTokens(Reqs(rows));
    for n := 0 to |rows|
      invariant forall i :: 0 <= i < n ==> rows[i].dockTokens == TokensOf(rows[i].req.row)
      invariant totalTransferred.value == Sum(all[..n]) && totalByVesting.value == Sum(vesting[..n])
    {
      var r := rows[n];
      r.dockTokens := FromERC20ToDockTokens(Deposited(r.req.row));
      var tokens := new BigNumber(r.dockTokens);
      totalTransferred.IAdd(tokens);
      if IsVesting(r.req.row) {
        totalByVesting.IAdd(tokens);
      }
      SumNext(all, n);
      SumNext(vesting, n);
    }
    assert all[..|rows|] == all && vesting[..|rows|] == vesting;
  }

  /** One row's shares, added to the running totals; a division by zero throws. */
  method GiveShares(c: Config, r: BonusRow, totalTransferred: nat, totalByVesting: nat,
                    totalSwapBonus: BigNumber, totalVestingBonus: BigNumber) returns (divided: bool)
    requires totalSwapBonus != totalVestingBonus
    modifies r, totalSwapBonus, totalVestingBonus
    ensures divided <==> totalTransferred > 0 && (IsVesting(r.req.row) ==> totalByVesting > 0)
    ensures r.dockTokens == old(r.dockTokens)
    ensures divided ==>
              && r.swapBonusTokens == Share(r.dockTokens, c.swapPool, totalTransferred)
              && r.vestingBonusTokens
                 == (if IsVesting(r.req.row) then Share(r.dockTokens, c.vestingPool, totalByVesting) else 0)
              && totalSwapBonus.value == old(totalSwapBonus.value) + r.swapBonusTokens
              && totalVestingBonus.value == old(totalVestingBonus.value) + r.vestingBonusTokens
  {
    if totalTransferred == 0 {
      return false;
    }
    r.swapBonusTokens := r.dockTokens * c.swapPool / totalTransferred;
    var swapBonus := new BigNumber(r.swapBonusTokens);
    totalSwapBonus.IAdd(swapBonus);
    if IsVesting(r.req.row) {
      if totalByVesting == 0 {
        return false;
      }
      r.vestingBonusTokens := r.dockTokens * c.vestingPool / totalByVesting;
      var vestingBonus := new BigNumber(r.vestingBonusTokens);
      totalVestingBonus.IAdd(vestingBonus);
    } else {
      r.vestingBonusTokens := 0;
    }
    divided := true;
  }

  /** calculateBonusGivenTransferredAmounts: it throws at the first row whose division has a zero total. */
  method CalculateBonusGivenTransferredAmounts(c: Config, rows: seq<BonusRow>, totalTransferred: nat, totalByVesting: nat)
    returns (r: Result<(nat, nat), ()>)
    requires DistinctRows(rows)
    requires forall i :: 0 <= i < |rows| ==> rows[i].dockTokens == TokensOf(rows[i].req.row)
    requires totalTransferred == TotalTransferred(Reqs(rows)) && totalByVesting == TotalByVesting(Reqs(rows))
    modifies rows
    ensures r.Ok? <==> Divisible(Reqs(rows))
    ensures r.Ok? ==>
              && (forall i :: 0 <= i < |rows| ==>
                    && rows[i].swapBonusTokens == SwapBonus(c, Reqs(rows), i)
                    && rows[i].vestingBonusTokens == VestingBonus(c, Reqs(rows), i))
              && r.value.0 == Sum(SwapBonuses(c, Reqs(rows)))
              && r.value.1 == Sum(VestingBonuses(c, Reqs(rows)))
  {
    hide Share, TokensOf, TotalTransferred, TotalByVesting;
    ghost var reqs := Reqs(rows);
    ghost var swaps := if Divisible(reqs) then SwapBonuses(c, reqs) else [];
    ghost var vests := if Divisible(reqs) then VestingBonuses(c, reqs) else [];
    var totalSwapBonus := new BigNumber(0);
    var totalVestingBonus := new BigNumber(0);
    for n := 0 to |rows|
      invariant fresh(totalSwapBonus) && fresh(totalVestingBonus) && totalSwapBonus != totalVestingBonus
      invariant forall i :: 0 <= i < |rows| ==> rows[i].dockTokens == TokensOf(rows[i].req.row)
      invariant n > 0 ==> totalTransferred > 0
      invariant forall i :: 0 <= i < n && IsVesting(reqs[i].row) ==> totalByVesting > 0
      invariant Divisible(reqs) ==>
                  && (forall i :: 0 <= i < n ==>
                        && rows[i].swapBonusTokens == SwapBonus(c, reqs, i)
                        && rows[i].vestingBonusTokens == VestingBonus(c, reqs, i))
                  && totalSwapBonus.value == Sum(swaps[..n])
                  && totalVestingBonus.value == Sum(vests[..n])
    {
      var divided := GiveShares(c, rows[n], totalTransferred, totalByVesting, totalSwapBonus, totalVestingBonus);
      assert IsVesting(rows[n].req.row) == IsVesting(reqs[n].row);
      if !divided {
        return Err(());
      }
      if Divisible(reqs) {
        SumNext(swaps, n);
        SumNext(vests, n);
      }
    }
    assert Divisible(reqs);
    assert swaps[..|rows|] == swaps && vests[..|rows|] == vests;
    r := Ok((totalSwapBonus.value, totalVestingBonus.value));
  }

  /**
    calculateBonuses: it succeeds exactly when no total that it divides by is zero; the totals kept in place are
    the sums over the rows, and together the bonuses use up each pool but for less than one token a row.
   */
  method CalculateBonuses(c: Config, rows: seq<BonusRow>) returns (r: Result<Totals, ()>)
    requires DistinctRows(rows)
    modifies rows
    ensures r.Ok? <==> Divisible(Reqs(rows))
    ensures r.Ok? ==>
              && (forall i :: 0 <= i < |rows| ==>
                    && rows[i].swapBonusTokens == SwapBonus(c, Reqs(rows), i)
                    && rows[i].vestingBonusTokens == VestingBonus(c, Reqs(rows), i))
              && r.value.transferred == TotalTransferred(Reqs(rows)) && r.value.byVesting == TotalByVesting(Reqs(rows))
              && r.value.swapBonus == Sum(SwapBonuses(c, Reqs(rows)))
              && r.value.vestingBonus == Sum(VestingBonuses(c, Reqs(rows)))
              && r.value.swapBonus <= c.swapPool && r.value.vestingBonus <= c.vestingPool
              && (rows != [] ==> c.swapPool < r.value.swapBonus + |rows|)
  {
    var totalTransferred := new BigNumber(0);
    var totalByVesting := new BigNumber(0);
    TotalUp(rows, totalTransferred, totalByVesting);
    var b := CalculateBonusGivenTransferredAmounts(c, rows, totalTransferred.value, totalByVesting.value);
    if b.Err? {
      return Err(());
    }
    SwapPoolDust(c, Reqs(rows));
    VestingPoolDust(c, Reqs(rows));
    r := Ok(Totals(totalTransferred.value, totalByVesting.value, b.value.0, b.value.1));
  }
}
