/** The amount functions of src/migrations.js: ERC-20 units to mainnet units, and the vesting split. */
module Amounts {
  import opened Wrappers
  import opened Requests

  /** ERC-20 has 18 decimals, the mainnet 6. */
  const ERC20_FACTOR: nat := 1_000_000_000_000

  /** Columns for mainnet amounts hold 22 characters: the amounts below this. */
  const COLUMN_LIMIT: nat := 10_000_000_000_000_000_000_000

  function FromERC20ToDockTokens(erc20: nat): nat {
    erc20 / ERC20_FACTOR
  }

  /** Later share of a vesting request: half, rounded up. */
  function VestingAmount(erc20: nat): nat {
    var tokens := FromERC20ToDockTokens(erc20);
    if tokens % 2 == 0 then tokens / 2 else tokens / 2 + 1
  }

  /** Immediate share: half, rounded down, when vesting; everything otherwise. */
  function InitialTokens(erc20: nat, vesting: Option<bool>): nat {
    var tokens := FromERC20ToDockTokens(erc20);
    if vesting == Some(true) then tokens / 2 else tokens
  }

  /** The part of the principal that is held back until the bonus. */
  function HeldBack(erc20: nat, vesting: Option<bool>): nat {
    if vesting == Some(true) then VestingAmount(erc20) else 0
  }

  /** The two rounding directions recombine exactly: no unit is lost or minted by vesting. */
  lemma SharesRecombine(erc20: nat, vesting: Option<bool>)
    ensures InitialTokens(erc20, vesting) + HeldBack(erc20, vesting) == FromERC20ToDockTokens(erc20)
    ensures vesting != Some(true) ==>
              InitialTokens(erc20, vesting) == FromERC20ToDockTokens(erc20) && HeldBack(erc20, vesting) == 0
    ensures vesting == Some(true) ==>
              HeldBack(erc20, vesting) == VestingAmount(erc20) && InitialTokens(erc20, vesting) <= HeldBack(erc20, vesting) <= InitialTokens(erc20, vesting) + 1
  {
    var tokens := FromERC20ToDockTokens(erc20);
    assert tokens == 2 * (tokens / 2) + tokens % 2;
  }

  /** Conversion never overstates a deposit and understates it by less than one mainnet unit. */
  lemma ConversionSlack(erc20: nat)
    ensures 1_000_000_000_000 * FromERC20ToDockTokens(erc20) <= erc20
    ensures erc20 < 1_000_000_000_000 * FromERC20ToDockTokens(erc20) + 1_000_000_000_000
  {
  }

  /** Whole tokens convert exactly: n tokens of 10^18 units are n tokens of 10^6 units. */
  lemma WholeTokens(n: nat)
    ensures FromERC20ToDockTokens(n * 1_000_000_000_000_000_000) == n * 1_000_000
  {
    assert n * 1_000_000_000_000_000_000 == (n * 1_000_000) * 1_000_000_000_000;
  }

  lemma ConversionMonotone(a: nat, b: nat)
    requires a <= b
    ensures FromERC20ToDockTokens(a) <= FromERC20ToDockTokens(b)
  {
  }

  /** Columns as numbers. The default is never used: see PipelineInvariant.RowOk. */
  function Deposited(r: Row): nat {
    match r.erc20
    case Some(e) => e
    case None => 0
  }

  /** What the initial migration pays for a row. */
  function InitialDue(r: Row): nat {
    InitialTokens(Deposited(r), r.vesting)
  }

  function OrZero(n: Option<nat>): nat {
    match n
    case Some(v) => v
    case None => 0
  }

  /** What the bonus disbursal pays for a row: the `total_bonus` the source sorts by. */
  function BonusDue(r: Row): nat {
    if r.vesting == Some(true)
    then VestingAmount(Deposited(r)) + OrZero(r.vestingBonus) + OrZero(r.swapBonus)
    else OrZero(r.swapBonus)
  }

  /** Everything one row is ever entitled to. */
  lemma LifetimeEntitlement(r: Row)
    ensures InitialDue(r) + BonusDue(r)
         == FromERC20ToDockTokens(Deposited(r)) + OrZero(r.swapBonus)
          + (if r.vesting == Some(true) then OrZero(r.vestingBonus) else 0)
  {
    SharesRecombine(Deposited(r), r.vesting);
  }
}
