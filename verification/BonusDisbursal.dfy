/**
  Disbursing bonuses with mutable big numbers (src/bonus-utils.js). A prepared request's total may be the
  very object its swap bonus is, and disbursal adds into the swap bonus in place.
 */
module BonusDisbursal {
  import opened Wrappers
  import opened Sums
  import opened Requests
  import opened Amounts
  import opened Receipts
  import opened Greedy
  import opened BonusMath
  import opened BigNumbers
  import opened Pipeline
  import opened PipelineInvariant

  /** The shallow copy of a row that selection works on. */
  class PreparedReq {
    const req: Req
    const swapBonusTokens: BigNumber
    const vestingBonusTokens: BigNumber
    const totalBonus: BigNumber

    constructor (r: Req)
      ensures req == r && Prepared() && fresh(Numbers())
    {
      req := r;
      var swap := new BigNumber(OrZero(r.row.swapBonus));
      swapBonusTokens := swap;
      if IsVesting(r.row) {
        var vest := new BigNumber(VestingAmount(Deposited(r.row)) + OrZero(r.row.vestingBonus));
        var total := vest.Add(swap);
        vestingBonusTokens := vest;
        totalBonus := total;
      } else {
        // No vesting bonus is read for such a row; its total is the swap bonus itself.
        var vest := new BigNumber(OrZero(r.row.vestingBonus));
        vestingBonusTokens := vest;
        totalBonus := swap;
      }
    }

    ghost function Numbers(): set<BigNumber> {
      {swapBonusTokens, vestingBonusTokens, totalBonus}
    }

    /** As left by preparation: who aliases whom, and what the numbers are. */
    ghost predicate Prepared()
      reads Numbers()
    {
      && swapBonusTokens != vestingBonusTokens
      && totalBonus.value == BonusDue(req.row)
      && (if IsVesting(req.row)
          then totalBonus !in {swapBonusTokens, vestingBonusTokens}
               && swapBonusTokens.value + vestingBonusTokens.value == totalBonus.value
          else totalBonus == swapBonusTokens)
    }
  }

  ghost predicate Apart(p: PreparedReq, q: PreparedReq) {
    p.Numbers() !! q.Numbers()
  }

  /** Each request has its own numbers, and each occurs once. */
  ghost predicate AllApart(ps: seq<PreparedReq>) {
    forall i, j :: 0 <= i < j < |ps| ==> Apart(ps[i], ps[j])
  }

  /** Forget the copies: the rows and amounts that were selected. */
  ghost function Rows(w: seq<Weighted<PreparedReq>>): (r: seq<Weighted<Req>>)
    ensures |r| == |w| && forall i :: 0 <= i < |w| ==> r[i] == Weighted(w[i].item.req, w[i].amount)
  {
    seq(|w|, i requires 0 <= i < |w| => Weighted(w[i].item.req, w[i].amount))
  }

  lemma {:induction false} RowsInsert(w: seq<Weighted<PreparedReq>>, x: Weighted<PreparedReq>)
    ensures Rows(Insert(w, x)) == Insert(Rows(w), Weighted(x.item.req, x.amount))
    decreases |w|
  {
    if w == [] || w[|w| - 1].amount <= x.amount {
      assert Rows(w + [x]) == Rows(w) + [Weighted(x.item.req, x.amount)];
    } else {
      var p := w[..|w| - 1];
      RowsInsert(p, x);
      assert Rows(w)[..|w| - 1] == Rows(p);
      assert Rows(Insert(p, x) + [w[|w| - 1]]) == Rows(Insert(p, x)) + [Rows(w)[|w| - 1]];
    }
  }

  /** Sorting the copies sorts the rows. */
  lemma {:induction false} RowsSort(w: seq<Weighted<PreparedReq>>)
    ensures Rows(Sort(w)) == Sort(Rows(w))
    decreases |w|
  {
    if w != [] {
      var p := w[..|w| - 1];
      RowsSort(p);
      RowsInsert(Sort(p), w[|w| - 1]);
      assert Rows(w)[..|w| - 1] == Rows(p);
    }
  }

  lemma PrefixOfRows(w: seq<Weighted<PreparedReq>>, cap: nat, balance: nat, n: nat)
    requires LongestPrefix(w, cap, balance, n)
    ensures LongestPrefix(Rows(w), cap, balance, n)
  {
    assert AmountsOf(Rows(w)[..n]) == AmountsOf(w[..n]);
    if n < |w| {
      assert AmountsOf(Rows(w)[..n + 1]) == AmountsOf(w[..n + 1]);
    }
  }

  ghost predicate ItemsApart(w: seq<Weighted<PreparedReq>>) {
    forall i, j :: 0 <= i < j < |w| ==> Apart(w[i].item, w[j].item)
  }

  lemma ApartDistinct(w: seq<Weighted<PreparedReq>>, x: Weighted<PreparedReq>)
    requires ItemsApart(w)
    ensures multiset(w)[x] <= 1
  {
    forall i, j | 0 <= i < j < |w| ensures w[i] != w[j] {
      assert Apart(w[i].item, w[j].item);
      assert w[i].item.swapBonusTokens in w[i].item.Numbers();
    }
    AtMostOnce(w, x);
  }

  /** A reordering of separate copies is separate. */
  lemma SortApart(w: seq<Weighted<PreparedReq>>, v: seq<Weighted<PreparedReq>>)
    requires multiset(v) == multiset(w) && ItemsApart(w)
    ensures ItemsApart(v)
    ensures forall i :: 0 <= i < |v| ==> v[i] in w
  {
    forall i | 0 <= i < |v| ensures v[i] in w {
      assert v[i] in multiset(v);
    }
    forall i, j | 0 <= i < j < |v| ensures Apart(v[i].item, v[j].item) {
      var a :| 0 <= a < |w| && w[a] == v[i];
      var b :| 0 <= b < |w| && w[b] == v[j];
      if a == b {
        AtLeastTwice(v, i, j);
        ApartDistinct(w, v[i]);
      } else if a < b {
        assert Apart(w[a].item, w[b].item);
      } else {
        assert Apart(w[b].item, w[a].item);
      }
    }
  }

  ghost predicate PreparedFor(p: Weighted<PreparedReq>, r: Req)
    reads p.item.Numbers()
  {
    p.item.req == r && p.item.Prepared() && p.amount == BonusDue(r.row)
  }

  /** The map over the rows: one copy each, with its own numbers. */
  method PrepareAll(requests: seq<Req>) returns (ps: seq<Weighted<PreparedReq>>)
    ensures |ps| == |requests| && ItemsApart(ps)
    ensures forall i :: 0 <= i < |ps| ==> PreparedFor(ps[i], requests[i])
    ensures forall i :: 0 <= i < |ps| ==> fresh(ps[i].item.Numbers())
  {
    ps := [];
    for i := 0 to |requests|
      invariant |ps| == i && ItemsApart(ps)
      invariant forall k :: 0 <= k < i ==> PreparedFor(ps[k], requests[k])
      invariant forall k :: 0 <= k < i ==> fresh(ps[k].item.Numbers())
    {
      var p := new PreparedReq(requests[i]);
      ps := ps + [Weighted(p, p.totalBonus.value)];
    }
  }

  /** What is selected of the copies is the copies of what is selected of the rows. */
  lemma RowsSelect(w: seq<Weighted<PreparedReq>>, allowed: nat, balance: nat)
    ensures Rows(Select(w, allowed, balance)) == Select(Rows(w), allowed, balance)
  {
    var v := Sort(w);
    var n := |Select(w, allowed, balance)|;
    RowsSort(w);
    assert v[..0] == [] && Rows(v)[..0] == [];
    PrefixOfRows(v, allowed, balance, n);
    LongestPrefixUnique(Rows(v), allowed, balance, n, Take(Rows(v), allowed, balance, 0));
    assert Rows(v[..n]) == Rows(v)[..n];
  }

  lemma SelectApart(w: seq<Weighted<PreparedReq>>, allowed: nat, balance: nat)
    requires ItemsApart(w)
    ensures ItemsApart(Select(w, allowed, balance))
    ensures forall i :: 0 <= i < |Select(w, allowed, balance)| ==> Select(w, allowed, balance)[i] in w
  {
    SortOk(w);
    SortApart(w, Sort(w));
    assert Sort(w)[..0] == [];
  }

  function Items(w: seq<Weighted<PreparedReq>>): (ps: seq<PreparedReq>)
    ensures |ps| == |w| && forall i :: 0 <= i < |w| ==> ps[i] == w[i].item
  {
    seq(|w|, i requires 0 <= i < |w| => w[i].item)
  }

  /** findAndPrepEligibleReqsGivenMigrConstr: the copies of exactly the rows the greedy selection picks. */
  method FindAndPrepEligibleReqs(requests: seq<Req>, allowed: nat, balance: nat) returns (selected: seq<PreparedReq>)
    ensures |selected| == |BonusBatch(requests, allowed, balance)| && AllApart(selected)
    ensures forall i :: 0 <= i < |selected| ==>
              selected[i].req == BonusBatch(requests, allowed, balance)[i].item && selected[i].Prepared()
    ensures forall i :: 0 <= i < |selected| ==> fresh(selected[i].Numbers())
  {
    var ps := PrepareAll(requests);
    var chosen, accum := SelectInPlace(ps, allowed, balance);
    SelectApart(ps, allowed, balance);
    assert Rows(chosen) == BonusBatch(requests, allowed, balance) by {
      RowsSelect(ps, allowed, balance);
      assert Rows(ps) == WeighBonus(requests);
    }
    selected := Items(chosen);
    assert forall i :: 0 <= i < |chosen| ==> chosen[i] in ps;
  }

  // ---- Disbursal ----

  /** Where an amount goes: the account, and the offset in blocks. */
  datatype Destination = Destination(address: DockAddress, offset: int)

  type Recipient = Weighted<Destination>

  /** Settings of the offset: first block of the migration, and Dock blocks per Ethereum block. */
  datatype OffsetConfig = OffsetConfig(startBlock: nat, blockTimeRatio: nat)

  function Offset(oc: OffsetConfig, r: Row): int {
    (OrZero(r.block) - oc.startBlock) * oc.blockTimeRatio
  }

  /** toNumber throws beyond 53 bits. */
  predicate IsSafeNumber(n: int) {
    -(MAX_SAFE_INTEGER as int) <= n <= MAX_SAFE_INTEGER
  }

  function Disburse(oc: OffsetConfig, r: Row): Recipient {
    Weighted(Destination(r.mainnet, Offset(oc, r)), BonusDue(r))
  }

  /** The safe numbers are those of at most 53 bits, of either sign. */
  lemma SafeNumbers(n: int)
    ensures IsSafeNumber(n) <==> -9_007_199_254_740_991 <= n <= 9_007_199_254_740_991
  {
  }

  /** A row in the start block has offset 0, and n blocks later mean n times the ratio more. */
  lemma OffsetLaws(oc: OffsetConfig, r: Row, b: nat, n: nat)
    requires r.block == Some(b)
    ensures b == oc.startBlock ==> Offset(oc, r) == 0
    ensures Offset(oc, r.(block := Some(b + n))) == Offset(oc, r) + n * oc.blockTimeRatio
  {
  }

  /** Who gets a row's bonus, how much of it, and how many Dock blocks after the start it counts from. */
  predicate GoesTo(oc: OffsetConfig, x: Recipient, r: Row) {
    && x.item.address == r.mainnet && x.amount == BonusDue(r)
    && (r.block.Some? ==> x.item.offset == (r.block.value - oc.startBlock) * oc.blockTimeRatio)
  }

  /**
    prepareForBonusDisbursalReq: although `iadd` overwrites swap bonuses, and a total may be one of them, every
    recipient gets exactly the total its selection was based on, and every total keeps its value.
   */
  method PrepareForBonusDisbursal(oc: OffsetConfig, requests: seq<PreparedReq>) returns (recips: Result<seq<Recipient>, ()>)
    requires AllApart(requests) && forall i :: 0 <= i < |requests| ==> requests[i].Prepared()
    modifies set i | 0 <= i < |requests| :: requests[i].swapBonusTokens
    ensures recips.Ok? <==> forall i :: 0 <= i < |requests| ==> IsSafeNumber(Offset(oc, requests[i].req.row))
    ensures recips.Ok? ==>
              && |recips.value| == |requests|
              && (forall i :: 0 <= i < |requests| ==> recips.value[i] == Disburse(oc, requests[i].req.row))
              && (forall i :: 0 <= i < |requests| ==> GoesTo(oc, recips.value[i], requests[i].req.row))
    ensures forall i :: 0 <= i < |requests| ==> requests[i].totalBonus.value == BonusDue(requests[i].req.row)
  {
    hide Offset, BonusDue, IsSafeNumber;
    var swapBonusRecips: seq<Recipient> := [];
    for n := 0 to |requests|
      invariant |swapBonusRecips| == n
      invariant forall i :: 0 <= i < n ==> IsSafeNumber(Offset(oc, requests[i].req.row))
      invariant forall i :: 0 <= i < n ==> swapBonusRecips[i] == Disburse(oc, requests[i].req.row)
      invariant forall i :: n <= i < |requests| ==> requests[i].Prepared()
      invariant forall i :: 0 <= i < n ==> requests[i].totalBonus.value == BonusDue(requests[i].req.row)
    {
      var req := requests[n];
      var offset := Offset(oc, req.req.row);
      if !IsSafeNumber(offset) {
        return Err(());
      }
      var bonusAmount := req.swapBonusTokens;
      assert req.Prepared();
      assert forall i :: 0 <= i < n ==> Apart(requests[i], req);
      assert forall i :: n < i < |requests| ==> Apart(req, requests[i]);
      if IsVesting(req.req.row) {
        bonusAmount.IAdd(req.vestingBonusTokens);
      }
      swapBonusRecips := swapBonusRecips + [Weighted(Destination(req.req.row.mainnet, offset), bonusAmount.value)];
    }
    recips := Ok(swapBonusRecips);
    forall i | 0 <= i < |requests| ensures GoesTo(oc, swapBonusRecips[i], requests[i].req.row) {
      DisburseGoes(oc, requests[i].req.row);
    }
  }

  lemma DisburseGoes(oc: OffsetConfig, r: Row)
    ensures GoesTo(oc, Disburse(oc, r), r)
  {
  }

  /** Selection and disbursal together: the chain call names the selected rows and stays within balance and cap. */
  method PrepareBatch(oc: OffsetConfig, requests: seq<Req>, allowed: nat, balance: nat)
    returns (count: nat, recips: Result<seq<Recipient>, ()>)
    ensures count == |BonusBatch(requests, allowed, balance)| <= allowed
    ensures recips.Ok? <==> forall i :: 0 <= i < count ==>
                              IsSafeNumber(Offset(oc, BonusBatch(requests, allowed, balance)[i].item.row))
    ensures recips.Ok? ==>
              && |recips.value| == count && Cost(recips.value) <= balance
              && forall i :: 0 <= i < count ==>
                   GoesTo(oc, recips.value[i], BonusBatch(requests, allowed, balance)[i].item.row)
                   && recips.value[i].amount == BonusBatch(requests, allowed, balance)[i].amount
  {
    var selected := FindAndPrepEligibleReqs(requests, allowed, balance);
    count := |selected|;
    recips := PrepareForBonusDisbursal(oc, selected);
    BatchAmounts(requests, allowed, balance);
    if recips.Ok? {
      assert AmountsOf(recips.value) == AmountsOf(BonusBatch(requests, allowed, balance));
    }
  }

  lemma BatchAmounts(requests: seq<Req>, allowed: nat, balance: nat)
    ensures forall i :: 0 <= i < |BonusBatch(requests, allowed, balance)| ==>
              BonusBatch(requests, allowed, balance)[i].amount == BonusDue(BonusBatch(requests, allowed, balance)[i].item.row)
  {
    var w := WeighBonus(requests);
    SelectFits(w, allowed, balance);
    var b := Select(w, allowed, balance);
    forall i | 0 <= i < |b| ensures b[i] in w {
      assert b[i] in multiset(b);
    }
  }
}
