/** How evenly and how completely the pro-rata division of src/bonus-utils.js hands out a pool. */
module BonusShares {
  import opened Wrappers
  import opened Sums
  import opened Requests
  import opened Amounts
  import opened Receipts
  import opened BonusMath

  /** The floored share of each amount. */
  function Shares(tokens: seq<nat>, pool: nat, total: nat): (s: seq<nat>)
    requires total > 0
    ensures |s| == |tokens| && forall i :: 0 <= i < |s| ==> s[i] == Share(tokens[i], pool, total)
  {
    seq(|tokens|, i requires 0 <= i < |tokens| => Share(tokens[i], pool, total))
  }

  lemma ShareBounds(tokens: nat, pool: nat, total: nat)
    requires total > 0
    ensures total * Share(tokens, pool, total) <= tokens * pool < total * Share(tokens, pool, total) + total
  {
    var x := tokens * pool;
    assert x == total * (x / total) + x % total;
  }

  lemma DistributeRight(a: nat, b: nat, c: nat)
    ensures (a + b) * c == a * c + b * c
  {
  }

  /** Scaled back up, floored shares lose less than one unit of the total each. */
  lemma {:induction false} SharesScaled(tokens: seq<nat>, pool: nat, total: nat)
    requires total > 0
    ensures total * Sum(Shares(tokens, pool, total)) <= Sum(tokens) * pool
    ensures Sum(tokens) * pool <= total * Sum(Shares(tokens, pool, total)) + (total - 1) * |tokens|
    decreases |tokens|
  {
    if tokens != [] {
      var n := |tokens| - 1;
      var p := tokens[..n];
      assert Shares(tokens, pool, total)[..n] == Shares(p, pool, total);
      SharesScaled(p, pool, total);
      ShareBounds(tokens[n], pool, total);
      DistributeRight(Sum(p), tokens[n], pool);
      Distribute(total, Sum(Shares(p, pool, total)), Share(tokens[n], pool, total));
      Distribute(total - 1, n, 1);
    }
  }

  lemma MultiplyLe(c: nat, a: nat, b: nat)
    requires a <= b
    ensures c * a <= c * b
  {
    Distribute(c, a, b - a);
  }

  lemma LessByFactor(c: nat, a: nat, b: nat)
    requires c * a < c * b
    ensures a < b
  {
    if a >= b {
      MultiplyLe(c, b, a);
    }
  }

  lemma SplitNoGain(parts: seq<nat>, pool: nat, total: nat)
    requires total > 0
    ensures Sum(Shares(parts, pool, total)) <= Share(Sum(parts), pool, total)
  {
    var x := Sum(parts) * pool;
    assert total * Sum(Shares(parts, pool, total)) <= x by { SharesScaled(parts, pool, total); }
    assert x < total * Share(Sum(parts), pool, total) + total by { ShareBounds(Sum(parts), pool, total); }
    SqueezedBelow(total, Sum(Shares(parts, pool, total)), Share(Sum(parts), pool, total), x);
  }

  lemma SplitSmallLoss(parts: seq<nat>, pool: nat, total: nat)
    requires total > 0 && parts != []
    ensures Share(Sum(parts), pool, total) < Sum(Shares(parts, pool, total)) + |parts|
  {
    var x := Sum(parts) * pool;
    assert x <= total * Sum(Shares(parts, pool, total)) + (total - 1) * |parts| by { SharesScaled(parts, pool, total); }
    assert total * Share(Sum(parts), pool, total) <= x by { ShareBounds(Sum(parts), pool, total); }
    SqueezedAbove(total, Sum(Shares(parts, pool, total)), Share(Sum(parts), pool, total), |parts|, x);
  }

  /**
    Splitting one transfer into parts, the totals fixed: the floored bonuses of the parts never sum to
    more than the bonus of the whole, and to less by fewer units than there are parts.
   */
  lemma SplittingNeverGains(parts: seq<nat>, pool: nat, total: nat)
    requires total > 0 && parts != []
    ensures Sum(Shares(parts, pool, total)) <= Share(Sum(parts), pool, total)
    ensures Share(Sum(parts), pool, total) < Sum(Shares(parts, pool, total)) + |parts|
  {
    SplitNoGain(parts, pool, total);
    SplitSmallLoss(parts, pool, total);
  }

  lemma SqueezedBelow(total: nat, a: nat, b: nat, x: nat)
    requires total * a <= x < total * b + total
    ensures a <= b
  {
    Distribute(total, b, 1);
    LessByFactor(total, a, b + 1);
  }

  lemma SqueezedAbove(total: nat, a: nat, b: nat, n: nat, x: nat)
    requires total > 0 && n > 0 && total * b <= x <= total * a + (total - 1) * n
    ensures b < a + n
  {
    DistributeRight(total - 1, 1, n);
    Distribute(total, a, n);
    LessByFactor(total, b, a + n);
  }

  lemma ShareOfAll(pool: nat, total: nat)
    requires total > 0
    ensures Share(total, pool, total) == pool
  {
    ShareBounds(total, pool, total);
    SqueezedBelow(total, Share(total, pool, total), pool, total * Share(total, pool, total));
    SqueezedBelow(total, pool, Share(total, pool, total), total * pool);
  }

  /** Dust: the shares of a total that is the sum of the parts never exceed the pool, and miss it by less than the number of parts. */
  lemma PoolDust(tokens: seq<nat>, pool: nat)
    requires Sum(tokens) > 0
    ensures Sum(Shares(tokens, pool, Sum(tokens))) <= pool < Sum(Shares(tokens, pool, Sum(tokens))) + |tokens|
  {
    SplittingNeverGains(tokens, pool, Sum(tokens));
    ShareOfAll(pool, Sum(tokens));
  }

  /** A larger transfer never earns less. */
  lemma ShareMonotone(a: nat, b: nat, pool: nat, total: nat)
    requires total > 0 && a <= b
    ensures Share(a, pool, total) <= Share(b, pool, total)
  {
    ShareBounds(a, pool, total);
    ShareBounds(b, pool, total);
    DistributeRight(a, b - a, pool);
    SqueezedBelow(total, Share(a, pool, total), Share(b, pool, total), b * pool);
  }

  // ---- The two pools ----

  function SwapBonuses(c: Config, reqs: seq<Req>): (s: seq<nat>)
    requires Divisible(reqs)
    ensures |s| == |reqs| && forall i :: 0 <= i < |reqs| ==> s[i] == SwapBonus(c, reqs, i)
  {
    seq(|reqs|, i requires 0 <= i < |reqs| => SwapBonus(c, reqs, i))
  }

  function VestingBonuses(c: Config, reqs: seq<Req>): (s: seq<nat>)
    requires Divisible(reqs)
    ensures |s| == |reqs| && forall i :: 0 <= i < |reqs| ==> s[i] == VestingBonus(c, reqs, i)
  {
    seq(|reqs|, i requires 0 <= i < |reqs| => VestingBonus(c, reqs, i))
  }

  /** Tokens of the vesting rows alone. */
  function VestingOnly(reqs: seq<Req>): seq<nat>
    decreases |reqs|
  {
    if reqs == [] then []
    else
      var n := |reqs| - 1;
      VestingOnly(reqs[..n]) + (if IsVesting(reqs[n].row) then [TokensOf(reqs[n].row)] else [])
  }

  lemma {:induction false} VestingOnlySum(reqs: seq<Req>)
    ensures Sum(VestingOnly(reqs)) == TotalByVesting(reqs)
    ensures VestingOnly(reqs) == [] <==> forall i :: 0 <= i < |reqs| ==> !IsVesting(reqs[i].row)
    decreases |reqs|
  {
    if reqs != [] {
      var n := |reqs| - 1;
      VestingOnlySum(reqs[..n]);
      assert VestingDockTokens(reqs)[..n] == VestingDockTokens(reqs[..n]);
      SumSingleton(TokensOf(reqs[n].row));
      SumAppend(VestingOnly(reqs[..n]), if IsVesting(reqs[n].row) then [TokensOf(reqs[n].row)] else []);
      assert forall i :: 0 <= i < n ==> reqs[..n][i] == reqs[i];
    }
  }

  /** The vesting share of every row, 0 for a row that does not vest. */
  function VestingShares(reqs: seq<Req>, pool: nat, total: nat): (s: seq<nat>)
    requires total > 0
    ensures |s| == |reqs|
    ensures forall i :: 0 <= i < |reqs| ==> s[i] == if IsVesting(reqs[i].row) then Share(TokensOf(reqs[i].row), pool, total) else 0
  {
    seq(|reqs|, i requires 0 <= i < |reqs| => if IsVesting(reqs[i].row) then Share(TokensOf(reqs[i].row), pool, total) else 0)
  }

  /** Rows that do not vest add nothing to the vesting total. */
  lemma {:induction false} VestingSharesSum(reqs: seq<Req>, pool: nat, total: nat)
    requires total > 0
    ensures Sum(VestingShares(reqs, pool, total)) == Sum(Shares(VestingOnly(reqs), pool, total))
    decreases |reqs|
  {
    hide Share, TokensOf;
    if reqs != [] {
      var n := |reqs| - 1;
      VestingSharesSum(reqs[..n], pool, total);
      assert VestingShares(reqs, pool, total)[..n] == VestingShares(reqs[..n], pool, total);
      if IsVesting(reqs[n].row) {
        var tokens := TokensOf(reqs[n].row);
        assert Shares(VestingOnly(reqs[..n]) + [tokens], pool, total)
            == Shares(VestingOnly(reqs[..n]), pool, total) + [Share(tokens, pool, total)];
        SumSingleton(Share(tokens, pool, total));
        SumAppend(Shares(VestingOnly(reqs[..n]), pool, total), [Share(tokens, pool, total)]);
      } else {
        assert VestingOnly(reqs) == VestingOnly(reqs[..n]);
      }
    }
  }

  /** One calculation hands out at most one swap pool, and misses it by less than the number of rows. */
  lemma SwapPoolDust(c: Config, reqs: seq<Req>)
    requires Divisible(reqs)
    ensures Sum(SwapBonuses(c, reqs)) <= c.swapPool
    ensures reqs != [] ==> c.swapPool < Sum(SwapBonuses(c, reqs)) + |reqs|
  {
    if reqs != [] {
      PoolDust(DockTokens(reqs), c.swapPool);
      assert SwapBonuses(c, reqs) == Shares(DockTokens(reqs), c.swapPool, TotalTransferred(reqs));
    }
  }

  /** The same for the vesting pool, counting only the vesting rows. */
  lemma VestingPoolDust(c: Config, reqs: seq<Req>)
    requires Divisible(reqs)
    ensures Sum(VestingBonuses(c, reqs)) <= c.vestingPool
    ensures VestingOnly(reqs) != [] ==> c.vestingPool < Sum(VestingBonuses(c, reqs)) + |VestingOnly(reqs)|
  {
    VestingOnlySum(reqs);
    if VestingOnly(reqs) == [] {
      SumConstant(VestingBonuses(c, reqs), 0);
    } else {
      PoolDust(VestingOnly(reqs), c.vestingPool);
      VestingSharesSum(reqs, c.vestingPool, TotalByVesting(reqs));
      assert VestingBonuses(c, reqs) == VestingShares(reqs, c.vestingPool, TotalByVesting(reqs));
    }
  }

  // ---- What exactly a row gets ----

  /**
    The totals, row by row: each row adds its deposit in whole mainnet units, to the vesting total only if it vests.
   */
  lemma TotalsExact(reqs: seq<Req>, r: Req)
    ensures TotalTransferred([]) == 0 == TotalByVesting([])
    ensures TotalTransferred(reqs + [r]) == TotalTransferred(reqs) + Deposited(r.row) / 1_000_000_000_000
    ensures TotalByVesting(reqs + [r])
         == TotalByVesting(reqs) + (if r.row.vesting == Some(true) then Deposited(r.row) / 1_000_000_000_000 else 0)
  {
    assert DockTokens(reqs + [r])[..|reqs|] == DockTokens(reqs);
    assert VestingDockTokens(reqs + [r])[..|reqs|] == VestingDockTokens(reqs);
  }

  /**
    A row's bonus is the largest whole number not above its proportion of the pool: by its deposit of e units in the
    swap pool, and in the vesting pool if it vests; a row that does not vest gets nothing from the latter.
   */
  lemma BonusExact(c: Config, reqs: seq<Req>, i: nat, e: nat)
    requires Divisible(reqs) && i < |reqs| && reqs[i].row.erc20 == Some(e)
    ensures var total, swap, own := TotalTransferred(reqs), SwapBonus(c, reqs, i), e / 1_000_000_000_000;
            total * swap <= own * c.swapPool < total * (swap + 1)
    ensures var total, vest, own := TotalByVesting(reqs), VestingBonus(c, reqs, i), e / 1_000_000_000_000;
            if reqs[i].row.vesting == Some(true) then total * vest <= own * c.vestingPool < total * (vest + 1) else vest == 0
  {
    hide Share;
    ShareBounds(e / 1_000_000_000_000, c.swapPool, TotalTransferred(reqs));
    Distribute(TotalTransferred(reqs), SwapBonus(c, reqs, i), 1);
    if IsVesting(reqs[i].row) {
      ShareBounds(e / 1_000_000_000_000, c.vestingPool, TotalByVesting(reqs));
      Distribute(TotalByVesting(reqs), VestingBonus(c, reqs, i), 1);
    }
  }

  // ---- When the calculation throws ----

  lemma {:induction false} PositiveSum(s: seq<nat>)
    ensures Sum(s) > 0 <==> exists i :: 0 <= i < |s| && s[i] > 0
    decreases |s|
  {
    if s != [] {
      var p := s[..|s| - 1];
      PositiveSum(p);
      if i :| 0 <= i < |s| && s[i] > 0 {
        assert i < |p| ==> p[i] > 0;
      }
      assert forall i :: 0 <= i < |p| ==> p[i] == s[i];
    }
  }

  /**
    The source takes both totals to be positive. They are exactly when some row, and if any row vests some
    vesting row, deposited at least one whole mainnet unit; otherwise the calculation throws and writes nothing.
   */
  lemma DivisibleExactly(reqs: seq<Req>)
    ensures Divisible(reqs)
       <==> && (reqs == [] || exists i :: 0 <= i < |reqs| && Deposited(reqs[i].row) >= 1_000_000_000_000)
            && ((forall i :: 0 <= i < |reqs| ==> !IsVesting(reqs[i].row))
                || exists i :: 0 <= i < |reqs| && IsVesting(reqs[i].row) && Deposited(reqs[i].row) >= 1_000_000_000_000)
  {
    PositiveSum(DockTokens(reqs));
    PositiveSum(VestingDockTokens(reqs));
    assert forall i :: 0 <= i < |reqs| ==> (DockTokens(reqs)[i] > 0 <==> Deposited(reqs[i].row) >= 1_000_000_000_000);
    assert forall i :: 0 <= i < |reqs| ==>
      (VestingDockTokens(reqs)[i] > 0 <==> IsVesting(reqs[i].row) && Deposited(reqs[i].row) >= 1_000_000_000_000);
  }

  // ---- Order ----

  lemma {:induction false} SumRemoveAt(s: seq<nat>, i: nat)
    requires i < |s|
    ensures Sum(s) == s[i] + Sum(s[..i] + s[i + 1..])
  {
    assert s == s[..i] + [s[i]] + s[i + 1..];
    SumAppend(s[..i] + [s[i]], s[i + 1..]);
    SumAppend(s[..i], [s[i]]);
    SumSingleton(s[i]);
    SumAppend(s[..i], s[i + 1..]);
  }

  lemma TakenOut<T>(s: seq<T>, i: nat)
    requires i < |s|
    ensures multiset(s) == multiset(s[..i] + s[i + 1..]) + multiset{s[i]}
  {
    assert s == s[..i] + [s[i]] + s[i + 1..];
  }

  /** Equal bags of rows, one row taken out of each. */
  lemma MatchLast<T>(a: seq<T>, b: seq<T>) returns (i: nat)
    requires multiset(a) == multiset(b) && a != []
    ensures i < |b| && b[i] == a[|a| - 1]
    ensures multiset(a[..|a| - 1]) == multiset(b[..i] + b[i + 1..])
  {
    var x := a[|a| - 1];
    assert x in multiset(b);
    i :| 0 <= i < |b| && b[i] == x;
    TakenOut(b, i);
    assert a == a[..|a| - 1] + [x];
    assert multiset(a) - multiset{x} == multiset(a[..|a| - 1]);
  }

  lemma {:induction false} SumOrder(a: seq<nat>, b: seq<nat>)
    requires multiset(a) == multiset(b)
    ensures Sum(a) == Sum(b)
    decreases |a|
  {
    if a == [] {
      assert |multiset(b)| == 0;
    } else {
      var i := MatchLast(a, b);
      SumOrder(a[..|a| - 1], b[..i] + b[i + 1..]);
      SumRemoveAt(b, i);
    }
  }

  lemma {:induction false} MapMultiset(a: seq<Req>, b: seq<Req>)
    requires multiset(a) == multiset(b)
    ensures multiset(DockTokens(a)) == multiset(DockTokens(b))
    ensures multiset(VestingDockTokens(a)) == multiset(VestingDockTokens(b))
    decreases |a|
  {
    if a == [] {
      assert |multiset(b)| == 0;
    } else {
      var n := |a| - 1;
      var i := MatchLast(a, b);
      MapMultiset(a[..n], b[..i] + b[i + 1..]);
      TokensSplit(a, n);
      TokensSplit(b, i);
      assert a[..n] + a[n + 1..] == a[..n];
    }
  }

  lemma TokensSplit(a: seq<Req>, i: nat)
    requires i < |a|
    ensures multiset(DockTokens(a)) == multiset(DockTokens(a[..i] + a[i + 1..])) + multiset{DockTokens(a)[i]}
    ensures multiset(VestingDockTokens(a)) == multiset(VestingDockTokens(a[..i] + a[i + 1..])) + multiset{VestingDockTokens(a)[i]}
  {
    Without(DockTokens(a), DockTokens(a[..i] + a[i + 1..]), i);
    Without(VestingDockTokens(a), VestingDockTokens(a[..i] + a[i + 1..]), i);
  }

  lemma Without(s: seq<nat>, w: seq<nat>, i: nat)
    requires i < |s| && |w| == |s| - 1
    requires forall j :: 0 <= j < i ==> w[j] == s[j]
    requires forall j :: i <= j < |w| ==> w[j] == s[j + 1]
    ensures multiset(s) == multiset(w) + multiset{s[i]}
  {
    assert w == s[..i] + s[i + 1..];
    TakenOut(s, i);
  }

  /** The SELECT has no ORDER BY: in whatever order rows come, the totals, and so every row's bonuses, are the same. */
  lemma BonusesOrderFree(c: Config, a: seq<Req>, b: seq<Req>, i: nat, j: nat)
    requires multiset(a) == multiset(b) && i < |a| && j < |b| && a[i] == b[j]
    requires Divisible(a)
    ensures Divisible(b)
    ensures TotalTransferred(a) == TotalTransferred(b) && TotalByVesting(a) == TotalByVesting(b)
    ensures SwapBonus(c, a, i) == SwapBonus(c, b, j) && VestingBonus(c, a, i) == VestingBonus(c, b, j)
  {
    MapMultiset(a, b);
    SumOrder(DockTokens(a), DockTokens(b));
    SumOrder(VestingDockTokens(a), VestingDockTokens(b));
    if k :| 0 <= k < |b| && IsVesting(b[k].row) {
      assert b[k] in multiset(a);
      var m :| 0 <= m < |a| && a[m] == b[k];
      assert IsVesting(a[m].row);
    }
  }
}
