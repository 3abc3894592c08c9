/**
  The budgeted selection shared by migrations and bonuses: sort ascending, take the longest prefix
  that fits a count cap and a balance, and why no other choice serves more requests.
 */
module Greedy {
  import opened Sums

  /** A request and the tokens it would be paid. */
  datatype Weighted<+T> = Weighted(item: T, amount: nat)

  function AmountsOf<T>(s: seq<Weighted<T>>): (r: seq<nat>)
    ensures |r| == |s| && forall i :: 0 <= i < |s| ==> r[i] == s[i].amount
  {
    seq(|s|, i requires 0 <= i < |s| => s[i].amount)
  }

  function Cost<T>(s: seq<Weighted<T>>): nat {
    Sum(AmountsOf(s))
  }

  ghost predicate Ascending<T>(s: seq<Weighted<T>>) {
    forall i, j :: 0 <= i < j < |s| ==> s[i].amount <= s[j].amount
  }

  lemma CostAppend<T>(s: seq<Weighted<T>>, x: Weighted<T>)
    ensures Cost(s + [x]) == Cost(s) + x.amount
  {
    assert AmountsOf(s + [x]) == AmountsOf(s) + [x.amount];
  }

  lemma CostLast<T>(s: seq<Weighted<T>>)
    requires s != []
    ensures Cost(s) == Cost(s[..|s| - 1]) + s[|s| - 1].amount
  {
    assert s == s[..|s| - 1] + [s[|s| - 1]];
    CostAppend(s[..|s| - 1], s[|s| - 1]);
  }

  lemma CostPrefix<T>(s: seq<Weighted<T>>, i: nat)
    requires i < |s|
    ensures Cost(s[..i + 1]) == Cost(s[..i]) + s[i].amount
  {
    assert s[..i + 1] == s[..i] + [s[i]];
    CostAppend(s[..i], s[i]);
  }

  lemma CostPrefixMonotone<T>(s: seq<Weighted<T>>, i: nat, j: nat)
    requires i <= j <= |s|
    ensures Cost(s[..i]) <= Cost(s[..j])
  {
    assert AmountsOf(s)[..i] == AmountsOf(s[..i]) && AmountsOf(s)[..j] == AmountsOf(s[..j]);
    SumPrefixMonotone(AmountsOf(s), i, j);
  }

  // ---- Sorting ----

  /** Place x after every element that is not larger, so equal amounts keep their order. */
  function Insert<T>(s: seq<Weighted<T>>, x: Weighted<T>): seq<Weighted<T>>
    decreases |s|
  {
    if s == [] || s[|s| - 1].amount <= x.amount then s + [x]
    else Insert(s[..|s| - 1], x) + [s[|s| - 1]]
  }

  function Sort<T>(s: seq<Weighted<T>>): seq<Weighted<T>>
    decreases |s|
  {
    if s == [] then [] else Insert(Sort(s[..|s| - 1]), s[|s| - 1])
  }

  lemma {:induction false} InsertMultiset<T>(s: seq<Weighted<T>>, x: Weighted<T>)
    ensures multiset(Insert(s, x)) == multiset(s) + multiset{x}
    decreases |s|
  {
    if s != [] && s[|s| - 1].amount > x.amount {
      InsertMultiset(s[..|s| - 1], x);
      assert s == s[..|s| - 1] + [s[|s| - 1]];
    }
  }

  lemma {:induction false} InsertBounded<T>(s: seq<Weighted<T>>, x: Weighted<T>, bound: nat)
    requires x.amount <= bound && forall i :: 0 <= i < |s| ==> s[i].amount <= bound
    ensures forall i :: 0 <= i < |Insert(s, x)| ==> Insert(s, x)[i].amount <= bound
    decreases |s|
  {
    if s != [] && s[|s| - 1].amount > x.amount {
      InsertBounded(s[..|s| - 1], x, bound);
    }
  }

  lemma {:induction false} InsertAscending<T>(s: seq<Weighted<T>>, x: Weighted<T>)
    requires Ascending(s)
    ensures Ascending(Insert(s, x))
    decreases |s|
  {
    if s != [] && s[|s| - 1].amount > x.amount {
      InsertAscending(s[..|s| - 1], x);
      InsertBounded(s[..|s| - 1], x, s[|s| - 1].amount);
    }
  }

  /** The sorted list holds exactly the given requests, cheapest first. */
  lemma {:induction false} SortOk<T>(s: seq<Weighted<T>>)
    ensures Ascending(Sort(s)) && multiset(Sort(s)) == multiset(s) && |Sort(s)| == |s|
    decreases |s|
  {
    if s != [] {
      var p := s[..|s| - 1];
      SortOk(p);
      InsertAscending(Sort(p), s[|s| - 1]);
      InsertMultiset(Sort(p), s[|s| - 1]);
      assert s == p + [s[|s| - 1]];
    }
    assert |Sort(s)| == |multiset(Sort(s))|;
  }

  // ---- Selection ----

  /** n is the longest prefix of w with at most cap members and cost at most balance. */
  ghost predicate LongestPrefix<T>(w: seq<Weighted<T>>, cap: nat, balance: nat, n: nat) {
    && n <= |w| && n <= cap && Cost(w[..n]) <= balance
    && (n == |w| || n == cap || Cost(w[..n + 1]) > balance)
  }

  /** Length of the longest affordable prefix, searched from i. */
  function Take<T>(w: seq<Weighted<T>>, cap: nat, balance: nat, i: nat): (n: nat)
    requires i <= |w| && i <= cap && Cost(w[..i]) <= balance
    ensures LongestPrefix(w, cap, balance, n)
    decreases |w| - i
  {
    if i < |w| && i < cap && Cost(w[..i + 1]) <= balance then Take(w, cap, balance, i + 1) else i
  }

  lemma LongestPrefixUnique<T>(w: seq<Weighted<T>>, cap: nat, balance: nat, m: nat, n: nat)
    requires LongestPrefix(w, cap, balance, m) && LongestPrefix(w, cap, balance, n)
    ensures m == n
  {
    if m < n {
      CostPrefixMonotone(w, m + 1, n);
    } else if n < m {
      CostPrefixMonotone(w, n + 1, m);
    }
  }

  /** The requests selected for payment. */
  function Select<T>(s: seq<Weighted<T>>, cap: nat, balance: nat): (r: seq<Weighted<T>>)
    ensures |r| <= cap && Cost(r) <= balance
  {
    var w := Sort(s);
    assert w[..0] == [];
    w[..Take(w, cap, balance, 0)]
  }

  /** What is selected are distinct occurrences of the given requests. */
  lemma SelectFits<T>(s: seq<Weighted<T>>, cap: nat, balance: nat)
    ensures multiset(Select(s, cap, balance)) <= multiset(s)
  {
    var w := Sort(s);
    var n := |Select(s, cap, balance)|;
    SortOk(s);
    assert w[..0] == [];
    assert w == w[..n] + w[n..];
  }

  // ---- Optimality ----

  /** Cost of an arbitrary collection of requests. */
  ghost function BagCost<T(!new)>(m: multiset<Weighted<T>>): nat
    decreases |m|
  {
    if m == multiset{} then 0
    else
      var x :| x in m;
      x.amount + BagCost(m - multiset{x})
  }

  lemma {:induction false} BagCostRemove<T(!new)>(m: multiset<Weighted<T>>, x: Weighted<T>)
    requires x in m
    ensures BagCost(m) == x.amount + BagCost(m - multiset{x})
    decreases |m|
  {
    var y :| y in m && BagCost(m) == y.amount + BagCost(m - multiset{y});
    if x != y {
      BagCostRemove(m - multiset{y}, x);
      BagCostRemove(m - multiset{x}, y);
      assert m - multiset{y} - multiset{x} == m - multiset{x} - multiset{y};
    }
  }

  lemma {:induction false} BagCostOfSeq<T(!new)>(s: seq<Weighted<T>>)
    ensures BagCost(multiset(s)) == Cost(s)
    decreases |s|
  {
    if s != [] {
      var p := s[..|s| - 1];
      var x := s[|s| - 1];
      assert s == p + [x];
      BagCostOfSeq(p);
      CostAppend(p, x);
      BagCostRemove(multiset(s), x);
      assert multiset(s) - multiset{x} == multiset(p);
    }
  }

  lemma WithoutLast<T(!new)>(p: seq<Weighted<T>>, x: Weighted<T>, m: multiset<Weighted<T>>)
    requires m <= multiset(p + [x])
    ensures x in m ==> m - multiset{x} <= multiset(p)
    ensures x !in m ==> m <= multiset(p)
  {
    assert multiset(p + [x]) == multiset(p) + multiset{x};
  }

  lemma BagSize<T(!new)>(w: seq<Weighted<T>>, m: multiset<Weighted<T>>)
    requires m <= multiset(w)
    ensures |m| <= |w|
  {
    assert |multiset(w)| == |m| + |multiset(w) - m|;
  }

  /** Exchange argument: the first |m| of an ascending list cost no more than any m drawn from it. */
  lemma {:induction false} CheapestPrefix<T(!new)>(w: seq<Weighted<T>>, m: multiset<Weighted<T>>)
    requires Ascending(w) && m <= multiset(w) && |m| <= |w|
    ensures Cost(w[..|m|]) <= BagCost(m)
    decreases |w|, 1
  {
    if w == [] {
      assert w[..0] == [];
    } else {
      var p := w[..|w| - 1];
      var x := w[|w| - 1];
      assert w == p + [x];
      WithoutLast(p, x, m);
      if x in m {
        CheapestWithLast(w, m);
      } else {
        CheapestWithoutLast(w, m);
      }
    }
  }

  lemma {:induction false} CheapestWithoutLast<T(!new)>(w: seq<Weighted<T>>, m: multiset<Weighted<T>>)
    requires w != [] && Ascending(w) && m <= multiset(w[..|w| - 1]) && |m| <= |w|
    ensures Cost(w[..|m|]) <= BagCost(m)
    decreases |w|, 0
  {
    var p := w[..|w| - 1];
    BagSize(p, m);
    CheapestPrefix(p, m);
    assert w[..|m|] == p[..|m|];
  }

  /** The last element is the dearest: swapping it for the next cheapest can only lower the cost. */
  lemma {:induction false} CheapestWithLast<T(!new)>(w: seq<Weighted<T>>, m: multiset<Weighted<T>>)
    requires w != [] && w[|w| - 1] in m && |m| <= |w|
    requires Ascending(w) && m - multiset{w[|w| - 1]} <= multiset(w[..|w| - 1])
    ensures Cost(w[..|m|]) <= BagCost(m)
    decreases |w|, 0
  {
    var rest := m - multiset{w[|w| - 1]};
    var n := |m| - 1;
    assert |rest| == n;
    assert Cost(w[..n]) <= BagCost(rest) by {
      CheapestPrefix(w[..|w| - 1], rest);
      assert w[..n] == w[..|w| - 1][..n];
    }
    assert Cost(w[..n + 1]) == Cost(w[..n]) + w[n].amount by { CostPrefix(w, n); }
    assert BagCost(m) == w[|w| - 1].amount + BagCost(rest) by { BagCostRemove(m, w[|w| - 1]); }
  }

  /**
    Optimality of the greedy choice, against every sub-collection of the requests that fits both limits:
    none serves more requests, and none of the same size is cheaper.
   */
  lemma SelectOptimal<T(!new)>(s: seq<Weighted<T>>, cap: nat, balance: nat, other: multiset<Weighted<T>>)
    requires other <= multiset(s)
    ensures |other| <= cap && BagCost(other) <= balance ==> |other| <= |Select(s, cap, balance)|
    ensures |other| == |Select(s, cap, balance)| ==> Cost(Select(s, cap, balance)) <= BagCost(other)
  {
    var w := Sort(s);
    var n := |Select(s, cap, balance)|;
    SortOk(s);
    assert w[..0] == [];
    BagSize(w, other);
    CheapestPrefix(w, other);
    if |other| <= cap && BagCost(other) <= balance && |other| > n {
      CostPrefixMonotone(w, n + 1, |other|);
    }
  }

  /** Everybody is selected exactly when the cap has room for all and the balance covers the whole cost. */
  lemma SelectAll<T(!new)>(s: seq<Weighted<T>>, cap: nat, balance: nat)
    ensures multiset(Select(s, cap, balance)) == multiset(s) <==> |s| <= cap && Cost(s) <= balance
  {
    hide Select, Cost, BagCost;
    var r := Select(s, cap, balance);
    SelectFits(s, cap, balance);
    BagCostOfSeq(s);
    BagCostOfSeq(r);
    assert |multiset(s)| == |s| && |multiset(r)| == |r|;
    if |s| <= cap && Cost(s) <= balance {
      SelectOptimal(s, cap, balance, multiset(s));
      assert |multiset(s) - multiset(r)| == 0;
    }
  }

  /** Nothing is selected only when nobody could be: cap 0, no request, or even the cheapest is too dear. */
  lemma SelectEmpty<T(!new)>(s: seq<Weighted<T>>, cap: nat, balance: nat)
    ensures Select(s, cap, balance) == []
       <==> cap == 0 || forall i :: 0 <= i < |s| ==> s[i].amount > balance
  {
    var n := |Select(s, cap, balance)|;
    SelectFits(s, cap, balance);
    if n > 0 {
      var x := Select(s, cap, balance)[0];
      assert x in multiset(Select(s, cap, balance));
      assert x in multiset(s);
      BagCostOfSeq(Select(s, cap, balance));
      BagCostRemove(multiset(Select(s, cap, balance)), x);
      assert x in s && x.amount <= balance;
    }
    if cap > 0 && exists i :: 0 <= i < |s| && s[i].amount <= balance {
      var i :| 0 <= i < |s| && s[i].amount <= balance;
      var single := multiset{s[i]};
      BagCostRemove(single, s[i]);
      assert single - multiset{s[i]} == multiset{};
      assert s[i] in multiset(s);
      SelectOptimal(s, cap, balance, single);
    }
  }

  // ---- The code: in-place sort and selection loop ----

  /** Insertion passes over a larger element. */
  lemma InsertBefore<T>(s: seq<Weighted<T>>, x: Weighted<T>, j: nat)
    requires 0 < j <= |s| && x.amount < s[j - 1].amount
    ensures Insert(s[..j], x) + s[j..] == Insert(s[..j - 1], x) + s[j - 1..]
  {
    assert s[..j][..j - 1] == s[..j - 1];
    assert s[j - 1..] == [s[j - 1]] + s[j..];
  }

  /** Sinks a[i] into the sorted prefix before it, in place. */
  method SinkInPlace<T>(a: array<Weighted<T>>, i: nat)
    requires i < a.Length
    modifies a
    ensures a[..i + 1] == Insert(old(a[..i]), old(a[i]))
    ensures a[i + 1..] == old(a[i + 1..])
  {
    ghost var p := a[..i];
    ghost var x := a[i];
    ghost var rest := a[i + 1..];
    var j := i;
    assert p[..i] == p && p[i..] == [];
    while j > 0 && a[j].amount < a[j - 1].amount
      invariant 0 <= j <= i
      invariant a[..i + 1] == p[..j] + [x] + p[j..]
      invariant a[i + 1..] == rest
      invariant Insert(p, x) == Insert(p[..j], x) + p[j..]
    {
      assert a[j] == a[..i + 1][j] == x && a[j - 1] == a[..i + 1][j - 1] == p[j - 1];
      InsertBefore(p, x, j);
      SwapDown(a, i, j, p, x);
      j := j - 1;
    }
    assert a[j] == a[..i + 1][j] == x;
    assert j > 0 ==> a[j - 1] == a[..i + 1][j - 1] == p[j - 1];
    assert Insert(p[..j], x) == p[..j] + [x];
  }

  method SwapDown<T>(a: array<Weighted<T>>, i: nat, j: nat, ghost p: seq<Weighted<T>>, ghost x: Weighted<T>)
    requires 0 < j <= i < a.Length && |p| == i
    requires a[..i + 1] == p[..j] + [x] + p[j..]
    modifies a
    ensures a[..i + 1] == p[..j - 1] + [x] + p[j - 1..]
    ensures a[i + 1..] == old(a[i + 1..])
  {
    assert a[j] == a[..i + 1][j] == x && a[j - 1] == a[..i + 1][j - 1] == p[j - 1];
    ghost var was := a[..i + 1];
    a[j - 1], a[j] := a[j], a[j - 1];
    assert a[..i + 1] == was[j - 1 := x][j := p[j - 1]];
  }

  /** The comparator sort, cheapest first. */
  method SortInPlace<T>(a: array<Weighted<T>>)
    modifies a
    ensures a[..] == Sort(old(a[..]))
  {
    ghost var was := a[..];
    var i := 0;
    while i < a.Length
      invariant 0 <= i <= a.Length
      invariant a[..i] == Sort(was[..i])
      invariant a[i..] == was[i..]
    {
      assert a[i] == a[i..][0] == was[i];
      assert was[..i + 1][..i] == was[..i];
      assert a[i..][1..] == a[i + 1..];
      SinkInPlace(a, i);
      assert was[i..][1..] == was[i + 1..];
      i := i + 1;
    }
    assert a[..] == a[..i];
    assert was == was[..i];
  }

  /** The selection loop: `accum` is exactly the cost of the prefix it stops at. */
  method SelectPrefix<T>(confirmed: array<Weighted<T>>, allowed: nat, balance: nat) returns (selected: nat, accum: nat)
    ensures LongestPrefix(confirmed[..], allowed, balance, selected)
    ensures accum == Cost(confirmed[..][..selected])
  {
    accum, selected := 0, 0;
    assert confirmed[..][..0] == [];
    while selected < confirmed.Length
      invariant 0 <= selected <= confirmed.Length && selected <= allowed
      invariant accum == Cost(confirmed[..][..selected]) <= balance
    {
      if selected >= allowed {
        break;
      }
      CostPrefix(confirmed[..], selected);
      var temp := accum + confirmed[selected].amount;
      if balance >= temp {
        accum := temp;
        selected := selected + 1;
      } else {
        break;
      }
    }
  }

  /** Sort a fresh array of the requests in place, then select: exactly the specified choice. */
  method SelectInPlace<T>(reqs: seq<Weighted<T>>, allowed: nat, balance: nat) returns (chosen: seq<Weighted<T>>, accum: nat)
    ensures chosen == Select(reqs, allowed, balance) && accum == Cost(chosen)
  {
    var confirmed := new Weighted<T>[|reqs|](i requires 0 <= i < |reqs| => reqs[i]);
    assert confirmed[..] == reqs;
    SortInPlace(confirmed);
    var selected;
    selected, accum := SelectPrefix(confirmed, allowed, balance);
    assert Sort(reqs)[..0] == [];
    LongestPrefixUnique(Sort(reqs), allowed, balance, selected, Take(Sort(reqs), allowed, balance, 0));
    chosen := confirmed[..selected];
    assert chosen == confirmed[..][..selected];
  }
}
