/** The statements of src/db-utils.js against the shared table public.requests. */
module RequestTable {
  import opened Wrappers
  import opened Requests
  import opened BonusMath
  import opened Pipeline

  predicate IsInvalid(r: Row) {
    r.status == Invalid
  }

  predicate AwaitsVestingDisbursal(r: Row) {
    AwaitsDisbursal(r) && IsVesting(r)
  }

  predicate AwaitsPlainDisbursal(r: Row) {
    AwaitsDisbursal(r) && !IsVesting(r)
  }

  /** A full scan: every row that satisfies p, once, in no particular order. */
  method SelectWhere(t: Table, p: Row -> bool) returns (reqs: seq<Req>)
    ensures IsSelect(reqs, t, p)
  {
    reqs := [];
    var rest := t.Keys;
    while rest != {}
      invariant rest <= t.Keys
      invariant AreRows(reqs, t, p)
      invariant forall i :: 0 <= i < |reqs| ==> reqs[i].key !in rest
      invariant forall k :: k in t && k !in rest && p(t[k]) ==> exists i :: 0 <= i < |reqs| && reqs[i].key == k
      decreases rest
    {
      var k :| k in rest;
      ghost var before := reqs;
      if p(t[k]) {
        reqs := reqs + [Req(k, t[k])];
        assert reqs[|before|].key == k;
      }
      rest := rest - {k};
      forall j | j in t && j !in rest && p(t[j]) ensures exists i :: 0 <= i < |reqs| && reqs[i].key == j {
        if j != k {
          var i :| 0 <= i < |before| && before[i].key == j;
          assert reqs[i].key == j;
        }
      }
    }
  }

  lemma PrefixOfSelect(all: seq<Req>, vesting: seq<Req>, plain: seq<Req>, t: Table, n: nat)
    requires IsSelect(vesting, t, AwaitsVestingDisbursal) && IsSelect(plain, t, AwaitsPlainDisbursal)
    requires all == vesting + plain && n <= |all|
    ensures AreRows(all[..n], t, AwaitsDisbursal)
    ensures n == |all| ==> IsSelect(all[..n], t, AwaitsDisbursal)
  {
    if n == |all| {
      forall k | k in t && AwaitsDisbursal(t[k]) ensures exists i :: 0 <= i < |all[..n]| && all[..n][i].key == k {
        if AwaitsVestingDisbursal(t[k]) {
          var i :| 0 <= i < |vesting| && vesting[i].key == k;
          assert all[..n][i].key == k;
        } else {
          assert AwaitsPlainDisbursal(t[k]);
          var i :| 0 <= i < |plain| && plain[i].key == k;
          assert all[..n][|vesting| + i].key == k;
        }
      }
    }
  }

  /** ORDER BY is_vesting DESC LIMIT batchSize. */
  method SelectForDisbursal(t: Table, batchSize: nat) returns (reqs: seq<Req>)
    ensures IsDisbursalSelect(reqs, t, batchSize)
  {
    var vesting := SelectWhere(t, AwaitsVestingDisbursal);
    var plain := SelectWhere(t, AwaitsPlainDisbursal);
    var all := vesting + plain;
    var n := if |all| <= batchSize then |all| else batchSize;
    PrefixOfSelect(all, vesting, plain, t, n);
    reqs := all[..n];
    if exists i :: 0 <= i < |reqs| && !IsVesting(reqs[i].row) {
      forall k | k in t && AwaitsDisbursal(t[k]) && IsVesting(t[k]) ensures exists i :: 0 <= i < |reqs| && reqs[i].key == k {
        assert AwaitsVestingDisbursal(t[k]);
        var i :| 0 <= i < |vesting| && vesting[i].key == k;
        assert reqs[i].key == k;
      }
    }
  }

  class RequestTable {
    var rows: Table

    constructor ()
      ensures rows == map[]
    {
      rows := map[];
    }

    /** INSERT: the primary key rejects a second request for the same address and transaction. */
    method TrackNewRequest(blacklist: set<Address>, mainnet: DockAddress, ethAddr: Address, txnHash: Hash, vesting: Option<bool>)
      returns (r: Result<Row, string>)
      modifies this
      ensures Key(ethAddr, txnHash) in old(rows) ==> r.Err? && rows == old(rows)
      ensures Key(ethAddr, txnHash) !in old(rows) ==>
                && r == Ok(NewRow(mainnet, vesting, ethAddr in blacklist))
                && rows == old(rows)[Key(ethAddr, txnHash) := NewRow(mainnet, vesting, ethAddr in blacklist)]
      ensures r.Ok? ==>
                && r.value.mainnet == mainnet && r.value.vesting == vesting
                && (ethAddr in blacklist ==> r.value.status == InvalidBlacklist)
                && (ethAddr !in blacklist ==> r.value.status == SigValid)
                && r.value.erc20.None? && r.value.block.None? && r.value.migrationTokens.None?
                && r.value.swapBonus.None? && r.value.vestingBonus.None?
    {
      var k := Key(ethAddr, txnHash);
      if k in rows {
        return Err("Already requested migration for this address and transaction");
      }
      var status := if ethAddr in blacklist then InvalidBlacklist else SigValid;
      var row := Row(mainnet, vesting, status, None, None, None, None, None);
      rows := rows[k := row];
      r := Ok(row);
    }

    method GetPendingMigrationRequests() returns (reqs: seq<Req>)
      ensures IsSelect(reqs, rows, IsPending)
    {
      reqs := SelectWhere(rows, IsPending);
    }

    method GetPendingBonusCalcRequests() returns (reqs: seq<Req>)
      ensures IsSelect(reqs, rows, AwaitsCalculation)
    {
      reqs := SelectWhere(rows, AwaitsCalculation);
    }

    method GetPendingBonusDispRequests(batchSize: nat) returns (reqs: seq<Req>)
      ensures IsDisbursalSelect(reqs, rows, batchSize)
    {
      reqs := SelectForDisbursal(rows, batchSize);
    }

    method GetInvalidRequests() returns (reqs: seq<Req>)
      ensures IsSelect(reqs, rows, IsInvalid)
    {
      reqs := SelectWhere(rows, IsInvalid);
    }

    /** An UPDATE of one row by primary key. */
    method Update(k: Key, assign: Row -> Row)
      modifies this
      ensures rows == if k in old(rows) then old(rows)[k := assign(old(rows)[k])] else old(rows)
    {
      if k in rows {
        rows := rows[k := assign(rows[k])];
      }
    }

    method MarkRequestInvalid(k: Key)
      modifies this
      ensures rows == Exec(MarkInvalid(k), old(rows))
    {
      Update(k, (r: Row) => r.(status := Invalid));
    }

    method MarkRequestParsed(k: Key, erc20: nat)
      modifies this
      ensures rows == Exec(MarkParsed(k, erc20), old(rows))
    {
      Update(k, (r: Row) => r.(status := TxnParsed, erc20 := Some(erc20)));
    }

    method MarkRequestConfirmed(k: Key, blockNumber: nat)
      modifies this
      ensures rows == Exec(MarkConfirmed(k, blockNumber), old(rows))
    {
      Update(k, (r: Row) => r.(status := TxnConfirmed, block := Some(blockNumber)));
    }

    method MarkRequestParsedAndConfirmed(k: Key, erc20: nat, blockNumber: nat)
      modifies this
      ensures rows == Exec(MarkParsedAndConfirmed(k, erc20, blockNumber), old(rows))
    {
      Update(k, (r: Row) => r.(status := TxnConfirmed, erc20 := Some(erc20), block := Some(blockNumber)));
    }

    method MarkInitialMigrationDone(k: Key, migrationTokens: nat)
      modifies this
      ensures rows == Exec(MarkInitialDone(k, migrationTokens), old(rows))
    {
      Update(k, (r: Row) => r.(status := InitialTransferDone, migrationTokens := Some(migrationTokens)));
    }

    method UpdateWithBonuses(k: Key, swapBonus: nat, vestingBonus: nat)
      modifies this
      ensures rows == Exec(UpdateBonuses(k, swapBonus, vestingBonus), old(rows))
    {
      Update(k, (r: Row) => r.(status := BonusCalculated, swapBonus := Some(swapBonus), vestingBonus := Some(vestingBonus)));
    }

    method UpdateAfterBonusTransfer(k: Key)
      modifies this
      ensures rows == Exec(UpdateAfterBonus(k), old(rows))
    {
      Update(k, (r: Row) => r.(status := BonusTransferred));
    }

    /** The UPDATE of the reset, which src/migrations.js writes out itself. */
    method ResetRequest(k: Key)
      modifies this
      ensures rows == Exec(ResetStatus(k), old(rows))
    {
      Update(k, (r: Row) => r.(status := SigValid));
    }

    /** The client runs one statement it was given. */
    method Run(st: Stmt)
      modifies this
      ensures rows == Exec(st, old(rows))
    {
      match st
      case MarkInvalid(k) => MarkRequestInvalid(k);
      case MarkParsed(k, erc20) => MarkRequestParsed(k, erc20);
      case MarkConfirmed(k, block) => MarkRequestConfirmed(k, block);
      case MarkParsedAndConfirmed(k, erc20, block) => MarkRequestParsedAndConfirmed(k, erc20, block);
      case MarkInitialDone(k, tokens) => MarkInitialMigrationDone(k, tokens);
      case UpdateBonuses(k, swap, vest) => UpdateWithBonuses(k, swap, vest);
      case UpdateAfterBonus(k) => UpdateAfterBonusTransfer(k);
      case ResetStatus(k) => ResetRequest(k);
    }

    /** A transaction of several statements; with one per key, every row ends as its own statement leaves it. */
    method RunAll(q: seq<Stmt>)
      modifies this
      ensures rows == Drain(q, old(rows))
      ensures DistinctKeys(q) ==> forall i :: 0 <= i < |q| && q[i].key in old(rows) ==>
                q[i].key in rows && rows[q[i].key] == Assign(q[i], old(rows)[q[i].key])
    {
      for i := 0 to |q|
        invariant rows == Drain(q[..i], old(rows))
      {
        assert q[..i + 1] == q[..i] + [q[i]];
        DrainAppend(q[..i], q[i], old(rows));
        Run(q[i]);
      }
      assert q[..|q|] == q;
      if DistinctKeys(q) {
        forall i | 0 <= i < |q| && q[i].key in old(rows)
          ensures q[i].key in rows && rows[q[i].key] == Assign(q[i], old(rows)[q[i].key])
        {
          DrainEach(q, old(rows), i);
        }
      }
    }
  }
}
