/** What the two forEach loops over the unconfirmed rows decide, row by row, read off the receipts directly. */
module Verdicts {
  import opened Wrappers
  import opened Requests
  import opened Receipts
  import opened Pipeline
  import opened PipelineInvariant

  /** The receipt shows a deposit of the row's address at the vault. */
  ghost predicate Shows(c: Config, answer: Option<Receipt>, k: Key) {
    answer.Some? && exists v :: Backs(c, answer.value.tx, k, v)
  }

  /** ... in a block that is buried by now. */
  predicate ShownBuried(c: Config, answer: Option<Receipt>, height: nat) {
    && answer.Some? && answer.value.block.Some?
    && 0 < answer.value.block.value <= MAX_SAFE_INTEGER && answer.value.block.value + c.confirmations < height
  }

  /** The statement a new row deserves: INVALID exactly without a deposit, confirmed exactly with a buried one. */
  ghost predicate RightVerdict(c: Config, k: Key, answer: Option<Receipt>, height: nat, st: Stmt) {
    && st.key == k
    && (st.MarkInvalid? <==> !Shows(c, answer, k))
    && (st.MarkParsedAndConfirmed? <==> Shows(c, answer, k) && ShownBuried(c, answer, height))
    && (st.MarkParsed? <==> Shows(c, answer, k) && !ShownBuried(c, answer, height))
    && (st.MarkParsed? ==> Backs(c, answer.value.tx, k, st.erc20))
    && (st.MarkParsedAndConfirmed? ==> Backs(c, answer.value.tx, k, st.erc20) && answer.value.block == Some(st.block))
  }

  /** The row in memory once its verdict is confirmed. */
  function InMemory(r: Req, st: Stmt): Req
    requires st.MarkParsedAndConfirmed?
  {
    Req(r.key, r.row.(status := TxnConfirmed, erc20 := Some(st.erc20)))
  }

  lemma NewVerdict(c: Config, j: Judgement, req: Req, answer: Option<Receipt>, height: nat)
    ensures var j' := JudgeNewOne(c, j, req, TransferToVault(c, answer), height);
            && |j'.writes| == |j.writes| + 1 && j.writes <= j'.writes && j'.aborted == j.aborted
            && RightVerdict(c, req.key, answer, height, j'.writes[|j.writes|])
            && j'.confirmed == j.confirmed + if j'.writes[|j.writes|].MarkParsedAndConfirmed?
                                             then [InMemory(req, j'.writes[|j.writes|])] else []
  {
    AcceptanceMeansBacking(c, answer, req.key);
    var txn := TransferToVault(c, answer);
    if txn.Ok? && IsValidTransferFrom(txn.value, req.key.addr) {
      assert Shows(c, answer, req.key);
      assert IsTxnConfirmedAsOf(c, txn.value, height) <==> ShownBuried(c, answer, height);
    }
  }

  /** The in-memory rows that a list of verdicts confirms, in order. */
  function ConfirmedBy(reqs: seq<Req>, writes: seq<Stmt>): seq<Req>
    requires |reqs| == |writes|
    decreases |reqs|
  {
    if reqs == [] then []
    else
      var n := |reqs| - 1;
      ConfirmedBy(reqs[..n], writes[..n])
      + (if writes[n].MarkParsedAndConfirmed? then [InMemory(reqs[n], writes[n])] else [])
  }

  /** Every new row gets exactly one statement, the right one for its own receipt, and no loop iteration throws. */
  lemma {:induction false} NewVerdicts(c: Config, reqs: seq<Req>, answers: seq<Option<Receipt>>, height: nat)
    requires |reqs| <= |answers|
    ensures var j := JudgeNew(c, reqs, FetchAll(c, answers), height);
            && !j.aborted && |j.writes| == |reqs|
            && (forall i :: 0 <= i < |reqs| ==> RightVerdict(c, reqs[i].key, answers[i], height, j.writes[i]))
            && j.confirmed == ConfirmedBy(reqs, j.writes)
    decreases |reqs|
  {
    hide JudgeNewOne, RightVerdict, FetchAll;
    if reqs != [] {
      var n := |reqs| - 1;
      NewVerdicts(c, reqs[..n], answers, height);
      var j := JudgeNew(c, reqs[..n], FetchAll(c, answers), height);
      NewVerdict(c, j, reqs[n], answers[n], height);
      assert JudgeNew(c, reqs, FetchAll(c, answers), height).writes[..n] == j.writes;
    }
  }

  // ---- Parsed rows ----

  /** The node shows the transaction of a parsed row, as the deposit it is. */
  predicate Found(c: Config, answer: Option<Receipt>) {
    TransferToVault(c, answer).Ok?
  }

  /** Confirmations a list of parsed rows deserves, in order: one for each row with a buried receipt. */
  function Confirmations(c: Config, reqs: seq<Req>, answers: seq<Option<Receipt>>, offset: nat, height: nat): seq<Stmt>
    requires offset + |reqs| <= |answers|
    decreases |reqs|
  {
    if reqs == [] then []
    else
      var n := |reqs| - 1;
      Confirmations(c, reqs[..n], answers, offset, height)
      + (if ShownBuried(c, answers[offset + n], height)
         then [MarkConfirmed(reqs[n].key, answers[offset + n].value.block.value)] else [])
  }

  function NowConfirmed(c: Config, reqs: seq<Req>, answers: seq<Option<Receipt>>, offset: nat, height: nat): seq<Req>
    requires offset + |reqs| <= |answers|
    decreases |reqs|
  {
    if reqs == [] then []
    else
      var n := |reqs| - 1;
      NowConfirmed(c, reqs[..n], answers, offset, height)
      + (if ShownBuried(c, answers[offset + n], height)
         then [Req(reqs[n].key, reqs[n].row.(status := TxnConfirmed))] else [])
  }

  lemma FoundBuried(c: Config, answer: Option<Receipt>, height: nat)
    requires Found(c, answer)
    ensures IsTxnConfirmedAsOf(c, TransferToVault(c, answer).value, height) <==> ShownBuried(c, answer, height)
    ensures ShownBuried(c, answer, height) ==> TransferToVault(c, answer).value.block == answer.value.block
  {
  }

  /**
    Parsed rows: the loop throws exactly when the transaction of some row is missing. Otherwise it confirms exactly
    the rows whose own receipt, found at the offset, is buried, each with the block of that receipt.
   */
  lemma {:induction false} ParsedVerdicts(c: Config, j0: Judgement, reqs: seq<Req>, answers: seq<Option<Receipt>>, offset: nat, height: nat)
    requires offset + |reqs| <= |answers| && !j0.aborted
    ensures var j := JudgeParsed(c, j0, reqs, FetchAll(c, answers), offset, height);
            && (j.aborted <==> exists i :: offset <= i < offset + |reqs| && !Found(c, answers[i]))
            && (!j.aborted ==>
                  && j.writes == j0.writes + Confirmations(c, reqs, answers, offset, height)
                  && j.confirmed == j0.confirmed + NowConfirmed(c, reqs, answers, offset, height))
    decreases |reqs|
  {
    hide ShownBuried, IsTxnConfirmedAsOf, TransferToVault;
    if reqs != [] {
      var n := |reqs| - 1;
      ParsedVerdicts(c, j0, reqs[..n], answers, offset, height);
      if Found(c, answers[offset + n]) {
        FoundBuried(c, answers[offset + n], height);
      }
    }
  }

  /** ... so a row is confirmed if and only if its receipt is buried, and with the block of that receipt. */
  lemma {:induction false} ConfirmedExactly(c: Config, reqs: seq<Req>, answers: seq<Option<Receipt>>, offset: nat, height: nat, st: Stmt)
    requires offset + |reqs| <= |answers|
    ensures st in Confirmations(c, reqs, answers, offset, height)
       <==> exists i :: 0 <= i < |reqs| && ShownBuried(c, answers[offset + i], height)
                        && st == MarkConfirmed(reqs[i].key, answers[offset + i].value.block.value)
    decreases |reqs|
  {
    if reqs != [] {
      var n := |reqs| - 1;
      ConfirmedExactly(c, reqs[..n], answers, offset, height, st);
      if i :| 0 <= i < |reqs| && ShownBuried(c, answers[offset + i], height)
              && st == MarkConfirmed(reqs[i].key, answers[offset + i].value.block.value) {
        assert i < n ==> reqs[..n][i] == reqs[i];
      }
      if i :| 0 <= i < n && ShownBuried(c, answers[offset + i], height)
              && st == MarkConfirmed(reqs[..n][i].key, answers[offset + i].value.block.value) {
        assert reqs[i] == reqs[..n][i];
      }
    }
  }

  /** Both loops over one concatenated list of fetches: every row is judged, and rightly, by the receipt at its own index. */
  lemma JudgementRight(c: Config, reqs: seq<Req>, answers: seq<Option<Receipt>>, height: nat)
    requires |answers| == |Unconfirmed(reqs)|
    ensures var newReqs, parsed := WithStatus(reqs, SigValid), WithStatus(reqs, TxnParsed);
            var j := Judge(c, reqs, FetchAll(c, answers), height);
            && (j.aborted <==> exists i :: |newReqs| <= i < |answers| && !Found(c, answers[i]))
            && (!j.aborted ==>
                  && |newReqs| <= |j.writes|
                  && (forall i :: 0 <= i < |newReqs| ==> RightVerdict(c, newReqs[i].key, answers[i], height, j.writes[i]))
                  && j.writes[|newReqs|..] == Confirmations(c, parsed, answers, |newReqs|, height)
                  && j.confirmed == ConfirmedBy(newReqs, j.writes[..|newReqs|])
                                    + NowConfirmed(c, parsed, answers, |newReqs|, height))
  {
    hide JudgeNew, JudgeParsed, WithStatus, Confirmations, NowConfirmed, ConfirmedBy, Found, RightVerdict;
    var newReqs := WithStatus(reqs, SigValid);
    var j0 := JudgeNew(c, newReqs, FetchAll(c, answers), height);
    NewVerdicts(c, newReqs, answers, height);
    ParsedVerdicts(c, j0, WithStatus(reqs, TxnParsed), answers, |newReqs|, height);
  }
}
