/** The protocols can be completed: a handoff that finalizes and a closure that closes, so what is proved of
    finalized handoffs and closed accounts is about states that occur. */
module AccountExamples {
  import opened Common
  import opened Evidence
  import opened Account

  const CALM: Env := Env(0, 0, {}, 0, 0, 0)
  const CLEAN: Financial := Financial(true, TWD, 0, true, true, true, 0, 0, 0, 0, 0, 0, 0)
  const FUNDS: Funds := Funds(Active, 0, 1, [], [], None)
  const FIRST: Period := Period("alice", 1, 0, None, "created", None)
  const SCOPE: Scope := Scope("op", 1)

  /** An account created for alice, with no other history. */
  const START: State := State(FUNDS, Claims(map[], []), [FIRST], map[], map[], map[], map[],
                              Some(Creation(true, "event", "alice", 0, "created")), CALM)

  const PREPARE: PrepareIn := PrepareIn(true, "op", "alice", "bob", 1, 5)
  const SETTLE: SettlementIn := SettlementIn(true, SCOPE, "receipt", Capture(START), CLEAN)
  const ALICE: ConfirmIn := ConfirmIn(true, SCOPE, "alice", 2, 0, TWD)
  const BOB: ConfirmIn := ConfirmIn(true, SCOPE, "bob", 2, 0, TWD)
  const AUTHORIZE: AuthorizeIn := AuthorizeIn(true, SCOPE, "auth", 2)
  const FINALIZE: FinalizeIn := FinalizeIn(true, SCOPE, "auth", "bob", 2, 10, "commit")

  lemma CleanEvidence()
    ensures TransferBlockers(CLEAN) == [] && Merge(CLEAN, Local(Capture(START))) == CLEAN
  {
    NoBlockersMeansClear(CLEAN);
  }

  /** The account while its one handoff is h; `settled` once the settlement is on file. */
  function With(h: Handoff, settled: bool): State {
    START.(handoffs := map["op" := h], receiptIds := if settled then map["receipt" := SETTLE] else map[])
  }

  const H1: Handoff := Handoff(PREPARE, 0, Preparing, 1, map[], map[], map[], None, None, None, None, None)
  const H2: Handoff := H1.(version := 2, phase := Prepared, receipts := map[2 := Receipt(Capture(START), CLEAN)],
                           snapshots := map[2 := 0])
  const H3: Handoff := H2.(confirmed := map[(2, "alice") := 0])
  const H4: Handoff := H2.(confirmed := map[(2, "alice") := 0, (2, "bob") := 0])
  const H5: Handoff := H4.(phase := CommitAuthorized, version := 3, grant := Some(Grant(AUTHORIZE, Capture(START))))
  const H6: Handoff := H5.(decision := Some(FINALIZE), phase := Finalizing, version := 4)

  lemma Prepares()
    ensures PrepareHandoff(START, PREPARE) == Done(With(H1, false))
  {
    assert FindOpen([FIRST]) == Some(0);
  }

  lemma SourceIsResponsible(h: Handoff, settled: bool)
    ensures FindOpen(With(h, settled).periods) == Some(0) && OpenFor(With(h, settled).periods, "alice", 1)
    ensures Capture(With(h, settled)) == Capture(START)
  {
    assert With(h, settled).periods == [FIRST];
  }

  lemma CleanStatus(h: Handoff)
    requires h == H2 || h == H3 || h == H4
    ensures SettlementStatus(With(h, true), h)
            == Status([], Some(Snapshot(2, 0, (2, "alice") in h.confirmed, (2, "bob") in h.confirmed)))
  {
    SourceIsResponsible(h, true);
    CleanEvidence();
    hide TransferBlockers;
    hide Merge;
    hide Capture;
    hide Local;
  }

  lemma Settles()
    ensures RecordSettlement(With(H1, false), SETTLE) == Done(With(H2, true))
  {
    SourceIsResponsible(H1, false);
    CleanEvidence();
    CleanStatus(H2);
    hide TransferBlockers;
    hide Merge;
    hide SettlementStatus;
    hide OpenFor;
    assert Capture(START).balance == 0 && !Capture(START).state.Closed?;
    assert Settle(H1, Capture(START), CLEAN) == H2;
    hide Capture;
    hide Local;
  }

  lemma Confirms()
    ensures ConfirmSnapshot(With(H2, true), ALICE) == Done(With(H3, true))
    ensures ConfirmSnapshot(With(H3, true), BOB) == Done(With(H4, true))
  {
    SourceIsResponsible(H2, true);
    SourceIsResponsible(H3, true);
    CleanStatus(H2);
    CleanStatus(H3);
    hide SettlementStatus;
    hide OpenFor;
    hide Capture;
    assert H3.confirmed[(2, "bob") := 0] == H4.confirmed;
  }

  lemma Authorizes()
    ensures AuthorizeCommit(With(H4, true), AUTHORIZE) == Done(With(H5, true))
  {
    SourceIsResponsible(H4, true);
    CleanStatus(H4);
    hide SettlementStatus;
    hide OpenFor;
    hide Capture;
  }

  lemma Decides()
    ensures DecideCommit(With(H5, true), FINALIZE) == Done(With(H6, true))
  {
    SourceIsResponsible(H5, true);
    hide OpenFor;
    hide Capture;
  }

  const H7: Handoff := H6.(finalization := Some(FINALIZE), phase := Finalized, version := 5)
  const SUCCESSOR: Period := Period("bob", 2, 10, None, "commit", Some(("op", 0)))
  const TRANSFERRED: State := With(H7, true).(periods := [FIRST.(until := Some(10)), SUCCESSOR])

  lemma Finalizes()
    ensures FinalizeCommit(With(H6, true), FINALIZE) == Done(TRANSFERRED)
  {
    SourceIsResponsible(H6, true);
    hide Capture;
    hide FindOpen;
    assert [FIRST][0 := FIRST.(until := Some(10))] + [SUCCESSOR] == TRANSFERRED.periods;
  }

  /** The whole protocol, from a new account to bob's opening balance. */
  lemma HandoffFinalizes()
    ensures Init(START) && PrepareHandoff(START, PREPARE) == Done(With(H1, false))
    ensures RecordSettlement(With(H1, false), SETTLE) == Done(With(H2, true))
    ensures ConfirmSnapshot(With(H2, true), ALICE) == Done(With(H3, true))
    ensures ConfirmSnapshot(With(H3, true), BOB) == Done(With(H4, true))
    ensures AuthorizeCommit(With(H4, true), AUTHORIZE) == Done(With(H5, true))
    ensures DecideCommit(With(H5, true), FINALIZE) == Done(With(H6, true))
    ensures FinalizeCommit(With(H6, true), FINALIZE) == Done(TRANSFERRED)
  {
    Prepares();
    Settles();
    Confirms();
    Authorizes();
    Decides();
    Finalizes();
    hide PrepareHandoff;
    hide RecordSettlement;
    hide ConfirmSnapshot;
    hide AuthorizeCommit;
    hide DecideCommit;
    hide FinalizeCommit;
    hide Capture;
  }

  // ---------------------------------------------------------------- closing

  const CLOSURE_SCOPE: ClosureScope := ClosureScope("close", "alice", 1)
  const PREPARE_CLOSE: PrepareClosureIn := PrepareClosureIn(true, CLOSURE_SCOPE, 5, "request")
  const CLOSE: CloseIn := CloseIn(true, CLOSURE_SCOPE, "settlement", "readiness")
  const C1: Closure := Closure(PREPARE_CLOSE, 0, ClosurePreparing, 1, map[], [], None, None, None, {})
  const SETTLE_CLOSE: ClosureSettlementIn :=
    ClosureSettlementIn(true, CLOSURE_SCOPE, "settlement", ClosureCaptured(Capture(START), map[], PREPARE_CLOSE),
                        CLEAN, 5, 20, 10, 30)
  const C2: Closure := C1.(settlements := [ClosureReceipt("settlement", SETTLE_CLOSE.state, CLEAN, 20, 10, 30)])
  const C3: Closure := C2.(completion := Some(CLOSE), phase := ClosureClosed, version := 2)

  function Closing(c: Closure, settled: bool): State {
    START.(closures := map["close" := c],
           closureReceiptIds := if settled then map["settlement" := SETTLE_CLOSE] else map[])
  }

  const CLOSED: State := Closing(C3, true).(periods := [FIRST.(until := Some(25))],
                                            funds := FUNDS.(state := Closed, version := 2))

  lemma ClosureOpens()
    ensures PrepareClosure(START, PREPARE_CLOSE, {}, 15) == Done(Closing(C1, false))
  {
    assert FindOpen([FIRST]) == Some(0);
    assert PrepareClosure(START, PREPARE_CLOSE, {}, 15).state.closures["close"].tasks == map[];
  }

  lemma ClosureSettles()
    ensures RecordClosureSettlement(Closing(C1, false), SETTLE_CLOSE, 22) == Done(Closing(C2, true))
  {
    assert Capture(Closing(C1, false)) == Capture(START);
    CleanEvidence();
    assert Capture(START).balance == 0;
    assert C1.settlements + C2.settlements == C2.settlements;
    hide Capture;
    hide Merge;
    hide Local;
  }

  lemma ClosureIsReady()
    ensures ClosureReadiness(Closing(C2, true), C2, 25) == ClosureStatus([], true, Some("settlement"))
  {
    assert Capture(Closing(C2, true)) == Capture(START);
    CleanEvidence();
    NoClosureBlockersMeansZero(CLEAN);
    assert Latest(C2.settlements) == Some(C2.settlements[0]);
    hide Capture;
    hide Merge;
    hide Local;
    hide ClosureBlockers;
    hide Latest;
  }

  /** The closing protocol, from a new account to a closed one. */
  lemma ClosureCloses()
    ensures Init(START) && PrepareClosure(START, PREPARE_CLOSE, {}, 15) == Done(Closing(C1, false))
    ensures RecordClosureSettlement(Closing(C1, false), SETTLE_CLOSE, 22) == Done(Closing(C2, true))
    ensures Account.CloseCloud(Closing(C2, true), CLOSE, 25, 25) == Done(CLOSED)
  {
    ClosureOpens();
    ClosureSettles();
    ClosureIsReady();
    hide PrepareClosure;
    hide RecordClosureSettlement;
    hide ClosureReadiness;
    hide Capture;
    assert [FIRST][0 := FIRST.(until := Some(25))] == CLOSED.periods;
  }
}
