/** Runs that show where the guarantees end: an orphaned effect, and a stale status write. */
module ProtocolExamples {
  import opened Prelude
  import opened Authorization
  import opened Shipments
  import opened Actions
  import opened Conversations
  import opened Protocol
  import opened ProtocolInvariant
  import opened ProtocolSafety
  import opened ProtocolHistory
  import opened ProtocolFreshness

  const OWNER := Owner(1, 1)
  const GRANTS: set<Permission> := {ShipmentRead, ShipmentTransition}
  const PROPOSAL := Proposal(TransitionStatus, 0, "T", Ready, "go", Some(InTransit), None, None)
  const ANSWER := AgentResult(ConfirmationRequest("go"), None, Some(PROPOSAL))
  const PENDING := NewAction(OWNER, 0, PROPOSAL)
  const QUESTION := Message(User, Words("q"))

  function ShipmentIn(status: ShipmentStatus): Shipment {
    Shipment(status, None, Details("T", None, None, 0))
  }

  /** Another request that has read `draft` and is about to write `ready`. */
  const STALE := NewTx(StatusLoaded(0, Draft, Ready), OWNER, 0, 0)

  const TITLED := Conversation(OWNER, TitleOf("q"), false, NO_CONTINUATION,
                               [QUESTION, Message(Assistant, ConfirmationRequest("go"))])

  /** The action is pending, the shipment stands in `status`, and `txs` are in flight. */
  function Waiting(status: ShipmentStatus, txs: map<TxId, Tx>, writes: seq<Write>, orphans: multiset<ActionId>): World {
    World(map[0 := PENDING], map[0 := [WasProposed]], map[0 := TITLED], map[0 := ShipmentIn(status)],
          txs, writes, orphans, map[0 := GRANTS])
  }

  /** The request that confirms the action, once it holds the claim. */
  function Held(pc: Pc): Tx {
    Tx(pc, OWNER, 0, 0, GRANTS, Some(Claim(PENDING, 0)), [WasConfirmed], [], None)
  }

  const EFFECT := StatusWrite(0, Some(0), GRANTS, Ready, Ready, InTransit)
  const FIRST := StatusWrite(0, None, {}, Draft, Draft, Ready)
  const SECOND := StatusWrite(0, None, {}, Draft, InTransit, Ready)
  const DONE := MarkingExecuted(StatusChanged("T", Ready, InTransit))

  // ---- setting up: two requests read `draft`, one of them writes `ready`; the agent proposes a transition ----

  /** Only shipment 0 exists, and no conversation yet. */
  function Bare(status: ShipmentStatus, txs: map<TxId, Tx>, writes: seq<Write>): World {
    World(map[], map[], map[], map[0 := ShipmentIn(status)], txs, writes, multiset{}, map[])
  }

  lemma TwoReaders()
    ensures Reachable(Bare(Draft, map[9 := STALE][8 := STALE], []))
  {
    var w := Bare(Draft, map[], []);
    assert Run(w, []) == w;
    ReachableStep(w, EStatusRead(9, OWNER, 0, Ready));
    assert Step(w, EStatusRead(9, OWNER, 0, Ready)) == Bare(Draft, map[9 := STALE], []);
    ReachableStep(Bare(Draft, map[9 := STALE], []), EStatusRead(8, OWNER, 0, Ready));
  }

  lemma OneWrites()
    ensures Reachable(Bare(Ready, map[9 := STALE], [FIRST]))
  {
    TwoReaders();
    var w := Bare(Draft, map[9 := STALE][8 := STALE], []);
    ReachableStep(w, EStatusWrite(8));
    FirstWriteLands(w);
  }

  lemma FirstWriteLands(w: World)
    requires w == Bare(Draft, map[9 := STALE][8 := STALE], [])
    ensures StatusWriteBack(w, 8) == Bare(Ready, map[9 := STALE], [FIRST])
  {
    assert w.txs - {8} == map[9 := STALE];
  }

  function Talking(tx: Tx): World {
    Bare(Ready, map[9 := STALE][1 := tx], [FIRST]).(
    conversations := map[0 := Conversation(OWNER, DefaultTitle, false, NO_CONTINUATION, [])])
  }

  function Turn(pc: Pc): Tx {
    Tx(pc, OWNER, 0, 0, GRANTS, None, [], [QUESTION], Some(TitleOf("q")))
  }

  lemma TurnStarts()
    ensures Reachable(Talking(NewTx(Preparing("q", None), OWNER, 0, 0)))
  {
    OneWrites();
    var w := Bare(Ready, map[9 := STALE], [FIRST]);
    ReachableStep(w, ECreateConversation(0, OWNER));
    var talks := map[0 := Conversation(OWNER, DefaultTitle, false, NO_CONTINUATION, [])];
    assert w.conversations[0 := talks[0]] == talks;
    assert Step(w, ECreateConversation(0, OWNER)) == w.(conversations := talks);
    TurnIsAsked(w.(conversations := talks));
  }

  lemma TurnIsAsked(v: World)
    requires Reachable(v)
    requires v == Bare(Ready, map[9 := STALE], [FIRST]).(
                    conversations := map[0 := Conversation(OWNER, DefaultTitle, false, NO_CONTINUATION, [])])
    ensures Reachable(Talking(NewTx(Preparing("q", None), OWNER, 0, 0)))
  {
    ReachableStep(v, ETurnStart(1, OWNER, 0, "q", None));
    assert Step(v, ETurnStart(1, OWNER, 0, "q", None)) == Talking(NewTx(Preparing("q", None), OWNER, 0, 0));
  }

  lemma TurnPrepares()
    ensures Reachable(Talking(Turn(Running("q", None)).(granted := {})))
  {
    TurnStarts();
    var w := Talking(NewTx(Preparing("q", None), OWNER, 0, 0));
    ReachableStep(w, EPrepare(1));
    var tx := Turn(Running("q", None)).(granted := {});
    assert w.txs[1 := tx] == map[9 := STALE][1 := tx];
    assert Step(w, EPrepare(1)) == Talking(tx);
  }

  lemma AgentAnswers()
    ensures Reachable(Talking(Turn(Proposing(ANSWER))))
  {
    TurnPrepares();
    var w := Talking(Turn(Running("q", None)).(granted := {}));
    ReachableStep(w, ERunAgent(1, GRANTS, ANSWER));
    assert Backed(ANSWER, GRANTS);
    assert w.txs[1 := Turn(Proposing(ANSWER))] == map[9 := STALE][1 := Turn(Proposing(ANSWER))];
    assert Step(w, ERunAgent(1, GRANTS, ANSWER)) == Talking(Turn(Proposing(ANSWER)));
  }

  lemma TurnInserts()
    ensures Reachable(Talking(InsertTx(Turn(Inserting(ANSWER)), 0)))
  {
    AgentAnswers();
    var w := Talking(Turn(Proposing(ANSWER)));
    ReachableStep(w, EPropose(1));
    var v := Talking(Turn(Inserting(ANSWER)));
    assert w.txs[1 := Turn(Inserting(ANSWER))] == v.txs;
    assert Step(w, EPropose(1)) == v;
    TurnInsertsRow(v);
  }

  lemma TurnInsertsRow(v: World)
    requires v == Talking(Turn(Inserting(ANSWER))) && Reachable(v)
    ensures Reachable(Talking(InsertTx(Turn(Inserting(ANSWER)), 0)))
  {
    ReachableStep(v, EInsert(1, 0));
    var tx := InsertTx(Turn(Inserting(ANSWER)), 0);
    assert v.txs[1 := tx] == map[9 := STALE][1 := tx];
    assert Step(v, EInsert(1, 0)) == Talking(tx);
  }

  lemma TurnCommits(w: World)
    requires w == Talking(InsertTx(Turn(Inserting(ANSWER)), 0))
    ensures CompleteTurn(w, 1) == Waiting(Ready, map[9 := STALE], [FIRST], multiset{})
  {
    var tx := w.txs[1];
    assert w.txs - {1} == map[9 := STALE];
    assert [] + tx.trail == [WasProposed];
    assert CommitRow(w, tx) == w.(actions := map[0 := PENDING], audit := map[0 := [WasProposed]]);
    assert [] + (tx.messages + [Message(Assistant, ANSWER.answer)]) == TITLED.messages;
    assert CommitTurn(w, 0, tx.title, tx.messages + [Message(Assistant, ANSWER.answer)], None).conversations
        == map[0 := TITLED];
  }

  lemma ActionIsPending()
    ensures Reachable(Waiting(Ready, map[9 := STALE], [FIRST], multiset{}))
  {
    TurnInserts();
    var w := Talking(InsertTx(Turn(Inserting(ANSWER)), 0));
    TurnCommits(w);
    ReachableStep(w, ECompleteTurn(1));
  }

  // ---- confirming ----

  lemma Claims(status: ShipmentStatus, txs: map<TxId, Tx>, writes: seq<Write>, orphans: multiset<ActionId>)
    requires txs == map[9 := STALE] || txs == map[]
    requires Reachable(Waiting(status, txs, writes, orphans))
    ensures Reachable(Waiting(status, txs[1 := Held(ReadingShipment)], writes, orphans))
  {
    var w := Waiting(status, txs, writes, orphans);
    var tx := NewTx(Claiming, OWNER, 0, 0).(granted := GRANTS);
    ReachableStep(w, EConfirmStart(1, OWNER, 0, GRANTS));
    assert Step(w, EConfirmStart(1, OWNER, 0, GRANTS)) == Waiting(status, txs[1 := tx], writes, orphans);
    ClaimsRow(status, txs, writes, orphans, tx);
  }

  lemma ClaimsRow(status: ShipmentStatus, txs: map<TxId, Tx>, writes: seq<Write>, orphans: multiset<ActionId>, tx: Tx)
    requires txs == map[9 := STALE] || txs == map[]
    requires tx == NewTx(Claiming, OWNER, 0, 0).(granted := GRANTS)
    requires Reachable(Waiting(status, txs[1 := tx], writes, orphans))
    ensures Reachable(Waiting(status, txs[1 := Held(ReadingShipment)], writes, orphans))
  {
    var v := Waiting(status, txs[1 := tx], writes, orphans);
    ReachableStep(v, EClaim(1, 0));
    RowIsClaimed(v, status, txs, writes, orphans, tx);
  }

  lemma RowIsClaimed(v: World, status: ShipmentStatus, txs: map<TxId, Tx>, writes: seq<Write>,
                     orphans: multiset<ActionId>, tx: Tx)
    requires txs == map[9 := STALE] || txs == map[]
    requires tx == NewTx(Claiming, OWNER, 0, 0).(granted := GRANTS)
    requires v == Waiting(status, txs[1 := tx], writes, orphans)
    ensures ClaimRow(v, 1, 0) == Waiting(status, txs[1 := Held(ReadingShipment)], writes, orphans)
  {
    assert tx.trail + [WasConfirmed] == [WasConfirmed];
    assert ClaimedTx(tx, PENDING, 0) == Held(ReadingShipment);
    assert v.txs[1 := Held(ReadingShipment)] == txs[1 := Held(ReadingShipment)];
  }

  lemma Reads(txs: map<TxId, Tx>, writes: seq<Write>, orphans: multiset<ActionId>)
    requires Reachable(Waiting(Ready, txs[1 := Held(ReadingShipment)], writes, orphans))
    ensures Reachable(Waiting(Ready, txs[1 := Held(UseCaseReading(ShipmentIn(Ready)))], writes, orphans))
  {
    var w := Waiting(Ready, txs[1 := Held(ReadingShipment)], writes, orphans);
    ReachableStep(w, EReadShipment(1, 0));
    ShipmentIsRead(w, txs, writes, orphans);
  }

  lemma ShipmentIsRead(w: World, txs: map<TxId, Tx>, writes: seq<Write>, orphans: multiset<ActionId>)
    requires w == Waiting(Ready, txs[1 := Held(ReadingShipment)], writes, orphans)
    ensures ReadShipment(w, 1, 0)
            == Waiting(Ready, txs[1 := Held(UseCaseReading(ShipmentIn(Ready)))], writes, orphans)
  {
    var tx := Held(UseCaseReading(ShipmentIn(Ready)));
    assert w.txs[1 := tx] == txs[1 := tx];
  }

  lemma Loads(txs: map<TxId, Tx>, writes: seq<Write>, orphans: multiset<ActionId>)
    requires Reachable(Waiting(Ready, txs[1 := Held(UseCaseReading(ShipmentIn(Ready)))], writes, orphans))
    ensures Reachable(Waiting(Ready, txs[1 := Held(UseCaseWriting(ShipmentIn(Ready), ShipmentIn(Ready)))], writes,
                              orphans))
  {
    var w := Waiting(Ready, txs[1 := Held(UseCaseReading(ShipmentIn(Ready)))], writes, orphans);
    ReachableStep(w, EUseCaseRead(1, 0));
    ShipmentIsLoaded(w, txs, writes, orphans);
  }

  lemma ShipmentIsLoaded(w: World, txs: map<TxId, Tx>, writes: seq<Write>, orphans: multiset<ActionId>)
    requires w == Waiting(Ready, txs[1 := Held(UseCaseReading(ShipmentIn(Ready)))], writes, orphans)
    ensures UseCaseRead(w, 1, 0)
            == Waiting(Ready, txs[1 := Held(UseCaseWriting(ShipmentIn(Ready), ShipmentIn(Ready)))], writes, orphans)
  {
    var tx := Held(UseCaseWriting(ShipmentIn(Ready), ShipmentIn(Ready)));
    assert w.txs[1 := tx] == txs[1 := tx];
  }

  /** With the shipment ready, the claimed action takes effect. */
  lemma TakesEffect(txs: map<TxId, Tx>, writes: seq<Write>, orphans: multiset<ActionId>)
    requires Reachable(Waiting(Ready, txs[1 := Held(ReadingShipment)], writes, orphans))
    ensures Reachable(Waiting(InTransit, txs[1 := Held(DONE)], writes + [EFFECT], orphans))
  {
    Reads(txs, writes, orphans);
    Loads(txs, writes, orphans);
    var w := Waiting(Ready, txs[1 := Held(UseCaseWriting(ShipmentIn(Ready), ShipmentIn(Ready)))], writes, orphans);
    ReachableStep(w, EUseCaseWrite(1));
    Writes(w, txs, writes, orphans);
  }

  lemma Writes(w: World, txs: map<TxId, Tx>, writes: seq<Write>, orphans: multiset<ActionId>)
    requires w == Waiting(Ready, txs[1 := Held(UseCaseWriting(ShipmentIn(Ready), ShipmentIn(Ready)))], writes, orphans)
    ensures UseCaseWrite(w, 1) == Waiting(InTransit, txs[1 := Held(DONE)], writes + [EFFECT], orphans)
  {
    assert w.txs[1 := Held(DONE)] == txs[1 := Held(DONE)];
    assert w.shipments[0 := ShipmentIn(InTransit)] == map[0 := ShipmentIn(InTransit)];
  }

  /** The request dies before committing the action row. */
  lemma Orphaned()
    ensures Reachable(Waiting(InTransit, map[9 := STALE], [FIRST, EFFECT], multiset{0}))
  {
    ActionIsPending();
    Claims(Ready, map[9 := STALE], [FIRST], multiset{});
    TakesEffect(map[9 := STALE], [FIRST], multiset{});
    assert [FIRST] + [EFFECT] == [FIRST, EFFECT];
    Crashes();
  }

  lemma Crashes()
    requires Reachable(Waiting(InTransit, map[9 := STALE][1 := Held(DONE)], [FIRST, EFFECT], multiset{}))
    ensures Reachable(Waiting(InTransit, map[9 := STALE], [FIRST, EFFECT], multiset{0}))
  {
    var w := Waiting(InTransit, map[9 := STALE][1 := Held(DONE)], [FIRST, EFFECT], multiset{});
    ReachableStep(w, ECrash(1));
    assert w.txs - {1} == map[9 := STALE];
    assert Step(w, ECrash(1)) == Waiting(InTransit, map[9 := STALE], [FIRST, EFFECT], multiset{0});
  }

  // ---- what can happen after an orphaned effect ----

  const FAILED := MarkFailed(Claim(PENDING, 0), StatusMoved, 0)

  lemma RetryFails()
    ensures Reachable(Waiting(InTransit, map[9 := STALE], [FIRST, EFFECT], multiset{0}).(
                        actions := map[0 := FAILED], audit := map[0 := TrailFor(Failed)]))
  {
    Orphaned();
    Claims(InTransit, map[9 := STALE], [FIRST, EFFECT], multiset{0});
    var w := Waiting(InTransit, map[9 := STALE][1 := Held(ReadingShipment)], [FIRST, EFFECT], multiset{0});
    var tx := Held(Committing(None)).(row := Some(FAILED), trail := [WasConfirmed] + [WasFailed]);
    ReachableStep(w, EReadShipment(1, 0));
    CheckFails(w, tx);
    FailureCommits(w.(txs := map[9 := STALE][1 := tx]), tx);
  }

  lemma CheckFails(w: World, tx: Tx)
    requires w == Waiting(InTransit, map[9 := STALE][1 := Held(ReadingShipment)], [FIRST, EFFECT], multiset{0})
    requires tx == Held(Committing(None)).(row := Some(FAILED), trail := [WasConfirmed] + [WasFailed])
    ensures ReadShipment(w, 1, 0) == w.(txs := map[9 := STALE][1 := tx])
  {
    assert w.txs[1 := tx] == map[9 := STALE][1 := tx];
  }

  lemma FailureCommits(w: World, tx: Tx)
    requires tx == Held(Committing(None)).(row := Some(FAILED), trail := [WasConfirmed] + [WasFailed])
    requires w == Waiting(InTransit, map[9 := STALE][1 := tx], [FIRST, EFFECT], multiset{0}) && Reachable(w)
    ensures Reachable(Waiting(InTransit, map[9 := STALE], [FIRST, EFFECT], multiset{0}).(
                        actions := map[0 := FAILED], audit := map[0 := TrailFor(Failed)]))
  {
    ReachableStep(w, ECommitOutcome(1));
    FailureIsCommitted(w, tx);
  }

  lemma FailureIsCommitted(w: World, tx: Tx)
    requires tx == Held(Committing(None)).(row := Some(FAILED), trail := [WasConfirmed] + [WasFailed])
    requires w == Waiting(InTransit, map[9 := STALE][1 := tx], [FIRST, EFFECT], multiset{0})
    ensures CommitOutcome(w, 1) == Waiting(InTransit, map[9 := STALE], [FIRST, EFFECT], multiset{0}).(
                                     actions := map[0 := FAILED], audit := map[0 := TrailFor(Failed)])
  {
    assert w.txs - {1} == map[9 := STALE];
    assert [WasProposed] + tx.trail == TrailFor(Failed);
    assert w.actions[0 := FAILED] == map[0 := FAILED];
    assert w.audit[0 := TrailFor(Failed)] == map[0 := TrailFor(Failed)];
  }

  /** An action reported as failed may have changed the shipment: its first attempt was orphaned. */
  lemma FailedActionMayHaveTakenEffect()
    ensures exists w :: Reachable(w) && 0 in w.actions && w.actions[0].status.Failed?
                        && EffectsBy(w.writes, 0) == 1 && OthersFresh(w.writes, 0, 0)
  {
    RetryFails();
    var w := Waiting(InTransit, map[9 := STALE], [FIRST, EFFECT], multiset{0}).(
    actions := map[0 := FAILED], audit := map[0 := TrailFor(Failed)]);
    EffectsByAppend([], FIRST, 0);
    EffectsByAppend([FIRST], EFFECT, 0);
    assert [] + [FIRST] == [FIRST] && [FIRST] + [EFFECT] == w.writes;
  }

  lemma CountsTwice(ws: seq<Write>)
    requires ws == [FIRST, EFFECT, SECOND] + [EFFECT]
    ensures EffectsBy(ws, 0) == 2
  {
    EffectsByAppend([], FIRST, 0);
    EffectsByAppend([FIRST], EFFECT, 0);
    EffectsByAppend([FIRST, EFFECT], SECOND, 0);
    EffectsByAppend([FIRST, EFFECT, SECOND], EFFECT, 0);
    assert [] + [FIRST] == [FIRST] && [FIRST] + [EFFECT] == [FIRST, EFFECT];
    assert [FIRST, EFFECT] + [SECOND] == [FIRST, EFFECT, SECOND];
  }

  lemma OneIsStale(ws: seq<Write>)
    requires ws == [FIRST, EFFECT, SECOND] + [EFFECT]
    ensures StaleWrites(ws, 0, 0) == 1
  {
    StaleWritesAppend([], FIRST, 0, 0);
    StaleWritesAppend([FIRST], EFFECT, 0, 0);
    StaleWritesAppend([FIRST, EFFECT], SECOND, 0, 0);
    StaleWritesAppend([FIRST, EFFECT, SECOND], EFFECT, 0, 0);
    assert [] + [FIRST] == [FIRST] && [FIRST] + [EFFECT] == [FIRST, EFFECT];
    assert [FIRST, EFFECT] + [SECOND] == [FIRST, EFFECT, SECOND];
  }

  /**
   One stale status write brings the expected status back, and the retried transition takes effect again: the bound of
   one effect more than stale writes is reached.
   */
  lemma StaleWriteAllowsSecondEffect()
    ensures exists w :: Reachable(w) && IsTransition(w.actions, 0) && EffectsBy(w.writes, 0) == 2
                        && StaleWrites(w.writes, w.actions[0].proposal.shipment, 0) == 1
  {
    Orphaned();
    var w := Waiting(InTransit, map[9 := STALE], [FIRST, EFFECT], multiset{0});
    ReachableStep(w, EStatusWrite(9));
    StaleWriteLands(w);
    Claims(Ready, map[], [FIRST, EFFECT, SECOND], multiset{0});
    TakesEffect(map[], [FIRST, EFFECT, SECOND], multiset{0});
    CountsTwice([FIRST, EFFECT, SECOND] + [EFFECT]);
    OneIsStale([FIRST, EFFECT, SECOND] + [EFFECT]);
    var v := Waiting(InTransit, map[][1 := Held(DONE)], [FIRST, EFFECT, SECOND] + [EFFECT], multiset{0});
    assert IsTransition(v.actions, 0);
  }

  lemma StaleWriteLands(w: World)
    requires w == Waiting(InTransit, map[9 := STALE], [FIRST, EFFECT], multiset{0})
    ensures StatusWriteBack(w, 9) == Waiting(Ready, map[], [FIRST, EFFECT, SECOND], multiset{0})
  {
    assert w.txs - {9} == map[];
    assert [FIRST, EFFECT] + [SECOND] == [FIRST, EFFECT, SECOND];
    assert w.shipments[0 := ShipmentIn(Ready)] == map[0 := ShipmentIn(Ready)];
  }
}
