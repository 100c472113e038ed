/** One undisturbed request, as the services carry it out, is a run of the protocol's steps. */
module RequestTheorems {
  import opened Prelude
  import opened Authorization
  import opened Shipments
  import opened Actions
  import opened Conversations
  import opened Protocol
  import opened RequestSpec
  import History = ProtocolHistory
  import Attempts = ProtocolAttempts
  import Theorems = ProtocolTheorems

  function TablesOf(w: World): Tables {
    Tables(w.actions, w.audit, w.conversations)
  }

  // ---- confirm ----

  /** The steps of a confirmation; a step that is not enabled when its turn comes does nothing. */
  function ConfirmEvents(t: TxId, owner: Owner, id: ActionId, granted: set<Permission>, claimedAt: int, markedAt: int,
                         refused: bool): seq<Event>
  {
    [EConfirmStart(t, owner, id, granted), EClaim(t, claimedAt), EReadShipment(t, markedAt)]
    + (if refused then [EUseCaseRefuse(t, markedAt)] else [])
    + [EUseCaseRead(t, markedAt), EUseCaseWrite(t), EMarkExecuted(t, markedAt), ECommitOutcome(t)]
  }

  /** The same steps, composed. */
  ghost function ConfirmSteps(w: World, t: TxId, owner: Owner, id: ActionId, granted: set<Permission>,
                              claimedAt: int, markedAt: int, refused: bool): World
  {
    var claimed := ClaimRow(ConfirmStart(w, t, owner, id, granted), t, claimedAt);
    CommitOutcome(ExecuteSteps(claimed, t, markedAt, refused), t)
  }

  function ExecuteSteps(w: World, t: TxId, at: int, refused: bool): World {
    var seen := ReadShipment(w, t, at);
    var checked := if refused then UseCaseRefuse(seen, t, at) else seen;
    MarkRowExecuted(UseCaseWrite(UseCaseRead(checked, t, at), t), t, at)
  }

  lemma RunOne(w: World, events: seq<Event>, e: Event)
    ensures Run(w, events + [e]) == Step(Run(w, events), e)
  {
    assert (events + [e])[..|events|] == events;
  }

  lemma OnesFollow<T>(s: seq<T>, a: T, b: T)
    ensures s + [a, b] == s + [a] + [b]
  {
  }

  lemma RunTwo(w: World, events: seq<Event>, a: Event, b: Event)
    ensures Run(w, events + [a, b]) == Step(Step(Run(w, events), a), b)
  {
    OnesFollow(events, a, b);
    RunOne(w, events, a);
    RunOne(w, events + [a], b);
  }

  lemma ListsGrow<T>(a: T, b: T, c: T)
    ensures [a] == [] + [a] && [a, b] == [a] + [b] && [a, b, c] == [a, b] + [c]
  {
  }

  lemma RunThree(w: World, a: Event, b: Event, c: Event)
    ensures Run(w, [a, b, c]) == Step(Step(Step(w, a), b), c)
  {
    ListsGrow(a, b, c);
    RunOne(w, [], a);
    RunOne(w, [a], b);
    RunOne(w, [a, b], c);
  }

  lemma RunFour(w: World, events: seq<Event>, a: Event, b: Event, c: Event, d: Event)
    ensures Run(w, events + [a, b, c, d]) == Step(Step(Step(Step(Run(w, events), a), b), c), d)
  {
    PairsFollow(events, a, b, c, d);
    RunTwo(w, events, a, b);
    RunTwo(w, events + [a, b], c, d);
  }

  lemma PairsFollow<T>(s: seq<T>, a: T, b: T, c: T, d: T)
    ensures s + [a, b, c, d] == s + [a, b] + [c, d]
  {
  }

  lemma ClaimStepsAreRun(w: World, t: TxId, owner: Owner, id: ActionId, granted: set<Permission>, claimedAt: int,
                         markedAt: int, refused: bool)
    ensures var seen := ReadShipment(ClaimRow(ConfirmStart(w, t, owner, id, granted), t, claimedAt), t, markedAt);
            Run(w, [EConfirmStart(t, owner, id, granted), EClaim(t, claimedAt), EReadShipment(t, markedAt)]
                   + (if refused then [EUseCaseRefuse(t, markedAt)] else []))
            == if refused then UseCaseRefuse(seen, t, markedAt) else seen
  {
    var a, b, c := EConfirmStart(t, owner, id, granted), EClaim(t, claimedAt), EReadShipment(t, markedAt);
    RunThree(w, a, b, c);
    RunOne(w, [a, b, c], EUseCaseRefuse(t, markedAt));
    assert [a, b, c] + [] == [a, b, c];
  }

  lemma ConfirmStepsAreRun(w: World, t: TxId, owner: Owner, id: ActionId, granted: set<Permission>, claimedAt: int,
                           markedAt: int, refused: bool)
    ensures Run(w, ConfirmEvents(t, owner, id, granted, claimedAt, markedAt, refused))
            == ConfirmSteps(w, t, owner, id, granted, claimedAt, markedAt, refused)
  {
    var a, b, c := EConfirmStart(t, owner, id, granted), EClaim(t, claimedAt), EReadShipment(t, markedAt);
    ClaimStepsAreRun(w, t, owner, id, granted, claimedAt, markedAt, refused);
    var head := [a, b, c] + if refused then [EUseCaseRefuse(t, markedAt)] else [];
    RunFour(w, head, EUseCaseRead(t, markedAt), EUseCaseWrite(t), EMarkExecuted(t, markedAt), ECommitOutcome(t));
  }

  function ClaimedWorld(w: World, t: TxId, owner: Owner, id: ActionId, granted: set<Permission>, claimedAt: int): World
    requires id in w.actions
  {
    SetTx(w, t, ClaimedTx(NewTx(Claiming, owner, id, w.actions[id].conversation).(granted := granted), w.actions[id],
                          claimedAt))
  }

  lemma ClaimsWhenUndisturbed(w: World, t: TxId, owner: Owner, id: ActionId, granted: set<Permission>, claimedAt: int)
    requires t !in w.txs && !RowLocked(w.txs, t, id)
    ensures var refusal, v := ConfirmRefusal(Owned(TablesOf(w), owner, id), granted),
                              ClaimRow(ConfirmStart(w, t, owner, id, granted), t, claimedAt);
            if refusal.Some? then v == w
            else id in w.actions && v == ClaimedWorld(w, t, owner, id, granted, claimedAt)
  {
    if ConfirmRefusal(Owned(TablesOf(w), owner, id), granted).None? {
      var started := ConfirmStart(w, t, owner, id, granted);
      assert started.txs == w.txs[t := started.txs[t]];
      assert !RowLocked(started.txs, t, id);
    }
  }

  /** The claimed request, once it has failed or taken effect. */
  function SettledWorld(w: World, t: TxId, a: Action, markedAt: int, refused: bool): World
    requires t in w.txs
  {
    var tx, p := w.txs[t], a.proposal;
    var seen := Visible(w.shipments, p.shipment);
    match ExecutionFailure(p, seen, refused)
    case Some(reason) =>
      SetTx(w, t, tx.(pc := Committing(None), row := Some(MarkFailed(a, reason, markedAt)),
                      trail := tx.trail + [WasFailed]))
    case None =>
      var x := AgentWrite(tx.(pc := UseCaseWriting(seen.value, seen.value), row := Some(a)), seen.value);
      SetTx(w.(shipments := w.shipments[p.shipment := ExecutedShipment(p, seen.value)], writes := w.writes + [x]), t,
            tx.(pc := Committing(Some(ActionResult(Summary(p, seen.value)))),
                row := Some(MarkExecuted(a, Summary(p, seen.value), markedAt)),
                trail := tx.trail + [WasExecuted]))
  }

  lemma ExecutesWhenUndisturbed(w: World, t: TxId, a: Action, markedAt: int, refused: bool)
    requires At(w, t, ReadingShipment) && w.txs[t].row == Some(a) && a.status.Executing?
    ensures ExecuteSteps(w, t, markedAt, refused) == SettledWorld(w, t, a, markedAt, refused)
  {
    var p, seen := a.proposal, Visible(w.shipments, a.proposal.shipment);
    if ExpectationFailure(p, seen).Some? {
      FailureStays(w, t, a, markedAt, refused);
    } else {
      var read := SetTx(w, t, w.txs[t].(pc := UseCaseReading(seen.value)));
      assert ReadShipment(w, t, markedAt) == read;
      if ExecutionFailure(p, seen, refused).Some? {
        UseCaseFailureStays(w, read, t, a, markedAt, refused);
      } else {
        EffectTakesPlace(w, read, t, a, markedAt, refused);
      }
    }
  }

  lemma FailureStays(w: World, t: TxId, a: Action, at: int, refused: bool)
    requires At(w, t, ReadingShipment) && w.txs[t].row == Some(a) && a.status.Executing?
    requires ExpectationFailure(a.proposal, Visible(w.shipments, a.proposal.shipment)).Some?
    ensures ExecuteSteps(w, t, at, refused) == SettledWorld(w, t, a, at, refused)
  {
    var failed := ReadShipment(w, t, at);
    assert t in failed.txs && failed.txs[t].pc.Committing?;
    assert failed == SettledWorld(w, t, a, at, refused);
  }

  lemma UseCaseFailureStays(w: World, read: World, t: TxId, a: Action, at: int, refused: bool)
    requires At(w, t, ReadingShipment) && w.txs[t].row == Some(a) && a.status.Executing?
    requires Visible(w.shipments, a.proposal.shipment).Some? && ReadShipment(w, t, at) == read
    requires read == SetTx(w, t, w.txs[t].(pc := UseCaseReading(w.shipments[a.proposal.shipment])))
    requires ExpectationFailure(a.proposal, Visible(w.shipments, a.proposal.shipment)).None?
    requires ExecutionFailure(a.proposal, Visible(w.shipments, a.proposal.shipment), refused).Some?
    ensures ExecuteSteps(w, t, at, refused) == SettledWorld(w, t, a, at, refused)
  {
    var checked := if refused then UseCaseRefuse(read, t, at) else read;
    UseCaseFails(w, read, t, a, at, refused);
    SettledStays(UseCaseRead(checked, t, at), t, at);
  }

  lemma UseCaseFails(w: World, read: World, t: TxId, a: Action, at: int, refused: bool)
    requires At(w, t, ReadingShipment) && w.txs[t].row == Some(a) && a.status.Executing?
    requires Visible(w.shipments, a.proposal.shipment).Some?
    requires read == SetTx(w, t, w.txs[t].(pc := UseCaseReading(w.shipments[a.proposal.shipment])))
    requires ExpectationFailure(a.proposal, Visible(w.shipments, a.proposal.shipment)).None?
    requires ExecutionFailure(a.proposal, Visible(w.shipments, a.proposal.shipment), refused).Some?
    ensures var checked := if refused then UseCaseRefuse(read, t, at) else read;
            && UseCaseRead(checked, t, at) == SettledWorld(w, t, a, at, refused)
            && t in UseCaseRead(checked, t, at).txs && UseCaseRead(checked, t, at).txs[t].pc.Committing?
  {
    var failed := FailRow(read, t, ShipmentRefused, at);
    assert failed.txs == SettledWorld(w, t, a, at, refused).txs;
    if a.proposal.kind.UpdateNotes? {
      assert UseCaseRefuse(read, t, at) == failed;
    } else {
      assert refused ==> UseCaseRefuse(read, t, at) == read;
      assert UseCaseRead(read, t, at) == failed;
    }
  }

  lemma SettledStays(w: World, t: TxId, at: int)
    requires t in w.txs && w.txs[t].pc.Committing?
    ensures MarkRowExecuted(UseCaseWrite(w, t), t, at) == w
  {
  }

  lemma EffectTakesPlace(w: World, read: World, t: TxId, a: Action, at: int, refused: bool)
    requires At(w, t, ReadingShipment) && w.txs[t].row == Some(a) && a.status.Executing?
    requires Visible(w.shipments, a.proposal.shipment).Some? && ReadShipment(w, t, at) == read
    requires read == SetTx(w, t, w.txs[t].(pc := UseCaseReading(w.shipments[a.proposal.shipment])))
    requires ExecutionFailure(a.proposal, Visible(w.shipments, a.proposal.shipment), refused).None?
    ensures ExecuteSteps(w, t, at, refused) == SettledWorld(w, t, a, at, refused)
  {
    var checked := if refused then UseCaseRefuse(read, t, at) else read;
    assert checked == read;
    UseCaseLoads(w, read, t, a, at, refused);
    EffectIsMarked(w, UseCaseRead(read, t, at), t, a, at, refused);
  }

  lemma UseCaseLoads(w: World, read: World, t: TxId, a: Action, at: int, refused: bool)
    requires t in w.txs && w.txs[t].row == Some(a) && Visible(w.shipments, a.proposal.shipment).Some?
    requires read == SetTx(w, t, w.txs[t].(pc := UseCaseReading(w.shipments[a.proposal.shipment])))
    requires ExecutionFailure(a.proposal, Visible(w.shipments, a.proposal.shipment), refused).None?
    ensures var s := w.shipments[a.proposal.shipment];
            UseCaseRead(read, t, at) == SetTx(w, t, w.txs[t].(pc := UseCaseWriting(s, s)))
  {
    var s := w.shipments[a.proposal.shipment];
    assert read.txs[t := w.txs[t].(pc := UseCaseWriting(s, s))] == w.txs[t := w.txs[t].(pc := UseCaseWriting(s, s))];
  }

  lemma EffectIsMarked(w: World, writing: World, t: TxId, a: Action, at: int, refused: bool)
    requires t in w.txs && w.txs[t].row == Some(a) && a.status.Executing?
    requires Visible(w.shipments, a.proposal.shipment).Some?
    requires var s := w.shipments[a.proposal.shipment];
             writing == SetTx(w, t, w.txs[t].(pc := UseCaseWriting(s, s)))
    requires ExecutionFailure(a.proposal, Visible(w.shipments, a.proposal.shipment), refused).None?
    ensures MarkRowExecuted(UseCaseWrite(writing, t), t, at) == SettledWorld(w, t, a, at, refused)
  {
    var s := w.shipments[a.proposal.shipment];
    var written := UseCaseWrite(writing, t);
    assert written.txs == w.txs[t := w.txs[t].(pc := MarkingExecuted(Summary(a.proposal, s)))];
    var marked := MarkRowExecuted(written, t, at);
    assert marked.txs == SettledWorld(w, t, a, at, refused).txs;
  }

  /** The request has left the tables and shipments the service leaves, and answers if it changed anything. */
  predicate Leaves(v: World, t: TxId, done: Confirmation) {
    && TablesOf(v) == done.tables && v.shipments == done.shipments
    && (t in v.txs <==> done.reply.Ok? && done.reply.value.changed)
    && (t in v.txs ==> done.reply.value.action.result.Some?
                       && v.txs[t].pc == Notifying(ActionResult(done.reply.value.action.result.value)))
  }

  /**
   A confirmation that nothing disturbs, run through the protocol's steps, leaves the tables and the shipments that
   the service leaves, and goes on to answer in the conversation exactly if it changed the action.
   */
  lemma ConfirmationFollowsProtocol(w: World, t: TxId, owner: Owner, id: ActionId, granted: set<Permission>,
                                    claimedAt: int, markedAt: int, refused: bool)
    requires t !in w.txs && !RowLocked(w.txs, t, id)
    ensures Leaves(Run(w, ConfirmEvents(t, owner, id, granted, claimedAt, markedAt, refused)), t,
                   ConfirmationOf(TablesOf(w), w.shipments, owner, id, granted, claimedAt, markedAt, false, refused))
  {
    ConfirmStepsAreRun(w, t, owner, id, granted, claimedAt, markedAt, refused);
    ConfirmStepsLeave(w, t, owner, id, granted, claimedAt, markedAt, refused);
  }

  lemma AbsentStays(w: World, t: TxId, at: int, refused: bool)
    requires t !in w.txs
    ensures CommitOutcome(ExecuteSteps(w, t, at, refused), t) == w
  {
  }

  lemma ConfirmStepsLeave(w: World, t: TxId, owner: Owner, id: ActionId, granted: set<Permission>, claimedAt: int,
                          markedAt: int, refused: bool)
    requires t !in w.txs && !RowLocked(w.txs, t, id)
    ensures Leaves(ConfirmSteps(w, t, owner, id, granted, claimedAt, markedAt, refused), t,
                   ConfirmationOf(TablesOf(w), w.shipments, owner, id, granted, claimedAt, markedAt, false, refused))
  {
    ClaimsWhenUndisturbed(w, t, owner, id, granted, claimedAt);
    if ConfirmRefusal(Owned(TablesOf(w), owner, id), granted).Some? {
      AbsentStays(w, t, markedAt, refused);
    } else {
      var claimed := ClaimedWorld(w, t, owner, id, granted, claimedAt);
      ExecutesWhenUndisturbed(claimed, t, claimed.txs[t].row.value, markedAt, refused);
      SettledCommits(w, t, owner, id, granted, claimedAt, markedAt, refused);
    }
  }

  lemma RecordedTwice(tables: Tables, id: ActionId, first: AuditEvent, second: AuditEvent)
    ensures Recorded(Recorded(tables, id, first), id, second)
            == tables.(audit := tables.audit[id := Trail(tables.audit, id) + [first, second]])
  {
    var past := Trail(tables.audit, id);
    assert past + [first, second] == past + [first] + [second];
  }

  lemma RowRecords(w: World, tx: Tx, first: AuditEvent, second: AuditEvent)
    requires tx.row.Some? && tx.trail == [first, second]
    ensures TablesOf(CommitRow(w, tx))
            == Recorded(Recorded(Stored(TablesOf(w), tx.action, tx.row.value), tx.action, first), tx.action, second)
  {
    RecordedTwice(Stored(TablesOf(w), tx.action, tx.row.value), tx.action, first, second);
  }

  /** Committing a request's one row and its trail. */
  lemma RowCommits(w: World, t: TxId, first: AuditEvent, second: AuditEvent)
    requires t in w.txs && w.txs[t].pc.Committing? && w.txs[t].row.Some?
    requires w.txs[t].trail == [first, second]
    ensures var v, tx := CommitOutcome(w, t), w.txs[t];
            && TablesOf(v)
               == Recorded(Recorded(Stored(TablesOf(w), tx.action, tx.row.value), tx.action, first), tx.action, second)
            && v.shipments == w.shipments
            && (t in v.txs <==> tx.pc.reply.Some?)
            && (t in v.txs ==> v.txs[t].pc == Notifying(tx.pc.reply.value))
  {
    RowRecords(w, w.txs[t], first, second);
    assert TablesOf(CommitOutcome(w, t)) == TablesOf(CommitRow(w, w.txs[t]));
  }

  lemma SettledCommits(w: World, t: TxId, owner: Owner, id: ActionId, granted: set<Permission>, claimedAt: int,
                       markedAt: int, refused: bool)
    requires t !in w.txs && id in w.actions
    ensures var claimed := ClaimedWorld(w, t, owner, id, granted, claimedAt);
            Leaves(CommitOutcome(SettledWorld(claimed, t, Claim(w.actions[id], claimedAt), markedAt, refused), t), t,
                   ExecutionOf(TablesOf(w), w.shipments, id, w.actions[id], claimedAt, markedAt, refused))
  {
    var claimed := ClaimedWorld(w, t, owner, id, granted, claimedAt);
    var settled := SettledWorld(claimed, t, Claim(w.actions[id], claimedAt), markedAt, refused);
    var p := w.actions[id].proposal;
    if ExecutionFailure(p, Visible(w.shipments, p.shipment), refused).Some? {
      assert settled.txs[t].trail == [WasConfirmed, WasFailed];
      RowCommits(settled, t, WasConfirmed, WasFailed);
    } else {
      assert settled.txs[t].trail == [WasConfirmed, WasExecuted];
      RowCommits(settled, t, WasConfirmed, WasExecuted);
    }
  }

  /** What the shipment must be for a confirmation to take effect: as the proposal expects, and not refused. */
  predicate TakesEffect(p: Proposal, shipments: map<ShipmentId, Shipment>, refused: bool) {
    Attempts.IsExpected(p, shipments) && !(refused && p.kind.UpdateNotes?)
  }

  lemma ExecutesExactlyWhenExpected(p: Proposal, shipments: map<ShipmentId, Shipment>, refused: bool)
    requires AsksForChange(p)
    ensures ExecutionFailure(p, Visible(shipments, p.shipment), refused).None? <==> TakesEffect(p, shipments, refused)
  {
  }

  lemma SettledEffects(w: World, t: TxId, a: Action, markedAt: int, refused: bool)
    requires t in w.txs && AsksForChange(a.proposal)
    ensures var v := SettledWorld(w, t, a, markedAt, refused);
            && t in v.txs && v.txs[t].pc.Committing? && v.txs[t].row.Some? && v.txs[t].action == w.txs[t].action
            && History.EffectsBy(v.writes, w.txs[t].action)
               == History.EffectsBy(w.writes, w.txs[t].action)
                  + (if TakesEffect(a.proposal, w.shipments, refused) then 1 else 0)
            && v.txs[t].row.value.status
               == if TakesEffect(a.proposal, w.shipments, refused) then ActionStatus.Executed else ActionStatus.Failed
  {
    var p := a.proposal;
    ExecutesExactlyWhenExpected(p, w.shipments, refused);
    if TakesEffect(p, w.shipments, refused) {
      var s := w.shipments[p.shipment];
      History.EffectsByAppend(w.writes, AgentWrite(w.txs[t].(pc := UseCaseWriting(s, s), row := Some(a)), s),
                              w.txs[t].action);
    }
  }

  /** The guard a caller can check: an undisturbed confirmation of a pending action takes effect, and executes it. */
  lemma ConfirmStepsTakeEffect(w: World, t: TxId, id: ActionId, granted: set<Permission>, claimedAt: int,
                               markedAt: int, refused: bool)
    requires t !in w.txs && !RowLocked(w.txs, t, id) && id in w.actions && AsksForChange(w.actions[id].proposal)
    requires w.actions[id].status.PendingConfirmation? && MayConfirm(w.actions[id].proposal.kind, granted)
    ensures var v := ConfirmSteps(w, t, w.actions[id].owner, id, granted, claimedAt, markedAt, refused);
            var takes := TakesEffect(w.actions[id].proposal, w.shipments, refused);
            && History.EffectsBy(v.writes, id) == History.EffectsBy(w.writes, id) + (if takes then 1 else 0)
            && id in v.actions && v.actions[id].status == if takes then ActionStatus.Executed else ActionStatus.Failed
  {
    ClaimsWhenUndisturbed(w, t, w.actions[id].owner, id, granted, claimedAt);
    var claimed := ClaimedWorld(w, t, w.actions[id].owner, id, granted, claimedAt);
    ExecutesWhenUndisturbed(claimed, t, claimed.txs[t].row.value, markedAt, refused);
    SettledEffects(claimed, t, claimed.txs[t].row.value, markedAt, refused);
    OutcomeIsCommitted(SettledWorld(claimed, t, claimed.txs[t].row.value, markedAt, refused), t);
  }

  lemma OutcomeIsCommitted(w: World, t: TxId)
    requires t in w.txs && w.txs[t].pc.Committing? && w.txs[t].row.Some?
    ensures CommitOutcome(w, t).writes == w.writes
    ensures w.txs[t].action in CommitOutcome(w, t).actions
    ensures CommitOutcome(w, t).actions[w.txs[t].action] == w.txs[t].row.value
  {
  }

  /** The two permissions that the conversation route checks for each kind of change. */
  predicate HasPermissions(kind: ActionKind, granted: set<Permission>) {
    && ShipmentRead in granted
    && match kind
       case TransitionStatus => ShipmentTransition in granted
       case UpdateNotes => ShipmentUpdate in granted
  }

  lemma PermissionsAreNamed(kind: ActionKind, granted: set<Permission>)
    ensures MayConfirm(kind, granted) <==> HasPermissions(kind, granted)
  {
  }

  /** The shipment a confirmed change leaves: the proposed status or the proposed notes, and nothing else changed. */
  function Changed(p: Proposal, s: Shipment): Shipment
    requires AsksForChange(p)
  {
    match p.kind
    case TransitionStatus => Shipment(p.targetStatus.value, s.notes, s.details)
    case UpdateNotes => Shipment(s.status, p.newNotes, s.details)
  }

  /** The row of a confirmed action whose change took place. */
  function DoneRow(a: Action, trackingNumber: string, claimedAt: int, markedAt: int): Action
    requires AsksForChange(a.proposal)
  {
    var p := a.proposal;
    var result := match p.kind
                  case TransitionStatus => StatusChanged(trackingNumber, p.expectedStatus, p.targetStatus.value)
                  case UpdateNotes => NotesReplaced(trackingNumber);
    Action(a.owner, a.conversation, p, ActionStatus.Executed, Some(result), a.failure, Some(claimedAt), Some(markedAt),
           a.cancelledAt, a.failedAt)
  }

  /** The row of a confirmed action whose change did not take place. */
  function FailedRow(a: Action, reason: FailureReason, claimedAt: int, markedAt: int): Action {
    Action(a.owner, a.conversation, a.proposal, ActionStatus.Failed, a.result, Some(reason), Some(claimedAt),
           a.executedAt, a.cancelledAt, Some(markedAt))
  }

  /** Why the change does not take place: the shipment is gone, or not as expected, or its update is refused. */
  function Obstacle(p: Proposal, shipments: map<ShipmentId, Shipment>): FailureReason {
    if p.shipment !in shipments then ShipmentRefused
    else if p.kind.TransitionStatus? && shipments[p.shipment].status != p.expectedStatus then StatusMoved
    else if p.kind.UpdateNotes? && shipments[p.shipment].notes != p.expectedNotes then NotesMoved
    else ShipmentRefused
  }

  /** What the execution of a claimed action leaves: the change and an executed row, or a failed row and no change. */
  predicate Executes(tables: Tables, shipments: map<ShipmentId, Shipment>, id: ActionId, a: Action, claimedAt: int,
                     markedAt: int, refused: bool, done: Confirmation)
    requires AsksForChange(a.proposal)
  {
    var p, past := a.proposal, Trail(tables.audit, id);
    if TakesEffect(p, shipments, refused) then
      var row := DoneRow(a, shipments[p.shipment].details.trackingNumber, claimedAt, markedAt);
      && done.tables == Tables(tables.actions[id := row], tables.audit[id := past + [WasConfirmed, WasExecuted]],
                               tables.conversations)
      && done.shipments == shipments[p.shipment := Changed(p, shipments[p.shipment])]
      && done.reply == Ok(Mutation(row, true))
    else
      var row := FailedRow(a, Obstacle(p, shipments), claimedAt, markedAt);
      && done.tables == Tables(tables.actions[id := row], tables.audit[id := past + [WasConfirmed, WasFailed]],
                               tables.conversations)
      && done.shipments == shipments
      && done.reply == Err(ExecutionFailed(Obstacle(p, shipments)))
  }

  lemma ExecutionLeaves(tables: Tables, shipments: map<ShipmentId, Shipment>, id: ActionId, a: Action, claimedAt: int,
                        markedAt: int, refused: bool)
    requires AsksForChange(a.proposal)
    ensures Executes(tables, shipments, id, a, claimedAt, markedAt, refused,
                     ExecutionOf(tables, shipments, id, a, claimedAt, markedAt, refused))
  {
    var p, past := a.proposal, Trail(tables.audit, id);
    ExecutesExactlyWhenExpected(p, shipments, refused);
    if TakesEffect(p, shipments, refused) {
      var row := DoneRow(a, shipments[p.shipment].details.trackingNumber, claimedAt, markedAt);
      RecordedTwice(Stored(tables, id, row), id, WasConfirmed, WasExecuted);
    } else {
      var row := FailedRow(a, Obstacle(p, shipments), claimedAt, markedAt);
      RecordedTwice(Stored(tables, id, row), id, WasConfirmed, WasFailed);
    }
  }

  /** The world after the confirmation of a pending action: its change, row, trail and answer, and nothing else. */
  ghost predicate Settles(w: World, v: World, t: TxId, id: ActionId, claimedAt: int, markedAt: int, refused: bool)
    requires id in w.actions && AsksForChange(w.actions[id].proposal)
  {
    var a, p := w.actions[id], w.actions[id].proposal;
    && v.conversations == w.conversations
    && if TakesEffect(p, w.shipments, refused) then
         var row := DoneRow(a, w.shipments[p.shipment].details.trackingNumber, claimedAt, markedAt);
         && v.shipments == w.shipments[p.shipment := Changed(p, w.shipments[p.shipment])]
         && v.actions == w.actions[id := row]
         && v.audit == w.audit[id := [WasProposed, WasConfirmed, WasExecuted]]
         && History.EffectsBy(v.writes, id) == History.EffectsBy(w.writes, id) + 1
         && At(v, t, Notifying(ActionResult(row.result.value)))
       else
         && v.shipments == w.shipments
         && v.actions == w.actions[id := FailedRow(a, Obstacle(p, w.shipments), claimedAt, markedAt)]
         && v.audit == w.audit[id := [WasProposed, WasConfirmed, WasFailed]]
         && History.EffectsBy(v.writes, id) == History.EffectsBy(w.writes, id)
         && t !in v.txs
  }

  lemma LeavingSettles(w: World, v: World, t: TxId, id: ActionId, claimedAt: int, markedAt: int, refused: bool,
                       done: Confirmation)
    requires id in w.actions && AsksForChange(w.actions[id].proposal)
    requires id in w.audit && w.audit[id] == [WasProposed]
    requires Leaves(v, t, done)
    requires Executes(TablesOf(w), w.shipments, id, w.actions[id], claimedAt, markedAt, refused, done)
    requires History.EffectsBy(v.writes, id)
             == History.EffectsBy(w.writes, id)
                + (if TakesEffect(w.actions[id].proposal, w.shipments, refused) then 1 else 0)
    ensures Settles(w, v, t, id, claimedAt, markedAt, refused)
  {
    assert [WasProposed] + [WasConfirmed, WasExecuted] == [WasProposed, WasConfirmed, WasExecuted];
    assert [WasProposed] + [WasConfirmed, WasFailed] == [WasProposed, WasConfirmed, WasFailed];
  }

  /**
   The exact guard, which a caller can check before confirming: in every reachable state an undisturbed confirmation of
   a pending action by its permitted owner carries out the proposed change, and only that, if the shipment is in the
   state the proposal expects (and, for notes, no other check of the update objects), and otherwise changes no
   shipment and records why. It does so however often the action took effect before. The action's row, its
   trail and the request's answer are given in full; no other row, trail or conversation changes.
   */
  lemma ConfirmationTakesEffectExactlyWhenExpected(w: World, t: TxId, id: ActionId, granted: set<Permission>,
                                                   claimedAt: int, markedAt: int, refused: bool)
    requires Reachable(w) && t !in w.txs && id in w.actions
    requires forall u :: u in w.txs && w.txs[u].row.Some? ==> w.txs[u].action != id
    requires w.actions[id].status.PendingConfirmation? && HasPermissions(w.actions[id].proposal.kind, granted)
    ensures AsksForChange(w.actions[id].proposal)
    ensures Settles(w, Run(w, ConfirmEvents(t, w.actions[id].owner, id, granted, claimedAt, markedAt, refused)), t, id,
                    claimedAt, markedAt, refused)
  {
    Theorems.StoredProposalAsks(w, id);
    Theorems.CommittedRowsAtRest(w);
    ConfirmStepsAreRun(w, t, w.actions[id].owner, id, granted, claimedAt, markedAt, refused);
    ConfirmStepsSettle(w, t, id, granted, claimedAt, markedAt, refused);
  }

  lemma ConfirmStepsSettle(w: World, t: TxId, id: ActionId, granted: set<Permission>, claimedAt: int, markedAt: int,
                           refused: bool)
    requires t !in w.txs && !RowLocked(w.txs, t, id) && id in w.actions && AsksForChange(w.actions[id].proposal)
    requires id in w.audit && w.audit[id] == [WasProposed]
    requires w.actions[id].status.PendingConfirmation? && HasPermissions(w.actions[id].proposal.kind, granted)
    ensures Settles(w, ConfirmSteps(w, t, w.actions[id].owner, id, granted, claimedAt, markedAt, refused), t, id,
                    claimedAt, markedAt, refused)
  {
    var a := w.actions[id];
    PermissionsAreNamed(a.proposal.kind, granted);
    ConfirmStepsTakeEffect(w, t, id, granted, claimedAt, markedAt, refused);
    ConfirmStepsLeave(w, t, a.owner, id, granted, claimedAt, markedAt, refused);
    ExecutionLeaves(TablesOf(w), w.shipments, id, a, claimedAt, markedAt, refused);
    LeavingSettles(w, ConfirmSteps(w, t, a.owner, id, granted, claimedAt, markedAt, refused), t, id, claimedAt,
                   markedAt, refused, ExecutionOf(TablesOf(w), w.shipments, id, a, claimedAt, markedAt, refused));
  }

  /**
   No one else's confirmation does anything: of an action the caller does not own or lacks a permission for, or that is
   no longer pending.
   */
  lemma RefusedConfirmationChangesNothing(w: World, t: TxId, owner: Owner, id: ActionId, granted: set<Permission>,
                                          claimedAt: int, markedAt: int, refused: bool)
    requires t !in w.txs
    requires id !in w.actions || w.actions[id].owner != owner
             || !HasPermissions(w.actions[id].proposal.kind, granted) || !w.actions[id].status.PendingConfirmation?
    ensures Run(w, ConfirmEvents(t, owner, id, granted, claimedAt, markedAt, refused)) == w
  {
    if id in w.actions {
      PermissionsAreNamed(w.actions[id].proposal.kind, granted);
    }
    ConfirmStepsAreRun(w, t, owner, id, granted, claimedAt, markedAt, refused);
    assert ConfirmStart(w, t, owner, id, granted) == w && ClaimRow(w, t, claimedAt) == w;
    AbsentStays(w, t, markedAt, refused);
  }

  /** How each confirmation is answered, and that only a claimed one changes anything. */
  lemma ConfirmationAnswers(tables: Tables, shipments: map<ShipmentId, Shipment>, owner: Owner, id: ActionId,
                            granted: set<Permission>, claimedAt: int, markedAt: int, contended: bool, refused: bool)
    requires id in tables.actions ==> AsksForChange(tables.actions[id].proposal)
    ensures var done := ConfirmationOf(tables, shipments, owner, id, granted, claimedAt, markedAt, contended, refused);
            if id !in tables.actions || tables.actions[id].owner != owner then
              done == Confirmation(tables, shipments, Err(ActionNotFound))
            else if !HasPermissions(tables.actions[id].proposal.kind, granted) then
              done == Confirmation(tables, shipments, Err(PermissionDenied))
            else match tables.actions[id].status
              case PendingConfirmation =>
                if contended then done == Confirmation(tables, shipments, Err(ActionInProgress))
                else Executes(tables, shipments, id, tables.actions[id], claimedAt, markedAt, refused, done)
              case Executing => done == Confirmation(tables, shipments, Err(ActionInProgress))
              case Executed => done == Confirmation(tables, shipments, Ok(Mutation(tables.actions[id], false)))
              case Failed => done == Confirmation(tables, shipments, Err(ActionConflict(ActionStatus.Failed)))
              case CancelledByUser =>
                done == Confirmation(tables, shipments, Err(ActionConflict(CancelledByUser)))
  {
    if id in tables.actions {
      PermissionsAreNamed(tables.actions[id].proposal.kind, granted);
      ExecutionLeaves(tables, shipments, id, tables.actions[id], claimedAt, markedAt, refused);
    }
  }

  /**
   Once a confirmation has claimed its action, confirming again changes no table and no shipment: an executed action is
   returned as it is, a failed one is a conflict.
   */
  lemma SecondConfirmationChangesNothing(tables: Tables, shipments: map<ShipmentId, Shipment>, owner: Owner,
                                         id: ActionId, granted: set<Permission>, claimedAt: int, markedAt: int,
                                         refused: bool, claimedAgain: int, markedAgain: int, contended: bool,
                                         refusedAgain: bool, later: map<ShipmentId, Shipment>)
    requires id in tables.actions && tables.actions[id].owner == owner
    requires tables.actions[id].status.PendingConfirmation? && HasPermissions(tables.actions[id].proposal.kind, granted)
    ensures var first := ConfirmationOf(tables, shipments, owner, id, granted, claimedAt, markedAt, false, refused);
            var second := ConfirmationOf(first.tables, later, owner, id, granted, claimedAgain, markedAgain, contended,
                                         refusedAgain);
            && second.tables == first.tables && second.shipments == later
            && (first.reply.Ok? ==> second.reply == Ok(Mutation(first.reply.value.action, false)))
            && (first.reply.Err? ==> second.reply == Err(ActionConflict(ActionStatus.Failed)))
  {
    PermissionsAreNamed(tables.actions[id].proposal.kind, granted);
  }

  // ---- cancel ----

  /** So does a cancellation: it leaves what the service leaves, and answers if it changed the action. */
  lemma CancellationFollowsProtocol(w: World, t: TxId, owner: Owner, id: ActionId, at: int)
    requires t !in w.txs && !RowLocked(w.txs, t, id)
    ensures var v, done := Run(w, [ECancel(t, owner, id, at), ECommitOutcome(t)]),
                           CancellationOf(TablesOf(w), owner, id, at);
            && TablesOf(v) == done.tables && v.shipments == w.shipments
            && (t in v.txs <==> done.reply.Ok? && done.reply.value.changed)
            && (t in v.txs ==> v.txs[t].pc == Notifying(ActionCancelled(done.reply.value.action.proposal.summary)))
  {
    ListsGrow(ECancel(t, owner, id, at), ECommitOutcome(t), ECommitOutcome(t));
    RunOne(w, [], ECancel(t, owner, id, at));
    RunOne(w, [ECancel(t, owner, id, at)], ECommitOutcome(t));
    CancelStepsLeave(w, t, owner, id, at);
  }

  lemma CancelStepsLeave(w: World, t: TxId, owner: Owner, id: ActionId, at: int)
    requires t !in w.txs && !RowLocked(w.txs, t, id)
    ensures var v, done := CommitOutcome(Cancel(w, t, owner, id, at), t), CancellationOf(TablesOf(w), owner, id, at);
            && TablesOf(v) == done.tables && v.shipments == w.shipments
            && (t in v.txs <==> done.reply.Ok? && done.reply.value.changed)
            && (t in v.txs ==> v.txs[t].pc == Notifying(ActionCancelled(done.reply.value.action.proposal.summary)))
  {
    var current := Owned(TablesOf(w), owner, id);
    if current.Some? && current.value.status.PendingConfirmation? {
      var cancelled := Cancel(w, t, owner, id, at);
      assert cancelled == SetTx(w, t, CancelTx(owner, id, current.value, at));
      CancelledRowCommits(w, t, owner, id, current.value, at);
    } else {
      assert Cancel(w, t, owner, id, at) == w;
    }
  }

  lemma CancelledRowCommits(w: World, t: TxId, owner: Owner, id: ActionId, a: Action, at: int)
    ensures var v := CommitOutcome(SetTx(w, t, CancelTx(owner, id, a, at)), t);
            && TablesOf(v) == Recorded(Stored(TablesOf(w), id, MarkCancelled(a, at)), id, WasCancelled)
            && v.shipments == w.shipments
            && t in v.txs && v.txs[t].pc == Notifying(ActionCancelled(a.proposal.summary))
  {
    var x := SetTx(w, t, CancelTx(owner, id, a, at));
    assert TablesOf(CommitOutcome(x, t)) == TablesOf(CommitRow(x, x.txs[t]));
  }

  /**
   In every reachable state an undisturbed cancellation ends a pending action of the caller, changing its status and
   its time of cancellation and nothing else, and then answers; any other action it leaves as it is.
   */
  lemma CancellationEndsExactlyThePending(w: World, t: TxId, owner: Owner, id: ActionId, at: int)
    requires Reachable(w) && t !in w.txs
    requires forall u :: u in w.txs && w.txs[u].row.Some? ==> w.txs[u].action != id
    ensures var v := Run(w, [ECancel(t, owner, id, at), ECommitOutcome(t)]);
            if id in w.actions && w.actions[id].owner == owner && w.actions[id].status.PendingConfirmation? then
              var a := w.actions[id];
              && v.actions == w.actions[id := Action(a.owner, a.conversation, a.proposal, CancelledByUser, a.result,
                                                     a.failure, a.confirmedAt, a.executedAt, Some(at), a.failedAt)]
              && v.audit == w.audit[id := [WasProposed, WasCancelled]]
              && v.conversations == w.conversations && v.shipments == w.shipments
              && At(v, t, Notifying(ActionCancelled(a.proposal.summary)))
            else v.actions == w.actions && v.audit == w.audit && v.conversations == w.conversations
                 && v.shipments == w.shipments && t !in v.txs
  {
    Theorems.CommittedRowsAtRest(w);
    CancellationFollowsProtocol(w, t, owner, id, at);
    CancellationAnswers(TablesOf(w), owner, id, at);
    assert [WasProposed] + [WasCancelled] == [WasProposed, WasCancelled];
  }

  /** How each cancellation is answered, and that only that of a pending action changes anything. */
  lemma CancellationAnswers(tables: Tables, owner: Owner, id: ActionId, at: int)
    ensures var done := CancellationOf(tables, owner, id, at);
            if id !in tables.actions || tables.actions[id].owner != owner then
              done == Cancellation(tables, Err(ActionNotFound))
            else
              var a := tables.actions[id];
              match a.status
              case PendingConfirmation =>
                var row := Action(a.owner, a.conversation, a.proposal, CancelledByUser, a.result, a.failure,
                                  a.confirmedAt, a.executedAt, Some(at), a.failedAt);
                done == Cancellation(Tables(tables.actions[id := row],
                                            tables.audit[id := Trail(tables.audit, id) + [WasCancelled]],
                                            tables.conversations),
                                     Ok(Mutation(row, true)))
              case CancelledByUser => done == Cancellation(tables, Ok(Mutation(a, false)))
              case Executing => done == Cancellation(tables, Err(ActionInProgress))
              case Executed => done == Cancellation(tables, Err(ActionConflict(ActionStatus.Executed)))
              case Failed => done == Cancellation(tables, Err(ActionConflict(ActionStatus.Failed)))
  {
  }

  /**
   In every reachable state the answer to a changed action is stored as the route stores it: as the last message of the
   assistant, ending any clarification unless the conversation has been deleted meanwhile.
   */
  lemma NotificationFollowsProtocol(w: World, t: TxId)
    requires Reachable(w) && t in w.txs && w.txs[t].pc.Notifying?
    ensures TablesOf(Run(w, [ENotify(t)]))
            == Told(TablesOf(w), w.txs[t].owner, w.txs[t].conversation, w.txs[t].pc.body)
    ensures var c, v := w.txs[t].conversation, Run(w, [ENotify(t)]);
            && c in w.conversations && v.actions == w.actions && v.audit == w.audit && t !in v.txs
            && var conv := w.conversations[c];
               v.conversations == w.conversations[
                 c := Conversation(conv.owner, conv.title, conv.deleted,
                                   if conv.deleted then conv.continuation else ContinuationColumns(None, None, None),
                                   conv.messages + [Message(Assistant, w.txs[t].pc.body)])]
  {
    RunNotifies(w, t);
    Theorems.AnswersGoHome(w, t);
    NotifyTells(w, t);
  }

  lemma RunNotifies(w: World, t: TxId)
    ensures Run(w, [ENotify(t)]) == Notify(w, t)
  {
    assert [ENotify(t)] == [] + [ENotify(t)];
    RunOne(w, [], ENotify(t));
  }

  lemma NotifyTells(w: World, t: TxId)
    requires t in w.txs && w.txs[t].pc.Notifying?
    requires w.txs[t].conversation in w.conversations
    requires w.conversations[w.txs[t].conversation].owner == w.txs[t].owner
    ensures TablesOf(Notify(w, t)) == Told(TablesOf(w), w.txs[t].owner, w.txs[t].conversation, w.txs[t].pc.body)
  {
  }

  // ---- conversation turns ----

  /** What the agent returns to the turn; None when it raises, or is never asked. */
  function AnswerTo(tables: Tables, owner: Owner, c: ConversationId, requested: Option<Option<Continuation>>,
                    run: (Option<Continuation>, seq<Message>) -> Option<AgentResult>): Option<AgentResult>
  {
    if !IsOpenTo(tables.conversations, c, owner) then None
    else
      var conv := tables.conversations[c];
      match ChooseContinuation(requested, BuildContinuation(conv.continuation))
      case None => None
      case Some(continuation) => run(continuation, Recent(conv.messages, MAX_CONTEXT_MESSAGES))
  }

  /** The agent's step: it answers, or its exception ends the request. */
  function AgentEvent(t: TxId, granted: set<Permission>, answer: Option<AgentResult>): Event {
    if answer.Some? then ERunAgent(t, granted, answer.value) else ECrash(t)
  }

  function TurnEvents(t: TxId, owner: Owner, c: ConversationId, question: string,
                      requested: Option<Option<Continuation>>, granted: set<Permission>, answer: Option<AgentResult>,
                      id: ActionId): seq<Event>
  {
    [ETurnStart(t, owner, c, question, requested), EPrepare(t)]
    + [AgentEvent(t, granted, answer), EPropose(t), EInsert(t, id), ECompleteTurn(t)]
  }

  ghost function AskSteps(w: World, t: TxId, owner: Owner, c: ConversationId, question: string,
                          requested: Option<Option<Continuation>>, granted: set<Permission>,
                          answer: Option<AgentResult>): World
  {
    var prepared := Prepare(TurnStart(w, t, owner, c, question, requested), t);
    if answer.Some? then RunAgent(prepared, t, granted, answer.value) else CrashTx(prepared, t)
  }

  ghost function StoreSteps(w: World, t: TxId, id: ActionId): World {
    CompleteTurn(Insert(Propose(w, t), t, id), t)
  }

  lemma StartStepsAreRun(w: World, t: TxId, owner: Owner, c: ConversationId, question: string,
                         requested: Option<Option<Continuation>>)
    ensures Run(w, [ETurnStart(t, owner, c, question, requested), EPrepare(t)])
            == Prepare(TurnStart(w, t, owner, c, question, requested), t)
  {
    var a, b := ETurnStart(t, owner, c, question, requested), EPrepare(t);
    ListsGrow(a, b, b);
    RunOne(w, [], a);
    RunOne(w, [a], b);
  }

  lemma StoreStepsAreSteps(w: World, t: TxId, id: ActionId)
    ensures Step(Step(Step(w, EPropose(t)), EInsert(t, id)), ECompleteTurn(t)) == StoreSteps(w, t, id)
  {
  }

  lemma AgentStepIsStep(w: World, t: TxId, granted: set<Permission>, answer: Option<AgentResult>)
    ensures Step(w, AgentEvent(t, granted, answer))
            == if answer.Some? then RunAgent(w, t, granted, answer.value) else CrashTx(w, t)
  {
  }

  lemma TurnStepsAreRun(w: World, t: TxId, owner: Owner, c: ConversationId, question: string,
                        requested: Option<Option<Continuation>>, granted: set<Permission>, answer: Option<AgentResult>,
                        id: ActionId)
    ensures Run(w, TurnEvents(t, owner, c, question, requested, granted, answer, id))
            == StoreSteps(AskSteps(w, t, owner, c, question, requested, granted, answer), t, id)
  {
    var prepared := Prepare(TurnStart(w, t, owner, c, question, requested), t);
    StartStepsAreRun(w, t, owner, c, question, requested);
    AgentStepIsStep(prepared, t, granted, answer);
    StoreStepsAreSteps(Step(prepared, AgentEvent(t, granted, answer)), t, id);
    RunFour(w, [ETurnStart(t, owner, c, question, requested), EPrepare(t)], AgentEvent(t, granted, answer),
            EPropose(t), EInsert(t, id), ECompleteTurn(t));
  }

  /** The turn once the agent has answered. */
  function AnsweredTx(owner: Owner, c: ConversationId, conv: Conversation, question: string,
                      granted: set<Permission>, result: AgentResult): Tx
  {
    PreparedTx(NewTx(Running(question, None), owner, 0, c), conv, question, None).(
      pc := if result.proposal.None? then Completing(result) else Proposing(result), granted := granted)
  }

  /** The turn is prepared exactly if the conversation is open, inactive, and the continuation is the stored one. */
  lemma PreparesWhenUndisturbed(w: World, t: TxId, owner: Owner, c: ConversationId, question: string,
                                requested: Option<Option<Continuation>>)
    requires t !in w.txs
    ensures var v := Prepare(TurnStart(w, t, owner, c, question, requested), t);
            && TablesOf(v) == TablesOf(w)
            && (t in v.txs <==>
                  && !HasActiveOf(w.actions, owner, c) && IsOpenTo(w.conversations, c, owner)
                  && ChooseContinuation(requested, BuildContinuation(w.conversations[c].continuation)).Some?)
            && (t in v.txs ==>
                  var k := ChooseContinuation(requested, BuildContinuation(w.conversations[c].continuation)).value;
                  v.txs == w.txs[t := PreparedTx(NewTx(Preparing(question, requested), owner, 0, c),
                                                 w.conversations[c], question, k)])
  {
    if !HasActiveOf(w.actions, owner, c) {
      var started := TurnStart(w, t, owner, c, question, requested);
      assert started == SetTx(w, t, NewTx(Preparing(question, requested), owner, 0, c));
      assert started.conversations == w.conversations;
    }
  }

  lemma AgentAnswers(w: World, t: TxId, owner: Owner, c: ConversationId, conv: Conversation, question: string,
                     requested: Option<Option<Continuation>>, continuation: Option<Continuation>,
                     granted: set<Permission>, result: AgentResult)
    requires t in w.txs && Backed(result, granted)
    requires w.txs[t] == PreparedTx(NewTx(Preparing(question, requested), owner, 0, c), conv, question, continuation)
    ensures RunAgent(w, t, granted, result) == SetTx(w, t, AnsweredTx(owner, c, conv, question, granted, result))
  {
  }

  lemma AsksWhenUndisturbed(w: World, t: TxId, owner: Owner, c: ConversationId, question: string,
                            requested: Option<Option<Continuation>>, granted: set<Permission>,
                            run: (Option<Continuation>, seq<Message>) -> Option<AgentResult>)
    requires t !in w.txs
    requires AnswerTo(TablesOf(w), owner, c, requested, run).Some? ==>
               Backed(AnswerTo(TablesOf(w), owner, c, requested, run).value, granted)
    ensures var answer := AnswerTo(TablesOf(w), owner, c, requested, run);
            var v := AskSteps(w, t, owner, c, question, requested, granted, answer);
            && TablesOf(v) == TablesOf(w)
            && if HasActiveOf(w.actions, owner, c) || answer.None? then t !in v.txs
               else v.txs == w.txs[t := AnsweredTx(owner, c, w.conversations[c], question, granted, answer.value)]
  {
    var answer := AnswerTo(TablesOf(w), owner, c, requested, run);
    PreparesWhenUndisturbed(w, t, owner, c, question, requested);
    var prepared := Prepare(TurnStart(w, t, owner, c, question, requested), t);
    if t in prepared.txs && answer.Some? {
      var k := ChooseContinuation(requested, BuildContinuation(w.conversations[c].continuation)).value;
      AgentAnswers(prepared, t, owner, c, w.conversations[c], question, requested, k, granted, answer.value);
    } else {
      UnansweredIsDropped(prepared, t, granted, answer);
    }
  }

  lemma UnansweredIsDropped(w: World, t: TxId, granted: set<Permission>, answer: Option<AgentResult>)
    requires t !in w.txs || answer.None?
    ensures var v := if answer.Some? then RunAgent(w, t, granted, answer.value) else CrashTx(w, t);
            TablesOf(v) == TablesOf(w) && t !in v.txs
  {
  }

  lemma AbsentStoresNothing(w: World, t: TxId, id: ActionId)
    requires t !in w.txs
    ensures StoreSteps(w, t, id) == w
  {
  }

  /** The tables after the turn's one commit. */
  lemma CompletedTurn(w: World, t: TxId, owner: Owner, c: ConversationId, question: string, granted: set<Permission>,
                      result: AgentResult)
    requires IsOpenTo(w.conversations, c, owner) && t in w.txs && result.proposal.None?
    requires w.txs[t] == AnsweredTx(owner, c, w.conversations[c], question, granted, result)
    ensures TablesOf(CompleteTurn(w, t)) == AnsweredTurn(TablesOf(w), owner, c, question, result, 0).tables
  {
    var conv := w.conversations[c];
    assert conv.messages + ([Message(User, Words(question))] + [Message(Assistant, result.answer)])
        == conv.messages + [Message(User, Words(question)), Message(Assistant, result.answer)];
  }

  lemma CompletedProposal(w: World, t: TxId, owner: Owner, c: ConversationId, question: string,
                          granted: set<Permission>, result: AgentResult, id: ActionId)
    requires IsOpenTo(w.conversations, c, owner) && t in w.txs && result.proposal.Some?
    requires id !in w.actions && !HasActive(w.actions, c)
    requires w.txs[t] == InsertTx(AnsweredTx(owner, c, w.conversations[c], question, granted, result).(
                                    pc := Inserting(result)), id)
    ensures TablesOf(CompleteTurn(w, t)) == AnsweredTurn(TablesOf(w), owner, c, question, result, id).tables
  {
    var conv := w.conversations[c];
    assert conv.messages + ([Message(User, Words(question))] + [Message(Assistant, result.answer)])
        == conv.messages + [Message(User, Words(question)), Message(Assistant, result.answer)];
  }

  lemma ProposesWhenUndisturbed(w: World, t: TxId, owner: Owner, c: ConversationId, question: string,
                                granted: set<Permission>, result: AgentResult, id: ActionId)
    requires IsOpenTo(w.conversations, c, owner) && t in w.txs && result.proposal.Some?
    requires !HasActiveOf(w.actions, owner, c) && !RowLocked(w.txs, t, id) && !SlotLocked(w.txs, t, c)
    requires w.txs[t] == AnsweredTx(owner, c, w.conversations[c], question, granted, result)
    ensures TablesOf(StoreSteps(w, t, id)) == AnsweredTurn(TablesOf(w), owner, c, question, result, id).tables
  {
    var tx := w.txs[t].(pc := Inserting(result));
    var proposed := Propose(w, t);
    assert proposed == SetTx(w, t, tx);
    assert !RowLocked(proposed.txs, t, id) && !SlotLocked(proposed.txs, t, c);
    if id !in w.actions && !HasActive(w.actions, c) {
      var inserted := Insert(proposed, t, id);
      assert inserted == SetTx(w, t, InsertTx(tx, id));
      CompletedProposal(inserted, t, owner, c, question, granted, result, id);
    }
  }

  lemma StoresWhenUndisturbed(w: World, t: TxId, owner: Owner, c: ConversationId, question: string,
                              granted: set<Permission>, result: AgentResult, id: ActionId)
    requires IsOpenTo(w.conversations, c, owner) && t in w.txs
    requires !HasActiveOf(w.actions, owner, c) && !RowLocked(w.txs, t, id) && !SlotLocked(w.txs, t, c)
    requires w.txs[t] == AnsweredTx(owner, c, w.conversations[c], question, granted, result)
    ensures TablesOf(StoreSteps(w, t, id)) == AnsweredTurn(TablesOf(w), owner, c, question, result, id).tables
  {
    if result.proposal.None? {
      assert StoreSteps(w, t, id) == CompleteTurn(w, t);
      CompletedTurn(w, t, owner, c, question, granted, result);
    } else {
      ProposesWhenUndisturbed(w, t, owner, c, question, granted, result, id);
    }
  }

  /** A turn that nothing disturbs, run through the protocol's steps, leaves the tables that the route leaves. */
  lemma TurnFollowsProtocol(w: World, t: TxId, owner: Owner, c: ConversationId, question: string,
                            requested: Option<Option<Continuation>>, granted: set<Permission>,
                            run: (Option<Continuation>, seq<Message>) -> Option<AgentResult>, id: ActionId)
    requires t !in w.txs && !RowLocked(w.txs, t, id) && !SlotLocked(w.txs, t, c)
    requires AnswerTo(TablesOf(w), owner, c, requested, run).Some? ==>
               Backed(AnswerTo(TablesOf(w), owner, c, requested, run).value, granted)
    ensures var answer := AnswerTo(TablesOf(w), owner, c, requested, run);
            TablesOf(Run(w, TurnEvents(t, owner, c, question, requested, granted, answer, id)))
            == TurnOf(TablesOf(w), owner, c, question, requested, run, id).tables
  {
    var answer := AnswerTo(TablesOf(w), owner, c, requested, run);
    TurnStepsAreRun(w, t, owner, c, question, requested, granted, answer, id);
    TurnStepsLeave(w, t, owner, c, question, requested, granted, run, id);
  }

  /** The owner has no action pending or executing in the conversation. */
  predicate NothingPending(rows: map<ActionId, Action>, owner: Owner, c: ConversationId) {
    forall a :: a in rows && rows[a].owner == owner && rows[a].conversation == c ==>
      rows[a].status in {ActionStatus.Executed, ActionStatus.Failed, CancelledByUser}
  }

  lemma NothingIsActive(rows: map<ActionId, Action>, owner: Owner, c: ConversationId)
    ensures NothingPending(rows, owner, c) <==> !HasActiveOf(rows, owner, c)
  {
    if HasActiveOf(rows, owner, c) {
      var a :| a in rows && rows[a].owner == owner && rows[a].conversation == c && IsActive(rows[a]);
      assert !NothingPending(rows, owner, c);
    } else {
      forall a | a in rows && rows[a].owner == owner && rows[a].conversation == c
        ensures rows[a].status in {ActionStatus.Executed, ActionStatus.Failed, CancelledByUser}
      {
        assert !IsActive(rows[a]);
      }
    }
  }

  /** What the request may say about the continuation: nothing, that there is none, or the stored one. */
  predicate Agrees(requested: Option<Option<Continuation>>, stored: Option<Continuation>) {
    requested.None? || requested.value.None? || requested.value == stored
  }

  /** The conversation after a turn: its first question titles it, question and answer follow each other. */
  function Answered(conv: Conversation, question: string, result: AgentResult): Conversation {
    Conversation(conv.owner,
                 if conv.messages == [] && conv.title == DefaultTitle then TitleOf(question) else conv.title,
                 conv.deleted,
                 match result.continuation
                 case None => ContinuationColumns(None, None, None)
                 case Some(Continuation(route, identifier)) =>
                   ContinuationColumns(Some(ShipmentSelection), Some(route), Some(identifier)),
                 conv.messages + [Message(User, Words(question)), Message(Assistant, result.answer)])
  }

  /** The row a turn stores for its proposal. */
  function Pending(owner: Owner, c: ConversationId, p: Proposal): Action {
    Action(owner, c, p, PendingConfirmation, None, None, None, None, None, None)
  }

  /** The tables after a turn that was answered with `result`. */
  predicate Stores(tables: Tables, after: Tables, owner: Owner, c: ConversationId, question: string,
                   result: AgentResult, id: ActionId)
    requires c in tables.conversations
  {
    && after.conversations == tables.conversations[c := Answered(tables.conversations[c], question, result)]
    && match result.proposal
       case None => after.actions == tables.actions && after.audit == tables.audit
       case Some(p) =>
         && after.actions == tables.actions[id := Pending(owner, c, p)]
         && after.audit == tables.audit[id := Trail(tables.audit, id) + [WasProposed]]
  }

  /** How each turn is answered, what it leaves, and that only an answered one changes anything. */
  lemma TurnAnswers(tables: Tables, owner: Owner, c: ConversationId, question: string,
                    requested: Option<Option<Continuation>>,
                    run: (Option<Continuation>, seq<Message>) -> Option<AgentResult>, id: ActionId)
    ensures var turn := TurnOf(tables, owner, c, question, requested, run, id);
            if !NothingPending(tables.actions, owner, c) then turn == Turn(tables, Err(PendingActionExists))
            else if !Theorems.IsOpen(tables.conversations, c, owner) then
              turn == Turn(tables, Err(ConversationNotFound))
            else
              var stored := Theorems.StoredIn(tables.conversations[c].continuation);
              if !Agrees(requested, stored) then turn == Turn(tables, Err(ContinuationMismatch))
              else
                var messages := tables.conversations[c].messages;
                var recent := if |messages| <= 20 then messages else messages[|messages| - 20..];
                var answer := run(if requested == Some(None) then None else stored, recent);
                if answer.None? then turn == Turn(tables, Err(AgentFailed))
                else if answer.value.proposal.Some? && (id in tables.actions || HasActive(tables.actions, c)) then
                  turn == Turn(tables, Err(PendingActionExists))
                else turn.reply == Ok(answer.value)
                     && Stores(tables, turn.tables, owner, c, question, answer.value, id)
  {
    NothingIsActive(tables.actions, owner, c);
    if c in tables.conversations {
      Theorems.ColumnsAreRead(tables.conversations[c].continuation);
    }
  }

  lemma TurnStepsLeave(w: World, t: TxId, owner: Owner, c: ConversationId, question: string,
                       requested: Option<Option<Continuation>>, granted: set<Permission>,
                       run: (Option<Continuation>, seq<Message>) -> Option<AgentResult>, id: ActionId)
    requires t !in w.txs && !RowLocked(w.txs, t, id) && !SlotLocked(w.txs, t, c)
    requires AnswerTo(TablesOf(w), owner, c, requested, run).Some? ==>
               Backed(AnswerTo(TablesOf(w), owner, c, requested, run).value, granted)
    ensures var answer := AnswerTo(TablesOf(w), owner, c, requested, run);
            TablesOf(StoreSteps(AskSteps(w, t, owner, c, question, requested, granted, answer), t, id))
            == TurnOf(TablesOf(w), owner, c, question, requested, run, id).tables
  {
    var answer := AnswerTo(TablesOf(w), owner, c, requested, run);
    AsksWhenUndisturbed(w, t, owner, c, question, requested, granted, run);
    var v := AskSteps(w, t, owner, c, question, requested, granted, answer);
    if HasActiveOf(w.actions, owner, c) || answer.None? {
      AbsentStoresNothing(v, t, id);
    } else {
      assert !RowLocked(v.txs, t, id) && !SlotLocked(v.txs, t, c);
      StoresWhenUndisturbed(v, t, owner, c, question, granted, answer.value, id);
    }
  }

  /** In a reachable state a conversation's active action is its owner's. */
  lemma ActiveIsOwners(w: World, owner: Owner, c: ConversationId)
    requires Reachable(w) && Theorems.IsOpen(w.conversations, c, owner) && NothingPending(w.actions, owner, c)
    ensures !HasActive(w.actions, c)
  {
    Theorems.OwnersActOnTheirOwn(w);
    NothingIsActive(w.actions, owner, c);
    forall a | a in w.actions && w.actions[a].conversation == c ensures !IsActive(w.actions[a]) {
      assert w.actions[a].owner == owner;
    }
  }

  /**
   In every reachable state an undisturbed turn is stored as a whole: if the conversation is open to its owner, nothing
   is pending there, and the client agrees on the continuation, then question, answer, title, continuation and the
   proposed action, pending and untouched, are what the tables hold afterwards, and nothing else changes.
   */
  lemma UndisturbedTurnIsStored(w: World, t: TxId, owner: Owner, c: ConversationId, question: string,
                                requested: Option<Option<Continuation>>, granted: set<Permission>,
                                run: (Option<Continuation>, seq<Message>) -> Option<AgentResult>, id: ActionId,
                                result: AgentResult)
    requires Reachable(w) && t !in w.txs && id !in w.actions && Backed(result, granted)
    requires forall u :: u in w.txs && w.txs[u].row.Some? ==>
                           w.txs[u].action != id && w.txs[u].row.value.conversation != c
    requires Theorems.IsOpen(w.conversations, c, owner) && NothingPending(w.actions, owner, c)
    requires Agrees(requested, Theorems.StoredIn(w.conversations[c].continuation))
    requires run(if requested == Some(None) then None else Theorems.StoredIn(w.conversations[c].continuation),
                 Recent(w.conversations[c].messages, MAX_CONTEXT_MESSAGES)) == Some(result)
    ensures Stores(TablesOf(w),
                   TablesOf(Run(w, TurnEvents(t, owner, c, question, requested, granted, Some(result), id))),
                   owner, c, question, result, id)
  {
    ActiveIsOwners(w, owner, c);
    Theorems.ColumnsAreRead(w.conversations[c].continuation);
    TurnFollowsProtocol(w, t, owner, c, question, requested, granted, run, id);
    TurnAnswers(TablesOf(w), owner, c, question, requested, run, id);
  }
}
