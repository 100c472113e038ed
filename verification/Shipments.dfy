/** Shipments, their lifecycle, and the preparation of write proposals on them. */
module Shipments {
  import opened Prelude
  import Text

  type ShipmentId = nat

  datatype ShipmentStatus = Draft | Ready | InTransit | Delivered | Cancelled

  /** The columns an update writes besides the notes; `rest` stands for those that are not texts. */
  datatype Details = Details(
    trackingNumber: string,
    reference: Option<string>,
    description: Option<string>,
    rest: nat
  )

  datatype Shipment = Shipment(status: ShipmentStatus, notes: Option<string>, details: Details)

  function AllowedTransitions(current: ShipmentStatus): set<ShipmentStatus> {
    match current
    case Draft => {Ready, Cancelled}
    case Ready => {InTransit, Cancelled}
    case InTransit => {Delivered}
    case Delivered => {}
    case Cancelled => {}
  }

  predicate CanTransition(current: ShipmentStatus, target: ShipmentStatus) {
    target in AllowedTransitions(current)
  }

  function Rank(status: ShipmentStatus): nat {
    match status
    case Draft => 0
    case Ready => 1
    case InTransit => 2
    case Delivered => 3
    case Cancelled => 3
  }

  datatype ActionKind = TransitionStatus | UpdateNotes

  datatype Proposal = Proposal(
    kind: ActionKind,
    shipment: ShipmentId,
    identifier: string,
    expectedStatus: ShipmentStatus,
    summary: string,
    targetStatus: Option<ShipmentStatus>,
    expectedNotes: Option<string>,
    newNotes: Option<string>
  )

  datatype Rejection =
    | AlreadyInStatus
    | TransitionNotAllowed
    | NotesEmpty
    | NotesTooLong
    | NotesUnchanged
    | ShipmentMissing

  function StatusName(status: ShipmentStatus): string {
    match status
    case Draft => "draft"
    case Ready => "ready"
    case InTransit => "in_transit"
    case Delivered => "delivered"
    case Cancelled => "cancelled"
  }

  function DisplayNotes(notes: string): string {
    if |notes| > 180 then Text.RStrip(notes[..177]) + "..." else notes
  }

  /** What every proposal built by the preparation service satisfies. */
  predicate WellFormedProposal(p: Proposal) {
    match p.kind
    case TransitionStatus =>
      && p.targetStatus.Some?
      && CanTransition(p.expectedStatus, p.targetStatus.value)
      && p.newNotes.None?
    case UpdateNotes =>
      && p.targetStatus.None?
      && p.newNotes.Some?
      && p.newNotes.value != ""
      && |p.newNotes.value| <= Text.MAX_NOTES_LENGTH
      && Text.IsNormal(p.newNotes.value)
      && p.expectedNotes != p.newNotes
  }

  function PrepareTransition(id: ShipmentId, identifier: string, current: Option<Shipment>, target: ShipmentStatus)
    : (r: Result<Proposal, Rejection>)
    ensures r.Ok? <==> current.Some? && CanTransition(current.value.status, target)
    ensures r.Ok? ==>
              && WellFormedProposal(r.value)
              && r.value.kind.TransitionStatus?
              && r.value.shipment == id && r.value.identifier == identifier
              && r.value.expectedStatus == current.value.status
              && r.value.targetStatus == Some(target)
    ensures r == Err(AlreadyInStatus) <==> current.Some? && current.value.status == target
  {
    if current.None? then Err(ShipmentMissing)
    else if current.value.status == target then Err(AlreadyInStatus)
    else if !CanTransition(current.value.status, target) then Err(TransitionNotAllowed)
    else
      Ok(Proposal(
           TransitionStatus, id, identifier, current.value.status,
           "Transition shipment " + current.value.details.trackingNumber + " from " + StatusName(current.value.status)
           + " to " + StatusName(target) + ".",
           Some(target), None, None))
  }

  function PrepareNotesUpdate(id: ShipmentId, identifier: string, current: Option<Shipment>, notes: string)
    : (r: Result<Proposal, Rejection>)
    ensures r.Ok? <==>
              && current.Some? && 0 < |Text.Normalize(notes)| <= Text.MAX_NOTES_LENGTH
              && current.value.notes != Some(Text.Normalize(notes))
    ensures r.Ok? ==>
              && WellFormedProposal(r.value)
              && r.value.kind.UpdateNotes?
              && r.value.shipment == id && r.value.identifier == identifier
              && r.value.expectedNotes == current.value.notes
              && r.value.newNotes == Some(Text.Normalize(notes))
  {
    var normalized := Text.Normalize(notes);
    if normalized == "" then Err(NotesEmpty)
    else if |normalized| > Text.MAX_NOTES_LENGTH then Err(NotesTooLong)
    else if current.None? then Err(ShipmentMissing)
    else if current.value.notes == Some(normalized) then Err(NotesUnchanged)
    else
      Text.NormalizeFixpoints(notes);
      Ok(Proposal(
           UpdateNotes, id, identifier, current.value.status,
           "Update notes for shipment " + current.value.details.trackingNumber + " to \"" + DisplayNotes(normalized)
           + "\".",
           None, current.value.notes, Some(normalized)))
  }

  /**
   The lifecycle is a line that can be left by cancelling before transit. So every allowed transition climbs, and a
   status that has been left is never allowed back.
   */
  lemma TransitionsClimb(current: ShipmentStatus, target: ShipmentStatus)
    ensures CanTransition(current, target)
            <==> if target.Cancelled? then current in {Draft, Ready}
                 else (current, target) in {(Draft, Ready), (Ready, InTransit), (InTransit, Delivered)}
    ensures CanTransition(current, target) ==> Rank(current) < Rank(target) && !CanTransition(target, current)
  {
  }

  /**
   Notes that are already normalized and of legal length are proposed unchanged, and
   the only reasons left to refuse them are a missing shipment and unchanged notes.
   */
  lemma NormalNotesAreProposedUnchanged(id: ShipmentId, identifier: string, current: Option<Shipment>, notes: string)
    requires Text.IsNormal(notes) && 0 < |notes| <= Text.MAX_NOTES_LENGTH
    ensures var r := PrepareNotesUpdate(id, identifier, current, notes);
            && (r.Ok? <==> current.Some? && current.value.notes != Some(notes))
            && (r.Ok? ==> r.value.newNotes == Some(notes))
            && (r.Err? ==> r.error == if current.None? then ShipmentMissing else NotesUnchanged)
  {
    Text.NormalizeFixpoints(notes);
  }

  /** Notes are shown whole if they have at most 180 characters, and otherwise a marked beginning of them. */
  lemma NotesAreShown(notes: string) returns (k: nat)
    ensures if |notes| <= 180 then DisplayNotes(notes) == notes
            else k <= 177 && DisplayNotes(notes) == notes[..k] + "..." && Text.AllSpace(notes[k..177])
  {
    k := 0;
    if |notes| > 180 {
      k := Text.RStripCuts(notes[..177]);
      assert notes[..177][..k] == notes[..k] && notes[..177][k..] == notes[k..177];
    }
  }

  lemma StatusNamesDiffer(a: ShipmentStatus, b: ShipmentStatus)
    requires StatusName(a) == StatusName(b)
    ensures a == b
  {
    assert |StatusName(Draft)| == 5 && |StatusName(Ready)| == 5 && |StatusName(InTransit)| == 10;
    assert |StatusName(Delivered)| == 9 && |StatusName(Cancelled)| == 9;
    assert StatusName(Draft)[0] == 'd' && StatusName(Ready)[0] == 'r';
    assert StatusName(Delivered)[0] == 'd' && StatusName(Cancelled)[0] == 'c';
  }

  lemma SameEndings(prefix: string, a: string, b: string, suffix: string)
    requires prefix + a + suffix == prefix + b + suffix
    ensures a == b
  {
    var s := prefix + a + suffix;
    assert a == s[|prefix|..|s| - |suffix|] && b == s[|prefix|..|s| - |suffix|];
  }

  /**
   What the user is asked to confirm tells the changes of a shipment apart: proposals with the same summary have the
   same target, and the same notes as far as notes are shown.
   */
  lemma SummariesTellChangesApart(id: ShipmentId, identifier: string, s: Shipment, a: ShipmentStatus,
                                  b: ShipmentStatus, notes: string, other: string)
    ensures var p, q := PrepareTransition(id, identifier, Some(s), a), PrepareTransition(id, identifier, Some(s), b);
            p.Ok? && q.Ok? && p.value.summary == q.value.summary ==> a == b
    ensures var p, q := PrepareNotesUpdate(id, identifier, Some(s), notes),
                        PrepareNotesUpdate(id, identifier, Some(s), other);
            p.Ok? && q.Ok? && p.value.summary == q.value.summary ==>
              DisplayNotes(p.value.newNotes.value) == DisplayNotes(q.value.newNotes.value)
  {
    var p, q := PrepareTransition(id, identifier, Some(s), a), PrepareTransition(id, identifier, Some(s), b);
    if p.Ok? && q.Ok? && p.value.summary == q.value.summary {
      TransitionSummariesDiffer(id, identifier, s, a, b);
    }
    var x, y := PrepareNotesUpdate(id, identifier, Some(s), notes),
                PrepareNotesUpdate(id, identifier, Some(s), other);
    if x.Ok? && y.Ok? && x.value.summary == y.value.summary {
      NotesSummariesDiffer(id, identifier, s, notes, other);
    }
  }

  lemma TransitionSummariesDiffer(id: ShipmentId, identifier: string, s: Shipment, a: ShipmentStatus, b: ShipmentStatus)
    requires PrepareTransition(id, identifier, Some(s), a).Ok? && PrepareTransition(id, identifier, Some(s), b).Ok?
    requires PrepareTransition(id, identifier, Some(s), a).value.summary
             == PrepareTransition(id, identifier, Some(s), b).value.summary
    ensures a == b
  {
    var prefix := "Transition shipment " + s.details.trackingNumber + " from " + StatusName(s.status) + " to ";
    SameEndings(prefix, StatusName(a), StatusName(b), ".");
    StatusNamesDiffer(a, b);
  }

  lemma NotesSummariesDiffer(id: ShipmentId, identifier: string, s: Shipment, a: string, b: string)
    requires PrepareNotesUpdate(id, identifier, Some(s), a).Ok? && PrepareNotesUpdate(id, identifier, Some(s), b).Ok?
    requires PrepareNotesUpdate(id, identifier, Some(s), a).value.summary
             == PrepareNotesUpdate(id, identifier, Some(s), b).value.summary
    ensures DisplayNotes(PrepareNotesUpdate(id, identifier, Some(s), a).value.newNotes.value)
            == DisplayNotes(PrepareNotesUpdate(id, identifier, Some(s), b).value.newNotes.value)
  {
    var prefix := "Update notes for shipment " + s.details.trackingNumber + " to \"";
    SameEndings(prefix, DisplayNotes(Text.Normalize(a)), DisplayNotes(Text.Normalize(b)), "\".");
  }
}
