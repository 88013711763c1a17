/** What every verb does: the durable writes it makes, in order, and its reply.

    A plan is computed from the disk the verb reads under the host's lock.  A verb that is
    refused half way keeps the writes it made before the refusal. */
module ReaderVerbs {
  import opened Prelude
  import opened ReaderState

  datatype Refusal =
    | InvalidHostId | AlreadyEnrolled | NotEnrolled | NotPrepared | NotOwner
    | InvalidState | InvalidCheckpoint | CredentialFailure | HostIdMismatch
    | DestinationNotInactive | OfferedElsewhere | InvalidDestination
    | IndeterminateInFlight | InboxNotEmpty | InvalidManifest | OfferMismatch
    | AlreadyCommitted | WrongDestination | WrongBot | StaleEpoch | ReceiptMismatch
    | ApiConflict | ApiFailure | NetworkFailure | MalformedResponse | RecordConflict

  datatype CaptureOutcome = CapturedSome | CapturedNone | CapturedEmpty

  datatype Reply =
    | Killed                                   // the process died before replying
    | Refused(why: Refusal)
    | Enrolled(checkpoint: nat)
    | FencedAt(epoch: nat, checkpoint: nat)
    | Prepared(epoch: nat, phase: Phase, botId: string)
    | Offer(phase: Phase, manifest: Manifest)
    | Committed(receipt: Receipt)
    | Cancelled(epoch: nat)
    | Reconciled(epoch: nat)
    | Imported(phase: Phase, transferId: string)
    | Activated(epoch: nat, checkpoint: nat)
    | PollStopped
    | PollPending
    | Captured(outcome: CaptureOutcome, updates: nat, records: nat, checkpoint: nat)

  datatype Plan = Plan(writes: seq<Write>, reply: Reply)

  function Refuse(ws: seq<Write>, why: Refusal): Plan {
    Plan(ws, Refused(why))
  }

  // A journal is validated before it is written.
  function Journalled(ws: seq<Write>, move: Move, j: Journal, reply: Reply): Plan {
    if ValidJournal(j) then Plan(ws + [WJournal(move, j)], reply) else Refuse(ws, InvalidState)
  }

  function ReadJournal(d: Disk): Result<Option<Journal>, Refusal> {
    if d.journal.Some? && !ValidJournal(d.journal.value) then Err(InvalidState) else Ok(d.journal)
  }

  function ReadCheckpoint(d: Disk, required: bool): Result<nat, Refusal> {
    match d.checkpoint
    case Missing => if required then Err(InvalidState) else Ok(0)
    case Garbled => Err(InvalidCheckpoint)
    case Holds(n) => Ok(n)
  }

  // Placing the stop file writes only when no stop file is there.
  function StopWrites(d: Disk): seq<Write> {
    if d.stop.NoStop? then [WStop] else []
  }

  // Removing it writes only when the transfer placed it and nobody replaced it.
  function UnstopWrites(d: Disk, preexisting: bool): seq<Write> {
    if !preexisting && d.stop.OwnStop? then [WUnstop] else []
  }

  // A credential names its bot, or is missing or malformed.
  function BotIdentity(credential: Option<string>): Result<string, Refusal> {
    if credential.Some? && ValidBotId(credential.value) then Ok(credential.value)
    else Err(CredentialFailure)
  }

  // ---- Journals the verbs write ---------------------------------------------

  function EnrolledJournal(hostId: string): Journal {
    Journal(hostId, 1, Active, None, None, false)
  }

  function StandbyJournal(hostId: string, preexisting: bool): Journal {
    Journal(hostId, 0, Standby, Some(preexisting), None, false)
  }

  function FencedJournal(j: Journal, preexisting: bool): Journal {
    j.(phase := Fenced, fence := Some(preexisting), transfer := None)
  }

  function ActiveJournal(j: Journal): Journal {
    j.(phase := Active, fence := None, transfer := None)
  }

  function StagedJournal(j: Journal, m: Manifest): Journal {
    j.(phase := Staged, transfer := Some(Transfer(m, None)))
  }

  function ActivatedJournal(j: Journal, m: Manifest): Journal {
    j.(phase := Active, epoch := m.terms.epoch, fence := None, transfer := Some(Transfer(m, None)))
  }

  function NewManifest(
    j: Journal, destination: string, botId: string, checkpoint: nat,
    transferId: string, secret: string): Manifest
  {
    var t := Terms(MANIFEST_VERSION, botId, j.hostId, destination, j.epoch + 1,
                   transferId, checkpoint, HashOf(secret));
    Manifest(t, DigestOf(t))
  }

  // ---- Source-side verbs ----------------------------------------------------

  function EnrollPlan(d: Disk, hostId: string): Plan {
    if !ValidHostId(hostId) then Refuse([], InvalidHostId)
    else if d.journal.Some? then Refuse([], AlreadyEnrolled)
    else
      match d.checkpoint
      case Garbled => Refuse([], InvalidCheckpoint)
      case Holds(n) => Journalled([], Enrolling, EnrolledJournal(hostId), Enrolled(n))
      case Missing => Journalled([WCheckpoint(0)], Enrolling, EnrolledJournal(hostId), Enrolled(0))
  }

  function FencePlan(d: Disk, preexisting: bool): Plan {
    match ReadJournal(d)
    case Err(e) => Refuse([], e)
    case Ok(None) => Refuse([], NotEnrolled)
    case Ok(Some(j)) =>
      if !j.phase.Owner() then Refuse([], NotOwner)
      else
        var f := FencedJournal(j, preexisting);
        if j.phase.Active? && !ValidJournal(f) then Refuse([], InvalidState)
        else
          var ws := if j.phase.Active? then [WJournal(Fencing, f)] else [];
          match ReadCheckpoint(d, true)
          case Err(e) => Refuse(ws, e)
          case Ok(n) =>
            if d.marker.Some? then Refuse(ws, IndeterminateInFlight)
            else Plan(ws, FencedAt(j.epoch, n))
  }

  function ExportPlan(
    d: Disk, destination: string, credential: Option<string>,
    transferId: string, secret: string, preexisting: bool): Plan
  {
    match ReadJournal(d)
    case Err(e) => Refuse([], e)
    case Ok(None) => Refuse([], NotEnrolled)
    case Ok(Some(j)) =>
      if j.phase.Offered? || j.phase.Transferred? then
        if j.transfer.value.manifest.terms.destination != destination then
          Refuse([], if j.phase.Offered? then OfferedElsewhere else NotOwner)
        else
          Plan([], Offer(j.phase, j.transfer.value.manifest))
      else if !j.phase.Active? && !j.phase.Fenced? then Refuse([], NotOwner)
      else
        var f := if j.phase.Active? then FencedJournal(j, preexisting) else j;
        if !ValidJournal(f) then Refuse([], InvalidState)
        else
          OfferPlan(d, f, if j.phase.Active? then [WJournal(Fencing, f)] else [],
                    destination, credential, transferId, secret)
  }

  // The second half of export, once the journal is fenced.
  function OfferPlan(
    d: Disk, f: Journal, ws: seq<Write>, destination: string, credential: Option<string>,
    transferId: string, secret: string): Plan
  {
    if destination == f.hostId then Refuse(ws, InvalidDestination)
    else
      match ReadCheckpoint(d, true)
      case Err(e) => Refuse(ws, e)
      case Ok(n) =>
        if d.marker.Some? then Refuse(ws, IndeterminateInFlight)
        else if d.inbox != map[] then Refuse(ws, InboxNotEmpty)
        else
          match BotIdentity(credential)
          case Err(e) => Refuse(ws, e)
          case Ok(bot) =>
            var m := NewManifest(f, destination, bot, n, transferId, secret);
            Journalled(ws, Offering, f.(phase := Offered, transfer := Some(Transfer(m, Some(secret)))),
                       Offer(Offered, m))
  }

  function CommitPlan(d: Disk, m: Manifest): Plan {
    if !ValidManifest(m) then Refuse([], InvalidManifest)
    else
      match ReadJournal(d)
      case Err(e) => Refuse([], e)
      case Ok(None) => Refuse([], NotEnrolled)
      case Ok(Some(j)) =>
        if !(j.phase.Offered? || j.phase.Transferred?) || j.transfer.value.manifest != m then
          Refuse([], OfferMismatch)
        else
          var reply := Committed(ReceiptOf(m, j.transfer.value.secret.value));
          if j.phase.Offered? then
            Journalled([], Committing, j.(phase := Transferred, epoch := m.terms.epoch), reply)
          else
            Plan([], reply)
  }

  function CancelPlan(d: Disk, transferId: Option<string>): Plan {
    match ReadJournal(d)
    case Err(e) => Refuse([], e)
    case Ok(None) => Refuse([], NotEnrolled)
    case Ok(Some(j)) =>
      if j.phase.Transferred? then Refuse([], AlreadyCommitted)
      else if j.phase.Offered? && transferId != Some(j.transfer.value.manifest.terms.transferId) then
        Refuse([], OfferMismatch)
      else if !j.phase.Offered? && !j.phase.Fenced? then Refuse([], NotOwner)
      else if j.phase.Fenced? && transferId.Some? then Refuse([], OfferMismatch)
      else
        Journalled(UnstopWrites(d, j.fence.value), Cancelling, ActiveJournal(j), Cancelled(j.epoch))
  }

  function ReconcilePlan(d: Disk): Plan {
    match ReadJournal(d)
    case Err(e) => Refuse([], e)
    case Ok(None) => Refuse([], NotEnrolled)
    case Ok(Some(j)) =>
      if !j.phase.Active? then Refuse([], NotOwner)
      else Journalled([], Reconciling, j.(conflict := false), Reconciled(j.epoch))
  }

  // ---- Destination-side verbs -----------------------------------------------

  function PreparePlan(d: Disk, hostId: string, credential: Option<string>): Plan {
    if !ValidHostId(hostId) then Refuse([], InvalidHostId)
    else
      match BotIdentity(credential)
      case Err(e) => Refuse([], e)
      case Ok(bot) =>
        match ReadJournal(d)
        case Err(e) => Refuse([], e)
        case Ok(None) =>
          Journalled(StopWrites(d), Preparing, StandbyJournal(hostId, !d.stop.NoStop?),
                     Prepared(0, Standby, bot))
        case Ok(Some(j)) =>
          if j.hostId != hostId then Refuse([], HostIdMismatch)
          else if j.phase.Owner() then Refuse([], DestinationNotInactive)
          else Plan([], Prepared(j.epoch, j.phase, bot))
  }

  function ImportPlan(d: Disk, m: Manifest, credential: Option<string>): Plan {
    if !ValidManifest(m) then Refuse([], InvalidManifest)
    else
      match ReadJournal(d)
      case Err(e) => Refuse([], e)
      case Ok(None) => Refuse([], NotPrepared)
      case Ok(Some(j)) =>
        if m.terms.destination != j.hostId then Refuse([], WrongDestination)
        else
          match BotIdentity(credential)
          case Err(e) => Refuse([], e)
          case Ok(bot) =>
            if bot != m.terms.botId then Refuse([], WrongBot)
            else if (j.phase.Staged? || j.phase.Active?) && j.transfer.Some?
                    && j.transfer.value.manifest == m then
              Plan([], Imported(j.phase, m.terms.transferId))
            else if j.phase.Owner() then Refuse([], DestinationNotInactive)
            else if m.terms.epoch <= j.epoch then Refuse([], StaleEpoch)
            else Journalled([], Importing, StagedJournal(j, m), Imported(Staged, m.terms.transferId))
  }

  function ActivatePlan(d: Disk, r: Receipt): Plan {
    match ReadJournal(d)
    case Err(e) => Refuse([], e)
    case Ok(None) => Refuse([], NotPrepared)
    case Ok(Some(j)) =>
      if j.transfer.None? || !ReceiptMatches(j.transfer.value.manifest, r) then
        Refuse([], ReceiptMismatch)
      else
        var m := j.transfer.value.manifest;
        if j.phase.Active? then Plan([], Activated(j.epoch, m.terms.checkpoint))
        else if !j.phase.Staged? then Refuse([], ReceiptMismatch)
        else
          Journalled([WCheckpoint(m.terms.checkpoint)] + UnstopWrites(d, j.fence.value),
                     Activating, ActivatedJournal(j, m),
                     Activated(m.terms.epoch, m.terms.checkpoint))
  }

  // ---- Polling --------------------------------------------------------------

  datatype Document = Malformed | ApiError(code: int) | Updates(updates: seq<Update>)

  // What a poll gets back from the network.
  datatype Answer = HttpError(code: int) | NetworkLost | Body(document: Document)

  function CodeRefusal(code: int): Refusal {
    if code == 409 then ApiConflict
    else if code == 401 || code == 403 then CredentialFailure
    else ApiFailure
  }

  // Either the poll is refused without writing anything, or it may leave at this offset.
  function Admission(d: Disk, hasToken: bool): Result<nat, Reply> {
    if !d.stop.NoStop? then Err(PollStopped)
    else
      match ReadJournal(d)
      case Err(e) => Err(Refused(e))
      case Ok(None) => Err(Refused(NotEnrolled))
      case Ok(Some(j)) =>
        if !j.phase.Active? then Err(PollPending)
        else if j.conflict then Err(Refused(ApiConflict))
        else
          match ReadCheckpoint(d, true)
          case Err(e) => Err(Refused(e))
          case Ok(n) => if hasToken then Ok(n) else Err(Refused(CredentialFailure))
  }

  function MarkerWrite(d: Disk, offset: nat): Write
    requires d.journal.Some?
  {
    WMarker(Marker(d.journal.value.epoch, offset))
  }

  // A 409 latches the conflict stop; every completed request takes the marker down.
  function ClosingWrites(j: Journal, reply: Reply): seq<Write> {
    (if reply == Refused(ApiConflict) then [WJournal(Latching, j.(conflict := true))] else []) + [WClear]
  }

  // Everything a poll writes after the answer, on a disk whose marker is down.
  function AnswerPlan(d: Disk, answer: Answer, operator: string): Plan
    requires d.journal.Some?
  {
    match answer
    case NetworkLost => Refuse([], NetworkFailure)
    case HttpError(code) =>
      var reply := Refused(CodeRefusal(code));
      Plan(ClosingWrites(d.journal.value, reply), reply)
    case Body(document) =>
      var c := CapturePlan(d, document, operator);
      Plan(c.writes + ClosingWrites(d.journal.value, c.reply), c.reply)
  }

  function PollPlan(d: Disk, hasToken: bool, answer: Answer, operator: string): Plan {
    match Admission(d, hasToken)
    case Err(reply) => Plan([], reply)
    case Ok(offset) =>
      var mark := MarkerWrite(d, offset);
      var p := AnswerPlan(Apply(d, mark), answer, operator);
      Plan([mark] + p.writes, p.reply)
  }

  // ---- Capture --------------------------------------------------------------

  function Max(a: nat, b: nat): nat {
    if a < b then b else a
  }

  function MaxId(checkpoint: nat, us: seq<Update>): nat {
    if us == [] then checkpoint
    else Max(MaxId(checkpoint, us[..|us| - 1]), us[|us| - 1].id)
  }

  function Records(us: seq<Update>, operator: string): seq<Record> {
    if us == [] then []
    else
      var u := us[|us| - 1];
      Records(us[..|us| - 1], operator)
      + if Eligible(u, operator) then [RecordOf(u, operator)] else []
  }

  datatype Publishing = Publishing(writes: seq<Write>, inbox: map<nat, Record>, clash: bool)

  // Publish in order; an equal record is skipped, a different one under the same name stops all.
  function Publish(inbox: map<nat, Record>, rs: seq<Record>): Publishing {
    if rs == [] then Publishing([], inbox, false)
    else
      var p := Publish(inbox, rs[..|rs| - 1]);
      var r := rs[|rs| - 1];
      if p.clash then p
      else if r.id in p.inbox then p.(clash := p.inbox[r.id] != r)
      else Publishing(p.writes + [WRecord(r)], p.inbox[r.id := r], false)
  }

  function CapturePlan(d: Disk, document: Document, operator: string): Plan {
    match document
    case Malformed => Refuse([], MalformedResponse)
    case ApiError(code) => Refuse([], CodeRefusal(code))
    case Updates(us) =>
      match ReadCheckpoint(d, false)
      case Err(e) => Refuse([], e)
      case Ok(n) =>
        var rs := Records(us, operator);
        var p := Publish(d.inbox, rs);
        if p.clash then Refuse(p.writes, RecordConflict)
        else
          var top := MaxId(n, us);
          Plan(p.writes + (if top > n then [WCheckpoint(top)] else []),
               Captured(if rs != [] then CapturedSome else if us == [] then CapturedEmpty else CapturedNone,
                        |us|, |rs|, top))
  }

  // ---- The verbs that run under the lock --------------------------------------

  datatype Verb =
    | Enroll(hostId: string)
    | Fence(preexisting: bool)
    | Prepare(hostId: string, credential: Option<string>)
    | Export(destination: string, credential: Option<string>,
             transferId: string, secret: string, preexisting: bool)
    | Commit(manifest: Manifest)
    | Cancel(outstanding: Option<string>)
    | Reconcile
    | Import(manifest: Manifest, credential: Option<string>)
    | Activate(receipt: Receipt)

  function PlanOf(d: Disk, verb: Verb): Plan {
    match verb
    case Enroll(id) => EnrollPlan(d, id)
    case Fence(pre) => FencePlan(d, pre)
    case Prepare(id, credential) => PreparePlan(d, id, credential)
    case Export(destination, credential, tid, secret, pre) =>
      ExportPlan(d, destination, credential, tid, secret, pre)
    case Commit(m) => CommitPlan(d, m)
    case Cancel(tid) => CancelPlan(d, tid)
    case Reconcile => ReconcilePlan(d)
    case Import(m, credential) => ImportPlan(d, m, credential)
    case Activate(r) => ActivatePlan(d, r)
  }
}
