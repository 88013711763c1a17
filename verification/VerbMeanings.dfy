/** What each verb and each poll does to the files of its host: what it leaves when it is done, what
    it leaves wherever it is cut, and what it refuses without touching anything. */
module VerbMeanings {
  import opened Prelude
  import opened ReaderState
  import opened ReaderVerbs
  import opened ReaderHost
  import opened CaptureReplay

  // The disk after the first `life` writes of a plan, and after all of them.
  function Cut(d: Disk, plan: Plan, life: nat): Disk {
    ApplyAll(d, Landed(plan.writes, life))
  }

  function Whole(d: Disk, plan: Plan): Disk {
    ApplyAll(d, plan.writes)
  }

  lemma WholeIsCut(d: Disk, plan: Plan)
    requires |plan.writes| <= 3
    ensures Whole(d, plan) == Cut(d, plan, 3)
  {
  }

  // A journal in force: there, and accepted by its own reader.
  predicate InForce(d: Disk) {
    d.journal.Some? && ValidJournal(d.journal.value)
  }

  // ---- Polls -------------------------------------------------------------------------------

  /** A poll is let through exactly on an active host in force that is neither stopped nor latched,
      with a checkpoint and a credential; it asks at that checkpoint.  All others write nothing. */
  lemma AdmittedExactly(d: Disk, hasToken: bool, answer: Answer, operator: string)
    ensures Admission(d, hasToken).Ok? <==>
              && d.stop == NoStop && InForce(d) && d.journal.value.phase == Active && !d.journal.value.conflict
              && d.checkpoint.Holds? && hasToken
    ensures Admission(d, hasToken).Ok? ==> d.checkpoint == Holds(Admission(d, hasToken).value)
    ensures d.stop != NoStop ==> PollPlan(d, hasToken, answer, operator) == Plan([], PollStopped)
    ensures d.stop == NoStop && InForce(d) && d.journal.value.phase != Active ==>
              PollPlan(d, hasToken, answer, operator) == Plan([], PollPending)
    ensures d.stop == NoStop && InForce(d) && d.journal.value.phase == Active && d.journal.value.conflict ==>
              PollPlan(d, hasToken, answer, operator) == Plan([], Refused(ApiConflict))
    ensures !Admission(d, hasToken).Ok? ==> PollPlan(d, hasToken, answer, operator).writes == []
  {
  }

  // The two ways the API says that somebody else is polling.
  predicate SaysConflict(answer: Answer) {
    answer == HttpError(409) || answer == Body(ApiError(409))
  }

  /** A 409 latches the host: once the poll is done no further one is let through.  Wherever it is
      cut, the marker does not come down before the latch is set. */
  lemma ConflictLatches(d: Disk, answer: Answer, operator: string, life: nat, hasToken: bool)
    requires Admission(d, true).Ok? && SaysConflict(answer)
    ensures var plan := PollPlan(d, true, answer, operator);
            var after, cut := Whole(d, plan), Cut(d, plan, life);
            && plan.reply == Refused(ApiConflict)
            && after == d.(journal := Some(d.journal.value.(conflict := true)), marker := None)
            && Admission(after, hasToken) == Err(Refused(ApiConflict))
            && (life > 0 && cut.marker == None ==> cut.journal == after.journal)
  {
    var plan := PollPlan(d, true, answer, operator);
    ConflictWrites(d, answer, operator);
    Prefixes(d, plan.writes, 3);
    Prefixes(d, plan.writes, life);
  }

  lemma ConflictWrites(d: Disk, answer: Answer, operator: string)
    requires Admission(d, true).Ok? && SaysConflict(answer)
    ensures PollPlan(d, true, answer, operator)
         == Plan([WMarker(Marker(d.journal.value.epoch, d.checkpoint.value)),
                  WJournal(Latching, d.journal.value.(conflict := true)), WClear], Refused(ApiConflict))
  {
  }

  lemma {:induction false} JournalOnlyByJournals(d: Disk, ws: seq<Write>)
    requires forall i | 0 <= i < |ws| :: !ws[i].WJournal?
    ensures ApplyAll(d, ws).journal == d.journal
    decreases |ws|
  {
    if ws != [] {
      JournalOnlyByJournals(Apply(d, ws[0]), ws[1..]);
    }
  }

  lemma CaptureWritesNothingElse(d: Disk, document: Document, operator: string)
    ensures var ws := CapturePlan(d, document, operator).writes;
            forall i | 0 <= i < |ws| :: ws[i].WRecord? || ws[i].WCheckpoint?
  {
    if document.Updates? {
      CaptureWrites(d, document.updates, operator);
    }
  }

  // The writes of a poll that was not answered 409.
  lemma PollWrites(d: Disk, hasToken: bool, answer: Answer, operator: string)
    requires !SaysConflict(answer)
    ensures var ws := PollPlan(d, hasToken, answer, operator).writes;
            forall i | 0 <= i < |ws| :: ws[i].WMarker? || ws[i].WRecord? || ws[i].WCheckpoint? || ws[i].WClear?
  {
    if Admission(d, hasToken).Ok? && answer.Body? {
      CaptureWritesNothingElse(Apply(d, MarkerWrite(d, Admission(d, hasToken).value)), answer.document, operator);
      NeverConflict(Apply(d, MarkerWrite(d, Admission(d, hasToken).value)), answer.document, operator);
    }
  }

  lemma NeverConflict(d: Disk, document: Document, operator: string)
    requires document != ApiError(409)
    ensures CapturePlan(d, document, operator).reply != Refused(ApiConflict)
  {
  }

  /** No other answer touches the journal, wherever the poll is cut. */
  lemma OnlyConflictLatches(d: Disk, hasToken: bool, answer: Answer, operator: string, life: nat)
    requires !SaysConflict(answer)
    ensures Cut(d, PollPlan(d, hasToken, answer, operator), life).journal == d.journal
  {
    PollWrites(d, hasToken, answer, operator);
    JournalOnlyByJournals(d, Landed(PollPlan(d, hasToken, answer, operator).writes, life));
  }

  /** A request the network lost keeps its marker, which names the epoch and the offset. */
  lemma LostRequestStays(d: Disk, operator: string, life: nat)
    requires Admission(d, true).Ok?
    ensures var plan := PollPlan(d, true, NetworkLost, operator);
            && plan.reply == Refused(NetworkFailure)
            && Cut(d, plan, life) == if life == 0 then d
               else d.(marker := Some(Marker(d.journal.value.epoch, d.checkpoint.value)))
  {
    Prefixes(d, PollPlan(d, true, NetworkLost, operator).writes, life);
  }

  lemma PollEnds(d: Disk, answer: Answer, operator: string) returns (front: seq<Write>)
    requires Admission(d, true).Ok? && answer != NetworkLost
    ensures PollPlan(d, true, answer, operator).writes == front + [WClear]
  {
    var ws := PollPlan(d, true, answer, operator).writes;
    front := ws[..|ws| - 1];
  }

  /** Every other answer takes the marker down, last of all. */
  lemma AnsweredRequestIsCleared(d: Disk, answer: Answer, operator: string)
    requires Admission(d, true).Ok? && answer != NetworkLost
    ensures Whole(d, PollPlan(d, true, answer, operator)).marker == None
  {
    var front := PollEnds(d, answer, operator);
    ClearedLast(d, front);
  }

  lemma ClearedLast(d: Disk, front: seq<Write>)
    ensures ApplyAll(d, front + [WClear]).marker == None
  {
    ApplyAllAppend(d, front, [WClear]);
  }

  /** What the poll reports for each error code, of the transport or of the API alike. */
  lemma CodesMean(d: Disk, code: int, operator: string)
    requires Admission(d, true).Ok?
    ensures PollPlan(d, true, HttpError(code), operator).reply == PollPlan(d, true, Body(ApiError(code)), operator).reply
    ensures PollPlan(d, true, HttpError(code), operator).reply
         == Refused(if code == 409 then ApiConflict else if code in {401, 403} then CredentialFailure else ApiFailure)
    ensures PollPlan(d, true, Body(Malformed), operator).reply == Refused(MalformedResponse)
  {
  }

  // ---- The stop file ---------------------------------------------------------------------------

  // The fence record says that the stop file was there before, or there is no record.
  predicate NotOurs(d: Disk) {
    d.journal.Some? ==> d.journal.value.fence != Some(false)
  }

  // What a verb may write to the stop file.
  predicate StopWritten(d: Disk, verb: Verb, w: Write) {
    && (w.WUnstop? ==> InForce(d) && d.stop == OwnStop && d.journal.value.fence == Some(false)
                       && (verb.Cancel? || verb.Activate?))
    && (w.WStop? ==> verb.Prepare? && d.stop == NoStop)
    && !w.WMarker? && !w.WClear? && !w.WRecord?
  }

  predicate VerbWrites(d: Disk, verb: Verb, ws: seq<Write>) {
    |ws| <= 3 && forall i | 0 <= i < |ws| :: StopWritten(d, verb, ws[i])
  }

  lemma VerbsAreShort(d: Disk, verb: Verb)
    ensures VerbWrites(d, verb, PlanOf(d, verb).writes)
  {
    match verb
    case Export(destination, credential, tid, secret, pre) => ExportIsPlain(d, destination, credential, tid, secret, pre);
    case Activate(r) => ActivateIsShort(d, r);
    case Cancel(outstanding) => CancelIsShort(d, outstanding);
    case _ =>
  }

  lemma ActivateIsShort(d: Disk, r: Receipt)
    ensures VerbWrites(d, Activate(r), ActivatePlan(d, r).writes)
  {
  }

  lemma CancelIsShort(d: Disk, outstanding: Option<string>)
    ensures VerbWrites(d, Cancel(outstanding), CancelPlan(d, outstanding).writes)
  {
  }

  lemma ExportIsPlain(
    d: Disk, destination: string, credential: Option<string>, tid: string, secret: string, pre: bool)
    ensures var ws := ExportPlan(d, destination, credential, tid, secret, pre).writes;
            |ws| <= 2 && forall i | 0 <= i < |ws| :: ws[i].WJournal?
  {
  }

  /** Wherever a verb is cut: a stop file the transfer did not place stays as it is, the operator's
      own under any record; and only prepare places one. */
  lemma ForeignStopStays(d: Disk, verb: Verb, life: nat)
    ensures var stop := Cut(d, PlanOf(d, verb), life).stop;
            && (d.stop == ForeignStop ==> stop == ForeignStop)
            && (NotOurs(d) && d.stop != NoStop ==> stop == d.stop)
            && (d.stop != OwnStop && !verb.Prepare? ==> stop == d.stop)
            && (!verb.Cancel? && !verb.Activate? && d.stop != NoStop ==> stop == d.stop)
  {
    VerbsAreShort(d, verb);
    Prefixes(d, PlanOf(d, verb).writes, life);
  }

  /** No poll touches the stop file. */
  lemma PollsLeaveTheStop(d: Disk, hasToken: bool, answer: Answer, operator: string, life: nat)
    ensures Cut(d, PollPlan(d, hasToken, answer, operator), life).stop == d.stop
  {
    var plan := PollPlan(d, hasToken, answer, operator);
    if SaysConflict(answer) {
      ConflictLeavesTheStop(d, hasToken, answer, operator);
      StopOnlyByStops(d, Landed(plan.writes, life));
    } else {
      PollWrites(d, hasToken, answer, operator);
      StopOnlyByStops(d, Landed(plan.writes, life));
    }
  }

  lemma ConflictLeavesTheStop(d: Disk, hasToken: bool, answer: Answer, operator: string)
    requires SaysConflict(answer)
    ensures var ws := PollPlan(d, hasToken, answer, operator).writes;
            forall i | 0 <= i < |ws| :: !ws[i].WStop? && !ws[i].WUnstop?
  {
  }

  lemma {:induction false} StopOnlyByStops(d: Disk, ws: seq<Write>)
    requires forall i | 0 <= i < |ws| :: !ws[i].WStop? && !ws[i].WUnstop?
    ensures ApplyAll(d, ws).stop == d.stop
    decreases |ws|
  {
    if ws != [] {
      StopOnlyByStops(Apply(d, ws[0]), ws[1..]);
    }
  }

  // The stop file once the transfer's own is gone.
  function Freed(d: Disk): StopFile
    requires d.journal.Some?
  {
    if d.stop == OwnStop && d.journal.value.fence == Some(false) then NoStop else d.stop
  }

  /** A completed cancel removes the stop file the transfer placed, and that one only. */
  lemma CancelFrees(d: Disk, outstanding: Option<string>)
    requires InForce(d) && CancelPlan(d, outstanding).reply.Cancelled?
    ensures Whole(d, CancelPlan(d, outstanding)).stop == Freed(d)
  {
    WholeIsCut(d, CancelPlan(d, outstanding));
    Prefixes(d, CancelPlan(d, outstanding).writes, 3);
  }

  /** And so does a completed activation. */
  lemma ActivateFrees(d: Disk, r: Receipt)
    requires InForce(d) && d.journal.value.phase == Staged && ActivatePlan(d, r).reply.Activated?
    ensures Whole(d, ActivatePlan(d, r)).stop == Freed(d)
  {
    WholeIsCut(d, ActivatePlan(d, r));
    Prefixes(d, ActivatePlan(d, r).writes, 3);
  }

  // A stop file is down, and the record says whether it was there before.
  predicate StoppedAs(before: Disk, after: Disk) {
    && after.stop == (if before.stop == NoStop then OwnStop else before.stop)
    && after.journal.Some? && after.journal.value.fence == Some(before.stop != NoStop)
  }

  lemma StopIsDown(d: Disk)
    ensures ApplyAll(d, StopWrites(d)) == d.(stop := if d.stop == NoStop then OwnStop else d.stop)
  {
    Prefixes(d, StopWrites(d), 1);
    assert Landed(StopWrites(d), 1) == StopWrites(d);
  }

  lemma StopFirst(d: Disk, ws: seq<Write>, life: nat)
    requires |ws| <= 2 && forall i | 0 <= i < |ws| :: ws[i].WJournal?
    ensures var cut := ApplyAll(d, Landed(StopWrites(d) + ws, life));
            && (d.stop != NoStop ==> cut.stop == d.stop) && cut.stop in {d.stop, OwnStop}
            && (cut.journal != d.journal ==> cut.stop != NoStop)
            && (life >= 3 ==> cut.stop != NoStop)
  {
    Prefixes(d, StopWrites(d) + ws, life);
  }

  /** Fence and export never remove a stop file, put one down if there is none, and touch the journal
      only once it is there. */
  lemma FenceStopsFirst(d: Disk, life: nat)
    ensures var cut := Cut(d, FenceRun(d), life);
            && (d.stop != NoStop ==> cut.stop == d.stop) && cut.stop in {d.stop, OwnStop}
            && (cut.journal != d.journal ==> cut.stop != NoStop)
            && (life >= 3 ==> cut.stop != NoStop)
  {
    StopIsDown(d);
    StopFirst(d, FencePlan(ApplyAll(d, StopWrites(d)), d.stop != NoStop).writes, life);
  }

  lemma ExportStopsFirst(
    d: Disk, destination: string, credential: Option<string>, tid: string, secret: string, life: nat)
    requires ValidHostId(destination)
    ensures var cut := Cut(d, ExportRun(d, destination, credential, tid, secret), life);
            && (d.stop != NoStop ==> cut.stop == d.stop) && cut.stop in {d.stop, OwnStop}
            && (cut.journal != d.journal ==> cut.stop != NoStop)
            && (life >= 3 ==> cut.stop != NoStop)
  {
    var d1 := ApplyAll(d, StopWrites(d));
    ExportIsPlain(d1, destination, credential, tid, secret, d.stop != NoStop);
    StopFirst(d, ExportPlan(d1, destination, credential, tid, secret, d.stop != NoStop).writes, life);
  }

  // ---- Fence, prepare and export ---------------------------------------------------------------

  /** Fencing an active host stops it, records whether it was stopped before, and then answers: a
      marker in flight makes the result indeterminate, fenced all the same. */
  lemma FenceMeans(d: Disk, life: nat)
    requires InForce(d) && d.journal.value.phase == Active && d.checkpoint.Holds?
    ensures var run := FenceRun(d);
            var after, cut := Whole(d, run), Cut(d, run, life);
            && StoppedAs(d, after)
            && after == d.(stop := after.stop,
                           journal := Some(d.journal.value.(phase := Fenced, fence := after.journal.value.fence,
                                                            transfer := None)))
            && run.reply == (if d.marker != None then Refused(IndeterminateInFlight)
                             else FencedAt(d.journal.value.epoch, d.checkpoint.value))
            && (cut.journal != d.journal ==> cut == after)
  {
    StopIsDown(d);
    var run := FenceRun(d);
    assert run.writes == StopWrites(d) + [WJournal(Fencing, FencedJournal(d.journal.value, d.stop != NoStop))];
    WholeIsCut(d, run);
    Prefixes(d, run.writes, 3);
    Prefixes(d, run.writes, life);
  }

  /** A host that does not own the bot is only stopped; an owner already fenced keeps its journal. */
  lemma FenceElsewhere(d: Disk)
    requires d.journal.Some? ==> ValidJournal(d.journal.value) && d.journal.value.phase != Active
    ensures var run := FenceRun(d);
            && Whole(d, run) == d.(stop := if d.stop == NoStop then OwnStop else d.stop)
            && (d.journal == None ==> run.reply == Refused(NotEnrolled))
            && (d.journal.Some? && d.journal.value.phase !in {Fenced, Offered} ==> run.reply == Refused(NotOwner))
            && (d.journal.Some? && d.journal.value.phase in {Fenced, Offered} && d.checkpoint.Holds? ==>
                  run.reply == if d.marker != None then Refused(IndeterminateInFlight)
                               else FencedAt(d.journal.value.epoch, d.checkpoint.value))
  {
    StopIsDown(d);
    assert StopWrites(d) + [] == StopWrites(d);
    assert FenceRun(d).writes == StopWrites(d);
  }

  /** Preparing a host that never enrolled stops it and makes it standby at epoch zero. */
  lemma PrepareMeans(d: Disk, hostId: string, bot: string, life: nat)
    requires ValidHostId(hostId) && ValidBotId(bot) && d.journal == None
    ensures var plan := PreparePlan(d, hostId, Some(bot));
            var after, cut := Whole(d, plan), Cut(d, plan, life);
            && StoppedAs(d, after)
            && after.journal == Some(Journal(hostId, 0, Standby, after.journal.value.fence, None, false))
            && after == d.(stop := after.stop, journal := after.journal)
            && plan.reply == Prepared(0, Standby, bot)
            && (cut.journal != None ==> cut == after)
  {
    var plan := PreparePlan(d, hostId, Some(bot));
    assert plan.writes == StopWrites(d) + [WJournal(Preparing, StandbyJournal(hostId, d.stop != NoStop))];
    WholeIsCut(d, plan);
    Prefixes(d, plan.writes, 3);
    Prefixes(d, plan.writes, life);
  }

  /** A host that has a journal is never changed by prepare: a live reader is refused, and so is
      another machine's id. */
  lemma PrepareLeaves(d: Disk, hostId: string, credential: Option<string>)
    requires InForce(d)
    ensures var plan := PreparePlan(d, hostId, credential);
            && plan.writes == []
            && (plan.reply.Prepared? <==>
                  && ValidHostId(hostId) && credential.Some? && ValidBotId(credential.value)
                  && d.journal.value.hostId == hostId && d.journal.value.phase !in {Active, Fenced, Offered})
            && (plan.reply.Prepared? ==>
                  plan.reply == Prepared(d.journal.value.epoch, d.journal.value.phase, credential.value))
            && (ValidHostId(hostId) && credential.Some? && ValidBotId(credential.value) && d.journal.value.hostId != hostId ==>
                  plan.reply == Refused(HostIdMismatch))
  {
  }

  // What export offers from an owner's disk.
  predicate Offers(d: Disk, destination: string, bot: string, tid: string, secret: string, m: Manifest) {
    && d.journal.Some? && m.digest == DigestOf(m.terms)
    && m.terms.version == 1 && m.terms.botId == bot
    && m.terms.source == d.journal.value.hostId && m.terms.destination == destination
    && m.terms.epoch == d.journal.value.epoch + 1 && m.terms.transferId == tid
    && d.checkpoint == Holds(m.terms.checkpoint) && m.terms.commitHash == HashOf(secret)
  }

  // Nothing in flight, nothing waiting, and not itself.
  predicate MayOffer(d: Disk, destination: string) {
    && d.checkpoint.Holds? && d.marker == None && d.inbox == map[]
    && d.journal.Some? && d.journal.value.hostId != destination
  }

  /** Export from a drained active or fenced owner leaves it stopped and offered, the secret and the
      manifest it replies with on its disk, every other file as it was. */
  lemma ExportMeans(d: Disk, destination: string, bot: string, tid: string, secret: string)
    requires InForce(d) && d.journal.value.phase in {Active, Fenced} && MayOffer(d, destination)
    requires ValidHostId(destination) && ValidBotId(bot) && HexOf(tid, 16) && HexOf(secret, 64)
    ensures var run := ExportRun(d, destination, Some(bot), tid, secret);
            var after := Whole(d, run);
            && run.reply.Offer? && run.reply.phase == Offered && Offers(d, destination, bot, tid, secret, run.reply.manifest)
            && after.journal.Some? && after.journal.value.phase == Offered
            && after.journal.value.transfer == Some(Transfer(run.reply.manifest, Some(secret)))
            && after.journal.value.hostId == d.journal.value.hostId && after.journal.value.epoch == d.journal.value.epoch
            && after.journal.value.conflict == d.journal.value.conflict
            && (if d.journal.value.phase == Active then StoppedAs(d, after)
                else after.journal.value.fence == d.journal.value.fence && after.stop != NoStop)
            && after == d.(stop := after.stop, journal := after.journal)
  {
    StopIsDown(d);
    var run := ExportRun(d, destination, Some(bot), tid, secret);
    assert |run.writes| <= 3;
    WholeIsCut(d, run);
    Prefixes(d, run.writes, 3);
  }

  // What a refused export writes: the stop file, and the fence of an active host.
  lemma RefusedExport(d: Disk, destination: string, credential: Option<string>, tid: string, secret: string)
    requires InForce(d) && d.journal.value.phase in {Active, Fenced} && ValidHostId(destination)
    requires !MayOffer(d, destination) || credential == None || !ValidBotId(credential.value)
    ensures var run, j := ExportRun(d, destination, credential, tid, secret), d.journal.value;
            && run.writes == StopWrites(d) + (if j.phase == Active then [WJournal(Fencing, FencedJournal(j, d.stop != NoStop))] else [])
            && run.reply.Refused?
            && (j.hostId != destination && d.checkpoint.Holds? ==>
                  run.reply.why == (if d.marker != None then IndeterminateInFlight
                                    else if d.inbox != map[] then InboxNotEmpty else CredentialFailure))
  {
    StopIsDown(d);
  }

  /** Export offers nothing while a request is in flight, a record waits, the credential is missing,
      or the destination is the host itself; and it is still stopped. */
  lemma ExportRefuses(d: Disk, destination: string, credential: Option<string>, tid: string, secret: string, life: nat)
    requires InForce(d) && d.journal.value.phase in {Active, Fenced} && ValidHostId(destination)
    requires !MayOffer(d, destination) || credential == None || !ValidBotId(credential.value)
    ensures var run := ExportRun(d, destination, credential, tid, secret);
            && run.reply.Refused? && Whole(d, run).stop != NoStop
            && Cut(d, run, life).journal.Some? && Cut(d, run, life).journal.value.phase in {Active, Fenced}
            && (d.journal.value.hostId != destination && d.checkpoint.Holds? ==>
                  run.reply.why == (if d.marker != None then IndeterminateInFlight
                                    else if d.inbox != map[] then InboxNotEmpty else CredentialFailure))
  {
    RefusedExport(d, destination, credential, tid, secret);
    var j := d.journal.value;
    FenceCut(d, if j.phase == Active then [WJournal(Fencing, FencedJournal(j, d.stop != NoStop))] else [], life);
    FenceCut(d, if j.phase == Active then [WJournal(Fencing, FencedJournal(j, d.stop != NoStop))] else [], 3);
  }

  lemma FenceCut(d: Disk, fence: seq<Write>, life: nat)
    requires d.journal.Some? && d.journal.value.phase in {Active, Fenced} && |fence| <= 1
    requires forall i | 0 <= i < |fence| :: fence[i].WJournal? && fence[i].journal.phase == Fenced
    ensures var ws := StopWrites(d) + fence;
            var cut := ApplyAll(d, Landed(ws, life));
            && cut.journal.Some? && cut.journal.value.phase in {Active, Fenced}
            && (life >= |ws| ==> cut.stop != NoStop && cut == ApplyAll(d, ws))
  {
    Prefixes(d, StopWrites(d) + fence, life);
  }

  /** An owner without a readable checkpoint gives no result: fence and export are refused, and no poll
      is let through. */
  lemma CheckpointIsNeeded(
    d: Disk, destination: string, credential: Option<string>, tid: string, secret: string, answer: Answer, operator: string)
    requires InForce(d) && d.journal.value.phase == Active && !d.checkpoint.Holds?
    requires ValidHostId(destination) && destination != d.journal.value.hostId
    ensures var why := Refused(if d.checkpoint == Missing then InvalidState else InvalidCheckpoint);
            && FenceRun(d).reply == why && ExportRun(d, destination, credential, tid, secret).reply == why
            && (d.stop == NoStop && !d.journal.value.conflict ==> PollPlan(d, true, answer, operator) == Plan([], why))
  {
    StopIsDown(d);
  }

  /** Asked again, a source that has offered or committed names the same manifest to the same
      destination, and to no other. */
  lemma ExportRepeats(d: Disk, destination: string, credential: Option<string>, tid: string, secret: string)
    requires InForce(d) && d.journal.value.phase in {Offered, Transferred} && ValidHostId(destination)
    ensures var run, m := ExportRun(d, destination, credential, tid, secret), d.journal.value.transfer.value.manifest;
            && Whole(d, run).journal == d.journal
            && (if m.terms.destination == destination then run.reply == Offer(d.journal.value.phase, m)
                else run.reply == Refused(if d.journal.value.phase == Offered then OfferedElsewhere else NotOwner))
  {
    StopIsDown(d);
    assert StopWrites(d) + [] == StopWrites(d);
  }

  // ---- Enroll, commit, cancel, reconcile ---------------------------------------------------------

  /** Enrolment keeps a checkpoint that is there, wherever it is cut, starts at zero otherwise, and
      makes the host the active owner at epoch one. */
  lemma EnrollMeans(d: Disk, hostId: string, life: nat)
    requires ValidHostId(hostId) && d.journal == None && d.checkpoint != Garbled
    ensures var plan, n := EnrollPlan(d, hostId), if d.checkpoint.Holds? then d.checkpoint.value else 0;
            && plan.reply == Enrolled(n)
            && Whole(d, plan) == d.(checkpoint := Holds(n), journal := Some(Journal(hostId, 1, Active, None, None, false)))
            && Cut(d, plan, life).checkpoint in {d.checkpoint, Holds(n)}
            && (Cut(d, plan, life).journal != None ==> Cut(d, plan, life) == Whole(d, plan))
  {
    var plan := EnrollPlan(d, hostId);
    WholeIsCut(d, plan);
    Prefixes(d, plan.writes, 3);
    Prefixes(d, plan.writes, life);
  }

  lemma EnrollRefuses(d: Disk, hostId: string)
    ensures EnrollPlan(d, hostId).reply.Enrolled? <==> ValidHostId(hostId) && d.journal == None && d.checkpoint != Garbled
    ensures EnrollPlan(d, hostId).reply.Refused? ==> EnrollPlan(d, hostId).writes == []
  {
  }

  /** Commit answers exactly for the manifest the host has offered or committed, every field of it;
      it leaves the host transferred at the manifest's epoch and reveals the secret. */
  lemma CommitMeans(d: Disk, m: Manifest)
    requires InForce(d)
    ensures var plan, j := CommitPlan(d, m), d.journal.value;
            && (plan.reply.Committed? <==>
                  ValidManifest(m) && j.phase in {Offered, Transferred} && j.transfer.value.manifest == m)
            && (plan.reply.Committed? ==>
                  && plan.reply.receipt.transferId == m.terms.transferId && plan.reply.receipt.epoch == m.terms.epoch
                  && plan.reply.receipt.digest == m.digest && Some(plan.reply.receipt.secret) == j.transfer.value.secret
                  && Whole(d, plan) == if j.phase == Transferred then d
                     else d.(journal := Some(j.(phase := Transferred, epoch := m.terms.epoch))))
            && (!plan.reply.Committed? ==> plan.writes == [])
  {
    WholeIsCut(d, CommitPlan(d, m));
    Prefixes(d, CommitPlan(d, m).writes, 3);
  }

  /** Cancel withdraws exactly an open offer that is named, or a bare fence that is not; a committed
      offer stays.  The host is then active, with no fence and no transfer. */
  lemma CancelMeans(d: Disk, outstanding: Option<string>, life: nat)
    requires InForce(d)
    ensures var plan, j := CancelPlan(d, outstanding), d.journal.value;
            var after, cut := Whole(d, plan), Cut(d, plan, life);
            && (plan.reply.Cancelled? <==>
                  || (j.phase == Offered && outstanding == Some(j.transfer.value.manifest.terms.transferId))
                  || (j.phase == Fenced && outstanding == None))
            && (plan.reply.Cancelled? ==>
                  && plan.reply.epoch == j.epoch
                  && after == d.(stop := after.stop,
                                 journal := Some(j.(phase := Active, fence := None, transfer := None)))
                  && (cut.journal != d.journal ==> cut == after))
            && (!plan.reply.Cancelled? ==> plan.writes == [])
            && (j.phase == Transferred ==> plan.reply == Refused(AlreadyCommitted))
  {
    VerbsAreShort(d, Cancel(outstanding));
    WholeIsCut(d, CancelPlan(d, outstanding));
    Prefixes(d, CancelPlan(d, outstanding).writes, 3);
    Prefixes(d, CancelPlan(d, outstanding).writes, life);
  }

  /** Reconcile clears the latch of an active host and nothing else, and is refused elsewhere. */
  lemma ReconcileMeans(d: Disk)
    requires InForce(d)
    ensures var plan, j := ReconcilePlan(d), d.journal.value;
            && (plan.reply.Reconciled? <==> j.phase == Active)
            && Whole(d, plan) == if j.phase == Active then d.(journal := Some(j.(conflict := false))) else d
  {
    Prefixes(d, ReconcilePlan(d).writes, 3);
    WholeIsCut(d, ReconcilePlan(d));
  }

  // ---- Import and activate -------------------------------------------------------------------------

  /** Import stages a manifest exactly when it is sound, made out to this host, for the bot of this
      host's credential, above this host's epoch, and the host does not own the bot. */
  lemma ImportMeans(d: Disk, m: Manifest, credential: Option<string>)
    requires InForce(d)
    ensures var plan, j := ImportPlan(d, m, credential), d.journal.value;
            var sound := ValidManifest(m) && m.terms.destination == j.hostId && credential == Some(m.terms.botId);
            var known := j.phase in {Staged, Active} && j.transfer.Some? && j.transfer.value.manifest == m;
            && (plan.reply.Imported? <==>
                  sound && (known || (j.phase !in {Active, Fenced, Offered} && m.terms.epoch > j.epoch)))
            && (plan.reply.Imported? ==>
                  && plan.reply.transferId == m.terms.transferId
                  && plan.reply.phase == (if known then j.phase else Staged)
                  && Whole(d, plan) == if known then d
                     else d.(journal := Some(j.(phase := Staged, transfer := Some(Transfer(m, None))))))
            && (!plan.reply.Imported? ==> plan.writes == [])
  {
    WholeIsCut(d, ImportPlan(d, m, credential));
    Prefixes(d, ImportPlan(d, m, credential).writes, 3);
  }

  /** A host with another bot's credential imports nothing and says why. */
  lemma WrongBotIsRefused(d: Disk, m: Manifest, bot: string)
    requires InForce(d) && ValidManifest(m) && m.terms.destination == d.journal.value.hostId
    requires ValidBotId(bot) && bot != m.terms.botId
    ensures ImportPlan(d, m, Some(bot)) == Plan([], Refused(WrongBot))
  {
  }

  // The receipt names the manifest in every field, and its secret is the one committed to.
  predicate Decides(r: Receipt, m: Manifest) {
    && r.transferId == m.terms.transferId && r.epoch == m.terms.epoch && r.digest == m.digest
    && HashOf(r.secret) == m.terms.commitHash && ValidSecret(r.secret)
  }

  /** Activation of a staged host on its receipt takes over checkpoint and epoch; the journal turns
      last, so that a cut leaves it staged.  Any other receipt writes nothing. */
  lemma ActivateMeans(d: Disk, r: Receipt, life: nat)
    requires InForce(d) && d.journal.value.phase == Staged
    ensures var plan, j := ActivatePlan(d, r), d.journal.value;
            var m := j.transfer.value.manifest;
            var after, cut := Whole(d, plan), Cut(d, plan, life);
            && (plan.reply.Activated? <==> Decides(r, m))
            && (plan.reply.Activated? ==>
                  && plan.reply == Activated(m.terms.epoch, m.terms.checkpoint)
                  && after == d.(checkpoint := Holds(m.terms.checkpoint), stop := after.stop,
                                 journal := Some(j.(phase := Active, epoch := m.terms.epoch, fence := None,
                                                    transfer := Some(Transfer(m, None)))))
                  && (cut.journal != d.journal ==> cut == after))
            && (!plan.reply.Activated? ==> plan == Plan([], Refused(ReceiptMismatch)))
  {
    VerbsAreShort(d, Activate(r));
    WholeIsCut(d, ActivatePlan(d, r));
    Prefixes(d, ActivatePlan(d, r).writes, 3);
    Prefixes(d, ActivatePlan(d, r).writes, life);
  }

  /** On any other host activation writes nothing: an active one acknowledges its own receipt. */
  lemma ActivateElsewhere(d: Disk, r: Receipt)
    requires InForce(d) && d.journal.value.phase != Staged
    ensures var plan, j := ActivatePlan(d, r), d.journal.value;
            && plan.writes == []
            && (plan.reply.Activated? <==>
                  j.phase == Active && j.transfer.Some? && Decides(r, j.transfer.value.manifest))
            && (plan.reply.Activated? ==> plan.reply == Activated(j.epoch, j.transfer.value.manifest.terms.checkpoint))
  {
  }

  // ---- Journals and manifests that are not sound -----------------------------------------------------

  /** On a host whose journal its own reader refuses, nothing is ever written. */
  lemma UnsoundJournalIsLeft(d: Disk, verb: Verb, hasToken: bool, answer: Answer, operator: string)
    requires d.journal.Some? && !ValidJournal(d.journal.value)
    ensures PlanOf(d, verb).writes == [] && PollPlan(d, hasToken, answer, operator).writes == []
  {
  }

  /** What no journal in force may be. */
  lemma SoundJournals(j: Journal)
    requires ValidJournal(j)
    ensures j.phase in {Active, Fenced, Offered} ==> j.epoch >= 1
    ensures j.phase == Active <==> j.fence == None
    ensures j.phase in {Offered, Transferred, Staged} ==> j.transfer.Some?
    ensures j.phase in {Fenced, Standby} ==> j.transfer == None
    ensures j.phase in {Offered, Transferred} ==> j.transfer.value.secret.Some? && ValidSecret(j.transfer.value.secret.value)
    ensures j.transfer.Some? ==> ValidManifest(j.transfer.value.manifest)
  {
  }

  /** A manifest edited in any field no longer matches its digest: neither side takes it. */
  lemma EditedManifestIsRefused(m: Manifest, terms: Terms, d: Disk, credential: Option<string>)
    requires m.digest == DigestOf(m.terms) && terms != m.terms
    ensures ImportPlan(d, m.(terms := terms), credential) == Plan([], Refused(InvalidManifest))
    ensures CommitPlan(d, m.(terms := terms)) == Plan([], Refused(InvalidManifest))
  {
  }

  /** Nor one of another version, from a host to itself, or at the epoch of an enrolment. */
  lemma UnsoundTermsAreRefused(m: Manifest, d: Disk, credential: Option<string>)
    requires m.terms.version != 1 || m.terms.source == m.terms.destination || m.terms.epoch < 2
    ensures ImportPlan(d, m, credential) == Plan([], Refused(InvalidManifest))
    ensures CommitPlan(d, m) == Plan([], Refused(InvalidManifest))
  {
  }
}
