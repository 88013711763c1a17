/** The transfer coordinator: five calls to two peers, any of which may fail on the way there, on
    the way back, or half way through its durable writes. */
module Coordinator {
  import opened Prelude
  import opened ReaderState
  import opened ReaderVerbs
  import opened ReaderHost

  // A call that comes back, or one that fails after the peer landed `life` of its writes.
  datatype Call = Clean | Broken(life: nat)

  datatype Calls = Calls(prepare: Call, status: Call, offer: Call, stage: Call, commit: Call, activate: Call)

  const AllClean := Calls(Clean, Clean, Clean, Clean, Clean, Clean)

  datatype Leg = Preparation | Exportation | Importation | Commitment | Activation

  datatype Report = InvalidDestinationId | StoppedAt(leg: Leg, reply: Reply) | Done(manifest: Manifest, receipt: Receipt)

  // The operator's arguments, the credentials of both hosts, and what the source would draw.
  datatype Job = Job(
    destination: string, sourceCredential: Option<string>, destinationCredential: Option<string>,
    transferId: string, secret: string)

  datatype Outcome = Outcome(source: Disk, destination: Disk, report: Report)

  datatype Answered = Answered(disk: Disk, reply: Reply)

  function Ask(d: Disk, plan: Plan, call: Call): Answered {
    match call
    case Clean => Answered(ApplyAll(d, plan.writes), plan.reply)
    case Broken(life) => Answered(ApplyAll(d, Landed(plan.writes, life)), Killed)
  }

  // _already_handed_to
  predicate HandedTo(source: Disk, call: Call, destination: string) {
    && call.Clean?
    && source.journal.Some? && ValidJournal(source.journal.value)
    && source.journal.value.phase.Transferred?
    && source.journal.value.transfer.value.manifest.terms.destination == destination
  }

  function Coordination(ds: Disk, dd: Disk, job: Job, calls: Calls): Outcome {
    if !ValidHostId(job.destination) then Outcome(ds, dd, InvalidDestinationId)
    else
      var p := Ask(dd, PreparePlan(dd, job.destination, job.destinationCredential), calls.prepare);
      if !p.reply.Prepared?
         && !(p.reply == Refused(DestinationNotInactive) && HandedTo(ds, calls.status, job.destination)) then
        Outcome(ds, p.disk, StoppedAt(Preparation, p.reply))
      else
        var e := Ask(ds, ExportRun(ds, job.destination, job.sourceCredential, job.transferId, job.secret), calls.offer);
        if !e.reply.Offer? then Outcome(e.disk, p.disk, StoppedAt(Exportation, e.reply))
        else HandOver(e.disk, p.disk, e.reply.manifest, job, calls)
  }

  // The rest of the transfer, once the source has named its offer.
  function HandOver(ds: Disk, dd: Disk, m: Manifest, job: Job, calls: Calls): Outcome {
    var i := Ask(dd, ImportPlan(dd, m, job.destinationCredential), calls.stage);
    if !i.reply.Imported? then Outcome(ds, i.disk, StoppedAt(Importation, i.reply))
    else
      var c := Ask(ds, CommitPlan(ds, m), calls.commit);
      if !c.reply.Committed? then Outcome(c.disk, i.disk, StoppedAt(Commitment, c.reply))
      else
        var a := Ask(i.disk, ActivatePlan(i.disk, c.reply.receipt), calls.activate);
        if !a.reply.Activated? then Outcome(c.disk, a.disk, StoppedAt(Activation, a.reply))
        else Outcome(c.disk, a.disk, Done(m, c.reply.receipt))
  }

  // ---- Which calls are made, and where they stop -------------------------------------

  // The source says that it has committed ownership to this very destination.
  predicate SaysHandedTo(source: Disk, call: Call, destination: string) {
    && call == Clean && source.journal.Some? && ValidJournal(source.journal.value)
    && source.journal.value.phase == Transferred
    && source.journal.value.transfer.value.manifest.terms.destination == destination
  }

  // The first call, to the destination.
  function FirstCall(dd: Disk, job: Job, calls: Calls): Answered {
    Ask(dd, PreparePlan(dd, job.destination, job.destinationCredential), calls.prepare)
  }

  // Only an owner that the source has handed over to may be passed through.
  predicate MayExport(ds: Disk, dd: Disk, job: Job, calls: Calls) {
    var p := FirstCall(dd, job, calls).reply;
    p.Prepared? || (p == Refused(DestinationNotInactive) && SaysHandedTo(ds, calls.status, job.destination))
  }

  // The second call, to the source.
  function Exported(ds: Disk, job: Job, calls: Calls): Answered {
    Ask(ds, ExportRun(ds, job.destination, job.sourceCredential, job.transferId, job.secret), calls.offer)
  }

  /** A destination that is not prepared, and has not been handed the bot before, ends the transfer:
      the source is not asked for anything. */
  lemma PrepareStops(ds: Disk, dd: Disk, job: Job, calls: Calls)
    ensures !ValidHostId(job.destination) ==> Coordination(ds, dd, job, calls) == Outcome(ds, dd, InvalidDestinationId)
    ensures ValidHostId(job.destination) && !MayExport(ds, dd, job, calls) ==>
              Coordination(ds, dd, job, calls)
              == Outcome(ds, FirstCall(dd, job, calls).disk, StoppedAt(Preparation, FirstCall(dd, job, calls).reply))
  {
  }

  /** In particular a machine enrolled under another id, or owning the bot without a hand-over, is
      left as it is, and so is the source. */
  lemma WrongMachineIsRefused(ds: Disk, dd: Disk, job: Job, calls: Calls)
    requires ValidHostId(job.destination) && dd.journal.Some? && ValidJournal(dd.journal.value)
    requires || dd.journal.value.hostId != job.destination
             || (dd.journal.value.phase in {Active, Fenced, Offered} && !SaysHandedTo(ds, calls.status, job.destination))
    ensures var o := Coordination(ds, dd, job, calls);
            o.source == ds && o.destination == dd && o.report.StoppedAt? && o.report.leg == Preparation
  {
  }

  /** A source that makes no offer ends the transfer where it is: the destination is only prepared. */
  lemma ExportStops(ds: Disk, dd: Disk, job: Job, calls: Calls)
    requires ValidHostId(job.destination) && MayExport(ds, dd, job, calls)
    ensures var p, e, o := FirstCall(dd, job, calls), Exported(ds, job, calls), Coordination(ds, dd, job, calls);
            if e.reply.Offer? then o == HandOver(e.disk, p.disk, e.reply.manifest, job, calls)
            else o == Outcome(e.disk, p.disk, StoppedAt(Exportation, e.reply))
  {
  }

  /** Once there is an offer: a refused import leaves the source alone, a refused commit the
      destination, and the report names the call that ended it, or the manifest and receipt of a
      transfer that is done. */
  lemma HandOverStops(ds: Disk, dd: Disk, m: Manifest, job: Job, calls: Calls)
    ensures var o := HandOver(ds, dd, m, job, calls);
            var i := Ask(dd, ImportPlan(dd, m, job.destinationCredential), calls.stage);
            var c := Ask(ds, CommitPlan(ds, m), calls.commit);
            && (!i.reply.Imported? ==> o == Outcome(ds, i.disk, StoppedAt(Importation, i.reply)))
            && (i.reply.Imported? && !c.reply.Committed? ==> o == Outcome(c.disk, i.disk, StoppedAt(Commitment, c.reply)))
            && (i.reply.Imported? && c.reply.Committed? ==>
                  var a := Ask(i.disk, ActivatePlan(i.disk, c.reply.receipt), calls.activate);
                  o == Outcome(c.disk, a.disk,
                               if a.reply.Activated? then Done(m, c.reply.receipt) else StoppedAt(Activation, a.reply)))
  {
  }

  /** A call that comes back has run to its end and is heard; one that does not has landed so many
      writes and is not. */
  lemma CallsMean(d: Disk, plan: Plan, life: nat)
    ensures Ask(d, plan, Clean) == Answered(ApplyAll(d, plan.writes), plan.reply)
    ensures Ask(d, plan, Broken(life)).reply == Killed
    ensures life >= |plan.writes| ==> Ask(d, plan, Broken(life)).disk == ApplyAll(d, plan.writes)
    ensures life < |plan.writes| ==> Ask(d, plan, Broken(life)).disk == ApplyAll(d, plan.writes[..life])
  {
  }

  // ---- Both peers on one machine ---------------------------------------------------

  datatype Solo = Solo(disk: Disk, report: Report)

  // The coordination of a machine with itself: each call finds what the last one left.
  function Alone(d: Disk, job: Job, calls: Calls): Solo {
    if !ValidHostId(job.destination) then Solo(d, InvalidDestinationId)
    else
      var p := Ask(d, PreparePlan(d, job.destination, job.destinationCredential), calls.prepare);
      if !p.reply.Prepared?
         && !(p.reply == Refused(DestinationNotInactive) && HandedTo(p.disk, calls.status, job.destination)) then
        Solo(p.disk, StoppedAt(Preparation, p.reply))
      else
        var e := Ask(p.disk, ExportRun(p.disk, job.destination, job.sourceCredential, job.transferId, job.secret),
                     calls.offer);
        if !e.reply.Offer? then Solo(e.disk, StoppedAt(Exportation, e.reply))
        else HandOverAlone(e.disk, e.reply.manifest, job, calls)
  }

  function HandOverAlone(d: Disk, m: Manifest, job: Job, calls: Calls): Solo {
    var i := Ask(d, ImportPlan(d, m, job.destinationCredential), calls.stage);
    if !i.reply.Imported? then Solo(i.disk, StoppedAt(Importation, i.reply))
    else
      var c := Ask(i.disk, CommitPlan(i.disk, m), calls.commit);
      if !c.reply.Committed? then Solo(c.disk, StoppedAt(Commitment, c.reply))
      else
        var a := Ask(c.disk, ActivatePlan(c.disk, c.reply.receipt), calls.activate);
        if !a.reply.Activated? then Solo(a.disk, StoppedAt(Activation, a.reply))
        else Solo(a.disk, Done(m, c.reply.receipt))
  }

  // An offer names another host than the one that made it.
  predicate OffersAway(d: Disk) {
    d.journal.Some? ==>
      && ValidJournal(d.journal.value)
      && (d.journal.value.phase.Offered? || d.journal.value.phase.Transferred? ==>
            d.journal.value.transfer.value.manifest.terms.destination != d.journal.value.hostId)
  }

  // Once prepared, a machine is standby, or holds the epoch of a past hand-over; none exports to itself.
  lemma PreparedForItself(d: Disk, job: Job, call: Call)
    requires OffersAway(d) && ValidHostId(job.destination)
    ensures var p := Ask(d, PreparePlan(d, job.destination, job.destinationCredential), call);
            && (p.reply.Prepared? ==>
                  && p.disk.journal.Some? && ValidJournal(p.disk.journal.value) && OffersAway(p.disk)
                  && p.disk.journal.value.hostId == job.destination && !p.disk.journal.value.phase.Owner())
            && (p.reply == Refused(DestinationNotInactive) ==>
                  p.disk == d && d.journal.Some? && d.journal.value.phase.Owner())
            && (d.journal.Some? ==> p.disk == d)
  {
    var plan := PreparePlan(d, job.destination, job.destinationCredential);
    if d.journal.None? && plan.reply.Prepared? && call.Clean? {
      ApplyAllAppend(d, StopWrites(d), [plan.writes[|plan.writes| - 1]]);
      assert plan.writes == StopWrites(d) + [plan.writes[|plan.writes| - 1]];
    }
  }

  lemma NoExportToItself(d: Disk, job: Job)
    requires d.journal.Some? && ValidJournal(d.journal.value) && OffersAway(d)
    requires d.journal.value.hostId == job.destination && !d.journal.value.phase.Owner()
    requires ValidHostId(job.destination)
    ensures ExportRun(d, job.destination, job.sourceCredential, job.transferId, job.secret)
         == Plan(StopWrites(d), Refused(NotOwner))
  {
    StopApplied(d);
    assert StopWrites(d) + [] == StopWrites(d);
  }

  /** A machine is never handed over to itself: the coordinator stops at prepare or export, and an
      enrolled machine keeps its journal, checkpoint, marker and inbox. */
  lemma SelfTransferIsRefused(d: Disk, job: Job, calls: Calls)
    requires OffersAway(d)
    ensures var o := Alone(d, job, calls);
            && (o.report == InvalidDestinationId
                || (o.report.StoppedAt? && (o.report.leg.Preparation? || o.report.leg.Exportation?)))
            && (d.journal.Some? ==> o.disk == d.(stop := o.disk.stop))
  {
    if ValidHostId(job.destination) {
      PreparedForItself(d, job, calls.prepare);
      var p := Ask(d, PreparePlan(d, job.destination, job.destinationCredential), calls.prepare);
      if p.reply.Prepared? {
        NoExportToItself(p.disk, job);
        StopIsAll(p.disk, Plan(StopWrites(p.disk), Refused(NotOwner)), calls.offer);
      }
    }
  }

  lemma StopApplied(d: Disk)
    ensures var d' := ApplyAll(d, StopWrites(d)); d' == d.(stop := d'.stop)
  {
    if d.stop.NoStop? {
      assert [WStop][1..] == [];
    }
  }

  lemma StopIsAll(d: Disk, plan: Plan, call: Call)
    requires plan.writes == StopWrites(d)
    ensures var e := Ask(d, plan, call); e.disk == d.(stop := e.disk.stop)
  {
    StopApplied(d);
    if call.Broken? {
      assert Landed(plan.writes, call.life) == [] || Landed(plan.writes, call.life) == StopWrites(d);
    }
  }

  // ---- The coordinator as it runs -------------------------------------------------

  // More durable writes than any verb makes.
  const AMPLE: nat := 8

  function Lifetime(call: Call): nat {
    if call.Clean? then AMPLE else call.life
  }

  // What the coordinator hears of a call.
  function Heard(call: Call, reply: Reply): Reply {
    if call.Clean? then reply else Killed
  }

  lemma AskIsRun(before: Disk, plan: Plan, call: Call, after: Disk, reply: Reply)
    requires |plan.writes| <= AMPLE && Ran(before, plan, Lifetime(call), after, reply)
    ensures Ask(before, plan, call) == Answered(after, Heard(call, reply))
  {
  }

  method AskPrepare(peer: Reader, job: Job, call: Call) returns (reply: Reply)
    modifies peer
    ensures Answered(peer.Files(), reply)
         == Ask(old(peer.Files()), PreparePlan(old(peer.Files()), job.destination, job.destinationCredential), call)
  {
    ghost var d := peer.Files();
    reply := peer.Prepare(Lifetime(call), job.destination, job.destinationCredential);
    AskIsRun(d, PreparePlan(d, job.destination, job.destinationCredential), call, peer.Files(), reply);
    reply := Heard(call, reply);
  }

  method AskExport(peer: Reader, job: Job, call: Call) returns (reply: Reply)
    modifies peer
    ensures Answered(peer.Files(), reply)
         == Ask(old(peer.Files()),
                ExportRun(old(peer.Files()), job.destination, job.sourceCredential, job.transferId, job.secret), call)
  {
    ghost var d := peer.Files();
    reply := peer.Export(Lifetime(call), job.destination, job.sourceCredential, job.transferId, job.secret);
    ExportRunIsShort(d, job);
    AskIsRun(d, ExportRun(d, job.destination, job.sourceCredential, job.transferId, job.secret), call,
             peer.Files(), reply);
    reply := Heard(call, reply);
  }

  lemma ExportRunIsShort(d: Disk, job: Job)
    ensures |ExportRun(d, job.destination, job.sourceCredential, job.transferId, job.secret).writes| <= 3
  {
  }

  method AskImport(peer: Reader, m: Manifest, job: Job, call: Call) returns (reply: Reply)
    modifies peer
    ensures Answered(peer.Files(), reply)
         == Ask(old(peer.Files()), ImportPlan(old(peer.Files()), m, job.destinationCredential), call)
  {
    ghost var d := peer.Files();
    reply := peer.Import(Lifetime(call), m, job.destinationCredential);
    AskIsRun(d, ImportPlan(d, m, job.destinationCredential), call, peer.Files(), reply);
    reply := Heard(call, reply);
  }

  method AskCommit(peer: Reader, m: Manifest, call: Call) returns (reply: Reply)
    modifies peer
    ensures Answered(peer.Files(), reply) == Ask(old(peer.Files()), CommitPlan(old(peer.Files()), m), call)
  {
    ghost var d := peer.Files();
    reply := peer.Commit(Lifetime(call), m);
    AskIsRun(d, CommitPlan(d, m), call, peer.Files(), reply);
    reply := Heard(call, reply);
  }

  method AskActivate(peer: Reader, receipt: Receipt, call: Call) returns (reply: Reply)
    modifies peer
    ensures Answered(peer.Files(), reply) == Ask(old(peer.Files()), ActivatePlan(old(peer.Files()), receipt), call)
  {
    ghost var d := peer.Files();
    reply := peer.Activate(Lifetime(call), receipt);
    AskIsRun(d, ActivatePlan(d, receipt), call, peer.Files(), reply);
    reply := Heard(call, reply);
  }

  method Coordinate(source: Reader, destination: Reader, job: Job, calls: Calls) returns (report: Report)
    modifies source, destination
    ensures source != destination ==>
              Outcome(source.Files(), destination.Files(), report)
              == Coordination(old(source.Files()), old(destination.Files()), job, calls)
    ensures source == destination ==> Solo(source.Files(), report) == Alone(old(source.Files()), job, calls)
  {
    if !ValidHostId(job.destination) { return InvalidDestinationId; }
    var reply := AskPrepare(destination, job, calls.prepare);
    if !reply.Prepared? {
      if reply != Refused(DestinationNotInactive) || !HandedTo(source.Files(), calls.status, job.destination) {
        return StoppedAt(Preparation, reply);
      }
    }
    reply := AskExport(source, job, calls.offer);
    if !reply.Offer? {
      return StoppedAt(Exportation, reply);
    }
    report := Deliver(source, destination, reply.manifest, job, calls);
  }

  method Deliver(source: Reader, destination: Reader, m: Manifest, job: Job, calls: Calls) returns (report: Report)
    modifies source, destination
    ensures source != destination ==>
              Outcome(source.Files(), destination.Files(), report)
              == HandOver(old(source.Files()), old(destination.Files()), m, job, calls)
    ensures source == destination ==> Solo(source.Files(), report) == HandOverAlone(old(source.Files()), m, job, calls)
  {
    var reply := AskImport(destination, m, job, calls.stage);
    if !reply.Imported? { return StoppedAt(Importation, reply); }
    reply := AskCommit(source, m, calls.commit);
    if !reply.Committed? { return StoppedAt(Commitment, reply); }
    var receipt := reply.receipt;
    reply := AskActivate(destination, receipt, calls.activate);
    if !reply.Activated? { return StoppedAt(Activation, reply); }
    return Done(m, receipt);
  }
}
