/** Re-running an interrupted transfer: whatever was cut short, and however often, the transfer
    stays resumable on the same offer, and one clean run completes it. */
module Resumption {
  import opened Prelude
  import opened ReaderState
  import opened ReaderVerbs
  import opened ReaderHost
  import opened World
  import opened Legality
  import opened Ownership
  import opened Landings
  import opened Runs
  import opened Safety
  import opened Recovery
  import opened Coordinator

  predicate InPhase(d: Disk, phases: set<Phase>) {
    d.journal.Some? && ValidJournal(d.journal.value) && d.journal.value.phase in phases
  }

  // The offer the source has made durable, open or committed.
  function OfferOn(d: Disk): Option<Manifest> {
    if InPhase(d, {Offered, Transferred}) then Some(d.journal.value.transfer.value.manifest) else None
  }

  // The epoch the destination will be activated at.
  function NextEpoch(d: Disk): nat {
    if OfferOn(d).Some? then OfferOn(d).value.terms.epoch
    else if d.journal.Some? then d.journal.value.epoch + 1 else 0
  }

  predicate WellFormedJob(job: Job) {
    && ValidHostId(job.destination)
    && job.sourceCredential.Some? && ValidBotId(job.sourceCredential.value)
    && job.destinationCredential == job.sourceCredential
    && HexOf(job.transferId, 16) && HexOf(job.secret, 64)
  }

  // A drained owner, or a source that has already made its offer to this destination.
  predicate SourceReady(d: Disk, job: Job) {
    && InPhase(d, {Active, Fenced, Offered, Transferred})
    && d.journal.value.hostId != job.destination
    && if OfferOn(d).None? then
         Drained(d) && d.checkpoint.Holds?
       else
         var t := OfferOn(d).value.terms;
         && t.destination == job.destination && Some(t.botId) == job.sourceCredential
         && t.commitHash == HashOf(d.journal.value.transfer.value.secret.value)
  }

  // A machine that never enrolled, or an inactive host below that epoch.
  predicate DestinationReady(d: Disk, job: Job, epoch: nat) {
    d.journal.Some? ==>
      && ValidJournal(d.journal.value) && d.journal.value.hostId == job.destination
      && !d.journal.value.phase.Owner() && d.journal.value.epoch < epoch
  }

  // The source has committed and the destination is active on that very transfer.
  predicate HandedOver(ds: Disk, dd: Disk, job: Job) {
    && InPhase(ds, {Transferred}) && InPhase(dd, {Active})
    && dd.journal.value.hostId == job.destination
    && dd.journal.value.transfer.Some? && OfferOn(ds) == Some(dd.journal.value.transfer.value.manifest)
  }

  predicate Resumable(ds: Disk, dd: Disk, job: Job) {
    && WellFormedJob(job) && SourceReady(ds, job)
    && (DestinationReady(dd, job, NextEpoch(ds)) || HandedOver(ds, dd, job))
  }

  // The offer in `before`, if there is one, is the offer in `after`.
  predicate SameOffer(before: Disk, after: Disk) {
    OfferOn(before).Some? ==> OfferOn(after) == OfferOn(before)
  }

  // ---- One call -----------------------------------------------------------------------

  lemma AskIsShort(d: Disk, plan: Plan, call: Call)
    requires |plan.writes| <= 3
    ensures Ask(d, plan, call).disk == ApplyAll(d, Landed(plan.writes, Lifetime(call)))
    ensures Ask(d, plan, call).reply == Heard(call, plan.reply)
  {
  }

  lemma PrepareCall(dd: Disk, job: Job, epoch: nat, call: Call)
    requires WellFormedJob(job) && epoch > 0 && DestinationReady(dd, job, epoch)
    ensures var p := Ask(dd, PreparePlan(dd, job.destination, job.destinationCredential), call);
            && DestinationReady(p.disk, job, epoch)
            && (call.Clean? ==> p.reply.Prepared?)
            && p.reply != Refused(DestinationNotInactive)
            && (p.reply.Prepared? ==> p.disk.journal.Some?)
  {
    var plan := PreparePlan(dd, job.destination, job.destinationCredential);
    AskIsShort(dd, plan, call);
    Prefixes(dd, plan.writes, Lifetime(call));
  }

  // A source that has made its offer only puts its stop file back.
  lemma OfferRepeated(ds: Disk, job: Job)
    requires WellFormedJob(job) && SourceReady(ds, job) && OfferOn(ds).Some?
    ensures ExportRun(ds, job.destination, job.sourceCredential, job.transferId, job.secret)
         == Plan(StopWrites(ds), Offer(ds.journal.value.phase, OfferOn(ds).value))
  {
    var d := ApplyAll(ds, StopWrites(ds));
    Prefixes(ds, StopWrites(ds), 1);
    assert Landed(StopWrites(ds), 1) == StopWrites(ds);
    assert ExportPlan(d, job.destination, job.sourceCredential, job.transferId, job.secret, !ds.stop.NoStop?)
        == Plan([], Offer(ds.journal.value.phase, OfferOn(ds).value));
  }

  function FenceOf(ds: Disk): Journal
    requires ds.journal.Some?
  {
    if ds.journal.value.phase.Active? then FencedJournal(ds.journal.value, !ds.stop.NoStop?) else ds.journal.value
  }

  function OfferedJournal(ds: Disk, job: Job): Journal
    requires ds.journal.Some? && ds.checkpoint.Holds? && job.sourceCredential.Some?
  {
    var f := FenceOf(ds);
    var m := NewManifest(f, job.destination, job.sourceCredential.value, ds.checkpoint.value, job.transferId, job.secret);
    f.(phase := Offered, transfer := Some(Transfer(m, Some(job.secret))))
  }

  // A drained owner stops, fences if it must, and offers.
  lemma FirstOfferPlan(ds: Disk, job: Job)
    requires WellFormedJob(job) && SourceReady(ds, job) && OfferOn(ds).None?
    ensures var plan := ExportRun(ds, job.destination, job.sourceCredential, job.transferId, job.secret);
            var o := OfferedJournal(ds, job);
            && ValidJournal(FenceOf(ds)) && ValidJournal(o)
            && plan.writes == StopWrites(ds)
                            + (if ds.journal.value.phase.Active? then [WJournal(Fencing, FenceOf(ds))] else [])
                            + [WJournal(Offering, o)]
            && plan.reply == Offer(Offered, o.transfer.value.manifest)
  {
    Prefixes(ds, StopWrites(ds), 1);
    assert Landed(StopWrites(ds), 1) == StopWrites(ds);
  }

  // Wherever the first export stops, its journal is the old one, the fenced one or the offer.
  lemma FirstOfferJournals(ds: Disk, job: Job, life: nat)
    requires WellFormedJob(job) && SourceReady(ds, job) && OfferOn(ds).None?
    ensures var ws := ExportRun(ds, job.destination, job.sourceCredential, job.transferId, job.secret).writes;
            var d := ApplyAll(ds, Landed(ws, life));
            && d.journal in {ds.journal, Some(FenceOf(ds)), Some(OfferedJournal(ds, job))}
            && (life >= |ws| ==> d.journal == Some(OfferedJournal(ds, job)))
            && d.checkpoint == ds.checkpoint && d.inbox == ds.inbox && d.marker == ds.marker
  {
    FirstOfferPlan(ds, job);
    Prefixes(ds, ExportRun(ds, job.destination, job.sourceCredential, job.transferId, job.secret).writes, life);
  }

  lemma FirstOffer(ds: Disk, job: Job, call: Call)
    requires WellFormedJob(job) && SourceReady(ds, job) && OfferOn(ds).None?
    ensures var e := Ask(ds, ExportRun(ds, job.destination, job.sourceCredential, job.transferId, job.secret), call);
            && SourceReady(e.disk, job) && NextEpoch(e.disk) == NextEpoch(ds)
            && (call.Clean? ==> e.reply.Offer?)
            && (e.reply.Offer? ==> OfferOn(e.disk) == Some(e.reply.manifest))
  {
    ExportRunIsShort(ds, job);
    AskIsShort(ds, ExportRun(ds, job.destination, job.sourceCredential, job.transferId, job.secret), call);
    FirstOfferPlan(ds, job);
    FirstOfferJournals(ds, job, Lifetime(call));
  }

  lemma ExportCall(ds: Disk, job: Job, call: Call)
    requires WellFormedJob(job) && SourceReady(ds, job)
    ensures var e := Ask(ds, ExportRun(ds, job.destination, job.sourceCredential, job.transferId, job.secret), call);
            && SourceReady(e.disk, job) && NextEpoch(e.disk) == NextEpoch(ds) && SameOffer(ds, e.disk)
            && (call.Clean? ==> e.reply.Offer?)
            && (e.reply.Offer? ==> OfferOn(e.disk) == Some(e.reply.manifest))
            && (OfferOn(ds).Some? ==> e.disk == ds.(stop := e.disk.stop))
  {
    if OfferOn(ds).None? {
      FirstOffer(ds, job, call);
    } else {
      OfferRepeated(ds, job);
      AskIsShort(ds, Plan(StopWrites(ds), Killed), call);
      Prefixes(ds, StopWrites(ds), Lifetime(call));
    }
  }

  lemma ImportCall(ds: Disk, dd: Disk, m: Manifest, job: Job, call: Call)
    requires Resumable(ds, dd, job) && OfferOn(ds) == Some(m) && dd.journal.Some?
    ensures var i := Ask(dd, ImportPlan(dd, m, job.destinationCredential), call);
            && Resumable(ds, i.disk, job)
            && (call.Clean? ==> i.reply.Imported?)
            && (i.reply.Imported? ==> StagedOn(i.disk, m) || (i.disk == dd && HandedOver(ds, dd, job)))
            && (HandedOver(ds, dd, job) ==> i.disk == dd)
  {
    var plan := ImportPlan(dd, m, job.destinationCredential);
    AskIsShort(dd, plan, call);
    Prefixes(dd, plan.writes, Lifetime(call));
  }

  lemma CommitCall(ds: Disk, dd: Disk, m: Manifest, job: Job, call: Call)
    requires Resumable(ds, dd, job) && OfferOn(ds) == Some(m)
    ensures var c := Ask(ds, CommitPlan(ds, m), call);
            && Resumable(c.disk, dd, job) && OfferOn(c.disk) == Some(m)
            && (call.Clean? ==> c.reply.Committed?)
            && (c.reply.Committed? ==> InPhase(c.disk, {Transferred}) && ReceiptMatches(m, c.reply.receipt))
            && (InPhase(ds, {Transferred}) ==> c.disk == ds)
  {
    var plan := CommitPlan(ds, m);
    AskIsShort(ds, plan, call);
    Prefixes(ds, plan.writes, Lifetime(call));
  }

  lemma ActivateCall(ds: Disk, dd: Disk, m: Manifest, r: Receipt, job: Job, call: Call)
    requires Resumable(ds, dd, job) && OfferOn(ds) == Some(m) && InPhase(ds, {Transferred})
    requires ReceiptMatches(m, r) && (StagedOn(dd, m) || HandedOver(ds, dd, job))
    ensures var a := Ask(dd, ActivatePlan(dd, r), call);
            && Resumable(ds, a.disk, job)
            && (call.Clean? ==> a.reply.Activated?)
            && (a.reply.Activated? ==> HandedOver(ds, a.disk, job))
            && (HandedOver(ds, dd, job) ==> a.disk == dd)
  {
    var plan := ActivatePlan(dd, r);
    AskIsShort(dd, plan, call);
    Prefixes(dd, plan.writes, Lifetime(call));
  }

  // ---- The whole transfer --------------------------------------------------------------

  lemma HandOverKeeps(ds: Disk, dd: Disk, m: Manifest, job: Job, calls: Calls)
    requires Resumable(ds, dd, job) && OfferOn(ds) == Some(m) && dd.journal.Some?
    ensures var o := HandOver(ds, dd, m, job, calls);
            && Resumable(o.source, o.destination, job) && OfferOn(o.source) == Some(m)
            && (calls == AllClean ==> o.report.Done?)
            && (o.report.Done? ==> o.report.manifest == m && HandedOver(o.source, o.destination, job))
            && (HandedOver(ds, dd, job) ==> o.source == ds && o.destination == dd)
  {
    ImportCall(ds, dd, m, job, calls.stage);
    var i := Ask(dd, ImportPlan(dd, m, job.destinationCredential), calls.stage);
    if i.reply.Imported? {
      CommitCall(ds, i.disk, m, job, calls.commit);
      var c := Ask(ds, CommitPlan(ds, m), calls.commit);
      if c.reply.Committed? {
        ActivateCall(c.disk, i.disk, m, c.reply.receipt, job, calls.activate);
      }
    }
  }

  /** Any interruption, at any call and any durable write, leaves the transfer resumable, on the
      offer it already had; a transfer that is complete stays as it is. */
  lemma InterruptionIsResumable(ds: Disk, dd: Disk, job: Job, calls: Calls)
    requires Resumable(ds, dd, job)
    ensures var o := Coordination(ds, dd, job, calls);
            && Resumable(o.source, o.destination, job) && SameOffer(ds, o.source)
            && (o.report.Done? ==>
                  HandedOver(o.source, o.destination, job) && OfferOn(o.source) == Some(o.report.manifest))
            && (HandedOver(ds, dd, job) ==>
                  && o.destination == dd
                  && o.source.journal == ds.journal && o.source.checkpoint == ds.checkpoint
                  && o.source.inbox == ds.inbox && o.source.marker == ds.marker)
  {
    var p := Ask(dd, PreparePlan(dd, job.destination, job.destinationCredential), calls.prepare);
    PrepareCallEither(ds, dd, job, calls);
    var e := Ask(ds, ExportRun(ds, job.destination, job.sourceCredential, job.transferId, job.secret), calls.offer);
    ExportCall(ds, job, calls.offer);
    if p.reply.Prepared? || (p.reply == Refused(DestinationNotInactive) && HandedTo(ds, calls.status, job.destination)) {
      if e.reply.Offer? {
        HandOverKeeps(e.disk, p.disk, e.reply.manifest, job, calls);
      }
    }
  }

  // Preparing never disturbs a destination that already owns the bot.
  lemma PrepareCallEither(ds: Disk, dd: Disk, job: Job, calls: Calls)
    requires Resumable(ds, dd, job)
    ensures var p := Ask(dd, PreparePlan(dd, job.destination, job.destinationCredential), calls.prepare);
            && Resumable(ds, p.disk, job)
            && (HandedOver(ds, dd, job) ==> p.disk == dd)
            && (calls == AllClean ==>
                  p.reply.Prepared?
                  || (p.reply == Refused(DestinationNotInactive) && HandedTo(ds, calls.status, job.destination)))
            && (p.reply.Prepared? || p.reply == Refused(DestinationNotInactive) ==> p.disk.journal.Some?)
  {
    if DestinationReady(dd, job, NextEpoch(ds)) {
      PrepareCall(dd, job, NextEpoch(ds), calls.prepare);
    } else {
      AskIsShort(dd, PreparePlan(dd, job.destination, job.destinationCredential), calls.prepare);
    }
  }

  /** A clean run completes the transfer: the source transferred, the destination active, on the
      outstanding offer where there was one. */
  lemma CleanRunCompletes(ds: Disk, dd: Disk, job: Job)
    requires Resumable(ds, dd, job)
    ensures var o := Coordination(ds, dd, job, AllClean);
            && o.report.Done? && HandedOver(o.source, o.destination, job)
            && OfferOn(o.source) == Some(o.report.manifest)
            && (OfferOn(ds).Some? ==> o.report.manifest == OfferOn(ds).value)
  {
    var p := Ask(dd, PreparePlan(dd, job.destination, job.destinationCredential), Clean);
    PrepareCallEither(ds, dd, job, AllClean);
    ExportCall(ds, job, Clean);
    var e := Ask(ds, ExportRun(ds, job.destination, job.sourceCredential, job.transferId, job.secret), Clean);
    HandOverKeeps(e.disk, p.disk, e.reply.manifest, job, AllClean);
  }

  // ---- Transfers that need not succeed -------------------------------------------------

  // A source of this bot: an owner, or one that has handed it over.
  predicate AtSource(d: Disk) {
    && InPhase(d, {Active, Fenced, Offered, Transferred})
    && (OfferOn(d).Some? ==>
          OfferOn(d).value.terms.commitHash == HashOf(d.journal.value.transfer.value.secret.value))
  }

  predicate HasCommitted(d: Disk) {
    InPhase(d, {Transferred})
  }

  // Asking for the receipt again writes nothing and yields one that fits the offer.
  predicate ReceiptRecoverable(d: Disk) {
    && OfferOn(d).Some?
    && var m, plan := OfferOn(d).value, CommitPlan(d, OfferOn(d).value);
       plan.writes == [] && plan.reply.Committed? && ReceiptMatches(m, plan.reply.receipt)
  }

  // The destination is staged, or active, on this very manifest.
  predicate Carried(d: Disk, m: Manifest) {
    InPhase(d, {Staged, Active}) && d.journal.value.transfer.Some? && d.journal.value.transfer.value.manifest == m
  }

  // Only the journal and the stop file may differ.
  predicate SameFiles(d: Disk, d': Disk) {
    d'.checkpoint == d.checkpoint && d'.marker == d.marker && d'.inbox == d.inbox
  }

  // What one call may do to the source.
  predicate SourceStep(ds: Disk, ds': Disk) {
    AtSource(ds') && SameOffer(ds, ds') && SameFiles(ds, ds')
  }

  // A journal export may write: fenced, or offered under the secret's hash.
  predicate SourceWrite(w: Write) {
    && w.WJournal? && ValidJournal(w.journal) && w.journal.phase in {Fenced, Offered}
    && (w.journal.phase.Offered? ==>
          w.journal.transfer.value.manifest.terms.commitHash == HashOf(w.journal.transfer.value.secret.value))
  }

  predicate SourceWrites(ws: seq<Write>) {
    |ws| <= 2 && forall i | 0 <= i < |ws| :: SourceWrite(ws[i])
  }

  lemma OfferPlanWrites(
    d: Disk, f: Journal, ws: seq<Write>, destination: string, credential: Option<string>, tid: string, secret: string)
    requires |ws| <= 1 && SourceWrites(ws) && f.phase.Fenced?
    ensures var p := OfferPlan(d, f, ws, destination, credential, tid, secret);
            && SourceWrites(p.writes)
            && (p.reply.Offer? ==>
                  p.writes != [] && var w := p.writes[|p.writes| - 1];
                  w.journal.phase.Offered? && w.journal.transfer.value.manifest == p.reply.manifest)
  {
  }

  lemma ExportWrites(
    ds: Disk, d: Disk, destination: string, credential: Option<string>, tid: string, secret: string, pre: bool)
    requires AtSource(ds) && d.journal == ds.journal
    ensures var p := ExportPlan(d, destination, credential, tid, secret, pre);
            && SourceWrites(p.writes) && (OfferOn(ds).Some? ==> p.writes == [])
            && (p.reply.Offer? ==>
                  if p.writes == [] then OfferOn(ds) == Some(p.reply.manifest)
                  else var w := p.writes[|p.writes| - 1];
                       w.journal.phase.Offered? && w.journal.transfer.value.manifest == p.reply.manifest)
  {
    var j := ds.journal.value;
    if j.phase.Active? || j.phase.Fenced? {
      var f := if j.phase.Active? then FencedJournal(j, pre) else j;
      var ws := if j.phase.Active? then [WJournal(Fencing, f)] else [];
      if ValidJournal(f) {
        OfferPlanWrites(d, f, ws, destination, credential, tid, secret);
      }
    }
  }

  // Wherever the stop file and then such journals are cut, the source is a source.
  lemma SourceWritesKeep(ds: Disk, ws: seq<Write>, life: nat)
    requires AtSource(ds) && SourceWrites(ws) && (OfferOn(ds).Some? ==> ws == [])
    ensures var d := ApplyAll(ds, Landed(StopWrites(ds) + ws, life));
            && SourceStep(ds, d) && (HasCommitted(d) <==> HasCommitted(ds))
            && (life >= |StopWrites(ds) + ws| ==>
                  d.journal == if ws == [] then ds.journal else Some(ws[|ws| - 1].journal))
  {
    Prefixes(ds, StopWrites(ds) + ws, life);
  }

  lemma ExportKeepsSource(ds: Disk, job: Job, call: Call)
    requires AtSource(ds)
    ensures var e := Ask(ds, ExportRun(ds, job.destination, job.sourceCredential, job.transferId, job.secret), call);
            && SourceStep(ds, e.disk) && (HasCommitted(e.disk) <==> HasCommitted(ds))
            && (e.reply.Offer? ==> OfferOn(e.disk) == Some(e.reply.manifest))
  {
    var plan := ExportRun(ds, job.destination, job.sourceCredential, job.transferId, job.secret);
    ExportRunIsShort(ds, job);
    AskIsShort(ds, plan, call);
    if ValidHostId(job.destination) {
      var d := ApplyAll(ds, StopWrites(ds));
      StopApplied(ds);
      var p := ExportPlan(d, job.destination, job.sourceCredential, job.transferId, job.secret, !ds.stop.NoStop?);
      assert plan == Plan(StopWrites(ds) + p.writes, p.reply);
      ExportWrites(ds, d, job.destination, job.sourceCredential, job.transferId, job.secret, !ds.stop.NoStop?);
      SourceWritesKeep(ds, p.writes, Lifetime(call));
    }
  }

  lemma ImportCarries(dd: Disk, m: Manifest, job: Job, call: Call)
    ensures var i := Ask(dd, ImportPlan(dd, m, job.destinationCredential), call);
            && (i.reply.Imported? ==> Carried(i.disk, m))
            && (InPhase(i.disk, {Active}) ==> i.disk == dd)
  {
    var plan := ImportPlan(dd, m, job.destinationCredential);
    AskIsShort(dd, plan, call);
    Prefixes(dd, plan.writes, Lifetime(call));
  }

  lemma CommitKeepsSource(ds: Disk, m: Manifest, call: Call)
    requires AtSource(ds)
    ensures var c := Ask(ds, CommitPlan(ds, m), call);
            && SourceStep(ds, c.disk)
            && (HasCommitted(c.disk) && !HasCommitted(ds) ==> OfferOn(ds) == Some(m))
            && (c.reply.Committed? ==>
                  HasCommitted(c.disk) && OfferOn(c.disk) == Some(m) && ReceiptMatches(m, c.reply.receipt))
  {
    var plan := CommitPlan(ds, m);
    AskIsShort(ds, plan, call);
    Prefixes(ds, plan.writes, Lifetime(call));
  }

  lemma ActivateCarries(dd: Disk, m: Manifest, r: Receipt, call: Call)
    requires Carried(dd, m)
    ensures var a := Ask(dd, ActivatePlan(dd, r), call);
            Carried(a.disk, m) && (a.reply.Activated? ==> InPhase(a.disk, {Active}))
  {
    var plan := ActivatePlan(dd, r);
    AskIsShort(dd, plan, call);
    Prefixes(dd, plan.writes, Lifetime(call));
  }

  lemma PrepareNeverActivates(dd: Disk, job: Job, call: Call)
    ensures var p := Ask(dd, PreparePlan(dd, job.destination, job.destinationCredential), call);
            InPhase(p.disk, {Active}) ==> p.disk == dd
  {
    var plan := PreparePlan(dd, job.destination, job.destinationCredential);
    AskIsShort(dd, plan, call);
    Prefixes(dd, plan.writes, Lifetime(call));
  }

  lemma ReceiptStays(d: Disk)
    requires AtSource(d) && HasCommitted(d)
    ensures ReceiptRecoverable(d)
  {
  }

  lemma HandOverIsSafe(ds: Disk, dd: Disk, m: Manifest, job: Job, calls: Calls)
    requires AtSource(ds) && OfferOn(ds) == Some(m)
    ensures var o := HandOver(ds, dd, m, job, calls);
            && SourceStep(ds, o.source)
            && (HasCommitted(o.source) && !HasCommitted(ds) ==> Carried(o.destination, m))
            && (InPhase(o.destination, {Active}) && o.destination != dd ==>
                  HasCommitted(o.source) && Carried(o.destination, m))
            && (o.report.Done? ==>
                  o.report.manifest == m && HasCommitted(o.source)
                  && Carried(o.destination, m) && InPhase(o.destination, {Active}))
            && (o.report.StoppedAt? && o.report.leg.Importation? ==> o.source == ds)
  {
    ImportCarries(dd, m, job, calls.stage);
    var i := Ask(dd, ImportPlan(dd, m, job.destinationCredential), calls.stage);
    if i.reply.Imported? {
      CommitKeepsSource(ds, m, calls.commit);
      var c := Ask(ds, CommitPlan(ds, m), calls.commit);
      if c.reply.Committed? {
        ActivateCarries(i.disk, m, c.reply.receipt, calls.activate);
      }
    }
  }

  lemma TransferKeeps(ds: Disk, dd: Disk, job: Job, calls: Calls)
    requires AtSource(ds)
    ensures var o := Coordination(ds, dd, job, calls);
            && SourceStep(ds, o.source)
            && (HasCommitted(o.source) && !HasCommitted(ds) ==> Carried(o.destination, OfferOn(o.source).value))
            && (InPhase(o.destination, {Active}) && o.destination != dd ==>
                  HasCommitted(o.source) && Carried(o.destination, OfferOn(o.source).value))
            && (o.report.Done? ==>
                  && HasCommitted(o.source) && OfferOn(o.source) == Some(o.report.manifest)
                  && Carried(o.destination, o.report.manifest) && InPhase(o.destination, {Active}))
  {
    PrepareNeverActivates(dd, job, calls.prepare);
    ExportKeepsSource(ds, job, calls.offer);
    var p := Ask(dd, PreparePlan(dd, job.destination, job.destinationCredential), calls.prepare);
    var e := Ask(ds, ExportRun(ds, job.destination, job.sourceCredential, job.transferId, job.secret), calls.offer);
    if e.reply.Offer? {
      HandOverIsSafe(e.disk, p.disk, e.reply.manifest, job, calls);
    }
  }

  /** Whatever the state of both hosts and the arguments, and wherever a call fails or is refused:
      the source is still the owner, or has committed and gives its receipt again; it commits only
      what its destination already carries; its offer, checkpoint, marker and inbox are as they
      were; and the destination is made active only on what the source has committed. */
  lemma TransferIsSafe(ds: Disk, dd: Disk, job: Job, calls: Calls)
    requires AtSource(ds)
    ensures var o := Coordination(ds, dd, job, calls);
            && SourceStep(ds, o.source)
            && (HasCommitted(o.source) ==> ReceiptRecoverable(o.source))
            && (HasCommitted(o.source) && !HasCommitted(ds) ==> Carried(o.destination, OfferOn(o.source).value))
            && (InPhase(o.destination, {Active}) && o.destination != dd ==>
                  HasCommitted(o.source) && Carried(o.destination, OfferOn(o.source).value))
            && (o.report.Done? ==>
                  && HasCommitted(o.source) && OfferOn(o.source) == Some(o.report.manifest)
                  && Carried(o.destination, o.report.manifest) && InPhase(o.destination, {Active}))
  {
    TransferKeeps(ds, dd, job, calls);
    var o := Coordination(ds, dd, job, calls);
    if HasCommitted(o.source) {
      ReceiptStays(o.source);
    }
  }

  /** What stops before the commit leaves an owner an owner. */
  lemma RefusalKeepsOwner(ds: Disk, dd: Disk, job: Job, calls: Calls)
    requires AtSource(ds) && !HasCommitted(ds)
    ensures var o := Coordination(ds, dd, job, calls);
            o.report == InvalidDestinationId
            || (o.report.StoppedAt? && !o.report.leg.Commitment? && !o.report.leg.Activation?)
            ==> InPhase(o.source, {Active, Fenced, Offered})
  {
    ExportKeepsSource(ds, job, calls.offer);
    var p := Ask(dd, PreparePlan(dd, job.destination, job.destinationCredential), calls.prepare);
    var e := Ask(ds, ExportRun(ds, job.destination, job.sourceCredential, job.transferId, job.secret), calls.offer);
    if e.reply.Offer? {
      HandOverIsSafe(e.disk, p.disk, e.reply.manifest, job, calls);
    }
  }

  // ---- Any number of interruptions ------------------------------------------------------

  // A re-run has the same arguments; only what the source would draw is new.
  datatype Attempt = Attempt(transferId: string, secret: string, calls: Calls)

  function Redrawn(job: Job, a: Attempt): Job {
    job.(transferId := a.transferId, secret := a.secret)
  }

  function Attempts(ds: Disk, dd: Disk, job: Job, attempts: seq<Attempt>): (Disk, Disk)
    decreases |attempts|
  {
    if attempts == [] then (ds, dd)
    else
      var o := Coordination(ds, dd, Redrawn(job, attempts[0]), attempts[0].calls);
      Attempts(o.source, o.destination, job, attempts[1..])
  }

  lemma RedrawnResumable(ds: Disk, dd: Disk, job: Job, a: Attempt)
    requires Resumable(ds, dd, job) && HexOf(a.transferId, 16) && HexOf(a.secret, 64)
    ensures Resumable(ds, dd, Redrawn(job, a))
  {
  }

  /** However often the coordinator is interrupted, and wherever, a final clean run completes the
      transfer, and never on any offer but the first that became durable. */
  lemma {:induction false} TransferCompletes(ds: Disk, dd: Disk, job: Job, attempts: seq<Attempt>)
    requires Resumable(ds, dd, job)
    requires forall i | 0 <= i < |attempts| :: HexOf(attempts[i].transferId, 16) && HexOf(attempts[i].secret, 64)
    ensures var (ds', dd') := Attempts(ds, dd, job, attempts);
            var o := Coordination(ds', dd', job, AllClean);
            && o.report.Done? && HandedOver(o.source, o.destination, job)
            && (OfferOn(ds).Some? ==> o.report.manifest == OfferOn(ds).value)
            && (OfferOn(ds').Some? ==> o.report.manifest == OfferOn(ds').value)
    decreases |attempts|
  {
    if attempts == [] {
      CleanRunCompletes(ds, dd, job);
    } else {
      var a := attempts[0];
      RedrawnResumable(ds, dd, job, a);
      InterruptionIsResumable(ds, dd, Redrawn(job, a), a.calls);
      var o := Coordination(ds, dd, Redrawn(job, a), a.calls);
      RedrawnResumable(o.source, o.destination, Redrawn(job, a), Attempt(job.transferId, job.secret, a.calls));
      assert Redrawn(Redrawn(job, a), Attempt(job.transferId, job.secret, a.calls)) == job;
      TransferCompletes(o.source, o.destination, job, attempts[1..]);
    }
  }

  /** Repeating a completed transfer reports the same transfer and changes no journal,
      checkpoint, marker or inbox on either host. */
  lemma RepeatingChangesNothing(ds: Disk, dd: Disk, job: Job)
    requires Resumable(ds, dd, job) && HandedOver(ds, dd, job)
    ensures var o := Coordination(ds, dd, job, AllClean);
            && o.report.Done? && OfferOn(ds) == Some(o.report.manifest)
            && o.destination == dd && o.source == ds.(stop := o.source.stop)
  {
    CleanRunCompletes(ds, dd, job);
    InterruptionIsResumable(ds, dd, job, AllClean);
  }

  // ---- Every run offers such transfers ---------------------------------------------------

  /** In any world of any run, the owner may be transferred to any other host it has not offered
      itself past, once drained; and a committed transfer may always be resumed. */
  lemma RunsAreResumable(ws: seq<World>, steps: seq<Step>, i: nat, s: string, job: Job)
    requires Run(ws, steps) && i <= |steps| && WellFormedJob(job)
    requires s in ws[i].hosts && job.destination in ws[i].hosts && s != job.destination
    requires var d := ws[i].hosts[s].disk;
             if OfferOn(d).None? then Owns(ws[i].hosts[s]) && Drained(d)
             else
               && OfferOn(d).value.terms.destination == job.destination
               && Some(OfferOn(d).value.terms.botId) == job.sourceCredential
               && (Owns(ws[i].hosts[s]) || Pending(ws[i], OfferOn(d).value))
    ensures Resumable(ws[i].hosts[s].disk, ws[i].hosts[job.destination].disk, job)
  {
    Reachable(ws, steps, i);
    var w, t := ws[i], TokenAt(ws, steps, i);
    if OfferOn(w.hosts[s].disk).Some? {
      PendingIsPassing(ws, steps, i, OfferOn(w.hosts[s].disk).value);
    }
    assert DiskOk(w.net, s, w.hosts[s].disk);
    assert DiskOk(w.net, job.destination, w.hosts[job.destination].disk);
    if Owns(w.hosts[s]) {
      OwnerHolds(w, t, s);
    }
  }
}
