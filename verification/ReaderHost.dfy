/** The reader's verbs as they run: file by file, write by write, until done or killed. */
module ReaderHost {
  import opened Prelude
  import opened ReaderState
  import opened ReaderVerbs

  // The fate of one durable write.
  datatype Status = Survived | Lost {
    predicate IsFailure() {
      Lost?
    }

    function PropagateFailure(): Reply {
      Killed
    }
  }

  // The process that read `before` made `plan`, or died after `life` of its writes.
  ghost predicate Ran(before: Disk, plan: Plan, life: nat, after: Disk, reply: Reply) {
    && after == ApplyAll(before, Landed(plan.writes, life))
    && reply == if life < |plan.writes| then Killed else plan.reply
  }

  // The plan of fence and export, whose stop file goes down before the lock is taken.
  function Stopping(d: Disk, plan: (Disk, bool) -> Plan): Plan {
    var p := plan(ApplyAll(d, StopWrites(d)), !d.stop.NoStop?);
    Plan(StopWrites(d) + p.writes, p.reply)
  }

  function FenceRun(d: Disk): Plan {
    Stopping(d, (d', pre) => FencePlan(d', pre))
  }

  function ExportRun(
    d: Disk, destination: string, credential: Option<string>, tid: string, secret: string): Plan
  {
    if !ValidHostId(destination) then Refuse([], InvalidHostId)
    else Stopping(d, (d', pre) => ExportPlan(d', destination, credential, tid, secret, pre))
  }

  class Reader {
    var journal: Option<Journal>
    var checkpoint: CheckpointFile
    var stop: StopFile
    var marker: Option<Marker>
    var inbox: map<nat, Record>

    // How many more durable writes the running process makes before it is killed.
    var life: nat
    // The disk the running process started from, and the writes it has landed since.
    ghost var start: Disk
    ghost var done: seq<Write>

    function Files(): Disk
      reads this
    {
      Disk(journal, checkpoint, stop, marker, inbox)
    }

    ghost predicate Running()
      reads this
    {
      Files() == ApplyAll(start, done)
    }

    // The process is still on `plan`, with the writes of `sofar` behind it.
    ghost predicate At(before: Disk, lived: nat, sofar: seq<Write>)
      reads this
    {
      && Running()
      && start == before
      && done == sofar
      && life + |sofar| == lived
    }

    // Since `sofar`, with `lived` writes left to live, the process has run `plan`.
    ghost predicate Did(sofar: seq<Write>, plan: Plan, lived: nat, reply: Reply)
      reads this
    {
      && Running()
      && done == sofar + Landed(plan.writes, lived)
      && life == lived - |Landed(plan.writes, lived)|
      && reply == if lived < |plan.writes| then Killed else plan.reply
    }

    constructor (d: Disk)
      ensures Files() == d
    {
      journal, checkpoint, stop, marker, inbox := d.journal, d.checkpoint, d.stop, d.marker, d.inbox;
      life, start, done := 0, d, [];
    }

    // A new process, which will live through `lifetime` durable writes.
    method Spawn(lifetime: nat)
      modifies this
      ensures Files() == old(Files())
      ensures At(old(Files()), lifetime, [])
    {
      life, start, done := lifetime, Files(), [];
    }

    method Persist(w: Write) returns (s: Status)
      requires Running()
      modifies this
      ensures start == old(start)
      ensures s.Survived? <==> old(life) > 0
      ensures s.Survived? ==>
                At(start, old(life + |done|), old(done) + [w]) && Files() == Apply(old(Files()), w)
      ensures s.Lost? ==> life == 0 && done == old(done) && Files() == old(Files()) && Running()
    {
      if life == 0 {
        return Lost;
      }
      match w {
        case WJournal(_, j) => journal := Some(j);
        case WCheckpoint(n) => checkpoint := Holds(n);
        case WStop => stop := OwnStop;
        case WUnstop => stop := NoStop;
        case WMarker(m) => marker := Some(m);
        case WClear => marker := None;
        case WRecord(r) => inbox := inbox[r.id := r];
      }
      life, done := life - 1, done + [w];
      ApplyAllAppend(start, old(done), [w]);
      return Survived;
    }

    // _place_stop
    method PlaceStop() returns (s: Status, preexisting: bool)
      requires Running()
      modifies this
      ensures start == old(start)
      ensures preexisting == !old(stop).NoStop?
      ensures s.Lost? ==> old(life) == 0 && done == old(done) && Files() == old(Files()) && Running()
      ensures s.Lost? ==> StopWrites(old(Files())) == [WStop]
      ensures s.Survived? ==>
                && At(start, old(life + |done|), old(done) + StopWrites(old(Files())))
                && Files() == ApplyAll(old(Files()), StopWrites(old(Files())))
    {
      preexisting := !stop.NoStop?;
      s := Survived;
      if !preexisting {
        s := Persist(WStop);
      }
    }

    // _remove_owned_stop
    method RemoveOwnedStop(preexisting: bool) returns (s: Status)
      requires Running()
      modifies this
      ensures start == old(start)
      ensures s.Lost? ==> old(life) == 0 && done == old(done) && Files() == old(Files()) && Running()
      ensures s.Lost? ==> UnstopWrites(old(Files()), preexisting) == [WUnstop]
      ensures s.Survived? ==>
                && At(start, old(life + |done|), old(done) + UnstopWrites(old(Files()), preexisting))
                && Files() == ApplyAll(old(Files()), UnstopWrites(old(Files()), preexisting))
    {
      s := Survived;
      if !preexisting && stop.OwnStop? {
        s := Persist(WUnstop);
      }
    }

    method Enroll(lifetime: nat, hostId: string) returns (r: Reply)
      modifies this
      ensures Ran(old(Files()), EnrollPlan(old(Files()), hostId), lifetime, Files(), r)
    {
      Spawn(lifetime);
      if !ValidHostId(hostId) { return Refused(InvalidHostId); }
      if journal.Some? { return Refused(AlreadyEnrolled); }
      var n := 0;
      match checkpoint {
        case Garbled => return Refused(InvalidCheckpoint);
        case Holds(value) => n := value;
        case Missing => :- Persist(WCheckpoint(0));
      }
      var j := EnrolledJournal(hostId);
      :- Persist(WJournal(Enrolling, j));
      return Enrolled(n);
    }

    method Fence(lifetime: nat) returns (r: Reply)
      modifies this
      ensures Ran(old(Files()), FenceRun(old(Files())), lifetime, Files(), r)
    {
      Spawn(lifetime);
      var s, preexisting := PlaceStop();
      if s.Lost? { return Killed; }
      if journal.None? { return Refused(NotEnrolled); }
      var j := journal.value;
      if !ValidJournal(j) { return Refused(InvalidState); }
      if !j.phase.Owner() { return Refused(NotOwner); }
      if j.phase.Active? {
        var f := FencedJournal(j, preexisting);
        :- Persist(WJournal(Fencing, f));
      }
      if checkpoint.Missing? { return Refused(InvalidState); }
      if checkpoint.Garbled? { return Refused(InvalidCheckpoint); }
      if marker.Some? { return Refused(IndeterminateInFlight); }
      return FencedAt(j.epoch, checkpoint.value);
    }

    method Prepare(lifetime: nat, hostId: string, credential: Option<string>) returns (r: Reply)
      modifies this
      ensures Ran(old(Files()), PreparePlan(old(Files()), hostId, credential), lifetime, Files(), r)
    {
      Spawn(lifetime);
      if !ValidHostId(hostId) { return Refused(InvalidHostId); }
      var bot := BotIdentity(credential);
      if bot.Err? { return Refused(bot.error); }
      if journal.None? {
        var s, preexisting := PlaceStop();
        if s.Lost? { return Killed; }
        :- Persist(WJournal(Preparing, StandbyJournal(hostId, preexisting)));
        return Prepared(0, Standby, bot.value);
      }
      var j := journal.value;
      if !ValidJournal(j) { return Refused(InvalidState); }
      if j.hostId != hostId { return Refused(HostIdMismatch); }
      if j.phase.Owner() { return Refused(DestinationNotInactive); }
      return Prepared(j.epoch, j.phase, bot.value);
    }

    method Export(lifetime: nat, destination: string, credential: Option<string>, tid: string, secret: string)
      returns (r: Reply)
      modifies this
      ensures Ran(old(Files()), ExportRun(old(Files()), destination, credential, tid, secret), lifetime, Files(), r)
    {
      Spawn(lifetime);
      if !ValidHostId(destination) { return Refused(InvalidHostId); }
      ghost var before := Files();
      var s, preexisting := PlaceStop();
      if s.Lost? {
        ExportUnstarted(before, destination, credential, tid, secret);
        return Killed;
      }
      r := ExportLocked(destination, credential, tid, secret, preexisting);
      ExportDone(before, destination, credential, tid, secret, lifetime, done, r);
    }

    // Export once the lock is held.
    method ExportLocked(
      destination: string, credential: Option<string>, tid: string, secret: string, preexisting: bool)
      returns (r: Reply)
      requires Running()
      modifies this
      ensures start == old(start)
      ensures Did(old(done), ExportPlan(old(Files()), destination, credential, tid, secret, preexisting),
                  old(life), r)
    {
      if journal.None? { return Refused(NotEnrolled); }
      var j := journal.value;
      if !ValidJournal(j) { return Refused(InvalidState); }
      if j.phase.Offered? || j.phase.Transferred? {
        var m := j.transfer.value.manifest;
        if m.terms.destination != destination {
          return Refused(if j.phase.Offered? then OfferedElsewhere else NotOwner);
        }
        return Offer(j.phase, m);
      }
      if !j.phase.Active? && !j.phase.Fenced? { return Refused(NotOwner); }
      if j.phase.Fenced? {
        r := OfferTo(j, destination, credential, tid, secret);
      } else {
        r := FenceAndOffer(FencedJournal(j, preexisting), destination, credential, tid, secret);
      }
    }

    // The part of export an active owner runs.
    method FenceAndOffer(f: Journal, destination: string, credential: Option<string>, tid: string, secret: string)
      returns (r: Reply)
      requires Running()
      modifies this
      ensures start == old(start)
      ensures Did(old(done), OfferPlan(old(Files()), f, [WJournal(Fencing, f)], destination, credential, tid, secret),
                  old(life), r)
    {
      var fencing := WJournal(Fencing, f);
      FencedOffer(Files(), fencing, f, destination, credential, tid, secret, done, life);
      :- Persist(fencing);
      r := OfferTo(f, destination, credential, tid, secret);
    }

    // The second half of export: the drained, fenced owner makes its offer durable.
    method OfferTo(f: Journal, destination: string, credential: Option<string>, tid: string, secret: string)
      returns (r: Reply)
      requires Running()
      modifies this
      ensures start == old(start)
      ensures Did(old(done), OfferPlan(old(Files()), f, [], destination, credential, tid, secret), old(life), r)
    {
      if destination == f.hostId { return Refused(InvalidDestination); }
      if checkpoint.Missing? { return Refused(InvalidState); }
      if checkpoint.Garbled? { return Refused(InvalidCheckpoint); }
      if marker.Some? { return Refused(IndeterminateInFlight); }
      if inbox != map[] { return Refused(InboxNotEmpty); }
      var bot := BotIdentity(credential);
      if bot.Err? { return Refused(bot.error); }
      var m := NewManifest(f, destination, bot.value, checkpoint.value, tid, secret);
      var j := f.(phase := Offered, transfer := Some(Transfer(m, Some(secret))));
      if !ValidJournal(j) { return Refused(InvalidState); }
      :- Persist(WJournal(Offering, j));
      return Offer(Offered, m);
    }

    method Commit(lifetime: nat, m: Manifest) returns (r: Reply)
      modifies this
      ensures Ran(old(Files()), CommitPlan(old(Files()), m), lifetime, Files(), r)
    {
      Spawn(lifetime);
      if !ValidManifest(m) { return Refused(InvalidManifest); }
      if journal.None? { return Refused(NotEnrolled); }
      var j := journal.value;
      if !ValidJournal(j) { return Refused(InvalidState); }
      if !(j.phase.Offered? || j.phase.Transferred?) || j.transfer.value.manifest != m {
        return Refused(OfferMismatch);
      }
      if j.phase.Offered? {
        :- Persist(WJournal(Committing, j.(phase := Transferred, epoch := m.terms.epoch)));
      }
      return Committed(ReceiptOf(m, j.transfer.value.secret.value));
    }

    method Cancel(lifetime: nat, outstanding: Option<string>) returns (r: Reply)
      modifies this
      ensures Ran(old(Files()), CancelPlan(old(Files()), outstanding), lifetime, Files(), r)
    {
      Spawn(lifetime);
      if journal.None? { return Refused(NotEnrolled); }
      var j := journal.value;
      if !ValidJournal(j) { return Refused(InvalidState); }
      if j.phase.Transferred? { return Refused(AlreadyCommitted); }
      if j.phase.Offered? {
        if outstanding != Some(j.transfer.value.manifest.terms.transferId) {
          return Refused(OfferMismatch);
        }
      } else if !j.phase.Fenced? || outstanding.Some? {
        return Refused(if j.phase.Fenced? then OfferMismatch else NotOwner);
      }
      :- RemoveOwnedStop(j.fence.value);
      :- Persist(WJournal(Cancelling, ActiveJournal(j)));
      return Cancelled(j.epoch);
    }

    method Reconcile(lifetime: nat) returns (r: Reply)
      modifies this
      ensures Ran(old(Files()), ReconcilePlan(old(Files())), lifetime, Files(), r)
    {
      Spawn(lifetime);
      if journal.None? { return Refused(NotEnrolled); }
      var j := journal.value;
      if !ValidJournal(j) { return Refused(InvalidState); }
      if !j.phase.Active? { return Refused(NotOwner); }
      :- Persist(WJournal(Reconciling, j.(conflict := false)));
      return Reconciled(j.epoch);
    }

    method Import(lifetime: nat, m: Manifest, credential: Option<string>) returns (r: Reply)
      modifies this
      ensures Ran(old(Files()), ImportPlan(old(Files()), m, credential), lifetime, Files(), r)
    {
      Spawn(lifetime);
      if !ValidManifest(m) { return Refused(InvalidManifest); }
      if journal.None? { return Refused(NotPrepared); }
      var j := journal.value;
      if !ValidJournal(j) { return Refused(InvalidState); }
      if m.terms.destination != j.hostId { return Refused(WrongDestination); }
      var bot := BotIdentity(credential);
      if bot.Err? { return Refused(bot.error); }
      if bot.value != m.terms.botId { return Refused(WrongBot); }
      if (j.phase.Staged? || j.phase.Active?) && j.transfer.Some? && j.transfer.value.manifest == m {
        return Imported(j.phase, m.terms.transferId);
      }
      if j.phase.Owner() { return Refused(DestinationNotInactive); }
      if m.terms.epoch <= j.epoch { return Refused(StaleEpoch); }
      :- Persist(WJournal(Importing, StagedJournal(j, m)));
      return Imported(Staged, m.terms.transferId);
    }

    method Activate(lifetime: nat, receipt: Receipt) returns (r: Reply)
      modifies this
      ensures Ran(old(Files()), ActivatePlan(old(Files()), receipt), lifetime, Files(), r)
    {
      Spawn(lifetime);
      if journal.None? { return Refused(NotPrepared); }
      var j := journal.value;
      if !ValidJournal(j) { return Refused(InvalidState); }
      if j.transfer.None? || !ReceiptMatches(j.transfer.value.manifest, receipt) {
        return Refused(ReceiptMismatch);
      }
      var m := j.transfer.value.manifest;
      if j.phase.Active? { return Activated(j.epoch, m.terms.checkpoint); }
      if !j.phase.Staged? { return Refused(ReceiptMismatch); }
      ghost var writes := ActivatePlan(old(Files()), receipt).writes;
      :- Persist(WCheckpoint(m.terms.checkpoint));
      :- RemoveOwnedStop(j.fence.value);
      assert writes == done + [WJournal(Activating, ActivatedJournal(j, m))];
      :- Persist(WJournal(Activating, ActivatedJournal(j, m)));
      return Activated(m.terms.epoch, m.terms.checkpoint);
    }

    // The first loop of capture_response: the highest id seen, and the records to publish.
    static method Gather(us: seq<Update>, n: nat, operator: string) returns (top: nat, rs: seq<Record>)
      ensures top == MaxId(n, us)
      ensures rs == Records(us, operator)
    {
      top, rs := n, [];
      for i := 0 to |us|
        invariant top == MaxId(n, us[..i])
        invariant rs == Records(us[..i], operator)
      {
        assert us[..i + 1][..i] == us[..i];
        top := Max(top, us[i].id);
        if Eligible(us[i], operator) {
          rs := rs + [RecordOf(us[i], operator)];
        }
      }
      assert us[..|us|] == us;
    }

    // _publish_record
    method PublishRecord(record: Record) returns (r: Option<Reply>)
      requires Running()
      modifies this
      ensures start == old(start) && Running()
      ensures unchanged(`journal) && unchanged(`stop) && unchanged(`marker) && unchanged(`checkpoint)
      ensures record.id in old(inbox) ==>
                && inbox == old(inbox) && done == old(done) && life == old(life)
                && r == if inbox[record.id] == record then None else Some(Refused(RecordConflict))
      ensures record.id !in old(inbox) && old(life) > 0 ==>
                && inbox == old(inbox)[record.id := record] && done == old(done) + [WRecord(record)]
                && life == old(life) - 1 && r == None
      ensures record.id !in old(inbox) && old(life) == 0 ==>
                inbox == old(inbox) && done == old(done) && life == 0 && r == Some(Killed)
    {
      if record.id in inbox {
        return if inbox[record.id] == record then None else Some(Refused(RecordConflict));
      }
      var s := Persist(WRecord(record));
      return if s.Lost? then Some(Killed) else None;
    }

    // The second loop of capture_response.
    method PublishAll(rs: seq<Record>) returns (r: Option<Reply>)
      requires Running()
      modifies this
      ensures start == old(start) && Running()
      ensures unchanged(`journal) && unchanged(`stop) && unchanged(`marker) && unchanged(`checkpoint)
      ensures var p := Publish(old(inbox), rs);
              && done == old(done) + Landed(p.writes, old(life))
              && life == old(life) - |Landed(p.writes, old(life))|
              && (r.None? ==> inbox == p.inbox)
              && r == if old(life) < |p.writes| then Some(Killed)
                      else if p.clash then Some(Refused(RecordConflict)) else None
    {
      for i := 0 to |rs|
        invariant start == old(start) && Running()
        invariant unchanged(`journal) && unchanged(`stop) && unchanged(`marker) && unchanged(`checkpoint)
        invariant var p := Publish(old(inbox), rs[..i]);
                  && !p.clash && inbox == p.inbox
                  && done == old(done) + p.writes && life == old(life) - |p.writes|
      {
        assert rs[..i + 1][..i] == rs[..i];
        PublishPrefix(old(inbox), rs, i);
        PublishPrefix(old(inbox), rs, i + 1);
        r := PublishRecord(rs[i]);
        if r.Some? {
          return;
        }
      }
      assert rs[..|rs|] == rs;
      r := None;
    }

    // capture_response, inside a running poll.
    method Capture(document: Document, operator: string) returns (r: Reply)
      requires Running()
      modifies this
      ensures start == old(start)
      ensures unchanged(`journal) && unchanged(`stop) && unchanged(`marker)
      ensures Did(old(done), CapturePlan(old(Files()), document, operator), old(life), r)
    {
      if document.Malformed? { return Refused(MalformedResponse); }
      if document.ApiError? { return Refused(CodeRefusal(document.code)); }
      if checkpoint.Garbled? { return Refused(InvalidCheckpoint); }
      r := CaptureUpdates(document.updates, if checkpoint.Holds? then checkpoint.value else 0, operator);
    }

    // The batch itself: every record first, then the checkpoint.
    method CaptureUpdates(us: seq<Update>, n: nat, operator: string) returns (r: Reply)
      requires Running() && ReadCheckpoint(Files(), false) == Ok(n)
      modifies this
      ensures start == old(start)
      ensures unchanged(`journal) && unchanged(`stop) && unchanged(`marker)
      ensures Did(old(done), CapturePlan(old(Files()), Updates(us), operator), old(life), r)
    {
      var top, rs := Gather(us, n, operator);
      LandedAppend(Publish(inbox, rs).writes, if top > n then [WCheckpoint(top)] else [], life);
      var stopped := PublishAll(rs);
      if stopped.Some? { return stopped.value; }
      if top > n {
        :- Persist(WCheckpoint(top));
      }
      return Captured(if rs != [] then CapturedSome else if us == [] then CapturedEmpty else CapturedNone,
                      |us|, |rs|, top);
    }

    method PollOnce(lifetime: nat, hasToken: bool, answer: Answer, operator: string) returns (r: Reply)
      modifies this
      ensures Ran(old(Files()), PollPlan(old(Files()), hasToken, answer, operator), lifetime, Files(), r)
    {
      Spawn(lifetime);
      if !stop.NoStop? { return PollStopped; }
      if journal.None? { return Refused(NotEnrolled); }
      var j := journal.value;
      if !ValidJournal(j) { return Refused(InvalidState); }
      if !j.phase.Active? { return PollPending; }
      if j.conflict { return Refused(ApiConflict); }
      if checkpoint.Missing? { return Refused(InvalidState); }
      if checkpoint.Garbled? { return Refused(InvalidCheckpoint); }
      if !hasToken { return Refused(CredentialFailure); }
      :- Persist(WMarker(Marker(j.epoch, checkpoint.value)));
      ghost var plan := AnswerPlan(Files(), answer, operator);
      assert PollPlan(old(Files()), hasToken, answer, operator) == Plan(done + plan.writes, plan.reply);
      LandedAppend(done, plan.writes, lifetime);
      r := Receive(answer, operator);
    }

    // The second half of poll_once: what the answer leaves behind.
    method Receive(answer: Answer, operator: string) returns (r: Reply)
      requires Running() && journal.Some?
      modifies this
      ensures start == old(start)
      ensures Did(old(done), AnswerPlan(old(Files()), answer, operator), old(life), r)
    {
      match answer {
        case NetworkLost =>
          return Refused(NetworkFailure);
        case HttpError(code) =>
          r := LatchAndClear(Refused(CodeRefusal(code)));
        case Body(document) =>
          ghost var c := CapturePlan(Files(), document, operator);
          LandedAppend(c.writes, ClosingWrites(journal.value, c.reply), life);
          assert AnswerPlan(Files(), answer, operator).writes == c.writes + ClosingWrites(journal.value, c.reply);
          r := Capture(document, operator);
          if !r.Killed? {
            r := LatchAndClear(r);
          }
      }
    }

    // A conflict is latched, then the marker comes down, whatever the poll's outcome.
    method LatchAndClear(outcome: Reply) returns (r: Reply)
      requires Running() && journal.Some?
      modifies this
      ensures start == old(start)
      ensures Did(old(done), Plan(ClosingWrites(old(journal).value, outcome), outcome), old(life), r)
    {
      if outcome == Refused(ApiConflict) {
        :- Persist(WJournal(Latching, journal.value.(conflict := true)));
      }
      :- Persist(WClear);
      return outcome;
    }
  }

  // Where the plan's earlier writes are kept does not matter to the offer itself.
  lemma OfferPlanShift(
    d: Disk, d': Disk, f: Journal, ws: seq<Write>,
    destination: string, credential: Option<string>, tid: string, secret: string)
    requires d.checkpoint == d'.checkpoint && d.marker == d'.marker && d.inbox == d'.inbox
    ensures var p := OfferPlan(d, f, ws, destination, credential, tid, secret);
            var q := OfferPlan(d', f, [], destination, credential, tid, secret);
            p.writes == ws + q.writes && p.reply == q.reply
  {
    assert forall w: Write :: [] + [w] == [w];
  }

  // One write of the fence, then what the offer writes from the fenced disk.
  lemma FencedOffer(
    d: Disk, fencing: Write, f: Journal, destination: string, credential: Option<string>, tid: string, secret: string,
    sofar: seq<Write>, life: nat)
    requires fencing.WJournal?
    ensures var p := OfferPlan(d, f, [fencing], destination, credential, tid, secret);
            var q := OfferPlan(Apply(d, fencing), f, [], destination, credential, tid, secret);
            && |p.writes| == 1 + |q.writes| && p.reply == q.reply
            && sofar + Landed(p.writes, life)
            == if life == 0 then sofar else sofar + [fencing] + Landed(q.writes, life - 1)
  {
    var q := OfferPlan(Apply(d, fencing), f, [], destination, credential, tid, secret);
    OfferPlanShift(d, Apply(d, fencing), f, [fencing], destination, credential, tid, secret);
    LandedAppend([fencing], q.writes, life);
    if life > 0 {
      assert sofar + ([fencing] + Landed(q.writes, life - 1)) == sofar + [fencing] + Landed(q.writes, life - 1);
    }
  }

  // Killed before its stop file was down.
  lemma ExportUnstarted(d: Disk, destination: string, credential: Option<string>, tid: string, secret: string)
    requires ValidHostId(destination) && StopWrites(d) == [WStop]
    ensures Ran(d, ExportRun(d, destination, credential, tid, secret), 0, d, Killed)
  {
  }

  // The stop file, then what was done under the lock.
  lemma ExportDone(
    d: Disk, destination: string, credential: Option<string>, tid: string, secret: string, life: nat,
    done: seq<Write>, reply: Reply)
    requires ValidHostId(destination) && |StopWrites(d)| <= life
    requires var stop := StopWrites(d);
             var plan := ExportPlan(ApplyAll(d, stop), destination, credential, tid, secret, !d.stop.NoStop?);
             && done == [] + stop + Landed(plan.writes, life - |stop|)
             && reply == if life - |stop| < |plan.writes| then Killed else plan.reply
    ensures Ran(d, ExportRun(d, destination, credential, tid, secret), life, ApplyAll(d, done), reply)
  {
    var stop := StopWrites(d);
    var plan := ExportPlan(ApplyAll(d, stop), destination, credential, tid, secret, !d.stop.NoStop?);
    assert ExportRun(d, destination, credential, tid, secret) == Plan(stop + plan.writes, plan.reply);
    LandedAppend(stop, plan.writes, life);
    assert [] + stop == stop;
  }

  lemma LandedAppend(a: seq<Write>, b: seq<Write>, life: nat)
    ensures Landed(a + b, life) == if life < |a| then Landed(a, life) else a + Landed(b, life - |a|)
  {
  }

  // Publishing a prefix of the records makes a prefix of the writes.
  lemma {:induction false} PublishPrefix(inbox: map<nat, Record>, rs: seq<Record>, i: nat)
    requires i <= |rs|
    ensures var p := Publish(inbox, rs[..i]); var q := Publish(inbox, rs);
            && p.writes <= q.writes
            && (p.clash ==> q == p)
    decreases |rs|
  {
    if i == |rs| {
      assert rs[..i] == rs;
    } else {
      assert rs[..|rs| - 1][..i] == rs[..i];
      PublishPrefix(inbox, rs[..|rs| - 1], i);
    }
  }
}
