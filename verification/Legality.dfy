/** Which durable writes a host may make, judged from its own disk and what the world has
    already shown it; and the proof that every verb and every poll makes only such writes. */
module Legality {
  import opened Prelude
  import opened ReaderState
  import opened ReaderVerbs
  import opened World

  ghost predicate Genuine(n: Net, r: Record) {
    exists i :: 0 <= i < |n.stream| && Eligible(n.stream[i], n.operator) && RecordOf(n.stream[i], n.operator) == r
  }

  predicate InStream(n: Net, id: nat) {
    exists i | 0 <= i < |n.stream| :: n.stream[i].id == id
  }

  // The update's record was taken by the consumer or is waiting for it.
  predicate Kept(n: Net, inbox: map<nat, Record>, u: Update)
    requires Eligible(u, n.operator)
  {
    || RecordOf(u, n.operator) in n.consumed
    || (u.id in inbox && inbox[u.id] == RecordOf(u, n.operator))
  }

  predicate Covered(n: Net, inbox: map<nat, Record>, low: nat, high: nat) {
    forall i | 0 <= i < |n.stream| && low < n.stream[i].id <= high && Eligible(n.stream[i], n.operator) ::
      Kept(n, inbox, n.stream[i])
  }

  predicate Drained(d: Disk) {
    d.marker.None? && d.inbox == map[]
  }

  predicate MayPoll(d: Disk) {
    d.journal.Some? && d.journal.value.phase.Active? && !d.journal.value.conflict
  }

  predicate ActiveOn(d: Disk) {
    d.journal.Some? && d.journal.value.phase.Active?
  }

  /** The phase diagram: how a journal may be rewritten. */
  ghost predicate LegalMove(n: Net, h: string, d: Disk, move: Move, j: Journal) {
    if d.journal.None? then
      match move
      case Enrolling => n.born == Some(h) && d.checkpoint.Holds? && j == EnrolledJournal(h)
      case Preparing => j.fence.Some? && j == StandbyJournal(h, j.fence.value)
      case _ => false
    else
      var i := d.journal.value;
      match move
      case Enrolling => false
      case Preparing => false
      case Fencing => i.phase.Active? && j.fence.Some? && j == FencedJournal(i, j.fence.value)
      case Offering =>
        && i.phase.Fenced? && Drained(d)
        && j.transfer.Some? && j.transfer.value.secret.Some?
        && j == i.(phase := Offered, transfer := j.transfer)
        && var t := j.transfer.value.manifest.terms;
           && t.source == h && t.epoch == i.epoch + 1 && d.checkpoint == Holds(t.checkpoint)
           && t.commitHash == HashOf(j.transfer.value.secret.value)
           && t.transferId in n.drawn && n.drawn[t.transferId] == h && t.transferId !in n.published
      case Committing =>
        i.phase.Offered? && i.transfer.Some?
        && j == i.(phase := Transferred, epoch := i.transfer.value.manifest.terms.epoch)
      case Cancelling => (i.phase.Fenced? || i.phase.Offered?) && j == ActiveJournal(i)
      case Latching => i.phase.Active? && j == i.(conflict := true)
      case Reconciling => i.phase.Active? && j == i.(conflict := false)
      case Importing =>
        && !i.phase.Owner()
        && j.transfer.Some? && j == StagedJournal(i, j.transfer.value.manifest)
        && var m := j.transfer.value.manifest;
           m in n.offers && m.terms.destination == h && m.terms.epoch > i.epoch
      case Activating =>
        && i.phase.Staged? && i.transfer.Some?
        && var m := i.transfer.value.manifest;
           && j == ActivatedJournal(i, m)
           && d.checkpoint == Holds(m.terms.checkpoint)
           && exists r :: r in n.receipts && ReceiptMatches(m, r)
  }

  ghost predicate LegalWrite(n: Net, h: string, d: Disk, w: Write) {
    match w
    case WJournal(move, j) => ValidJournal(j) && j.hostId == h && LegalMove(n, h, d, move, j)
    case WCheckpoint(c) =>
      || d.journal.None?
      || (d.journal.value.phase.Staged? && d.journal.value.transfer.Some?
          && c == d.journal.value.transfer.value.manifest.terms.checkpoint)
      || (d.journal.value.phase.Active? && d.checkpoint.Holds? && d.checkpoint.value <= c
          && InStream(n, c) && Covered(n, d.inbox, d.checkpoint.value, c))
    case WStop => true
    case WUnstop => true
    case WMarker(_) => MayPoll(d)
    case WClear => ActiveOn(d)
    case WRecord(r) => ActiveOn(d) && r.id !in d.inbox && Genuine(n, r)
  }

  // Each pending write is legal on the disk it will land on.
  ghost predicate Legal(n: Net, h: string, d: Disk, ws: seq<Write>)
    decreases |ws|
  {
    ws == [] ||
    (LegalWrite(n, h, d, ws[0]) && Legal(Landing(n, d, ws[0]), h, Apply(d, ws[0]), ws[1..]))
  }

  /** What holds of one host's disk, whatever the rest of the world does. */
  ghost predicate DiskOk(n: Net, h: string, d: Disk) {
    && (forall id | id in d.inbox :: d.inbox[id].id == id && Genuine(n, d.inbox[id]))
    && (d.journal.None? ==> Drained(d))
    && (d.journal.Some? ==> JournalOk(n, h, d, d.journal.value))
  }

  ghost predicate JournalOk(n: Net, h: string, d: Disk, j: Journal) {
    && ValidJournal(j)
    && j.hostId == h
    && (j.phase.Owner() ==> d.checkpoint.Holds?)
    && (j.phase.Standby? ==> j.epoch == 0)
    && (!j.phase.Active? && !j.phase.Fenced? ==> Drained(d))
    && (j.transfer.Some? ==>
          var m := j.transfer.value.manifest;
          var t := m.terms;
          && m in n.offers
          && match j.phase
             case Offered =>
               && t.source == h && t.epoch == j.epoch + 1 && d.checkpoint == Holds(t.checkpoint)
               && t.commitHash == HashOf(j.transfer.value.secret.value)
               && t.transferId in n.drawn && n.drawn[t.transferId] == h
               && t.transferId !in n.committed && t.transferId !in n.cancelled
             case Transferred =>
               && t.source == h && t.epoch == j.epoch
               && t.commitHash == HashOf(j.transfer.value.secret.value)
               && t.transferId in n.committed
               && ReceiptOf(m, j.transfer.value.secret.value) in n.receipts
             case Staged => t.destination == h && t.epoch > j.epoch
             case _ => t.destination == h && t.epoch == j.epoch && t.transferId in n.committed)
  }

  ghost predicate TaskOk(n: Net, h: string, d: Disk, task: Task) {
    match task
    case Idle => true
    case Waiting(offset) =>
      MayPoll(d) && d.checkpoint == Holds(offset) && d.marker.Some? && offset in n.requests
    case Writing(todo, stage) =>
      && todo != [] && Legal(n, h, d, todo)
      && match stage
         case Local => true
         case Opening(offset) =>
           MayPoll(d) && d.checkpoint == Holds(offset) && todo == [MarkerWrite(d, offset)]
         case Closing =>
           ActiveOn(d) && forall i | 0 <= i < |todo| :: todo[i].WJournal? ==> todo[i].move.Latching?
  }

  // The offer a receipt decides: digests identify their terms.
  function OfferOf(r: Receipt): Manifest {
    Manifest(r.digest.terms, r.digest)
  }

  /** What holds of the messages, the updates and the decisions taken so far. */
  ghost predicate NetOk(n: Net) {
    && Ascending(n.stream)
    && (forall t | t in n.published :: t in n.drawn)
    && n.committed <= n.published && n.cancelled <= n.published && n.committed !! n.cancelled
    && (forall m | m in n.offers :: ValidManifest(m) && m.terms.transferId in n.published)
    && (forall m, m' | m in n.offers && m' in n.offers && m.terms.transferId == m'.terms.transferId :: m == m')
    && (forall r | r in n.receipts ::
          && OfferOf(r) in n.offers && r == ReceiptOf(OfferOf(r), r.secret)
          && r.transferId in n.committed)
    && (forall r | r in n.consumed :: Genuine(n, r))
  }

  // ---- How a host's view of the world may grow --------------------------------

  /** `n'` extends `n` as seen from `h`: nothing known is lost, and no offer `h` drew was
      published or decided by anyone else. */
  predicate Extends(h: string, n: Net, n': Net) {
    && n'.operator == n.operator
    && n.offers <= n'.offers && n.receipts <= n'.receipts && n.requests <= n'.requests
    && n.published <= n'.published && n.committed <= n'.committed && n.cancelled <= n'.cancelled
    && n.consumed <= n'.consumed
    && n.stream <= n'.stream
    && (forall t | t in n.drawn :: t in n'.drawn && n'.drawn[t] == n.drawn[t])
    && (forall t | t in n.drawn && n.drawn[t] == h ::
          && (t in n'.published ==> t in n.published)
          && (t in n'.committed ==> t in n.committed)
          && (t in n'.cancelled ==> t in n.cancelled))
    && (n.born.Some? ==> n'.born == n.born)
  }

  /** The files other processes of the host may touch while the lock is held: the stop file, and
      records the consumer takes. */
  predicate Disturbed(n': Net, d: Disk, d': Disk) {
    && d'.journal == d.journal && d'.checkpoint == d.checkpoint && d'.marker == d.marker
    && (forall id | id in d'.inbox :: id in d.inbox && d'.inbox[id] == d.inbox[id])
    && (forall id | id in d.inbox :: id in d'.inbox || d.inbox[id] in n'.consumed)
  }

  lemma GenuineStable(n: Net, n': Net, r: Record)
    requires n'.operator == n.operator && n.stream <= n'.stream && Genuine(n, r)
    ensures Genuine(n', r)
  {
    var i :| 0 <= i < |n.stream| && Eligible(n.stream[i], n.operator) && RecordOf(n.stream[i], n.operator) == r;
    assert n'.stream[i] == n.stream[i];
  }

  // Updates that arrive later lie above everything already seen, hence above `high`.
  lemma CoveredStable(n: Net, n': Net, d: Disk, d': Disk, low: nat, high: nat)
    requires n'.operator == n.operator && n.stream <= n'.stream && n.consumed <= n'.consumed
    requires Ascending(n'.stream) && Disturbed(n', d, d')
    requires low == high || InStream(n, high)
    requires Covered(n, d.inbox, low, high)
    ensures Covered(n', d'.inbox, low, high)
  {
    forall i | 0 <= i < |n'.stream| && low < n'.stream[i].id <= high && Eligible(n'.stream[i], n'.operator)
      ensures Kept(n', d'.inbox, n'.stream[i])
    {
      var k :| 0 <= k < |n.stream| && n.stream[k].id == high;
      assert n'.stream[k] == n.stream[k];
      assert i < |n.stream| && n'.stream[i] == n.stream[i];
      assert Kept(n, d.inbox, n.stream[i]);
    }
  }

  lemma LegalWriteStable(n: Net, n': Net, h: string, d: Disk, d': Disk, w: Write)
    requires Extends(h, n, n') && Ascending(n'.stream) && Disturbed(n', d, d')
    requires LegalWrite(n, h, d, w)
    ensures LegalWrite(n', h, d', w)
  {
    match w
    case WRecord(r) => GenuineStable(n, n', r);
    case WCheckpoint(c) =>
      if ActiveOn(d) {
        var k :| 0 <= k < |n.stream| && n.stream[k].id == c;
        assert n'.stream[k] == n.stream[k];
        CoveredStable(n, n', d, d', d.checkpoint.value, c);
      }
    case _ =>
  }

  // The same write, landing in the world as it was and as it has become.
  lemma LandingStable(n: Net, n': Net, h: string, d: Disk, d': Disk, w: Write)
    requires Extends(h, n, n') && Disturbed(n', d, d') && LegalWrite(n, h, d, w)
    ensures Extends(h, Landing(n, d, w), Landing(n', d', w)) && Landing(n', d', w).stream == n'.stream
    ensures Disturbed(Landing(n', d', w), Apply(d, w), Apply(d', w))
  {
    ApplyStable(n', d, d', w);
    if w.WJournal? && w.move.Offering? {
      OfferStable(n, n', h, d, d', w.journal);
    } else if w.WJournal? && w.move.Committing? {
      CommitStable(n, n', h, d, d', w.journal);
    } else if w.WJournal? && w.move.Cancelling? {
      CancelStable(n, n', h, d, d', w.journal);
    }
  }

  lemma ApplyStable(n': Net, d: Disk, d': Disk, w: Write)
    requires Disturbed(n', d, d')
    ensures Disturbed(n', Apply(d, w), Apply(d', w))
    ensures Disturbed(Landing(n', d', w), Apply(d, w), Apply(d', w))
  {
  }

  lemma OfferStable(n: Net, n': Net, h: string, d: Disk, d': Disk, j: Journal)
    requires Extends(h, n, n') && LegalWrite(n, h, d, WJournal(Offering, j))
    ensures Extends(h, Landing(n, d, WJournal(Offering, j)), Landing(n', d', WJournal(Offering, j)))
  {
  }

  lemma CommitStable(n: Net, n': Net, h: string, d: Disk, d': Disk, j: Journal)
    requires Extends(h, n, n')
    ensures Extends(h, Landing(n, d, WJournal(Committing, j)), Landing(n', d', WJournal(Committing, j)))
  {
  }

  lemma CancelStable(n: Net, n': Net, h: string, d: Disk, d': Disk, j: Journal)
    requires Extends(h, n, n') && d'.journal == d.journal
    ensures Extends(h, Landing(n, d, WJournal(Cancelling, j)), Landing(n', d', WJournal(Cancelling, j)))
  {
  }

  lemma {:induction false} LegalStable(n: Net, n': Net, h: string, d: Disk, d': Disk, ws: seq<Write>)
    requires Extends(h, n, n') && Ascending(n'.stream) && Disturbed(n', d, d')
    requires Legal(n, h, d, ws)
    ensures Legal(n', h, d', ws)
    decreases |ws|
  {
    if ws != [] {
      LegalWriteStable(n, n', h, d, d', ws[0]);
      LandingStable(n, n', h, d, d', ws[0]);
      LegalStable(Landing(n, d, ws[0]), Landing(n', d', ws[0]), h, Apply(d, ws[0]), Apply(d', ws[0]), ws[1..]);
    }
  }

  lemma DiskStable(n: Net, n': Net, h: string, d: Disk, d': Disk)
    requires Extends(h, n, n') && Disturbed(n', d, d')
    requires DiskOk(n, h, d)
    ensures DiskOk(n', h, d')
  {
    forall id | id in d'.inbox ensures Genuine(n', d'.inbox[id]) {
      GenuineStable(n, n', d'.inbox[id]);
    }
  }

  lemma HostStable(n: Net, n': Net, h: string, d: Disk, d': Disk, task: Task)
    requires Extends(h, n, n') && Ascending(n'.stream) && Disturbed(n', d, d')
    requires DiskOk(n, h, d) && TaskOk(n, h, d, task)
    ensures DiskOk(n', h, d') && TaskOk(n', h, d', task)
  {
    DiskStable(n, n', h, d, d');
    if task.Writing? {
      LegalStable(n, n', h, d, d', task.todo);
    }
  }

  // ---- A legal write keeps its own host in order -------------------------------

  lemma LandKeepsDisk(n: Net, h: string, d: Disk, w: Write)
    requires NetOk(n) && DiskOk(n, h, d) && LegalWrite(n, h, d, w)
    ensures DiskOk(Landing(n, d, w), h, Apply(d, w))
  {
    match w {
      case WJournal(move, j) =>
        MoveKeepsInbox(n, h, d, move, j);
        MoveKeepsJournal(n, h, d, move, j);
      case WRecord(r) =>
      case WCheckpoint(c) => CheckpointKeepsDisk(n, h, d, c);
      case _ =>
    }
  }

  lemma CheckpointKeepsDisk(n: Net, h: string, d: Disk, c: nat)
    requires DiskOk(n, h, d) && LegalWrite(n, h, d, WCheckpoint(c))
    ensures DiskOk(n, h, d.(checkpoint := Holds(c)))
  {
  }

  // A journal write leaves marker and inbox as they are, which suits the journal it writes.
  lemma MoveKeepsInbox(n: Net, h: string, d: Disk, move: Move, j: Journal)
    requires DiskOk(n, h, d) && LegalWrite(n, h, d, WJournal(move, j))
    ensures var n' := Landing(n, d, WJournal(move, j));
            && (forall id | id in d.inbox :: d.inbox[id].id == id && Genuine(n', d.inbox[id]))
            && (!j.phase.Active? && !j.phase.Fenced? ==> Drained(d))
  {
    var n' := Landing(n, d, WJournal(move, j));
    forall r | Genuine(n, r) ensures Genuine(n', r) {
      GenuineStable(n, n', r);
    }
  }

  lemma MoveKeepsJournal(n: Net, h: string, d: Disk, move: Move, j: Journal)
    requires NetOk(n) && DiskOk(n, h, d) && LegalWrite(n, h, d, WJournal(move, j))
    requires !j.phase.Active? && !j.phase.Fenced? ==> Drained(d)
    ensures JournalOk(Landing(n, d, WJournal(move, j)), h, d, j)
  {
    match move {
      case Offering => OfferKeepsJournal(n, h, d, j);
      case Committing => CommitKeepsJournal(n, h, d, j);
      case Activating => ActivateKeepsJournal(n, h, d, j);
      case _ => PlainMoveKeepsJournal(n, h, d, move, j);
    }
  }

  lemma OfferKeepsJournal(n: Net, h: string, d: Disk, j: Journal)
    requires NetOk(n) && DiskOk(n, h, d) && LegalWrite(n, h, d, WJournal(Offering, j))
    ensures JournalOk(Landing(n, d, WJournal(Offering, j)), h, d, j)
  {
  }

  lemma CommitKeepsJournal(n: Net, h: string, d: Disk, j: Journal)
    requires NetOk(n) && DiskOk(n, h, d) && LegalWrite(n, h, d, WJournal(Committing, j))
    ensures JournalOk(Landing(n, d, WJournal(Committing, j)), h, d, j)
  {
  }

  lemma ActivateKeepsJournal(n: Net, h: string, d: Disk, j: Journal)
    requires NetOk(n) && DiskOk(n, h, d) && LegalWrite(n, h, d, WJournal(Activating, j))
    ensures JournalOk(Landing(n, d, WJournal(Activating, j)), h, d, j)
  {
    var m := d.journal.value.transfer.value.manifest;
    var r :| r in n.receipts && ReceiptMatches(m, r);
    assert OfferOf(r) == m;
  }

  lemma PlainMoveKeepsJournal(n: Net, h: string, d: Disk, move: Move, j: Journal)
    requires DiskOk(n, h, d) && LegalWrite(n, h, d, WJournal(move, j))
    requires !move.Offering? && !move.Committing? && !move.Activating?
    requires !j.phase.Active? && !j.phase.Fenced? ==> Drained(d)
    ensures JournalOk(Landing(n, d, WJournal(move, j)), h, d, j)
  {
  }

  // Decisions, offers and receipts stay in order when one more is added.
  lemma NetAdds(n: Net, n': Net)
    requires NetOk(n)
    requires n'.stream == n.stream && n'.operator == n.operator && n'.consumed == n.consumed && n'.drawn == n.drawn
    requires n'.committed <= n'.published && n'.cancelled <= n'.published && n'.committed !! n'.cancelled
    requires n.committed <= n'.committed && n.published <= n'.published && n.offers <= n'.offers
    requires forall t | t in n'.published :: t in n'.drawn
    requires forall m | m in n'.offers && m !in n.offers ::
               ValidManifest(m) && m.terms.transferId in n'.published && m.terms.transferId !in n.published
               && forall m' | m' in n'.offers && m' !in n.offers :: m == m'
    requires forall r | r in n'.receipts && r !in n.receipts ::
               OfferOf(r) in n'.offers && r == ReceiptOf(OfferOf(r), r.secret) && r.transferId in n'.committed
    ensures NetOk(n')
  {
    forall r | Genuine(n, r) ensures Genuine(n', r) {
      GenuineStable(n, n', r);
    }
  }

  lemma LandKeepsNet(n: Net, h: string, d: Disk, w: Write)
    requires NetOk(n) && DiskOk(n, h, d) && LegalWrite(n, h, d, w)
    ensures NetOk(Landing(n, d, w))
  {
    if w.WJournal? && w.move.Offering? {
      OfferKeepsNet(n, h, d, w);
    } else if w.WJournal? && w.move.Committing? {
      CommitKeepsNet(n, h, d, w);
    } else if w.WJournal? && w.move.Cancelling? {
      CancelKeepsNet(n, h, d, w);
    } else {
      NetAdds(n, Landing(n, d, w));
    }
  }

  lemma OfferKeepsNet(n: Net, h: string, d: Disk, w: Write)
    requires NetOk(n) && LegalWrite(n, h, d, w) && w.WJournal? && w.move.Offering?
    ensures NetOk(Landing(n, d, w))
  {
    NetAdds(n, Landing(n, d, w));
  }

  lemma CommitKeepsNet(n: Net, h: string, d: Disk, w: Write)
    requires NetOk(n) && DiskOk(n, h, d) && LegalWrite(n, h, d, w) && w.WJournal? && w.move.Committing?
    ensures NetOk(Landing(n, d, w))
  {
    NetAdds(n, Landing(n, d, w));
  }

  lemma CancelKeepsNet(n: Net, h: string, d: Disk, w: Write)
    requires NetOk(n) && DiskOk(n, h, d) && LegalWrite(n, h, d, w) && w.WJournal? && w.move.Cancelling?
    ensures NetOk(Landing(n, d, w))
  {
    NetAdds(n, Landing(n, d, w));
  }

  // What one host lands is an extension to every other.
  lemma LandExtends(n: Net, h: string, d: Disk, w: Write, g: string)
    requires DiskOk(n, h, d) && LegalWrite(n, h, d, w) && g != h
    ensures Extends(g, n, Landing(n, d, w))
  {
  }

  // ---- Every verb is a sequence of legal writes ---------------------------------

  lemma LegalOne(n: Net, h: string, d: Disk, w: Write)
    requires LegalWrite(n, h, d, w)
    ensures Legal(n, h, d, [w])
  {
  }

  lemma LegalTwo(n: Net, h: string, d: Disk, v: Write, w: Write)
    requires LegalWrite(n, h, d, v) && LegalWrite(Landing(n, d, v), h, Apply(d, v), w)
    ensures Legal(n, h, d, [v, w])
  {
    LegalOne(Landing(n, d, v), h, Apply(d, v), w);
  }

  lemma {:induction false} LegalAppend(n: Net, h: string, d: Disk, a: seq<Write>, b: seq<Write>)
    requires Legal(n, h, d, a)
    requires forall i | 0 <= i < |a| :: !a[i].WJournal?
    requires Legal(n, h, ApplyAll(d, a), b)
    ensures Legal(n, h, d, a + b)
    decreases |a|
  {
    if a == [] {
      assert a + b == b;
    } else {
      assert (a + b)[1..] == a[1..] + b;
      LegalAppend(n, h, Apply(d, a[0]), a[1..], b);
    }
  }

  lemma ExportLegal(
    n: Net, h: string, d: Disk, destination: string, credential: Option<string>,
    tid: string, secret: string, preexisting: bool)
    requires DiskOk(n, h, d)
    requires tid in n.drawn && n.drawn[tid] == h && tid !in n.published
    ensures Legal(n, h, d, ExportPlan(d, destination, credential, tid, secret, preexisting).writes)
  {
    var ws := ExportPlan(d, destination, credential, tid, secret, preexisting).writes;
    if ws != [] {
      var f := if d.journal.value.phase.Active? then FencedJournal(d.journal.value, preexisting) else d.journal.value;
      var offer := OfferPlan(d.(journal := Some(f)), f, [], destination, credential, tid, secret).writes;
      OfferLegal(n, h, d.(journal := Some(f)), f, destination, credential, tid, secret);
      if d.journal.value.phase.Active? {
        assert LegalWrite(n, h, d, WJournal(Fencing, f));
        assert ws == [WJournal(Fencing, f)] + offer;
        assert ws[1..] == offer;
      } else {
        assert ws == offer && d.(journal := Some(f)) == d;
      }
    }
  }

  // The fenced half of export.
  lemma OfferLegal(
    n: Net, h: string, d: Disk, f: Journal, destination: string, credential: Option<string>, tid: string, secret: string)
    requires d.journal == Some(f) && ValidJournal(f) && f.hostId == h && f.phase.Fenced?
    requires tid in n.drawn && n.drawn[tid] == h && tid !in n.published
    ensures Legal(n, h, d, OfferPlan(d, f, [], destination, credential, tid, secret).writes)
  {
    var ws := OfferPlan(d, f, [], destination, credential, tid, secret).writes;
    if ws != [] {
      LegalOne(n, h, d, ws[0]);
    }
  }

  lemma ActivateLegal(n: Net, h: string, d: Disk, r: Receipt)
    requires DiskOk(n, h, d) && r in n.receipts
    ensures Legal(n, h, d, ActivatePlan(d, r).writes)
  {
    var ws := ActivatePlan(d, r).writes;
    if ws != [] {
      var j := d.journal.value;
      var m := j.transfer.value.manifest;
      var front := [WCheckpoint(m.terms.checkpoint)] + UnstopWrites(d, j.fence.value);
      var d' := ApplyAll(d, front);
      assert ws == front + [WJournal(Activating, ActivatedJournal(j, m))];
      FrontLegal(n, h, d, m.terms.checkpoint, UnstopWrites(d, j.fence.value));
      LegalOne(n, h, d', WJournal(Activating, ActivatedJournal(j, m)));
      LegalAppend(n, h, d, front, [WJournal(Activating, ActivatedJournal(j, m))]);
    }
  }

  // The checkpoint, and the stop file the transfer placed.
  lemma FrontLegal(n: Net, h: string, d: Disk, c: nat, unstop: seq<Write>)
    requires LegalWrite(n, h, d, WCheckpoint(c)) && (unstop == [] || unstop == [WUnstop])
    ensures var front := [WCheckpoint(c)] + unstop;
            && Legal(n, h, d, front) && (forall i | 0 <= i < |front| :: !front[i].WJournal?)
            && ApplyAll(d, front) == d.(checkpoint := Holds(c), stop := ApplyAll(d, front).stop)
  {
    if unstop == [] {
      assert [WCheckpoint(c)] + unstop == [WCheckpoint(c)];
      LegalOne(n, h, d, WCheckpoint(c));
    } else {
      assert [WCheckpoint(c)] + unstop == [WCheckpoint(c), WUnstop];
      LegalTwo(n, h, d, WCheckpoint(c), WUnstop);
      ApplyAllAppend(d, [WCheckpoint(c)], [WUnstop]);
    }
  }

  lemma EnrollLegal(n: Net, h: string, d: Disk)
    requires DiskOk(n, h, d) && n.born == Some(h)
    ensures Legal(n, h, d, EnrollPlan(d, h).writes)
  {
    var ws := EnrollPlan(d, h).writes;
    if |ws| == 1 {
      LegalOne(n, h, d, ws[0]);
    } else if |ws| == 2 {
      LegalTwo(n, h, d, ws[0], ws[1]);
    }
  }

  lemma PrepareLegal(n: Net, h: string, d: Disk, hostId: string, credential: Option<string>)
    requires DiskOk(n, h, d) && (d.journal.None? ==> hostId == h)
    ensures Legal(n, h, d, PreparePlan(d, hostId, credential).writes)
  {
    var ws := PreparePlan(d, hostId, credential).writes;
    if |ws| == 1 {
      LegalOne(n, h, d, ws[0]);
    } else if |ws| == 2 {
      LegalTwo(n, h, d, ws[0], ws[1]);
    }
  }

  lemma CancelLegal(n: Net, h: string, d: Disk, transferId: Option<string>)
    requires DiskOk(n, h, d)
    ensures Legal(n, h, d, CancelPlan(d, transferId).writes)
  {
    var ws := CancelPlan(d, transferId).writes;
    if |ws| == 1 {
      LegalOne(n, h, d, ws[0]);
    } else if |ws| == 2 {
      LegalTwo(n, h, d, ws[0], ws[1]);
    }
  }

  // The verbs that write the journal once or not at all.
  lemma SingleLegal(n: Net, h: string, d: Disk, verb: Verb)
    requires DiskOk(n, h, d) && Honest(n, h, d, verb)
    requires verb.Fence? || verb.Commit? || verb.Reconcile? || verb.Import?
    ensures Legal(n, h, d, PlanOf(d, verb).writes)
  {
    var ws := PlanOf(d, verb).writes;
    if |ws| == 1 {
      LegalOne(n, h, d, ws[0]);
    }
  }

  /** Whatever a verb finds on the disk, every write it sets out to make is legal. */
  lemma VerbLegal(n: Net, h: string, d: Disk, verb: Verb)
    requires NetOk(n) && DiskOk(n, h, d) && Honest(n, h, d, verb)
    ensures Legal(Drawing(n, h, verb), h, d, PlanOf(d, verb).writes)
  {
    var n' := Drawing(n, h, verb);
    DrawingKeeps(n, h, d, verb);
    match verb {
      case Enroll(_) => EnrollLegal(n', h, d);
      case Prepare(hostId, credential) => PrepareLegal(n', h, d, hostId, credential);
      case Export(destination, credential, tid, secret, pre) =>
        ExportLegal(n', h, d, destination, credential, tid, secret, pre);
      case Cancel(tid) => CancelLegal(n', h, d, tid);
      case Activate(r) => ActivateLegal(n', h, d, r);
      case _ => SingleLegal(n', h, d, verb);
    }
  }

  // Drawing a fresh id, or naming the host to enroll, extends the world for every host.
  lemma DrawingKeeps(n: Net, h: string, d: Disk, verb: Verb)
    requires NetOk(n) && DiskOk(n, h, d) && Honest(n, h, d, verb)
    ensures NetOk(Drawing(n, h, verb)) && DiskOk(Drawing(n, h, verb), h, d)
    ensures forall g: string :: Extends(g, n, Drawing(n, h, verb))
  {
    var n' := Drawing(n, h, verb);
    forall r | Genuine(n, r) ensures Genuine(n', r) {
      GenuineStable(n, n', r);
    }
  }

  // ---- Every poll is a sequence of legal writes ----------------------------------

  lemma AdmitLegal(n: Net, h: string, d: Disk)
    requires DiskOk(n, h, d) && Admission(d, true).Ok?
    ensures var offset := Admission(d, true).value;
            TaskOk(n, h, d, Writing([MarkerWrite(d, offset)], Opening(offset)))
  {
    LegalOne(n, h, d, MarkerWrite(d, Admission(d, true).value));
  }

  lemma ClosingLegal(n: Net, h: string, d: Disk, reply: Reply)
    requires DiskOk(n, h, d) && ActiveOn(d)
    ensures Legal(n, h, d, ClosingWrites(d.journal.value, reply))
  {
    var ws := ClosingWrites(d.journal.value, reply);
    if |ws| == 1 {
      LegalOne(n, h, d, ws[0]);
    } else {
      LegalTwo(n, h, d, ws[0], ws[1]);
    }
  }
}
