/** A poll writes only what it may: records the server sent, then a checkpoint that skips
    nothing the operator said, then the marker comes down. */
module PollLegality {
  import opened Prelude
  import opened ReaderState
  import opened ReaderVerbs
  import opened CaptureReplay
  import opened World
  import opened Legality

  lemma {:induction false} PublishLegal(n: Net, h: string, d: Disk, rs: seq<Record>)
    requires ActiveOn(d)
    requires forall i | 0 <= i < |rs| :: Genuine(n, rs[i])
    ensures Legal(n, h, d, Publish(d.inbox, rs).writes)
    decreases |rs|
  {
    if rs != [] {
      var init := rs[..|rs| - 1];
      var r := rs[|rs| - 1];
      var p := Publish(d.inbox, init);
      assert forall i | 0 <= i < |init| :: init[i] == rs[i];
      PublishLegal(n, h, d, init);
      PublishEffect(d, init);
      if !p.clash && r.id !in p.inbox {
        var d' := ApplyAll(d, p.writes);
        LegalOne(n, h, d', WRecord(r));
        LegalAppend(n, h, d, p.writes, [WRecord(r)]);
      }
    }
  }

  lemma RecordsGenuine(n: Net, offset: nat, us: seq<Update>)
    requires Answers(n.stream, offset, us)
    ensures forall r | r in Records(us, n.operator) :: Genuine(n, r)
  {
    RecordsComplete(us, n.operator);
    var i :| StartsAt(n.stream, offset, us, i);
    forall r | r in Records(us, n.operator) ensures Genuine(n, r) {
      var k :| 0 <= k < |us| && Eligible(us[k], n.operator) && RecordOf(us[k], n.operator) == r;
      assert us[k] == n.stream[i + k];
    }
  }

  // The highest id of a batch that moves the checkpoint is that of one of its updates.
  lemma TopFound(stream: seq<Update>, offset: nat, us: seq<Update>, i: int) returns (j: nat)
    requires StartsAt(stream, offset, us, i) && MaxId(offset, us) > offset
    ensures j < |us| && us[j].id == MaxId(offset, us) && stream[i + j] == us[j]
  {
    MaxIdFound(offset, us);
    j :| 0 <= j < |us| && us[j].id == MaxId(offset, us);
  }

  // What lies between the offset and an update of the batch lies in the batch.
  lemma InBatch(stream: seq<Update>, offset: nat, us: seq<Update>, i: int, j: nat, k: nat)
    requires Ascending(stream) && StartsAt(stream, offset, us, i)
    requires j < |us| && k < |stream| && offset < stream[k].id <= us[j].id
    ensures i <= k < i + |us| && us[k - i] == stream[k]
  {
    assert us[j] == stream[i + j];
    assert i <= k <= i + j;
  }

  lemma BatchHolds(d: Disk, us: seq<Update>, operator: string, k: nat)
    requires k < |us| && Eligible(us[k], operator) && !Publish(d.inbox, Records(us, operator)).clash
    ensures var inbox := Publish(d.inbox, Records(us, operator)).inbox;
            us[k].id in inbox && inbox[us[k].id] == RecordOf(us[k], operator)
  {
    var rs := Records(us, operator);
    PublishEffect(d, rs);
    RecordsComplete(us, operator);
    var m :| 0 <= m < |rs| && rs[m] == RecordOf(us[k], operator);
  }

  // An answer is a gapless stretch of the stream: up to its highest id, nothing is left out.
  lemma AnswerCovers(n: Net, d: Disk, offset: nat, us: seq<Update>)
    requires Ascending(n.stream) && Answers(n.stream, offset, us)
    requires MaxId(offset, us) > offset
    requires !Publish(d.inbox, Records(us, n.operator)).clash
    ensures InStream(n, MaxId(offset, us))
    ensures Covered(n, Publish(d.inbox, Records(us, n.operator)).inbox, offset, MaxId(offset, us))
  {
    var inbox := Publish(d.inbox, Records(us, n.operator)).inbox;
    var i :| StartsAt(n.stream, offset, us, i);
    var j := TopFound(n.stream, offset, us, i);
    forall k: nat | k < |n.stream| && offset < n.stream[k].id <= us[j].id && Eligible(n.stream[k], n.operator)
      ensures Kept(n, inbox, n.stream[k])
    {
      InBatch(n.stream, offset, us, i, j, k);
      BatchHolds(d, us, n.operator, k - i);
    }
  }

  lemma CaptureLegal(n: Net, h: string, d: Disk, offset: nat, us: seq<Update>)
    requires Ascending(n.stream) && ActiveOn(d) && d.checkpoint == Holds(offset)
    requires Answers(n.stream, offset, us)
    ensures Legal(n, h, d, CapturePlan(d, Updates(us), n.operator).writes)
  {
    var rs := Records(us, n.operator);
    var p := Publish(d.inbox, rs);
    var top := MaxId(offset, us);
    RecordsGenuine(n, offset, us);
    PublishLegal(n, h, d, rs);
    PublishEffect(d, rs);
    if !p.clash && top > offset {
      AnswerCovers(n, d, offset, us);
      LegalOne(n, h, ApplyAll(d, p.writes), WCheckpoint(top));
      LegalAppend(n, h, d, p.writes, [WCheckpoint(top)]);
    }
  }

  lemma CaptureWritesNoJournal(d: Disk, document: Document, operator: string)
    ensures var ws := CapturePlan(d, document, operator).writes;
            (forall i | 0 <= i < |ws| :: ws[i].WRecord? || ws[i].WCheckpoint?)
    ensures ApplyAll(d, CapturePlan(d, document, operator).writes).journal == d.journal
  {
    if document.Updates? && !d.checkpoint.Garbled? {
      PublishEffect(d, Records(document.updates, operator));
      CaptureShape(d, document.updates, operator);
      assert CapturePlan(d, document, operator) == CapturePlan(d, Updates(document.updates), operator);
    }
  }

  lemma ApplyKeepsDisk(n: Net, h: string, d: Disk, ws: seq<Write>)
    requires NetOk(n) && DiskOk(n, h, d) && Legal(n, h, d, ws)
    requires forall i | 0 <= i < |ws| :: !ws[i].WJournal?
    ensures DiskOk(n, h, ApplyAll(d, ws))
    decreases |ws|
  {
    if ws != [] {
      LandKeepsDisk(n, h, d, ws[0]);
      ApplyKeepsDisk(n, h, Apply(d, ws[0]), ws[1..]);
    }
  }

  /** Whatever the network answers, every write that follows is legal. */
  lemma AnswerLegal(n: Net, h: string, d: Disk, offset: nat, answer: Answer)
    requires NetOk(n) && DiskOk(n, h, d) && MayPoll(d) && d.checkpoint == Holds(offset)
    requires answer.Body? && answer.document.Updates? ==> Answers(n.stream, offset, answer.document.updates)
    ensures TaskOk(n, h, d, SetOut(AnswerPlan(d, answer, n.operator).writes, Closing))
  {
    match answer
    case NetworkLost =>
    case HttpError(code) => ClosingLegal(n, h, d, Refused(CodeRefusal(code)));
    case Body(document) =>
      var c := CapturePlan(d, document, n.operator);
      if document.Updates? {
        CaptureLegal(n, h, d, offset, document.updates);
      }
      CaptureWritesNoJournal(d, document, n.operator);
      ApplyKeepsDisk(n, h, d, c.writes);
      ClosingLegal(n, h, ApplyAll(d, c.writes), c.reply);
      LegalAppend(n, h, d, c.writes, ClosingWrites(d.journal.value, c.reply));
  }
}
