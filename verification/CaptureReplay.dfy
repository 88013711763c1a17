/** Capturing a batch may be killed after any write and repeated: it converges, and the
    checkpoint never runs ahead of the inbox. */
module CaptureReplay {
  import opened Prelude
  import opened ReaderState
  import opened ReaderVerbs

  function Capture(d: Disk, us: seq<Update>, operator: string): Disk {
    ApplyAll(d, CapturePlan(d, Updates(us), operator).writes)
  }

  // A capture that dies after `life` of its writes.
  function Interrupted(d: Disk, us: seq<Update>, operator: string, life: nat): Disk {
    ApplyAll(d, Landed(CapturePlan(d, Updates(us), operator).writes, life))
  }

  // One interrupted capture after another, each starting from what the last one left.
  function Attempts(d: Disk, us: seq<Update>, operator: string, lives: seq<nat>): Disk
    decreases |lives|
  {
    if lives == [] then d
    else Attempts(Interrupted(d, us, operator, lives[0]), us, operator, lives[1..])
  }

  predicate Holding(inbox: map<nat, Record>, rs: seq<Record>) {
    forall i | 0 <= i < |rs| :: rs[i].id in inbox && inbox[rs[i].id] == rs[i]
  }

  lemma {:induction false} PublishHeld(inbox: map<nat, Record>, rs: seq<Record>)
    requires Holding(inbox, rs)
    ensures Publish(inbox, rs) == Publishing([], inbox, false)
    decreases |rs|
  {
    if rs != [] {
      PublishHeld(inbox, rs[..|rs| - 1]);
    }
  }

  // Publishing writes only records, and without a clash it leaves every record held.
  lemma {:induction false} PublishEffect(d: Disk, rs: seq<Record>)
    ensures var p := Publish(d.inbox, rs);
            && (forall i | 0 <= i < |p.writes| :: p.writes[i].WRecord? && p.writes[i].record in rs)
            && ApplyAll(d, p.writes) == d.(inbox := p.inbox)
            && (forall id | id in d.inbox :: id in p.inbox && p.inbox[id] == d.inbox[id])
            && (!p.clash ==> Holding(p.inbox, rs))
    decreases |rs|
  {
    if rs != [] {
      var init := rs[..|rs| - 1];
      PublishEffect(d, init);
      var p := Publish(d.inbox, init);
      var r := rs[|rs| - 1];
      ApplyAllAppend(d, p.writes, [WRecord(r)]);
      assert forall i | 0 <= i < |init| :: rs[i] == init[i];
    }
  }

  // Publishing again after any prefix of the writes ends at the same inbox.
  lemma {:induction false} PublishResumed(d: Disk, rs: seq<Record>, life: nat)
    requires life <= |Publish(d.inbox, rs).writes|
    ensures var p := Publish(d.inbox, rs);
            var d' := ApplyAll(d, p.writes[..life]);
            var q := Publish(d'.inbox, rs);
            q.inbox == p.inbox && q.clash == p.clash
    decreases |rs|
  {
    if rs != [] {
      var init := rs[..|rs| - 1];
      var p0, p := Publish(d.inbox, init), Publish(d.inbox, rs);
      if life <= |p0.writes| {
        assert p.writes[..life] == p0.writes[..life];
        PublishResumed(d, init, life);
      } else {
        assert p.writes[..life] == p.writes;
        PublishEffect(d, rs);
        PublishHeld(p.inbox, rs);
      }
    }
  }

  lemma ApplyRecordsKeeps(d: Disk, ws: seq<Write>)
    requires forall i | 0 <= i < |ws| :: ws[i].WRecord?
    ensures ApplyAll(d, ws) == d.(inbox := ApplyAll(d, ws).inbox)
    decreases |ws|
  {
    if ws != [] {
      ApplyRecordsKeeps(Apply(d, ws[0]), ws[1..]);
    }
  }

  // Records land only under names the inbox did not have.
  lemma {:induction false} PublishCutGrows(d: Disk, rs: seq<Record>, life: nat)
    requires life <= |Publish(d.inbox, rs).writes|
    ensures var d' := ApplyAll(d, Publish(d.inbox, rs).writes[..life]);
            forall id | id in d.inbox :: id in d'.inbox && d'.inbox[id] == d.inbox[id]
    decreases |rs|
  {
    if rs != [] {
      var init := rs[..|rs| - 1];
      var p0, p := Publish(d.inbox, init), Publish(d.inbox, rs);
      if life <= |p0.writes| {
        assert p.writes[..life] == p0.writes[..life];
        PublishCutGrows(d, init, life);
      } else {
        assert p.writes[..life] == p.writes;
        PublishEffect(d, rs);
      }
    }
  }

  lemma {:induction false} MaxIdAbsorbs(n: nat, us: seq<Update>)
    ensures n <= MaxId(n, us)
    ensures forall top | MaxId(n, us) <= top :: MaxId(top, us) == top
    ensures forall i | 0 <= i < |us| :: us[i].id <= MaxId(n, us)
    decreases |us|
  {
    if us != [] {
      MaxIdAbsorbs(n, us[..|us| - 1]);
      assert forall i | 0 <= i < |us| - 1 :: us[i] == us[..|us| - 1][i];
    }
  }

  // A whole capture, in one piece.
  lemma CaptureShape(d: Disk, us: seq<Update>, operator: string)
    requires !d.checkpoint.Garbled?
    ensures var n := ReadCheckpoint(d, false).value;
            var p := Publish(d.inbox, Records(us, operator));
            Capture(d, us, operator)
            == d.(inbox := p.inbox,
                  checkpoint := if !p.clash && MaxId(n, us) > n then Holds(MaxId(n, us)) else d.checkpoint)
  {
    var p := Publish(d.inbox, Records(us, operator));
    var ws := CapturePlan(d, Updates(us), operator).writes;
    PublishEffect(d, Records(us, operator));
    ApplyAllAppend(d, p.writes, ws[|p.writes|..]);
    assert ws == p.writes + ws[|p.writes|..];
  }

  // A cut-short capture either stopped among the records or was complete.
  lemma InterruptedShape(d: Disk, us: seq<Update>, operator: string, life: nat) returns (cut: nat)
    requires !d.checkpoint.Garbled?
    ensures var ws := Publish(d.inbox, Records(us, operator)).writes;
            var d' := Interrupted(d, us, operator, life);
            && cut <= |ws|
            && (d' == ApplyAll(d, ws[..cut]) == d.(inbox := ApplyAll(d, ws[..cut]).inbox)
                || d' == Capture(d, us, operator))
  {
    var p := Publish(d.inbox, Records(us, operator));
    var ws := CapturePlan(d, Updates(us), operator).writes;
    PublishEffect(d, Records(us, operator));
    cut := if life < |p.writes| then life else |p.writes|;
    assert p.writes <= ws;
    if life < |ws| {
      assert Landed(ws, life) == p.writes[..cut];
      ApplyRecordsKeeps(d, p.writes[..cut]);
    }
  }

  /** A capture resumed after a crash at any write ends on the same disk, with the same reply,
      as one that ran through. */
  lemma CaptureResumed(d: Disk, us: seq<Update>, operator: string, life: nat)
    ensures var d' := Interrupted(d, us, operator, life);
            && Capture(d', us, operator) == Capture(d, us, operator)
            && CapturePlan(d', Updates(us), operator).reply == CapturePlan(d, Updates(us), operator).reply
  {
    if !d.checkpoint.Garbled? {
      var d' := Interrupted(d, us, operator, life);
      var rs := Records(us, operator);
      var p := Publish(d.inbox, rs);
      var cut := InterruptedShape(d, us, operator, life);
      CaptureShape(d, us, operator);
      CaptureShape(d', us, operator);
      PublishResumed(d, rs, cut);
      PublishResumed(d, rs, |p.writes|);
      assert p.writes[..|p.writes|] == p.writes;
      PublishEffect(d, rs);
      MaxIdAbsorbs(ReadCheckpoint(d, false).value, us);
    }
  }

  /** However many captures of a batch are cut short, wherever they are cut, one that runs
      through ends on the disk of a single uninterrupted capture. */
  lemma {:induction false} CaptureConverges(d: Disk, us: seq<Update>, operator: string, lives: seq<nat>)
    ensures Capture(Attempts(d, us, operator, lives), us, operator) == Capture(d, us, operator)
    decreases |lives|
  {
    if lives != [] {
      CaptureResumed(d, us, operator, lives[0]);
      CaptureConverges(Interrupted(d, us, operator, lives[0]), us, operator, lives[1..]);
    }
  }

  lemma {:induction false} RecordsComplete(us: seq<Update>, operator: string)
    ensures forall i | 0 <= i < |us| && Eligible(us[i], operator) :: RecordOf(us[i], operator) in Records(us, operator)
    ensures forall r | r in Records(us, operator) ::
              exists i :: 0 <= i < |us| && Eligible(us[i], operator) && RecordOf(us[i], operator) == r
    decreases |us|
  {
    if us != [] {
      var init := us[..|us| - 1];
      RecordsComplete(init, operator);
      assert forall i | 0 <= i < |init| :: us[i] == init[i];
      forall r | r in Records(us, operator)
        ensures exists i :: 0 <= i < |us| && Eligible(us[i], operator) && RecordOf(us[i], operator) == r
      {
        if r in Records(init, operator) {
          var i :| 0 <= i < |init| && Eligible(init[i], operator) && RecordOf(init[i], operator) == r;
          assert us[i] == init[i];
        } else {
          assert Eligible(us[|us| - 1], operator) && RecordOf(us[|us| - 1], operator) == r;
        }
      }
    }
  }

  /** At every crash point: a checkpoint that moved means every message the operator sent in the
      batch is already in the inbox, field by field, and it never moves backwards. */
  lemma CheckpointAfterInbox(d: Disk, us: seq<Update>, operator: string, life: nat)
    ensures var d' := Interrupted(d, us, operator, life);
            && (d'.checkpoint != d.checkpoint ==>
                  && d'.checkpoint.Holds? && ReadCheckpoint(d, false).Ok?
                  && d'.checkpoint.value > ReadCheckpoint(d, false).value
                  && forall i, m, sender, text | 0 <= i < |us| && FromOperator(us[i], operator, m, sender, text) ::
                       us[i].id in d'.inbox && Reports(d'.inbox[us[i].id], us[i], m, sender, text))
            && (forall id | id in d.inbox :: id in d'.inbox && d'.inbox[id] == d.inbox[id])
            && d'.journal == d.journal
  {
    if d.checkpoint.Garbled? {
      return;
    }
    var rs := Records(us, operator);
    var p := Publish(d.inbox, rs);
    var cut := InterruptedShape(d, us, operator, life);
    CaptureShape(d, us, operator);
    PublishCutGrows(d, rs, cut);
    PublishEffect(d, rs);
    RecordsComplete(us, operator);
    forall i, m, sender, text | 0 <= i < |us| && FromOperator(us[i], operator, m, sender, text) && !p.clash
      ensures us[i].id in p.inbox && Reports(p.inbox[us[i].id], us[i], m, sender, text)
    {
      EligibleMeans(us[i], operator);
      var k :| 0 <= k < |rs| && rs[k] == RecordOf(us[i], operator);
    }
  }

  // ---- What a capture leaves, field by field -------------------------------------------------

  /** A capture that was not refused holds every message the operator sent, each field of it. */
  lemma OperatorIsHeard(
    d: Disk, us: seq<Update>, operator: string, i: nat, m: Message, sender: Sender, text: string)
    requires CapturePlan(d, Updates(us), operator).reply.Captured?
    requires i < |us| && FromOperator(us[i], operator, m, sender, text)
    ensures var inbox := Capture(d, us, operator).inbox;
            us[i].id in inbox && Reports(inbox[us[i].id], us[i], m, sender, text)
  {
    EligibleMeans(us[i], operator);
    CaptureShape(d, us, operator);
    PublishEffect(d, Records(us, operator));
    RecordsComplete(us, operator);
    var rs := Records(us, operator);
    var k :| 0 <= k < |rs| && rs[k] == RecordOf(us[i], operator);
  }

  /** Whatever a capture adds to the inbox, wherever it is cut, is a message of the batch that the
      operator sent, each field of it: no bot's, no other chat's, none without a text. */
  lemma NobodyElseIsHeard(d: Disk, us: seq<Update>, operator: string, life: nat, id: nat)
    requires var d' := Interrupted(d, us, operator, life); id in d'.inbox && id !in d.inbox
    ensures exists i, m, sender, text ::
              && 0 <= i < |us| && us[i].id == id && FromOperator(us[i], operator, m, sender, text)
              && Reports(Interrupted(d, us, operator, life).inbox[id], us[i], m, sender, text)
  {
    var ws := Landed(CapturePlan(d, Updates(us), operator).writes, life);
    CaptureWrites(d, us, operator);
    var r := RecordLanded(d, ws, id);
    RecordsComplete(us, operator);
    var i :| 0 <= i < |us| && Eligible(us[i], operator) && RecordOf(us[i], operator) == r;
    EligibleMeans(us[i], operator);
    var m, sender, text :| FromOperator(us[i], operator, m, sender, text);
  }

  // A capture writes records of its batch, and then perhaps the checkpoint.
  lemma CaptureWrites(d: Disk, us: seq<Update>, operator: string)
    ensures var ws := CapturePlan(d, Updates(us), operator).writes;
            forall i | 0 <= i < |ws| ::
              ws[i].WCheckpoint? || (ws[i].WRecord? && ws[i].record in Records(us, operator))
  {
    PublishEffect(d, Records(us, operator));
  }

  // What is in the inbox and was not before has been written there.
  lemma {:induction false} RecordLanded(d: Disk, ws: seq<Write>, id: nat) returns (r: Record)
    requires forall i | 0 <= i < |ws| :: ws[i].WCheckpoint? || ws[i].WRecord?
    requires id in ApplyAll(d, ws).inbox && id !in d.inbox
    ensures ApplyAll(d, ws).inbox[id] == r && r.id == id && exists i :: 0 <= i < |ws| && ws[i] == WRecord(r)
    decreases |ws|
  {
    var init, last := ws[..|ws| - 1], ws[|ws| - 1];
    assert ws == init + [last];
    ApplyAllAppend(d, init, [last]);
    if last.WRecord? && last.record.id == id {
      r := last.record;
    } else {
      r := RecordLanded(d, init, id);
      var i :| 0 <= i < |init| && init[i] == WRecord(r);
      assert ws[i] == WRecord(r);
    }
  }

  /** A capture that was not refused stands at the highest id it has seen, and says how many
      updates and records there were. */
  lemma CaptureStands(d: Disk, us: seq<Update>, operator: string)
    requires CapturePlan(d, Updates(us), operator).reply.Captured?
    ensures var reply, d' := CapturePlan(d, Updates(us), operator).reply, Capture(d, us, operator);
            var n := if d.checkpoint.Holds? then d.checkpoint.value else 0;
            && (d'.checkpoint == Holds(reply.checkpoint) || (d' .checkpoint == d.checkpoint && reply.checkpoint == n))
            && reply.checkpoint >= n && (forall i | 0 <= i < |us| :: us[i].id <= reply.checkpoint)
            && (reply.checkpoint == n || exists i :: 0 <= i < |us| && us[i].id == reply.checkpoint)
            && reply.updates == |us|
            && (reply.outcome == CapturedEmpty <==> us == [])
            && (reply.outcome == CapturedSome <==> exists i :: 0 <= i < |us| && Eligible(us[i], operator))
  {
    CaptureShape(d, us, operator);
    MaxIdAbsorbs(ReadCheckpoint(d, false).value, us);
    MaxIdFound(ReadCheckpoint(d, false).value, us);
    RecordsComplete(us, operator);
    var rs := Records(us, operator);
    assert rs != [] ==> rs[0] in rs;
  }

  lemma {:induction false} MaxIdFound(n: nat, us: seq<Update>)
    ensures MaxId(n, us) == n || exists i :: 0 <= i < |us| && us[i].id == MaxId(n, us)
    decreases |us|
  {
    if us != [] && MaxId(n, us) != us[|us| - 1].id {
      var init := us[..|us| - 1];
      MaxIdFound(n, init);
      if MaxId(n, init) != n {
        var i :| 0 <= i < |init| && init[i].id == MaxId(n, init);
        assert us[i] == init[i];
      }
    }
  }

  /** A record that stands under an id is never replaced: a message that differs from it ends the
      capture, and the checkpoint stays. */
  lemma ConflictIsKept(d: Disk, us: seq<Update>, operator: string, i: nat, m: Message, sender: Sender, text: string)
    requires i < |us| && FromOperator(us[i], operator, m, sender, text) && us[i].id in d.inbox
    requires !Reports(d.inbox[us[i].id], us[i], m, sender, text) && d.checkpoint != Garbled
    ensures CapturePlan(d, Updates(us), operator).reply == Refused(RecordConflict)
    ensures Capture(d, us, operator).checkpoint == d.checkpoint
    ensures var inbox := Capture(d, us, operator).inbox; us[i].id in inbox && inbox[us[i].id] == d.inbox[us[i].id]
  {
    CaptureShape(d, us, operator);
    PublishEffect(d, Records(us, operator));
    if CapturePlan(d, Updates(us), operator).reply.Captured? {
      OperatorIsHeard(d, us, operator, i, m, sender, text);
    }
  }

  /** With no record under any id of the batch, and no id twice in it, nothing is refused. */
  lemma {:induction false} FreshBatchIsTaken(inbox: map<nat, Record>, rs: seq<Record>)
    requires forall i | 0 <= i < |rs| :: rs[i].id in inbox ==> inbox[rs[i].id] == rs[i]
    requires forall i, j | 0 <= i < j < |rs| && rs[i].id == rs[j].id :: rs[i] == rs[j]
    ensures var p := Publish(inbox, rs);
            && !p.clash && (forall id | id in p.inbox && id !in inbox :: exists i :: 0 <= i < |rs| && rs[i] == p.inbox[id] && rs[i].id == id)
            && forall id | id in inbox :: id in p.inbox && p.inbox[id] == inbox[id]
    decreases |rs|
  {
    if rs != [] {
      var init, r := rs[..|rs| - 1], rs[|rs| - 1];
      FreshBatchIsTaken(inbox, init);
      var p := Publish(inbox, init);
      if r.id in p.inbox && r.id !in inbox {
        var i :| 0 <= i < |init| && init[i] == p.inbox[r.id] && init[i].id == r.id;
        assert rs[i] == init[i];
      }
      assert forall i | 0 <= i < |init| :: rs[i] == init[i];
    }
  }

  // Record k is that of update at[k].
  predicate Picks(at: seq<nat>, us: seq<Update>, operator: string, rs: seq<Record>) {
    && |at| == |rs|
    && (forall k | 0 <= k < |at| :: at[k] < |us| && Eligible(us[at[k]], operator) && rs[k] == RecordOf(us[at[k]], operator))
    && forall k, m | 0 <= k < m < |at| :: at[k] < at[m]
  }

  lemma PicksGrow(at: seq<nat>, us: seq<Update>, operator: string, rs: seq<Record>, u: Update)
    requires Picks(at, us, operator, rs)
    ensures Picks(at, us + [u], operator, rs)
    ensures Eligible(u, operator) ==> Picks(at + [|us|], us + [u], operator, rs + [RecordOf(u, operator)])
  {
  }

  /** The records come in the order of their updates, one for each eligible one. */
  lemma {:induction false} RecordsKeepOrder(us: seq<Update>, operator: string) returns (at: seq<nat>)
    ensures Picks(at, us, operator, Records(us, operator))
    ensures forall i | 0 <= i < |us| && Eligible(us[i], operator) :: i in at
    decreases |us|
  {
    if us == [] {
      at := [];
    } else {
      var init, u := us[..|us| - 1], us[|us| - 1];
      at := RecordsKeepOrder(init, operator);
      PicksGrow(at, init, operator, Records(init, operator), u);
      assert us == init + [u];
      assert forall i | 0 <= i < |init| :: init[i] == us[i];
      if Eligible(u, operator) {
        at := at + [|init|];
      } else {
        assert Records(us, operator) == Records(init, operator);
      }
    }
  }
}
