/** The ownership token can always be recovered: from every reachable world with an enrolled
    reader, the verbs lead to an active host again. */
module Recovery {
  import opened Prelude
  import opened ReaderState
  import opened ReaderVerbs
  import opened World
  import opened Legality
  import opened Ownership
  import opened Runs
  import opened Safety

  // `steps` lead from `w` along `ws`.
  ghost predicate LeadsTo(w: World, ws: seq<World>, steps: seq<Step>, w': World) {
    Path(ws, steps) && ws[0] == w && ws[|ws| - 1] == w'
  }

  ghost predicate Reaches(w: World, w': World) {
    exists ws, steps :: LeadsTo(w, ws, steps, w')
  }

  lemma ReachesSelf(w: World)
    ensures Reaches(w, w)
  {
    assert LeadsTo(w, [w], [], w);
  }

  lemma ReachesStep(w: World, step: Step, w': World)
    requires Enabled(w, step) && Reaches(After(w, step), w')
    ensures Reaches(w, w')
  {
    var w1 := After(w, step);
    var ws, steps :| LeadsTo(w1, ws, steps, w');
    var ws', steps' := [w] + ws, [step] + steps;
    forall i: nat | i < |steps'| ensures Follows(ws', steps', i) {
      if i > 0 {
        assert Follows(ws, steps, i - 1);
      }
    }
    assert LeadsTo(w, ws', steps', w');
  }

  // What a finished verb leaves: its writes on its own disk, and nothing lost elsewhere.
  ghost predicate Finished(w: World, h: string, d: Disk, w': World) {
    && h in w'.hosts && w'.hosts[h] == Host(d, Idle)
    && w'.hosts.Keys == w.hosts.Keys
    && w.net.offers <= w'.net.offers && w.net.receipts <= w'.net.receipts
    && w.net.drawn == w'.net.drawn
  }

  lemma {:induction false} FinishTask(w: World, h: string, todo: seq<Write>) returns (w': World)
    requires h in w.hosts && todo != [] && w.hosts[h].task == Writing(todo, Local)
    ensures Finished(w, h, ApplyAll(w.hosts[h].disk, todo), w')
    ensures Reaches(w, w')
    decreases |todo|
  {
    var w1 := After(w, Land(h));
    if |todo| == 1 {
      w' := w1;
      ReachesSelf(w1);
    } else {
      w' := FinishTask(w1, h, todo[1..]);
    }
    ReachesStep(w, Land(h), w');
  }

  // An idle host runs a verb to its end.
  lemma RunVerb(w: World, h: string, verb: Verb) returns (w': World)
    requires h in w.hosts && w.hosts[h].task.Idle? && Honest(w.net, h, w.hosts[h].disk, verb)
    requires !verb.Export? && !verb.Enroll?
    ensures Finished(w, h, ApplyAll(w.hosts[h].disk, PlanOf(w.hosts[h].disk, verb).writes), w')
    ensures Reaches(w, w')
  {
    var ws := PlanOf(w.hosts[h].disk, verb).writes;
    var w1 := After(w, Acquire(h, verb));
    if ws == [] {
      w' := w1;
      ReachesSelf(w1);
    } else {
      w' := FinishTask(w1, h, ws);
    }
    ReachesStep(w, Acquire(h, verb), w');
  }

  lemma {:induction false} ReachesTrans(a: World, b: World, c: World)
    requires Reaches(a, b) && Reaches(b, c)
    ensures Reaches(a, c)
  {
    var ws, steps :| LeadsTo(a, ws, steps, b);
    ReachesAlong(ws, steps, c);
  }

  lemma {:induction false} ReachesAlong(ws: seq<World>, steps: seq<Step>, c: World)
    requires Path(ws, steps) && Reaches(ws[|ws| - 1], c)
    ensures Reaches(ws[0], c)
    decreases |steps|
  {
    if steps != [] {
      assert Follows(ws, steps, 0);
      forall i: nat | i < |steps[1..]| ensures Follows(ws[1..], steps[1..], i) {
        assert Follows(ws, steps, i + 1);
      }
      ReachesAlong(ws[1..], steps[1..], c);
      ReachesStep(ws[0], steps[0], c);
    }
  }

  // A killed process leaves its host idle, with the disk as it is.
  lemma Kill(w: World, h: string) returns (w': World)
    requires h in w.hosts
    ensures w' == SetHost(w, h, w.hosts[h].disk, Idle) && Reaches(w, w')
  {
    w' := After(w, Die(h));
    ReachesSelf(w');
    ReachesStep(w, Die(h), w');
  }

  lemma LastWrite(d: Disk, ws: seq<Write>)
    requires ws != []
    ensures ApplyAll(d, ws) == Apply(ApplyAll(d, ws[..|ws| - 1]), ws[|ws| - 1])
  {
    assert ws == ws[..|ws| - 1] + [ws[|ws| - 1]];
    ApplyAllAppend(d, ws[..|ws| - 1], [ws[|ws| - 1]]);
  }

  // An owner returns to active on its own: a bare fence or an open offer is cancelled.
  lemma OwnerReturns(w: World, o: string) returns (w': World)
    requires o in w.hosts && Owns(w.hosts[o]) && DiskOk(w.net, o, w.hosts[o].disk)
    ensures Reaches(w, w') && o in w'.hosts && ActiveOn(w'.hosts[o].disk)
  {
    var d := w.hosts[o].disk;
    var w1 := Kill(w, o);
    if ActiveOn(d) {
      w' := w1;
    } else {
      var j := d.journal.value;
      var tid := if j.phase.Offered? then Some(j.transfer.value.manifest.terms.transferId) else None;
      w' := RunVerb(w1, o, Cancel(tid));
      var ws := CancelPlan(d, tid).writes;
      LastWrite(d, ws);
      ReachesTrans(w, w1, w');
    }
  }

  // The destination's half: prepare if it must, import, activate on the receipt.
  lemma DestinationRises(w: World, m: Manifest, r: Receipt) returns (w': World)
    requires var h := m.terms.destination;
             && h in w.hosts && DiskOk(w.net, h, w.hosts[h].disk) && !Owns(w.hosts[h])
             && EpochOf(w.hosts[h]) < m.terms.epoch
    requires NetOk(w.net) && m in w.net.offers && r in w.net.receipts && ReceiptMatches(m, r)
    ensures Reaches(w, w')
    ensures m.terms.destination in w'.hosts && ActiveOn(w'.hosts[m.terms.destination].disk)
  {
    var h := m.terms.destination;
    var credential := Some(m.terms.botId);
    var w1 := Kill(w, h);
    var w2 := RunVerb(w1, h, Prepare(h, credential));
    PreparedDisk(w.hosts[h].disk, h, m);
    var d2 := w2.hosts[h].disk;
    var w3 := RunVerb(w2, h, Import(m, credential));
    ImportedDisk(d2, m);
    var d3 := w3.hosts[h].disk;
    w' := RunVerb(w3, h, Activate(r));
    ActivatedDisk(d3, m, r);
    ReachesTrans(w, w1, w2);
    ReachesTrans(w, w2, w3);
    ReachesTrans(w, w3, w');
  }

  predicate Ready(d: Disk, m: Manifest) {
    && d.journal.Some? && ValidJournal(d.journal.value) && !d.journal.value.phase.Owner()
    && d.journal.value.hostId == m.terms.destination && d.journal.value.epoch < m.terms.epoch
  }

  predicate StagedOn(d: Disk, m: Manifest) {
    && d.journal.Some? && ValidJournal(d.journal.value) && d.journal.value.phase.Staged?
    && d.journal.value.transfer.value.manifest == m
  }

  lemma PreparedDisk(d: Disk, h: string, m: Manifest)
    requires ValidManifest(m) && h == m.terms.destination
    requires d.journal.None? || Ready(d, m)
    ensures Ready(ApplyAll(d, PreparePlan(d, h, Some(m.terms.botId)).writes), m)
  {
    var ws := PreparePlan(d, h, Some(m.terms.botId)).writes;
    if ws != [] {
      LastWrite(d, ws);
    }
  }

  lemma ImportedDisk(d: Disk, m: Manifest)
    requires ValidManifest(m) && Ready(d, m)
    ensures StagedOn(ApplyAll(d, ImportPlan(d, m, Some(m.terms.botId)).writes), m)
  {
  }

  lemma ActivatedDisk(d: Disk, m: Manifest, r: Receipt)
    requires StagedOn(d, m) && ReceiptMatches(m, r)
    ensures ActiveOn(ApplyAll(d, ActivatePlan(d, r).writes))
  {
    var ws := ActivatePlan(d, r).writes;
    if ws != [] {
      LastWrite(d, ws);
    }
  }

  /** The token is never lost: from any world of any run in which a host owns the bot, or ever made
      an offer, some further steps make a host active, provided the destination of a pending
      transfer exists. */
  lemma TokenRecoverable(ws: seq<World>, steps: seq<Step>, i: nat)
    requires Run(ws, steps) && i <= |steps|
    requires ws[i].net.offers != {} || exists h :: h in ws[i].hosts && Owns(ws[i].hosts[h])
    requires forall m | Pending(ws[i], m) :: m.terms.destination in ws[i].hosts
    ensures exists w' :: Reaches(ws[i], w') && exists h :: h in w'.hosts && ActiveOn(w'.hosts[h].disk)
  {
    Reachable(ws, steps, i);
    var w, t := ws[i], TokenAt(ws, steps, i);
    if t.Held? {
      assert DiskOk(w.net, t.host, w.hosts[t.host].disk);
      var w' := OwnerReturns(w, t.host);
    } else {
      var m := t.offer;
      var d := w.hosts[m.terms.source].disk;
      PendingIsPassing(ws, steps, i, m);
      assert DiskOk(w.net, m.terms.source, d);
      assert DiskOk(w.net, m.terms.destination, w.hosts[m.terms.destination].disk);
      var w' := DestinationRises(w, m, ReceiptOf(m, d.journal.value.transfer.value.secret.value));
    }
  }
}
