/** The coordinator inside the world: whatever a coordinated transfer does to its two hosts, a run
    of the world does, so that every promise of a run holds of its outcome. */
module CoordinatedRuns {
  import opened Prelude
  import opened ReaderState
  import opened ReaderVerbs
  import opened ReaderHost
  import opened World
  import opened Legality
  import opened Ownership
  import opened Landings
  import opened Runs
  import opened Safety
  import opened Recovery
  import opened Coordinator
  import opened Resumption

  // ---- One call as steps of the world ---------------------------------------------------

  // `h` is idle on the disk `d`, no other host has changed, and nothing known was lost.
  ghost predicate Left(w: World, h: string, d: Disk, w': World) {
    && h in w.hosts && w'.hosts == w.hosts[h := Host(d, Idle)]
    && w.net.offers <= w'.net.offers && w.net.receipts <= w'.net.receipts
  }

  lemma LandedHead(d: Disk, todo: seq<Write>, life: nat)
    requires todo != [] && life > 0
    ensures ApplyAll(d, Landed(todo, life)) == ApplyAll(Apply(d, todo[0]), Landed(todo[1..], life - 1))
  {
    var landed := Landed(todo, life);
    assert landed[0] == todo[0] && landed[1..] == Landed(todo[1..], life - 1);
  }

  // The process lands `life` of its writes, and is killed if that is not all of them.
  lemma {:induction false} LandSome(w: World, h: string, todo: seq<Write>, life: nat) returns (w': World)
    requires h in w.hosts && w.hosts[h].task == SetOut(todo, Local)
    ensures Reaches(w, w') && Left(w, h, ApplyAll(w.hosts[h].disk, Landed(todo, life)), w')
    ensures w'.net.drawn == w.net.drawn
    decreases |todo|
  {
    if todo == [] {
      w' := w;
      ReachesSelf(w);
    } else if life == 0 {
      w' := Kill(w, h);
    } else {
      var w1 := After(w, Land(h));
      w' := LandSome(w1, h, todo[1..], life - 1);
      LandedHead(w.hosts[h].disk, todo, life);
      ReachesStep(w, Land(h), w');
    }
  }

  lemma AskIsPath(w: World, h: string, verb: Verb, call: Call) returns (w': World)
    requires h in w.hosts && w.hosts[h].task.Idle? && Honest(w.net, h, w.hosts[h].disk, verb)
    requires |PlanOf(w.hosts[h].disk, verb).writes| <= 3
    ensures Reaches(w, w') && Left(w, h, Ask(w.hosts[h].disk, PlanOf(w.hosts[h].disk, verb), call).disk, w')
    ensures w'.net.drawn == Drawing(w.net, h, verb).drawn
  {
    var plan := PlanOf(w.hosts[h].disk, verb);
    var w1 := After(w, Acquire(h, verb));
    AskIsShort(w.hosts[h].disk, plan, call);
    w' := LandSome(w1, h, plan.writes, Lifetime(call));
    ReachesStep(w, Acquire(h, verb), w');
  }

  // A call cut at `life` writes, of which `n` are already behind it.
  function Rest(call: Call, n: nat): Call {
    if call.Clean? || call.life < n then call else Broken(call.life - n)
  }

  // The stop file, then the plan under the lock.
  lemma StoppingSplits(d: Disk, plan: Plan, call: Call)
    requires |plan.writes| <= 2
    ensures var stop := StopWrites(d);
            var whole := Plan(stop + plan.writes, plan.reply);
            Ask(d, whole, call).disk
            == if call.Broken? && call.life < |stop| then d
               else Ask(ApplyAll(d, stop), plan, Rest(call, |stop|)).disk
  {
    var stop := StopWrites(d);
    AskIsShort(d, Plan(stop + plan.writes, plan.reply), call);
    LandedAppend(stop, plan.writes, Lifetime(call));
    if call.Broken? && call.life < |stop| {
      assert Landed(stop, call.life) == [];
    } else {
      AskIsShort(ApplyAll(d, stop), plan, Rest(call, |stop|));
      ApplyAllAppend(d, stop, Landed(plan.writes, Lifetime(call) - |stop|));
      assert Landed(plan.writes, Lifetime(Rest(call, |stop|))) == Landed(plan.writes, Lifetime(call) - |stop|);
    }
  }

  lemma TouchedWorld(w: World, s: string, d: Disk) returns (w': World)
    requires s in w.hosts && w.hosts[s].task.Idle? && d == w.hosts[s].disk.(stop := d.stop)
    ensures w' == SetHost(w, s, d, Idle) && Reaches(w, w')
  {
    w' := After(w, TouchStop(s, d.stop));
    ReachesSelf(w');
    ReachesStep(w, TouchStop(s, d.stop), w');
  }

  // The verb that export runs under the lock, and the disk it finds there.
  lemma ExportVerb(d: Disk, job: Job) returns (d1: Disk, verb: Verb)
    requires ValidHostId(job.destination)
    ensures d1 == ApplyAll(d, StopWrites(d)) == d.(stop := d1.stop)
    ensures verb == Export(job.destination, job.sourceCredential, job.transferId, job.secret, !d.stop.NoStop?)
    ensures var plan := PlanOf(d1, verb);
            && |plan.writes| <= 2
            && ExportRun(d, job.destination, job.sourceCredential, job.transferId, job.secret)
               == Plan(StopWrites(d) + plan.writes, plan.reply)
  {
    StopApplied(d);
    d1 := ApplyAll(d, StopWrites(d));
    verb := Export(job.destination, job.sourceCredential, job.transferId, job.secret, !d.stop.NoStop?);
  }

  lemma ExportIsPath(w: World, s: string, job: Job, call: Call) returns (w': World)
    requires s in w.hosts && w.hosts[s].task.Idle? && ValidHostId(job.destination)
    requires job.transferId !in w.net.drawn && HexOf(job.transferId, 16) && HexOf(job.secret, 64)
    ensures var d := w.hosts[s].disk;
            var run := ExportRun(d, job.destination, job.sourceCredential, job.transferId, job.secret);
            Reaches(w, w') && Left(w, s, Ask(d, run, call).disk, w')
  {
    var d := w.hosts[s].disk;
    var d1, verb := ExportVerb(d, job);
    StoppingSplits(d, PlanOf(d1, verb), call);
    if call.Broken? && call.life < |StopWrites(d)| {
      w' := w;
      ReachesSelf(w);
    } else {
      var w1 := TouchedWorld(w, s, d1);
      w' := AskIsPath(w1, s, verb, Rest(call, |StopWrites(d)|));
      ReachesTrans(w, w1, w');
    }
  }

  // ---- The invariant along the way --------------------------------------------------------

  lemma PathTail(ws: seq<World>, steps: seq<Step>)
    requires Path(ws, steps) && steps != []
    ensures Path(ws[1..], steps[1..]) && Follows(ws, steps, 0)
  {
    forall i: nat | i < |steps[1..]| ensures Follows(ws[1..], steps[1..], i) {
      assert Follows(ws, steps, i + 1);
    }
    assert Follows(ws, steps, 0);
  }

  lemma FollowsKeeps(ws: seq<World>, steps: seq<Step>, t: Token) returns (t': Token)
    requires steps != [] && |ws| > 1 && |steps| < |ws| && Follows(ws, steps, 0) && Inv(ws[0], t)
    ensures Inv(ws[1], t')
  {
    StepKeeps(ws[0], steps[0], t);
    t' := TokenAfter(ws[0], steps[0], t);
  }

  lemma {:induction false} InvAlong(ws: seq<World>, steps: seq<Step>, t: Token) returns (t': Token)
    requires Path(ws, steps) && Inv(ws[0], t)
    ensures Inv(ws[|ws| - 1], t')
    decreases |steps|
  {
    if steps == [] {
      t' := t;
    } else {
      PathTail(ws, steps);
      var t1 := FollowsKeeps(ws, steps, t);
      t' := InvAlong(ws[1..], steps[1..], t1);
    }
  }

  lemma InvReaches(w: World, t: Token, w': World) returns (t': Token)
    requires Inv(w, t) && Reaches(w, w')
    ensures Inv(w', t')
  {
    var ws, steps :| LeadsTo(w, ws, steps, w');
    t' := InvAlong(ws, steps, t);
  }

  /** Any world reached from a world of a run is a world of a run. */
  lemma RunsGoOn(ws: seq<World>, steps: seq<Step>, i: nat, w': World)
    requires Run(ws, steps) && i <= |steps| && Reaches(ws[i], w')
    ensures exists ws', steps' :: Run(ws', steps') && ws'[|steps'|] == w'
  {
    var more, on :| LeadsTo(ws[i], more, on, w');
    var ws', steps' := ws[..i] + more, steps[..i] + on;
    forall k: nat | k < |steps'| ensures Follows(ws', steps', k) {
      if k < i {
        assert Follows(ws, steps, k);
        assert ws'[k + 1] == ws[k + 1];
      } else {
        assert Follows(more, on, k - i);
      }
    }
    assert Run(ws', steps') && ws'[|steps'|] == w';
  }

  // ---- The transfer as a path ---------------------------------------------------------------

  // The two hosts as an outcome leaves them, all others as they were.
  ghost predicate Outcomes(w: World, s: string, h: string, ds: Disk, dd: Disk, w': World) {
    s in w.hosts && h in w.hosts && w'.hosts == w.hosts[s := Host(ds, Idle)][h := Host(dd, Idle)]
  }

  lemma DestinationAsks(w: World, s: string, h: string, verb: Verb, call: Call) returns (w': World)
    requires s in w.hosts && h in w.hosts && s != h && w.hosts[s].task.Idle? && w.hosts[h].task.Idle?
    requires verb.Prepare? || verb.Import? || verb.Activate?
    requires Honest(w.net, h, w.hosts[h].disk, verb)
    ensures Reaches(w, w') && Outcomes(w, s, h, w.hosts[s].disk, Ask(w.hosts[h].disk, PlanOf(w.hosts[h].disk, verb), call).disk, w')
    ensures w.net.offers <= w'.net.offers && w.net.receipts <= w'.net.receipts && w'.net.drawn == w.net.drawn
  {
    w' := AskIsPath(w, h, verb, call);
    assert w.hosts[s] == Host(w.hosts[s].disk, Idle);
    assert w.hosts[s := Host(w.hosts[s].disk, Idle)] == w.hosts;
  }

  lemma OutcomesCompose(w: World, s: string, h: string, w1: World, ds: Disk, dd: Disk, w2: World, ds': Disk, dd': Disk)
    requires s != h && Outcomes(w, s, h, ds, dd, w1) && Outcomes(w1, s, h, ds', dd', w2)
    ensures Outcomes(w, s, h, ds', dd', w2)
  {
    assert w2.hosts == w.hosts[s := Host(ds', Idle)][h := Host(dd', Idle)];
  }

  lemma SourceAsks(w: World, s: string, h: string, d: Disk, w': World)
    requires s != h && h in w.hosts && w.hosts[h].task.Idle? && Left(w, s, d, w')
    ensures Outcomes(w, s, h, d, w.hosts[h].disk, w')
  {
    assert w'.hosts == w.hosts[s := Host(d, Idle)][h := Host(w.hosts[h].disk, Idle)];
  }

  // An offer on a source's disk is known, and so is the receipt of a committed one.
  lemma OfferKnown(w: World, t: Token, s: string, m: Manifest)
    requires Inv(w, t) && s in w.hosts && OfferOn(w.hosts[s].disk) == Some(m)
    ensures m in w.net.offers
    ensures HasCommitted(w.hosts[s].disk) ==>
              var plan := CommitPlan(w.hosts[s].disk, m); plan.reply.Committed? && plan.reply.receipt in w.net.receipts
  {
    assert DiskOk(w.net, s, w.hosts[s].disk);
  }

  // A host of a run that makes or repeats an offer is a source.
  lemma RunSource(w: World, t: Token, s: string)
    requires Inv(w, t) && s in w.hosts
    ensures AtSource(w.hosts[s].disk) <==> InPhase(w.hosts[s].disk, {Active, Fenced, Offered, Transferred})
  {
    assert DiskOk(w.net, s, w.hosts[s].disk);
  }

  lemma OnlySourcesOffer(w: World, t: Token, s: string, job: Job, call: Call)
    requires Inv(w, t) && s in w.hosts
    requires var d := w.hosts[s].disk;
             Ask(d, ExportRun(d, job.destination, job.sourceCredential, job.transferId, job.secret), call).reply.Offer?
    ensures AtSource(w.hosts[s].disk)
  {
    var d := w.hosts[s].disk;
    RunSource(w, t, s);
    assert DiskOk(w.net, s, d);
    if ValidHostId(job.destination) {
      StopApplied(d);
    }
  }

  // The disks after commit and, on its receipt, activation.
  function Decided(ds: Disk, dd: Disk, m: Manifest, calls: Calls): (Disk, Disk) {
    var c := Ask(ds, CommitPlan(ds, m), calls.commit);
    (c.disk, if c.reply.Committed? then Ask(dd, ActivatePlan(dd, c.reply.receipt), calls.activate).disk else dd)
  }

  lemma HandOverDecides(ds: Disk, dd: Disk, m: Manifest, job: Job, calls: Calls)
    ensures var i := Ask(dd, ImportPlan(dd, m, job.destinationCredential), calls.stage);
            var o := HandOver(ds, dd, m, job, calls);
            (o.source, o.destination) == if i.reply.Imported? then Decided(ds, i.disk, m, calls) else (ds, i.disk)
  {
  }

  // The receipt of a commit that came back is known.
  lemma CommittedReceipt(w: World, t: Token, s: string, m: Manifest, call: Call, w1: World)
    requires Inv(w, t) && s in w.hosts && Reaches(w, w1)
    requires var c := Ask(w.hosts[s].disk, CommitPlan(w.hosts[s].disk, m), call);
             c.reply.Committed? && s in w1.hosts && w1.hosts[s].disk == c.disk
    ensures Ask(w.hosts[s].disk, CommitPlan(w.hosts[s].disk, m), call).reply.receipt in w1.net.receipts
  {
    var t1 := InvReaches(w, t, w1);
    RunSource(w, t, s);
    CommitKeepsSource(w.hosts[s].disk, m, call);
    OfferKnown(w1, t1, s, m);
    ReceiptAgain(w.hosts[s].disk, m);
  }

  // Commit, then activate on the receipt.
  lemma DecideIsPath(w: World, t: Token, s: string, h: string, m: Manifest, calls: Calls) returns (w': World)
    requires Inv(w, t) && s in w.hosts && h in w.hosts && s != h && w.hosts[s].task.Idle? && w.hosts[h].task.Idle?
    ensures var (ds, dd) := Decided(w.hosts[s].disk, w.hosts[h].disk, m, calls);
            Reaches(w, w') && Outcomes(w, s, h, ds, dd, w')
  {
    var ds, dd := w.hosts[s].disk, w.hosts[h].disk;
    var c := Ask(ds, CommitPlan(ds, m), calls.commit);
    var w1 := AskIsPath(w, s, Commit(m), calls.commit);
    SourceAsks(w, s, h, c.disk, w1);
    w' := w1;
    if c.reply.Committed? {
      CommittedReceipt(w, t, s, m, calls.commit, w1);
      w' := DestinationAsks(w1, s, h, Activate(c.reply.receipt), calls.activate);
      ReachesTrans(w, w1, w');
      OutcomesCompose(w, s, h, w1, c.disk, dd, w', c.disk,
                      Ask(dd, ActivatePlan(dd, c.reply.receipt), calls.activate).disk);
    }
  }

  // The receipt of a clean commit is the one it gives when asked again.
  lemma ReceiptAgain(ds: Disk, m: Manifest)
    requires CommitPlan(ds, m).reply.Committed?
    ensures var d := ApplyAll(ds, CommitPlan(ds, m).writes);
            CommitPlan(d, m).reply.Committed? ==> CommitPlan(d, m).reply == CommitPlan(ds, m).reply
  {
    Prefixes(ds, CommitPlan(ds, m).writes, 3);
    assert Landed(CommitPlan(ds, m).writes, 3) == CommitPlan(ds, m).writes;
  }

  lemma HandOverIsPath(w: World, t: Token, s: string, h: string, m: Manifest, job: Job, calls: Calls) returns (w': World)
    requires Inv(w, t) && s in w.hosts && h in w.hosts && s != h && w.hosts[s].task.Idle? && w.hosts[h].task.Idle?
    requires m in w.net.offers
    ensures var o := HandOver(w.hosts[s].disk, w.hosts[h].disk, m, job, calls);
            Reaches(w, w') && Outcomes(w, s, h, o.source, o.destination, w')
  {
    var ds, dd := w.hosts[s].disk, w.hosts[h].disk;
    var i := Ask(dd, ImportPlan(dd, m, job.destinationCredential), calls.stage);
    var w1 := DestinationAsks(w, s, h, Import(m, job.destinationCredential), calls.stage);
    HandOverDecides(ds, dd, m, job, calls);
    w' := w1;
    if i.reply.Imported? {
      var t1 := InvReaches(w, t, w1);
      var (ds', dd') := Decided(ds, i.disk, m, calls);
      w' := DecideIsPath(w1, t1, s, h, m, calls);
      ReachesTrans(w, w1, w');
      OutcomesCompose(w, s, h, w1, ds, i.disk, w', ds', dd');
    }
  }

  /** A coordinated transfer between two idle hosts, interrupted and refused however it may be, is
      a path of the world: the same disks, and every other host untouched. */
  lemma CoordinationIsPath(w: World, t: Token, s: string, job: Job, calls: Calls) returns (w': World)
    requires Inv(w, t) && s in w.hosts && job.destination in w.hosts && s != job.destination
    requires w.hosts[s].task.Idle? && w.hosts[job.destination].task.Idle?
    requires job.transferId !in w.net.drawn && HexOf(job.transferId, 16) && HexOf(job.secret, 64)
    ensures var o := Coordination(w.hosts[s].disk, w.hosts[job.destination].disk, job, calls);
            Reaches(w, w') && Outcomes(w, s, job.destination, o.source, o.destination, w')
  {
    var h := job.destination;
    var ds, dd := w.hosts[s].disk, w.hosts[h].disk;
    var o := Coordination(ds, dd, job, calls);
    if !ValidHostId(h) {
      w' := w;
      ReachesSelf(w);
      assert w.hosts == w.hosts[s := Host(ds, Idle)][h := Host(dd, Idle)];
      return;
    }
    var p := Ask(dd, PreparePlan(dd, h, job.destinationCredential), calls.prepare);
    var w1 := DestinationAsks(w, s, h, Prepare(h, job.destinationCredential), calls.prepare);
    var t1 := InvReaches(w, t, w1);
    w' := w1;
    if p.reply.Prepared? || (p.reply == Refused(DestinationNotInactive) && HandedTo(ds, calls.status, h)) {
      var e := Ask(ds, ExportRun(ds, h, job.sourceCredential, job.transferId, job.secret), calls.offer);
      var w2 := ExportIsPath(w1, s, job, calls.offer);
      SourceAsks(w1, s, h, e.disk, w2);
      ReachesTrans(w, w1, w2);
      OutcomesCompose(w, s, h, w1, ds, p.disk, w2, e.disk, p.disk);
      w' := w2;
      if e.reply.Offer? {
        var t2 := InvReaches(w1, t1, w2);
        OnlySourcesOffer(w, t, s, job, calls.offer);
        ExportKeepsSource(ds, job, calls.offer);
        OfferKnown(w2, t2, s, e.reply.manifest);
        w' := HandOverIsPath(w2, t2, s, h, e.reply.manifest, job, calls);
        ReachesTrans(w, w2, w');
        OutcomesCompose(w, s, h, w2, e.disk, p.disk, w', o.source, o.destination);
      }
    }
  }

  /** So whatever a transfer of a run leaves behind is again a world of a run, to which every
      promise of a run applies; and its source, if it owned the bot, owns it still or has committed
      what its destination carries, with its receipt to be had. */
  lemma TransfersStayRuns(ws: seq<World>, steps: seq<Step>, i: nat, s: string, job: Job, calls: Calls)
    requires Run(ws, steps) && i <= |steps|
    requires s in ws[i].hosts && job.destination in ws[i].hosts && s != job.destination
    requires ws[i].hosts[s].task.Idle? && ws[i].hosts[job.destination].task.Idle?
    requires job.transferId !in ws[i].net.drawn && HexOf(job.transferId, 16) && HexOf(job.secret, 64)
    ensures var o := Coordination(ws[i].hosts[s].disk, ws[i].hosts[job.destination].disk, job, calls);
            && (exists ws', steps' :: Run(ws', steps')
                  && Outcomes(ws[i], s, job.destination, o.source, o.destination, ws'[|steps'|]))
            && (Owns(ws[i].hosts[s]) ==>
                  || InPhase(o.source, {Active, Fenced, Offered})
                  || (ReceiptRecoverable(o.source) && Carried(o.destination, OfferOn(o.source).value)))
  {
    Reachable(ws, steps, i);
    var t := TokenAt(ws, steps, i);
    var w' := CoordinationIsPath(ws[i], t, s, job, calls);
    RunsGoOn(ws, steps, i, w');
    if Owns(ws[i].hosts[s]) {
      assert DiskOk(ws[i].net, s, ws[i].hosts[s].disk);
      RunSource(ws[i], t, s);
      TransferIsSafe(ws[i].hosts[s].disk, ws[i].hosts[job.destination].disk, job, calls);
    }
  }
}
