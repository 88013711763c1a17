/** What the hand-off protocol promises of every run. */
module Safety {
  import opened Prelude
  import opened ReaderState
  import opened ReaderVerbs
  import opened World
  import opened Legality
  import opened Ownership
  import opened Landings
  import opened Runs

  // ---- One owner ------------------------------------------------------------------

  lemma TaskNeedsOwner(w: World, t: Token, h: string)
    requires Inv(w, t) && h in w.hosts
    ensures w.hosts[h].disk.marker.Some? ==> Owns(w.hosts[h])
    ensures w.hosts[h].task.Polling() ==> ActiveOn(w.hosts[h].disk)
  {
    assert DiskOk(w.net, h, w.hosts[h].disk) && TaskOk(w.net, h, w.hosts[h].disk, w.hosts[h].task);
  }

  /** At most one host owns the bot, at most one has a request it cannot account for, and at most
      one is anywhere inside a poll. */
  lemma SingleOwner(ws: seq<World>, steps: seq<Step>, i: nat, a: string, b: string)
    requires Run(ws, steps) && i <= |steps|
    requires a in ws[i].hosts && b in ws[i].hosts && a != b
    ensures var x, y := ws[i].hosts[a], ws[i].hosts[b];
            && !(Owns(x) && Owns(y))
            && !(x.disk.marker.Some? && y.disk.marker.Some?)
            && !(x.task.Polling() && y.task.Polling())
  {
    Reachable(ws, steps, i);
    var t := TokenAt(ws, steps, i);
    TaskNeedsOwner(ws[i], t, a);
    TaskNeedsOwner(ws[i], t, b);
    if Owns(ws[i].hosts[a]) {
      OwnerHolds(ws[i], t, a);
    }
  }

  // A committed offer that its destination has not been activated on.
  predicate Pending(w: World, m: Manifest) {
    m in w.net.offers && m.terms.transferId in w.net.committed && !Settled(w, m)
  }

  lemma PendingIsPassing(ws: seq<World>, steps: seq<Step>, i: nat, m: Manifest)
    requires Run(ws, steps) && i <= |steps|
    ensures Pending(ws[i], m) <==> TokenAt(ws, steps, i) == Passing(m)
  {
    Reachable(ws, steps, i);
  }

  /** While a committed transfer waits for its activation, it is the only one, its source keeps the
      manifest and the secret, no host owns, polls or has anything in flight, and every offset ever
      sent lies at or below the checkpoint handed over. */
  lemma PassingIsQuiet(ws: seq<World>, steps: seq<Step>, i: nat, m: Manifest)
    requires Run(ws, steps) && i <= |steps| && Pending(ws[i], m)
    ensures var w := ws[i];
            && (forall m' | Pending(w, m') :: m' == m)
            && m.terms.source in w.hosts
            && (exists secret :: CommitPlan(w.hosts[m.terms.source].disk, m) == Plan([], Committed(ReceiptOf(m, secret)))
                  && HashOf(secret) == m.terms.commitHash)
            && (forall h | h in w.hosts ::
                  !Owns(w.hosts[h]) && w.hosts[h].disk.marker.None? && !w.hosts[h].task.Polling()
                  && w.hosts[h].disk.inbox == map[])
            && (forall offset | offset in w.net.requests :: offset <= m.terms.checkpoint)
  {
    Reachable(ws, steps, i);
    PendingIsPassing(ws, steps, i, m);
    var w, t := ws[i], TokenAt(ws, steps, i);
    forall m' | Pending(w, m') ensures m' == m {
      PendingIsPassing(ws, steps, i, m');
    }
    assert DiskOk(w.net, m.terms.source, w.hosts[m.terms.source].disk);
    var secret := w.hosts[m.terms.source].disk.journal.value.transfer.value.secret.value;
    assert CommitPlan(w.hosts[m.terms.source].disk, m) == Plan([], Committed(ReceiptOf(m, secret)));
    forall h | h in w.hosts
      ensures w.hosts[h].disk.marker.None? && !w.hosts[h].task.Polling() && w.hosts[h].disk.inbox == map[]
    {
      TaskNeedsOwner(w, t, h);
      assert DiskOk(w.net, h, w.hosts[h].disk);
    }
  }

  // ---- No message lost --------------------------------------------------------------

  // The server was told a checkpoint at or above this update, so it may forget it.
  predicate MayForget(n: Net, u: Update) {
    exists offset | offset in n.requests :: u.id <= offset
  }

  /** Every operator message above the enrolment checkpoint that the server may have forgotten has
      left a record with its id, date, sender and text, which a consumer has taken or which waits,
      unchanged, in the inbox of the one owner. */
  lemma NoMessageLost(
    ws: seq<World>, steps: seq<Step>, i: nat, u: Update, m: Message, sender: Sender, text: string)
    requires Run(ws, steps) && i <= |steps|
    requires u in ws[i].net.stream && FromOperator(u, ws[i].net.operator, m, sender, text)
    requires ws[i].net.floor < u.id && MayForget(ws[i].net, u)
    ensures var w := ws[i];
            exists r :: Reports(r, u, m, sender, text)
              && (r in w.net.consumed
                  || exists o :: o in w.hosts && Owns(w.hosts[o])
                                 && u.id in w.hosts[o].disk.inbox && w.hosts[o].disk.inbox[u.id] == r)
  {
    Reachable(ws, steps, i);
    var w, t := ws[i], TokenAt(ws, steps, i);
    assert !t.Unborn?;
    EligibleMeans(u, w.net.operator);
    var k :| 0 <= k < |w.net.stream| && w.net.stream[k] == u;
    assert Kept(w.net, OwnerInbox(w, t), w.net.stream[k]);
    var r := RecordOf(u, w.net.operator);
    assert Reports(r, u, m, sender, text);
    if r !in w.net.consumed {
      assert t.Held? && t.host in w.hosts;
    }
  }

  // ---- No rewind ----------------------------------------------------------------------

  lemma CheckpointStep(ws: seq<World>, steps: seq<Step>, i: nat)
    requires Run(ws, steps) && i < |steps| && !TokenAt(ws, steps, i).Unborn?
    ensures !TokenAt(ws, steps, i + 1).Unborn?
    ensures EffectiveCheckpoint(ws[i], TokenAt(ws, steps, i))
         <= EffectiveCheckpoint(ws[i + 1], TokenAt(ws, steps, i + 1))
  {
    Reachable(ws, steps, i);
    assert Follows(ws, steps, i);
    StepKeeps(ws[i], steps[i], TokenAt(ws, steps, i));
  }

  /** The checkpoint that counts never goes back: not on a hand-off, a replayed receipt, or an
      activation that was interrupted and repeated. */
  lemma {:induction false} CheckpointAscends(ws: seq<World>, steps: seq<Step>, i: nat, j: nat)
    requires Run(ws, steps) && i <= j <= |steps| && !TokenAt(ws, steps, i).Unborn?
    ensures !TokenAt(ws, steps, j).Unborn?
    ensures EffectiveCheckpoint(ws[i], TokenAt(ws, steps, i)) <= EffectiveCheckpoint(ws[j], TokenAt(ws, steps, j))
  {
    if i < j {
      CheckpointAscends(ws, steps, i, j - 1);
      CheckpointStep(ws, steps, j - 1);
    }
  }

  /** Seen from the files alone: a later owner's checkpoint is never below an earlier owner's. */
  lemma OwnersAscend(ws: seq<World>, steps: seq<Step>, i: nat, j: nat, g: string, h: string)
    requires Run(ws, steps) && i <= j <= |steps|
    requires g in ws[i].hosts && Owns(ws[i].hosts[g]) && h in ws[j].hosts && Owns(ws[j].hosts[h])
    ensures var c, c' := ws[i].hosts[g].disk.checkpoint, ws[j].hosts[h].disk.checkpoint;
            c.Holds? && c'.Holds? && c.value <= c'.value
  {
    Reachable(ws, steps, i);
    Reachable(ws, steps, j);
    OwnerHolds(ws[i], TokenAt(ws, steps, i), g);
    OwnerHolds(ws[j], TokenAt(ws, steps, j), h);
    assert DiskOk(ws[i].net, g, ws[i].hosts[g].disk) && DiskOk(ws[j].net, h, ws[j].hosts[h].disk);
    CheckpointAscends(ws, steps, i, j);
  }

  // The step on which a request of `h` leaves for the server.
  predicate Sends(w: World, step: Step, h: string) {
    && step == Land(h) && h in w.hosts
    && w.hosts[h].task.Writing? && w.hosts[h].task.todo != []
    && Onward(w.hosts[h].task.todo, w.hosts[h].task.stage).Waiting?
  }

  function Offset(w: World, h: string): nat
    requires Sends(w, Land(h), h)
  {
    w.hosts[h].task.stage.offset
  }

  /** A request that leaves is known to have left, and nothing else is. */
  lemma SentIsKnown(w: World, step: Step)
    requires Enabled(w, step)
    ensures After(w, step).net.requests
         == w.net.requests + if exists h :: Sends(w, step, h) then {Offset(w, step.host)} else {}
  {
    if step.Land? {
      assert Sends(w, step, step.host) <==> exists h :: Sends(w, step, h);
    }
  }

  lemma SendsAtCheckpoint(ws: seq<World>, steps: seq<Step>, i: nat, h: string)
    requires Run(ws, steps) && i < |steps| && Sends(ws[i], steps[i], h)
    ensures TokenAt(ws, steps, i) == Held(h)
    ensures Offset(ws[i], h) == EffectiveCheckpoint(ws[i], TokenAt(ws, steps, i))
  {
    Reachable(ws, steps, i);
    assert TaskOk(ws[i].net, h, ws[i].hosts[h].disk, ws[i].hosts[h].task);
    OwnerHolds(ws[i], TokenAt(ws, steps, i), h);
  }

  /** Whichever hosts send them, and however ownership moved in between, the offsets of a run's
      requests never go back. */
  lemma OffsetsAscend(ws: seq<World>, steps: seq<Step>, i: nat, j: nat, g: string, h: string)
    requires Run(ws, steps) && i <= j < |steps|
    requires Sends(ws[i], steps[i], g) && Sends(ws[j], steps[j], h)
    ensures Offset(ws[i], g) <= Offset(ws[j], h)
  {
    SendsAtCheckpoint(ws, steps, i, g);
    SendsAtCheckpoint(ws, steps, j, h);
    CheckpointAscends(ws, steps, i, j);
  }

  // ---- One decision per offer ------------------------------------------------------------

  lemma {:induction false} DecisionsStand(ws: seq<World>, steps: seq<Step>, i: nat, j: nat)
    requires Run(ws, steps) && i <= j <= |steps|
    ensures ws[i].net.committed <= ws[j].net.committed && ws[i].net.cancelled <= ws[j].net.cancelled
    ensures ws[i].net.receipts <= ws[j].net.receipts && ws[i].net.offers <= ws[j].net.offers
  {
    if i < j {
      DecisionsStand(ws, steps, i, j - 1);
      assert Follows(ws, steps, j - 1);
      KnowledgeGrows(ws[j - 1], steps[j - 1]);
    }
  }

  lemma KnowledgeGrows(w: World, step: Step)
    requires Enabled(w, step)
    ensures var n, n' := w.net, After(w, step).net;
            && n.committed <= n'.committed && n.cancelled <= n'.cancelled
            && n.receipts <= n'.receipts && n.offers <= n'.offers
  {
  }

  /** An offer cancelled at any point of a run is committed at none, no receipt of the run fits
      it, and no host is ever active on it. */
  lemma OneDecision(ws: seq<World>, steps: seq<Step>, i: nat, j: nat, m: Manifest)
    requires Run(ws, steps) && i <= |steps| && j <= |steps|
    requires m in ws[i].net.offers && m.terms.transferId in ws[i].net.cancelled
    ensures m.terms.transferId !in ws[j].net.committed
    ensures forall r | r in ws[j].net.receipts :: !ReceiptMatches(m, r)
    ensures forall h | h in ws[j].hosts && ActiveOn(ws[j].hosts[h].disk) ::
              var transfer := ws[j].hosts[h].disk.journal.value.transfer;
              transfer.None? || transfer.value.manifest != m
  {
    var k := if i < j then j else i;
    Reachable(ws, steps, k);
    Reachable(ws, steps, j);
    DecisionsStand(ws, steps, i, k);
    DecisionsStand(ws, steps, j, k);
    forall h | h in ws[j].hosts && ActiveOn(ws[j].hosts[h].disk)
      ensures var transfer := ws[j].hosts[h].disk.journal.value.transfer;
              transfer.None? || transfer.value.manifest != m
    {
      assert DiskOk(ws[j].net, h, ws[j].hosts[h].disk);
    }
  }

  // The write of `h` that lands on this step is a rewriting of its journal.
  predicate Rewrites(w: World, h: string, move: Move, before: Journal) {
    && h in w.hosts && w.hosts[h].task.Writing? && w.hosts[h].task.todo != []
    && w.hosts[h].task.todo[0].WJournal? && w.hosts[h].task.todo[0].move == move
    && w.hosts[h].disk.journal == Some(before)
  }

  /** What the decision of an offer makes known when it lands: its id among the committed, and its
      receipt; or its id among the cancelled. */
  lemma DecisionIsKnown(w: World, t: Token, h: string, before: Journal)
    requires Inv(w, t) && Enabled(w, Land(h)) && before.phase.Offered?
    requires Rewrites(w, h, Committing, before) || Rewrites(w, h, Cancelling, before)
    ensures before.transfer.Some?
    ensures var m, n, n' := before.transfer.value.manifest, w.net, After(w, Land(h)).net;
            && m in n.offers
            && (Rewrites(w, h, Committing, before) ==>
                  n'.committed == n.committed + {m.terms.transferId}
                  && exists r :: r in n'.receipts && ReceiptMatches(m, r))
            && (Rewrites(w, h, Cancelling, before) ==> n'.cancelled == n.cancelled + {m.terms.transferId})
  {
    LandTask(w, h);
    assert DiskOk(w.net, h, w.hosts[h].disk);
    if Rewrites(w, h, Committing, before) {
      var m := before.transfer.value.manifest;
      assert ReceiptMatches(m, ReceiptOf(m, before.transfer.value.secret.value));
    }
  }

  /** And an offer when it lands, with the manifest its journal holds. */
  lemma OfferIsKnown(w: World, t: Token, h: string, before: Journal)
    requires Inv(w, t) && Enabled(w, Land(h)) && Rewrites(w, h, Offering, before)
    ensures var j := w.hosts[h].task.todo[0].journal;
            && j.phase.Offered? && j.transfer.Some? && After(w, Land(h)).hosts[h].disk.journal == Some(j)
            && After(w, Land(h)).net.offers == w.net.offers + {j.transfer.value.manifest}
  {
    LandTask(w, h);
  }

  /** An enrolment that lands leaves its floor: the checkpoint that is on the disk. */
  lemma FloorIsCheckpoint(w: World, t: Token, h: string)
    requires Inv(w, t) && Enabled(w, Land(h))
    requires w.hosts[h].task.todo[0].WJournal? && w.hosts[h].task.todo[0].move.Enrolling?
    ensures After(w, Land(h)).hosts[h].disk.checkpoint == Holds(After(w, Land(h)).net.floor)
    ensures Owns(After(w, Land(h)).hosts[h])
  {
    LandTask(w, h);
  }

  /** Two offers of a run never share a transfer id. */
  lemma OffersDiffer(ws: seq<World>, steps: seq<Step>, i: nat, m: Manifest, m': Manifest)
    requires Run(ws, steps) && i <= |steps|
    requires m in ws[i].net.offers && m' in ws[i].net.offers && m != m'
    ensures m.terms.transferId != m'.terms.transferId
  {
    Reachable(ws, steps, i);
  }

  // ---- Epochs -------------------------------------------------------------------------------

  // The step from ws[i] makes `h` an owner.
  predicate Rises(ws: seq<World>, i: nat, h: string) {
    && i + 1 < |ws| && h in ws[i].hosts && h in ws[i + 1].hosts
    && !Owns(ws[i].hosts[h]) && Owns(ws[i + 1].hosts[h])
  }

  lemma RisesFrom(w: World, t: Token, h: string)
    requires Inv(w, t) && Enabled(w, Land(h))
    requires !Owns(w.hosts[h]) && Owns(After(w, Land(h)).hosts[h])
    ensures t.Unborn? || (t.Passing? && EpochOf(After(w, Land(h)).hosts[h]) == t.offer.terms.epoch)
  {
    LandTask(w, h);
    JournalLanded(w, h);
    var write := w.hosts[h].task.todo[0];
    assert DiskOk(w.net, h, w.hosts[h].disk);
    if write.WJournal? {
      if write.move.Activating? {
        ActivateFrom(w, t, h, write);
      } else if write.move.Enrolling? {
        EnrollToken(w, t, h, write, Idle);
      }
    }
  }

  // A host rises when nobody has enrolled, or on the transfer in passing, at its epoch.
  lemma RisesAt(ws: seq<World>, steps: seq<Step>, i: nat, h: string)
    requires Run(ws, steps) && i < |steps| && Rises(ws, i, h)
    ensures TokenAt(ws, steps, i + 1) == Held(h)
    ensures var t := TokenAt(ws, steps, i);
            t.Unborn? || (t.Passing? && EpochOf(ws[i + 1].hosts[h]) == t.offer.terms.epoch)
  {
    Reachable(ws, steps, i);
    Reachable(ws, steps, i + 1);
    OwnerHolds(ws[i + 1], TokenAt(ws, steps, i + 1), h);
    assert Follows(ws, steps, i);
    if steps[i] != Land(h) {
      JournalKept(ws[i], steps[i], h);
    } else {
      RisesFrom(ws[i], TokenAt(ws, steps, i), h);
    }
  }

  lemma EpochStep(w: World, step: Step, t: Token)
    requires Inv(w, t) && Enabled(w, step) && !t.Unborn?
    ensures var w', t' := After(w, step), TokenAfter(w, step, t);
            OwnershipEpoch(w', t') == OwnershipEpoch(w, t) + if t.Held? && t'.Passing? then 1 else 0
  {
    if step.Land? {
      var h := step.host;
      LandTask(w, h);
      var write := w.hosts[h].task.todo[0];
      LandEpoch(w, t, h, write, Idle);
      LandedHosts(w, h);
      SameEpoch(After(w, step), Wrote(w, h, write, Idle), TokenAfter(w, step, t));
    } else {
      QuietEpoch(w, step, t);
    }
  }

  lemma SameEpoch(a: World, b: World, t: Token)
    requires a.hosts.Keys == b.hosts.Keys && forall g | g in a.hosts :: a.hosts[g].disk == b.hosts[g].disk
    ensures OwnershipEpoch(a, t) == OwnershipEpoch(b, t)
  {
    if t.Held? && t.host in a.hosts {
      assert a.hosts[t.host].disk == b.hosts[t.host].disk;
    }
  }

  // A landing and the request it may send leave the same files behind.
  lemma LandedHosts(w: World, h: string)
    requires Enabled(w, Land(h))
    ensures var w', w1 := After(w, Land(h)), Wrote(w, h, w.hosts[h].task.todo[0], Idle);
            && w'.hosts.Keys == w1.hosts.Keys
            && forall g | g in w'.hosts :: w'.hosts[g].disk == w1.hosts[g].disk
  {
  }

  lemma QuietEpoch(w: World, step: Step, t: Token)
    requires Enabled(w, step) && !step.Land?
    ensures OwnershipEpoch(After(w, step), t) == OwnershipEpoch(w, t)
  {
    if t.Held? && t.host in w.hosts {
      JournalKept(w, step, t.host);
    }
  }

  lemma EpochStepAt(ws: seq<World>, steps: seq<Step>, i: nat)
    requires Run(ws, steps) && i < |steps| && !TokenAt(ws, steps, i).Unborn?
    ensures var t, t' := TokenAt(ws, steps, i), TokenAt(ws, steps, i + 1);
            && OwnershipEpoch(ws[i], t) <= OwnershipEpoch(ws[i + 1], t')
            && (t.Held? && t'.Passing? ==> OwnershipEpoch(ws[i], t) < OwnershipEpoch(ws[i + 1], t'))
  {
    Reachable(ws, steps, i);
    assert Follows(ws, steps, i);
    EpochStep(ws[i], steps[i], TokenAt(ws, steps, i));
  }

  lemma {:induction false} EpochAscends(ws: seq<World>, steps: seq<Step>, i: nat, j: nat)
    requires Run(ws, steps) && i <= j <= |steps| && TokenAt(ws, steps, i).Held?
    ensures var e, e' := OwnershipEpoch(ws[i], TokenAt(ws, steps, i)), OwnershipEpoch(ws[j], TokenAt(ws, steps, j));
            e <= e' && (TokenAt(ws, steps, j).Passing? ==> e < e')
  {
    if i < j {
      EpochAscends(ws, steps, i, j - 1);
      CheckpointAscends(ws, steps, i, j - 1);
      EpochStepAt(ws, steps, j - 1);
    }
  }

  /** Each host that becomes owner does so at an epoch above that of every earlier owner. */
  lemma ActivationsRaiseEpoch(ws: seq<World>, steps: seq<Step>, i: nat, j: nat, g: string, h: string)
    requires Run(ws, steps) && i < j < |steps|
    requires Rises(ws, i, g) && Rises(ws, j, h)
    ensures EpochOf(ws[i + 1].hosts[g]) < EpochOf(ws[j + 1].hosts[h])
  {
    RisesAt(ws, steps, i, g);
    RisesAt(ws, steps, j, h);
    EpochAscends(ws, steps, i + 1, j);
    CheckpointAscends(ws, steps, i + 1, j);
  }

  /** The owner's epoch is the highest, and its outstanding offer is stale at no destination that
      could take it. */
  lemma CurrentOfferIsFresh(ws: seq<World>, steps: seq<Step>, i: nat, o: string, h: string, credential: Option<string>)
    requires Run(ws, steps) && i <= |steps|
    requires o in ws[i].hosts && Owns(ws[i].hosts[o]) && h in ws[i].hosts
    ensures EpochOf(ws[i].hosts[h]) <= EpochOf(ws[i].hosts[o])
    ensures var j := ws[i].hosts[o].disk.journal.value;
            j.phase.Offered? && j.transfer.Some? && j.transfer.value.manifest.terms.destination == h
            && ws[i].hosts[h].disk.journal.Some?
            && credential == Some(j.transfer.value.manifest.terms.botId)
            ==> ImportPlan(ws[i].hosts[h].disk, j.transfer.value.manifest, credential).reply
                == Imported(Staged, j.transfer.value.manifest.terms.transferId)
  {
    Reachable(ws, steps, i);
    OwnerHolds(ws[i], TokenAt(ws, steps, i), o);
    assert DiskOk(ws[i].net, o, ws[i].hosts[o].disk);
    assert DiskOk(ws[i].net, h, ws[i].hosts[h].disk);
  }

  /** While a committed transfer is pending no host's epoch exceeds the manifest's, and its
      destination, whenever it is enrolled there, stages it. */
  lemma PendingOfferIsFresh(ws: seq<World>, steps: seq<Step>, i: nat, m: Manifest, h: string)
    requires Run(ws, steps) && i <= |steps| && Pending(ws[i], m) && h in ws[i].hosts
    ensures EpochOf(ws[i].hosts[h]) <= m.terms.epoch
    ensures h == m.terms.destination ==> EpochOf(ws[i].hosts[h]) < m.terms.epoch
    ensures h == m.terms.destination && ws[i].hosts[h].disk.journal.Some? ==>
              ImportPlan(ws[i].hosts[h].disk, m, Some(m.terms.botId)).reply == Imported(Staged, m.terms.transferId)
  {
    Reachable(ws, steps, i);
    PendingIsPassing(ws, steps, i, m);
    assert DiskOk(ws[i].net, h, ws[i].hosts[h].disk);
  }

  // A settled manifest is stale, or already acknowledged, wherever it is brought.
  lemma SettledImport(n: Net, h: string, d: Disk, m: Manifest, credential: Option<string>)
    requires DiskOk(n, h, d)
    requires h == m.terms.destination ==> EpochOf(Host(d, Idle)) >= m.terms.epoch
    ensures ImportPlan(d, m, credential).writes == []
  {
  }

  lemma SettledActivation(n: Net, h: string, d: Disk, m: Manifest, r: Receipt)
    requires NetOk(n) && DiskOk(n, h, d) && m in n.offers && ReceiptMatches(m, r)
    requires h == m.terms.destination ==> EpochOf(Host(d, Idle)) >= m.terms.epoch
    ensures ActivatePlan(d, r).writes == []
  {
    if d.journal.Some? && d.journal.value.transfer.Some?
       && ReceiptMatches(d.journal.value.transfer.value.manifest, r) {
      assert d.journal.value.transfer.value.manifest == OfferOf(r) == m;
    }
  }

  /** An offer at or below its destination's epoch is inert everywhere: importing its manifest, or activating
      on its receipt, writes nothing on any host, ever again. */
  lemma OldTransferIsInert(ws: seq<World>, steps: seq<Step>, i: nat, m: Manifest, h: string, credential: Option<string>, r: Receipt)
    requires Run(ws, steps) && i <= |steps| && h in ws[i].hosts
    requires m in ws[i].net.offers && Settled(ws[i], m)
    requires ReceiptMatches(m, r)
    ensures ImportPlan(ws[i].hosts[h].disk, m, credential).writes == []
    ensures ActivatePlan(ws[i].hosts[h].disk, r).writes == []
  {
    Reachable(ws, steps, i);
    assert DiskOk(ws[i].net, h, ws[i].hosts[h].disk);
    SettledImport(ws[i].net, h, ws[i].hosts[h].disk, m, credential);
    SettledActivation(ws[i].net, h, ws[i].hosts[h].disk, m, r);
  }

  // ---- Drained hand-off --------------------------------------------------------------------

  /** Outside active and fenced, nothing is in flight and nothing waits in the inbox; an offering
      source still stands at the checkpoint it offered. */
  lemma DrainedHandOff(ws: seq<World>, steps: seq<Step>, i: nat, h: string)
    requires Run(ws, steps) && i <= |steps| && h in ws[i].hosts
    ensures var d := ws[i].hosts[h].disk;
            && (d.journal.None? || !(d.journal.value.phase.Active? || d.journal.value.phase.Fenced?) ==>
                  d.marker.None? && d.inbox == map[])
            && (d.journal.Some? && d.journal.value.phase.Offered? ==>
                  && d.journal.value.transfer.Some?
                  && d.checkpoint == Holds(d.journal.value.transfer.value.manifest.terms.checkpoint))
  {
    Reachable(ws, steps, i);
    assert DiskOk(ws[i].net, h, ws[i].hosts[h].disk);
  }

  // ---- Journals ------------------------------------------------------------------------------

  /** No run leaves a journal its own reader would refuse, and no verb of a run is answered
      invalid_state. */
  lemma JournalsStayValid(ws: seq<World>, steps: seq<Step>, i: nat, h: string, verb: Verb)
    requires Run(ws, steps) && i <= |steps| && h in ws[i].hosts
    requires Honest(ws[i].net, h, ws[i].hosts[h].disk, verb)
    requires verb.Export? ==> ValidHostId(verb.destination)
    ensures ReadJournal(ws[i].hosts[h].disk) == Ok(ws[i].hosts[h].disk.journal)
    ensures PlanOf(ws[i].hosts[h].disk, verb).reply != Refused(InvalidState)
  {
    Reachable(ws, steps, i);
    assert DiskOk(ws[i].net, h, ws[i].hosts[h].disk);
    PlansStayValid(ws[i].net, h, ws[i].hosts[h].disk, verb);
  }

  /** Nor is any poll, whatever the network answers. */
  lemma PollsStayValid(
    ws: seq<World>, steps: seq<Step>, i: nat, h: string, hasToken: bool, answer: Answer, operator: string)
    requires Run(ws, steps) && i <= |steps| && h in ws[i].hosts
    ensures Admission(ws[i].hosts[h].disk, hasToken) != Err(Refused(InvalidState))
    ensures PollPlan(ws[i].hosts[h].disk, hasToken, answer, operator).reply != Refused(InvalidState)
  {
    Reachable(ws, steps, i);
    assert DiskOk(ws[i].net, h, ws[i].hosts[h].disk);
  }

  lemma PlansStayValid(n: Net, h: string, d: Disk, verb: Verb)
    requires DiskOk(n, h, d) && Honest(n, h, d, verb)
    requires verb.Export? ==> ValidHostId(verb.destination)
    ensures PlanOf(d, verb).reply != Refused(InvalidState)
  {
    match verb
    case Enroll(_) =>
    case Prepare(_, _) =>
    case Export(_, _, _, _, _) => ExportStaysValid(n, h, d, verb);
    case Activate(_) => ActivateStaysValid(n, h, d, verb);
    case _ =>
  }

  lemma ActivateStaysValid(n: Net, h: string, d: Disk, verb: Verb)
    requires DiskOk(n, h, d) && verb.Activate?
    ensures PlanOf(d, verb).reply != Refused(InvalidState)
  {
  }

  lemma ExportStaysValid(n: Net, h: string, d: Disk, verb: Verb)
    requires DiskOk(n, h, d) && Honest(n, h, d, verb) && verb.Export? && ValidHostId(verb.destination)
    ensures PlanOf(d, verb).reply != Refused(InvalidState)
  {
  }

  // `h` is enrolled and not active.
  predicate Inactive(w: World, h: string) {
    h in w.hosts && w.hosts[h].disk.journal.Some? && !w.hosts[h].disk.journal.value.phase.Active?
  }

  lemma FenceStep(w: World, step: Step, t: Token, h: string)
    requires Inv(w, t) && Enabled(w, step) && Inactive(w, h) && Inactive(After(w, step), h)
    ensures After(w, step).hosts[h].disk.journal.value.fence == w.hosts[h].disk.journal.value.fence
  {
    if step == Land(h) {
      LandTask(w, h);
      JournalLanded(w, h);
      FenceWrite(w.net, h, w.hosts[h].disk, w.hosts[h].task.todo[0]);
    } else {
      JournalKept(w, step, h);
    }
  }

  lemma FenceWrite(n: Net, h: string, d: Disk, write: Write)
    requires LegalWrite(n, h, d, write) && d.journal.Some? && !d.journal.value.phase.Active?
    requires !Apply(d, write).journal.value.phase.Active?
    ensures Apply(d, write).journal.value.fence == d.journal.value.fence
  {
  }

  /** The fence record is carried unchanged from the fencing to the next return to active. */
  lemma {:induction false} FenceCarried(ws: seq<World>, steps: seq<Step>, i: nat, j: nat, h: string)
    requires Run(ws, steps) && i <= j <= |steps|
    requires forall k | i <= k <= j :: Inactive(ws[k], h)
    ensures Inactive(ws[i], h) && Inactive(ws[j], h)
    ensures ws[j].hosts[h].disk.journal.value.fence == ws[i].hosts[h].disk.journal.value.fence
  {
    if i < j {
      FenceCarried(ws, steps, i, j - 1, h);
      FenceStepAt(ws, steps, j - 1, h);
    }
  }

  lemma FenceStepAt(ws: seq<World>, steps: seq<Step>, i: nat, h: string)
    requires Run(ws, steps) && i < |steps| && Inactive(ws[i], h) && Inactive(ws[i + 1], h)
    ensures ws[i + 1].hosts[h].disk.journal.value.fence == ws[i].hosts[h].disk.journal.value.fence
  {
    Reachable(ws, steps, i);
    assert Follows(ws, steps, i);
    FenceStep(ws[i], steps[i], TokenAt(ws, steps, i), h);
  }

  // ---- The conflict latch -----------------------------------------------------------------------

  predicate Latched(w: World, h: string) {
    h in w.hosts && w.hosts[h].disk.journal.Some? && w.hosts[h].disk.journal.value.conflict
  }

  predicate Reconciles(w: World, step: Step, h: string) {
    && step == Land(h) && h in w.hosts
    && w.hosts[h].task.Writing? && w.hosts[h].task.todo != []
    && w.hosts[h].task.todo[0].WJournal? && w.hosts[h].task.todo[0].move.Reconciling?
  }

  lemma LatchStep(w: World, step: Step, t: Token, h: string)
    requires Inv(w, t) && Enabled(w, step) && Latched(w, h)
    ensures !Sends(w, step, h)
    ensures Reconciles(w, step, h) ==> ActiveOn(w.hosts[h].disk)
    ensures !Reconciles(w, step, h) ==> Latched(After(w, step), h)
  {
    if step == Land(h) {
      LatchLand(w, t, h);
    } else {
      JournalKept(w, step, h);
    }
  }

  lemma LatchLand(w: World, t: Token, h: string)
    requires Inv(w, t) && Enabled(w, Land(h)) && Latched(w, h)
    ensures !Sends(w, Land(h), h)
    ensures Reconciles(w, Land(h), h) ==> ActiveOn(w.hosts[h].disk)
    ensures !Reconciles(w, Land(h), h) ==> Latched(After(w, Land(h)), h)
  {
    assert TaskOk(w.net, h, w.hosts[h].disk, w.hosts[h].task);
    LatchWrite(w.net, h, w.hosts[h].disk, w.hosts[h].task.todo[0]);
    JournalLanded(w, h);
  }

  lemma LatchWrite(n: Net, h: string, d: Disk, write: Write)
    requires LegalWrite(n, h, d, write) && d.journal.Some? && d.journal.value.conflict
    ensures !(write.WJournal? && write.move.Reconciling?) ==> Apply(d, write).journal.value.conflict
    ensures write.WJournal? && write.move.Reconciling? ==> ActiveOn(d)
  {
  }

  /** Once a 409 has latched a host, no request leaves it and the latch stays, through any mix of
      steps, until a reconciliation lands there. */
  lemma {:induction false} LatchHolds(ws: seq<World>, steps: seq<Step>, i: nat, j: nat, h: string)
    requires Run(ws, steps) && i <= j <= |steps| && Latched(ws[i], h)
    requires forall k | i <= k < j :: !Reconciles(ws[k], steps[k], h)
    ensures Latched(ws[j], h)
    ensures forall k | i <= k < j :: !Sends(ws[k], steps[k], h)
  {
    if i < j {
      LatchHolds(ws, steps, i, j - 1, h);
      assert !Reconciles(ws[j - 1], steps[j - 1], h);
      LatchStepAt(ws, steps, j - 1, h);
    }
  }

  lemma LatchStepAt(ws: seq<World>, steps: seq<Step>, i: nat, h: string)
    requires Run(ws, steps) && i < |steps| && Latched(ws[i], h) && !Reconciles(ws[i], steps[i], h)
    ensures Latched(ws[i + 1], h) && !Sends(ws[i], steps[i], h)
  {
    Reachable(ws, steps, i);
    assert Follows(ws, steps, i);
    LatchStep(ws[i], steps[i], TokenAt(ws, steps, i), h);
  }

  predicate KeepsLatch(ws: seq<Write>) {
    forall i | 0 <= i < |ws| && ws[i].WJournal? :: ws[i].journal.conflict
  }

  lemma SourceKeepsLatch(d: Disk, verb: Verb)
    requires d.journal.Some? && d.journal.value.conflict
    requires verb.Fence? || verb.Commit? || verb.Cancel? || verb.Enroll?
    ensures KeepsLatch(PlanOf(d, verb).writes)
  {
  }

  lemma ExportKeepsLatch(d: Disk, verb: Verb)
    requires d.journal.Some? && d.journal.value.conflict && verb.Export?
    ensures KeepsLatch(PlanOf(d, verb).writes)
  {
  }

  lemma DestinationKeepsLatch(d: Disk, verb: Verb)
    requires d.journal.Some? && d.journal.value.conflict
    requires verb.Prepare? || verb.Import? || verb.Activate?
    ensures KeepsLatch(PlanOf(d, verb).writes)
  {
  }

  /** Only the reconcile verb, on an active host, sets out to write an unlatched journal over a
      latched one. */
  lemma OnlyReconcileUnlatches(d: Disk, verb: Verb)
    requires d.journal.Some? && d.journal.value.conflict
    ensures KeepsLatch(PlanOf(d, verb).writes) || (verb.Reconcile? && d.journal.value.phase.Active?)
  {
    match verb
    case Reconcile =>
    case Export(_, _, _, _, _) => ExportKeepsLatch(d, verb);
    case Prepare(_, _) => DestinationKeepsLatch(d, verb);
    case Import(_, _) => DestinationKeepsLatch(d, verb);
    case Activate(_) => DestinationKeepsLatch(d, verb);
    case _ => SourceKeepsLatch(d, verb);
  }
}
