/** One durable write lands: the ownership token moves on exactly three of them, and the
    invariant holds again whatever the write was. */
module Landings {
  import opened Prelude
  import opened ReaderState
  import opened ReaderVerbs
  import opened World
  import opened Legality
  import opened Ownership

  // Where the token is after `w` lands on `h`.
  function Passed(t: Token, h: string, w: Write): Token {
    match w
    case WJournal(Enrolling, _) => Held(h)
    case WJournal(Activating, _) => Held(h)
    case WJournal(Committing, j) => if j.transfer.Some? then Passing(j.transfer.value.manifest) else t
    case _ => t
  }

  // The world after a write of `h` has landed, before any request leaves.
  function Wrote(w: World, h: string, write: Write, task: Task): World
    requires h in w.hosts
  {
    SetHost(w, h, Apply(w.hosts[h].disk, write), task).(net := Landing(w.net, w.hosts[h].disk, write))
  }

  ghost predicate Lands(w: World, t: Token, h: string, write: Write) {
    && Inv(w, t) && h in w.hosts
    && LegalWrite(w.net, h, w.hosts[h].disk, write)
  }

  lemma LandHosts(w: World, t: Token, h: string, write: Write, task: Task)
    requires Lands(w, t, h, write)
    requires TaskOk(Landing(w.net, w.hosts[h].disk, write), h, Apply(w.hosts[h].disk, write), task)
    ensures NetOk(Wrote(w, h, write, task).net) && HostsOk(Wrote(w, h, write, task))
  {
    var w' := Wrote(w, h, write, task);
    var d := w.hosts[h].disk;
    LandKeepsNet(w.net, h, d, write);
    LandKeepsDisk(w.net, h, d, write);
    forall g | g in w'.hosts && g != h
      ensures DiskOk(w'.net, g, w'.hosts[g].disk) && TaskOk(w'.net, g, w'.hosts[g].disk, w'.hosts[g].task)
    {
      LandExtends(w.net, h, d, write, g);
      HostStable(w.net, w'.net, g, w.hosts[g].disk, w'.hosts[g].disk, w'.hosts[g].task);
    }
  }

  // ---- Ownership ----------------------------------------------------------------

  // Only owners hold the token: what a host's phase says about it.
  lemma OwnerHolds(w: World, t: Token, h: string)
    requires TokenOk(w, t) && h in w.hosts && Owns(w.hosts[h])
    ensures t == Held(h)
  {
  }

  lemma EnrollToken(w: World, t: Token, h: string, write: Write, task: Task)
    requires Lands(w, t, h, write) && write.WJournal? && write.move.Enrolling?
    ensures t == Unborn
    ensures TokenOk(Wrote(w, h, write, task), Held(h)) && SettledOk(Wrote(w, h, write, task), Held(h))
  {
    var w' := Wrote(w, h, write, task);
    assert t == Unborn;
    forall g | g in w.hosts && w.hosts[g].disk.journal.Some?
      ensures w.hosts[g].disk.journal.value.phase.Standby? || w.hosts[g].disk.journal.value.phase.Staged?
    {
      assert DiskOk(w.net, g, w.hosts[g].disk);
    }
    forall g | g in w'.hosts ensures EpochOf(w'.hosts[g]) <= 1 {
      assert DiskOk(w.net, g, w.hosts[g].disk);
    }
  }

  // Only the owner has an open offer to commit, one epoch above its own.
  lemma CommitFrom(w: World, t: Token, h: string, write: Write)
    requires Lands(w, t, h, write) && write.WJournal? && write.move.Committing?
    ensures t == Held(h)
    ensures var j := w.hosts[h].disk.journal.value;
            && j.transfer.Some? && Passed(t, h, write) == Passing(j.transfer.value.manifest)
            && var m := j.transfer.value.manifest;
               && m in w.net.offers && ValidManifest(m)
               && m.terms.source == h && m.terms.epoch == j.epoch + 1 && m.terms.transferId !in w.net.committed
  {
    assert DiskOk(w.net, h, w.hosts[h].disk);
    OwnerHolds(w, t, h);
  }

  lemma CommitToken(w: World, t: Token, h: string, write: Write, task: Task)
    requires Lands(w, t, h, write) && write.WJournal? && write.move.Committing?
    ensures t == Held(h)
    ensures var t' := Passed(t, h, write);
            && TokenOk(Wrote(w, h, write, task), t') && SettledOk(Wrote(w, h, write, task), t')
            && OwnershipEpoch(Wrote(w, h, write, task), t') == OwnershipEpoch(w, t) + 1
  {
    CommitFrom(w, t, h, write);
    var w' := Wrote(w, h, write, task);
    var m := w.hosts[h].disk.journal.value.transfer.value.manifest;
    assert w'.net.committed == w.net.committed + {m.terms.transferId};
    forall m' | m' in w'.net.offers && m'.terms.transferId in w'.net.committed
      ensures m' == m || Settled(w', m')
    {
      if m' != m {
        assert Settled(w, m');
      }
    }
  }

  // A receipt at a staged host can only be that of the transfer in passing.
  lemma ActivateFrom(w: World, t: Token, h: string, write: Write)
    requires Lands(w, t, h, write) && write.WJournal? && write.move.Activating?
    ensures t == Passing(w.hosts[h].disk.journal.value.transfer.value.manifest)
  {
    assert DiskOk(w.net, h, w.hosts[h].disk);
    var m := w.hosts[h].disk.journal.value.transfer.value.manifest;
    var r :| r in w.net.receipts && ReceiptMatches(m, r);
    assert OfferOf(r) == m;
    assert !Settled(w, m);
  }

  lemma ActivateToken(w: World, t: Token, h: string, write: Write, task: Task)
    requires Lands(w, t, h, write) && write.WJournal? && write.move.Activating?
    ensures t == Passing(w.hosts[h].disk.journal.value.transfer.value.manifest)
    ensures TokenOk(Wrote(w, h, write, task), Held(h)) && SettledOk(Wrote(w, h, write, task), Held(h))
    ensures OwnershipEpoch(Wrote(w, h, write, task), Held(h)) == OwnershipEpoch(w, t)
  {
    ActivateFrom(w, t, h, write);
    var m := t.offer;
    var w' := Wrote(w, h, write, task);
    assert EpochOf(w'.hosts[h]) == m.terms.epoch;
    forall m' | m' in w'.net.offers && m'.terms.transferId in w'.net.committed
      ensures Settled(w', m')
    {
      assert m' == m || Settled(w, m');
    }
  }

  // The host stays on its side of ownership, at its epoch, and keeps what it carries.
  ghost predicate SameSide(w: World, t: Token, h: string, w': World) {
    && h in w.hosts && w'.hosts.Keys == w.hosts.Keys
    && (forall g | g in w.hosts && g != h :: w'.hosts[g] == w.hosts[g])
    && Owns(w'.hosts[h]) == Owns(w.hosts[h]) && EpochOf(w'.hosts[h]) == EpochOf(w.hosts[h])
    && (w.hosts[h].disk.journal.Some? ==> w'.hosts[h].disk.journal.Some?)
    && (t.Passing? && h == t.offer.terms.source && Carries(w.hosts[h], t.offer) ==> Carries(w'.hosts[h], t.offer))
    && w'.net.offers == w.net.offers && w'.net.committed == w.net.committed && w'.net.born == w.net.born
  }

  lemma SameSideToken(w: World, t: Token, h: string, w': World)
    requires SameSide(w, t, h, w') && TokenOk(w, t) && SettledOk(w, t)
    ensures TokenOk(w', t) && SettledOk(w', t)
    ensures OwnershipEpoch(w', t) == OwnershipEpoch(w, t)
  {
    assert forall g | g in w.hosts :: EpochOf(w'.hosts[g]) == EpochOf(w.hosts[g]) && Owns(w'.hosts[g]) == Owns(w.hosts[g]);
    forall m | m in w'.net.offers && m.terms.transferId in w'.net.committed
      ensures t == Passing(m) || Settled(w', m)
    {
      assert t == Passing(m) || Settled(w, m);
    }
  }

  lemma OfferToken(w: World, t: Token, h: string, write: Write, task: Task)
    requires Lands(w, t, h, write) && write.WJournal? && write.move.Offering?
    ensures TokenOk(Wrote(w, h, write, task), t) && SettledOk(Wrote(w, h, write, task), t)
    ensures OwnershipEpoch(Wrote(w, h, write, task), t) == OwnershipEpoch(w, t)
  {
    OwnerHolds(w, t, h);
    OfferHeld(w, h, write, task);
    OfferSettled(w, t, h, write, task);
  }

  lemma OfferHeld(w: World, h: string, write: Write, task: Task)
    requires h in w.hosts && LegalWrite(w.net, h, w.hosts[h].disk, write) && write.WJournal? && write.move.Offering?
    requires TokenOk(w, Held(h))
    ensures TokenOk(Wrote(w, h, write, task), Held(h))
    ensures EpochOf(Wrote(w, h, write, task).hosts[h]) == EpochOf(w.hosts[h])
  {
  }

  lemma OfferSettled(w: World, t: Token, h: string, write: Write, task: Task)
    requires h in w.hosts && LegalWrite(w.net, h, w.hosts[h].disk, write) && write.WJournal? && write.move.Offering?
    requires SettledOk(w, t) && w.net.committed <= w.net.published
    ensures SettledOk(Wrote(w, h, write, task), t)
  {
    var w' := Wrote(w, h, write, task);
    forall m | m in w'.net.offers && m.terms.transferId in w'.net.committed
      ensures t == Passing(m) || Settled(w', m)
    {
      assert m != write.journal.transfer.value.manifest;
      assert t == Passing(m) || Settled(w, m);
    }
  }

  // The source of the transfer in passing rewrites no journal: every offer it could import is stale.
  lemma CarrierWaits(w: World, t: Token, h: string, write: Write)
    requires Lands(w, t, h, write) && t.Passing? && h == t.offer.terms.source
    ensures !write.WJournal?
  {
    assert DiskOk(w.net, h, w.hosts[h].disk);
  }

  lemma OtherToken(w: World, t: Token, h: string, write: Write, task: Task)
    requires Lands(w, t, h, write)
    requires write.WJournal? ==> !write.move.Enrolling? && !write.move.Committing? && !write.move.Activating?
    ensures TokenOk(Wrote(w, h, write, task), t) && SettledOk(Wrote(w, h, write, task), t)
    ensures OwnershipEpoch(Wrote(w, h, write, task), t) == OwnershipEpoch(w, t)
  {
    if write.WJournal? && write.move.Offering? {
      OfferToken(w, t, h, write, task);
    } else {
      if t.Passing? && h == t.offer.terms.source {
        CarrierWaits(w, t, h, write);
      }
      OtherSide(w, t, h, write, task);
      SameSideToken(w, t, h, Wrote(w, h, write, task));
    }
  }

  lemma OtherSide(w: World, t: Token, h: string, write: Write, task: Task)
    requires Lands(w, t, h, write)
    requires write.WJournal? ==>
               && !write.move.Enrolling? && !write.move.Committing? && !write.move.Activating? && !write.move.Offering?
               && (t.Passing? ==> h != t.offer.terms.source)
    ensures SameSide(w, t, h, Wrote(w, h, write, task))
  {
    SideOf(w, t, h, write, task);
  }

  lemma SideOf(w: World, t: Token, h: string, write: Write, task: Task)
    requires h in w.hosts && LegalWrite(w.net, h, w.hosts[h].disk, write)
    requires write.WJournal? ==>
               && !write.move.Enrolling? && !write.move.Committing? && !write.move.Activating? && !write.move.Offering?
               && (t.Passing? ==> h != t.offer.terms.source)
    ensures SameSide(w, t, h, Wrote(w, h, write, task))
  {
    if write.WJournal? {
      MoveKeepsSide(w.net, h, w.hosts[h].disk, write);
    }
  }

  lemma MoveKeepsSide(n: Net, h: string, d: Disk, write: Write)
    requires LegalWrite(n, h, d, write) && write.WJournal?
    requires !write.move.Enrolling? && !write.move.Committing? && !write.move.Activating? && !write.move.Offering?
    ensures Owns(Host(Apply(d, write), Idle)) == Owns(Host(d, Idle))
    ensures EpochOf(Host(Apply(d, write), Idle)) == EpochOf(Host(d, Idle))
  {
  }

  // ---- Messages -----------------------------------------------------------------

  lemma CoveredUnder(n: Net, n': Net, inbox: map<nat, Record>, inbox': map<nat, Record>, low: nat, high: nat)
    requires n'.operator == n.operator && n'.stream == n.stream && n'.consumed == n.consumed
    requires forall id | id in inbox :: id in inbox' && inbox'[id] == inbox[id]
    requires Covered(n, inbox, low, high)
    ensures Covered(n', inbox', low, high)
  {
    forall i | 0 <= i < |n'.stream| && low < n'.stream[i].id <= high && Eligible(n'.stream[i], n'.operator)
      ensures Kept(n', inbox', n'.stream[i])
    {
      assert Kept(n, inbox, n.stream[i]);
    }
  }

  // Ownership moves only between drained hosts, at one and the same checkpoint.
  lemma MoveFlow(w: World, t: Token, h: string, write: Write, task: Task)
    requires Lands(w, t, h, write) && write.WJournal?
    requires write.move.Enrolling? || write.move.Committing? || write.move.Activating?
    ensures var t' := Passed(t, h, write);
            && FlowOk(Wrote(w, h, write, task), t')
            && (!t.Unborn? ==>
                  EffectiveCheckpoint(Wrote(w, h, write, task), t') == EffectiveCheckpoint(w, t))
  {
    match write.move {
      case Enrolling => EnrollFlow(w, t, h, write, task);
      case Committing => CommitFlow(w, t, h, write, task);
      case Activating => ActivateFlow(w, t, h, write, task);
    }
  }

  lemma EnrollFlow(w: World, t: Token, h: string, write: Write, task: Task)
    requires Lands(w, t, h, write) && write.WJournal? && write.move.Enrolling?
    ensures t == Unborn && FlowOk(Wrote(w, h, write, task), Held(h))
  {
    EnrollToken(w, t, h, write, task);
  }

  lemma CommitFlow(w: World, t: Token, h: string, write: Write, task: Task)
    requires Lands(w, t, h, write) && write.WJournal? && write.move.Committing?
    ensures var t' := Passed(t, h, write);
            && FlowOk(Wrote(w, h, write, task), t')
            && EffectiveCheckpoint(Wrote(w, h, write, task), t') == EffectiveCheckpoint(w, t)
  {
    CommitFrom(w, t, h, write);
    assert DiskOk(w.net, h, w.hosts[h].disk);
    DrainedFlow(w, t, Wrote(w, h, write, task), Passed(t, h, write));
  }

  lemma ActivateFlow(w: World, t: Token, h: string, write: Write, task: Task)
    requires Lands(w, t, h, write) && write.WJournal? && write.move.Activating?
    ensures FlowOk(Wrote(w, h, write, task), Held(h))
    ensures EffectiveCheckpoint(Wrote(w, h, write, task), Held(h)) == EffectiveCheckpoint(w, t)
  {
    ActivateFrom(w, t, h, write);
    assert DiskOk(w.net, h, w.hosts[h].disk);
    DrainedFlow(w, t, Wrote(w, h, write, task), Held(h));
  }

  // With no inbox behind either token, the messages are where they were.
  lemma DrainedFlow(w: World, t: Token, w': World, t': Token)
    requires FlowOk(w, t) && !t.Unborn? && !t'.Unborn?
    requires OwnerInbox(w, t) == map[] && OwnerInbox(w', t') == map[]
    requires EffectiveCheckpoint(w', t') == EffectiveCheckpoint(w, t)
    requires w'.net.operator == w.net.operator && w'.net.stream == w.net.stream && w'.net.consumed == w.net.consumed
    requires w'.net.floor == w.net.floor && w'.net.requests == w.net.requests
    ensures FlowOk(w', t')
  {
    CoveredUnder(w.net, w'.net, map[], map[], w.net.floor, EffectiveCheckpoint(w, t));
  }

  lemma CaptureFlow(w: World, t: Token, h: string, c: nat, task: Task)
    requires Lands(w, t, h, WCheckpoint(c)) && ActiveOn(w.hosts[h].disk)
    ensures FlowOk(Wrote(w, h, WCheckpoint(c), task), t)
    ensures EffectiveCheckpoint(w, t) <= EffectiveCheckpoint(Wrote(w, h, WCheckpoint(c), task), t)
  {
    OwnerHolds(w, t, h);
    var d := w.hosts[h].disk;
    var w' := Wrote(w, h, WCheckpoint(c), task);
    assert DiskOk(w.net, h, d);
    assert w'.hosts[h].disk.checkpoint == Holds(c);
    forall i | 0 <= i < |w'.net.stream| && w'.net.floor < w'.net.stream[i].id <= c
               && Eligible(w'.net.stream[i], w'.net.operator)
      ensures Kept(w'.net, d.inbox, w'.net.stream[i])
    {
      if w.net.stream[i].id <= d.checkpoint.value {
        assert Kept(w.net, d.inbox, w.net.stream[i]);
      }
    }
  }

  // Neither the owner's checkpoint nor any record moved; a record may have been added.
  lemma SameFlow(w: World, t: Token, h: string, w': World)
    requires FlowOk(w, t) && TokenOk(w, t)
    requires h in w.hosts && w'.hosts.Keys == w.hosts.Keys
    requires forall g | g in w.hosts && g != h :: w'.hosts[g] == w.hosts[g]
    requires Owns(w.hosts[h]) ==> w'.hosts[h].disk.checkpoint == w.hosts[h].disk.checkpoint
    requires forall id | id in w.hosts[h].disk.inbox ::
               id in w'.hosts[h].disk.inbox && w'.hosts[h].disk.inbox[id] == w.hosts[h].disk.inbox[id]
    requires w'.net.operator == w.net.operator && w'.net.stream == w.net.stream && w'.net.consumed == w.net.consumed
    requires w'.net.floor == w.net.floor && w'.net.requests == w.net.requests
    ensures FlowOk(w', t) && EffectiveCheckpoint(w', t) == EffectiveCheckpoint(w, t)
  {
    if !t.Unborn? {
      CoveredUnder(w.net, w'.net, OwnerInbox(w, t), OwnerInbox(w', t), w.net.floor, EffectiveCheckpoint(w, t));
    }
  }

  lemma OtherFlow(w: World, t: Token, h: string, write: Write, task: Task)
    requires Lands(w, t, h, write)
    requires write.WJournal? ==> !write.move.Enrolling? && !write.move.Committing? && !write.move.Activating?
    requires write.WCheckpoint? ==> !ActiveOn(w.hosts[h].disk)
    ensures FlowOk(Wrote(w, h, write, task), t)
    ensures EffectiveCheckpoint(w, t) == EffectiveCheckpoint(Wrote(w, h, write, task), t)
  {
    OtherFiles(w, h, write, task);
    SameFlow(w, t, h, Wrote(w, h, write, task));
  }

  // A write that neither moves the token nor is a capture's checkpoint leaves the owner's
  // checkpoint, every record, and the server's side of the world alone.
  lemma OtherFiles(w: World, h: string, write: Write, task: Task)
    requires h in w.hosts && LegalWrite(w.net, h, w.hosts[h].disk, write)
    requires write.WJournal? ==> !write.move.Enrolling? && !write.move.Committing? && !write.move.Activating?
    requires write.WCheckpoint? ==> !ActiveOn(w.hosts[h].disk)
    ensures var w', d := Wrote(w, h, write, task), w.hosts[h].disk;
            var d' := w'.hosts[h].disk;
            && (Owns(w.hosts[h]) ==> d'.checkpoint == d.checkpoint)
            && (forall id | id in d.inbox :: id in d'.inbox && d'.inbox[id] == d.inbox[id])
            && w'.net.operator == w.net.operator && w'.net.stream == w.net.stream && w'.net.consumed == w.net.consumed
            && w'.net.floor == w.net.floor && w'.net.requests == w.net.requests
  {
  }

  // ---- Any landing ----------------------------------------------------------------

  /** Every legal write keeps the invariant, the token passing as `Passed` says, and never
      lowers the checkpoint that counts. */
  lemma LandKeeps(w: World, t: Token, h: string, write: Write, task: Task)
    requires Lands(w, t, h, write)
    requires TaskOk(Landing(w.net, w.hosts[h].disk, write), h, Apply(w.hosts[h].disk, write), task)
    ensures var w' := Wrote(w, h, write, task);
            var t' := Passed(t, h, write);
            && Inv(w', t')
            && (!t.Unborn? ==> !t'.Unborn? && EffectiveCheckpoint(w, t) <= EffectiveCheckpoint(w', t'))
  {
    LandHosts(w, t, h, write, task);
    if write.WJournal? && (write.move.Enrolling? || write.move.Committing? || write.move.Activating?) {
      MoveKeeps(w, t, h, write, task);
    } else {
      RestKeeps(w, t, h, write, task);
    }
  }

  lemma MoveKeeps(w: World, t: Token, h: string, write: Write, task: Task)
    requires Lands(w, t, h, write) && write.WJournal?
    requires write.move.Enrolling? || write.move.Committing? || write.move.Activating?
    ensures var w', t' := Wrote(w, h, write, task), Passed(t, h, write);
            && TokenOk(w', t') && SettledOk(w', t') && FlowOk(w', t') && !t'.Unborn?
            && (!t.Unborn? ==> EffectiveCheckpoint(w, t) == EffectiveCheckpoint(w', t'))
  {
    MoveFlow(w, t, h, write, task);
    match write.move
    case Enrolling => EnrollToken(w, t, h, write, task);
    case Committing => CommitToken(w, t, h, write, task);
    case Activating => ActivateToken(w, t, h, write, task);
  }

  lemma RestKeeps(w: World, t: Token, h: string, write: Write, task: Task)
    requires Lands(w, t, h, write)
    requires write.WJournal? ==> !write.move.Enrolling? && !write.move.Committing? && !write.move.Activating?
    ensures var w' := Wrote(w, h, write, task);
            && Passed(t, h, write) == t
            && TokenOk(w', t) && SettledOk(w', t) && FlowOk(w', t)
            && EffectiveCheckpoint(w, t) <= EffectiveCheckpoint(w', t)
  {
    OtherToken(w, t, h, write, task);
    if write.WCheckpoint? && ActiveOn(w.hosts[h].disk) {
      CaptureFlow(w, t, h, write.value, task);
    } else {
      OtherFlow(w, t, h, write, task);
    }
  }

  /** The ownership epoch rises by one on each commit and on nothing else. */
  lemma LandEpoch(w: World, t: Token, h: string, write: Write, task: Task)
    requires Lands(w, t, h, write) && !t.Unborn?
    ensures var w', t' := Wrote(w, h, write, task), Passed(t, h, write);
            OwnershipEpoch(w', t') == OwnershipEpoch(w, t) + if t.Held? && t'.Passing? then 1 else 0
  {
    if write.WJournal? && write.move.Enrolling? {
      EnrollToken(w, t, h, write, task);
    } else if write.WJournal? && write.move.Committing? {
      CommitToken(w, t, h, write, task);
    } else if write.WJournal? && write.move.Activating? {
      ActivateToken(w, t, h, write, task);
    } else {
      OtherToken(w, t, h, write, task);
    }
  }
}
