/** The ownership token and the invariant of every run.

    The token is not in any file: it names the one host that owns the bot, or the one committed
    transfer nobody has activated yet. */
module Ownership {
  import opened Prelude
  import opened ReaderState
  import opened ReaderVerbs
  import opened World
  import opened Legality
  import opened PollLegality

  datatype Token = Unborn | Held(host: string) | Passing(offer: Manifest)

  predicate Owns(x: Host) {
    x.disk.journal.Some? && x.disk.journal.value.phase.Owner()
  }

  function EpochOf(x: Host): nat {
    if x.disk.journal.Some? then x.disk.journal.value.epoch else 0
  }

  ghost predicate HostsOk(w: World) {
    forall h | h in w.hosts :: DiskOk(w.net, h, w.hosts[h].disk) && TaskOk(w.net, h, w.hosts[h].disk, w.hosts[h].task)
  }

  // The source of the committed transfer still carries it, secret included.
  predicate Carries(x: Host, m: Manifest) {
    && x.disk.journal.Some?
    && var j := x.disk.journal.value;
       j.phase.Transferred? && j.transfer.Some? && j.transfer.value.manifest == m
  }

  predicate Enlisted(w: World) {
    && w.net.born.Some?
    && w.net.born.value in w.hosts
    && w.hosts[w.net.born.value].disk.journal.Some?
  }

  ghost predicate TokenOk(w: World, t: Token) {
    match t
    case Unborn =>
      (forall h | h in w.hosts :: !Owns(w.hosts[h])) && w.net.offers == {}
    case Held(o) =>
      && o in w.hosts && Owns(w.hosts[o]) && Enlisted(w)
      && (forall h | h in w.hosts && h != o :: !Owns(w.hosts[h]))
      && (forall h | h in w.hosts :: EpochOf(w.hosts[h]) <= EpochOf(w.hosts[o]))
      && (forall m | m in w.net.offers :: m.terms.epoch <= EpochOf(w.hosts[o]) + 1)
    case Passing(p) =>
      && p in w.net.offers && p.terms.transferId in w.net.committed && Enlisted(w)
      && p.terms.source in w.hosts && Carries(w.hosts[p.terms.source], p)
      && (forall h | h in w.hosts :: !Owns(w.hosts[h]) && EpochOf(w.hosts[h]) <= p.terms.epoch)
      && (p.terms.destination in w.hosts ==> EpochOf(w.hosts[p.terms.destination]) < p.terms.epoch)
      && (forall m | m in w.net.offers :: m.terms.epoch <= p.terms.epoch)
  }

  // Every committed offer is the one in passing, or has been activated.
  predicate Settled(w: World, m: Manifest) {
    m.terms.destination in w.hosts && EpochOf(w.hosts[m.terms.destination]) >= m.terms.epoch
  }

  ghost predicate SettledOk(w: World, t: Token) {
    forall m | m in w.net.offers && m.terms.transferId in w.net.committed :: t == Passing(m) || Settled(w, m)
  }

  // The checkpoint that counts: the owner's, or the one in the committed manifest.
  function EffectiveCheckpoint(w: World, t: Token): nat {
    match t
    case Unborn => 0
    case Held(o) =>
      if o in w.hosts && w.hosts[o].disk.checkpoint.Holds? then w.hosts[o].disk.checkpoint.value else 0
    case Passing(p) => p.terms.checkpoint
  }

  function OwnerInbox(w: World, t: Token): map<nat, Record> {
    if t.Held? && t.host in w.hosts then w.hosts[t.host].disk.inbox else map[]
  }

  function OwnershipEpoch(w: World, t: Token): nat {
    match t
    case Unborn => 0
    case Held(o) => if o in w.hosts then EpochOf(w.hosts[o]) else 0
    case Passing(p) => p.terms.epoch
  }

  ghost predicate FlowOk(w: World, t: Token) {
    var high := EffectiveCheckpoint(w, t);
    if t.Unborn? then w.net.requests == {}
    else
      && w.net.floor <= high
      && (high == w.net.floor || InStream(w.net, high))
      && (forall offset | offset in w.net.requests :: offset <= high)
      && Covered(w.net, OwnerInbox(w, t), w.net.floor, high)
  }

  ghost predicate Inv(w: World, t: Token) {
    && NetOk(w.net)
    && HostsOk(w)
    && TokenOk(w, t)
    && SettledOk(w, t)
    && FlowOk(w, t)
  }

  lemma InitInv(w: World)
    requires Init(w)
    ensures Inv(w, Unborn)
  {
  }

  // ---- Steps that land no write ------------------------------------------------

  // A step that leaves journals and checkpoints alone, and only adds to what is known; a request
  // may leave an active host at its checkpoint.
  ghost predicate Quiet(w: World, h: string, w': World) {
    && h in w.hosts && w'.hosts.Keys == w.hosts.Keys
    && (forall g | g in w.hosts && g != h :: w'.hosts[g] == w.hosts[g])
    && Disturbed(w'.net, w.hosts[h].disk, w'.hosts[h].disk)
    && (forall g: string :: Extends(g, w.net, w'.net))
    && w'.net.offers == w.net.offers && w'.net.committed == w.net.committed
    && w'.net.floor == w.net.floor
    && (forall o | o in w'.net.requests ::
          || o in w.net.requests
          || (ActiveOn(w.hosts[h].disk) && w.hosts[h].disk.checkpoint == Holds(o)))
  }

  lemma QuietKeeps(w: World, h: string, w': World, t: Token)
    requires Inv(w, t) && Quiet(w, h, w') && NetOk(w'.net)
    requires TaskOk(w'.net, h, w'.hosts[h].disk, w'.hosts[h].task)
    ensures Inv(w', t)
  {
    QuietHosts(w, h, w');
    QuietToken(w, h, w', t);
    QuietFlow(w, h, w', t);
  }

  lemma QuietHosts(w: World, h: string, w': World)
    requires HostsOk(w) && Quiet(w, h, w') && NetOk(w'.net)
    requires TaskOk(w'.net, h, w'.hosts[h].disk, w'.hosts[h].task)
    ensures HostsOk(w')
  {
    assert Extends(h, w.net, w'.net);
    forall g | g in w'.hosts
      ensures DiskOk(w'.net, g, w'.hosts[g].disk) && TaskOk(w'.net, g, w'.hosts[g].disk, w'.hosts[g].task)
    {
      if g == h {
        DiskStable(w.net, w'.net, h, w.hosts[h].disk, w'.hosts[h].disk);
      } else {
        HostStable(w.net, w'.net, g, w.hosts[g].disk, w'.hosts[g].disk, w'.hosts[g].task);
      }
    }
  }

  lemma QuietToken(w: World, h: string, w': World, t: Token)
    requires TokenOk(w, t) && SettledOk(w, t) && Quiet(w, h, w')
    ensures TokenOk(w', t) && SettledOk(w', t)
  {
    assert Extends(h, w.net, w'.net);
    assert forall g | g in w.hosts :: w'.hosts[g].disk.journal == w.hosts[g].disk.journal;
    assert forall g | g in w.hosts :: EpochOf(w'.hosts[g]) == EpochOf(w.hosts[g]) && Owns(w'.hosts[g]) == Owns(w.hosts[g]);
  }

  lemma QuietFlow(w: World, h: string, w': World, t: Token)
    requires TokenOk(w, t) && FlowOk(w, t) && Quiet(w, h, w') && NetOk(w'.net)
    ensures FlowOk(w', t)
  {
    assert Extends(h, w.net, w'.net);
    if !t.Unborn? {
      var high := EffectiveCheckpoint(w, t);
      assert EffectiveCheckpoint(w', t) == high;
      if high != w.net.floor {
        var k :| 0 <= k < |w.net.stream| && w.net.stream[k].id == high;
        assert w'.net.stream[k] == w.net.stream[k];
      }
      var d := w.hosts[h].disk.(inbox := OwnerInbox(w, t));
      var d' := w'.hosts[h].disk.(inbox := OwnerInbox(w', t));
      CoveredStable(w.net, w'.net, d, d', w.net.floor, high);
    }
  }

  lemma ArriveExtends(n: Net, u: Update)
    requires NetOk(n) && forall i | 0 <= i < |n.stream| :: n.stream[i].id < u.id
    ensures var n' := n.(stream := n.stream + [u]); NetOk(n') && forall g: string :: Extends(g, n, n')
  {
    var n' := n.(stream := n.stream + [u]);
    forall r | Genuine(n, r) ensures Genuine(n', r) {
      GenuineStable(n, n', r);
    }
  }

  lemma ArriveKeeps(w: World, u: Update, t: Token)
    requires Inv(w, t) && Enabled(w, Arrive(u))
    ensures Inv(After(w, Arrive(u)), t)
  {
    var w' := After(w, Arrive(u));
    ArriveExtends(w.net, u);
    if h :| h in w.hosts {
      assert Extends(h, w.net, w'.net);
      HostStable(w.net, w'.net, h, w.hosts[h].disk, w'.hosts[h].disk, w.hosts[h].task);
      QuietKeeps(w, h, w', t);
    }
  }

  // The next task of the host is in order after any step that lands no write.
  lemma QuietTask(w: World, step: Step)
    requires NetOk(w.net) && HostsOk(w) && Enabled(w, step)
    requires step.Acquire? || step.Admit? || step.Receive? || step.Falter? || step.Die?
    ensures var w' := After(w, step);
            && NetOk(w'.net)
            && TaskOk(w'.net, step.host, w'.hosts[step.host].disk, w'.hosts[step.host].task)
  {
    var h := step.host;
    var x := w.hosts[h];
    match step
    case Acquire(_, verb) =>
      DrawingKeeps(w.net, h, x.disk, verb);
      VerbLegal(w.net, h, x.disk, verb);
    case Admit(_) => AdmitLegal(w.net, h, x.disk);
    case Receive(_, answer) => AnswerLegal(w.net, h, x.disk, x.task.offset, answer);
    case Falter(_) => LegalOne(w.net, h, x.disk, WClear);
    case Die(_) =>
  }

  // The stop file and the inbox may change under the process that holds the lock.
  lemma OutsideTask(w: World, h: string, w': World)
    requires NetOk(w.net) && HostsOk(w) && Quiet(w, h, w') && w'.hosts[h].task == w.hosts[h].task
    requires w'.net.stream == w.net.stream && w'.net.receipts == w.net.receipts
    requires w'.net.published == w.net.published && w'.net.cancelled == w.net.cancelled && w'.net.drawn == w.net.drawn
    requires forall r | r in w'.net.consumed :: r in w.net.consumed || Genuine(w.net, r)
    ensures NetOk(w'.net) && TaskOk(w'.net, h, w'.hosts[h].disk, w'.hosts[h].task)
  {
    assert Extends(h, w.net, w'.net);
    forall r | Genuine(w.net, r) ensures Genuine(w'.net, r) {
      GenuineStable(w.net, w'.net, r);
    }
    HostStable(w.net, w'.net, h, w.hosts[h].disk, w'.hosts[h].disk, w.hosts[h].task);
  }

  // A step that changes neither files nor what is known.
  lemma SameWorldIsQuiet(w: World, h: string, task: Task)
    requires h in w.hosts
    ensures Quiet(w, h, SetHost(w, h, w.hosts[h].disk, task))
  {
  }

  lemma AcquireIsQuiet(w: World, h: string, verb: Verb)
    requires NetOk(w.net) && HostsOk(w) && Enabled(w, Acquire(h, verb))
    ensures Quiet(w, h, After(w, Acquire(h, verb)))
  {
    DrawingKeeps(w.net, h, w.hosts[h].disk, verb);
  }

  lemma StopIsQuiet(w: World, h: string, stop: StopFile)
    requires Enabled(w, TouchStop(h, stop))
    ensures Quiet(w, h, After(w, TouchStop(h, stop)))
  {
  }

  lemma ConsumeIsQuiet(w: World, h: string, id: nat)
    requires Enabled(w, Consume(h, id))
    ensures Quiet(w, h, After(w, Consume(h, id)))
  {
  }

  lemma StepIsQuiet(w: World, step: Step)
    requires NetOk(w.net) && HostsOk(w) && Enabled(w, step)
    requires !step.Land? && !step.Arrive?
    ensures Quiet(w, step.host, After(w, step))
  {
    if step.Acquire? {
      AcquireIsQuiet(w, step.host, step.verb);
    } else if step.TouchStop? {
      StopIsQuiet(w, step.host, step.stop);
    } else if step.Consume? {
      ConsumeIsQuiet(w, step.host, step.id);
    } else {
      SameWorldIsQuiet(w, step.host, After(w, step).hosts[step.host].task);
    }
  }

  lemma QuietStep(w: World, step: Step, t: Token)
    requires Inv(w, t) && Enabled(w, step)
    requires !step.Land? && !step.Arrive?
    ensures Inv(After(w, step), t)
  {
    var w' := After(w, step);
    StepIsQuiet(w, step);
    QuietStepTask(w, step);
    QuietKeeps(w, step.host, w', t);
  }

  lemma QuietStepTask(w: World, step: Step)
    requires NetOk(w.net) && HostsOk(w) && Enabled(w, step) && !step.Land? && !step.Arrive?
    requires Quiet(w, step.host, After(w, step))
    ensures var w' := After(w, step);
            NetOk(w'.net) && TaskOk(w'.net, step.host, w'.hosts[step.host].disk, w'.hosts[step.host].task)
  {
    if step.TouchStop? || step.Consume? {
      assert DiskOk(w.net, step.host, w.hosts[step.host].disk);
      OutsideTask(w, step.host, After(w, step));
    } else {
      QuietTask(w, step);
    }
  }
}
