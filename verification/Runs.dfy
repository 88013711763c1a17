/** The invariant over whole runs, and the token's path through them. */
module Runs {
  import opened Prelude
  import opened ReaderState
  import opened ReaderVerbs
  import opened World
  import opened Legality
  import opened Ownership
  import opened Landings

  function TokenAfter(w: World, step: Step, t: Token): Token {
    if step.Land? && step.host in w.hosts && w.hosts[step.host].task.Writing? && w.hosts[step.host].task.todo != []
    then Passed(t, step.host, w.hosts[step.host].task.todo[0])
    else t
  }

  // The request leaves once the marker is down.
  lemma SendKeeps(w: World, t: Token, h: string, offset: nat)
    requires Inv(w, t) && h in w.hosts
    requires MayPoll(w.hosts[h].disk) && w.hosts[h].disk.checkpoint == Holds(offset) && w.hosts[h].disk.marker.Some?
    ensures Inv(SetHost(w, h, w.hosts[h].disk, Waiting(offset))
                .(net := w.net.(requests := w.net.requests + {offset})), t)
    ensures EffectiveCheckpoint(SetHost(w, h, w.hosts[h].disk, Waiting(offset))
                                .(net := w.net.(requests := w.net.requests + {offset})), t)
         == EffectiveCheckpoint(w, t)
  {
    SendIsQuiet(w, h, offset);
    QuietKeeps(w, h, SetHost(w, h, w.hosts[h].disk, Waiting(offset))
               .(net := w.net.(requests := w.net.requests + {offset})), t);
  }

  lemma SendIsQuiet(w: World, h: string, offset: nat)
    requires NetOk(w.net) && h in w.hosts
    requires MayPoll(w.hosts[h].disk) && w.hosts[h].disk.checkpoint == Holds(offset) && w.hosts[h].disk.marker.Some?
    ensures var w' := SetHost(w, h, w.hosts[h].disk, Waiting(offset))
                      .(net := w.net.(requests := w.net.requests + {offset}));
            Quiet(w, h, w') && NetOk(w'.net) && TaskOk(w'.net, h, w'.hosts[h].disk, w'.hosts[h].task)
  {
    var n' := w.net.(requests := w.net.requests + {offset});
    forall r | Genuine(w.net, r) ensures Genuine(n', r) {
      GenuineStable(w.net, n', r);
    }
  }

  // What a host is at after a landing, short of sending a request.
  lemma LandTask(w: World, h: string)
    requires NetOk(w.net) && HostsOk(w) && Enabled(w, Land(h))
    ensures var x := w.hosts[h];
            var n' := Landing(w.net, x.disk, x.task.todo[0]);
            var task := Onward(x.task.todo, x.task.stage);
            && LegalWrite(w.net, h, x.disk, x.task.todo[0])
            && (!task.Waiting? ==> TaskOk(n', h, Apply(x.disk, x.task.todo[0]), task))
            && (task.Waiting? ==>
                  var d := Apply(x.disk, x.task.todo[0]);
                  MayPoll(d) && d.checkpoint == Holds(task.offset) && d.marker.Some?)
  {
    assert DiskOk(w.net, h, w.hosts[h].disk) && TaskOk(w.net, h, w.hosts[h].disk, w.hosts[h].task);
  }

  lemma SendShape(w: World, h: string)
    requires NetOk(w.net) && HostsOk(w) && Enabled(w, Land(h))
    requires Onward(w.hosts[h].task.todo, w.hosts[h].task.stage).Waiting?
    ensures var x := w.hosts[h];
            var w1 := Wrote(w, h, x.task.todo[0], Idle);
            && x.task.todo[0].WMarker?
            && After(w, Land(h))
               == SetHost(w1, h, w1.hosts[h].disk, Waiting(x.task.stage.offset))
                  .(net := w1.net.(requests := w1.net.requests + {x.task.stage.offset}))
  {
    assert TaskOk(w.net, h, w.hosts[h].disk, w.hosts[h].task);
  }

  // The marker lands and the request leaves.
  lemma SendStep(w: World, t: Token, h: string)
    requires Inv(w, t) && Enabled(w, Land(h))
    requires Onward(w.hosts[h].task.todo, w.hosts[h].task.stage).Waiting?
    ensures TokenAfter(w, Land(h), t) == t
    ensures Inv(After(w, Land(h)), t)
    ensures EffectiveCheckpoint(w, t) == EffectiveCheckpoint(After(w, Land(h)), t)
  {
    LandTask(w, h);
    SendShape(w, h);
    var write := w.hosts[h].task.todo[0];
    LandKeeps(w, t, h, write, Idle);
    OtherFlow(w, t, h, write, Idle);
    SendKeeps(Wrote(w, h, write, Idle), t, h, w.hosts[h].task.stage.offset);
  }

  lemma LandStep(w: World, t: Token, h: string)
    requires Inv(w, t) && Enabled(w, Land(h))
    ensures var w' := After(w, Land(h));
            var t' := TokenAfter(w, Land(h), t);
            && Inv(w', t')
            && (!t.Unborn? ==> !t'.Unborn? && EffectiveCheckpoint(w, t) <= EffectiveCheckpoint(w', t'))
  {
    var x := w.hosts[h];
    var task := Onward(x.task.todo, x.task.stage);
    if task.Waiting? {
      SendStep(w, t, h);
    } else {
      LandTask(w, h);
      LandKeeps(w, t, h, x.task.todo[0], task);
      assert After(w, Land(h)) == Wrote(w, h, x.task.todo[0], task);
    }
  }

  lemma QuietCheckpoint(w: World, step: Step, t: Token)
    requires Inv(w, t) && Enabled(w, step) && !step.Land?
    ensures EffectiveCheckpoint(After(w, step), t) == EffectiveCheckpoint(w, t)
  {
  }

  /** The invariant is inductive: any step of any host, server, operator or consumer keeps it,
      and none lowers the checkpoint that counts. */
  lemma StepKeeps(w: World, step: Step, t: Token)
    requires Inv(w, t) && Enabled(w, step)
    ensures var w' := After(w, step);
            var t' := TokenAfter(w, step, t);
            && Inv(w', t')
            && (!t.Unborn? ==> !t'.Unborn? && EffectiveCheckpoint(w, t) <= EffectiveCheckpoint(w', t'))
  {
    if step.Land? {
      LandStep(w, t, step.host);
    } else {
      QuietCheckpoint(w, step, t);
      if step.Arrive? {
        ArriveKeeps(w, step.update, t);
      } else {
        QuietStep(w, step, t);
      }
    }
  }

  ghost function TokenAt(ws: seq<World>, steps: seq<Step>, i: nat): Token
    requires i <= |steps| < |ws|
  {
    if i == 0 then Unborn else TokenAfter(ws[i - 1], steps[i - 1], TokenAt(ws, steps, i - 1))
  }

  /** Every world of every run satisfies the invariant. */
  lemma {:induction false} Reachable(ws: seq<World>, steps: seq<Step>, i: nat)
    requires Run(ws, steps) && i <= |steps|
    ensures Inv(ws[i], TokenAt(ws, steps, i))
  {
    if i == 0 {
      InitInv(ws[0]);
    } else {
      Reachable(ws, steps, i - 1);
      assert Follows(ws, steps, i - 1);
      StepKeeps(ws[i - 1], steps[i - 1], TokenAt(ws, steps, i - 1));
    }
  }
}
