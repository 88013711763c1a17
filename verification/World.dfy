/** All hosts of one bot, the messages between them, the server's updates, and every way a run
    can go on: verbs that stop after any durable write, polls that hang, late and repeated
    manifests and receipts, operators and consumers that touch files at any time. */
module World {
  import opened Prelude
  import opened ReaderState
  import opened ReaderVerbs

  // Where a poll's writes belong; a Local verb has no request.
  datatype Stage = Local | Opening(offset: nat) | Closing

  // The process holding the host's lock: the writes it has still to land, or a request in flight.
  datatype Task = Idle | Writing(todo: seq<Write>, stage: Stage) | Waiting(offset: nat) {
    predicate Polling() {
      Waiting? || (Writing? && !stage.Local?)
    }
  }

  datatype Host = Host(disk: Disk, task: Task)

  /** Everything outside the hosts.  Offers and receipts count as known from the moment they are
      durable on their source, so any message may be delivered at any later time, repeatedly. */
  datatype Net = Net(
    operator: string,              // the operator's chat
    offers: set<Manifest>,
    receipts: set<Receipt>,
    drawn: map<string, string>,    // every transfer id drawn so far, and the host that drew it
    published: set<string>,        // ids of the offers made durable
    committed: set<string>,
    cancelled: set<string>,
    stream: seq<Update>,           // the bot's updates, oldest first
    requests: set<nat>,            // offsets already sent: the server may forget ids up to them
    consumed: set<Record>,         // records the consumer has taken
    born: Option<string>,          // the host the operator enrolled
    floor: nat)                    // the checkpoint it enrolled at

  datatype World = World(hosts: map<string, Host>, net: Net)

  datatype Step =
    | Acquire(host: string, verb: Verb)          // take the lock, read the state, set out
    | Admit(host: string)                        // the same for a poll that is let through
    | Land(host: string)                         // the next durable write lands
    | Die(host: string)                          // the process is killed
    | Falter(host: string)                       // a capture fails; only the marker is still cleared
    | Receive(host: string, answer: Answer)      // the request in flight is answered
    | TouchStop(host: string, stop: StopFile)    // the stop file is placed, replaced or removed
    | Consume(host: string, id: nat)             // the consumer takes one record
    | Arrive(update: Update)                     // the server gets a new update

  predicate Pristine(x: Host) {
    && x.task.Idle?
    && x.disk.journal.None?
    && x.disk.marker.None?
    && x.disk.inbox == map[]
  }

  // Nobody enrolled: no marker, no inbox; stop files and checkpoints may be anything.
  predicate Init(w: World) {
    && (forall h | h in w.hosts :: Pristine(w.hosts[h]))
    && var n := w.net;
       && n.offers == {} && n.receipts == {} && n.drawn == map[] && n.published == {}
       && n.committed == {} && n.cancelled == {} && n.requests == {} && n.consumed == {}
       && n.born == None
       && Ascending(n.stream)
  }

  predicate Ascending(us: seq<Update>) {
    forall i, j | 0 <= i < j < |us| :: us[i].id < us[j].id
  }

  // getUpdates answers with a prefix of the updates above the offset.
  ghost predicate Answers(stream: seq<Update>, offset: nat, us: seq<Update>) {
    exists i :: StartsAt(stream, offset, us, i)
  }

  ghost predicate StartsAt(stream: seq<Update>, offset: nat, us: seq<Update>, i: int) {
    && 0 <= i <= |stream| - |us|
    && us == stream[i..i + |us|]
    && (forall k | 0 <= k < i :: stream[k].id <= offset)
    && (forall k | i <= k < |stream| :: stream[k].id > offset)
  }

  /** What the operator, the network and the random source are trusted with: one host is
      enrolled; a machine is prepared under its own id; transfer ids are fresh; manifests and
      receipts come from a source. */
  predicate Honest(n: Net, h: string, d: Disk, verb: Verb) {
    match verb
    case Enroll(id) => id == h && (n.born == None || n.born == Some(h))
    case Prepare(id, _) => d.journal.None? ==> id == h
    case Export(_, _, tid, secret, _) => tid !in n.drawn && HexOf(tid, 16) && HexOf(secret, 64)
    case Import(m, _) => m in n.offers
    case Activate(r) => r in n.receipts
    case _ => true
  }

  ghost predicate Enabled(w: World, step: Step) {
    match step
    case Arrive(u) => forall i | 0 <= i < |w.net.stream| :: w.net.stream[i].id < u.id
    case _ =>
      && step.host in w.hosts
      && var x := w.hosts[step.host];
         match step
         case Acquire(h, verb) => x.task.Idle? && Honest(w.net, h, x.disk, verb)
         case Admit(h) => x.task.Idle? && Admission(x.disk, true).Ok?
         case Land(h) => x.task.Writing? && x.task.todo != []
         case Die(h) => true
         case Falter(h) => x.task.Writing? && x.task.stage.Closing?
         case Receive(h, answer) =>
           && x.task.Waiting? && x.disk.journal.Some?
           && (answer.Body? && answer.document.Updates? ==>
                 Answers(w.net.stream, x.task.offset, answer.document.updates))
         case TouchStop(h, s) => true
         case Consume(h, id) => id in x.disk.inbox
  }

  // What a landing write means for the rest of the world.
  function Landing(n: Net, d: Disk, w: Write): Net {
    match w
    case WJournal(Enrolling, j) =>
      n.(floor := if d.checkpoint.Holds? then d.checkpoint.value else 0)
    case WJournal(Offering, j) =>
      if j.transfer.None? then n
      else
        n.(offers := n.offers + {j.transfer.value.manifest},
           published := n.published + {j.transfer.value.manifest.terms.transferId})
    case WJournal(Committing, j) =>
      if j.transfer.None? || j.transfer.value.secret.None? then n
      else
        var m := j.transfer.value.manifest;
        n.(committed := n.committed + {m.terms.transferId},
           receipts := n.receipts + {ReceiptOf(m, j.transfer.value.secret.value)})
    case WJournal(Cancelling, _) =>
      if d.journal.Some? && d.journal.value.phase.Offered? && d.journal.value.transfer.Some? then
        n.(cancelled := n.cancelled + {d.journal.value.transfer.value.manifest.terms.transferId})
      else n
    case _ => n
  }

  function SetOut(ws: seq<Write>, stage: Stage): Task {
    if ws == [] then Idle else Writing(ws, stage)
  }

  // What the process is at once its first write has landed: a marker sends the request.
  function Onward(todo: seq<Write>, stage: Stage): Task
    requires todo != []
  {
    if todo[1..] != [] then Writing(todo[1..], stage)
    else if stage.Opening? then Waiting(stage.offset)
    else Idle
  }

  function Drawing(n: Net, h: string, verb: Verb): Net {
    match verb
    case Enroll(_) => n.(born := Some(h))
    case Export(_, _, tid, _, _) => n.(drawn := n.drawn[tid := h])
    case _ => n
  }

  function SetHost(w: World, h: string, d: Disk, task: Task): World {
    w.(hosts := w.hosts[h := Host(d, task)])
  }

  ghost function After(w: World, step: Step): World
    requires Enabled(w, step)
  {
    match step
    case Arrive(u) => w.(net := w.net.(stream := w.net.stream + [u]))
    case Acquire(h, verb) =>
      var d := w.hosts[h].disk;
      SetHost(w, h, d, SetOut(PlanOf(d, verb).writes, Local)).(net := Drawing(w.net, h, verb))
    case Admit(h) =>
      var d := w.hosts[h].disk;
      var offset := Admission(d, true).value;
      SetHost(w, h, d, Writing([MarkerWrite(d, offset)], Opening(offset)))
    case Land(h) =>
      var x := w.hosts[h];
      var write := x.task.todo[0];
      var n := Landing(w.net, x.disk, write);
      var task := Onward(x.task.todo, x.task.stage);
      SetHost(w, h, Apply(x.disk, write), task)
      .(net := if task.Waiting? then n.(requests := n.requests + {task.offset}) else n)
    case Die(h) => SetHost(w, h, w.hosts[h].disk, Idle)
    case Falter(h) => SetHost(w, h, w.hosts[h].disk, Writing([WClear], Closing))
    case Receive(h, answer) =>
      var d := w.hosts[h].disk;
      SetHost(w, h, d, SetOut(AnswerPlan(d, answer, w.net.operator).writes, Closing))
    case TouchStop(h, s) =>
      SetHost(w, h, w.hosts[h].disk.(stop := s), w.hosts[h].task)
    case Consume(h, id) =>
      var d := w.hosts[h].disk;
      SetHost(w, h, d.(inbox := d.inbox - {id}), w.hosts[h].task)
      .(net := w.net.(consumed := w.net.consumed + {d.inbox[id]}))
  }

  ghost predicate Follows(ws: seq<World>, steps: seq<Step>, i: nat)
    requires i < |steps| < |ws|
  {
    Enabled(ws[i], steps[i]) && ws[i + 1] == After(ws[i], steps[i])
  }

  /** A path: worlds ws[0], ws[1], ... joined by steps. */
  ghost predicate Path(ws: seq<World>, steps: seq<Step>) {
    |ws| == |steps| + 1 && forall i: nat | i < |steps| :: Follows(ws, steps, i)
  }

  /** A run is a path from a world where nobody has enrolled. */
  ghost predicate Run(ws: seq<World>, steps: seq<Step>) {
    Path(ws, steps) && Init(ws[0])
  }

  // Only a landing write of its own changes a host's journal.
  lemma JournalKept(w: World, step: Step, h: string)
    requires Enabled(w, step) && h in w.hosts && step != Land(h)
    ensures h in After(w, step).hosts && After(w, step).hosts[h].disk.journal == w.hosts[h].disk.journal
  {
  }

  lemma JournalLanded(w: World, h: string)
    requires Enabled(w, Land(h))
    ensures h in After(w, Land(h)).hosts
    ensures After(w, Land(h)).hosts[h].disk == Apply(w.hosts[h].disk, w.hosts[h].task.todo[0])
  {
  }
}
