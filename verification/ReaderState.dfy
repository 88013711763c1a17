/** The durable state of one bot-reader host, and the checks applied to it.

    SHA-256 is symbolic: a commit hash *is* the secret it hides and a digest *is* the terms
    it covers, so both are injective by construction.  JSON typing is Dafny typing. */
module ReaderState {
  import opened Prelude

  // ---- Identifiers ----------------------------------------------------------

  predicate AlphaNum(c: char) {
    'a' <= c <= 'z' || 'A' <= c <= 'Z' || '0' <= c <= '9'
  }

  predicate LowerHex(c: char) {
    'a' <= c <= 'f' || '0' <= c <= '9'
  }

  // Python's `$` also matches just before one trailing newline.
  function Chomp(s: string): string {
    if |s| > 0 && s[|s| - 1] == '\n' then s[..|s| - 1] else s
  }

  predicate HostName(s: string) {
    && 1 <= |s| <= 64
    && AlphaNum(s[0])
    && forall i | 0 < i < |s| :: AlphaNum(s[i]) || s[i] in "._-"
  }

  predicate ValidHostId(s: string) {
    HostName(s) || HostName(Chomp(s))
  }

  predicate BotName(s: string) {
    1 <= |s| <= 64 && forall i | 0 <= i < |s| :: AlphaNum(s[i]) || s[i] == '-'
  }

  predicate ValidBotId(s: string) {
    BotName(s) || BotName(Chomp(s))
  }

  predicate HexOf(s: string, n: nat) {
    |s| == n && forall i | 0 <= i < n :: LowerHex(s[i])
  }

  predicate ValidTransferId(s: string) {
    HexOf(s, 16) || HexOf(Chomp(s), 16)
  }

  predicate ValidSecret(s: string) {
    HexOf(s, 64) || HexOf(Chomp(s), 64)
  }

  /** An accepted host id is a host name, or one with a single newline behind it. */
  lemma HostIdExactly(s: string)
    ensures ValidHostId(s) <==> HostName(s) || exists t :: HostName(t) && s == t + "\n"
  {
    if HostName(Chomp(s)) && !HostName(s) {
      assert s == Chomp(s) + "\n";
    }
    forall t | HostName(t) && s == t + "\n" ensures Chomp(s) == t {
    }
  }

  lemma HostIdSample()
    ensures ValidHostId("a\n") && !HostName("a\n")
  {
    assert "a\n"[1] == '\n' && Chomp("a\n") == "a";
  }

  /** What names may be made of, and how long they may be. */
  lemma NamesMayBe(s: string)
    ensures 1 <= |s| <= 64 && (forall i | 0 <= i < |s| :: AlphaNum(s[i])) ==> HostName(s) && BotName(s)
    ensures |s| == 0 || |s| > 64 ==> !HostName(s) && !BotName(s)
    ensures HostName(s) ==> s[0] !in "._-" && forall i | 0 <= i < |s| :: s[i] !in "/ :\n"
    ensures BotName(s) ==> forall i | 0 <= i < |s| :: s[i] !in "._/ :\n"
    ensures ValidTransferId(s) ==> 16 <= |s| <= 17
    ensures ValidSecret(s) ==> 64 <= |s| <= 65
    ensures forall n: nat | HexOf(s, n) :: forall i | 0 <= i < |s| :: s[i] in "0123456789abcdef"
  {
  }

  lemma NameSamples()
    ensures HostName("mini-2.lan_a") && BotName("12-ab") && !BotName("a.b") && HexOf("0123456789abcdef", 16)
    ensures !HexOf("0123456789abcdeF", 16)
  {
    assert "a.b"[1] == '.' && "0123456789abcdeF"[15] == 'F';
  }

  // ---- Manifests and receipts -----------------------------------------------

  const MANIFEST_VERSION := 1

  datatype CommitHash = HashOf(secret: string)

  datatype Terms = Terms(
    version: nat, botId: string, source: string, destination: string, epoch: nat,
    transferId: string, checkpoint: nat, commitHash: CommitHash)

  datatype Digest = DigestOf(terms: Terms)

  datatype Manifest = Manifest(terms: Terms, digest: Digest)

  datatype Receipt = Receipt(transferId: string, epoch: nat, digest: Digest, secret: string)

  predicate ValidManifest(m: Manifest) {
    && m.terms.version == MANIFEST_VERSION
    && ValidBotId(m.terms.botId)
    && ValidHostId(m.terms.source)
    && ValidHostId(m.terms.destination)
    && m.terms.source != m.terms.destination
    && m.terms.epoch >= 2
    && ValidTransferId(m.terms.transferId)
    && m.digest == DigestOf(m.terms)
  }

  function ReceiptOf(m: Manifest, secret: string): Receipt {
    Receipt(m.terms.transferId, m.terms.epoch, m.digest, secret)
  }

  predicate ReceiptMatches(m: Manifest, r: Receipt) {
    && ValidSecret(r.secret)
    && r.transferId == m.terms.transferId
    && r.epoch == m.terms.epoch
    && r.digest == m.digest
    && HashOf(r.secret) == m.terms.commitHash
  }

  // ---- The journal ----------------------------------------------------------

  datatype Phase = Active | Fenced | Offered | Transferred | Standby | Staged {
    predicate Owner() {
      Active? || Fenced? || Offered?
    }

    predicate Transferring() {
      Offered? || Transferred? || Staged?
    }
  }

  datatype Transfer = Transfer(manifest: Manifest, secret: Option<string>)

  // `fence` holds `stop_preexisting`; an absent `conflict_stop` reads as false.
  datatype Journal = Journal(
    hostId: string, epoch: nat, phase: Phase, fence: Option<bool>,
    transfer: Option<Transfer>, conflict: bool)

  predicate ValidJournal(j: Journal) {
    && ValidHostId(j.hostId)
    && (j.phase.Owner() ==> j.epoch >= 1)
    && (j.phase.Active? <==> j.fence.None?)
    && (j.transfer.None? ==> !j.phase.Transferring())
    && (j.transfer.Some? ==>
          && (j.phase.Transferring() || j.phase.Active?)
          && ValidManifest(j.transfer.value.manifest)
          && (j.phase.Offered? || j.phase.Transferred? ==>
                j.transfer.value.secret.Some? && ValidSecret(j.transfer.value.secret.value)))
  }

  // ---- Updates and records --------------------------------------------------

  datatype Sender = Sender(isBot: bool, firstName: Option<string>)

  // A field is None when the code's isinstance test on it fails; a chat without an id is Some("").
  datatype Message = Message(
    chat: Option<string>, sender: Option<Sender>, text: Option<string>, date: Option<int>)

  datatype Update = Update(id: nat, message: Option<Message>)

  datatype Record = Record(id: nat, date: Option<int>, sender: Option<string>, text: string)

  predicate Eligible(u: Update, operator: string) {
    && u.message.Some?
    && var m := u.message.value;
    && m.chat == Some(operator)
    && m.sender.Some? && !m.sender.value.isBot
    && m.text.Some? && m.text.value != ""
  }

  function RecordOf(u: Update, operator: string): Record
    requires Eligible(u, operator)
  {
    var m := u.message.value;
    Record(u.id, m.date, m.sender.value.firstName, m.text.value)
  }

  /** A text message of a person in the operator's chat: what an update must be to be captured. */
  predicate FromOperator(u: Update, operator: string, m: Message, sender: Sender, text: string) {
    && u.message == Some(m) && m.chat == Some(operator)
    && m.sender == Some(sender) && !sender.isBot
    && m.text == Some(text) && text != ""
  }

  // Its record: the update's id, the date and text of the message, the sender's first name.
  predicate Reports(r: Record, u: Update, m: Message, sender: Sender, text: string) {
    r.id == u.id && r.date == m.date && r.sender == sender.firstName && r.text == text
  }

  lemma EligibleMeans(u: Update, operator: string)
    ensures Eligible(u, operator) <==> exists m, sender, text :: FromOperator(u, operator, m, sender, text)
    ensures forall m, sender, text | FromOperator(u, operator, m, sender, text) ::
              Eligible(u, operator) && Reports(RecordOf(u, operator), u, m, sender, text)
  {
    if Eligible(u, operator) {
      var m := u.message.value;
      assert FromOperator(u, operator, m, m.sender.value, m.text.value);
    }
  }

  // ---- The disk: every file of one host's state root -------------------------

  datatype StopFile = NoStop | OwnStop | ForeignStop

  datatype CheckpointFile = Missing | Garbled | Holds(value: nat)

  datatype Marker = Marker(epoch: nat, offset: nat)

  datatype Disk = Disk(
    journal: Option<Journal>, checkpoint: CheckpointFile, stop: StopFile,
    marker: Option<Marker>, inbox: map<nat, Record>)

  // Why a journal is rewritten; a label of the model, not part of the file.
  datatype Move =
    Enrolling | Preparing | Fencing | Offering | Committing | Cancelling
  | Latching | Reconciling | Importing | Activating

  // One durable write; each lands entirely or not at all.
  datatype Write =
    | WJournal(move: Move, journal: Journal)
    | WCheckpoint(value: nat)
    | WStop
    | WUnstop
    | WMarker(marker: Marker)
    | WClear
    | WRecord(record: Record)

  function Apply(d: Disk, w: Write): Disk {
    match w
    case WJournal(_, j) => d.(journal := Some(j))
    case WCheckpoint(n) => d.(checkpoint := Holds(n))
    case WStop => d.(stop := OwnStop)
    case WUnstop => d.(stop := NoStop)
    case WMarker(m) => d.(marker := Some(m))
    case WClear => d.(marker := None)
    case WRecord(r) => d.(inbox := d.inbox[r.id := r])
  }

  function ApplyAll(d: Disk, ws: seq<Write>): Disk
    decreases |ws|
  {
    if ws == [] then d else ApplyAll(Apply(d, ws[0]), ws[1..])
  }

  lemma {:induction false} ApplyAllAppend(d: Disk, a: seq<Write>, b: seq<Write>)
    ensures ApplyAll(d, a + b) == ApplyAll(ApplyAll(d, a), b)
    decreases |a|
  {
    if a == [] {
      assert a + b == b;
    } else {
      assert (a + b)[1..] == a[1..] + b;
      ApplyAllAppend(Apply(d, a[0]), a[1..], b);
    }
  }

  // The writes that land when the process lives through `life` of them.
  function Landed(ws: seq<Write>, life: nat): seq<Write> {
    if life < |ws| then ws[..life] else ws
  }

  // At most three writes, one by one.
  lemma Prefixes(d: Disk, ws: seq<Write>, life: nat)
    requires |ws| <= 3
    ensures ApplyAll(d, Landed(ws, life))
         == if life == 0 || |ws| == 0 then d
            else if life == 1 || |ws| == 1 then Apply(d, ws[0])
            else if life == 2 || |ws| == 2 then Apply(Apply(d, ws[0]), ws[1])
            else Apply(Apply(Apply(d, ws[0]), ws[1]), ws[2])
  {
    var landed := Landed(ws, life);
    if |landed| == 1 {
      assert landed == [ws[0]];
    } else if |landed| == 2 {
      assert landed == [ws[0]] + [ws[1]];
      ApplyAllAppend(d, [ws[0]], [ws[1]]);
    } else if |landed| == 3 {
      assert landed == [ws[0]] + [ws[1]] + [ws[2]];
      ApplyAllAppend(d, [ws[0]], [ws[1]]);
      ApplyAllAppend(d, [ws[0]] + [ws[1]], [ws[2]]);
    }
  }
}
