/** The marker-block injector: known blocks of a document are rendered afresh, everything else
    is carried over line by line. */
module Injector {
  import opened Prelude

  // ---- Lines, as str::lines reads them -------------------------------------------

  predicate EndsCr(s: string) {
    s != "" && s[|s| - 1] == '\r'
  }

  function StripCr(s: string): string {
    if EndsCr(s) then s[..|s| - 1] else s
  }

  function LineEnd(s: string): (k: nat)
    ensures k <= |s|
    ensures k < |s| ==> s[k] == '\n'
    ensures forall i | 0 <= i < k :: s[i] != '\n'
  {
    if s == "" || s[0] == '\n' then 0 else 1 + LineEnd(s[1..])
  }

  // A line ends with LF or CRLF; a last line without an ending is kept as it is.
  function Lines(s: string): seq<string>
    decreases |s|
  {
    if s == "" then []
    else
      var k := LineEnd(s);
      if k == |s| then [s] else [StripCr(s[..k])] + Lines(s[k + 1..])
  }

  function Unlines(lines: seq<string>): string {
    if lines == [] then "" else lines[0] + "\n" + Unlines(lines[1..])
  }

  predicate NoNewline(s: string) {
    forall i | 0 <= i < |s| :: s[i] != '\n'
  }

  lemma LinesHead(l: string, rest: string)
    requires NoNewline(l)
    ensures Lines(l + "\n" + rest) == [StripCr(l)] + Lines(rest)
  {
    var s := l + "\n" + rest;
    assert s[|l|] == '\n' && s[..|l|] == l && s[|l| + 1..] == rest;
    assert forall i | 0 <= i < |l| :: s[i] == l[i];
    assert LineEnd(s) == |l|;
  }

  lemma FirstLine(a: string) returns (l: string, rest: string)
    requires a != "" && a[|a| - 1] == '\n'
    ensures NoNewline(l) && a == l + "\n" + rest && |rest| < |a|
    ensures rest == "" || rest[|rest| - 1] == '\n'
  {
    var k := LineEnd(a);
    l, rest := a[..k], a[k + 1..];
    assert a == a[..k] + [a[k]] + a[k + 1..];
  }

  lemma Regroup<T>(a: seq<T>, b: seq<T>, c: seq<T>)
    ensures a + b + c == a + (b + c)
  {
  }

  lemma LinesAppendStep(l: string, rest: string, b: string)
    requires NoNewline(l) && Lines(rest + b) == Lines(rest) + Lines(b)
    ensures Lines(l + "\n" + rest + b) == Lines(l + "\n" + rest) + Lines(b)
  {
    Regroup(l + "\n", rest, b);
    LinesHead(l, rest);
    LinesHead(l, rest + b);
    Regroup([StripCr(l)], Lines(rest), Lines(b));
  }

  lemma {:induction false} LinesAppend(a: string, b: string)
    requires a == "" || a[|a| - 1] == '\n'
    ensures Lines(a + b) == Lines(a) + Lines(b)
    decreases |a|
  {
    if a == "" {
      assert a + b == b;
    } else {
      var l, rest := FirstLine(a);
      LinesAppend(rest, b);
      LinesAppendStep(l, rest, b);
    }
  }

  lemma {:induction false} LinesAreLines(s: string)
    ensures forall i | 0 <= i < |Lines(s)| :: NoNewline(Lines(s)[i])
    decreases |s|
  {
    if s != "" && LineEnd(s) < |s| {
      LinesAreLines(s[LineEnd(s) + 1..]);
    }
  }

  // ---- Markers ---------------------------------------------------------------------

  // Unicode White_Space, as char::is_whitespace decides it.
  predicate White(c: char) {
    || '\U{0009}' <= c <= '\U{000D}' || c == ' ' || c == '\U{0085}' || c == '\U{00A0}' || c == '\U{1680}'
    || '\U{2000}' <= c <= '\U{200A}' || c == '\U{2028}' || c == '\U{2029}' || c == '\U{202F}'
    || c == '\U{205F}' || c == '\U{3000}'
  }

  function TrimStart(s: string): string {
    if s != "" && White(s[0]) then TrimStart(s[1..]) else s
  }

  function TrimEnd(s: string): string {
    if s != "" && White(s[|s| - 1]) then TrimEnd(s[..|s| - 1]) else s
  }

  function Trim(s: string): string {
    TrimEnd(TrimStart(s))
  }

  function WordOf(s: string): string {
    if s == "" || White(s[0]) then "" else [s[0]] + WordOf(s[1..])
  }

  const BEGIN_PREFIX := "<!-- gen:begin "

  const TAIL_HEAD := " — bloc généré par "
  const TAIL_TOOL := "`cargo xtask gen-api-ref`"
  const TAIL_REPO := " (repo cosmon) depuis "
  const CANON_CRATE := "crates/cosmon-rpp-adapter"
  const CANON_FILE := "/data/surface_events.txt"
  const TAIL_END := " ; NE PAS éditer à la main -->"

  const BEGIN_TAIL := TAIL_HEAD + (TAIL_TOOL + (TAIL_REPO + (CANON_CRATE + (CANON_FILE + TAIL_END))))

  function BeginMarker(name: string): string {
    BEGIN_PREFIX + (name + BEGIN_TAIL)
  }

  function EndMarker(name: string): string {
    "<!-- gen:end " + name + " -->"
  }

  predicate IsBegin(line: string) {
    BEGIN_PREFIX <= TrimStart(line)
  }

  // The first word behind the prefix, or nothing.
  function NameIn(line: string): string
    requires IsBegin(line)
  {
    WordOf(TrimStart(TrimStart(line)[|BEGIN_PREFIX|..]))
  }

  // ---- The document, segment by segment -----------------------------------------------

  datatype Block = Block(name: string, content: string)

  function Content(blocks: seq<Block>, name: string): Option<string> {
    if blocks == [] then None
    else if blocks[0].name == name then Some(blocks[0].content)
    else Content(blocks[1..], name)
  }

  datatype Segment = Prose(line: string) | Generated(begin: string, name: string, body: seq<string>, end: string)

  /** What a document is made of: lines that begin no block, and known blocks that run from a begin
      marker to the first line that is their end marker. */
  predicate Good(seg: Segment, blocks: seq<Block>) {
    match seg
    case Prose(line) => !IsBegin(line)
    case Generated(begin, name, body, end) =>
      && IsBegin(begin) && NameIn(begin) == name && Content(blocks, name).Some?
      && Trim(end) == EndMarker(name)
      && forall i | 0 <= i < |body| :: Trim(body[i]) != EndMarker(name)
  }

  predicate AllGood(segs: seq<Segment>, blocks: seq<Block>) {
    forall i | 0 <= i < |segs| :: Good(segs[i], blocks)
  }

  function LinesOf(seg: Segment): seq<string> {
    match seg
    case Prose(line) => [line]
    case Generated(begin, _, body, end) => [begin] + body + [end]
  }

  function Flatten(segs: seq<Segment>): seq<string> {
    if segs == [] then [] else LinesOf(segs[0]) + Flatten(segs[1..])
  }

  function RenderOne(seg: Segment, blocks: seq<Block>): string {
    match seg
    case Prose(line) => line + "\n"
    case Generated(_, name, _, _) =>
      BeginMarker(name) + "\n" + Content(blocks, name).GetOr("") + EndMarker(name) + "\n"
  }

  function Render(segs: seq<Segment>, blocks: seq<Block>): string {
    if segs == [] then "" else RenderOne(segs[0], blocks) + Render(segs[1..], blocks)
  }

  predicate Occurs(segs: seq<Segment>, name: string) {
    exists i | 0 <= i < |segs| :: segs[i].Generated? && segs[i].name == name
  }

  predicate AllOccur(segs: seq<Segment>, blocks: seq<Block>) {
    forall i | 0 <= i < |blocks| :: Occurs(segs, blocks[i].name)
  }

  datatype Failure = UnknownBlock(name: string) | Unterminated(name: string) | MissingBlock(name: string)

  // ---- Reading a document -----------------------------------------------------------

  function FindEnd(lines: seq<string>, end: string): (k: nat)
    ensures k <= |lines|
    ensures k < |lines| ==> Trim(lines[k]) == end
    ensures forall i | 0 <= i < k :: Trim(lines[i]) != end
  {
    if lines == [] || Trim(lines[0]) == end then 0 else 1 + FindEnd(lines[1..], end)
  }

  function Behind(seg: Segment, rest: Result<seq<Segment>, Failure>): Result<seq<Segment>, Failure> {
    match rest
    case Err(e) => Err(e)
    case Ok(segs) => Ok([seg] + segs)
  }

  function Parse(lines: seq<string>, blocks: seq<Block>): Result<seq<Segment>, Failure>
    decreases |lines|
  {
    if lines == [] then Ok([])
    else if !IsBegin(lines[0]) then Behind(Prose(lines[0]), Parse(lines[1..], blocks))
    else
      var name := NameIn(lines[0]);
      if Content(blocks, name).None? then Err(UnknownBlock(name))
      else
        var k := FindEnd(lines[1..], EndMarker(name));
        if k == |lines| - 1 then Err(Unterminated(name))
        else Behind(Generated(lines[0], name, lines[1..k + 1], lines[k + 1]), Parse(lines[k + 2..], blocks))
  }

  function FirstMissing(segs: seq<Segment>, blocks: seq<Block>): Option<string> {
    if blocks == [] then None
    else if !Occurs(segs, blocks[0].name) then Some(blocks[0].name)
    else FirstMissing(segs, blocks[1..])
  }

  function Injected(document: string, blocks: seq<Block>): Result<string, Failure> {
    match Parse(Lines(document), blocks)
    case Err(e) => Err(e)
    case Ok(segs) =>
      match FirstMissing(segs, blocks)
      case Some(name) => Err(MissingBlock(name))
      case None => Ok(Render(segs, blocks))
  }

  lemma {:induction false} MissingMeans(segs: seq<Segment>, blocks: seq<Block>)
    ensures FirstMissing(segs, blocks).None? <==> AllOccur(segs, blocks)
    decreases |blocks|
  {
    if blocks != [] {
      MissingMeans(segs, blocks[1..]);
      assert forall i | 1 <= i < |blocks| :: blocks[i] == blocks[1..][i - 1];
    }
  }

  lemma ParseProse(line: string, rest: seq<string>, blocks: seq<Block>)
    requires !IsBegin(line)
    ensures Parse([line] + rest, blocks) == Behind(Prose(line), Parse(rest, blocks))
  {
    assert ([line] + rest)[1..] == rest;
  }

  lemma GeneratedSlices(begin: string, body: seq<string>, end: string, rest: seq<string>)
    ensures var lines := [begin] + body + [end] + rest;
            && lines[0] == begin && lines[1..] == body + [end] + rest
            && lines[1..|body| + 1] == body && lines[|body| + 1] == end && lines[|body| + 2..] == rest
  {
  }

  lemma ParseGenerated(seg: Segment, rest: seq<string>, blocks: seq<Block>)
    requires seg.Generated? && Good(seg, blocks)
    ensures Parse(LinesOf(seg) + rest, blocks) == Behind(seg, Parse(rest, blocks))
  {
    GeneratedSlices(seg.begin, seg.body, seg.end, rest);
    EndFound(seg.body, seg.end, rest, EndMarker(seg.name));
  }

  // What is read is what is there.
  lemma {:induction false} ParseSound(lines: seq<string>, blocks: seq<Block>)
    ensures Parse(lines, blocks).Ok? ==>
              AllGood(Parse(lines, blocks).value, blocks) && Flatten(Parse(lines, blocks).value) == lines
    decreases |lines|
  {
    if lines != [] && Parse(lines, blocks).Ok? {
      if !IsBegin(lines[0]) {
        ParseSound(lines[1..], blocks);
        FlattenBehind(Prose(lines[0]), Parse(lines[1..], blocks).value, blocks);
        assert lines == [lines[0]] + lines[1..];
      } else {
        var k := FindEnd(lines[1..], EndMarker(NameIn(lines[0])));
        assert lines[0..] == lines;
        ReadBlock(lines, 0, blocks, k);
        StaleIsGood(lines, blocks, k);
        ParseSound(lines[k + 2..], blocks);
        FlattenBehind(StaleBlock(lines, 0, k + 2), Parse(lines[k + 2..], blocks).value, blocks);
        SplitLines(lines, k);
      }
    }
  }

  lemma StaleIsGood(lines: seq<string>, blocks: seq<Block>, k: nat)
    requires lines != [] && IsBegin(lines[0]) && Content(blocks, NameIn(lines[0])).Some?
    requires k == FindEnd(lines[1..], EndMarker(NameIn(lines[0]))) && k < |lines| - 1
    ensures Good(StaleBlock(lines, 0, k + 2), blocks)
  {
    assert lines[1..][k] == lines[k + 1];
    assert forall i | 0 <= i < k :: lines[1..k + 1][i] == lines[1..][i];
  }

  lemma SplitLines(lines: seq<string>, k: nat)
    requires k + 1 < |lines|
    ensures lines == [lines[0]] + lines[1..k + 1] + [lines[k + 1]] + lines[k + 2..]
  {
  }

  lemma FlattenBehind(seg: Segment, segs: seq<Segment>, blocks: seq<Block>)
    requires AllGood(segs, blocks) && Good(seg, blocks)
    ensures AllGood([seg] + segs, blocks) && Flatten([seg] + segs) == LinesOf(seg) + Flatten(segs)
  {
    assert ([seg] + segs)[1..] == segs;
  }

  // What is there is read, and in one way only.
  lemma {:induction false} ParseComplete(segs: seq<Segment>, blocks: seq<Block>)
    requires AllGood(segs, blocks)
    ensures Parse(Flatten(segs), blocks) == Ok(segs)
    decreases |segs|
  {
    if segs != [] {
      GoodTail(segs, blocks);
      ParseComplete(segs[1..], blocks);
      ParseFlatten(segs[0], segs[1..], blocks);
      assert segs == [segs[0]] + segs[1..];
    }
  }

  lemma GoodTail(segs: seq<Segment>, blocks: seq<Block>)
    requires AllGood(segs, blocks) && segs != []
    ensures Good(segs[0], blocks) && AllGood(segs[1..], blocks)
  {
  }

  lemma ParseFlatten(seg: Segment, segs: seq<Segment>, blocks: seq<Block>)
    requires Good(seg, blocks) && Parse(Flatten(segs), blocks) == Ok(segs)
    ensures Parse(LinesOf(seg) + Flatten(segs), blocks) == Ok([seg] + segs)
  {
    ParseStep(seg, Flatten(segs), blocks);
  }

  lemma ParseStep(seg: Segment, rest: seq<string>, blocks: seq<Block>)
    requires Good(seg, blocks)
    ensures Parse(LinesOf(seg) + rest, blocks) == Behind(seg, Parse(rest, blocks))
  {
    if seg.Prose? {
      ParseProse(seg.line, rest, blocks);
    } else {
      ParseGenerated(seg, rest, blocks);
    }
  }

  lemma {:induction false} EndFound(body: seq<string>, end: string, rest: seq<string>, marker: string)
    requires Trim(end) == marker && forall i | 0 <= i < |body| :: Trim(body[i]) != marker
    ensures FindEnd(body + [end] + rest, marker) == |body|
  {
    var lines := body + [end] + rest;
    assert forall i | 0 <= i < |body| :: lines[i] == body[i];
    assert lines[|body|] == end;
  }

  /** Injection succeeds exactly when the document is made of prose and known, terminated blocks,
      and every block occurs at least once; it then renders that very reading. */
  lemma InjectedMeans(document: string, blocks: seq<Block>, out: string)
    ensures Injected(document, blocks) == Ok(out) <==>
            exists segs :: AllGood(segs, blocks) && Flatten(segs) == Lines(document)
                           && AllOccur(segs, blocks) && out == Render(segs, blocks)
  {
    var lines := Lines(document);
    ParseSound(lines, blocks);
    if Parse(lines, blocks).Ok? {
      MissingMeans(Parse(lines, blocks).value, blocks);
    }
    forall segs | AllGood(segs, blocks) && Flatten(segs) == lines
      ensures Parse(lines, blocks) == Ok(segs)
    {
      ParseComplete(segs, blocks);
    }
  }

  // ---- The injector as it runs -----------------------------------------------------

  function Before(done: seq<Segment>, rest: Result<seq<Segment>, Failure>): Result<seq<Segment>, Failure> {
    match rest
    case Err(e) => Err(e)
    case Ok(segs) => Ok(done + segs)
  }

  lemma BeforeNothing(rest: Result<seq<Segment>, Failure>)
    ensures Before([], rest) == rest
  {
    if rest.Ok? {
      assert [] + rest.value == rest.value;
    }
  }

  lemma BeforeBehind(done: seq<Segment>, seg: Segment, rest: Result<seq<Segment>, Failure>)
    ensures Before(done, Behind(seg, rest)) == Before(done + [seg], rest)
  {
    if rest.Ok? {
      assert done + ([seg] + rest.value) == done + [seg] + rest.value;
    }
  }

  lemma {:induction false} RenderAppend(a: seq<Segment>, b: seq<Segment>, blocks: seq<Block>)
    ensures Render(a + b, blocks) == Render(a, blocks) + Render(b, blocks)
    decreases |a|
  {
    if a == [] {
      assert a + b == b;
    } else {
      assert (a + b)[1..] == a[1..] + b;
      RenderAppend(a[1..], b, blocks);
      Regroup(RenderOne(a[0], blocks), Render(a[1..], blocks), Render(b, blocks));
    }
  }

  lemma RenderSnoc(done: seq<Segment>, seg: Segment, blocks: seq<Block>)
    ensures Render(done + [seg], blocks) == Render(done, blocks) + RenderOne(seg, blocks)
  {
    RenderAppend(done, [seg], blocks);
    assert [seg][1..] == [];
  }

  predicate SeenIn(seen: seq<string>, segs: seq<Segment>) {
    && (forall name | name in seen :: Occurs(segs, name))
    && (forall i | 0 <= i < |segs| && segs[i].Generated? :: segs[i].name in seen)
  }

  lemma SeenGrows(seen: seq<string>, segs: seq<Segment>, seg: Segment)
    requires SeenIn(seen, segs)
    ensures SeenIn(if seg.Generated? then seen + [seg.name] else seen, segs + [seg])
  {
    forall name | Occurs(segs, name) ensures Occurs(segs + [seg], name) {
      var i :| 0 <= i < |segs| && segs[i].Generated? && segs[i].name == name;
      assert (segs + [seg])[i] == segs[i];
    }
    assert (segs + [seg])[|segs|] == seg;
  }

  // Skips the stale body, up to and including the end marker.
  method SkipBody(lines: seq<string>, i: nat, end: string) returns (j: nat, terminated: bool)
    requires i <= |lines|
    ensures var k := FindEnd(lines[i..], end);
            terminated == (k < |lines| - i) && (terminated ==> j == i + k + 1)
  {
    j, terminated := i, false;
    while j < |lines|
      invariant i <= j <= |lines|
      invariant forall m | i <= m < j :: Trim(lines[m]) != end
    {
      var k := FindEnd(lines[i..], end);
      if Trim(lines[j]) == end {
        assert lines[i..][j - i] == lines[j];
        assert k < |lines| - i ==> lines[i..][k] == lines[i + k];
        return j + 1, true;
      }
      j := j + 1;
    }
    assert forall m | 0 <= m < |lines[i..]| :: lines[i..][m] == lines[i + m];
  }

  method FirstUnseen(seen: seq<string>, ghost segs: seq<Segment>, blocks: seq<Block>) returns (missing: Option<string>)
    requires SeenIn(seen, segs)
    ensures missing == FirstMissing(segs, blocks)
  {
    missing := None;
    for i := 0 to |blocks|
      invariant FirstMissing(segs, blocks) == FirstMissing(segs, blocks[i..])
    {
      if blocks[i].name !in seen {
        return Some(blocks[i].name);
      }
      assert blocks[i..][0] == blocks[i] && blocks[i..][1..] == blocks[i + 1..];
    }
  }

  lemma ReadProse(lines: seq<string>, i: nat, blocks: seq<Block>)
    requires i < |lines| && !IsBegin(lines[i])
    ensures Parse(lines[i..], blocks) == Behind(Prose(lines[i]), Parse(lines[i + 1..], blocks))
  {
    assert lines[i..][0] == lines[i] && lines[i..][1..] == lines[i + 1..];
  }

  // The block that begins on line i and ends before line j.
  function StaleBlock(lines: seq<string>, i: nat, j: nat): Segment
    requires i + 1 < j <= |lines| && IsBegin(lines[i])
  {
    Generated(lines[i], NameIn(lines[i]), lines[i + 1..j - 1], lines[j - 1])
  }

  lemma TailSlices(lines: seq<string>, i: nat, k: nat)
    requires i + k + 1 < |lines|
    ensures var t := lines[i..];
            && t[1..k + 1] == lines[i + 1..i + k + 1] && t[k + 1] == lines[i + k + 1] && t[k + 2..] == lines[i + k + 2..]
  {
  }

  lemma TailHead(lines: seq<string>, i: nat)
    requires i < |lines|
    ensures lines[i..][0] == lines[i] && lines[i..][1..] == lines[i + 1..]
  {
  }

  lemma ReadBlock(lines: seq<string>, i: nat, blocks: seq<Block>, k: nat)
    requires i < |lines| && IsBegin(lines[i]) && Content(blocks, NameIn(lines[i])).Some?
    requires k == FindEnd(lines[i + 1..], EndMarker(NameIn(lines[i])))
    ensures k == |lines| - i - 1 ==> Parse(lines[i..], blocks) == Err(Unterminated(NameIn(lines[i])))
    ensures k < |lines| - i - 1 ==>
              Parse(lines[i..], blocks) == Behind(StaleBlock(lines, i, i + k + 2), Parse(lines[i + k + 2..], blocks))
  {
    TailHead(lines, i);
    if k < |lines| - i - 1 {
      TailSlices(lines, i, k);
    }
  }

  lemma ReadUnknown(lines: seq<string>, i: nat, blocks: seq<Block>)
    requires i < |lines| && IsBegin(lines[i]) && Content(blocks, NameIn(lines[i])).None?
    ensures Parse(lines[i..], blocks) == Err(UnknownBlock(NameIn(lines[i])))
  {
    assert lines[i..][0] == lines[i];
  }

  // The reading of the whole document goes on behind one more segment.
  lemma ReadOn(done: seq<Segment>, seg: Segment, lines: seq<string>, i: nat, j: nat, blocks: seq<Block>)
    requires i < |lines| && j <= |lines|
    requires Parse(lines, blocks) == Before(done, Parse(lines[i..], blocks))
    requires Parse(lines[i..], blocks) == Behind(seg, Parse(lines[j..], blocks))
    ensures Parse(lines, blocks) == Before(done + [seg], Parse(lines[j..], blocks))
  {
    BeforeBehind(done, seg, Parse(lines[j..], blocks));
  }

  lemma ReadSkipped(lines: seq<string>, i: nat, blocks: seq<Block>, j: nat, terminated: bool)
    requires i < |lines| && IsBegin(lines[i]) && Content(blocks, NameIn(lines[i])).Some?
    requires var k := FindEnd(lines[i + 1..], EndMarker(NameIn(lines[i])));
             terminated == (k < |lines| - (i + 1)) && (terminated ==> j == i + 1 + k + 1)
    ensures !terminated ==> Parse(lines[i..], blocks) == Err(Unterminated(NameIn(lines[i])))
    ensures terminated ==>
              && i + 1 < j <= |lines|
              && Parse(lines[i..], blocks) == Behind(StaleBlock(lines, i, j), Parse(lines[j..], blocks))
  {
    ReadBlock(lines, i, blocks, FindEnd(lines[i + 1..], EndMarker(NameIn(lines[i]))));
  }

  // The block that begins on line i: its fresh text, and the line behind it.
  method RenderBlock(lines: seq<string>, i: nat, blocks: seq<Block>) returns (r: Result<(string, nat), Failure>)
    requires i < |lines| && IsBegin(lines[i])
    ensures r.Err? ==> Parse(lines[i..], blocks) == Err(r.error)
    ensures r.Ok? ==>
              var (text, j) := r.value;
              && i + 1 < j <= |lines| && text == RenderOne(StaleBlock(lines, i, j), blocks)
              && Parse(lines[i..], blocks) == Behind(StaleBlock(lines, i, j), Parse(lines[j..], blocks))
  {
    var name := NameIn(lines[i]);
    var content := Content(blocks, name);
    if content.None? {
      ReadUnknown(lines, i, blocks);
      return Err(UnknownBlock(name));
    }
    var end := EndMarker(name);
    var text := BeginMarker(name) + "\n" + content.value + end + "\n";
    var j, terminated := SkipBody(lines, i + 1, end);
    ReadSkipped(lines, i, blocks, j, terminated);
    if !terminated { return Err(Unterminated(name)); }
    BlockText(StaleBlock(lines, i, j), blocks);
    return Ok((text, j));
  }

  lemma BlockText(seg: Segment, blocks: seq<Block>)
    requires seg.Generated? && Content(blocks, seg.name).Some?
    ensures RenderOne(seg, blocks)
         == BeginMarker(seg.name) + "\n" + Content(blocks, seg.name).value + EndMarker(seg.name) + "\n"
  {
  }

  method Inject(document: string, blocks: seq<Block>) returns (r: Result<string, Failure>)
    ensures r == Injected(document, blocks)
  {
    var lines := Lines(document);
    var out, seen, i := "", [], 0;
    ghost var segs: seq<Segment> := [];
    assert lines[0..] == lines;
    BeforeNothing(Parse(lines, blocks));
    while i < |lines|
      invariant 0 <= i <= |lines|
      invariant Parse(lines, blocks) == Before(segs, Parse(lines[i..], blocks))
      invariant out == Render(segs, blocks)
      invariant SeenIn(seen, segs)
    {
      ghost var start, seg := i, Prose(lines[i]);
      if IsBegin(lines[i]) {
        var block := RenderBlock(lines, i, blocks);
        if block.Err? { return Err(block.error); }
        seg := StaleBlock(lines, i, block.value.1);
        SeenGrows(seen, segs, seg);
        seen := seen + [NameIn(lines[i])];
        out, i := out + block.value.0, block.value.1;
      } else {
        ReadProse(lines, i, blocks);
        SeenGrows(seen, segs, seg);
        out, i := out + (lines[i] + "\n"), i + 1;
      }
      ReadOn(segs, seg, lines, start, i, blocks);
      RenderSnoc(segs, seg, blocks);
      segs := segs + [seg];
    }
    InjectedIs(document, blocks, segs);
    var missing := FirstUnseen(seen, segs, blocks);
    return if missing.Some? then Err(MissingBlock(missing.value)) else Ok(out);
  }

  lemma InjectedIs(document: string, blocks: seq<Block>, segs: seq<Segment>)
    requires Parse(Lines(document), blocks) == Before(segs, Parse(Lines(document)[|Lines(document)|..], blocks))
    ensures Injected(document, blocks) ==
            match FirstMissing(segs, blocks)
            case Some(name) => Err(MissingBlock(name))
            case None => Ok(Render(segs, blocks))
  {
    assert Lines(document)[|Lines(document)|..] == [] && segs + [] == segs;
  }

  // ---- What the output says, block by block --------------------------------------------

  /** The content rendered for a name is that of the first block of this name, if there is one. */
  lemma {:induction false} ContentIsFirst(blocks: seq<Block>, i: nat)
    requires i < |blocks| && forall k | 0 <= k < i :: blocks[k].name != blocks[i].name
    ensures Content(blocks, blocks[i].name) == Some(blocks[i].content)
    decreases i
  {
    if i > 0 {
      assert forall k | 0 <= k < i - 1 :: blocks[1..][k] == blocks[k + 1];
      ContentIsFirst(blocks[1..], i - 1);
    }
  }

  lemma {:induction false} ContentIsNone(blocks: seq<Block>, name: string)
    ensures Content(blocks, name) == None <==> forall i | 0 <= i < |blocks| :: blocks[i].name != name
    decreases |blocks|
  {
    if blocks != [] {
      ContentIsNone(blocks[1..], name);
      assert forall i | 0 <= i < |blocks[1..]| :: blocks[1..][i] == blocks[i + 1];
      assert forall i | 1 <= i < |blocks| :: blocks[i] == blocks[1..][i - 1];
    }
  }

  // The first block of a name.
  predicate FirstNamed(blocks: seq<Block>, i: int) {
    0 <= i < |blocks| && forall k | 0 <= k < i :: blocks[k].name != blocks[i].name
  }

  lemma {:induction false} FirstOf(blocks: seq<Block>, name: string) returns (i: nat)
    requires Content(blocks, name).Some?
    ensures FirstNamed(blocks, i) && blocks[i].name == name && Content(blocks, name) == Some(blocks[i].content)
    decreases |blocks|
  {
    if blocks[0].name == name {
      i := 0;
    } else {
      var k := FirstOf(blocks[1..], name);
      i := k + 1;
      assert forall m | 1 <= m < i :: blocks[m] == blocks[1..][m - 1];
    }
  }

  function Join(pieces: seq<string>): string {
    if pieces == [] then "" else pieces[0] + Join(pieces[1..])
  }

  lemma Unnest(p: string, n: string, a: string, b: string, c: string, d: string, e: string, f: string)
    ensures p + (n + (a + (b + (c + (d + (e + f)))))) == p + n + a + b + c + d + e + f
  {
  }

  /** The marker lines, letter by letter. */
  lemma MarkersSay(name: string)
    ensures BeginMarker(name)
         == "<!-- gen:begin " + name + " — bloc généré par " + "`cargo xtask gen-api-ref`" + " (repo cosmon) depuis "
            + "crates/cosmon-rpp-adapter" + "/data/surface_events.txt" + " ; NE PAS éditer à la main -->"
    ensures EndMarker(name) == "<!-- gen:end " + name + " -->"
  {
    Unnest("<!-- gen:begin ", name, " — bloc généré par ", "`cargo xtask gen-api-ref`", " (repo cosmon) depuis ",
           "crates/cosmon-rpp-adapter", "/data/surface_events.txt", " ; NE PAS éditer à la main -->");
  }

  // Piece k of the output is what segment k of the document has become: a line of prose and LF, or
  // between its two marker lines exactly the content of the first block of that name.
  predicate Becomes(seg: Segment, blocks: seq<Block>, piece: string) {
    match seg
    case Prose(line) => piece == line + "\n"
    case Generated(_, name, _, _) =>
      exists i | 0 <= i < |blocks| ::
        && FirstNamed(blocks, i) && blocks[i].name == name
        && piece == BeginMarker(name) + "\n" + blocks[i].content + EndMarker(name) + "\n"
  }

  lemma RenderOneBecomes(seg: Segment, blocks: seq<Block>)
    requires Good(seg, blocks)
    ensures Becomes(seg, blocks, RenderOne(seg, blocks))
  {
    if seg.Generated? {
      var i := FirstOf(blocks, seg.name);
      BlockText(seg, blocks);
    }
  }

  lemma {:induction false} RenderBecomes(segs: seq<Segment>, blocks: seq<Block>) returns (pieces: seq<string>)
    requires AllGood(segs, blocks)
    ensures |pieces| == |segs| && Render(segs, blocks) == Join(pieces)
    ensures forall k | 0 <= k < |segs| :: Becomes(segs[k], blocks, pieces[k])
    decreases |segs|
  {
    if segs == [] {
      pieces := [];
    } else {
      GoodTail(segs, blocks);
      var rest := RenderBecomes(segs[1..], blocks);
      RenderOneBecomes(segs[0], blocks);
      pieces := [RenderOne(segs[0], blocks)] + rest;
      assert pieces[1..] == rest;
      assert forall k | 1 <= k < |segs| :: segs[k] == segs[1..][k - 1];
    }
  }

  /** The output of the injector, piece by piece: the document's segments in order, each line of
      prose with LF, each block between its markers with its own content. */
  lemma OutputIsPieces(document: string, blocks: seq<Block>, out: string) returns (segs: seq<Segment>, pieces: seq<string>)
    requires Injected(document, blocks) == Ok(out)
    ensures AllGood(segs, blocks) && Flatten(segs) == Lines(document)
    ensures |pieces| == |segs| && out == Join(pieces)
    ensures forall k | 0 <= k < |segs| :: Becomes(segs[k], blocks, pieces[k])
  {
    segs := Parse(Lines(document), blocks).value;
    ParseSound(Lines(document), blocks);
    pieces := RenderBecomes(segs, blocks);
  }

  /** An error names its cause: a begin marker of no known block, a known one that is not ended, or
      a block that occurs nowhere. */
  lemma ErrorNamesCause(document: string, blocks: seq<Block>, e: Failure)
    requires Injected(document, blocks) == Err(e)
    ensures match e
            case UnknownBlock(name) =>
              (forall i | 0 <= i < |blocks| :: blocks[i].name != name) && BeginsBlock(Lines(document), name)
            case Unterminated(name) =>
              (exists i | 0 <= i < |blocks| :: blocks[i].name == name) && BeginsBlock(Lines(document), name)
            case MissingBlock(name) =>
              (exists i | 0 <= i < |blocks| :: blocks[i].name == name)
              && Parse(Lines(document), blocks).Ok? && !Occurs(Parse(Lines(document), blocks).value, name)
  {
    if Parse(Lines(document), blocks).Ok? {
      MissingIsNamed(Parse(Lines(document), blocks).value, blocks);
    } else {
      ParseErrorNames(Lines(document), blocks);
      ContentIsNone(blocks, e.name);
    }
  }

  predicate BeginsBlock(lines: seq<string>, name: string) {
    exists i | 0 <= i < |lines| :: IsBegin(lines[i]) && NameIn(lines[i]) == name
  }

  lemma {:induction false} MissingIsNamed(segs: seq<Segment>, blocks: seq<Block>)
    ensures FirstMissing(segs, blocks).Some? ==>
              var name := FirstMissing(segs, blocks).value;
              !Occurs(segs, name) && exists i | 0 <= i < |blocks| :: blocks[i].name == name
    decreases |blocks|
  {
    if blocks != [] && Occurs(segs, blocks[0].name) {
      MissingIsNamed(segs, blocks[1..]);
      assert forall i | 0 <= i < |blocks[1..]| :: blocks[1..][i] == blocks[i + 1];
    }
  }

  lemma {:induction false} ParseErrorNames(lines: seq<string>, blocks: seq<Block>)
    ensures Parse(lines, blocks).Err? ==>
              var e := Parse(lines, blocks).error;
              && (e.UnknownBlock? ==> Content(blocks, e.name) == None) && !e.MissingBlock?
              && (e.Unterminated? ==> Content(blocks, e.name).Some?)
              && BeginsBlock(lines, e.name)
    decreases |lines|
  {
    if lines != [] {
      if !IsBegin(lines[0]) {
        ParseErrorNames(lines[1..], blocks);
        BeginsLater(lines, 1);
      } else if Content(blocks, NameIn(lines[0])).Some? {
        var k := FindEnd(lines[1..], EndMarker(NameIn(lines[0])));
        if k < |lines| - 1 {
          ParseErrorNames(lines[k + 2..], blocks);
          BeginsLater(lines, k + 2);
        }
      }
    }
  }

  lemma BeginsLater(lines: seq<string>, n: nat)
    requires n <= |lines|
    ensures forall name | BeginsBlock(lines[n..], name) :: BeginsBlock(lines, name)
  {
    forall name | BeginsBlock(lines[n..], name) ensures BeginsBlock(lines, name) {
      var i :| 0 <= i < |lines[n..]| && IsBegin(lines[n..][i]) && NameIn(lines[n..][i]) == name;
      assert lines[n + i] == lines[n..][i];
    }
  }

  /** Markers count whatever white space stands around them. */
  lemma MarkersMayBeIndented(name: string, left: string, right: string)
    requires Word(name)
    requires forall i | 0 <= i < |left| :: White(left[i])
    requires forall i | 0 <= i < |right| :: White(right[i])
    ensures IsBegin(left + BeginMarker(name)) && NameIn(left + BeginMarker(name)) == name
    ensures Trim(left + EndMarker(name) + right) == EndMarker(name)
  {
    BeginReads(name);
    EndReads(name);
    SkipsLeft(left, BeginMarker(name));
    assert BeginMarker(name)[0] == '<';
    SkipsLeft(left, EndMarker(name) + right);
    assert EndMarker(name)[0] == '<' && EndMarker(name)[|EndMarker(name)| - 1] == '>';
    Regroup(left, EndMarker(name), right);
    SkipsRight(EndMarker(name), right);
  }

  lemma {:induction false} SkipsLeft(left: string, s: string)
    requires (forall i | 0 <= i < |left| :: White(left[i])) && s != "" && !White(s[0])
    ensures TrimStart(left + s) == s
    decreases |left|
  {
    if left == "" {
      assert left + s == s;
    } else {
      assert (left + s)[1..] == left[1..] + s;
      SkipsLeft(left[1..], s);
    }
  }

  lemma {:induction false} SkipsRight(s: string, right: string)
    requires (forall i | 0 <= i < |right| :: White(right[i])) && s != "" && !White(s[|s| - 1])
    ensures TrimEnd(s + right) == s
    decreases |right|
  {
    if right == "" {
      assert s + right == s;
    } else {
      assert (s + right)[..|s + right| - 1] == s + right[..|right| - 1];
      SkipsRight(s, right[..|right| - 1]);
    }
  }

  // ---- Injecting again -------------------------------------------------------------

  predicate Word(s: string) {
    s != "" && forall i | 0 <= i < |s| :: !White(s[i])
  }

  /** Blocks the generator can emit: a one-word name, and whole lines none of which reads as the
      block's own end marker. */
  predicate GoodBlock(name: string, content: string) {
    && Word(name)
    && (content == "" || content[|content| - 1] == '\n')
    && forall i | 0 <= i < |Lines(content)| :: Trim(Lines(content)[i]) != EndMarker(name)
  }

  predicate GoodBlocks(blocks: seq<Block>) {
    forall i | 0 <= i < |blocks| :: GoodBlock(blocks[i].name, blocks[i].content)
  }

  lemma {:induction false} ContentIsGood(blocks: seq<Block>, name: string)
    requires GoodBlocks(blocks) && Content(blocks, name).Some?
    ensures GoodBlock(name, Content(blocks, name).value)
    decreases |blocks|
  {
    if blocks[0].name != name {
      assert forall i | 0 <= i < |blocks[1..]| :: blocks[1..][i] == blocks[i + 1];
      ContentIsGood(blocks[1..], name);
    }
  }

  // What a rendered segment reads as.
  function Again(seg: Segment, blocks: seq<Block>): Segment {
    match seg
    case Prose(line) => Prose(StripCr(line))
    case Generated(_, name, _, _) =>
      Generated(BeginMarker(name), name, Lines(Content(blocks, name).GetOr("")), EndMarker(name))
  }

  function AgainAll(segs: seq<Segment>, blocks: seq<Block>): seq<Segment> {
    if segs == [] then [] else [Again(segs[0], blocks)] + AgainAll(segs[1..], blocks)
  }

  lemma {:induction false} WordBeforeSpace(name: string, tail: string)
    requires Word(name) && tail != "" && White(tail[0])
    ensures WordOf(name + tail) == name
    decreases |name|
  {
    assert (name + tail)[0] == name[0] && (name + tail)[1..] == name[1..] + tail;
    if |name| == 1 {
      assert name[1..] + tail == tail;
    } else {
      WordBeforeSpace(name[1..], tail);
    }
  }

  lemma PlainAppend(a: string, b: string)
    requires NoNewline(a) && NoNewline(b)
    ensures NoNewline(a + b)
  {
  }

  lemma TailIsPlain()
    ensures BEGIN_TAIL != "" && BEGIN_TAIL[0] == ' ' && BEGIN_TAIL[|BEGIN_TAIL| - 1] == '>'
    ensures NoNewline(BEGIN_TAIL)
  {
    assert NoNewline(TAIL_HEAD) && TAIL_HEAD[0] == ' ';
    assert NoNewline(TAIL_END) && TAIL_END[|TAIL_END| - 1] == '>';
    assert NoNewline(TAIL_TOOL);
    assert NoNewline(TAIL_REPO);
    assert NoNewline(CANON_CRATE);
    assert NoNewline(CANON_FILE);
    PlainAppend(CANON_FILE, TAIL_END);
    PlainAppend(CANON_CRATE, CANON_FILE + TAIL_END);
    PlainAppend(TAIL_REPO, CANON_CRATE + (CANON_FILE + TAIL_END));
    PlainAppend(TAIL_TOOL, TAIL_REPO + (CANON_CRATE + (CANON_FILE + TAIL_END)));
    PlainAppend(TAIL_HEAD, TAIL_TOOL + (TAIL_REPO + (CANON_CRATE + (CANON_FILE + TAIL_END))));
  }

  lemma BeginReads(name: string)
    requires Word(name)
    ensures IsBegin(BeginMarker(name)) && NameIn(BeginMarker(name)) == name
    ensures NoNewline(BeginMarker(name)) && !EndsCr(BeginMarker(name))
  {
    TailIsPlain();
    var line := BeginMarker(name);
    assert line[0] == '<';
    assert TrimStart(line) == line;
    assert line[|BEGIN_PREFIX|..] == name + BEGIN_TAIL;
    assert (name + BEGIN_TAIL)[0] == name[0];
    WordBeforeSpace(name, BEGIN_TAIL);
  }

  lemma EndReads(name: string)
    requires Word(name)
    ensures Trim(EndMarker(name)) == EndMarker(name)
    ensures NoNewline(EndMarker(name)) && !EndsCr(EndMarker(name))
  {
    var line := EndMarker(name);
    assert line[0] == '<' && line[|line| - 1] == '>';
  }

  lemma AgainIsGood(seg: Segment, blocks: seq<Block>)
    requires GoodBlocks(blocks) && Good(seg, blocks)
    requires seg.Prose? ==> NoNewline(seg.line)
    ensures Good(Again(seg, blocks), blocks)
    ensures forall rest :: Lines(RenderOne(seg, blocks) + rest) == LinesOf(Again(seg, blocks)) + Lines(rest)
  {
    match seg
    case Prose(line) =>
      StrippedIsProse(line);
      forall rest ensures Lines(RenderOne(seg, blocks) + rest) == [StripCr(line)] + Lines(rest) {
        LinesHead(line, rest);
      }
    case Generated(_, name, _, _) =>
      var content := Content(blocks, name).value;
      ContentIsGood(blocks, name);
      BeginReads(name);
      EndReads(name);
      forall rest ensures Lines(RenderOne(seg, blocks) + rest) == LinesOf(Again(seg, blocks)) + Lines(rest) {
        RenderedLines(BeginMarker(name), content, EndMarker(name), rest);
      }
  }

  lemma FlatText(begin: string, content: string, end: string, rest: string)
    ensures begin + "\n" + content + end + "\n" + rest == begin + "\n" + (content + (end + "\n" + rest))
  {
    var tail := end + "\n" + rest;
    assert content + end + "\n" + rest == content + tail;
    assert begin + "\n" + content + end + "\n" + rest == begin + "\n" + (content + end + "\n" + rest);
  }

  lemma FlatLines(begin: string, content: seq<string>, end: string, rest: seq<string>)
    ensures [begin] + (content + ([end] + rest)) == [begin] + content + [end] + rest
  {
  }

  lemma RenderedLines(begin: string, content: string, end: string, rest: string)
    requires NoNewline(begin) && !EndsCr(begin) && NoNewline(end) && !EndsCr(end)
    requires content == "" || content[|content| - 1] == '\n'
    ensures Lines(begin + "\n" + content + end + "\n" + rest) == [begin] + Lines(content) + [end] + Lines(rest)
  {
    var tail := end + "\n" + rest;
    FlatText(begin, content, end, rest);
    LinesHead(begin, content + tail);
    LinesAppend(content, tail);
    LinesHead(end, rest);
    FlatLines(begin, Lines(content), end, Lines(rest));
  }

  // Dropping a trailing CR never turns prose into a begin marker.
  lemma StrippedIsProse(line: string)
    ensures IsBegin(StripCr(line)) ==> IsBegin(line)
    decreases |line|
  {
    if EndsCr(line) {
      var s := StripCr(line);
      assert line == s + "\r";
      TrimStartAppend(s, "\r");
    }
  }

  lemma {:induction false} TrimStartAppend(s: string, tail: string)
    ensures TrimStart(s) != "" ==> TrimStart(s + tail) == TrimStart(s) + tail
    decreases |s|
  {
    if s != "" && White(s[0]) {
      assert (s + tail)[1..] == s[1..] + tail;
      TrimStartAppend(s[1..], tail);
    }
  }

  predicate PlainProse(segs: seq<Segment>) {
    forall i | 0 <= i < |segs| && segs[i].Prose? :: NoNewline(segs[i].line)
  }

  lemma {:induction false} FlattenIsPlain(segs: seq<Segment>)
    requires forall i | 0 <= i < |Flatten(segs)| :: NoNewline(Flatten(segs)[i])
    ensures PlainProse(segs)
    decreases |segs|
  {
    if segs != [] {
      var rest := Flatten(segs[1..]);
      assert Flatten(segs)[|LinesOf(segs[0])|..] == rest;
      assert forall i | 0 <= i < |rest| :: rest[i] == Flatten(segs)[|LinesOf(segs[0])| + i];
      FlattenIsPlain(segs[1..]);
      assert segs[0].Prose? ==> Flatten(segs)[0] == segs[0].line;
      assert forall i | 1 <= i < |segs| :: segs[i] == segs[1..][i - 1];
    }
  }

  // The output reads as the same segments, in the same order, rendered.
  lemma {:induction false} RenderReads(segs: seq<Segment>, blocks: seq<Block>)
    requires GoodBlocks(blocks) && AllGood(segs, blocks) && PlainProse(segs)
    ensures AllGood(AgainAll(segs, blocks), blocks)
    ensures Lines(Render(segs, blocks)) == Flatten(AgainAll(segs, blocks))
    decreases |segs|
  {
    if segs != [] {
      assert forall i | 0 <= i < |segs[1..]| :: segs[1..][i] == segs[i + 1];
      RenderReads(segs[1..], blocks);
      assert Good(segs[0], blocks);
      AgainIsGood(segs[0], blocks);
      FlattenBehind(Again(segs[0], blocks), AgainAll(segs[1..], blocks), blocks);
    }
  }

  lemma {:induction false} AgainKeepsNames(segs: seq<Segment>, blocks: seq<Block>)
    ensures |AgainAll(segs, blocks)| == |segs|
    ensures forall i | 0 <= i < |segs| :: AgainAll(segs, blocks)[i] == Again(segs[i], blocks)
    decreases |segs|
  {
    if segs != [] {
      AgainKeepsNames(segs[1..], blocks);
    }
  }

  lemma OccursAgain(segs: seq<Segment>, blocks: seq<Block>)
    requires AllOccur(segs, blocks)
    ensures AllOccur(AgainAll(segs, blocks), blocks)
  {
    AgainKeepsNames(segs, blocks);
    forall b | 0 <= b < |blocks| ensures Occurs(AgainAll(segs, blocks), blocks[b].name) {
      assert Occurs(segs, blocks[b].name);
      var i :| 0 <= i < |segs| && segs[i].Generated? && segs[i].name == blocks[b].name;
      assert AgainAll(segs, blocks)[i].Generated?;
    }
  }

  predicate CleanProse(segs: seq<Segment>) {
    forall i | 0 <= i < |segs| && segs[i].Prose? :: !EndsCr(segs[i].line)
  }

  // Rendering the re-read segments shortens the text by one CR for each line that ends in one.
  lemma {:induction false} RenderAgain(segs: seq<Segment>, blocks: seq<Block>)
    ensures |Render(AgainAll(segs, blocks), blocks)| <= |Render(segs, blocks)|
    ensures CleanProse(segs) ==> Render(AgainAll(segs, blocks), blocks) == Render(segs, blocks)
    ensures !CleanProse(segs) ==> |Render(AgainAll(segs, blocks), blocks)| < |Render(segs, blocks)|
    decreases |segs|
  {
    if segs != [] {
      var again := AgainAll(segs, blocks);
      RenderAgain(segs[1..], blocks);
      assert again[1..] == AgainAll(segs[1..], blocks);
      assert CleanProse(segs) <==> (segs[0].Prose? ==> !EndsCr(segs[0].line)) && CleanProse(segs[1..]) by {
        assert forall i | 1 <= i < |segs| :: segs[i] == segs[1..][i - 1];
      }
    }
  }

  // No line of prose in the document, as it is read, ends in CR.
  predicate CleanReading(document: string, blocks: seq<Block>) {
    var segs := Parse(Lines(document), blocks);
    segs.Ok? && CleanProse(segs.value)
  }

  /** The second run of the injector succeeds, on the same segments in the same order: each block
      as it was written, each line of prose as it was but for a trailing CR. */
  lemma InjectedReads(document: string, blocks: seq<Block>, out: string)
    requires GoodBlocks(blocks) && Injected(document, blocks) == Ok(out)
    ensures Injected(out, blocks).Ok? && Parse(Lines(document), blocks).Ok?
    ensures Parse(Lines(out), blocks) == Ok(AgainAll(Parse(Lines(document), blocks).value, blocks))
  {
    var segs := Parse(Lines(document), blocks).value;
    ParseSound(Lines(document), blocks);
    MissingMeans(segs, blocks);
    RenderedReads(document, blocks, segs);
    OccursAgain(segs, blocks);
    ParseComplete(AgainAll(segs, blocks), blocks);
    MissingMeans(AgainAll(segs, blocks), blocks);
  }

  /** Injecting twice gives the text of injecting once exactly when no line of prose ends in CR,
      which takes CR CR LF in the document, or a last line that is not ended and ends in CR. */
  lemma InjectTwice(document: string, blocks: seq<Block>, out: string)
    requires GoodBlocks(blocks) && Injected(document, blocks) == Ok(out)
    ensures Injected(out, blocks) == Ok(out) <==> CleanReading(document, blocks)
  {
    InjectedReads(document, blocks, out);
    RenderAgain(Parse(Lines(document), blocks).value, blocks);
  }

  lemma RenderedReads(document: string, blocks: seq<Block>, segs: seq<Segment>)
    requires GoodBlocks(blocks) && AllGood(segs, blocks) && Flatten(segs) == Lines(document)
    ensures AllGood(AgainAll(segs, blocks), blocks)
    ensures Lines(Render(segs, blocks)) == Flatten(AgainAll(segs, blocks))
  {
    LinesAreLines(document);
    FlattenIsPlain(segs);
    RenderReads(segs, blocks);
  }

  // ---- Prose, byte for byte ------------------------------------------------------------

  // The lines of a text with their endings, as they stand there.
  function Raw(s: string): seq<string>
    decreases |s|
  {
    if s == "" then []
    else
      var k := LineEnd(s);
      if k == |s| then [s] else [s[..k + 1]] + Raw(s[k + 1..])
  }

  // What str::lines keeps of such a line.
  function Stripped(raw: string): string {
    if raw != "" && raw[|raw| - 1] == '\n' then StripCr(raw[..|raw| - 1]) else raw
  }

  predicate BareLf(raw: string) {
    raw != "" && raw[|raw| - 1] == '\n' && !EndsCr(raw[..|raw| - 1])
  }

  // Newlines end lines, and every line but the last has one.
  predicate RawShape(raw: seq<string>) {
    forall i | 0 <= i < |raw| ::
      raw[i] != "" && NoNewline(raw[i][..|raw[i]| - 1]) && (i < |raw| - 1 ==> raw[i][|raw[i]| - 1] == '\n')
  }

  lemma RawHead(l: string, rest: string)
    requires NoNewline(l)
    ensures Raw(l + "\n" + rest) == [l + "\n"] + Raw(rest)
  {
    var s := l + "\n" + rest;
    assert s[|l|] == '\n' && s[..|l| + 1] == l + "\n" && s[|l| + 1..] == rest;
    assert forall i | 0 <= i < |l| :: s[i] == l[i];
    assert LineEnd(s) == |l|;
  }

  lemma {:induction false} RawAppend(a: string, b: string)
    requires a == "" || a[|a| - 1] == '\n'
    ensures Raw(a + b) == Raw(a) + Raw(b)
    decreases |a|
  {
    if a == "" {
      assert a + b == b;
    } else {
      var l, rest := FirstLine(a);
      RawAppend(rest, b);
      RawHead(l, rest);
      RawHead(l, rest + b);
      Regroup(l + "\n", rest, b);
      Regroup([l + "\n"], Raw(rest), Raw(b));
    }
  }

  // Line by line, what str::lines keeps of the raw lines.
  predicate Paired(lines: seq<string>, raw: seq<string>) {
    |lines| == |raw| && forall i | 0 <= i < |raw| :: lines[i] == Stripped(raw[i])
  }

  lemma PairedHead(line: string, lines: seq<string>, head: string, raw: seq<string>)
    requires Paired(lines, raw) && RawShape(raw) && line == Stripped(head)
    requires head != "" && head[|head| - 1] == '\n' && NoNewline(head[..|head| - 1])
    ensures Paired([line] + lines, [head] + raw) && RawShape([head] + raw)
  {
    forall i | 0 <= i < |raw| + 1
      ensures ([line] + lines)[i] == Stripped(([head] + raw)[i])
      ensures var r := ([head] + raw)[i];
              r != "" && NoNewline(r[..|r| - 1]) && (i < |raw| ==> r[|r| - 1] == '\n')
    {
      if i > 0 {
        assert ([head] + raw)[i] == raw[i - 1] && ([line] + lines)[i] == lines[i - 1];
      }
    }
  }

  lemma PairedTail(lines: seq<string>, raw: seq<string>, n: nat)
    requires Paired(lines, raw) && RawShape(raw) && n <= |raw|
    ensures Paired(lines[n..], raw[n..]) && RawShape(raw[n..])
  {
    assert forall i | 0 <= i < |raw| - n :: raw[n..][i] == raw[n + i] && lines[n..][i] == lines[n + i];
  }

  // The raw lines of a text are its lines before their endings are dropped.
  lemma {:induction false} RawLines(s: string)
    ensures RawShape(Raw(s)) && Paired(Lines(s), Raw(s))
    decreases |s|
  {
    if s != "" {
      var k := LineEnd(s);
      if k < |s| {
        RawLines(s[k + 1..]);
        assert s[..k + 1][..k] == s[..k];
        PairedHead(StripCr(s[..k]), Lines(s[k + 1..]), s[..k + 1], Raw(s[k + 1..]));
      }
    }
  }

  /** The raw lines of a text make it up. */
  lemma {:induction false} RawIsAll(s: string)
    ensures Join(Raw(s)) == s
    decreases |s|
  {
    if s != "" {
      var k := LineEnd(s);
      if k == |s| {
        assert [s][1..] == [] && s + "" == s;
      } else {
        RawIsAll(s[k + 1..]);
        assert Raw(s)[1..] == Raw(s[k + 1..]) && s == s[..k + 1] + s[k + 1..];
      }
    }
  }

  // The bytes of the prose segments, read off the raw lines.
  function ProseBytes(segs: seq<Segment>, raw: seq<string>): string {
    if segs == [] || |raw| < |LinesOf(segs[0])| then ""
    else (if segs[0].Prose? then raw[0] else "") + ProseBytes(segs[1..], raw[|LinesOf(segs[0])|..])
  }

  // What the injector writes for the prose segments.
  function Written(segs: seq<Segment>): string {
    if segs == [] then "" else (if segs[0].Prose? then RenderOne(segs[0], []) else "") + Written(segs[1..])
  }

  predicate BareProse(segs: seq<Segment>, raw: seq<string>) {
    segs == [] || |raw| < |LinesOf(segs[0])|
    || ((segs[0].Prose? ==> BareLf(raw[0])) && BareProse(segs[1..], raw[|LinesOf(segs[0])|..]))
  }

  // The bytes of a document outside its blocks.
  function ProseText(document: string, blocks: seq<Block>): string {
    match Parse(Lines(document), blocks)
    case Err(_) => ""
    case Ok(segs) => ProseBytes(segs, Raw(document))
  }

  // Every line outside the blocks ends in LF alone; the last one is ended too.
  predicate BareText(document: string, blocks: seq<Block>) {
    match Parse(Lines(document), blocks)
    case Err(_) => true
    case Ok(segs) => BareProse(segs, Raw(document))
  }

  // One raw line against the line as it is written.
  lemma OneLine(raw: string, rest: string, rest': string)
    requires raw != "" && NoNewline(raw[..|raw| - 1]) && (raw[|raw| - 1] != '\n' ==> rest == "")
    ensures raw + rest == Stripped(raw) + "\n" + rest' <==> BareLf(raw) && rest == rest'
  {
    var l, a, b := Stripped(raw), raw + rest, Stripped(raw) + "\n" + rest';
    if BareLf(raw) {
      assert raw == l + "\n";
      assert a[|raw|..] == rest && b[|raw|..] == rest';
    } else if raw[|raw| - 1] == '\n' {
      assert a[|l|] == '\r' && b[|l|] == '\n';
    } else {
      assert |a| < |b|;
    }
  }

  lemma {:induction false} ProseExactly(segs: seq<Segment>, raw: seq<string>)
    requires RawShape(raw) && Paired(Flatten(segs), raw)
    ensures ProseBytes(segs, raw) == Written(segs) <==> BareProse(segs, raw)
    decreases |segs|
  {
    if segs != [] {
      var n := |LinesOf(segs[0])|;
      PairedTail(Flatten(segs), raw, n);
      assert Flatten(segs)[n..] == Flatten(segs[1..]);
      ProseExactly(segs[1..], raw[n..]);
      if segs[0].Prose? {
        ProseHead(segs[0].line, segs[1..], raw);
      }
    }
  }

  lemma ProseHead(line: string, segs: seq<Segment>, raw: seq<string>)
    requires raw != [] && RawShape(raw) && line == Stripped(raw[0])
    ensures raw[0] + ProseBytes(segs, raw[1..]) == line + "\n" + Written(segs)
            <==> BareLf(raw[0]) && ProseBytes(segs, raw[1..]) == Written(segs)
  {
    if |raw| == 1 {
      NothingLeft(segs, raw[1..]);
    }
    OneLine(raw[0], ProseBytes(segs, raw[1..]), Written(segs));
  }

  lemma NothingLeft(segs: seq<Segment>, raw: seq<string>)
    requires raw == []
    ensures ProseBytes(segs, raw) == ""
  {
    if segs != [] {
      assert |LinesOf(segs[0])| > 0;
    }
  }

  /** Whatever the blocks, each line of prose is written as its text and LF, which is byte for byte
      the document's own prose exactly when every line of it ends in LF alone. */
  lemma ProseByteForByteExactly(document: string, blocks: seq<Block>, out: string)
    requires Injected(document, blocks) == Ok(out)
    ensures var segs := Parse(Lines(document), blocks);
            && segs.Ok? && out == Render(segs.value, blocks)
            && (ProseText(document, blocks) == Written(segs.value) <==> BareText(document, blocks))
  {
    ParseSound(Lines(document), blocks);
    RawLines(document);
    ProseExactly(Parse(Lines(document), blocks).value, Raw(document));
  }

  // A rendered segment takes up as many raw lines as it has lines, prose being its text and LF.
  lemma RawOne(seg: Segment, blocks: seq<Block>, rest: string) returns (raw: seq<string>)
    requires GoodBlocks(blocks) && Good(seg, blocks) && (seg.Prose? ==> NoNewline(seg.line))
    ensures Raw(RenderOne(seg, blocks) + rest) == raw + Raw(rest)
    ensures |raw| == |LinesOf(Again(seg, blocks))| && (seg.Prose? ==> raw == [RenderOne(seg, [])])
  {
    var text := RenderOne(seg, blocks);
    raw := Raw(text);
    RawAppend(text, rest);
    RawLines(text);
    AgainIsGood(seg, blocks);
    assert text + "" == text;
    if seg.Prose? {
      RawHead(seg.line, "");
      assert text == seg.line + "\n" + "";
    }
  }

  lemma {:induction false} RenderedProse(segs: seq<Segment>, blocks: seq<Block>)
    requires GoodBlocks(blocks) && AllGood(segs, blocks) && PlainProse(segs)
    ensures ProseBytes(AgainAll(segs, blocks), Raw(Render(segs, blocks))) == Written(segs)
    decreases |segs|
  {
    if segs != [] {
      GoodTail(segs, blocks);
      PlainTail(segs);
      RenderedProse(segs[1..], blocks);
      var raw := RawOne(segs[0], blocks, Render(segs[1..], blocks));
      ProseBytesHead(Again(segs[0], blocks), AgainAll(segs[1..], blocks), raw, Raw(Render(segs[1..], blocks)));
    }
  }

  lemma PlainTail(segs: seq<Segment>)
    requires PlainProse(segs) && segs != []
    ensures PlainProse(segs[1..]) && (segs[0].Prose? ==> NoNewline(segs[0].line))
  {
    assert forall i | 0 <= i < |segs[1..]| :: segs[1..][i] == segs[i + 1];
  }

  lemma ProseBytesHead(seg: Segment, segs: seq<Segment>, front: seq<string>, raw: seq<string>)
    requires |front| == |LinesOf(seg)|
    ensures ProseBytes([seg] + segs, front + raw) == (if seg.Prose? then front[0] else "") + ProseBytes(segs, raw)
  {
    assert ([seg] + segs)[1..] == segs && (front + raw)[|front|..] == raw;
  }

  // A text made of good segments, every block among them, is accepted and reads as rendered.
  lemma RenderedIsAccepted(segs: seq<Segment>, blocks: seq<Block>)
    requires GoodBlocks(blocks) && AllGood(segs, blocks) && PlainProse(segs) && AllOccur(segs, blocks)
    ensures Parse(Lines(Render(segs, blocks)), blocks) == Ok(AgainAll(segs, blocks))
    ensures Injected(Render(segs, blocks), blocks) == Ok(Render(AgainAll(segs, blocks), blocks))
    ensures ProseText(Render(segs, blocks), blocks) == Written(segs)
  {
    RenderReads(segs, blocks);
    ParseComplete(AgainAll(segs, blocks), blocks);
    OccursAgain(segs, blocks);
    MissingMeans(AgainAll(segs, blocks), blocks);
    RenderedProse(segs, blocks);
  }

  // The prose of the output is what was written for the prose of the document.
  lemma OutputProse(document: string, blocks: seq<Block>, out: string)
    requires GoodBlocks(blocks) && Injected(document, blocks) == Ok(out)
    ensures Parse(Lines(document), blocks).Ok?
    ensures ProseText(out, blocks) == Written(Parse(Lines(document), blocks).value)
  {
    var segs := Parse(Lines(document), blocks).value;
    ParseSound(Lines(document), blocks);
    LinesAreLines(document);
    FlattenIsPlain(segs);
    MissingMeans(segs, blocks);
    RenderedIsAccepted(segs, blocks);
  }

  /** For the blocks the generator emits: the prose of the output is the prose of the document,
      byte for byte, exactly when every line of prose ends in LF alone. */
  lemma ProseIsKeptExactly(document: string, blocks: seq<Block>, out: string)
    requires GoodBlocks(blocks) && Injected(document, blocks) == Ok(out)
    ensures ProseText(out, blocks) == ProseText(document, blocks) <==> BareText(document, blocks)
  {
    ProseByteForByteExactly(document, blocks, out);
    OutputProse(document, blocks, out);
  }

  // ---- The same without blocks ---------------------------------------------------------

  // LF endings only, and a last line that is ended.
  predicate UnixText(s: string) {
    && (s == "" || s[|s| - 1] == '\n')
    && forall i | 0 < i < |s| && s[i] == '\n' :: s[i - 1] != '\r'
  }

  lemma UnixSplit(l: string, rest: string)
    requires NoNewline(l)
    ensures UnixText(l + "\n" + rest) <==> !EndsCr(l) && UnixText(rest)
  {
    var s := l + "\n" + rest;
    assert s[|l|] == '\n' && (l != "" ==> s[|l| - 1] == l[|l| - 1]);
    assert forall i | 0 <= i < |rest| :: s[|l| + 1 + i] == rest[i];
    assert forall i | 0 <= i < |l| :: s[i] == l[i];
  }

  lemma {:induction false} UnlinesLength(s: string)
    ensures |Unlines(Lines(s))| <= |s| + 1
    ensures UnixText(s) ==> Unlines(Lines(s)) == s
    ensures s != "" && s[|s| - 1] == '\n' ==> |Unlines(Lines(s))| <= |s| && (!UnixText(s) ==> |Unlines(Lines(s))| < |s|)
    decreases |s|
  {
    if s != "" {
      var k := LineEnd(s);
      if k < |s| {
        var l, rest := s[..k], s[k + 1..];
        assert s == s[..k] + [s[k]] + s[k + 1..];
        assert s == l + "\n" + rest;
        UnixSplit(l, rest);
        UnlinesLength(rest);
        LinesHead(l, rest);
        assert rest != "" ==> rest[|rest| - 1] == s[|s| - 1];
        assert Lines(s)[1..] == Lines(rest);
      } else {
        assert Lines(s)[1..] == [];
      }
    }
  }

  lemma {:induction false} UnlinesEnds(lines: seq<string>)
    ensures Unlines(lines) == "" || Unlines(lines)[|Unlines(lines)| - 1] == '\n'
    decreases |lines|
  {
    if lines != [] {
      UnlinesEnds(lines[1..]);
    }
  }

  lemma {:induction false} ProseOnly(lines: seq<string>, blocks: seq<Block>) returns (segs: seq<Segment>)
    requires forall i | 0 <= i < |lines| :: !IsBegin(lines[i])
    ensures AllGood(segs, blocks) && Flatten(segs) == lines && Render(segs, blocks) == Unlines(lines)
    decreases |lines|
  {
    if lines == [] {
      segs := [];
    } else {
      var rest := ProseOnly(lines[1..], blocks);
      FlattenBehind(Prose(lines[0]), rest, blocks);
      segs := [Prose(lines[0])] + rest;
      assert segs[1..] == rest;
    }
  }

  // A document that is accepted without any block is prose throughout.
  lemma ProseIsUnlined(document: string)
    requires Injected(document, []).Ok?
    ensures Injected(document, []) == Ok(Unlines(Lines(document)))
  {
    ParseSound(Lines(document), []);
    NoBlocksNoBegins(Parse(Lines(document), []).value);
    var segs := ProseOnly(Lines(document), []);
    InjectedMeans(document, [], Unlines(Lines(document)));
  }

  lemma {:induction false} NoBlocksNoBegins(segs: seq<Segment>)
    requires AllGood(segs, [])
    ensures forall i | 0 <= i < |Flatten(segs)| :: !IsBegin(Flatten(segs)[i])
    decreases |segs|
  {
    if segs != [] {
      assert Good(segs[0], []);
      GoodTail(segs, []);
      NoBlocksNoBegins(segs[1..]);
    }
  }

  /** A text without blocks comes through as it is exactly when its line endings are LF and its
      last line is ended; otherwise CRLF becomes LF and a final LF is added. */
  lemma UnixTextExactly(document: string)
    requires Injected(document, []).Ok?
    ensures Injected(document, []) == Ok(document) <==> UnixText(document)
  {
    ProseIsUnlined(document);
    UnlinesLength(document);
    UnlinesEnds(Lines(document));
  }

  // ---- Documents on which the promises fail ---------------------------------------------

  // The blocks of render_blocks, whatever the tables in them.
  function ProgramBlocks(routes: string, bijection: string): seq<Block> {
    [Block("routes-v1", routes), Block("bijection-8p", bijection)]
  }

  // Both blocks, freshly written, and one more line.
  function Sample(blocks: seq<Block>, line: string): seq<Segment> {
    seq(|blocks|, i requires 0 <= i < |blocks| =>
      Generated(BeginMarker(blocks[i].name), blocks[i].name, [], EndMarker(blocks[i].name)))
    + [Prose(line)]
  }

  lemma {:induction false} NamesAreKnown(blocks: seq<Block>, i: nat)
    requires i < |blocks|
    ensures Content(blocks, blocks[i].name).Some?
    decreases |blocks|
  {
    if i > 0 && blocks[0].name != blocks[i].name {
      NamesAreKnown(blocks[1..], i - 1);
    }
  }

  lemma SampleIsGood(blocks: seq<Block>, line: string)
    requires GoodBlocks(blocks) && NoNewline(line) && !IsBegin(line)
    ensures var segs := Sample(blocks, line);
            AllGood(segs, blocks) && PlainProse(segs) && AllOccur(segs, blocks)
  {
    var segs := Sample(blocks, line);
    forall i | 0 <= i < |segs| ensures Good(segs[i], blocks) {
      if i < |blocks| {
        NamesAreKnown(blocks, i);
        BeginReads(blocks[i].name);
        EndReads(blocks[i].name);
      }
    }
    assert forall i | 0 <= i < |blocks| :: segs[i].Generated? && segs[i].name == blocks[i].name;
  }

  lemma {:induction false} WrittenTail(front: seq<Segment>, line: string)
    requires forall i | 0 <= i < |front| :: front[i].Generated?
    ensures Written(front + [Prose(line)]) == line + "\n"
    decreases |front|
  {
    var segs := front + [Prose(line)];
    if front == [] {
      assert segs[1..] == [] && Written(segs) == line + "\n" + "";
    } else {
      assert segs[1..] == front[1..] + [Prose(line)];
      WrittenTail(front[1..], line);
    }
  }

  lemma SampleAgain(blocks: seq<Block>, line: string)
    ensures var again := AgainAll(Sample(blocks, line), blocks);
            && Written(again) == StripCr(line) + "\n"
            && (CleanProse(again) <==> !EndsCr(StripCr(line)))
  {
    var segs := Sample(blocks, line);
    var again := AgainAll(segs, blocks);
    AgainKeepsNames(segs, blocks);
    assert again == again[..|blocks|] + [Prose(StripCr(line))];
    assert again[|blocks|] == Prose(StripCr(line));
    WrittenTail(again[..|blocks|], StripCr(line));
  }

  // A sample is accepted; its one line of prose loses a CR, and another on the second run.
  lemma SampleTwice(blocks: seq<Block>, line: string)
    requires GoodBlocks(blocks) && NoNewline(line) && !IsBegin(line)
    ensures var document := Render(Sample(blocks, line), blocks);
            var first := Injected(document, blocks);
            && first.Ok? && Injected(first.value, blocks).Ok?
            && (Injected(first.value, blocks) == first <==> !EndsCr(StripCr(line)))
  {
    var segs := Sample(blocks, line);
    var document := Render(segs, blocks);
    SampleIsGood(blocks, line);
    RenderedIsAccepted(segs, blocks);
    SampleAgain(blocks, line);
    InjectedReads(document, blocks, Injected(document, blocks).value);
    InjectTwice(document, blocks, Injected(document, blocks).value);
  }

  lemma SampleProse(blocks: seq<Block>, line: string)
    requires GoodBlocks(blocks) && NoNewline(line) && !IsBegin(line)
    ensures var document := Render(Sample(blocks, line), blocks);
            && Injected(document, blocks).Ok?
            && ProseText(document, blocks) == line + "\n"
            && ProseText(Injected(document, blocks).value, blocks) == StripCr(line) + "\n"
  {
    var segs := Sample(blocks, line);
    var document := Render(segs, blocks);
    SampleIsGood(blocks, line);
    RenderedIsAccepted(segs, blocks);
    WrittenTail(segs[..|blocks|], line);
    assert segs == segs[..|blocks|] + [Prose(line)];
    SampleAgain(blocks, line);
    OutputProse(document, blocks, Injected(document, blocks).value);
  }

  lemma ShortLine(line: string)
    requires line in ["a", "a\r", "a\r\r"]
    ensures NoNewline(line) && !IsBegin(line)
    ensures StripCr("a\r") == "a"
  {
    assert TrimStart(line) == line && line[0] == 'a';
  }

  /** Both blocks and the line "a" CR CR LF: accepted, and changed again by the second run. */
  lemma SecondRunMayChange(routes: string, bijection: string)
    requires GoodBlocks(ProgramBlocks(routes, bijection))
    ensures var blocks := ProgramBlocks(routes, bijection);
            var first := Injected(Render(Sample(blocks, "a\r\r"), blocks), blocks);
            && first.Ok? && Injected(first.value, blocks).Ok? && Injected(first.value, blocks) != first
  {
    ShortLine("a\r\r");
    SampleTwice(ProgramBlocks(routes, bijection), "a\r\r");
  }

  /** Both blocks and the line "a" CR LF: accepted, and its prose loses the CR. */
  lemma CrlfProseIsLost(routes: string, bijection: string)
    requires GoodBlocks(ProgramBlocks(routes, bijection))
    ensures var blocks := ProgramBlocks(routes, bijection);
            var document := Render(Sample(blocks, "a\r"), blocks);
            && Injected(document, blocks).Ok?
            && ProseText(document, blocks) == "a\r" + "\n"
            && ProseText(Injected(document, blocks).value, blocks) == "a" + "\n"
  {
    ShortLine("a\r");
    SampleProse(ProgramBlocks(routes, bijection), "a\r");
  }

  // Empty tables will do in both.
  lemma EmptyTablesAreGood()
    ensures GoodBlocks(ProgramBlocks("", ""))
  {
  }

  lemma OccursTwice(segs: seq<Segment>, blocks: seq<Block>)
    requires AllOccur(segs, blocks)
    ensures AllOccur(segs + segs, blocks)
  {
    forall b | 0 <= b < |blocks| ensures Occurs(segs + segs, blocks[b].name) {
      assert Occurs(segs, blocks[b].name);
      var i :| 0 <= i < |segs| && segs[i].Generated? && segs[i].name == blocks[b].name;
      assert (segs + segs)[i] == segs[i];
    }
  }

  /** A block may occur any number of times: nothing enforces that it occurs once. */
  lemma RepeatedBlocksAreAccepted(document: string, blocks: seq<Block>, segs: seq<Segment>)
    requires Parse(Lines(document), blocks) == Ok(segs + segs) && AllOccur(segs, blocks)
    ensures Injected(document, blocks) == Ok(Render(segs, blocks) + Render(segs, blocks))
  {
    OccursTwice(segs, blocks);
    RenderAppend(segs, segs, blocks);
    MissingMeans(segs + segs, blocks);
  }

  // A block as the injector writes it reads as itself.
  lemma FreshSegment(name: string, content: string) returns (seg: Segment)
    requires GoodBlock(name, content)
    ensures var blocks := [Block(name, content)];
            && Good(seg, blocks) && seg.Generated? && seg.name == name && Again(seg, blocks) == seg
            && RenderOne(seg, blocks) == BeginMarker(name) + "\n" + content + EndMarker(name) + "\n"
  {
    var blocks := [Block(name, content)];
    var empty := Generated(BeginMarker(name), name, [], EndMarker(name));
    BeginReads(name);
    EndReads(name);
    AgainIsGood(empty, blocks);
    seg := Again(empty, blocks);
    BlockText(seg, blocks);
  }

  /** For instance, any block written twice in a row is a document that is accepted unchanged. */
  lemma WrittenTwice(name: string, content: string)
    requires GoodBlock(name, content)
    ensures var text := BeginMarker(name) + "\n" + content + EndMarker(name) + "\n";
            Injected(text + text, [Block(name, content)]) == Ok(text + text)
  {
    var blocks := [Block(name, content)];
    var seg := FreshSegment(name, content);
    var one := [seg];
    assert one[0].Generated? && Occurs(one, name);
    assert Render(one, blocks) == RenderOne(seg, blocks) + "" == RenderOne(seg, blocks);
    SegmentTwice(seg, blocks);
    RenderAppend(one, one, blocks);
    RepeatedBlocksAreAccepted(Render(one + one, blocks), blocks, one);
  }

  lemma SegmentTwice(seg: Segment, blocks: seq<Block>)
    requires GoodBlocks(blocks) && Good(seg, blocks) && seg.Generated? && Again(seg, blocks) == seg
    ensures Parse(Lines(Render([seg] + [seg], blocks)), blocks) == Ok([seg] + [seg])
  {
    var two := [seg] + [seg];
    RenderReads(two, blocks);
    AgainKeepsNames(two, blocks);
    assert AgainAll(two, blocks) == two;
    ParseComplete(two, blocks);
  }
}
