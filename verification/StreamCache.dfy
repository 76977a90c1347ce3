/** Accumulating a streamed chat completion for the cache, and replaying a cached one as a stream. */
module StreamCache {
  import opened Options
  import Utf8

  // ----- streams

  datatype Usage = Usage(prompt: int, completion: int, total: int)

  datatype Created = Absent | NotANumber | Number(value: int)

  /** Empty texts count as absent, except that a delta may hold an empty content. */
  datatype Choice = Choice(finish: Option<string>, content: Option<string>)

  datatype Chunk = Chunk(id: Option<string>, created: Created, model: Option<string>, usage: Option<Usage>,
                         choice: Option<Choice>)

  /** A line of the stream; blank payloads and the end marker are ignored like lines that hold no data. */
  datatype Line = Ignored | InvalidJson | NotAnObject | Data(chunk: Chunk)

  datatype Reason = BadJson | BadPayload | FragmentLimit | BufferLimit

  datatype Limits = Limits(bytes: nat, fragments: nat)

  datatype Accumulator = Accumulator(
    id: Option<string>,
    created: Option<int>,
    model: Option<string>,
    finish: string,
    parts: seq<string>,
    usage: Usage,
    bytes: nat,
    fragments: nat,
    disabled: Option<Reason>,
    sawChunk: bool)

  datatype Response = Response(id: string, created: int, model: string, content: string, finish: string, usage: Usage)

  const NO_USAGE := Usage(0, 0, 0)

  const FRESH := Accumulator(None, None, None, "stop", [], NO_USAGE, 0, 0, None, false)

  function Size(s: string): nat {
    |Utf8.Encode(s)|
  }

  function Silenced(a: Accumulator, reason: Reason): Accumulator {
    if a.disabled.Some? then a else a.(disabled := Some(reason), parts := [], bytes := 0, fragments := 0)
  }

  /** First identifier, date and model; last usage and finish reason. */
  function Describe(a: Accumulator, c: Chunk): Accumulator {
    a.(sawChunk := true,
       id := if a.id == None then Given(c.id) else a.id,
       created := if a.created == None && c.created.Number? then Some(c.created.value) else a.created,
       model := if a.model == None then Given(c.model) else a.model,
       usage := if c.usage.Some? then c.usage.value else a.usage,
       finish := if c.choice.Some? && Given(c.choice.value.finish).Some? then c.choice.value.finish.value else a.finish)
  }

  function Given(s: Option<string>): Option<string> {
    if s == Some("") then None else s
  }

  /** The text a chunk adds. */
  function Delta(c: Chunk): string {
    if c.choice.Some? && c.choice.value.content.Some? then c.choice.value.content.value else ""
  }

  function ChunkAdded(a: Accumulator, c: Chunk, limits: Limits): (Accumulator, Option<Reason>) {
    if a.disabled.Some? then (a, a.disabled)
    else
      var b, text := Describe(a, c), Delta(c);
      if text == "" then (b, None)
      else if b.fragments + 1 > limits.fragments then (b, Some(FragmentLimit))
      else if b.bytes + Size(text) > limits.bytes then (b, Some(BufferLimit))
      else (b.(parts := b.parts + [text], fragments := b.fragments + 1, bytes := b.bytes + Size(text)), None)
  }

  function AddLine(a: Accumulator, line: Line, limits: Limits): Accumulator {
    if line == Ignored || a.disabled.Some? then a
    else
      match line
      case InvalidJson => Silenced(a, BadJson)
      case NotAnObject => Silenced(a, BadPayload)
      case Data(chunk) =>
        var (b, reason) := ChunkAdded(a, chunk, limits);
        if reason.Some? then Silenced(b, reason.value) else b
  }

  function AddLines(lines: seq<Line>, limits: Limits): Accumulator {
    if lines == [] then FRESH else AddLine(AddLines(lines[..|lines| - 1], limits), lines[|lines| - 1], limits)
  }

  function Joined(parts: seq<string>): string {
    if parts == [] then "" else Joined(parts[..|parts| - 1]) + parts[|parts| - 1]
  }

  /** A generated identifier and the clock stand in for what the stream did not say. */
  function BuildResponse(a: Accumulator, fallbackModel: string, newId: string, now: int): Option<Response> {
    if !a.sawChunk || a.disabled.Some? then None
    else
      Some(Response(
        if a.id.Some? then a.id.value else newId,
        if a.created.Some? && a.created.value != 0 then a.created.value else now,
        if a.model.Some? then a.model.value else if fallbackModel != "" then fallbackModel else "unknown",
        Joined(a.parts),
        a.finish,
        a.usage))
  }

  // ----- the buffer's invariant

  function SizeOf(parts: seq<string>): nat {
    if parts == [] then 0 else SizeOf(parts[..|parts| - 1]) + Size(parts[|parts| - 1])
  }

  /** What is counted are the bytes of the whole text in UTF-8. */
  lemma {:induction false} SizeIsEncoded(parts: seq<string>)
    ensures SizeOf(parts) == |Utf8.Encode(Joined(parts))|
  {
    if parts != [] {
      var n := |parts| - 1;
      SizeIsEncoded(parts[..n]);
      Utf8.EncodeConcat(Joined(parts[..n]), parts[n]);
    }
  }

  /** The counters tell the truth, within the limits, and a disabled stream holds nothing. */
  ghost predicate Sound(a: Accumulator, limits: Limits) {
    && a.fragments == |a.parts| <= limits.fragments
    && a.bytes == SizeOf(a.parts) <= limits.bytes
    && (a.disabled.Some? ==> a.parts == [])
    && Given(a.id) == a.id && Given(a.model) == a.model && a.finish != ""
  }

  lemma {:induction false} PartAdded(parts: seq<string>, text: string)
    ensures SizeOf(parts + [text]) == SizeOf(parts) + Size(text) && Joined(parts + [text]) == Joined(parts) + text
  {
    assert (parts + [text])[..|parts|] == parts;
  }

  lemma {:induction false} ChunkKeepsSound(a: Accumulator, c: Chunk, limits: Limits)
    requires Sound(a, limits) && a.disabled == None
    ensures Sound(ChunkAdded(a, c, limits).0, limits) && ChunkAdded(a, c, limits).0.disabled == None
  {
    assert Sound(Describe(a, c), limits);
    PartAdded(a.parts, Delta(c));
  }

  lemma {:induction false} LineKeepsSound(a: Accumulator, line: Line, limits: Limits)
    requires Sound(a, limits)
    ensures Sound(AddLine(a, line, limits), limits)
    ensures a.disabled.Some? ==> AddLine(a, line, limits) == a
  {
    if line.Data? && a.disabled == None {
      ChunkKeepsSound(a, line.chunk, limits);
    }
  }

  lemma {:induction false} EveryStreamIsSound(lines: seq<Line>, limits: Limits)
    ensures Sound(AddLines(lines, limits), limits)
  {
    if lines != [] {
      EveryStreamIsSound(lines[..|lines| - 1], limits);
      LineKeepsSound(AddLines(lines[..|lines| - 1], limits), lines[|lines| - 1], limits);
    }
  }

  // ----- what is stored

  /** The texts of the stream, in order, without empty ones. */
  function Deltas(lines: seq<Line>): seq<string> {
    if lines == [] then []
    else
      var line := lines[|lines| - 1];
      Deltas(lines[..|lines| - 1]) + if line.Data? && Delta(line.chunk) != "" then [Delta(line.chunk)] else []
  }

  predicate HasData(lines: seq<Line>) {
    exists k | 0 <= k < |lines| :: lines[k].Data?
  }

  predicate AllValid(lines: seq<Line>) {
    forall k | 0 <= k < |lines| :: lines[k] != InvalidJson && lines[k] != NotAnObject
  }

  predicate FitsIn(parts: seq<string>, limits: Limits) {
    |parts| <= limits.fragments && SizeOf(parts) <= limits.bytes
  }

  /** The last finish reason given, or the default. */
  function LastFinish(lines: seq<Line>): string {
    if lines == [] then "stop"
    else
      var line := lines[|lines| - 1];
      if line.Data? && line.chunk.choice.Some? && Given(line.chunk.choice.value.finish).Some? then
        line.chunk.choice.value.finish.value
      else LastFinish(lines[..|lines| - 1])
  }

  /** The accumulator against what the stream held so far. */
  predicate Accumulated(a: Accumulator, valid: bool, deltas: seq<string>, finish: string, hasData: bool,
                        limits: Limits) {
    && (a.disabled == None <==> valid && FitsIn(deltas, limits))
    && (a.disabled == None ==> a.parts == deltas && a.finish == finish && (a.sawChunk <==> hasData))
  }

  lemma {:induction false} TextAccumulates(a: Accumulator, c: Chunk, deltas: seq<string>, finish: string, hasData: bool,
                                           limits: Limits)
    requires Sound(a, limits) && a.disabled == None && Accumulated(a, true, deltas, finish, hasData, limits)
    ensures var all := deltas + if Delta(c) != "" then [Delta(c)] else [];
            var last := if c.choice.Some? && Given(c.choice.value.finish).Some? then c.choice.value.finish.value
                else finish;
            Accumulated(AddLine(a, Data(c), limits), true, all, last, true, limits)
  {
    PartAdded(deltas, Delta(c));
    assert deltas + [] == deltas;
  }

  lemma {:induction false} OverfullStaysOverfull(deltas: seq<string>, text: string, limits: Limits)
    requires !FitsIn(deltas, limits)
    ensures !FitsIn(deltas + [text], limits)
  {
    PartAdded(deltas, text);
  }

  lemma {:induction false} OneMoreLine(before: seq<Line>, line: Line)
    ensures AllValid(before + [line]) <==> AllValid(before) && line != InvalidJson && line != NotAnObject
    ensures HasData(before + [line]) <==> HasData(before) || line.Data?
    ensures Deltas(before + [line]) == Deltas(before) + if line.Data? && Delta(line.chunk) != ""
          then [Delta(line.chunk)] else []
  {
    var lines := before + [line];
    assert lines[..|before|] == before && lines[|before|] == line;
    if AllValid(lines) {
      forall k | 0 <= k < |before| ensures before[k] != InvalidJson && before[k] != NotAnObject {
        assert lines[k] == before[k];
      }
    }
    if HasData(before) {
      var k :| 0 <= k < |before| && before[k].Data?;
      assert lines[k].Data?;
    }
  }

  lemma {:induction false} AccumulatedSoFar(lines: seq<Line>, limits: Limits)
    ensures Accumulated(AddLines(lines, limits), AllValid(lines), Deltas(lines), LastFinish(lines), HasData(lines),
          limits)
  {
    if lines != [] {
      var n := |lines| - 1;
      var before, line := lines[..n], lines[n];
      AccumulatedSoFar(before, limits);
      EveryStreamIsSound(before, limits);
      assert lines == before + [line];
      OneMoreLine(before, line);
      assert Deltas(before) + [] == Deltas(before);
      var a := AddLines(before, limits);
      if a.disabled == None {
        if line.Data? {
          TextAccumulates(a, line.chunk, Deltas(before), LastFinish(before), HasData(before), limits);
        }
      } else if line.Data? && !FitsIn(Deltas(before), limits) {
        OverfullStaysOverfull(Deltas(before), Delta(line.chunk), limits);
      }
    }
  }

  /**
   A stream is stored exactly when it had data, no line was invalid and all its text fits; then all of it is stored.
   */
  lemma {:induction false} StoredIffComplete(lines: seq<Line>, limits: Limits, fallbackModel: string, newId: string,
                                             now: int)
    ensures var r := BuildResponse(AddLines(lines, limits), fallbackModel, newId, now);
            && (r.Some? <==> HasData(lines) && AllValid(lines) && FitsIn(Deltas(lines), limits))
            && (r.Some? ==> |Utf8.Encode(r.value.content)| <= limits.bytes && |Deltas(lines)| <= limits.fragments)
            && (r.Some? ==> r.value.content == Joined(Deltas(lines)) && r.value.finish == LastFinish(lines))
  {
    AccumulatedSoFar(lines, limits);
    SizeIsEncoded(Deltas(lines));
  }

  // ----- how the response is described

  function IdIn(line: Line): Option<string> {
    if line.Data? then Given(line.chunk.id) else None
  }

  function ModelIn(line: Line): Option<string> {
    if line.Data? then Given(line.chunk.model) else None
  }

  function CreatedIn(line: Line): Option<int> {
    if line.Data? && line.chunk.created.Number? then Some(line.chunk.created.value) else None
  }

  function UsageIn(line: Line): Option<Usage> {
    if line.Data? then line.chunk.usage else None
  }

  predicate IsFirst<T(==)>(lines: seq<Line>, find: Line -> Option<T>, k: nat) {
    k < |lines| && find(lines[k]).Some? && forall j | 0 <= j < k :: find(lines[j]) == None
  }

  predicate IsLast<T(==)>(lines: seq<Line>, find: Line -> Option<T>, k: nat) {
    k < |lines| && find(lines[k]).Some? && forall j | k < j < |lines| :: find(lines[j]) == None
  }

  predicate Nowhere<T(==)>(lines: seq<Line>, find: Line -> Option<T>) {
    forall j | 0 <= j < |lines| :: find(lines[j]) == None
  }

  function FirstOf<T>(lines: seq<Line>, find: Line -> Option<T>): Option<T> {
    if lines == [] then None
    else
      var n := |lines| - 1;
      if FirstOf(lines[..n], find).Some? then FirstOf(lines[..n], find) else find(lines[n])
  }

  function LastOf<T>(lines: seq<Line>, find: Line -> Option<T>): Option<T> {
    if lines == [] then None
    else
      var n := |lines| - 1;
      if find(lines[n]).Some? then find(lines[n]) else LastOf(lines[..n], find)
  }

  lemma {:induction false} FirstIsFirst<T>(lines: seq<Line>, find: Line -> Option<T>, k: nat)
    ensures IsFirst(lines, find, k) ==> FirstOf(lines, find) == find(lines[k])
    ensures Nowhere(lines, find) ==> FirstOf(lines, find) == None
  {
    if lines != [] {
      var n := |lines| - 1;
      FirstIsFirst(lines[..n], find, k);
      if IsFirst(lines, find, k) && k == n {
        assert Nowhere(lines[..n], find);
      }
    }
  }

  lemma {:induction false} LastIsLast<T>(lines: seq<Line>, find: Line -> Option<T>, k: nat)
    ensures IsLast(lines, find, k) ==> LastOf(lines, find) == find(lines[k])
    ensures Nowhere(lines, find) ==> LastOf(lines, find) == None
  {
    if lines != [] {
      LastIsLast(lines[..|lines| - 1], find, k);
    }
  }

  lemma LineDescribes(a: Accumulator, line: Line, limits: Limits)
    requires AddLine(a, line, limits).disabled == None
    ensures var b := AddLine(a, line, limits);
            && a.disabled == None
            && b.id == (if a.id.Some? then a.id else IdIn(line))
            && b.model == (if a.model.Some? then a.model else ModelIn(line))
            && b.created == (if a.created.Some? then a.created else CreatedIn(line))
            && b.usage == match UsageIn(line) case None => a.usage case Some(u) => u
  {
  }

  lemma {:induction false} DescribedSoFar(lines: seq<Line>, limits: Limits)
    requires AddLines(lines, limits).disabled == None
    ensures var a := AddLines(lines, limits);
            && a.id == FirstOf(lines, IdIn) && a.model == FirstOf(lines, ModelIn)
            && a.created == FirstOf(lines, CreatedIn)
            && a.usage == match LastOf(lines, UsageIn) case None => NO_USAGE case Some(u) => u
  {
    if lines != [] {
      var before := lines[..|lines| - 1];
      LineDescribes(AddLines(before, limits), lines[|lines| - 1], limits);
      DescribedSoFar(before, limits);
    }
  }

  /**
   A response has the first identifier, date and model that the stream gave, and the last usage; a generated
   identifier, the clock, the requested model and no usage stand in for what it did not give.
   */
  lemma {:induction false} ResponseDescribes(lines: seq<Line>, limits: Limits, fallbackModel: string, newId: string,
                                             now: int, k: nat)
    requires BuildResponse(AddLines(lines, limits), fallbackModel, newId, now).Some?
    ensures var r := BuildResponse(AddLines(lines, limits), fallbackModel, newId, now).value;
            && (IsFirst(lines, IdIn, k) ==> Some(r.id) == IdIn(lines[k]))
            && (Nowhere(lines, IdIn) ==> r.id == newId)
            && (IsFirst(lines, CreatedIn, k) ==>
                  r.created == if CreatedIn(lines[k]) != Some(0) then CreatedIn(lines[k]).value else now)
            && (Nowhere(lines, CreatedIn) ==> r.created == now)
            && (IsFirst(lines, ModelIn, k) ==> Some(r.model) == ModelIn(lines[k]))
            && (Nowhere(lines, ModelIn) ==> r.model == if fallbackModel == "" then "unknown" else fallbackModel)
            && (IsLast(lines, UsageIn, k) ==> Some(r.usage) == UsageIn(lines[k]))
            && (Nowhere(lines, UsageIn) ==> r.usage == Usage(0, 0, 0))
  {
    DescribedSoFar(lines, limits);
    FirstIsFirst(lines, IdIn, k);
    FirstIsFirst(lines, CreatedIn, k);
    FirstIsFirst(lines, ModelIn, k);
    LastIsLast(lines, UsageIn, k);
  }

  /** A stream is disabled by the first line that spoils it, for that line's reason. */
  lemma {:induction false} DisabledByTheLine(before: seq<Line>, line: Line, limits: Limits)
    requires AddLines(before, limits).disabled == None
    ensures var disabled := AddLines(before + [line], limits).disabled;
            var full := line.Data? && Delta(line.chunk) != "" && |Deltas(before)| >= limits.fragments;
            && (disabled == Some(BadJson) <==> line == InvalidJson)
            && (disabled == Some(BadPayload) <==> line == NotAnObject)
            && (disabled == Some(FragmentLimit) <==> full)
            && (disabled == Some(BufferLimit) <==>
                  && line.Data? && Delta(line.chunk) != "" && !full
                  && |Utf8.Encode(Joined(Deltas(before)) + Delta(line.chunk))| > limits.bytes)
  {
    SizeIsEncoded(Deltas(before));
    if line.Data? {
      Utf8.EncodeConcat(Joined(Deltas(before)), Delta(line.chunk));
    }
    AccumulatedSoFar(before, limits);
    EveryStreamIsSound(before, limits);
    assert (before + [line])[..|before|] == before;
  }

  // ----- replay

  /** The pieces between single spaces; never empty. */
  function Split(s: string): (words: seq<string>)
    ensures words != []
  {
    if s == "" then [""]
    else
      var rest := Split(s[1..]);
      if s[0] == ' ' then [""] + rest else [[s[0]] + rest[0]] + rest[1..]
  }

  /** The words from the k-th on, each but the last with its space. */
  function Pieces(words: seq<string>): seq<string> {
    if |words| <= 1 then words else [words[0] + " "] + Pieces(words[1..])
  }

  function WordChunk(r: Response, text: string, finish: Option<string>): Chunk {
    Chunk(Some(r.id), Number(r.created), Some(r.model), None, Some(Choice(finish, Some(text))))
  }

  /** Only the last chunk says why the text ends. */
  function WordLine(r: Response, pieces: seq<string>): Line
    requires pieces != []
  {
    Data(WordChunk(r, pieces[0], if |pieces| == 1 then Some(r.finish) else None))
  }

  function WordChunks(r: Response, pieces: seq<string>): seq<Line> {
    if pieces == [] then [] else [WordLine(r, pieces)] + WordChunks(r, pieces[1..])
  }

  /** One chunk for each word, then the end marker. */
  function Replay(r: Response): seq<Line> {
    WordChunks(r, Pieces(Split(r.content))) + [Ignored]
  }

  /** No word holds a space. */
  lemma {:induction false} WordsHaveNoSpace(s: string, k: nat)
    requires k < |Split(s)|
    ensures ' ' !in Split(s)[k]
  {
    if s != "" {
      var rest := Split(s[1..]);
      if s[0] == ' ' {
        if k > 0 {
          WordsHaveNoSpace(s[1..], k - 1);
        }
      } else {
        WordsHaveNoSpace(s[1..], k);
        assert k > 0 ==> Split(s)[k] == rest[k];
      }
    }
  }

  /** The words again, each but the last with a space behind it. */
  lemma {:induction false} PiecesAreWords(words: seq<string>, k: nat)
    requires k < |words|
    ensures |Pieces(words)| == |words| && Pieces(words)[k] == if k == |words| - 1 then words[k] else words[k] + " "
  {
    if |words| > 1 {
      PiecesAreWords(words[1..], if k > 0 then k - 1 else 0);
    }
  }

  lemma {:induction false} WordChunkAt(r: Response, pieces: seq<string>, k: nat)
    requires k < |pieces|
    ensures |WordChunks(r, pieces)| == |pieces|
    ensures WordChunks(r, pieces)[k]
            == Data(WordChunk(r, pieces[k], if k == |pieces| - 1 then Some(r.finish) else None))
  {
    if |pieces| > 1 {
      WordChunkAt(r, pieces[1..], if k > 0 then k - 1 else 0);
    }
  }

  /**
   A replay has one chunk for each word, with the word's text, and then the end marker; every chunk names the
   response's identifier, date and model, and only the last one says why the text ends.
   */
  lemma {:induction false} ReplayHasAChunkPerWord(r: Response, k: nat)
    requires k < |Split(r.content)|
    ensures var words, lines := Split(r.content), Replay(r);
            && |lines| == |words| + 1 && lines[|words|] == Ignored && lines[k].Data?
            && var c := lines[k].chunk;
               && c.id == Some(r.id) && c.created == Number(r.created) && c.model == Some(r.model)
               && c.usage == None && c.choice.Some?
               && c.choice.value.content == Some(if k == |words| - 1 then words[k] else words[k] + " ")
               && c.choice.value.finish == if k == |words| - 1 then Some(r.finish) else None
  {
    PiecesAreWords(Split(r.content), k);
    WordChunkAt(r, Pieces(Split(r.content)), k);
  }

  /** What the accumulator builds always has these parts, if the clock and the generator give some. */
  predicate Complete(r: Response) {
    r.id != "" && r.created != 0 && r.model != "" && r.finish != ""
  }

  lemma {:induction false} BuiltIsComplete(lines: seq<Line>, limits: Limits, fallbackModel: string, newId: string,
                                           now: int)
    requires newId != "" && now != 0
    ensures var r := BuildResponse(AddLines(lines, limits), fallbackModel, newId, now);
            r.Some? ==> Complete(r.value)
  {
    EveryStreamIsSound(lines, limits);
  }

  lemma {:induction false} JoinedCons(s: string, parts: seq<string>)
    ensures Joined([s] + parts) == s + Joined(parts)
  {
    if parts == [] {
      assert ([s] + parts)[..0] == [];
    } else {
      var n := |parts| - 1;
      JoinedCons(s, parts[..n]);
      assert ([s] + parts)[..n + 1] == [s] + parts[..n];
    }
  }

  lemma {:induction false} PiecesCons(word: string, rest: seq<string>)
    requires rest != []
    ensures Joined(Pieces([word] + rest)) == word + " " + Joined(Pieces(rest))
  {
    assert ([word] + rest)[1..] == rest;
    JoinedCons(word + " ", Pieces(rest));
  }

  lemma {:induction false} JoinedOne(word: string)
    ensures Joined([word]) == word
  {
    assert [word][..0] == [];
  }

  /** A character in front of the first word is in front of the whole text. */
  lemma {:induction false} FirstWordGrows(c: char, words: seq<string>)
    requires words != []
    ensures Joined(Pieces([[c] + words[0]] + words[1..])) == [c] + Joined(Pieces(words))
  {
    var rest := words[1..];
    assert words == [words[0]] + rest;
    if rest == [] {
      assert [[c] + words[0]] + rest == [[c] + words[0]];
      JoinedOne([c] + words[0]);
      JoinedOne(words[0]);
    } else {
      PiecesCons(words[0], rest);
      PiecesCons([c] + words[0], rest);
      assert [c] + words[0] + " " + Joined(Pieces(rest)) == [c] + (words[0] + " " + Joined(Pieces(rest)));
    }
  }

  /** Splitting at spaces and putting them back loses nothing. */
  lemma {:induction false} PiecesJoin(s: string)
    ensures Joined(Pieces(Split(s))) == s
  {
    if s == "" {
      JoinedOne("");
    } else {
      var rest := Split(s[1..]);
      PiecesJoin(s[1..]);
      assert s == [s[0]] + s[1..];
      if s[0] == ' ' {
        PiecesCons("", rest);
        assert "" + " " + s[1..] == s;
      } else {
        FirstWordGrows(s[0], rest);
      }
    }
  }

  lemma NextWord(r: Response, lines: seq<Line>, pieces: seq<string>)
    requires pieces != []
    ensures lines + WordChunks(r, pieces) == (lines + [WordLine(r, pieces)]) + WordChunks(r, pieces[1..])
    ensures (lines + [WordLine(r, pieces)])[..|lines|] == lines
  {
  }

  lemma Assoc(x: seq<string>, y: seq<string>, z: seq<string>)
    ensures (x + y) + z == x + (y + z)
  {
  }

  /** The deltas of a replayed response are its non-empty pieces. */
  lemma {:induction false} ReplayedDeltas(r: Response, lines: seq<Line>, pieces: seq<string>)
    ensures Deltas(lines + WordChunks(r, pieces)) == Deltas(lines) + NonEmptyForward(pieces)
    decreases |pieces|
  {
    if pieces == [] {
      assert lines + WordChunks(r, pieces) == lines;
    } else {
      NextWord(r, lines, pieces);
      OneMoreLine(lines, WordLine(r, pieces));
      ReplayedDeltas(r, lines + [WordLine(r, pieces)], pieces[1..]);
      Assoc(Deltas(lines), if pieces[0] != "" then [pieces[0]] else [], NonEmptyForward(pieces[1..]));
    }
  }

  lemma {:induction false} ReplayedIsValid(r: Response, lines: seq<Line>, pieces: seq<string>)
    ensures AllValid(lines + WordChunks(r, pieces)) <==> AllValid(lines)
    ensures HasData(lines + WordChunks(r, pieces)) <==> HasData(lines) || pieces != []
    decreases |pieces|
  {
    if pieces == [] {
      assert lines + WordChunks(r, pieces) == lines;
    } else {
      NextWord(r, lines, pieces);
      OneMoreLine(lines, WordLine(r, pieces));
      ReplayedIsValid(r, lines + [WordLine(r, pieces)], pieces[1..]);
    }
  }

  lemma {:induction false} ReplayedFinish(r: Response, lines: seq<Line>, pieces: seq<string>)
    requires r.finish != ""
    ensures LastFinish(lines + WordChunks(r, pieces)) == if pieces == [] then LastFinish(lines) else r.finish
    decreases |pieces|
  {
    if pieces == [] {
      assert lines + WordChunks(r, pieces) == lines;
    } else {
      NextWord(r, lines, pieces);
      ReplayedFinish(r, lines + [WordLine(r, pieces)], pieces[1..]);
    }
  }

  function NonEmptyForward(parts: seq<string>): seq<string> {
    if parts == [] then [] else (if parts[0] != "" then [parts[0]] else []) + NonEmptyForward(parts[1..])
  }

  lemma {:induction false} ForwardJoined(parts: seq<string>)
    ensures Joined(NonEmptyForward(parts)) == Joined(parts)
  {
    if parts != [] {
      ForwardJoined(parts[1..]);
      assert [parts[0]] + parts[1..] == parts;
      JoinedCons(parts[0], parts[1..]);
      JoinedCons(parts[0], NonEmptyForward(parts[1..]));
      assert [] + NonEmptyForward(parts[1..]) == NonEmptyForward(parts[1..]);
    }
  }

  /** Identifier, date and model of the first chunk of a replay are kept to the end. */
  predicate DescribedBy(a: Accumulator, r: Response) {
    a.id == Some(r.id) && a.created == Some(r.created) && a.model == Some(r.model) && a.usage == NO_USAGE
  }

  lemma WordDescribes(a: Accumulator, r: Response, pieces: seq<string>, limits: Limits)
    requires Complete(r) && pieces != [] && a.disabled == None && (a == FRESH || DescribedBy(a, r))
    ensures AddLine(a, WordLine(r, pieces), limits).disabled == None
            ==> DescribedBy(AddLine(a, WordLine(r, pieces), limits), r)
  {
  }

  lemma {:induction false} ReplayDescribes(r: Response, lines: seq<Line>, pieces: seq<string>, limits: Limits)
    requires Complete(r) && AddLines(lines, limits).disabled == None
    requires lines == [] || DescribedBy(AddLines(lines, limits), r)
    requires lines == [] ==> pieces != []
    ensures var a := AddLines(lines + WordChunks(r, pieces), limits);
            a.disabled == None ==> DescribedBy(a, r)
    decreases |pieces|
  {
    if pieces == [] {
      assert lines + WordChunks(r, pieces) == lines;
    } else {
      var next := lines + [WordLine(r, pieces)];
      NextWord(r, lines, pieces);
      WordDescribes(AddLines(lines, limits), r, pieces, limits);
      if AddLines(next, limits).disabled == None {
        ReplayDescribes(r, next, pieces[1..], limits);
      } else {
        DisabledStays(next, WordChunks(r, pieces[1..]), limits);
      }
    }
  }

  /** Nothing changes any more, the reason least of all. */
  lemma {:induction false} DisabledStays(lines: seq<Line>, more: seq<Line>, limits: Limits)
    requires AddLines(lines, limits).disabled.Some?
    ensures AddLines(lines + more, limits) == AddLines(lines, limits)
    decreases |more|
  {
    if more == [] {
      assert lines + more == lines;
    } else {
      var n := |more| - 1;
      DisabledStays(lines, more[..n], limits);
      assert (lines + more)[..|lines| + n] == lines + more[..n];
    }
  }

  lemma {:induction false} ReplayAccumulates(r: Response, limits: Limits)
    requires Complete(r)
    ensures var a, pieces := AddLines(Replay(r), limits), Pieces(Split(r.content));
            && Accumulated(a, true, NonEmptyForward(pieces), r.finish, true, limits)
            && (a.disabled == None ==> DescribedBy(a, r))
  {
    var pieces := Pieces(Split(r.content));
    var lines := WordChunks(r, pieces);
    assert [] + lines == lines;
    ReplayedDeltas(r, [], pieces);
    ReplayedIsValid(r, [], pieces);
    ReplayedFinish(r, [], pieces);
    ReplayDescribes(r, [], pieces, limits);
    assert [] + NonEmptyForward(pieces) == NonEmptyForward(pieces);
    assert Replay(r)[..|lines|] == lines;
    AccumulatedSoFar(lines, limits);
  }

  /**
   Replaying a complete response into a fresh accumulator rebuilds it, apart from the
   usage, exactly when its words fit the limits; otherwise nothing is stored.
   */
  lemma {:induction false} ReplayRebuilds(r: Response, limits: Limits, fallbackModel: string, newId: string, now: int)
    requires Complete(r)
    ensures BuildResponse(AddLines(Replay(r), limits), fallbackModel, newId, now)
            == if FitsIn(NonEmptyForward(Pieces(Split(r.content))), limits) then Some(r.(usage := NO_USAGE)) else None
  {
    ReplayAccumulates(r, limits);
    ForwardJoined(Pieces(Split(r.content)));
    PiecesJoin(r.content);
  }

  // ----- the handler, in place

  /** The accumulator object of one stream. */
  class StreamAccumulator {
    const limits: Limits
    var state: Accumulator

    constructor (limits: Limits)
      ensures this.limits == limits && state == FRESH
    {
      this.limits := limits;
      state := FRESH;
    }

    /** Counts first, then appends. */
    method AddChunk(c: Chunk) returns (reason: Option<Reason>)
      modifies this
      ensures (state, reason) == ChunkAdded(old(state), c, limits)
    {
      if state.disabled.Some? {
        return state.disabled;
      }
      state := Describe(state, c);
      var text := Delta(c);
      if text == "" {
        return None;
      }
      var fragments := state.fragments + 1;
      if fragments > limits.fragments {
        return Some(FragmentLimit);
      }
      var bytes := state.bytes + Size(text);
      if bytes > limits.bytes {
        return Some(BufferLimit);
      }
      state := state.(parts := state.parts + [text], fragments := fragments, bytes := bytes);
      return None;
    }

    method Disable(reason: Reason)
      modifies this
      ensures state == Silenced(old(state), reason)
    {
      if state.disabled == None {
        state := state.(disabled := Some(reason), parts := [], bytes := 0, fragments := 0);
      }
    }
  }

  class StreamingCacheHandler {
    const limits: Limits
    var active: map<nat, StreamAccumulator>
    var disabledStreams: nat
    var writeFailures: nat
    var stored: map<string, Response>

    /** No two streams share an accumulator. */
    ghost predicate Valid()
      reads this, active.Values
    {
      && (forall a, b | a in active && b in active && a != b :: active[a] != active[b])
      && forall a | a in active :: active[a].limits == limits
    }

    ghost function States(): map<nat, Accumulator>
      reads this, active.Values
    {
      map id | id in active :: active[id].state
    }

    constructor (limits: Limits)
      ensures Valid() && this.limits == limits && active == map[] && States() == map[]
      ensures disabledStreams == 0 && writeFailures == 0 && stored == map[]
    {
      this.limits := limits;
      active, disabledStreams, writeFailures, stored := map[], 0, 0, map[];
    }

    method StartStream(id: nat)
      requires Valid()
      modifies this`active
      ensures Valid() && States() == old(States())[id := FRESH]
      ensures id in active && fresh(active[id]) && active == old(active)[id := active[id]]
    {
      var a := new StreamAccumulator(limits);
      active := active[id := a];
    }

    /** Only this stream changes; the count of disabled streams grows when it is disabled now. */
    method AddChunkFromLine(id: nat, line: Line)
      requires Valid()
      modifies this`disabledStreams, active.Values
      ensures Valid() && active == old(active)
      ensures States() == if id in old(active) then old(States())[id := AddLine(old(active[id].state), line, limits)]
            else old(States())
      ensures disabledStreams == old(disabledStreams)
              + if id in active && old(active[id].state).disabled == None && active[id].state.disabled.Some? then 1
                  else 0
    {
      if line == Ignored || id !in active || active[id].state.disabled.Some? {
        return;
      }
      var a := active[id];
      var reason: Option<Reason> := None;
      match line {
        case InvalidJson => reason := Some(BadJson);
        case NotAnObject => reason := Some(BadPayload);
        case Data(chunk) => reason := a.AddChunk(chunk);
        case Ignored =>
      }
      if reason.Some? {
        if a.state.disabled == None {
          disabledStreams := disabledStreams + 1;
        }
        a.Disable(reason.value);
      }
    }

    /** The stream is forgotten; what it was is stored unless it is incomplete or the write fails. */
    method FinalizeAndStore(id: nat, key: string, fallbackModel: string, newId: string, now: int, writeFails: bool)
      requires Valid()
      modifies this`active, this`stored, this`writeFailures
      ensures Valid() && States() == old(States()) - {id} && active == old(active) - {id}
      ensures var response :=
                if id in old(active) then BuildResponse(old(active[id].state), fallbackModel, newId, now) else None;
              && stored == (if response.Some? && !writeFails then old(stored)[key := response.value] else old(stored))
              && writeFailures == old(writeFailures) + if response.Some? && writeFails then 1 else 0
    {
      if id !in active {
        return;
      }
      var state := active[id].state;
      active := active - {id};
      var response := BuildResponse(state, fallbackModel, newId, now);
      if response == None {
        return;
      }
      if writeFails {
        writeFailures := writeFailures + 1;
      } else {
        stored := stored[key := response.value];
      }
    }

    method DiscardStream(id: nat)
      requires Valid()
      modifies this`active
      ensures Valid() && States() == old(States()) - {id} && active == old(active) - {id} && stored == old(stored)
    {
      active := active - {id};
    }
  }
}
