/** Reading stored artifacts line by line from chunks of bytes, and writing them. */
module LineReader {
  import opened Options
  import opened Sequences
  import opened Utf8

  datatype Ending = Finished | TooLong(line: nat) | Undecodable(line: nat)

  /** The lines yielded before the reading ended, and how it ended. */
  datatype Outcome = Outcome(lines: seq<string>, ending: Ending) {
    function After(first: seq<string>): Outcome {
      Outcome(first + lines, ending)
    }
  }

  /** The position of the first newline, or the length. */
  function FirstNewline(b: seq<Byte>): (i: nat)
    ensures i <= |b| && (i < |b| ==> b[i] == NEWLINE)
    ensures forall j | 0 <= j < i :: b[j] != NEWLINE
  {
    if b == [] || b[0] == NEWLINE then 0 else 1 + FirstNewline(b[1..])
  }

  predicate Fits(b: seq<Byte>, limit: Option<nat>) {
    limit.Some? ==> |b| <= limit.value
  }

  /** The reading of the whole content at once, whose first line has this number. */
  function Lines(b: seq<Byte>, limit: Option<nat>, number: nat): Outcome
    decreases |b|
  {
    var i := FirstNewline(b);
    if !Fits(b[..i], limit) then Outcome([], TooLong(number))
    else if i == |b| && b == [] then Outcome([], Finished)
    else
      match Decode(b[..i])
      case None => Outcome([], Undecodable(number))
      case Some(line) =>
        if i == |b| then Outcome([line], Finished) else Lines(b[i + 1..], limit, number + 1).After([line])
  }

  function Join(chunks: seq<seq<Byte>>): seq<Byte> {
    if chunks == [] then [] else chunks[0] + Join(chunks[1..])
  }

  // ----- what a prefix already decides

  lemma {:induction false} FirstNewlineIsFirst(b: seq<Byte>, i: nat)
    requires i <= |b| && (i < |b| ==> b[i] == NEWLINE)
    requires forall j | 0 <= j < i :: b[j] != NEWLINE
    ensures FirstNewline(b) == i
  {
    if i > 0 {
      assert b[0] != NEWLINE;
      FirstNewlineIsFirst(b[1..], i - 1);
    }
  }

  /** A complete line in the buffer is the first line of the content. */
  lemma {:induction false} CompleteLine(buffer: seq<Byte>, more: seq<Byte>)
    requires FirstNewline(buffer) < |buffer|
    ensures var i := FirstNewline(buffer);
            && FirstNewline(buffer + more) == i && (buffer + more)[..i] == buffer[..i]
            && (buffer + more)[i + 1..] == buffer[i + 1..] + more
  {
    FirstNewlineIsFirst(buffer + more, FirstNewline(buffer));
  }

  lemma {:induction false} NoNewlineYet(buffer: seq<Byte>, more: seq<Byte>)
    requires FirstNewline(buffer) == |buffer|
    ensures FirstNewline(buffer + more) >= |buffer|
  {
    if buffer != [] {
      NoNewlineYet(buffer[1..], more);
      assert (buffer + more)[1..] == buffer[1..] + more;
    }
  }

  /** An unfinished line over the limit is too long, however it goes on. */
  lemma {:induction false} OverlongPrefix(buffer: seq<Byte>, more: seq<Byte>, limit: Option<nat>, number: nat,
                                          lines: seq<string>)
    requires FirstNewline(buffer) == |buffer| && !Fits(buffer, limit)
    ensures Lines(buffer + more, limit, number).After(lines) == Outcome(lines, TooLong(number))
  {
    NoNewlineYet(buffer, more);
  }

  lemma AfterAfter(o: Outcome, a: seq<string>, b: seq<string>)
    ensures o.After(b).After(a) == o.After(a + b)
  {
    assert a + (b + o.lines) == (a + b) + o.lines;
  }

  /** The loop over the complete lines of the buffer. */
  method TakeLines(content: seq<Byte>, limit: Option<nat>, number: nat, ghost more: seq<Byte>)
    returns (lines: seq<string>, rest: seq<Byte>, next: nat, failure: Option<Ending>)
    ensures failure.Some? ==> Lines(content + more, limit, number) == Outcome(lines, failure.value)
    ensures failure == None ==>
              && Lines(content + more, limit, number) == Lines(rest + more, limit, next).After(lines)
              && FirstNewline(rest) == |rest|
  {
    lines, rest, next, failure := [], content, number, None;
    assert Lines(content + more, limit, number).After([]) == Lines(content + more, limit, number);
    while true
      invariant Lines(content + more, limit, number) == Lines(rest + more, limit, next).After(lines)
      decreases |rest|
    {
      var i := FirstNewline(rest);
      if i == |rest| {
        return;
      }
      CompleteLine(rest, more);
      var raw := rest[..i];
      if !Fits(raw, limit) {
        assert Outcome([], TooLong(next)).After(lines) == Outcome(lines, TooLong(next));
        failure := Some(TooLong(next));
        return;
      }
      match Decode(raw) {
        case None =>
          assert Outcome([], Undecodable(next)).After(lines) == Outcome(lines, Undecodable(next));
          failure := Some(Undecodable(next));
          return;
        case Some(line) =>
          AfterAfter(Lines(rest[i + 1..] + more, limit, next + 1), lines, [line]);
          lines, rest, next := lines + [line], rest[i + 1..], next + 1;
      }
    }
  }

  /** The line left when the chunks are used up. */
  lemma LastLine(buffer: seq<Byte>, limit: Option<nat>, number: nat, lines: seq<string>)
    requires FirstNewline(buffer) == |buffer| && Fits(buffer, limit)
    ensures Lines(buffer + [], limit, number).After(lines)
            == if buffer == [] then Outcome(lines, Finished)
               else if Decode(buffer) == None then Outcome(lines, Undecodable(number))
               else Outcome(lines + [Decode(buffer).value], Finished)
  {
    assert buffer + [] == buffer && buffer[..|buffer|] == buffer;
  }

  /** However the content is cut into chunks, the reader yields the lines, and ends, as if it read all at once. */
  method IterLines(chunks: seq<seq<Byte>>, limit: Option<nat>) returns (r: Outcome)
    ensures r == Lines(Join(chunks), limit, 1)
  {
    var buffer: seq<Byte>, number: nat := [], 1;
    var lines: seq<string> := [];
    ghost var content := Join(chunks);
    ghost var left := chunks;
    assert [] + content == content && Lines(content, limit, 1).After([]) == Lines(content, limit, 1);
    for k := 0 to |chunks|
      invariant FirstNewline(buffer) == |buffer| && Fits(buffer, limit)
      invariant left == chunks[k..]
      invariant Lines(content, limit, 1) == Lines(buffer + Join(left), limit, number).After(lines)
    {
      ghost var more := Join(left[1..]);
      ConcatAssoc(buffer, chunks[k], more);
      left := left[1..];
      var taken, rest, next, failure := TakeLines(buffer + chunks[k], limit, number, more);
      if failure.Some? {
        return Outcome(lines + taken, failure.value);
      }
      AfterAfter(Lines(rest + more, limit, next), lines, taken);
      lines, buffer, number := lines + taken, rest, next;
      if !Fits(buffer, limit) {
        OverlongPrefix(buffer, more, limit, number, lines);
        return Outcome(lines, TooLong(number));
      }
    }
    LastLine(buffer, limit, number, lines);
    if buffer == [] {
      return Outcome(lines, Finished);
    }
    match Decode(buffer) {
      case None => r := Outcome(lines, Undecodable(number));
      case Some(line) => r := Outcome(lines + [line], Finished);
    }
  }

  // ----- writing

  function Written(lines: seq<string>): seq<Byte> {
    if lines == [] then [] else Encode(lines[0] + "\n") + Written(lines[1..])
  }

  /** One chunk for each line. */
  method WriteLines(lines: seq<string>) returns (chunks: seq<seq<Byte>>)
    ensures |chunks| == |lines| && Join(chunks) == Written(lines)
  {
    chunks := [];
    var k := |lines|;
    assert lines[|lines|..] == [];
    while k > 0
      invariant 0 <= k <= |lines| && |chunks| == |lines| - k
      invariant Join(chunks) == Written(lines[k..])
    {
      k := k - 1;
      assert lines[k..][1..] == lines[k + 1..];
      var chunk := Encode(lines[k] + "\n");
      assert ([chunk] + chunks)[1..] == chunks;
      chunks := [chunk] + chunks;
    }
    assert lines[0..] == lines;
  }

  predicate Readable(line: string, limit: Option<nat>) {
    '\n' !in line && Fits(Encode(line), limit)
  }

  ghost predicate AllReadable(lines: seq<string>, limit: Option<nat>) {
    forall k | 0 <= k < |lines| :: Readable(lines[k], limit)
  }

  lemma EncodeNewline()
    ensures Encode("\n") == [NEWLINE]
  {
    assert "\n"[1..] == "";
  }

  lemma {:induction false} SplitAtNewline(head: seq<Byte>, tail: seq<Byte>)
    requires NEWLINE !in head
    ensures var all := head + [NEWLINE] + tail;
            FirstNewline(all) == |head| && all[..|head|] == head && all[|head| + 1..] == tail
  {
    FirstNewlineIsFirst(head + [NEWLINE] + tail, |head|);
  }

  lemma {:induction false} EncodeAroundNewline(head: string, tail: string)
    ensures Encode(head + "\n" + tail) == Encode(head) + [NEWLINE] + Encode(tail)
  {
    EncodeNewline();
    EncodeConcat(head, "\n");
    EncodeConcat(head + "\n", tail);
  }

  /** The bytes of a line and its newline, cut at the first newline of the line. */
  lemma {:induction false} FirstLineWritten(line: string, rest: seq<Byte>, i: nat)
    requires i <= |line| && '\n' !in line[..i] && (i < |line| ==> line[i] == '\n')
    ensures var all, head := Encode(line + "\n") + rest, Encode(line[..i]);
            && FirstNewline(all) == |head| < |all| && all[..|head|] == head
            && (i == |line| ==> all[|head| + 1..] == rest)
  {
    var head, tail := line[..i], if i == |line| then "" else line[i + 1..] + "\n";
    assert line + "\n" == head + "\n" + tail;
    EncodeAroundNewline(head, tail);
    NewlineOnlyInNewline(head);
    ConcatAssoc(Encode(head) + [NEWLINE], Encode(tail), rest);
    SplitAtNewline(Encode(head), Encode(tail) + rest);
    assert i == |line| ==> Encode(tail) + rest == rest;
  }

  function CharNewline(s: string): (i: nat)
    ensures i <= |s| && '\n' !in s[..i] && (i < |s| ==> s[i] == '\n')
  {
    if s == [] || s[0] == '\n' then 0
    else
      var i := CharNewline(s[1..]);
      assert s[..i + 1] == [s[0]] + s[1..][..i];
      1 + i
  }

  // ----- what an outcome means

  /** The bytes start with a line over the limit. */
  predicate StartsTooLong(b: seq<Byte>, limit: Option<nat>) {
    limit.Some? && |b| > limit.value && NEWLINE !in b[..limit.value + 1]
  }

  /** The bytes start with a line within the limit that is not UTF-8. */
  predicate StartsUndecodable(b: seq<Byte>, limit: Option<nat>) {
    exists i :: 0 <= i <= |b| && NEWLINE !in b[..i] && (i < |b| ==> b[i] == NEWLINE)
      && (limit.Some? ==> i <= limit.value) && Decode(b[..i]) == None
  }

  lemma {:induction false} WrittenFirst(line: string, lines: seq<string>)
    ensures Written([line] + lines) == Encode(line) + [NEWLINE] + Written(lines)
  {
    assert ([line] + lines)[1..] == lines;
    EncodeNewline();
    EncodeConcat(line, "\n");
  }

  /** What is read of the first line of content. */
  lemma {:induction false} FirstLineRead(b: seq<Byte>, line: string)
    requires Decode(b[..FirstNewline(b)]) == Some(line)
    ensures '\n' !in line && Encode(line) == b[..FirstNewline(b)]
  {
    EncodeDecode(b[..FirstNewline(b)]);
    NewlineOnlyInNewline(line);
  }

  /**
   The lines, written again, are a prefix of the content, and each is within the limit.  They are all of it, up to a
   last newline, when the reading finished; otherwise what follows starts with a line over the limit, or with one that
   is not UTF-8, and the error names the number of that line.
   */
  predicate Explains(o: Outcome, b: seq<Byte>, limit: Option<nat>, number: nat) {
    var w := Written(o.lines);
    && (forall k | 0 <= k < |o.lines| ::
          '\n' !in o.lines[k] && (limit.Some? ==> |Encode(o.lines[k])| <= limit.value))
    && match o.ending
       case Finished => w == b || w == b + [NEWLINE]
       case TooLong(line) => line == number + |o.lines| && w <= b && StartsTooLong(b[|w|..], limit)
       case Undecodable(line) => line == number + |o.lines| && w <= b && StartsUndecodable(b[|w|..], limit)
  }

  lemma FirstLineAndRest(b: seq<Byte>, i: nat, w: seq<Byte>)
    requires i < |b| && b[i] == NEWLINE
    ensures var all := b[..i] + [NEWLINE] + w;
            && (w == b[i + 1..] ==> all == b)
            && (w == b[i + 1..] + [NEWLINE] ==> all == b + [NEWLINE])
            && (w <= b[i + 1..] ==> all <= b && b[|all|..] == b[i + 1..][|w|..])
  {
    assert b == b[..i] + [NEWLINE] + b[i + 1..];
  }

  lemma {:induction false} OneMoreExplained(b: seq<Byte>, i: nat, line: string, rest: Outcome, limit: Option<nat>,
                                            number: nat)
    requires i < |b| && b[i] == NEWLINE && Encode(line) == b[..i] && Fits(b[..i], limit) && '\n' !in line
    requires Explains(rest, b[i + 1..], limit, number + 1)
    ensures Explains(rest.After([line]), b, limit, number)
  {
    WrittenFirst(line, rest.lines);
    FirstLineAndRest(b, i, Written(rest.lines));
  }

  lemma {:induction false} NothingExplained(b: seq<Byte>, limit: Option<nat>, number: nat)
    ensures var seg := b[..FirstNewline(b)];
            && (!Fits(seg, limit) ==> Explains(Outcome([], TooLong(number)), b, limit, number))
            && (Fits(seg, limit) && Decode(seg) == None ==>
                  Explains(Outcome([], Undecodable(number)), b, limit, number))
  {
    assert b[|Written([])|..] == b;
  }

  lemma {:induction false} LastExplained(b: seq<Byte>, line: string, limit: Option<nat>, number: nat)
    requires Encode(line) == b && Fits(b, limit) && '\n' !in line
    ensures Explains(Outcome([line], Finished), b, limit, number)
  {
    WrittenFirst(line, []);
    assert [line] + [] == [line];
    assert Written([line]) == b + [NEWLINE];
  }

  /** Reading does what its outcome says, for all content. */
  lemma {:induction false} LinesExplain(b: seq<Byte>, limit: Option<nat>, number: nat)
    ensures Explains(Lines(b, limit, number), b, limit, number)
    decreases |b|
  {
    var i := FirstNewline(b);
    if !Fits(b[..i], limit) || (b != [] && Decode(b[..i]) == None) {
      NothingExplained(b, limit, number);
    } else if b != [] {
      var line := Decode(b[..i]).value;
      FirstLineRead(b, line);
      if i == |b| {
        assert b[..i] == b;
        LastExplained(b, line, limit, number);
      } else {
        LinesExplain(b[i + 1..], limit, number + 1);
        OneMoreExplained(b, i, line, Lines(b[i + 1..], limit, number + 1), limit, number);
      }
    }
  }

  lemma AfterFirst(o: Outcome, lines: seq<string>)
    requires lines != []
    ensures o.After([lines[0]]) == Outcome(lines, Finished) <==> o == Outcome(lines[1..], Finished)
  {
    assert lines == [lines[0]] + lines[1..];
    assert o.lines == ([lines[0]] + o.lines)[1..];
  }

  lemma AllReadableFirst(lines: seq<string>, limit: Option<nat>)
    requires lines != []
    ensures AllReadable(lines, limit) <==> Readable(lines[0], limit) && AllReadable(lines[1..], limit)
  {
    assert forall k | 1 <= k < |lines| :: lines[k] == lines[1..][k - 1];
  }

  /** What was written is read back exactly when no line holds a newline or is longer than the limit. */
  lemma {:induction false} RoundTrip(lines: seq<string>, limit: Option<nat>, number: nat)
    ensures Lines(Written(lines), limit, number) == Outcome(lines, Finished) <==> AllReadable(lines, limit)
    decreases |lines|
  {
    if lines != [] {
      var line := lines[0];
      var i := CharNewline(line);
      RoundTrip(lines[1..], limit, number + 1);
      AllReadableFirst(lines, limit);
      if i == |line| {
        assert line[..i] == line;
        ReadableFirst(lines, limit, number);
        AfterFirst(Lines(Written(lines[1..]), limit, number + 1), lines);
      } else {
        assert !Readable(line, limit);
        FirstLineDiffers(lines, limit, number, i);
      }
    }
  }

  lemma {:induction false} ReadableFirst(lines: seq<string>, limit: Option<nat>, number: nat)
    requires lines != [] && '\n' !in lines[0]
    ensures Fits(Encode(lines[0]), limit) ==>
              Lines(Written(lines), limit, number) == Lines(Written(lines[1..]), limit, number + 1).After([lines[0]])
    ensures !Fits(Encode(lines[0]), limit) ==> Lines(Written(lines), limit, number) == Outcome([], TooLong(number))
  {
    var line := lines[0];
    assert line[..|line|] == line;
    FirstLineWritten(line, Written(lines[1..]), |line|);
    DecodeEncode(line);
  }

  lemma {:induction false} FirstLineDiffers(lines: seq<string>, limit: Option<nat>, number: nat, i: nat)
    requires lines != [] && i < |lines[0]| && lines[0][i] == '\n' && '\n' !in lines[0][..i]
    ensures Lines(Written(lines), limit, number) != Outcome(lines, Finished)
  {
    var head := lines[0][..i];
    FirstLineWritten(lines[0], Written(lines[1..]), i);
    DecodeEncode(head);
    var o := Lines(Written(lines), limit, number);
    assert o.lines != [] ==> o.lines[0] == head && |head| < |lines[0]|;
  }

  /** The round trip, through any chunking of what was written. */
  lemma {:induction false} WrittenThenRead(lines: seq<string>, limit: Option<nat>, chunks: seq<seq<Byte>>)
    requires Join(chunks) == Written(lines)
    ensures Lines(Join(chunks), limit, 1) == Outcome(lines, Finished) <==> AllReadable(lines, limit)
  {
    RoundTrip(lines, limit, 1);
  }
}
