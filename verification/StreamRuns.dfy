/** Concurrent streams in one handler: what is stored when several requests share a stream identifier. */
module StreamRuns {
  import opened Options
  import opened StreamCache
  import Utf8

  /** How a finished stream is to be stored. */
  datatype Storing = Storing(key: string, fallbackModel: string, newId: string, now: int, fails: bool)

  /** What requests do; a discarded stream is stored nowhere. */
  datatype Event =
    | Started(request: nat, id: nat)
    | Added(request: nat, id: nat, line: Line)
    | Finished(id: nat, storing: Storing)
    | Discarded(id: nat)

  datatype Handler = Handler(active: map<nat, Accumulator>, stored: map<string, Response>)

  function Finalized(a: Accumulator, storing: Storing): Option<Response> {
    if storing.fails then None else BuildResponse(a, storing.fallbackModel, storing.newId, storing.now)
  }

  function After(h: Handler, e: Event, limits: Limits): Handler {
    match e
    case Started(request, id) => h.(active := h.active[id := FRESH])
    case Added(request, id, line) => if id in h.active
        then h.(active := h.active[id := AddLine(h.active[id], line, limits)]) else h
    case Finished(id, storing) =>
      var response := if id in h.active then Finalized(h.active[id], storing) else None;
      Handler(h.active - {id}, if response.Some? then h.stored[storing.key := response.value] else h.stored)
    case Discarded(id) => h.(active := h.active - {id})
  }

  function AfterAll(events: seq<Event>, limits: Limits): Handler {
    if events == [] then Handler(map[], map[])
    else After(AfterAll(events[..|events| - 1], limits), events[|events| - 1], limits)
  }

  /** Nothing but the end of a stream stores anything, and only under its own key. */
  lemma OnlyFinishingStores(h: Handler, e: Event, limits: Limits, key: string)
    requires !(e.Finished? && e.storing.key == key && e.id in h.active && !e.storing.fails)
    ensures key in After(h, e, limits).stored <==> key in h.stored
    ensures key in h.stored ==> After(h, e, limits).stored[key] == h.stored[key]
  {
  }

  // ----- the lines behind a state

  /** A line and the request that added it. */
  datatype Signed = Signed(request: nat, line: Line)

  /** Has the stream been started, and not ended since? */
  predicate Active(events: seq<Event>, id: nat) {
    events != [] &&
    var e := events[|events| - 1];
    var before := Active(events[..|events| - 1], id);
    match e
    case Started(request, i) => i == id || before
    case Added(request, i, line) => before
    case Finished(i, storing) => i != id && before
    case Discarded(i) => i != id && before
  }

  /** The lines added to the stream since it was last started, by whomever. */
  function Since(events: seq<Event>, id: nat): seq<Signed> {
    if events == [] then []
    else
      var e, before := events[|events| - 1], events[..|events| - 1];
      match e
      case Started(request, i) => if i == id then [] else Since(before, id)
      case Added(request, i, line) =>
        if i == id && Active(before, id) then Since(before, id) + [Signed(request, line)] else Since(before, id)
      case Finished(i, storing) => if i == id then [] else Since(before, id)
      case Discarded(i) => if i == id then [] else Since(before, id)
  }

  function LinesOf(signed: seq<Signed>): seq<Line> {
    seq(|signed|, k requires 0 <= k < |signed| => signed[k].line)
  }

  lemma LinesOfNext(signed: seq<Signed>, s: Signed)
    ensures LinesOf(signed + [s]) == LinesOf(signed) + [s.line]
  {
  }

  lemma AddLinesNext(lines: seq<Line>, line: Line, limits: Limits)
    ensures AddLines(lines + [line], limits) == AddLine(AddLines(lines, limits), line, limits)
  {
    assert (lines + [line])[..|lines|] == lines;
  }

  /** Over any interleaving a stream's state is that of the lines added under its identifier since its last start. */
  lemma {:induction false} EveryStateIsItsLines(events: seq<Event>, limits: Limits, id: nat)
    ensures var h := AfterAll(events, limits);
            && (id in h.active <==> Active(events, id))
            && (id in h.active ==> h.active[id] == AddLines(LinesOf(Since(events, id)), limits))
            && (id !in h.active ==> Since(events, id) == [])
  {
    if events != [] {
      var before, e := events[..|events| - 1], events[|events| - 1];
      EveryStateIsItsLines(before, limits, id);
      if e.Added? && e.id == id && Active(before, id) {
        LinesOfNext(Since(before, id), Signed(e.request, e.line));
        AddLinesNext(LinesOf(Since(before, id)), e.line, limits);
      }
      assert LinesOf([]) == [];
    }
  }

  // ----- whose text is stored

  predicate IsLineOf(e: Event, request: nat, id: nat) {
    e.Added? && e.request == request && e.id == id
  }

  /** All lines of one request under the identifier. */
  function Sent(events: seq<Event>, request: nat, id: nat): seq<Line> {
    if events == [] then []
    else
      var e := events[|events| - 1];
      Sent(events[..|events| - 1], request, id) + if IsLineOf(e, request, id) then [e.line] else []
  }

  function Sign(request: nat, lines: seq<Line>): seq<Signed> {
    seq(|lines|, k requires 0 <= k < |lines| => Signed(request, lines[k]))
  }

  /** Starts and ends cut the life of a stream. */
  predicate Cuts(e: Event, id: nat) {
    !e.Added? && e.id == id
  }

  /** The position after the last start or end of the stream. */
  function LastCut(events: seq<Event>, id: nat): (n: nat)
    ensures n <= |events|
  {
    if events == [] then 0
    else if Cuts(events[|events| - 1], id) then |events|
    else LastCut(events[..|events| - 1], id)
  }

  /**
   The request has the stream to itself: it sent no line before the last start or end, and after that a line is its
   own exactly when the stream is open.
   */
  predicate HasToItself(events: seq<Event>, request: nat, id: nat) {
    var n := LastCut(events, id);
    var open := n > 0 && events[n - 1].Started?;
    && (forall k | 0 <= k < n :: !IsLineOf(events[k], request, id))
    && (forall k | n <= k < |events| && events[k].Added? && events[k].id == id ::
          (events[k].request == request <==> open))
  }

  lemma {:induction false} OpenAfterStart(events: seq<Event>, id: nat)
    ensures Active(events, id) <==> LastCut(events, id) > 0 && events[LastCut(events, id) - 1].Started?
  {
    if events != [] {
      OpenAfterStart(events[..|events| - 1], id);
    }
  }

  lemma {:induction false} SentNothing(events: seq<Event>, request: nat, id: nat)
    ensures Sent(events, request, id) == [] <==> forall k | 0 <= k < |events| :: !IsLineOf(events[k], request, id)
  {
    if events != [] {
      var n := |events| - 1;
      SentNothing(events[..n], request, id);
      assert forall k | 0 <= k < n :: events[..n][k] == events[k];
      assert Sent(events, request, id) == []
             <==> Sent(events[..n], request, id) == [] && !IsLineOf(events[n], request, id);
    }
  }

  /** One event more, which is no start or end of the stream. */
  lemma {:induction false} StillToItself(events: seq<Event>, request: nat, id: nat)
    requires events != [] && !Cuts(events[|events| - 1], id)
    ensures var before, e := events[..|events| - 1], events[|events| - 1];
            HasToItself(events, request, id)
            <==> && HasToItself(before, request, id)
                 && (e.Added? && e.id == id ==> (e.request == request <==> Active(before, id)))
  {
    var m := |events| - 1;
    var before := events[..m];
    OpenAfterStart(before, id);
    assert LastCut(events, id) == LastCut(before, id);
    assert forall k | 0 <= k < m :: before[k] == events[k];
  }

  lemma {:induction false} SignedNext(request: nat, lines: seq<Line>, signed: seq<Signed>, s: Signed)
    ensures Sign(request, lines + [s.line]) == signed + [s] <==> signed == Sign(request, lines) && s.request == request
    ensures Sign(request, lines) == signed + [s] ==> s.request == request
  {
    var all, next := Sign(request, lines + [s.line]), signed + [s];
    assert all == Sign(request, lines) + [Signed(request, s.line)];
    if all == next {
      assert all[..|lines|] == Sign(request, lines) && next[..|signed|] == signed;
      assert all[|lines|] == next[|signed|];
    }
    if Sign(request, lines) == next {
      assert next[|signed|] == s;
      assert Sign(request, lines)[|signed|].request == request;
    }
  }

  /** The stream's lines are exactly those of one request if and only if it has the stream to itself. */
  lemma {:induction false} StreamIsOwnIff(events: seq<Event>, request: nat, id: nat, limits: Limits)
    ensures Since(events, id) == Sign(request, Sent(events, request, id)) <==> HasToItself(events, request, id)
  {
    if events != [] {
      var before, e := events[..|events| - 1], events[|events| - 1];
      var sent, since := Sent(before, request, id), Since(before, id);
      assert sent + [] == sent;
      if Cuts(e, id) {
        SentNothing(events, request, id);
      } else {
        StreamIsOwnIff(before, request, id, limits);
        EveryStateIsItsLines(before, limits, id);
        StillToItself(events, request, id);
        if e.Added? && e.id == id {
          SignedNext(request, sent, since, Signed(e.request, e.line));
        }
      }
    }
  }

  /** Only this request's lines come under the identifier. */
  predicate OnlyLinesOf(events: seq<Event>, request: nat, id: nat) {
    forall k | 0 <= k < |events| && events[k].id == id :: IsLineOf(events[k], request, id)
  }

  /** A request whose start is followed by its own lines only, under the identifier, has the stream to itself. */
  lemma {:induction false} UndisturbedHasToItself(before: seq<Event>, request: nat, id: nat, own: seq<Event>)
    requires forall k | 0 <= k < |before| :: !IsLineOf(before[k], request, id)
    requires OnlyLinesOf(own, request, id)
    ensures var events := before + [Started(request, id)] + own;
            HasToItself(events, request, id) && Active(events, id)
  {
    var events := before + [Started(request, id)] + own;
    if own == [] {
      assert events == before + [Started(request, id)];
    } else {
      var n := |own| - 1;
      assert events[..|events| - 1] == before + [Started(request, id)] + own[..n];
      UndisturbedHasToItself(before, request, id, own[..n]);
      StillToItself(events, request, id);
    }
  }

  lemma {:induction false} SignedLines(request: nat, lines: seq<Line>)
    ensures LinesOf(Sign(request, lines)) == lines
  {
  }

  /**
   What finishing a stream stores: exactly if its lines since the last start hold data, are valid and fit, all their
   text; and that is the text of one request when that request has the stream to itself.
   */
  lemma {:induction false} FinishingStores(events: seq<Event>, id: nat, storing: Storing, limits: Limits, request: nat)
    requires !storing.fails && Active(events, id)
    ensures var lines := LinesOf(Since(events, id));
            var (before, after) := (AfterAll(events, limits), AfterAll(events + [Finished(id, storing)], limits));
            if HasData(lines) && AllValid(lines) && FitsIn(Deltas(lines), limits) then
              && storing.key in after.stored && after.stored[storing.key].content == Joined(Deltas(lines))
              && (HasToItself(events, request, id) ==>
                    after.stored[storing.key].content == Joined(Deltas(Sent(events, request, id))))
            else after.stored == before.stored
  {
    var all := events + [Finished(id, storing)];
    assert all[..|events|] == events;
    EveryStateIsItsLines(events, limits, id);
    StoredIffComplete(LinesOf(Since(events, id)), limits, storing.fallbackModel, storing.newId, storing.now);
    StreamIsOwnIff(events, request, id, limits);
    SignedLines(request, Sent(events, request, id));
  }

  /** A request whose start and finish enclose no other event under its identifier stores its own text, or nothing. */
  lemma {:induction false} UndisturbedStoresItsText(before: seq<Event>, request: nat, id: nat, own: seq<Event>,
                                                    storing: Storing, limits: Limits)
    requires forall k | 0 <= k < |before| :: !IsLineOf(before[k], request, id)
    requires OnlyLinesOf(own, request, id) && !storing.fails
    ensures var events := before + [Started(request, id)] + own;
            var lines := Sent(events, request, id);
            var after := AfterAll(events + [Finished(id, storing)], limits);
            if HasData(lines) && AllValid(lines) && FitsIn(Deltas(lines), limits) then
              storing.key in after.stored && after.stored[storing.key].content == Joined(Deltas(lines))
            else after.stored == AfterAll(events, limits).stored
  {
    var events := before + [Started(request, id)] + own;
    UndisturbedHasToItself(before, request, id, own);
    StreamIsOwnIff(events, request, id, limits);
    SignedLines(request, Sent(events, request, id));
    FinishingStores(events, id, storing, limits, request);
  }

  function TextLine(text: string): Line {
    Data(Chunk(None, Absent, None, None, Some(Choice(None, Some(text)))))
  }

  function Mixed(): seq<Event> {
    [Started(1, 5), Added(1, 5, TextLine("a")), Started(2, 5), Added(2, 5, TextLine("b")), Added(1, 5, TextLine("c"))]
  }

  lemma {:induction false} MixedLines()
    ensures LinesOf(Since(Mixed(), 5)) == [TextLine("b"), TextLine("c")] && Active(Mixed(), 5)
    ensures Sent(Mixed(), 1, 5) == [TextLine("a"), TextLine("c")] && Sent(Mixed(), 2, 5) == [TextLine("b")]
  {
    var e1 := [Started(1, 5)];
    var e2 := e1 + [Added(1, 5, TextLine("a"))];
    var e3 := e2 + [Started(2, 5)];
    var e4 := e3 + [Added(2, 5, TextLine("b"))];
    var e5 := Mixed();
    assert e1[..0] == [] && e2[..1] == e1 && e3[..2] == e2 && e4[..3] == e3 && e5[..4] == e4;
    assert Active(e1, 5) && Active(e2, 5) && Active(e3, 5) && Active(e4, 5);
    assert Since(e3, 5) == [] && Since(e4, 5) == [Signed(2, TextLine("b"))];
    assert Since(e5, 5) == [Signed(2, TextLine("b")), Signed(1, TextLine("c"))];
    assert Sent(e1, 1, 5) == [] && Sent(e2, 1, 5) == [TextLine("a")];
    assert Sent(e3, 1, 5) == [TextLine("a")] && Sent(e4, 1, 5) == [TextLine("a")];
    assert Sent(e1, 2, 5) == [] && Sent(e2, 2, 5) == [] && Sent(e3, 2, 5) == [] && Sent(e4, 2, 5) == [TextLine("b")];
  }

  lemma {:induction false} TextDeltas()
    ensures var lines := [TextLine("b"), TextLine("c")];
            HasData(lines) && AllValid(lines) && Deltas(lines) == ["b", "c"]
  {
    var lines := [TextLine("b"), TextLine("c")];
    assert lines[0].Data?;
    assert lines[..1] == [TextLine("b")] && [TextLine("b")][..0] == [];
    assert Deltas([TextLine("b")]) == ["b"];
  }

  lemma OneByte(c: char)
    requires c as int < 0x80
    ensures Size([c]) == 1
  {
    assert Utf8.Encode([c]) == Utf8.EncodeChar(c) + Utf8.Encode([]);
  }

  lemma {:induction false} TextPieces()
    ensures Joined(["b", "c"]) == "bc" && SizeOf(["b", "c"]) == 2
  {
    OneByte('b');
    OneByte('c');
    assert ["b", "c"][..1] == ["b"] && ["b"][..0] == [];
    assert Joined(["b"]) == "b" && SizeOf(["b"]) == 1;
  }

  /**
   Two requests under one identifier: the second start drops the first request's text, later text is mixed, and what
   is stored is neither request's.
   */
  lemma {:induction false} TwoRequestsMix(storing: Storing)
    requires !storing.fails
    ensures var after := AfterAll(Mixed() + [Finished(5, storing)], Limits(100, 10));
            && storing.key in after.stored && after.stored[storing.key].content == "bc"
            && Sent(Mixed(), 1, 5) == [TextLine("a"), TextLine("c")] && Sent(Mixed(), 2, 5) == [TextLine("b")]
            && !HasToItself(Mixed(), 1, 5) && !HasToItself(Mixed(), 2, 5)
  {
    MixedLines();
    TextDeltas();
    TextPieces();
    FinishingStores(Mixed(), 5, storing, Limits(100, 10), 1);
    StreamIsOwnIff(Mixed(), 1, 5, Limits(100, 10));
    StreamIsOwnIff(Mixed(), 2, 5, Limits(100, 10));
    SignedLines(1, Sent(Mixed(), 1, 5));
    SignedLines(2, Sent(Mixed(), 2, 5));
  }

  // ----- the handler in place

  /** Serving the events one by one gives exactly the states and the stored responses above. */
  method Serve(events: seq<Event>, limits: Limits) returns (handler: StreamingCacheHandler)
    ensures handler.Valid() && Handler(handler.States(), handler.stored) == AfterAll(events, limits)
  {
    handler := new StreamingCacheHandler(limits);
    for k := 0 to |events|
      invariant fresh(handler) && handler.Valid() && handler.limits == limits
      invariant forall id | id in handler.active :: fresh(handler.active[id])
      invariant Handler(handler.States(), handler.stored) == AfterAll(events[..k], limits)
    {
      assert events[..k + 1][..k] == events[..k];
      match events[k] {
        case Started(request, id) => handler.StartStream(id);
        case Added(request, id, line) => handler.AddChunkFromLine(id, line);
        case Finished(id, storing) =>
          handler.FinalizeAndStore(id, storing.key, storing.fallbackModel, storing.newId, storing.now, storing.fails);
        case Discarded(id) => handler.DiscardStream(id);
      }
    }
    assert events[..|events|] == events;
  }
}
