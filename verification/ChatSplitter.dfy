/** Splitting chat microbatch candidates into chunks and single fallbacks under two caps. */
module ChatSplitter {
  import opened Options
  import opened Sequences

  datatype Mode = Disabled | Concurrent | SyncMicrobatch

  /** The configuration of a deployment as written. */
  datatype Config = Config(mode: Mode, upstreamMax: Option<int>, maxTokens: Option<int>, homogeneous: bool)

  datatype Settings = Settings(mode: Mode, upstreamMax: int, maxTokens: Option<int>, homogeneous: bool)

  /** A prepared item; only eligible ones have a group. */
  datatype Candidate = Candidate(id: nat, deployment: nat, group: Option<nat>, tokens: nat)

  datatype Reason = TokenLimit | SingleCandidate

  /** What the configuration's validator accepts. */
  predicate ValidConfig(c: Config) {
    && (c.upstreamMax.Some? ==> c.upstreamMax.value >= 1)
    && (c.maxTokens.Some? ==> c.maxTokens.value >= 1)
    && (c.mode == SyncMicrobatch ==> c.upstreamMax.Some? && c.upstreamMax.value >= 2 && c.homogeneous)
  }

  /** A missing or invalid configuration gives the defaults. */
  function ResolveSettings(c: Option<Config>): Settings {
    if c.Some? && ValidConfig(c.value) then
      var upstream := if c.value.upstreamMax.Some? then c.value.upstreamMax.value else 1;
      Settings(c.value.mode, if upstream < 1 then 1 else upstream, c.value.maxTokens, c.value.homogeneous)
    else Settings(Concurrent, 1, None, true)
  }

  function MaxBatchSize(s: Settings): int {
    if s.upstreamMax < 2 then 2 else s.upstreamMax
  }

  function Tokens(b: seq<Candidate>): nat {
    if b == [] then 0 else b[0].tokens + Tokens(b[1..])
  }

  /** Within both caps; one candidate alone may be over the token cap. */
  predicate Fits(b: seq<Candidate>, s: Settings) {
    && |b| <= MaxBatchSize(s)
    && (s.maxTokens.Some? ==> Tokens(b) <= s.maxTokens.value)
  }

  /** A single candidate, or as many as the deployment takes at once (two at least) within its token cap. */
  predicate Legal(b: seq<Candidate>, s: Settings) {
    || |b| == 1
    || (2 <= |b| && (|b| == 2 || |b| <= s.upstreamMax) && (s.maxTokens.Some? ==> Tokens(b) <= s.maxTokens.value))
  }

  predicate Oversized(c: Candidate, s: Settings) {
    s.maxTokens.Some? && c.tokens > s.maxTokens.value
  }

  // ----- the greedy cut

  /** The current block when nothing more may join it. */
  function Closed(current: seq<Candidate>): seq<seq<Candidate>> {
    if current == [] then [] else [current]
  }

  /** Does this candidate start a new block? */
  predicate Breaks(current: seq<Candidate>, c: Candidate, s: Settings) {
    || |current| >= MaxBatchSize(s)
    || (s.maxTokens.Some? && current != [] && Tokens(current) + c.tokens > s.maxTokens.value)
  }

  /** The blocks, in order, of the open block followed by the remaining candidates. */
  function Blocks(current: seq<Candidate>, rest: seq<Candidate>, s: Settings): seq<seq<Candidate>>
    decreases |rest|
  {
    if rest == [] then Closed(current)
    else if Oversized(rest[0], s) then Closed(current) + [[rest[0]]] + Blocks([], rest[1..], s)
    else if Breaks(current, rest[0], s) then Closed(current) + Blocks([rest[0]], rest[1..], s)
    else Blocks(current + [rest[0]], rest[1..], s)
  }

  function ChunkOf(b: seq<Candidate>): seq<seq<Candidate>> {
    if |b| > 1 then [b] else []
  }

  function FallbackOf(b: seq<Candidate>, s: Settings): seq<(Candidate, Reason)> {
    if |b| == 1 then [(b[0], if Oversized(b[0], s) then TokenLimit else SingleCandidate)] else []
  }

  function ChunksOf(blocks: seq<seq<Candidate>>): seq<seq<Candidate>> {
    if blocks == [] then [] else ChunkOf(blocks[0]) + ChunksOf(blocks[1..])
  }

  function FallbacksOf(blocks: seq<seq<Candidate>>, s: Settings): seq<(Candidate, Reason)> {
    if blocks == [] then [] else FallbackOf(blocks[0], s) + FallbacksOf(blocks[1..], s)
  }

  // ----- the loop

  lemma ClosedFirst(current: seq<Candidate>, blocks: seq<seq<Candidate>>, s: Settings)
    ensures ChunksOf(Closed(current) + blocks) == ChunkOf(current) + ChunksOf(blocks)
    ensures FallbacksOf(Closed(current) + blocks, s) == FallbackOf(current, s) + FallbacksOf(blocks, s)
  {
    if current == [] {
      assert Closed(current) + blocks == blocks;
    } else {
      assert (Closed(current) + blocks)[1..] == blocks;
    }
  }

  lemma {:induction false} TokensConcat(a: seq<Candidate>, b: seq<Candidate>)
    ensures Tokens(a + b) == Tokens(a) + Tokens(b)
  {
    if a == [] {
      assert a + b == b;
    } else {
      TokensConcat(a[1..], b);
      assert (a + b)[1..] == a[1..] + b;
    }
  }

  method Flush(chunks: seq<seq<Candidate>>, fallbacks: seq<(Candidate, Reason)>, current: seq<Candidate>, s: Settings)
    returns (chunks': seq<seq<Candidate>>, fallbacks': seq<(Candidate, Reason)>)
    requires |current| == 1 ==> !Oversized(current[0], s)
    ensures chunks' == chunks + ChunkOf(current)
    ensures fallbacks' == fallbacks + FallbackOf(current, s)
  {
    chunks', fallbacks' := chunks, fallbacks;
    if |current| > 1 {
      chunks' := chunks + [current];
    } else if current != [] {
      fallbacks' := fallbacks + [(current[0], SingleCandidate)];
    }
  }

  /** The state of the loop, and what it has still to add. */
  ghost predicate OnTheWay(all: seq<seq<Candidate>>, chunks: seq<seq<Candidate>>, fallbacks: seq<(Candidate, Reason)>,
                           todo: seq<seq<Candidate>>, s: Settings) {
    && ChunksOf(all) == chunks + ChunksOf(todo)
    && FallbacksOf(all, s) == fallbacks + FallbacksOf(todo, s)
  }

  lemma FlushIsOnTheWay(all: seq<seq<Candidate>>, chunks: seq<seq<Candidate>>, fallbacks: seq<(Candidate, Reason)>,
                        current: seq<Candidate>, todo: seq<seq<Candidate>>, s: Settings)
    requires OnTheWay(all, chunks, fallbacks, Closed(current) + todo, s)
    ensures OnTheWay(all, chunks + ChunkOf(current), fallbacks + FallbackOf(current, s), todo, s)
  {
    ClosedFirst(current, todo, s);
    ConcatAssoc(chunks, ChunkOf(current), ChunksOf(todo));
    ConcatAssoc(fallbacks, FallbackOf(current, s), FallbacksOf(todo, s));
  }

  lemma OversizedIsOnTheWay(all: seq<seq<Candidate>>, chunks: seq<seq<Candidate>>, fallbacks: seq<(Candidate, Reason)>,
                            current: seq<Candidate>, more: seq<Candidate>, s: Settings)
    requires more != [] && Oversized(more[0], s) && OnTheWay(all, chunks, fallbacks, Blocks(current, more, s), s)
    ensures OnTheWay(all, chunks + ChunkOf(current), fallbacks + FallbackOf(current, s) + [(more[0], TokenLimit)],
                     Blocks([], more[1..], s), s)
  {
    var c, tail := more[0], Blocks([], more[1..], s);
    assert Closed(current) + [[c]] + tail == Closed(current) + (Closed([c]) + tail);
    FlushIsOnTheWay(all, chunks, fallbacks, current, Closed([c]) + tail, s);
    FlushIsOnTheWay(all, chunks + ChunkOf(current), fallbacks + FallbackOf(current, s), [c], tail, s);
    assert chunks + ChunkOf(current) + ChunkOf([c]) == chunks + ChunkOf(current);
  }

  lemma BreakIsOnTheWay(all: seq<seq<Candidate>>, chunks: seq<seq<Candidate>>, fallbacks: seq<(Candidate, Reason)>,
                        current: seq<Candidate>, more: seq<Candidate>, s: Settings)
    requires more != [] && !Oversized(more[0], s) && Breaks(current, more[0], s)
    requires OnTheWay(all, chunks, fallbacks, Blocks(current, more, s), s)
    ensures OnTheWay(all, chunks + ChunkOf(current), fallbacks + FallbackOf(current, s),
                     Blocks([more[0]], more[1..], s), s)
  {
    FlushIsOnTheWay(all, chunks, fallbacks, current, Blocks([more[0]], more[1..], s), s);
  }

  /** The loop cuts exactly the greedy blocks. */
  method SplitCandidates(candidates: seq<Candidate>, s: Settings)
    returns (chunks: seq<seq<Candidate>>, fallbacks: seq<(Candidate, Reason)>)
    ensures chunks == ChunksOf(Blocks([], candidates, s))
    ensures fallbacks == FallbacksOf(Blocks([], candidates, s), s)
  {
    chunks, fallbacks := [], [];
    var current: seq<Candidate>, currentTokens := [], 0;
    ghost var all := Blocks([], candidates, s);
    ghost var more := candidates;
    for k := 0 to |candidates|
      invariant more == candidates[k..]
      invariant currentTokens == Tokens(current)
      invariant |current| == 1 ==> !Oversized(current[0], s)
      invariant OnTheWay(all, chunks, fallbacks, Blocks(current, more, s), s)
    {
      var c := candidates[k];
      TokensConcat(current, [c]);
      TokensConcat([], [c]);
      if s.maxTokens.Some? && c.tokens > s.maxTokens.value {
        OversizedIsOnTheWay(all, chunks, fallbacks, current, more, s);
        chunks, fallbacks := Flush(chunks, fallbacks, current, s);
        fallbacks := fallbacks + [(c, TokenLimit)];
        current, currentTokens := [], 0;
      } else {
        if |current| >= MaxBatchSize(s)
            || (s.maxTokens.Some? && current != [] && currentTokens + c.tokens > s.maxTokens.value) {
          BreakIsOnTheWay(all, chunks, fallbacks, current, more, s);
          chunks, fallbacks := Flush(chunks, fallbacks, current, s);
          current, currentTokens := [], 0;
          assert current + [c] == [c];
        }
        current, currentTokens := current + [c], currentTokens + c.tokens;
      }
      more := more[1..];
    }
    assert Closed(current) + [] == Closed(current);
    FlushIsOnTheWay(all, chunks, fallbacks, current, [], s);
    chunks, fallbacks := Flush(chunks, fallbacks, current, s);
  }

  // ----- the cut is complete, ordered and legal

  function Flatten(blocks: seq<seq<Candidate>>): seq<Candidate> {
    if blocks == [] then [] else blocks[0] + Flatten(blocks[1..])
  }

  ghost predicate AllLegal(blocks: seq<seq<Candidate>>, s: Settings) {
    forall k | 0 <= k < |blocks| :: Legal(blocks[k], s)
  }

  lemma ClosedCut(current: seq<Candidate>, blocks: seq<seq<Candidate>>, s: Settings)
    requires current != [] ==> Legal(current, s)
    requires AllLegal(blocks, s)
    ensures AllLegal(Closed(current) + blocks, s)
    ensures Flatten(Closed(current) + blocks) == current + Flatten(blocks)
  {
    assert current == [] ==> Closed(current) + blocks == blocks;
    assert current != [] ==> (Closed(current) + blocks)[1..] == blocks;
  }

  lemma OversizedCut(current: seq<Candidate>, c: Candidate, blocks: seq<seq<Candidate>>, s: Settings)
    requires current != [] ==> Legal(current, s)
    requires AllLegal(blocks, s)
    ensures AllLegal(Closed(current) + [[c]] + blocks, s)
    ensures Flatten(Closed(current) + [[c]] + blocks) == current + ([c] + Flatten(blocks))
  {
    assert Closed(current) + [[c]] + blocks == Closed(current) + (Closed([c]) + blocks);
    ClosedCut([c], blocks, s);
    ClosedCut(current, Closed([c]) + blocks, s);
  }

  lemma {:induction false} BlocksCut(current: seq<Candidate>, rest: seq<Candidate>, s: Settings)
    requires current != [] ==> Fits(current, s)
    ensures Flatten(Blocks(current, rest, s)) == current + rest
    ensures AllLegal(Blocks(current, rest, s), s)
    decreases |rest|
  {
    if rest == [] {
      ClosedCut(current, [], s);
      assert Closed(current) + [] == Closed(current);
    } else {
      var c := rest[0];
      assert rest == [c] + rest[1..];
      if Oversized(c, s) {
        BlocksCut([], rest[1..], s);
        OversizedCut(current, c, Blocks([], rest[1..], s), s);
      } else if Breaks(current, c, s) {
        assert Tokens([c]) == c.tokens;
        BlocksCut([c], rest[1..], s);
        ClosedCut(current, Blocks([c], rest[1..], s), s);
      } else {
        TokensConcat(current, [c]);
        BlocksCut(current + [c], rest[1..], s);
        assert current + [c] + rest[1..] == current + rest;
      }
    }
  }

  // ----- no cut has fewer blocks

  predicate Suffix(a: seq<Candidate>, b: seq<Candidate>) {
    |a| <= |b| && a == b[|b| - |a|..]
  }

  lemma {:induction false} SuffixBreaksLater(a: seq<Candidate>, b: seq<Candidate>, c: Candidate, s: Settings)
    requires Suffix(a, b) && !Oversized(c, s) && Breaks(a, c, s)
    ensures Breaks(b, c, s)
  {
    var front := b[..|b| - |a|];
    assert b == front + a;
    TokensConcat(front, a);
  }

  /** Starting with less in the open block never costs a block, and saves at most one. */
  lemma {:induction false} LessIsNoWorse(a: seq<Candidate>, b: seq<Candidate>, rest: seq<Candidate>, s: Settings)
    requires Suffix(a, b)
    ensures |Blocks(a, rest, s)| <= |Blocks(b, rest, s)| <= |Blocks(a, rest, s)| + 1
    decreases |rest|
  {
    if rest != [] && !Oversized(rest[0], s) {
      var c := rest[0];
      if Breaks(a, c, s) {
        SuffixBreaksLater(a, b, c, s);
      } else if Breaks(b, c, s) {
        LessIsNoWorse([c], a + [c], rest[1..], s);
      } else {
        LessIsNoWorse(a + [c], b + [c], rest[1..], s);
      }
    }
  }

  lemma {:induction false} LegalPrefixFits(current: seq<Candidate>, more: seq<Candidate>, s: Settings)
    requires Fits(current + more, s)
    ensures Fits(current, s)
    ensures more != [] ==> !Oversized(more[0], s) && !Breaks(current, more[0], s)
  {
    TokensConcat(current, more);
  }

  /** A block within both caps is gathered without a break. */
  lemma {:induction false} BlockIsGathered(current: seq<Candidate>, more: seq<Candidate>, rest: seq<Candidate>,
                                           s: Settings)
    requires Fits(current + more, s)
    ensures Blocks(current, more + rest, s) == Blocks(current + more, rest, s)
    decreases |more|
  {
    if more == [] {
      assert more + rest == rest && current + more == current;
    } else {
      LegalPrefixFits(current, more, s);
      assert (more + rest)[1..] == more[1..] + rest;
      assert current + more == current + [more[0]] + more[1..];
      BlockIsGathered(current + [more[0]], more[1..], rest, s);
    }
  }

  lemma {:induction false} FirstBlockCostsOne(block: seq<Candidate>, rest: seq<Candidate>, s: Settings)
    requires Legal(block, s)
    ensures |Blocks([], block + rest, s)| <= 1 + |Blocks([], rest, s)|
  {
    if Fits(block, s) {
      assert [] + block == block;
      BlockIsGathered([], block, rest, s);
      LessIsNoWorse([], block, rest, s);
    } else {
      assert (block + rest)[1..] == rest;
      assert Tokens(block) == block[0].tokens;
      assert Oversized(block[0], s);
    }
  }

  /** Optimality: every order-preserving cut into legal blocks has at least as many blocks as the greedy one. */
  lemma {:induction false} GreedyIsMinimal(cut: seq<seq<Candidate>>, s: Settings)
    requires AllLegal(cut, s)
    ensures |Blocks([], Flatten(cut), s)| <= |cut|
  {
    if cut != [] {
      var rest := cut[1..];
      forall k | 0 <= k < |rest| ensures Legal(rest[k], s) {
        assert rest[k] == cut[k + 1];
      }
      GreedyIsMinimal(rest, s);
      FirstBlockCostsOne(cut[0], Flatten(rest), s);
    }
  }

  lemma {:induction false} EveryBlockIsUsed(blocks: seq<seq<Candidate>>, s: Settings)
    requires AllLegal(blocks, s)
    ensures |ChunksOf(blocks)| + |FallbacksOf(blocks, s)| == |blocks|
  {
    if blocks != [] {
      assert Legal(blocks[0], s);
      forall k | 0 <= k < |blocks[1..]| ensures Legal(blocks[1..][k], s) {
        assert blocks[1..][k] == blocks[k + 1];
      }
      EveryBlockIsUsed(blocks[1..], s);
    }
  }

  /** Chunks and fallbacks together are the fewest blocks that any cut of the candidates within both caps can have. */
  lemma {:induction false} SplitIsMinimal(candidates: seq<Candidate>, s: Settings, cut: seq<seq<Candidate>>)
    requires AllLegal(cut, s) && Flatten(cut) == candidates
    ensures |ChunksOf(Blocks([], candidates, s))| + |FallbacksOf(Blocks([], candidates, s), s)| <= |cut|
  {
    GreedyIsMinimal(cut, s);
    BlocksCut([], candidates, s);
    EveryBlockIsUsed(Blocks([], candidates, s), s);
  }

  // ----- each candidate is placed once

  function Count(b: seq<Candidate>, c: Candidate): nat {
    if b == [] then 0 else (if b[0] == c then 1 else 0) + Count(b[1..], c)
  }

  function FallbackCandidates(fallbacks: seq<(Candidate, Reason)>): seq<Candidate> {
    if fallbacks == [] then [] else [fallbacks[0].0] + FallbackCandidates(fallbacks[1..])
  }

  lemma {:induction false} CountConcat(a: seq<Candidate>, b: seq<Candidate>, c: Candidate)
    ensures Count(a + b, c) == Count(a, c) + Count(b, c)
  {
    if a == [] {
      assert a + b == b;
    } else {
      CountConcat(a[1..], b, c);
      assert (a + b)[1..] == a[1..] + b;
    }
  }

  lemma {:induction false} BlocksCount(blocks: seq<seq<Candidate>>, s: Settings, c: Candidate)
    requires AllLegal(blocks, s)
    ensures Count(Flatten(ChunksOf(blocks)), c) + Count(FallbackCandidates(FallbacksOf(blocks, s)), c)
            == Count(Flatten(blocks), c)
  {
    if blocks != [] {
      var b, rest := blocks[0], blocks[1..];
      assert Legal(b, s);
      forall k | 0 <= k < |rest| ensures Legal(rest[k], s) {
        assert rest[k] == blocks[k + 1];
      }
      BlocksCount(rest, s, c);
      CountConcat(b, Flatten(rest), c);
      if |b| > 1 {
        assert ChunksOf(blocks)[1..] == ChunksOf(rest) && FallbacksOf(blocks, s) == FallbacksOf(rest, s);
        CountConcat(b, Flatten(ChunksOf(rest)), c);
      } else {
        assert ChunksOf(blocks) == ChunksOf(rest);
        SingleCount(b, FallbacksOf(rest, s), s, c);
      }
    }
  }

  lemma SingleCount(b: seq<Candidate>, fallbacks: seq<(Candidate, Reason)>, s: Settings, c: Candidate)
    requires |b| == 1
    ensures Count(FallbackCandidates(FallbackOf(b, s) + fallbacks), c)
            == Count(b, c) + Count(FallbackCandidates(fallbacks), c)
  {
    var all := FallbackOf(b, s) + fallbacks;
    assert all[1..] == fallbacks && all[0].0 == b[0];
    assert FallbackCandidates(all)[1..] == FallbackCandidates(fallbacks);
  }

  /** Every candidate is in exactly one chunk or fallback, as often as it was given. */
  lemma {:induction false} SplitPlacesOnce(candidates: seq<Candidate>, s: Settings, c: Candidate)
    ensures var blocks := Blocks([], candidates, s);
            Count(Flatten(ChunksOf(blocks)), c) + Count(FallbackCandidates(FallbacksOf(blocks, s)), c)
                == Count(candidates, c)
  {
    BlocksCut([], candidates, s);
    assert [] + candidates == candidates;
    BlocksCount(Blocks([], candidates, s), s, c);
  }

  // ----- what the deployment accepts

  datatype Refusal = WrongMode | BatchTooLarge | TooManyTokens | NoExecutor

  function CapableExecutor(s: Settings, size: nat, tokens: nat, hasExecutor: bool): Option<Refusal> {
    if s.mode != SyncMicrobatch then Some(WrongMode)
    else if s.upstreamMax < size then Some(BatchTooLarge)
    else if s.maxTokens.Some? && tokens > s.maxTokens.value then Some(TooManyTokens)
    else if !hasExecutor then Some(NoExecutor)
    else None
  }

  /** An executor is refused exactly for the mode, the size, the tokens, or for want of one. */
  lemma AcceptedIff(s: Settings, size: nat, tokens: nat, hasExecutor: bool)
    ensures CapableExecutor(s, size, tokens, hasExecutor) == None
            <==> && s.mode == SyncMicrobatch && size <= s.upstreamMax && hasExecutor
                 && (s.maxTokens.Some? ==> tokens <= s.maxTokens.value)
  {
  }

  /** A candidate falls back over the token limit exactly when it is over the limit by itself. */
  lemma {:induction false} FallbackReasons(blocks: seq<seq<Candidate>>, s: Settings, k: nat)
    requires k < |FallbacksOf(blocks, s)|
    ensures var (c, reason) := FallbacksOf(blocks, s)[k];
            reason == if s.maxTokens.Some? && c.tokens > s.maxTokens.value then TokenLimit else SingleCandidate
  {
    var here := |FallbackOf(blocks[0], s)|;
    if k >= here {
      FallbackReasons(blocks[1..], s, k - here);
    }
  }

  lemma {:induction false} ChunkIsABlock(blocks: seq<seq<Candidate>>, k: nat) returns (j: nat)
    requires k < |ChunksOf(blocks)|
    ensures j < |blocks| && blocks[j] == ChunksOf(blocks)[k] && |blocks[j]| >= 2
  {
    var here := |ChunkOf(blocks[0])|;
    if k < here {
      j := 0;
    } else {
      var i := ChunkIsABlock(blocks[1..], k - here);
      j := i + 1;
    }
  }

  lemma {:induction false} SubsequenceIsLighter(a: seq<Candidate>, b: seq<Candidate>)
    requires Subsequence(a, b)
    ensures |a| <= |b| && Tokens(a) <= Tokens(b)
    decreases |b|
  {
    if a != [] {
      if a[0] == b[0] && Subsequence(a[1..], b[1..]) {
        SubsequenceIsLighter(a[1..], b[1..]);
      } else {
        SubsequenceIsLighter(a, b[1..]);
      }
    }
  }

  /**
   A planned chunk, and what is left of it when items drop out, is refused by its deployment only for want of an
   executor.
   */
  lemma {:induction false} PlannedChunkIsAccepted(c: Option<Config>, candidates: seq<Candidate>, k: nat,
                                                  left: seq<Candidate>, hasExecutor: bool)
    requires ResolveSettings(c).mode == SyncMicrobatch
    requires k < |ChunksOf(Blocks([], candidates, ResolveSettings(c)))|
    requires Subsequence(left, ChunksOf(Blocks([], candidates, ResolveSettings(c)))[k])
    ensures var s := ResolveSettings(c);
            && 2 <= |ChunksOf(Blocks([], candidates, s))[k]| <= s.upstreamMax
            && CapableExecutor(s, |left|, Tokens(left), hasExecutor) == if hasExecutor then None else Some(NoExecutor)
  {
    var s := ResolveSettings(c);
    var blocks := Blocks([], candidates, s);
    BlocksCut([], candidates, s);
    var j := ChunkIsABlock(blocks, k);
    assert Legal(blocks[j], s);
    SubsequenceIsLighter(left, blocks[j]);
  }

  // ----- the estimate

  /** A quarter of the characters of roles and contents, rounded up, and at least one. */
  method EstimateInputTokens(messages: seq<(nat, nat)>) returns (tokens: nat)
    ensures tokens >= 1
    ensures 4 * (tokens - 1) < Characters(messages) <= 4 * tokens || (Characters(messages) == 0 && tokens == 1)
  {
    var total := 0;
    assert messages[0..] == messages;
    for k := 0 to |messages|
      invariant total + Characters(messages[k..]) == Characters(messages)
    {
      assert messages[k..][1..] == messages[k + 1..];
      total := total + messages[k].0;
      total := total + messages[k].1;
    }
    tokens := if (total + 3) / 4 < 1 then 1 else (total + 3) / 4;
  }

  function Characters(messages: seq<(nat, nat)>): nat {
    if messages == [] then 0 else messages[0].0 + messages[0].1 + Characters(messages[1..])
  }
}
