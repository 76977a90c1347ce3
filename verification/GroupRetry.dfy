/** Requeueing a failed group of embedding items: attempt counts, shrinking caps, and why it ends. */
module GroupRetry {
  import opened Options
  import opened Arithmetic

  /** What an item's error record says of its last group failure; `None` is missing or not a number. */
  datatype Metadata = Metadata(retryCount: Option<int>, originalSize: Option<int>, nextMaxInputs: Option<int>)

  datatype Config = Config(enabled: bool, maxGroupRetries: int, minReducedSize: int, reduceFactor: real)

  function NextMaxInputs(m: Metadata): Option<int> {
    if m.nextMaxInputs.Some? && m.nextMaxInputs.value > 0 then m.nextMaxInputs else None
  }

  function RetryCount(m: Metadata): nat {
    if m.retryCount.Some? then Max(0, m.retryCount.value) else 0
  }

  /** A recorded size of zero counts as none. */
  function OriginalSize(m: Metadata, chunkSize: nat): int {
    Max(1, if m.originalSize.Some? && m.originalSize.value != 0 then m.originalSize.value else chunkSize)
  }

  function Ceiling(x: real): (c: int)
    ensures c as real - 1.0 < x <= c as real
  {
    if x == x.Floor as real then x.Floor else x.Floor + 1
  }

  function ClampedFactor(factor: real): real {
    if factor < 0.0 then 0.0 else if factor > 1.0 then 1.0 else factor
  }

  /** The scaled size rounded up, but at least the minimum; no size if that is not smaller. */
  function ReducedTo(size: nat, scaled: real, c: Config): Option<int> {
    var reduced := Max(Max(1, c.minReducedSize), Ceiling(scaled));
    if reduced >= size then None else Some(reduced)
  }

  /** A smaller size for the next attempt, if there is one. */
  function NextReducedSize(size: nat, c: Config): Option<int> {
    ReducedTo(size, ScaledSize(size, c), c)
  }

  function ScaledSize(size: nat, c: Config): real {
    size as real * ClampedFactor(c.reduceFactor)
  }

  function Most(counts: seq<int>): int
    requires counts != []
  {
    if |counts| == 1 then counts[0] else Max(counts[0], Most(counts[1..]))
  }

  function RetryCounts(items: seq<Metadata>): seq<int> {
    seq(|items|, i requires 0 <= i < |items| => RetryCount(items[i]))
  }

  function OriginalSizes(items: seq<Metadata>): seq<int> {
    seq(|items|, i requires 0 <= i < |items| => OriginalSize(items[i], |items|))
  }

  /** The record written to every item of a requeued group, or `None` when the group is not requeued. */
  function Requeue(items: seq<Metadata>, c: Config, retryable: bool): Option<Metadata> {
    if !retryable || !c.enabled || items == [] then None
    else
      var count := Most(RetryCounts(items)) + 1;
      var original := Some(Most(OriginalSizes(items)));
      if count <= Max(0, c.maxGroupRetries) then Some(Metadata(Some(count), original, Some(|items|)))
      else
        match NextReducedSize(|items|, c)
        case None => None
        case Some(size) => Some(Metadata(Some(count), original, Some(size)))
  }

  /** The bound a group requeue imposes: retries left, then the size. */
  function RetriesLeft(m: Metadata, c: Config): nat {
    Max(0, Max(0, c.maxGroupRetries) - RetryCount(m))
  }

  lemma {:induction false} MostIsUpper(counts: seq<int>, k: nat)
    requires k < |counts|
    ensures counts[k] <= Most(counts)
  {
    if k > 0 {
      MostIsUpper(counts[1..], k - 1);
    }
  }

  /** A requeue raises every item's count, never raises the size, and lowers it once the retries are used up. */
  lemma {:induction false} RequeueMakesProgress(items: seq<Metadata>, c: Config, retryable: bool, k: nat)
    requires k < |items| && Requeue(items, c, retryable).Some?
    ensures var m := Requeue(items, c, retryable).value;
            && RetryCount(items[k]) < RetryCount(m)
            && NextMaxInputs(m).Some? && 1 <= NextMaxInputs(m).value <= |items|
            && (RetryCount(m) > Max(0, c.maxGroupRetries) ==> NextMaxInputs(m).value < |items|)
            && OriginalSize(m, |items|) >= OriginalSize(items[k], |items|)
  {
    MostIsUpper(RetryCounts(items), k);
    MostIsUpper(OriginalSizes(items), k);
    assert RetryCounts(items)[k] == RetryCount(items[k]);
    assert OriginalSizes(items)[k] == OriginalSize(items[k], |items|);
  }

  lemma CeilingAtLeast(x: real, n: int)
    ensures Ceiling(x) >= n <==> x > n as real - 1.0
  {
  }

  /** There is no smaller size for a group at the least size already, or hardly reduced by the factor. */
  lemma {:induction false} NotReducedIff(size: nat, scaled: real, c: Config)
    ensures ReducedTo(size, scaled, c) == None <==> size <= Max(1, c.minReducedSize) || scaled > size as real - 1.0
  {
    CeilingAtLeast(scaled, size);
  }

  lemma {:induction false} MostIsOne(counts: seq<int>)
    requires counts != []
    ensures exists k | 0 <= k < |counts| :: counts[k] == Most(counts)
  {
    if |counts| > 1 {
      MostIsOne(counts[1..]);
      var k :| 0 <= k < |counts[1..]| && counts[1..][k] == Most(counts[1..]);
      assert counts[k + 1] == Most(counts[1..]);
      assert counts[0] == Most(counts) || counts[k + 1] == Most(counts);
    } else {
      assert counts[0] == Most(counts);
    }
  }

  /** The least size that is at least the scaled one, the least size configured, and one. */
  predicate LeastAbove(scaled: real, c: Config, next: int) {
    && next >= 1 && next >= c.minReducedSize && next as real >= scaled
    && (next == 1 || next == c.minReducedSize || (next - 1) as real < scaled)
  }

  lemma ReducedIsLeast(size: nat, scaled: real, c: Config)
    ensures var next := ReducedTo(size, scaled, c);
            next.Some? ==> next.value < size && LeastAbove(scaled, c, next.value)
  {
  }

  /** The factor counts as zero below zero and as one above one. */
  lemma ScaledByFactor(size: nat, c: Config)
    ensures c.reduceFactor < 0.0 ==> ScaledSize(size, c) == 0.0
    ensures c.reduceFactor > 1.0 ==> ScaledSize(size, c) == size as real
    ensures 0.0 <= c.reduceFactor <= 1.0 ==> ScaledSize(size, c) == size as real * c.reduceFactor
  {
  }

  lemma {:induction false} MostOfItems(items: seq<Metadata>)
    requires items != []
    ensures exists k | 0 <= k < |items| :: RetryCount(items[k]) == Most(RetryCounts(items))
    ensures exists k | 0 <= k < |items| :: OriginalSize(items[k], |items|) == Most(OriginalSizes(items))
    ensures forall k | 0 <= k < |items| :: RetryCount(items[k]) <= Most(RetryCounts(items))
    ensures forall k | 0 <= k < |items| :: OriginalSize(items[k], |items|) <= Most(OriginalSizes(items))
  {
    var counts, sizes := RetryCounts(items), OriginalSizes(items);
    MostIsOne(counts);
    MostIsOne(sizes);
    var j :| 0 <= j < |counts| && counts[j] == Most(counts);
    assert RetryCount(items[j]) == Most(counts);
    var l :| 0 <= l < |sizes| && sizes[l] == Most(sizes);
    assert OriginalSize(items[l], |items|) == Most(sizes);
    forall k: nat | k < |items|
      ensures RetryCount(items[k]) <= Most(counts) && OriginalSize(items[k], |items|) <= Most(sizes)
    {
      MostIsUpper(counts, k);
      MostIsUpper(sizes, k);
      assert counts[k] == RetryCount(items[k]) && sizes[k] == OriginalSize(items[k], |items|);
    }
  }

  /**
   What a requeued group records: one failure more than the most any of its items had, the largest original size, and
   as the next size its own while retries are left, and afterwards the reduced one, which is smaller.
   */
  lemma {:induction false} RequeueRecords(items: seq<Metadata>, c: Config, retryable: bool)
    requires Requeue(items, c, retryable).Some?
    ensures var m := Requeue(items, c, retryable).value;
            && m.retryCount.Some? && m.originalSize.Some? && m.nextMaxInputs.Some?
            && (exists k | 0 <= k < |items| :: RetryCount(items[k]) == m.retryCount.value - 1)
            && (exists k | 0 <= k < |items| :: OriginalSize(items[k], |items|) == m.originalSize.value)
            && (forall k | 0 <= k < |items| ::
                  RetryCount(items[k]) < m.retryCount.value && OriginalSize(items[k], |items|) <= m.originalSize.value)
            && (m.retryCount.value <= c.maxGroupRetries ==> m.nextMaxInputs.value == |items|)
            && (m.retryCount.value > c.maxGroupRetries ==>
                  && m.nextMaxInputs.value < |items|
                  && LeastAbove(ScaledSize(|items|, c), c, m.nextMaxInputs.value))
  {
    MostOfItems(items);
    ReducedIsLeast(|items|, ScaledSize(|items|, c), c);
  }

  /** A group is requeued if it may be at all, and has retries left or a smaller size. */
  lemma RequeuedIff(items: seq<Metadata>, c: Config, retryable: bool)
    ensures Requeue(items, c, retryable).Some?
            <==> retryable && c.enabled && items != []
                 && (Most(RetryCounts(items)) < Max(0, c.maxGroupRetries) || NextReducedSize(|items|, c).Some?)
    ensures NextReducedSize(|items|, c).Some? ==> |items| > Max(1, c.minReducedSize)
  {
  }

  // ----- consecutive requeues of one item

  /** A group failure seen by one item: the group's records, and the item's place among them. */
  datatype Failure = Failure(group: seq<Metadata>, place: nat)

  /** The groups an item failed in, one after the other, each one planned within the cap left by the one before. */
  predicate IsChain(start: Metadata, failures: seq<Failure>, c: Config)
    decreases |failures|
  {
    failures == [] ||
    var f := failures[0];
    && f.place < |f.group| && f.group[f.place] == start
    && (NextMaxInputs(start).Some? ==> |f.group| <= NextMaxInputs(start).value)
    && Requeue(f.group, c, true).Some?
    && IsChain(Requeue(f.group, c, true).value, failures[1..], c)
  }

  /** Retries left and size, in this order. */
  function Bound(m: Metadata, cap: nat, c: Config): nat {
    RetriesLeft(m, c) + if NextMaxInputs(m).Some? then NextMaxInputs(m).value - 1 else cap
  }

  lemma {:induction false} RequeueLowersBound(f: Failure, start: Metadata, c: Config, cap: nat)
    requires f.place < |f.group| && f.group[f.place] == start && Requeue(f.group, c, true).Some?
    requires NextMaxInputs(start).Some? ==> |f.group| <= NextMaxInputs(start).value
    requires |f.group| <= cap
    ensures Bound(Requeue(f.group, c, true).value, cap, c) < Bound(start, cap, c)
  {
    RequeueMakesProgress(f.group, c, true, f.place);
  }

  /**
   An item is requeued with groups at most as often as there are retries, plus the largest group's size; and once
   the retries are used up only with groups above the least size, so never by itself.
   */
  lemma {:induction false} ChainsAreShort(start: Metadata, failures: seq<Failure>, c: Config, cap: nat)
    requires IsChain(start, failures, c)
    requires forall k | 0 <= k < |failures| :: |failures[k].group| <= cap
    ensures |failures| <= Bound(start, cap, c)
    ensures forall k | 0 <= k < |failures| ::
              && failures[k].group != []
              && (Most(RetryCounts(failures[k].group)) >= Max(0, c.maxGroupRetries) ==>
                    |failures[k].group| > Max(1, c.minReducedSize))
    decreases |failures|
  {
    if failures != [] {
      RequeueLowersBound(failures[0], start, c, cap);
      RequeuedIff(failures[0].group, c, true);
      assert forall k | 0 <= k < |failures[1..]| :: failures[1..][k] == failures[k + 1];
      ChainsAreShort(Requeue(failures[0].group, c, true).value, failures[1..], c, cap);
      forall k | 1 <= k < |failures|
        ensures failures[k].group != []
        ensures Most(RetryCounts(failures[k].group)) >= Max(0, c.maxGroupRetries) ==>
                  |failures[k].group| > Max(1, c.minReducedSize)
      {
        assert failures[k] == failures[1..][k - 1];
      }
    }
  }
}
