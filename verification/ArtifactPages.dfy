/** A batch's items, read page by page, and the rows of its artifacts. */
module ArtifactPages {
  import opened Options

  datatype ItemStatus = Pending | InProgress | Completed | Failed | Cancelled

  /** A completed item is serializable if its response passes the public validation. */
  datatype Item = Item(line: int, status: ItemStatus, serializable: bool)

  datatype Row = OutputRow(line: int) | ErrorRow(line: int)

  // ----- pages of items

  /** The table of the batch's items: ordered by line, which is unique. */
  ghost predicate IsTable(items: seq<Item>) {
    forall j, k | 0 <= j < k < |items| :: items[j].line < items[k].line
  }

  function AfterLine(items: seq<Item>, after: Option<int>): seq<Item> {
    if items == [] then []
    else if after == None || items[0].line > after.value then [items[0]] + AfterLine(items[1..], after)
    else AfterLine(items[1..], after)
  }

  function PageSize(limit: int): nat {
    if limit < 1 then 1 else if limit < 5_000 then limit else 5_000
  }

  function Page(items: seq<Item>, limit: int, after: Option<int>): seq<Item> {
    var rest := AfterLine(items, after);
    if |rest| <= PageSize(limit) then rest else rest[..PageSize(limit)]
  }

  lemma {:induction false} AfterLineIsSuffix(items: seq<Item>, n: nat)
    requires IsTable(items) && n < |items|
    ensures AfterLine(items, Some(items[n].line)) == items[n + 1..]
  {
    if n > 0 {
      assert forall j, k | 0 <= j < k < |items[1..]| :: items[1..][j].line < items[1..][k].line;
      AfterLineIsSuffix(items[1..], n - 1);
      assert items[1..][n..] == items[n + 1..];
    } else {
      AfterLineOfAll(items[1..], items[0].line);
    }
  }

  lemma {:induction false} AfterLineOfAll(items: seq<Item>, line: int)
    requires forall k | 0 <= k < |items| :: items[k].line > line
    ensures AfterLine(items, Some(line)) == items
  {
    if items != [] {
      AfterLineOfAll(items[1..], line);
    }
  }

  lemma {:induction false} AfterNothing(items: seq<Item>)
    ensures AfterLine(items, None) == items
  {
    if items != [] {
      AfterNothing(items[1..]);
    }
  }

  /** Keyset pages visit every item once, in line order. */
  method IterBatchItems(items: seq<Item>, limit: int) returns (visited: seq<Item>)
    requires IsTable(items)
    ensures visited == items
  {
    visited := [];
    var after: Option<int> := None;
    AfterNothing(items);
    while true
      invariant |visited| <= |items| && visited == items[..|visited|]
      invariant AfterLine(items, after) == items[|visited|..]
      decreases |items| - |visited|
    {
      var page := Page(items, limit, after);
      if page == [] {
        return;
      }
      ghost var n := |visited| + |page| - 1;
      assert page == items[|visited|..][..|page|];
      assert items[|visited|..][..|page|] == items[|visited|..n + 1];
      visited := visited + page;
      after := Some(page[|page| - 1].line);
      AfterLineIsSuffix(items, n);
    }
  }

  // ----- rows

  function OutputRows(items: seq<Item>): seq<Row> {
    if items == [] then []
    else (if items[0].status == Completed then [OutputRow(items[0].line)] else []) + OutputRows(items[1..])
  }

  function ErrorRows(items: seq<Item>): seq<Row> {
    if items == [] then []
    else
      (if items[0].status == Failed || items[0].status == Cancelled then [ErrorRow(items[0].line)] else [])
      + ErrorRows(items[1..])
  }

  predicate Terminal(i: Item) {
    i.status != Pending && i.status != InProgress
  }

  lemma {:induction false} RowsOf(items: seq<Item>, line: int)
    ensures OutputRow(line) in OutputRows(items)
            <==> exists k | 0 <= k < |items| :: items[k].line == line && items[k].status == Completed
    ensures ErrorRow(line) in ErrorRows(items)
            <==> exists k | 0 <= k < |items| ::
                 items[k].line == line && (items[k].status == Failed || items[k].status == Cancelled)
    ensures |OutputRows(items)| + |ErrorRows(items)| <= |items|
  {
    if items != [] {
      RowsOf(items[1..], line);
      assert forall k | 1 <= k < |items| :: items[k] == items[1..][k - 1];
    }
  }

  /** Each terminal item has a row in exactly one artifact, any other item in none. */
  lemma {:induction false} RowsSplitTerminalItems(items: seq<Item>, n: nat)
    requires IsTable(items) && n < |items|
    ensures var line := items[n].line;
            && (OutputRow(line) in OutputRows(items) <==> items[n].status == Completed)
            && (ErrorRow(line) in ErrorRows(items) <==> Terminal(items[n]) && items[n].status != Completed)
  {
    RowsOf(items, items[n].line);
    forall k | 0 <= k < |items| ensures k < n ==> items[k].line < items[n].line {
    }
    forall k | 0 <= k < |items| ensures k > n ==> items[k].line > items[n].line {
    }
  }

  lemma {:induction false} AllRowsCounted(items: seq<Item>)
    requires forall k | 0 <= k < |items| :: Terminal(items[k])
    ensures |OutputRows(items)| + |ErrorRows(items)| == |items|
  {
    if items != [] {
      AllRowsCounted(items[1..]);
    }
  }

  // ----- writing the rows

  /** A row that fails the validation, or any other exception. */
  datatype Failure = Invalid | Trouble

  predicate Rejected(items: seq<Item>, n: nat) {
    n < |items| && items[n].status == Completed && !items[n].serializable
  }

  /** One item further. */
  function OneLess(failsAfter: Option<nat>): Option<nat>
    requires failsAfter != Some(0)
  {
    if failsAfter.Some? then Some(failsAfter.value - 1) else None
  }

  /**
   How writing an artifact ends.  Items are read, serialized and written one by one, so a read or a write that
   raises once `failsAfter` items were dealt with (or at the end) comes before any later row is validated.
   */
  function WritingEnds(items: seq<Item>, output: bool, failsAfter: Option<nat>): Option<Failure> {
    if failsAfter == Some(0) then Some(Trouble)
    else if items == [] then (if failsAfter.Some? then Some(Trouble) else None)
    else if output && Rejected(items, 0) then Some(Invalid)
    else WritingEnds(items[1..], output, OneLess(failsAfter))
  }

  function RowsFor(items: seq<Item>, output: bool): seq<Row> {
    if output then OutputRows(items) else ErrorRows(items)
  }

  /** Some row of the output is rejected before anything else fails. */
  predicate MeetsRejected(items: seq<Item>, failsAfter: Option<nat>) {
    exists n: nat | n < |items| :: Rejected(items, n) && (failsAfter.Some? ==> n < failsAfter.value)
  }

  /** Writing ends invalid exactly when it meets a rejected row first, and well exactly when nothing goes wrong. */
  lemma {:induction false} WritingEndsIff(items: seq<Item>, output: bool, failsAfter: Option<nat>)
    ensures WritingEnds(items, output, failsAfter) == Some(Invalid) <==> output && MeetsRejected(items, failsAfter)
    ensures WritingEnds(items, output, failsAfter) == None
            <==> failsAfter == None && (output ==> AllSerializable(items))
  {
    if failsAfter != Some(0) && items != [] && !(output && Rejected(items, 0)) {
      var later := OneLess(failsAfter);
      WritingEndsIff(items[1..], output, later);
      assert forall n | 1 <= n < |items| :: items[n] == items[1..][n - 1];
      if MeetsRejected(items, failsAfter) && output {
        var n: nat :| n < |items| && Rejected(items, n) && (failsAfter.Some? ==> n < failsAfter.value);
        assert Rejected(items[1..], n - 1);
      }
      if MeetsRejected(items[1..], later) {
        var n: nat :| n < |items[1..]| && Rejected(items[1..], n) && (later.Some? ==> n < later.value);
        assert Rejected(items, n + 1);
      }
    } else if output && items != [] && Rejected(items, 0) && failsAfter != Some(0) {
      assert MeetsRejected(items, failsAfter);
    }
  }

  /** The row an item has in this artifact, if any. */
  function RowOf(item: Item, output: bool): seq<Row> {
    if output then (if item.status == Completed then [OutputRow(item.line)] else [])
    else if item.status == Failed || item.status == Cancelled then [ErrorRow(item.line)]
    else []
  }

  lemma FirstRow(rows: seq<Row>, items: seq<Item>, output: bool)
    requires items != []
    ensures rows + RowsFor(items, output) == rows + RowOf(items[0], output) + RowsFor(items[1..], output)
  {
  }

  /** Each row has a higher line than the one before it. */
  predicate Ascending(rows: seq<Row>, above: int) {
    rows == [] || (rows[0].line > above && Ascending(rows[1..], rows[0].line))
  }

  /** Both artifacts list their rows in line order, none twice. */
  lemma {:induction false} RowsAscend(items: seq<Item>, output: bool, above: int)
    requires IsTable(items) && (items != [] ==> items[0].line > above)
    ensures Ascending(RowsFor(items, output), above)
  {
    if items != [] {
      var rest := items[1..];
      assert forall j, k | 0 <= j < k < |rest| :: rest[j].line < rest[k].line;
      RowsAscend(rest, output, items[0].line);
      var rows, here := RowsFor(items, output), RowOf(items[0], output);
      assert rows == here + RowsFor(rest, output);
      assert here == [] ==> rows == RowsFor(rest, output);
      assert here != [] ==> rows[1..] == RowsFor(rest, output);
    }
  }

  lemma EndsLater(items: seq<Item>, output: bool, failsAfter: Option<nat>)
    requires failsAfter != Some(0) && items != [] && !(output && Rejected(items, 0))
    ensures WritingEnds(items, output, failsAfter) == WritingEnds(items[1..], output, OneLess(failsAfter))
  {
  }

  lemma EndsInvalid(items: seq<Item>, failsAfter: Option<nat>)
    requires failsAfter != Some(0) && Rejected(items, 0)
    ensures WritingEnds(items, true, failsAfter) == Some(Invalid)
  {
  }

  /** The rows produced and handed to the writer one by one. */
  method WriteRows(items: seq<Item>, output: bool, failsAfter: Option<nat>)
    returns (rows: seq<Row>, failure: Option<Failure>)
    ensures failure == WritingEnds(items, output, failsAfter)
    ensures failure == None ==> rows == RowsFor(items, output)
  {
    rows := [];
    var left := failsAfter;
    ghost var more := items;
    for k := 0 to |items|
      invariant more == items[k..]
      invariant WritingEnds(more, output, left) == WritingEnds(items, output, failsAfter)
      invariant rows + RowsFor(more, output) == RowsFor(items, output)
    {
      if left == Some(0) {
        return rows, Some(Trouble);
      }
      var item := items[k];
      if output && item.status == Completed && !item.serializable {
        EndsInvalid(more, left);
        return rows, Some(Invalid);
      }
      EndsLater(more, output, left);
      FirstRow(rows, more, output);
      rows, left, more := rows + RowOf(item, output), OneLess(left), more[1..];
    }
    failure := if left.Some? then Some(Trouble) else None;
  }

  predicate AllSerializable(items: seq<Item>) {
    forall k | 0 <= k < |items| :: items[k].status == Completed ==> items[k].serializable
  }

  function CountOf(items: seq<Item>, status: ItemStatus): nat {
    if items == [] then 0 else (if items[0].status == status then 1 else 0) + CountOf(items[1..], status)
  }

  lemma {:induction false} CountedWhenPresent(items: seq<Item>, n: nat)
    requires n < |items|
    ensures CountOf(items, items[n].status) > 0
  {
    if n > 0 {
      CountedWhenPresent(items[1..], n - 1);
    }
  }
}
