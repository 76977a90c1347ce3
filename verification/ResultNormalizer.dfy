/**
 Validation of batched provider responses: rows placed by their own index, accepted exactly when they form a
 bijection.
 */
module ResultNormalizer {
  import opened Options

  /** The row number says where the error was noticed. */
  datatype ShapeError =
    | WrongLength
    | BadRow(row: nat)
    | OutOfRange(row: nat)
    | Duplicate(row: nat)
    | MissingIndex

  /** What a raw row says: its index, and what to place there. */
  datatype Reading<+V> = Unreadable | At(index: int, value: V)

  predicate InRange<V>(r: Reading<V>, n: nat) {
    r.At? && 0 <= r.index < n
  }

  /** The error noticed first in row k, if any. */
  function RowError<V>(rows: seq<Reading<V>>, n: nat, k: nat): Option<ShapeError>
    requires k < |rows|
  {
    if rows[k] == Unreadable then Some(BadRow(k))
    else if !InRange(rows[k], n) then Some(OutOfRange(k))
    else if exists j | 0 <= j < k :: Names(rows, j, rows[k].index) then Some(Duplicate(k))
    else None
  }

  predicate Names<V>(rows: seq<Reading<V>>, k: int, i: int) {
    0 <= k < |rows| && rows[k].At? && rows[k].index == i
  }

  predicate AllInRange<V>(rows: seq<Reading<V>>, n: nat) {
    forall k | 0 <= k < |rows| :: InRange(rows[k], n)
  }

  predicate AllDiffer<V>(rows: seq<Reading<V>>) {
    forall j, k | 0 <= j < k < |rows| && rows[j].At? && rows[k].At? :: rows[j].index != rows[k].index
  }

  predicate Covered<V>(rows: seq<Reading<V>>, i: int) {
    exists k | 0 <= k < |rows| :: Names(rows, k, i)
  }

  /** Exactly one row for each index below n. */
  ghost predicate IsBijection<V>(rows: seq<Reading<V>>, n: nat) {
    && |rows| == n && AllInRange(rows, n) && AllDiffer(rows)
    && forall i | 0 <= i < n :: Covered(rows, i)
  }

  /** Each row carries the value that named it. */
  ghost predicate Placed<V>(rows: seq<Reading<V>>, placed: seq<V>) {
    && |placed| == |rows|
    && forall k | 0 <= k < |rows| :: InRange(rows[k], |placed|) && placed[rows[k].index] == rows[k].value
  }

  // ----- pigeonhole

  lemma {:induction false} SubsetOfSameSize(s: set<int>, t: set<int>)
    requires s <= t && |s| == |t|
    ensures s == t
  {
    assert |t - s| == |t| - |s|;
  }

  function Below(n: nat): (r: set<int>)
    ensures |r| == n && forall i :: i in r <==> 0 <= i < n
  {
    if n == 0 then {} else Below(n - 1) + {n - 1}
  }

  function Indexes<V>(rows: seq<Reading<V>>): set<int> {
    if rows == [] then {}
    else
      var m := |rows| - 1;
      Indexes(rows[..m]) + if rows[m].At? then {rows[m].index} else {}
  }

  lemma {:induction false} IndexesAreNamed<V>(rows: seq<Reading<V>>, i: int)
    ensures i in Indexes(rows) <==> Covered(rows, i)
  {
    if rows != [] {
      var m := |rows| - 1;
      IndexesAreNamed(rows[..m], i);
      if Covered(rows[..m], i) {
        var k :| 0 <= k < m && Names(rows[..m], k, i);
        assert Names(rows, k, i);
      }
      if Covered(rows, i) {
        var k :| 0 <= k < |rows| && Names(rows, k, i);
        assert k < m ==> Names(rows[..m], k, i);
      }
      assert Names(rows, m, i) <==> rows[m].At? && rows[m].index == i;
    }
  }

  lemma {:induction false} DistinctIndexesCount<V>(rows: seq<Reading<V>>, n: nat)
    requires AllInRange(rows, n) && AllDiffer(rows)
    ensures |Indexes(rows)| == |rows|
  {
    if rows != [] {
      var m := |rows| - 1;
      DistinctIndexesCount(rows[..m], n);
      IndexesAreNamed(rows[..m], rows[m].index);
    }
  }

  /** Pigeonhole: n rows with different indexes below n leave no index out. */
  lemma {:induction false} NoIndexIsMissing<V>(rows: seq<Reading<V>>, n: nat, i: int)
    requires |rows| == n && 0 <= i < n && AllInRange(rows, n) && AllDiffer(rows)
    ensures Covered(rows, i)
  {
    DistinctIndexesCount(rows, n);
    forall j | j in Indexes(rows) ensures j in Below(n) {
      IndexesAreNamed(rows, j);
    }
    SubsetOfSameSize(Indexes(rows), Below(n));
    IndexesAreNamed(rows, i);
  }

  lemma {:induction false} NoErrorMeansBijection<V>(rows: seq<Reading<V>>, n: nat)
    requires |rows| == n
    ensures (forall k | 0 <= k < n :: RowError(rows, n, k) == None) <==> IsBijection(rows, n)
  {
    if forall k | 0 <= k < n :: RowError(rows, n, k) == None {
      forall k | 0 <= k < n ensures InRange(rows[k], n) {
        assert RowError(rows, n, k) == None;
      }
      forall j, k | 0 <= j < k < n ensures rows[j].index != rows[k].index {
        assert RowError(rows, n, k) == None;
        assert Names(rows, j, rows[j].index);
      }
      forall i | 0 <= i < n ensures Covered(rows, i) {
        NoIndexIsMissing(rows, n, i);
      }
    }
    if IsBijection(rows, n) {
      forall k | 0 <= k < n ensures RowError(rows, n, k) == None {
        assert InRange(rows[k], n);
      }
    }
  }

  // ----- the loop

  /** Succeeds exactly on bijections; the check for missing indexes at the end never fires. */
  method PlaceRows<V>(rows: seq<Reading<V>>, n: nat) returns (r: Result<seq<V>, ShapeError>)
    ensures r.Ok? <==> IsBijection(rows, n)
    ensures r.Ok? ==> Placed(rows, r.value)
    ensures r.Err? && |rows| != n ==> r.error == WrongLength
    ensures r.Err? && |rows| == n ==>
              exists k :: 0 <= k < n && RowError(rows, n, k) == Some(r.error) && forall j | 0 <= j < k ::
                  RowError(rows, n, j) == None
    ensures r != Err(MissingIndex)
  {
    if |rows| != n {
      return Err(WrongLength);
    }
    NoErrorMeansBijection(rows, n);
    var placed := new Option<V>[n](_ => None);
    for k := 0 to n
      invariant forall j | 0 <= j < k :: RowError(rows, n, j) == None
      invariant forall j | 0 <= j < k :: InRange(rows[j], n) && placed[rows[j].index] == Some(rows[j].value)
      invariant forall i | 0 <= i < n :: placed[i].Some? ==> exists j | 0 <= j < k :: Names(rows, j, i)
    {
      var row := rows[k];
      if row == Unreadable {
        assert RowError(rows, n, k) == Some(BadRow(k));
        return Err(BadRow(k));
      }
      if row.index < 0 || row.index >= n {
        assert RowError(rows, n, k) == Some(OutOfRange(k));
        return Err(OutOfRange(k));
      }
      if placed[row.index] != None {
        assert RowError(rows, n, k) == Some(Duplicate(k));
        return Err(Duplicate(k));
      }
      assert RowError(rows, n, k) == None;
      assert Names(rows, k, row.index);
      placed[row.index] := Some(row.value);
    }
    assert IsBijection(rows, n);
    forall i | 0 <= i < n ensures placed[i].Some? {
      NoIndexIsMissing(rows, n, i);
      var k :| 0 <= k < n && Names(rows, k, i);
    }
    if exists i :: 0 <= i < n && placed[i] == None {
      return Err(MissingIndex);
    }
    r := Ok(seq(n, i requires 0 <= i < n && placed[i].Some? reads placed => placed[i].value));
  }

  // ----- reordering

  /** The same rows in another order. */
  ghost predicate IsReordering<V>(rows: seq<Reading<V>>, other: seq<Reading<V>>, order: seq<nat>) {
    && |order| == |rows| == |other|
    && (forall k | 0 <= k < |order| :: order[k] < |rows| && other[k] == rows[order[k]])
    && (forall j, k | 0 <= j < k < |order| :: order[j] != order[k])
  }

  /** Reordered rows are accepted as well, and place the same values. */
  lemma {:induction false} ReorderingPlacesTheSame<V>(rows: seq<Reading<V>>, other: seq<Reading<V>>, order: seq<nat>,
                                                      n: nat, placed: seq<V>, placedOther: seq<V>)
    requires IsReordering(rows, other, order) && IsBijection(rows, n)
    ensures IsBijection(other, n)
    ensures Placed(rows, placed) && Placed(other, placedOther) ==> placed == placedOther
  {
    forall k | 0 <= k < n ensures InRange(other[k], n) {
      assert other[k] == rows[order[k]];
    }
    forall j, k | 0 <= j < k < n ensures other[j].index != other[k].index {
      assert other[j] == rows[order[j]] && other[k] == rows[order[k]];
      if order[j] < order[k] {
        assert rows[order[j]].index != rows[order[k]].index;
      } else {
        assert rows[order[k]].index != rows[order[j]].index;
      }
    }
    forall i | 0 <= i < n ensures Covered(other, i) {
      NoIndexIsMissing(other, n, i);
    }
    if Placed(rows, placed) && Placed(other, placedOther) {
      forall i | 0 <= i < n ensures placed[i] == placedOther[i] {
        NoIndexIsMissing(other, n, i);
        var k :| 0 <= k < n && Names(other, k, i);
        assert other[k] == rows[order[k]];
        assert placed[rows[order[k]].index] == rows[order[k]].value;
      }
    }
  }

  // ----- embedding responses

  /** Booleans and other numbers are not indexes here. */
  datatype EmbeddingIndex = Integer(value: int) | NotAnInteger

  datatype EmbeddingRow<+V> = NotAnObject | Object(hasEmbedding: bool, index: EmbeddingIndex, content: V)

  function ReadEmbedding<V>(row: EmbeddingRow<V>): Reading<V> {
    if row.Object? && row.hasEmbedding && row.index.Integer? then At(row.index.value, row.content) else Unreadable
  }

  method ValidateEmbeddingResponse<V>(data: seq<EmbeddingRow<V>>, expected: nat) returns (r: Result<seq<V>, ShapeError>)
    ensures r.Ok? <==>
              && |data| == expected && (forall k | 0 <= k < expected :: HasPlace(data[k], expected))
              && forall j, k | 0 <= j < k < expected :: data[j].index != data[k].index
    ensures r.Ok? ==> |r.value| == expected && forall k | 0 <= k < expected ::
              r.value[data[k].index.value] == data[k].content
    ensures r != Err(MissingIndex)
  {
    var rows := Mapped(data, ReadEmbedding);
    r := PlaceRows(rows, expected);
    BijectionIff(rows, expected);
    if IsBijection(rows, expected) {
      forall k | 0 <= k < expected ensures HasPlace(data[k], expected) {
        assert InRange(rows[k], expected);
      }
      forall j, k | 0 <= j < k < expected ensures data[j].index != data[k].index {
        assert rows[j].index != rows[k].index;
      }
      forall k | 0 <= k < expected ensures r.value[data[k].index.value] == data[k].content {
        assert InRange(rows[k], expected) && r.value[rows[k].index] == rows[k].value;
      }
    }
  }

  /** An object with an embedding and a plain integer index of a request item. */
  predicate HasPlace<V>(row: EmbeddingRow<V>, n: nat) {
    row.Object? && row.hasEmbedding && row.index.Integer? && 0 <= row.index.value < n
  }

  /** By pigeonhole nothing has to be said of missing indexes. */
  lemma {:induction false} BijectionIff<V>(rows: seq<Reading<V>>, n: nat)
    ensures IsBijection(rows, n) <==> |rows| == n && AllInRange(rows, n) && AllDiffer(rows)
  {
    if |rows| == n && AllInRange(rows, n) && AllDiffer(rows) {
      forall i | 0 <= i < n ensures Covered(rows, i) {
        NoIndexIsMissing(rows, n, i);
      }
    }
  }

  function Mapped<A, B>(s: seq<A>, f: A -> B): seq<B> {
    seq(|s|, i requires 0 <= i < |s| => f(s[i]))
  }

  // ----- chat responses

  /** A value given where an index is expected; a text holds the number it parses to, if any. */
  datatype IndexValue = Absent | Boolean | Text(number: Option<int>) | Number(value: int) | OtherValue

  datatype ChatRow = ChatRow(itemIndex: IndexValue, index: IndexValue, customId: Option<string>,
                             error: Option<string>, body: Option<nat>, usage: Option<nat>)

  datatype ChatError = Reported(message: string) | NoBody | NoUsage

  datatype ChatResult = ChatResult(index: int, body: Option<nat>, usage: Option<nat>, error: Option<ChatError>)

  function CoerceIndex(v: IndexValue): Option<int> {
    match v
    case Text(number) => number
    case Number(value) => Some(value)
    case _ => None
  }

  /** The last of several equal identifiers wins. */
  function IndexOfId(ids: seq<string>, id: string): Option<int> {
    if ids == [] then None
    else if ids[|ids| - 1] == id then Some(|ids| - 1)
    else IndexOfId(ids[..|ids| - 1], id)
  }

  /** The index a row names, or none if it names none, a malformed one, or different ones. */
  function ResultIndex(row: ChatRow, ids: seq<string>): Option<int> {
    var itemIndex := CoerceIndex(row.itemIndex);
    var index := if row.index != Absent then CoerceIndex(row.index) else itemIndex;
    if (row.itemIndex != Absent && itemIndex == None) || (row.index != Absent && index == None) then None
    else if itemIndex.Some? && index.Some? && itemIndex != index then None
    else if row.customId == None then index
    else
      var named := IndexOfId(ids, row.customId.value);
      if named == None || (index.Some? && index != named) then None else named
  }

  /** An integer, or a text that parses to it; never a boolean. */
  predicate Means(v: IndexValue, i: int) {
    v == Number(i) || v == Text(Some(i))
  }

  /** The last position of the identifier. */
  predicate LastAt(ids: seq<string>, id: string, i: int) {
    0 <= i < |ids| && ids[i] == id && forall j | i < j < |ids| :: ids[j] != id
  }

  lemma {:induction false} LastIdWins(ids: seq<string>, id: string, i: int)
    ensures IndexOfId(ids, id) == Some(i) <==> LastAt(ids, id, i)
  {
    if ids != [] && ids[|ids| - 1] != id {
      LastIdWins(ids[..|ids| - 1], id, i);
    }
  }

  /** The row says i at least once, and whatever it says means i. */
  predicate SaysIndex(row: ChatRow, ids: seq<string>, i: int) {
    && (row.itemIndex != Absent || row.index != Absent || row.customId.Some?)
    && (row.itemIndex != Absent ==> Means(row.itemIndex, i))
    && (row.index != Absent ==> Means(row.index, i))
    && (row.customId.Some? ==> LastAt(ids, row.customId.value, i))
  }

  /** A row names index i exactly when it says so at least once, and whatever it says means i. */
  lemma {:induction false} ResultIndexIsUnanimous(row: ChatRow, ids: seq<string>, i: int)
    ensures ResultIndex(row, ids) == Some(i) <==> SaysIndex(row, ids, i)
  {
    if row.customId.Some? {
      LastIdWins(ids, row.customId.value, i);
    }
  }

  /** A row without body, or without usage, becomes an error of its own. */
  function ChatOutcome(row: ChatRow, index: int): ChatResult {
    var error :=
      if row.error.Some? then Some(Reported(row.error.value))
      else if row.body == None then Some(NoBody)
      else if row.usage == None then Some(NoUsage)
      else None;
    ChatResult(index, row.body, row.usage, error)
  }

  function ReadChat(row: Option<ChatRow>, ids: seq<string>): Reading<ChatResult> {
    if row == None then Unreadable
    else
      match ResultIndex(row.value, ids)
      case None => Unreadable
      case Some(i) => At(i, ChatOutcome(row.value, i))
  }

  function ReadChats(rows: seq<Option<ChatRow>>, ids: seq<string>): seq<Reading<ChatResult>> {
    seq(|rows|, k requires 0 <= k < |rows| => ReadChat(rows[k], ids))
  }

  /** Every row is an object that says its own index below n, and no two say the same. */
  ghost predicate Numbered(rows: seq<Option<ChatRow>>, ids: seq<string>, n: nat, numbers: seq<int>) {
    && |rows| == |numbers| == n
    && (forall k | 0 <= k < n :: 0 <= numbers[k] < n && rows[k].Some? && SaysIndex(rows[k].value, ids, numbers[k]))
    && forall j, k | 0 <= j < k < n :: numbers[j] != numbers[k]
  }

  /** The row's own body and usage under its index; an error if the row reports one or lacks its body or its usage. */
  ghost predicate Gives(row: ChatRow, i: int, result: ChatResult) {
    && result.index == i && result.body == row.body && result.usage == row.usage
    && (result.error == None <==> row.error == None && row.body.Some? && row.usage.Some?)
    && (forall message :: result.error == Some(Reported(message)) <==> row.error == Some(message))
    && (result.error == Some(NoBody) <==> row.error == None && row.body == None)
    && (result.error == Some(NoUsage) <==> row.error == None && row.body.Some? && row.usage == None)
  }

  function NumbersOf(readings: seq<Reading<ChatResult>>): seq<int> {
    seq(|readings|, k requires 0 <= k < |readings| => if readings[k].At? then readings[k].index else -1)
  }

  lemma {:induction false} AcceptedIff(rows: seq<Option<ChatRow>>, ids: seq<string>, n: nat)
    ensures IsBijection(ReadChats(rows, ids), n) <==> exists numbers :: Numbered(rows, ids, n, numbers)
  {
    var readings := ReadChats(rows, ids);
    BijectionIff(readings, n);
    if IsBijection(readings, n) {
      var numbers := NumbersOf(readings);
      forall k | 0 <= k < n
        ensures 0 <= numbers[k] < n && rows[k].Some? && SaysIndex(rows[k].value, ids, numbers[k])
      {
        assert InRange(readings[k], n);
        ResultIndexIsUnanimous(rows[k].value, ids, numbers[k]);
      }
      assert Numbered(rows, ids, n, numbers);
    }
    if exists numbers :: Numbered(rows, ids, n, numbers) {
      var numbers :| Numbered(rows, ids, n, numbers);
      forall k | 0 <= k < n ensures readings[k].At? && readings[k].index == numbers[k] {
        ResultIndexIsUnanimous(rows[k].value, ids, numbers[k]);
      }
    }
  }

  lemma {:induction false} PlacedGives(rows: seq<Option<ChatRow>>, ids: seq<string>, n: nat, numbers: seq<int>,
                                       placed: seq<ChatResult>, k: nat)
    requires Numbered(rows, ids, n, numbers) && Placed(ReadChats(rows, ids), placed) && k < n
    ensures |placed| == n && Gives(rows[k].value, numbers[k], placed[numbers[k]])
  {
    ResultIndexIsUnanimous(rows[k].value, ids, numbers[k]);
    var reading := ReadChats(rows, ids)[k];
    assert InRange(reading, n) && placed[reading.index] == reading.value;
  }

  /** A row that is not an object is `None`. */
  method NormalizeChatResults(rows: seq<Option<ChatRow>>, expected: nat, ids: seq<string>)
    returns (r: Result<seq<ChatResult>, ShapeError>)
    ensures r.Ok? <==> exists numbers :: Numbered(rows, ids, expected, numbers)
    ensures r.Ok? ==> |r.value| == expected && forall i | 0 <= i < expected :: r.value[i].index == i
    ensures r.Ok? ==> forall numbers, k | Numbered(rows, ids, expected, numbers) && 0 <= k < expected ::
              Gives(rows[k].value, numbers[k], r.value[numbers[k]])
    ensures r.Ok? ==> Placed(ReadChats(rows, ids), r.value)
    ensures r != Err(MissingIndex)
  {
    r := PlaceRows(ReadChats(rows, ids), expected);
    AcceptedIff(rows, ids, expected);
    if r.Ok? {
      forall numbers, k: nat | Numbered(rows, ids, expected, numbers) && k < expected
        ensures Gives(rows[k].value, numbers[k], r.value[numbers[k]])
      {
        PlacedGives(rows, ids, expected, numbers, r.value, k);
      }
      forall i | 0 <= i < expected ensures r.value[i].index == i {
        assert Covered(ReadChats(rows, ids), i);
        var k :| 0 <= k < expected && Names(ReadChats(rows, ids), k, i);
        assert r.value[ReadChats(rows, ids)[k].index] == ReadChats(rows, ids)[k].value;
      }
    }
  }

  /** When identifiers differ, each one names its own position. */
  lemma {:induction false} DifferentIdsAreFound(ids: seq<string>, k: nat)
    requires k < |ids| && forall i, j | 0 <= i < j < |ids| :: ids[i] != ids[j]
    ensures IndexOfId(ids, ids[k]) == Some(k)
  {
    LastIdWins(ids, ids[k], k);
  }
}
