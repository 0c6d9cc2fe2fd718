/** Turning a model server's reply into embeddings ordered by their index. */
module ResponseNormalization {
  import opened QueueModels
  import opened RedisKeys

  /** The "embedding" field of a reply item; pydantic has a problem with each element of a list that it refuses. */
  datatype EmbeddingField = NotAList | Numbers(values: Embedding) | NotNumbers(problems: seq<string>)

  /** The "index" field of a reply item. */
  datatype IndexField = Absent | Present(value: int) | NotAnInteger(problem: string)

  datatype ReplyItem = NotAnObject | Object(embedding: EmbeddingField, index: IndexField)

  datatype Reply = NoDataList | Data(items: seq<ReplyItem>)

  datatype NormalizationError =
    | MissingDataList
    | LengthMismatch(expected: nat, actual: nat)
    | ItemNotAnObject
    | MissingEmbeddingList
    | InvalidRow(problems: seq<string>)

  function Lines(problems: seq<string>): string {
    if problems == [] then "" else "\n" + problems[0] + Lines(problems[1..])
  }

  function ErrorText(e: NormalizationError): string {
    match e
    case MissingDataList => "Internal vLLM response missing data list"
    case LengthMismatch(expected, actual) =>
      "Internal vLLM response data length mismatch; expected=" + Decimal(expected) + ", actual=" + Decimal(actual)
    case ItemNotAnObject => "Internal vLLM response data item must be an object"
    case MissingEmbeddingList => "Internal vLLM response data item missing embedding list"
    case InvalidRow(problems) =>
      (if |problems| == 1 then "1 validation error" else Decimal(|problems|) + " validation errors")
      + " for EmbeddingData" + Lines(problems)
  }

  /** One iteration of the loop: the row that `item` stands for at position `position`. */
  function ParseItem(item: ReplyItem, position: nat): Result<EmbeddingData, NormalizationError> {
    if item.NotAnObject? then Failure(ItemNotAnObject)
    else if item.embedding.NotAList? then Failure(MissingEmbeddingList)
    else if item.embedding.NotNumbers? || item.index.NotAnInteger? then
      Failure(InvalidRow(
        (if item.embedding.NotNumbers? then item.embedding.problems else [])
        + if item.index.NotAnInteger? then [item.index.problem] else []))
    else Success(EmbeddingData(item.embedding.values, if item.index.Present? then item.index.value else position))
  }

  /** The rows of a reply in reply order, or the error of the first item that has one. */
  function ParseItems(items: seq<ReplyItem>, position: nat): Result<seq<EmbeddingData>, NormalizationError> {
    if items == [] then Success([])
    else
      match ParseItem(items[0], position)
      case Failure(e) => Failure(e)
      case Success(row) =>
        match ParseItems(items[1..], position + 1)
        case Failure(e) => Failure(e)
        case Success(rows) => Success([row] + rows)
  }

  /** Puts `row` after every row of the sorted list `rows` whose index is not larger. */
  function InsertByIndex(rows: seq<EmbeddingData>, row: EmbeddingData): (r: seq<EmbeddingData>)
    ensures |r| == |rows| + 1
  {
    if rows == [] || rows[|rows| - 1].index <= row.index then rows + [row]
    else InsertByIndex(rows[..|rows| - 1], row) + [rows[|rows| - 1]]
  }

  /** Python's stable list.sort by index. */
  function SortByIndex(rows: seq<EmbeddingData>): (r: seq<EmbeddingData>)
    ensures |r| == |rows|
  {
    if rows == [] then [] else InsertByIndex(SortByIndex(rows[..|rows| - 1]), rows[|rows| - 1])
  }

  function Normalize(reply: Reply, expectedCount: nat): Result<seq<EmbeddingData>, NormalizationError> {
    if reply.NoDataList? then Failure(MissingDataList)
    else if |reply.items| != expectedCount then Failure(LengthMismatch(expectedCount, |reply.items|))
    else
      match ParseItems(reply.items, 0)
      case Failure(e) => Failure(e)
      case Success(rows) => Success(SortByIndex(rows))
  }

  function Prefixed(rows: seq<EmbeddingData>, rest: Result<seq<EmbeddingData>, NormalizationError>)
    : Result<seq<EmbeddingData>, NormalizationError>
  {
    match rest
    case Failure(e) => Failure(e)
    case Success(more) => Success(rows + more)
  }

  method NormalizeVllmEmbeddingData(reply: Reply, expectedCount: nat)
    returns (r: Result<seq<EmbeddingData>, NormalizationError>)
    ensures r == Normalize(reply, expectedCount)
  {
    if reply.NoDataList? {
      return Failure(MissingDataList);
    }
    var rawData := reply.items;
    if |rawData| != expectedCount {
      return Failure(LengthMismatch(expectedCount, |rawData|));
    }
    var normalized: seq<EmbeddingData> := [];
    assert rawData[0..] == rawData;
    assert ParseItems(rawData, 0).Success? ==> [] + ParseItems(rawData, 0).value == ParseItems(rawData, 0).value;
    for i := 0 to |rawData|
      invariant ParseItems(rawData, 0) == Prefixed(normalized, ParseItems(rawData[i..], i))
    {
      var item := rawData[i];
      assert rawData[i..][1..] == rawData[i + 1..];
      if item.NotAnObject? {
        return Failure(ItemNotAnObject);
      }
      if item.embedding.NotAList? {
        return Failure(MissingEmbeddingList);
      }
      var row := ParseItem(item, i);
      if row.Failure? {
        return Failure(row.error);
      }
      ghost var rest := ParseItems(rawData[i + 1..], i + 1);
      assert rest.Success? ==> normalized + ([row.value] + rest.value) == (normalized + [row.value]) + rest.value;
      normalized := normalized + [row.value];
    }
    assert normalized + [] == normalized;
    normalized := SortByIndex(normalized);
    return Success(normalized);
  }

  // What the sort means.

  ghost predicate Sorted(rows: seq<EmbeddingData>) {
    forall i, j | 0 <= i < j < |rows| :: rows[i].index <= rows[j].index
  }

  /** The rows that carry index k, in order. */
  function WithIndex(rows: seq<EmbeddingData>, k: int): seq<EmbeddingData> {
    if rows == [] then []
    else
      var last := rows[|rows| - 1];
      WithIndex(rows[..|rows| - 1], k) + if last.index == k then [last] else []
  }

  lemma {:induction false} InsertKeepsRows(rows: seq<EmbeddingData>, row: EmbeddingData)
    ensures multiset(InsertByIndex(rows, row)) == multiset(rows) + multiset{row}
  {
    if !(rows == [] || rows[|rows| - 1].index <= row.index) {
      InsertKeepsRows(rows[..|rows| - 1], row);
      assert rows == rows[..|rows| - 1] + [rows[|rows| - 1]];
    }
  }

  lemma {:induction false} InsertKeepsSorted(rows: seq<EmbeddingData>, row: EmbeddingData)
    requires Sorted(rows)
    ensures Sorted(InsertByIndex(rows, row))
  {
    if !(rows == [] || rows[|rows| - 1].index <= row.index) {
      var front, last := rows[..|rows| - 1], rows[|rows| - 1];
      InsertKeepsSorted(front, row);
      InsertKeepsRows(front, row);
      var r := InsertByIndex(front, row);
      forall i | 0 <= i < |r| ensures r[i].index <= last.index {
        assert r[i] in multiset(r);
        assert r[i] in multiset(front) || r[i] == row;
      }
    }
  }

  lemma {:induction false} InsertIsStable(rows: seq<EmbeddingData>, row: EmbeddingData, k: int)
    requires Sorted(rows)
    ensures WithIndex(InsertByIndex(rows, row), k) == WithIndex(rows, k) + if row.index == k then [row] else []
  {
    var r := InsertByIndex(rows, row);
    if rows == [] || rows[|rows| - 1].index <= row.index {
      assert r[..|r| - 1] == rows;
    } else {
      var front, last := rows[..|rows| - 1], rows[|rows| - 1];
      InsertIsStable(front, row, k);
      assert r[..|r| - 1] == InsertByIndex(front, row);
    }
  }

  lemma {:induction false} SortFacts(rows: seq<EmbeddingData>, k: int)
    ensures Sorted(SortByIndex(rows))
    ensures multiset(SortByIndex(rows)) == multiset(rows)
    ensures WithIndex(SortByIndex(rows), k) == WithIndex(rows, k)
  {
    if rows != [] {
      var front, last := rows[..|rows| - 1], rows[|rows| - 1];
      assert rows == front + [last];
      SortFacts(front, k);
      InsertKeepsSorted(SortByIndex(front), last);
      InsertKeepsRows(SortByIndex(front), last);
      InsertIsStable(SortByIndex(front), last, k);
    }
  }

  lemma {:induction false} LargestIsLast(rows: seq<EmbeddingData>, k: int)
    requires Sorted(rows) && WithIndex(rows, k) != []
    ensures rows != [] && k <= rows[|rows| - 1].index
  {
    if rows[|rows| - 1].index != k {
      LargestIsLast(rows[..|rows| - 1], k);
    }
  }

  lemma LastOfItsIndex(rows: seq<EmbeddingData>)
    requires rows != []
    ensures
      var last := rows[|rows| - 1];
      var same := WithIndex(rows, last.index);
      && same != [] && same[|same| - 1] == last
      && same[..|same| - 1] == WithIndex(rows[..|rows| - 1], last.index)
  {
  }

  /** The two lists hold the same rows, in the same order within each index. */
  ghost predicate SameIndexByIndex(s: seq<EmbeddingData>, t: seq<EmbeddingData>) {
    forall k :: WithIndex(s, k) == WithIndex(t, k)
  }

  lemma DropEqualLast(s: seq<EmbeddingData>, t: seq<EmbeddingData>)
    requires s != [] && t != [] && s[|s| - 1] == t[|t| - 1]
    requires SameIndexByIndex(s, t)
    ensures SameIndexByIndex(s[..|s| - 1], t[..|t| - 1])
  {
    var s', t' := s[..|s| - 1], t[..|t| - 1];
    forall k ensures WithIndex(s', k) == WithIndex(t', k) {
      assert WithIndex(s, k) == WithIndex(t, k);
      if s[|s| - 1].index == k {
        LastOfItsIndex(s);
        LastOfItsIndex(t);
      } else {
        assert WithIndex(s', k) + [] == WithIndex(s', k);
        assert WithIndex(t', k) + [] == WithIndex(t', k);
      }
    }
  }

  /** A sorted list is determined by its rows index by index. */
  lemma {:induction false} SortedListsAgree(s: seq<EmbeddingData>, t: seq<EmbeddingData>)
    requires Sorted(s) && Sorted(t) && SameIndexByIndex(s, t)
    ensures s == t
    decreases |s|
  {
    if s == [] {
      if t != [] {
        LastOfItsIndex(t);
        assert false;
      }
    } else {
      var x := s[|s| - 1];
      LastOfItsIndex(s);
      assert WithIndex(s, x.index) == WithIndex(t, x.index);
      LargestIsLast(t, x.index);
      var y := t[|t| - 1];
      LastOfItsIndex(t);
      assert WithIndex(s, y.index) == WithIndex(t, y.index);
      LargestIsLast(s, y.index);
      assert x == y;
      DropEqualLast(s, t);
      SortedListsAgree(s[..|s| - 1], t[..|t| - 1]);
      assert s == s[..|s| - 1] + [x] && t == t[..|t| - 1] + [y];
    }
  }

  /** SortByIndex is the only stable sort: any sorted list that keeps equal indexes in order equals it. */
  lemma StableSortIsUnique(rows: seq<EmbeddingData>, t: seq<EmbeddingData>)
    requires Sorted(t) && SameIndexByIndex(t, rows)
    ensures t == SortByIndex(rows)
  {
    forall k ensures WithIndex(t, k) == WithIndex(SortByIndex(rows), k) {
      SortFacts(rows, k);
    }
    SortFacts(rows, 0);
    SortedListsAgree(t, SortByIndex(rows));
  }

  /** The order-blindness of the sort, exactly: it forgets everything but the order within each index. */
  lemma SortForgetsOrder(s: seq<EmbeddingData>, t: seq<EmbeddingData>)
    ensures SortByIndex(s) == SortByIndex(t) <==> SameIndexByIndex(s, t)
  {
    if SameIndexByIndex(s, t) {
      SortFacts(s, 0);
      forall k ensures WithIndex(SortByIndex(s), k) == WithIndex(t, k) {
        SortFacts(s, k);
      }
      StableSortIsUnique(t, SortByIndex(s));
    } else {
      var k :| WithIndex(s, k) != WithIndex(t, k);
      SortFacts(s, k);
      SortFacts(t, k);
    }
  }

  ghost predicate DistinctIndexes(rows: seq<EmbeddingData>) {
    forall i, j | 0 <= i < j < |rows| :: rows[i].index != rows[j].index
  }

  lemma {:induction false} WithIndexMember(rows: seq<EmbeddingData>, k: int, row: EmbeddingData)
    ensures row in WithIndex(rows, k) <==> row in rows && row.index == k
  {
    if rows != [] {
      var front, last := rows[..|rows| - 1], rows[|rows| - 1];
      assert rows == front + [last];
      WithIndexMember(front, k, row);
    }
  }

  lemma {:induction false} AtMostOne(rows: seq<EmbeddingData>, k: int)
    requires DistinctIndexes(rows)
    ensures |WithIndex(rows, k)| <= 1
  {
    if rows != [] {
      var front, last := rows[..|rows| - 1], rows[|rows| - 1];
      AtMostOne(front, k);
      if WithIndex(front, k) != [] {
        WithIndexMember(front, k, WithIndex(front, k)[0]);
      }
    }
  }

  /** Two replies whose rows are the same up to order, with distinct indexes, normalise to the same list. */
  lemma PermutedRepliesAgree(a: Reply, b: Reply, n: nat)
    requires a.Data? && b.Data?
    requires ParseItems(a.items, 0).Success? && ParseItems(b.items, 0).Success?
    requires multiset(ParseItems(a.items, 0).value) == multiset(ParseItems(b.items, 0).value)
    requires DistinctIndexes(ParseItems(a.items, 0).value) && DistinctIndexes(ParseItems(b.items, 0).value)
    ensures |a.items| == |b.items| && Normalize(a, n) == Normalize(b, n)
  {
    var s, t := ParseItems(a.items, 0).value, ParseItems(b.items, 0).value;
    ParsedLength(a.items, 0);
    ParsedLength(b.items, 0);
    assert |multiset(s)| == |s| && |multiset(t)| == |t|;
    forall k ensures WithIndex(s, k) == WithIndex(t, k) {
      SameMembers(s, t, k);
    }
    SortForgetsOrder(s, t);
  }

  lemma SameMembers(s: seq<EmbeddingData>, t: seq<EmbeddingData>, k: int)
    requires multiset(s) == multiset(t) && DistinctIndexes(s) && DistinctIndexes(t)
    ensures WithIndex(s, k) == WithIndex(t, k)
  {
    var a, b := WithIndex(s, k), WithIndex(t, k);
    AtMostOne(s, k);
    AtMostOne(t, k);
    if a != [] {
      assert a[0] in a;
      WithIndexMember(s, k, a[0]);
      assert a[0] in multiset(s);
      WithIndexMember(t, k, a[0]);
      assert a == [a[0]] == b;
    } else if b != [] {
      assert b[0] in b;
      WithIndexMember(t, k, b[0]);
      assert b[0] in multiset(t);
      WithIndexMember(s, k, b[0]);
    }
  }

  lemma {:induction false} ParsedLength(items: seq<ReplyItem>, position: nat)
    ensures ParseItems(items, position).Success? ==> |ParseItems(items, position).value| == |items|
  {
    if items != [] {
      ParsedLength(items[1..], position + 1);
    }
  }

  /** Fixing the length is what keeps the strict zip of a batch with its rows from failing. */
  lemma NormalizedLength(reply: Reply, n: nat)
    ensures Normalize(reply, n).Success? ==> |Normalize(reply, n).value| == n
  {
    if reply.Data? {
      ParsedLength(reply.items, 0);
    }
  }

  // Rows that name their inputs.

  /** Row i of the reply names input rows[i].index and carries that input's embedding; no input is named twice. */
  ghost predicate RowsNameInputs(rows: seq<EmbeddingData>, inputs: seq<string>, embed: string -> Embedding) {
    && |rows| == |inputs|
    && DistinctIndexes(rows)
    && forall row | row in rows :: 0 <= row.index < |inputs| && row.embedding == embed(inputs[row.index])
  }

  function InOrder(inputs: seq<string>, embed: string -> Embedding): (r: seq<EmbeddingData>)
    ensures |r| == |inputs|
    ensures forall i | 0 <= i < |r| :: r[i] == EmbeddingData(embed(inputs[i]), i)
  {
    seq(|inputs|, i requires 0 <= i < |inputs| => EmbeddingData(embed(inputs[i]), i))
  }

  lemma {:induction false} StrictlyAbove(rows: seq<EmbeddingData>, i: nat)
    requires Sorted(rows) && DistinctIndexes(rows) && i < |rows|
    requires 0 <= rows[0].index
    ensures i <= rows[i].index
  {
    if i != 0 {
      StrictlyAbove(rows, i - 1);
      assert rows[i - 1].index <= rows[i].index && rows[i - 1].index != rows[i].index;
    }
  }

  lemma {:induction false} StrictlyBelow(rows: seq<EmbeddingData>, i: nat)
    requires Sorted(rows) && DistinctIndexes(rows) && i < |rows|
    requires rows[|rows| - 1].index < |rows|
    ensures rows[i].index <= i
    decreases |rows| - i
  {
    if i != |rows| - 1 {
      StrictlyBelow(rows, i + 1);
      assert rows[i].index <= rows[i + 1].index && rows[i].index != rows[i + 1].index;
    }
  }

  lemma SortKeepsDistinct(rows: seq<EmbeddingData>)
    requires DistinctIndexes(rows)
    ensures DistinctIndexes(SortByIndex(rows))
  {
    var t := SortByIndex(rows);
    forall i, j | 0 <= i < j < |t| ensures t[i].index != t[j].index {
      if t[i].index == t[j].index {
        SortFacts(rows, t[i].index);
        AtMostOne(rows, t[i].index);
        TwoOfAnIndex(t, i, j);
        assert false;
      }
    }
  }

  lemma {:induction false} TwoOfAnIndex(rows: seq<EmbeddingData>, i: nat, j: nat)
    requires i < j < |rows| && rows[i].index == rows[j].index
    ensures 2 <= |WithIndex(rows, rows[i].index)|
  {
    var front, last := rows[..|rows| - 1], rows[|rows| - 1];
    if j < |front| {
      TwoOfAnIndex(front, i, j);
    } else {
      WithIndexMember(front, rows[i].index, front[i]);
      assert front[i] in WithIndex(front, rows[i].index);
    }
  }

  ghost predicate IndexesCover(rows: seq<EmbeddingData>) {
    DistinctIndexes(rows) && forall row | row in rows :: 0 <= row.index < |rows|
  }

  /** The exact condition for row i of a normalised reply to be the row of input i, for every i. */
  lemma SortedIntoPlaceExactly(rows: seq<EmbeddingData>)
    ensures (forall i | 0 <= i < |rows| :: SortByIndex(rows)[i].index == i) <==> IndexesCover(rows)
  {
    var t := SortByIndex(rows);
    SortFacts(rows, 0);
    if IndexesCover(rows) {
      SortKeepsDistinct(rows);
      forall i | 0 <= i < |t| ensures 0 <= t[i].index < |t| {
        SortedFrom(rows, i);
      }
      forall i | 0 <= i < |t| ensures t[i].index == i {
        StrictlyAbove(t, i);
        StrictlyBelow(t, i);
      }
    }
    if forall i | 0 <= i < |rows| :: t[i].index == i {
      PlacedIndexesCover(rows);
    }
  }

  lemma PlacedIndexesCover(rows: seq<EmbeddingData>)
    requires forall i | 0 <= i < |rows| :: SortByIndex(rows)[i].index == i
    ensures IndexesCover(rows)
  {
    forall i, j | 0 <= i < j < |rows| ensures rows[i].index != rows[j].index {
      if rows[i].index == rows[j].index {
        OnePlacePerIndex(rows, rows[i].index);
        TwoOfAnIndex(rows, i, j);
        assert false;
      }
    }
    forall row | row in rows ensures 0 <= row.index < |rows| {
      var i := SortedPosition(rows, row);
    }
  }

  lemma OnePlacePerIndex(rows: seq<EmbeddingData>, k: int)
    requires forall i | 0 <= i < |rows| :: SortByIndex(rows)[i].index == i
    ensures |WithIndex(rows, k)| <= 1
  {
    SortFacts(rows, k);
    AtMostOne(SortByIndex(rows), k);
  }

  lemma SortedPosition(rows: seq<EmbeddingData>, row: EmbeddingData) returns (i: nat)
    requires row in rows
    ensures i < |rows| && SortByIndex(rows)[i] == row
  {
    SortFacts(rows, 0);
    assert row in multiset(rows);
    assert row in SortByIndex(rows);
    i :| 0 <= i < |rows| && SortByIndex(rows)[i] == row;
  }

  lemma SortedFrom(rows: seq<EmbeddingData>, i: nat)
    requires i < |rows|
    ensures SortByIndex(rows)[i] in rows
  {
    SortFacts(rows, 0);
    assert SortByIndex(rows)[i] in multiset(SortByIndex(rows));
  }

  /** A reply without any index keeps its order: row i is the i-th item, under index i. */
  lemma UnindexedReplyKeepsOrder(reply: Reply, n: nat)
    requires Normalize(reply, n).Success?
    requires forall item | item in reply.items :: item.Object? ==> item.index.Absent?
    ensures |Normalize(reply, n).value| == |reply.items| == n
    ensures forall i | 0 <= i < n ::
      reply.items[i].Object? && reply.items[i].embedding.Numbers?
      && Normalize(reply, n).value[i] == EmbeddingData(reply.items[i].embedding.values, i)
  {
    var rows := ParseItems(reply.items, 0).value;
    ParsedLength(reply.items, 0);
    forall i | 0 <= i < n
      ensures reply.items[i].Object? && reply.items[i].embedding.Numbers?
      ensures rows[i] == EmbeddingData(reply.items[i].embedding.values, i)
    {
      ParsedRow(reply.items, 0, i);
    }
    StableSortIsUnique(rows, rows);
  }

  /** Row k of a parsed reply is what the k-th item stands for. */
  lemma {:induction false} ParsedRow(items: seq<ReplyItem>, position: nat, k: nat)
    requires k < |items| && ParseItems(items, position).Success?
    ensures |ParseItems(items, position).value| == |items|
    ensures ParseItem(items[k], position + k) == Success(ParseItems(items, position).value[k])
  {
    ParsedLength(items, position);
    if k != 0 {
      ParsedRow(items[1..], position + 1, k - 1);
    }
  }

  /** Sorting a reply that names its inputs puts every embedding at the position of its input. */
  lemma NamedRowsSortIntoPlace(rows: seq<EmbeddingData>, inputs: seq<string>, embed: string -> Embedding)
    requires RowsNameInputs(rows, inputs, embed)
    ensures SortByIndex(rows) == InOrder(inputs, embed)
  {
    SortedIntoPlaceExactly(rows);
    var t := SortByIndex(rows);
    forall i | 0 <= i < |t| ensures t[i] == InOrder(inputs, embed)[i] {
      SortedFrom(rows, i);
    }
  }

  // What all this means for the raw items of a reply.

  /** An item that can be read: an object with a list of numbers and, if it has an index, an integer. */
  predicate IsReadable(item: ReplyItem) {
    item.Object? && item.embedding.Numbers? && (item.index.Absent? || item.index.Present?)
  }

  /** An item goes by the index it carries, and by its position only if it carries none. */
  predicate GoesBy(item: ReplyItem, position: nat, index: int) {
    item.Object? && (item.index == Present(index) || (item.index == Absent && index == position))
  }

  predicate IsReadableReply(reply: Reply, n: nat) {
    reply.Data? && |reply.items| == n && forall k | 0 <= k < n :: IsReadable(reply.items[k])
  }

  lemma {:induction false} ReadableItemsParse(items: seq<ReplyItem>, position: nat)
    ensures ParseItems(items, position).Success? <==> forall k | 0 <= k < |items| :: IsReadable(items[k])
  {
    if items != [] {
      ReadableItemsParse(items[1..], position + 1);
      assert forall k | 0 <= k < |items| - 1 :: items[1..][k] == items[k + 1];
      if forall k | 0 <= k < |items| - 1 :: IsReadable(items[1..][k]) {
        assert forall k | 1 <= k < |items| :: items[k] == items[1..][k - 1];
      }
    }
  }

  /** A reply is accepted exactly when it has the expected number of items and each of them can be read. */
  lemma AcceptedExactly(reply: Reply, n: nat)
    ensures Normalize(reply, n).Success? <==> IsReadableReply(reply, n)
  {
    if reply.Data? {
      ReadableItemsParse(reply.items, 0);
    }
  }

  /** The rows of an accepted reply: each item's own numbers under the index it goes by, sorted by that index. */
  lemma {:induction false} AcceptedRows(reply: Reply, n: nat, rows: seq<EmbeddingData>)
    requires IsReadableReply(reply, n) && |rows| == n
    requires forall k | 0 <= k < n ::
      rows[k].embedding == reply.items[k].embedding.values && GoesBy(reply.items[k], k, rows[k].index)
    ensures Normalize(reply, n) == Success(SortByIndex(rows))
  {
    AcceptedExactly(reply, n);
    ParsedLength(reply.items, 0);
    var parsed := ParseItems(reply.items, 0).value;
    forall k | 0 <= k < n ensures parsed[k] == rows[k] {
      ParsedRow(reply.items, 0, k);
    }
    assert parsed == rows;
  }

  lemma {:induction false} FirstBadItemParses(items: seq<ReplyItem>, position: nat, k: nat)
    requires k < |items| && !IsReadable(items[k]) && forall j | 0 <= j < k :: IsReadable(items[j])
    ensures ParseItems(items, position).Failure? && ParseItem(items[k], position + k).Failure?
    ensures ParseItems(items, position).error == ParseItem(items[k], position + k).error
  {
    if k != 0 {
      assert IsReadable(items[0]);
      assert items[1..][k - 1] == items[k] && forall j | 0 <= j < k - 1 :: items[1..][j] == items[j + 1];
      FirstBadItemParses(items[1..], position + 1, k - 1);
    }
  }

  /** A reply of the wrong shape is refused for its shape, whatever its items are. */
  lemma WrongShapeIsReported(reply: Reply, n: nat)
    ensures reply == NoDataList ==> Normalize(reply, n) == Failure(MissingDataList)
    ensures reply.Data? && |reply.items| != n ==> Normalize(reply, n) == Failure(LengthMismatch(n, |reply.items|))
  {
  }

  /** The problems that are reported together for an item whose fields cannot be read. */
  predicate AreProblemsOf(item: ReplyItem, problems: seq<string>) {
    && item.Object? && !item.embedding.NotAList?
    && match (item.embedding, item.index)
       case (NotNumbers(some), NotAnInteger(other)) => problems == some + [other]
       case (NotNumbers(some), _) => problems == some
       case (_, NotAnInteger(other)) => problems == [other]
       case _ => false
  }

  /** With the right number of items, the first item that cannot be read decides which error is raised. */
  lemma FirstBadItemIsReported(reply: Reply, n: nat, k: nat)
    requires reply.Data? && k < |reply.items| == n && !IsReadable(reply.items[k])
    requires forall j | 0 <= j < k :: IsReadable(reply.items[j])
    ensures
      var item := reply.items[k];
      && (item == NotAnObject ==> Normalize(reply, n) == Failure(ItemNotAnObject))
      && (item.Object? && item.embedding == NotAList ==> Normalize(reply, n) == Failure(MissingEmbeddingList))
      && (item.Object? && item.embedding != NotAList ==>
        Normalize(reply, n).Failure? && Normalize(reply, n).error.InvalidRow?
        && AreProblemsOf(item, Normalize(reply, n).error.problems))
  {
    FirstBadItemParses(reply.items, 0, k);
  }

  /** What each refusal says. */
  lemma RefusalTexts(expected: nat, actual: nat, problem: string, another: string)
    ensures ErrorText(MissingDataList) == "Internal vLLM response missing data list"
    ensures ErrorText(LengthMismatch(expected, actual))
      == "Internal vLLM response data length mismatch; expected=" + Decimal(expected) + ", actual=" + Decimal(actual)
    ensures ErrorText(ItemNotAnObject) == "Internal vLLM response data item must be an object"
    ensures ErrorText(MissingEmbeddingList) == "Internal vLLM response data item missing embedding list"
    ensures ErrorText(InvalidRow([problem])) == "1 validation error" + " for EmbeddingData" + ("\n" + problem)
    ensures ErrorText(InvalidRow([problem, another]))
      == Decimal(2) + " validation errors" + " for EmbeddingData" + ("\n" + problem + "\n" + another)
  {
    LinesOfOneAndTwo(problem, another);
  }

  lemma LinesOfOneAndTwo(a: string, b: string)
    ensures Lines([a]) == "\n" + a && Lines([a, b]) == "\n" + a + "\n" + b
  {
    assert [a][1..] == [] && [a, b][1..] == [b];
    assert Lines([b]) == "\n" + b;
    assert ("\n" + a) + ("\n" + b) == "\n" + a + "\n" + b;
  }

  predicate AnswersInput(item: ReplyItem, j: int, inputs: seq<string>, embed: string -> Embedding) {
    item.Object? && 0 <= j < |inputs| && item.embedding == Numbers(embed(inputs[j]))
  }

  /** Every item carries the embedding of the input whose index it goes by, and no two go by the same. */
  ghost predicate NamesItsInputs(items: seq<ReplyItem>, inputs: seq<string>, embed: string -> Embedding) {
    && |items| == |inputs| && (forall k | 0 <= k < |items| :: IsReadable(items[k]))
    && (forall k, j | 0 <= k < |items| && GoesBy(items[k], k, j) :: AnswersInput(items[k], j, inputs, embed))
    && (forall k, l, j | 0 <= k < l < |items| && GoesBy(items[k], k, j) :: !GoesBy(items[l], l, j))
  }

  /** Such a reply is accepted, and its rows are the embeddings of the inputs in input order. */
  lemma NamedReplyIsInOrder(items: seq<ReplyItem>, inputs: seq<string>, embed: string -> Embedding)
    requires NamesItsInputs(items, inputs, embed)
    ensures Normalize(Data(items), |inputs|) == Success(InOrder(inputs, embed))
  {
    var reply := Data(items);
    AcceptedExactly(reply, |inputs|);
    ParsedLength(items, 0);
    var rows := ParseItems(items, 0).value;
    forall k | 0 <= k < |rows|
      ensures GoesBy(items[k], k, rows[k].index)
      ensures 0 <= rows[k].index < |inputs| && rows[k].embedding == embed(inputs[rows[k].index])
    {
      ParsedRow(items, 0, k);
      assert AnswersInput(items[k], rows[k].index, inputs, embed);
    }
    NamedRowsSortIntoPlace(rows, inputs, embed);
  }

  /** In particular a reply that answers the inputs in any order, each item under the index of its own input. */
  lemma ReorderedReplyIsInOrder(
    items: seq<ReplyItem>, inputs: seq<string>, embed: string -> Embedding, order: seq<nat>)
    requires |items| == |inputs| == |order|
    requires forall k | 0 <= k < |order| :: order[k] < |inputs|
    requires forall k, l | 0 <= k < l < |order| :: order[k] != order[l]
    requires forall k | 0 <= k < |items| :: items[k] == Object(Numbers(embed(inputs[order[k]])), Present(order[k]))
    ensures Normalize(Data(items), |inputs|) == Success(InOrder(inputs, embed))
  {
    NamedReplyIsInOrder(items, inputs, embed);
  }
}
