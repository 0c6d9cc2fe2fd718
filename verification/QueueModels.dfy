/** The values that travel through Redis: work items, result items and raw queue entries. */
module QueueModels {

  datatype Option<+T> = None | Some(value: T)

  datatype Result<+T, +E> = Success(value: T) | Failure(error: E)

  type Embedding = seq<real>

  /** The two workload classes; each has a work queue of its own. */
  datatype Lane = Query | Document

  /** One child of a gateway request, as it is pushed to a lane. */
  datatype WorkItem = WorkItem(
    requestId: string,
    parentRequestId: string,
    inputIndex: nat,
    inputCount: nat,
    replyTo: string,
    inputText: string,
    tokenCount: nat,
    createdAtMs: int,
    deadlineMs: int)

  /** An element of a work queue: a serialised work item, or text that does not decode. */
  datatype Entry = Malformed(raw: string) | Work(item: WorkItem)

  /** A worker's answer to one work item. */
  datatype ResultItem = ResultItem(
    requestId: string,
    parentRequestId: string,
    inputIndex: nat,
    ok: bool,
    embedding: Option<Embedding>,
    error: Option<string>,
    statusCode: Option<int>)

  /** One row of the public response. */
  datatype EmbeddingData = EmbeddingData(embedding: Embedding, index: int)

  /** The head of a queue, when it decodes. */
  function OldestItem(q: seq<Entry>): Option<WorkItem> {
    if q != [] && q[0].Work? then Some(q[0].item) else None
  }

  /** The tokens carried by the decodable entries of a queue. */
  function Tokens(q: seq<Entry>): nat {
    if q == [] then 0
    else (if q[0].Work? then q[0].item.tokenCount else 0) + Tokens(q[1..])
  }

  function ItemTokens(items: seq<WorkItem>): nat {
    if items == [] then 0 else items[0].tokenCount + ItemTokens(items[1..])
  }

  function Flatten<T>(blocks: seq<seq<T>>): seq<T> {
    if blocks == [] then [] else blocks[0] + Flatten(blocks[1..])
  }

  lemma {:induction false} TokensConcat(a: seq<Entry>, b: seq<Entry>)
    ensures Tokens(a + b) == Tokens(a) + Tokens(b)
  {
    if a == [] {
      assert a + b == b;
    } else {
      TokensConcat(a[1..], b);
      assert (a + b)[1..] == a[1..] + b;
    }
  }

  lemma {:induction false} ItemTokensConcat(a: seq<WorkItem>, b: seq<WorkItem>)
    ensures ItemTokens(a + b) == ItemTokens(a) + ItemTokens(b)
  {
    if a == [] {
      assert a + b == b;
    } else {
      ItemTokensConcat(a[1..], b);
      assert (a + b)[1..] == a[1..] + b;
    }
  }
}
