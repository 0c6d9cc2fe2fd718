/** Settings, the workload classifier and the choice between the batched paths and the direct path. */
module Workload {
  import opened QueueModels
  import opened Claiming

  datatype Settings = Settings(
    keyPrefix: string,
    requestTimeoutMs: int,
    enableQueryBatching: bool,
    queryMaxTokens: int,
    queryBatchTargetTokens: int,
    queryMaxWaitMs: int,
    queryBatchMaxItems: int,
    enableDocumentBatching: bool,
    documentBatchTargetTokens: int,
    documentMaxWaitMs: int,
    documentBatchMaxItems: int,
    batchWorkerModel: string)

  datatype InputType = QueryInput | DocumentInput

  datatype Path = QueryBatch | DocumentBatch | Direct

  function Sum(counts: seq<nat>): nat {
    if counts == [] then 0 else counts[0] + Sum(counts[1..])
  }

  function ClassifyEmbeddingRequest(
    inputCount: nat, totalTokens: nat, inputType: Option<InputType>, queryMaxTokens: int): Lane
  {
    if inputCount == 1 && totalTokens <= queryMaxTokens && inputType == Some(QueryInput) then Query else Document
  }

  /** The branch that create_embeddings takes; `hasClient` says whether a batching client was started. */
  function ChoosePath(settings: Settings, hasClient: bool, logicalModel: string, workload: Lane): Path {
    if settings.enableQueryBatching && hasClient && workload == Query && logicalModel == settings.batchWorkerModel then
      QueryBatch
    else if settings.enableDocumentBatching && hasClient && workload == Document
            && logicalModel == settings.batchWorkerModel then
      DocumentBatch
    else Direct
  }

  /** The worker settings of a lane: _target_tokens and _max_items. */
  function LimitsOf(settings: Settings, lane: Lane): Limits {
    match lane
    case Query => Limits(settings.queryBatchMaxItems, settings.queryBatchTargetTokens)
    case Document => Limits(settings.documentBatchMaxItems, settings.documentBatchTargetTokens)
  }

  function MaxWaitMs(settings: Settings, lane: Lane): int {
    match lane
    case Query => settings.queryMaxWaitMs
    case Document => settings.documentMaxWaitMs
  }

  /** The lane a request is batched in, when it is batched at all. */
  function BatchLane(
    settings: Settings, hasClient: bool, logicalModel: string, counts: seq<nat>, inputType: Option<InputType>)
    : Option<Lane>
  {
    match ChoosePath(settings, hasClient, logicalModel,
                     ClassifyEmbeddingRequest(|counts|, Sum(counts), inputType, settings.queryMaxTokens))
    case QueryBatch => Some(Query)
    case DocumentBatch => Some(Document)
    case Direct => None
  }

  /** A single query input that is no longer than the query limit. */
  predicate IsShortQuery(settings: Settings, counts: seq<nat>, inputType: Option<InputType>) {
    |counts| == 1 && counts[0] <= settings.queryMaxTokens && inputType == Some(QueryInput)
  }

  /**
   * What reaches each lane, exactly: requests for the workers' own model, short queries in the query lane and all
   * others in the document lane, as far as the lane is switched on. With both switched on none of them goes direct.
   */
  lemma LanesAdmit(
    settings: Settings, hasClient: bool, logicalModel: string, counts: seq<nat>, inputType: Option<InputType>)
    ensures
      var lane := BatchLane(settings, hasClient, logicalModel, counts, inputType);
      var own := hasClient && logicalModel == settings.batchWorkerModel;
      && (lane == Some(Query) <==> own && settings.enableQueryBatching && IsShortQuery(settings, counts, inputType))
      && (lane == Some(Document) <==>
        own && settings.enableDocumentBatching && !IsShortQuery(settings, counts, inputType))
      && (settings.enableQueryBatching && settings.enableDocumentBatching ==> (lane.Some? <==> own))
  {
    if |counts| == 1 {
      assert counts[1..] == [];
      assert Sum(counts) == counts[0];
    }
  }
}
