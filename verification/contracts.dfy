/**
  The records exchanged between the services over the job queues
  (libs/queue-contracts) and the sync result of the core service.
  Timestamps are integers (milliseconds since the epoch unless a field says
  otherwise) instead of ISO strings; float vectors are sequences of reals.
*/
module Contracts {
  import opened Wrappers

  /** `AiAnalysisResult.sentiment` */
  datatype Sentiment = Positive | Neutral | Negative | Unknown

  /** `AiAnalysisResult.factCheck.verdict` */
  datatype Verdict = Verified | PartiallyTrue | False | Unverified | Opinion

  datatype Entities = Entities(
    organizations: Option<seq<string>>,
    people: Option<seq<string>>,
    tickers: Option<seq<string>>,
    locations: Option<seq<string>>)

  datatype FactCheck = FactCheck(
    verdict: Verdict,
    score: real,
    explanation: string,
    sources: Option<seq<string>>)

  /** `AiAnalysisResult`; extra keys of the open record are not modelled. */
  datatype AiAnalysis = AiAnalysis(
    summary: string,
    sentiment: Sentiment,
    keywords: seq<string>,
    entities: Option<Entities>,
    category: Option<string>,
    language: Option<string>,
    factCheck: Option<FactCheck>)

  /** `EmbeddingResult` */
  datatype EmbeddingResult = EmbeddingResult(embedding: seq<real>, model: string, dimensions: nat)

  /**
    The fields of `TelegramApiMessageContract` the services read: the message id,
    its send time in Unix seconds (`date`) and its optional text (`message`).
  */
  datatype TelegramMessage = TelegramMessage(id: int, date: int, message: Option<string>)

  /** `ParseTelegramMessageResult` */
  datatype ParseTelegramResult =
    | Sent
    | Received(messages: seq<TelegramMessage>)
    | Skipped(reason: string)

  /**
    A JSON document stored in a `Json` column. The model keeps the parsed
    value; serialising and parsing it again is taken to give the same value.
  */
  datatype Json =
    | AnalysisDoc(analysis: AiAnalysis)
    | MessageDoc(message: TelegramMessage)
    | OtherDoc(text: string)

  /** `SaveContentPayload` of the database-storage queue. */
  datatype SaveContentPayload = SaveContentPayload(
    sourceType: string,
    sourceExternalId: string,
    sourceName: Option<string>,
    externalId: Option<string>,
    text: Option<string>,
    rawData: Option<Json>,
    sourceDate: Option<int>)

  /** `UpdateVectorPayload` */
  datatype UpdateVectorPayload = UpdateVectorPayload(contentId: string, vector: seq<real>)

  /** `UpdateAiAnalysisPayload` */
  datatype UpdateAiAnalysisPayload = UpdateAiAnalysisPayload(contentId: string, analysis: Json)

  /** `SyncResult` of one synchronisation run. */
  datatype SyncResult = SyncResult(
    sourceId: string,
    sourceName: string,
    messagesProcessed: nat,
    contentCreated: nat,
    contentSkipped: nat,
    errors: seq<string>,
    startedAt: int,
    finishedAt: int,
    durationMs: int)

  /** `SyncOptions`: an absent limit and a limit of 0 are both falsy. */
  datatype SyncOptions = SyncOptions(limit: Option<nat>)
}
