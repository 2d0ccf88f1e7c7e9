/**
  The content pipeline of the core service (apps/core/src/pipeline/pipeline.service.ts):
  incremental processing of a batch of fetched messages for one source. The
  watermark is read from the external id of the source's latest stored content;
  every newer message is stored, analysed, embedded and vectorised in turn.
  The database service is the model of its handlers (module Database); the AI
  queue and the vector upsert are oracles passed in as `Services`, and the
  latest content of the source is passed in as its external id.
*/
module Pipeline {
  import opened Wrappers
  import opened Text
  import opened Decimal
  import opened Contracts
  import opened Database

  const NoTextContent := "No text content"
  const InvalidContentId := "Content creation returned null or invalid ID"
  const EnrichedEmbeddingModel := "text-embedding-3-small"
  const ReadyStatus := "ready"

  /** The fields of a source the pipeline reads. */
  datatype PipelineSource = PipelineSource(id: string, externalId: string)

  /**
    The collaborators the pipeline calls and the model does not see: the
    analysis and embedding jobs of the AI queue (an error carries the thrown
    message) and the database service's vector upsert for a content id (its
    answer is the vector id).
  */
  datatype Services = Services(
    analyze: string -> Result<AiAnalysis, string>,
    embed: string -> Result<EmbeddingResult, string>,
    upsertVector: (string, seq<real>) -> Result<string, string>)

  /** `ProcessStats` */
  datatype Stats = Stats(created: nat, skipped: nat, errors: seq<string>)

  // ---------------------------------------------------------------------------
  // External ids and the watermark

  /** The external id of the content stored for a message: `"{source external id}:{message id}"`. */
  function DerivedExternalId(src: PipelineSource, m: TelegramMessage): string {
    src.externalId + ":" + IntToString(m.id)
  }

  /** `extractMessageId`: `parseInt` of the part after the last `:`, or of `'0'` when that part is empty. */
  function ExtractMessageId(externalId: string): (r: JsNumber)
    ensures AfterLast(externalId, ':') == "" ==> r == Num(0)
  {
    var tail := AfterLast(externalId, ':');
    assert IntToString(0) == "0";
    ParseIntOfIntToString(0);
    ParseInt(if tail == "" then "0" else tail)
  }

  /** The watermark: the message id of the source's latest content, or 0 when it has none. */
  function Watermark(lastExternalId: Option<string>): (w: JsNumber)
    ensures lastExternalId.None? ==> w == Num(0)
    ensures lastExternalId.Some? ==> w == ExtractMessageId(lastExternalId.value)
  {
    if lastExternalId.None? then Num(0) else ExtractMessageId(lastExternalId.value)
  }

  /** `m.id > lastId`: no number is greater than NaN. */
  predicate IsNew(m: TelegramMessage, w: JsNumber) {
    w.Num? && m.id > w.value
  }

  /** The messages newer than the watermark, in their original order. */
  function NewMessages(msgs: seq<TelegramMessage>, w: JsNumber): (r: seq<TelegramMessage>)
    ensures |r| <= |msgs|
    ensures forall x :: x in r <==> x in msgs && IsNew(x, w)
    ensures (forall i :: 0 <= i < |msgs| ==> IsNew(msgs[i], w)) ==> r == msgs
    ensures w.NaN? ==> r == []
  {
    if |msgs| == 0 then []
    else
      var rest := NewMessages(msgs[1..], w);
      assert forall x :: x in msgs[1..] ==> x in msgs;
      if IsNew(msgs[0], w) then [msgs[0]] + rest else rest
  }

  /** The stored external id of a message reads back as the message id. */
  lemma DerivedIdReadsBack(src: PipelineSource, m: TelegramMessage)
    ensures ExtractMessageId(DerivedExternalId(src, m)) == Num(m.id)
  {
    AfterLastAppend(src.externalId, ':', IntToString(m.id));
    ParseIntOfIntToString(m.id);
  }

  /** An external id whose last segment does not start with a digit or sign gives NaN. */
  lemma NonNumericTailIsNaN(externalId: string)
    requires var tail := AfterLast(externalId, ':');
      tail != "" && !IsWhitespace(tail[0]) && !IsDigit(tail[0]) && tail[0] != '-' && tail[0] != '+'
    ensures ExtractMessageId(externalId) == NaN
  {
    var tail := AfterLast(externalId, ':');
    assert LeadingWhitespace(tail) == 0;
    ParseIntNaN(tail);
  }

  /** For instance a latest content stored as `"news:abc"` stops every later message. */
  lemma NonNumericWatermarkExample()
    ensures Watermark(Some("news:abc")) == NaN
  {
    AfterLastAppend("news", ':', "abc");
    assert "news:abc" == "news" + [':'] + "abc";
    NonNumericTailIsNaN("news:abc");
  }

  // ---------------------------------------------------------------------------
  // One message

  /** `sourceDate`: the message's Unix seconds as milliseconds, unless the date is 0. */
  function SourceDate(m: TelegramMessage): (d: Option<int>)
    ensures d.Some? <==> m.date != 0
    ensures d.Some? ==> d.value == m.date * 1000
  {
    if m.date != 0 then Some(m.date * 1000) else None
  }

  /** The `createContent` call for a message: the raw message is kept as raw data. */
  function CreateRequest(src: PipelineSource, m: TelegramMessage): CreateContentRequest {
    CreateContentRequest(DerivedExternalId(src, m), src.id, m.message, Some(MessageDoc(m)), None, SourceDate(m))
  }

  /** Whether the message has text: not absent, not blank. */
  predicate HasText(m: TelegramMessage) {
    m.message.Some? && !IsBlank(m.message.value)
  }

  /** `!!qdrantId` */
  predicate Vectorized(q: Option<string>) {
    q.Some? && q.value != ""
  }

  /** The final `updateContent` call: analysis, vector flags and status `ready`. */
  function EnrichRequest(id: string, a: AiAnalysis, q: Option<string>): (req: UpdateContentRequest)
    ensures req.id == id && req.status == Some(ReadyStatus) && req.aiAnalysis == Some(AnalysisDoc(a))
    ensures req.isVectorized == Some(Vectorized(q)) && req.qdrantId == q && req.text.None?
  {
    UpdateContentRequest(id, None, Some(Vectorized(q)), q, Some(EnrichedEmbeddingModel), Some(AnalysisDoc(a)), Some(ReadyStatus))
  }

  /** The store after a message and the message of the error it threw, if any. */
  datatype Outcome = Outcome(db: Db, error: Option<string>)

  /** The vector id of a successful upsert; a failed upsert is swallowed. */
  function VectorId(svc: Services, id: string, e: EmbeddingResult): Option<string> {
    match svc.upsertVector(id, e.embedding)
    case Ok(q) => Some(q)
    case Err(_) => None
  }

  /**
    `processMessage`: reject a message without text, create its content, then
    analyse the text, embed the summary, upsert the vector and record the
    results. A failure at any stage after creation leaves the created row.
  */
  function ProcessMessage(db: Db, src: PipelineSource, m: TelegramMessage, svc: Services): (o: Outcome)
    requires ContentCounted(db.content)
    ensures ContentCounted(o.db.content)
    ensures !HasText(m) ==> o == Outcome(db, Some(NoTextContent))
    ensures CreateContentRejected(db, CreateRequest(src, m)) && HasText(m) ==>
      o == Outcome(db, Some(RpcErrorText(RpcError(Internal, "Failed to create content"))))
  {
    if !HasText(m) then Outcome(db, Some(NoTextContent))
    else match CreateContent(db, CreateRequest(src, m))
      case Err(e) => Outcome(db, Some(RpcErrorText(e)))
      case Ok((db1, v)) =>
        InsertContentCounted(db.content, NewContentRow(CreateRequest(src, m)));
        if v.id == "" then Outcome(db1, Some(InvalidContentId))
        else match svc.analyze(m.message.value)
          case Err(e) => Outcome(db1, Some(e))
          case Ok(a) => match svc.embed(a.summary)
            case Err(e) => Outcome(db1, Some(e))
            case Ok(emb) =>
              var req := EnrichRequest(v.id, a, VectorId(svc, v.id, emb));
              match UpdateContent(db1, req)
              case Err(e) => Outcome(db1, Some(RpcErrorText(e)))
              case Ok((db2, _)) =>
                ReplaceContentCounted(db1.content, v.id, ApplyContentUpdate(db1.content.rows[v.id], req));
                Outcome(db2, None)
  }

  /** The id the content of a message gets when it is created. */
  function CreatedId(db: Db, src: PipelineSource, m: TelegramMessage): string
    requires ContentCounted(db.content)
  {
    InsertContent(db.content, NewContentRow(CreateRequest(src, m))).1
  }

  /**
    A message that goes through every stage is stored once, under its derived
    external id, with its analysis, status `ready`, and marked vectorised
    exactly when the vector upsert answered with a non-empty id; the vector
    embedded is that of the analysis summary, not of the raw text.
  */
  lemma ProcessedMessageStored(db: Db, src: PipelineSource, m: TelegramMessage, svc: Services)
    requires ContentCounted(db.content)
    requires ProcessMessage(db, src, m, svc).error.None?
    ensures var o := ProcessMessage(db, src, m, svc);
      var id := CreatedId(db, src, m);
      && HasText(m) && !CreateContentRejected(db, CreateRequest(src, m))
      && svc.analyze(m.message.value).Ok?
      && var a := svc.analyze(m.message.value).value;
      && svc.embed(a.summary).Ok?
      && var q := VectorId(svc, id, svc.embed(a.summary).value);
      && id !in db.content.rows && id in o.db.content.rows
      && o.db.content.rows[id].externalId == DerivedExternalId(src, m)
      && o.db.content.rows[id].sourceId == src.id
      && o.db.content.rows[id].text == m.message
      && o.db.content.rows[id].status == ReadyStatus
      && o.db.content.rows[id].aiAnalysis == Some(AnalysisDoc(a))
      && o.db.content.rows[id].isVectorized == Vectorized(q)
      && o.db.content.rows[id].qdrantId == q
      && ExtractMessageId(o.db.content.rows[id].externalId) == Num(m.id)
  {
    DerivedIdReadsBack(src, m);
  }

  /** A message without text throws before anything is created. */
  lemma NoTextIsError(db: Db, src: PipelineSource, m: TelegramMessage, svc: Services)
    requires ContentCounted(db.content)
    requires m.message.None? || AllWhitespace(m.message.value)
    ensures ProcessMessage(db, src, m, svc) == Outcome(db, Some(NoTextContent))
  {
    if m.message.Some? {
      BlankIffAllWhitespace(m.message.value);
    }
  }

  /** A message whose content already exists is an INTERNAL error and changes nothing. */
  lemma DuplicateIsError(db: Db, src: PipelineSource, m: TelegramMessage, svc: Services)
    requires ContentCounted(db.content) && HasText(m)
    requires ContentKey(src.id, DerivedExternalId(src, m)) in db.content.keys
    ensures ProcessMessage(db, src, m, svc) == Outcome(db, Some(RpcErrorText(RpcError(Internal, "Failed to create content"))))
  {
  }

  /** When analysis fails, embedding and the vector store are never consulted. */
  lemma AnalyzeFailureStops(db: Db, src: PipelineSource, m: TelegramMessage, svc1: Services, svc2: Services)
    requires ContentCounted(db.content) && HasText(m)
    requires svc1.analyze(m.message.value).Err? && svc2.analyze(m.message.value) == svc1.analyze(m.message.value)
    ensures ProcessMessage(db, src, m, svc1) == ProcessMessage(db, src, m, svc2)
    ensures !CreateContentRejected(db, CreateRequest(src, m)) ==>
      ProcessMessage(db, src, m, svc1).error == Some(svc1.analyze(m.message.value).error)
  {
  }

  /** When embedding fails, the vector store is never consulted and the row keeps its initial status. */
  lemma EmbedFailureStops(db: Db, src: PipelineSource, m: TelegramMessage, svc1: Services, svc2: Services)
    requires ContentCounted(db.content) && HasText(m)
    requires !CreateContentRejected(db, CreateRequest(src, m))
    requires svc1.analyze(m.message.value).Ok? && svc2.analyze(m.message.value) == svc1.analyze(m.message.value)
    requires var s := svc1.analyze(m.message.value).value.summary;
      svc1.embed(s).Err? && svc2.embed(s) == svc1.embed(s)
    ensures ProcessMessage(db, src, m, svc1) == ProcessMessage(db, src, m, svc2)
    ensures var o := ProcessMessage(db, src, m, svc1);
      var id := CreatedId(db, src, m);
      && o.error.Some?
      && id in o.db.content.rows && o.db.content.rows[id].status == InitialContentStatus
  {
  }

  /** A failed vector upsert is not an error: the row is still enriched, only not vectorised. */
  lemma VectorFailureNonFatal(db: Db, src: PipelineSource, m: TelegramMessage, svc: Services)
    requires ContentCounted(db.content) && HasText(m)
    requires !CreateContentRejected(db, CreateRequest(src, m))
    requires svc.analyze(m.message.value).Ok?
    requires var a := svc.analyze(m.message.value).value;
      && svc.embed(a.summary).Ok?
      && svc.upsertVector(CreatedId(db, src, m), svc.embed(a.summary).value.embedding).Err?
    ensures var o := ProcessMessage(db, src, m, svc);
      var id := CreatedId(db, src, m);
      && o.error.None?
      && id in o.db.content.rows
      && o.db.content.rows[id].status == ReadyStatus
      && !o.db.content.rows[id].isVectorized
      && o.db.content.rows[id].qdrantId.None?
  {
  }

  /** Processing a message keeps the store invariant. */
  lemma ProcessMessagePreservesValid(db: Db, src: PipelineSource, m: TelegramMessage, svc: Services)
    requires Valid(db)
    ensures Valid(ProcessMessage(db, src, m, svc).db)
  {
    var req := CreateRequest(src, m);
    if HasText(m) && !CreateContentRejected(db, req) {
      CreateContentPreservesValid(db, req);
      var (db1, v) := CreateContent(db, req).value;
      var a := svc.analyze(m.message.value);
      if a.Ok? && svc.embed(a.value.summary).Ok? {
        UpdateContentPreservesValid(db1, EnrichRequest(v.id, a.value, VectorId(svc, v.id, svc.embed(a.value.summary).value)));
      }
    }
  }

  // ---------------------------------------------------------------------------
  // The batch

  /** The error entry of a failed message: `"Message {id}: {error}"`. */
  function ErrorLine(id: int, error: string): string {
    "Message " + IntToString(id) + ": " + error
  }

  /** The batch result: the final store, the number of messages created, and the error entries. */
  datatype BatchResult = BatchResult(db: Db, created: nat, errors: seq<string>)

  /**
    The messages processed one after another in input order; a failure adds
    one error entry and does not stop the batch.
  */
  function ProcessAll(db: Db, src: PipelineSource, msgs: seq<TelegramMessage>, svc: Services): (r: BatchResult)
    requires ContentCounted(db.content)
    ensures ContentCounted(r.db.content)
    ensures r.created + |r.errors| == |msgs|
    decreases |msgs|
  {
    if |msgs| == 0 then BatchResult(db, 0, [])
    else
      var o := ProcessMessage(db, src, msgs[0], svc);
      var rest := ProcessAll(o.db, src, msgs[1..], svc);
      if o.error.None? then BatchResult(rest.db, rest.created + 1, rest.errors)
      else BatchResult(rest.db, rest.created, [ErrorLine(msgs[0].id, o.error.value)] + rest.errors)
  }

  /** One step of the batch: the first message, then the rest from the store it left. */
  lemma ProcessAllStep(db: Db, src: PipelineSource, msgs: seq<TelegramMessage>, svc: Services)
    requires ContentCounted(db.content) && |msgs| > 0
    ensures var o := ProcessMessage(db, src, msgs[0], svc);
      var rest := ProcessAll(o.db, src, msgs[1..], svc);
      ProcessAll(db, src, msgs, svc) ==
        if o.error.None? then BatchResult(rest.db, rest.created + 1, rest.errors)
        else BatchResult(rest.db, rest.created, [ErrorLine(msgs[0].id, o.error.value)] + rest.errors)
  {
  }

  /** The first entry of a failing batch names the first failing message. */
  lemma FirstFailureReported(db: Db, src: PipelineSource, msgs: seq<TelegramMessage>, svc: Services)
    requires ContentCounted(db.content) && |msgs| > 0
    requires ProcessMessage(db, src, msgs[0], svc).error.Some?
    ensures var r := ProcessAll(db, src, msgs, svc);
      |r.errors| > 0 && r.errors[0] == ErrorLine(msgs[0].id, ProcessMessage(db, src, msgs[0], svc).error.value)
  {
  }

  /** The whole batch keeps the store invariant. */
  lemma {:induction false} ProcessAllPreservesValid(db: Db, src: PipelineSource, msgs: seq<TelegramMessage>, svc: Services)
    requires Valid(db)
    ensures Valid(ProcessAll(db, src, msgs, svc).db)
    decreases |msgs|
  {
    if |msgs| > 0 {
      ProcessMessagePreservesValid(db, src, msgs[0], svc);
      ProcessAllPreservesValid(ProcessMessage(db, src, msgs[0], svc).db, src, msgs[1..], svc);
    }
  }

  /** With an embedding service that always fails, no message is ever counted as created. */
  lemma {:induction false} FailingEmbedCreatesNothing(db: Db, src: PipelineSource, msgs: seq<TelegramMessage>, svc: Services)
    requires ContentCounted(db.content)
    requires forall t :: svc.embed(t).Err?
    ensures ProcessAll(db, src, msgs, svc).created == 0
    decreases |msgs|
  {
    if |msgs| > 0 {
      var o := ProcessMessage(db, src, msgs[0], svc);
      assert o.error.Some?;
      FailingEmbedCreatesNothing(o.db, src, msgs[1..], svc);
    }
  }

  /** `processContent` as a function: filter by the watermark, then process the new messages. */
  function ProcessContentSpec(db: Db, src: PipelineSource, raw: seq<TelegramMessage>,
                              lastExternalId: Option<string>, svc: Services): (r: (Db, Stats))
    requires ContentCounted(db.content)
    ensures r.1.created + r.1.skipped + |r.1.errors| == |raw|
    ensures r.1.skipped == |raw| - |NewMessages(raw, Watermark(lastExternalId))|
  {
    var newer := NewMessages(raw, Watermark(lastExternalId));
    var b := ProcessAll(db, src, newer, svc);
    (b.db, Stats(b.created, |raw| - |newer|, b.errors))
  }

  /**
    The loop state of `processContent` accounts for the whole batch: what is
    left to process, started from the current store, completes the counts.
  */
  predicate Accounts(total: BatchResult, db: Db, src: PipelineSource, rest: seq<TelegramMessage>, svc: Services,
                     created: nat, errors: seq<string>)
    requires ContentCounted(db.content)
  {
    var r := ProcessAll(db, src, rest, svc);
    total.db == r.db && total.created == created + r.created && total.errors == errors + r.errors
  }

  /** The counts of a batch split after its first message, whose error is `error`. */
  lemma GlueStep(total: BatchResult, r: BatchResult, next: BatchResult, id: int, error: Option<string>,
                 created: nat, errors: seq<string>)
    requires total.db == r.db && total.created == created + r.created && total.errors == errors + r.errors
    requires error.None? ==> r == BatchResult(next.db, next.created + 1, next.errors)
    requires error.Some? ==> r == BatchResult(next.db, next.created, [ErrorLine(id, error.value)] + next.errors)
    ensures total.db == next.db
    ensures error.None? ==> total.created == (created + 1) + next.created && total.errors == errors + next.errors
    ensures error.Some? ==>
      (total.created == created + next.created && total.errors == (errors + [ErrorLine(id, error.value)]) + next.errors)
  {
    if error.Some? {
      var line := ErrorLine(id, error.value);
      assert errors + ([line] + next.errors) == (errors + [line]) + next.errors;
    }
  }

  /** The created count after a message with outcome `o`. */
  function CountCreated(created: nat, o: Outcome): nat {
    if o.error.None? then created + 1 else created
  }

  /** The error entries after message `id` with outcome `o`. */
  function CollectError(errors: seq<string>, id: int, o: Outcome): seq<string> {
    if o.error.None? then errors else errors + [ErrorLine(id, o.error.value)]
  }

  /** Processing one more message keeps the loop state accounting for the batch. */
  lemma AccountsStep(total: BatchResult, db: Db, src: PipelineSource, rest: seq<TelegramMessage>, svc: Services,
                     created: nat, errors: seq<string>)
    requires ContentCounted(db.content) && |rest| > 0
    requires Accounts(total, db, src, rest, svc, created, errors)
    ensures var o := ProcessMessage(db, src, rest[0], svc);
      Accounts(total, o.db, src, rest[1..], svc, CountCreated(created, o), CollectError(errors, rest[0].id, o))
  {
    var o := ProcessMessage(db, src, rest[0], svc);
    ProcessAllStep(db, src, rest, svc);
    GlueStep(total, ProcessAll(db, src, rest, svc), ProcessAll(o.db, src, rest[1..], svc), rest[0].id, o.error, created, errors);
  }

  /**
    The `for` loop of `processContent`: the messages in order, counting the
    created ones and collecting one error entry per failed one.
  */
  method ProcessBatch(db: Db, src: PipelineSource, msgs: seq<TelegramMessage>, svc: Services)
    returns (db': Db, created: nat, errors: seq<string>)
    requires ContentCounted(db.content)
    ensures BatchResult(db', created, errors) == ProcessAll(db, src, msgs, svc)
  {
    var total := ProcessAll(db, src, msgs, svc);
    created, errors := 0, [];
    db' := db;
    var i := 0;
    assert msgs[0..] == msgs;
    while i < |msgs|
      invariant 0 <= i <= |msgs|
      invariant ContentCounted(db'.content)
      invariant Accounts(total, db', src, msgs[i..], svc, created, errors)
    {
      var m := msgs[i];
      var o := ProcessMessage(db', src, m, svc);
      assert msgs[i..][0] == m && msgs[i..][1..] == msgs[i + 1..];
      AccountsStep(total, db', src, msgs[i..], svc, created, errors);
      db', created, errors := o.db, CountCreated(created, o), CollectError(errors, m.id, o);
      i := i + 1;
    }
    assert msgs[i..] == [];
    assert errors + [] == errors;
  }

  /** The function form of `processContent` is the batch run on the new messages. */
  lemma ProcessContentSpecOfBatch(db: Db, src: PipelineSource, raw: seq<TelegramMessage>,
                                  lastExternalId: Option<string>, svc: Services,
                                  newer: seq<TelegramMessage>, b: BatchResult)
    requires ContentCounted(db.content)
    requires newer == NewMessages(raw, Watermark(lastExternalId))
    requires b == ProcessAll(db, src, newer, svc)
    ensures |newer| <= |raw|
    ensures ProcessContentSpec(db, src, raw, lastExternalId, svc) == (b.db, Stats(b.created, |raw| - |newer|, b.errors))
  {
    var w := Watermark(lastExternalId);
    var r := ProcessContentSpec(db, src, raw, lastExternalId, svc);
    assert r.0 == b.db;
    assert r.1 == Stats(b.created, |raw| - |newer|, b.errors);
  }

  /** `processContent`: filter by the watermark, count the old messages as skipped, process the rest. */
  method ProcessContent(db: Db, src: PipelineSource, raw: seq<TelegramMessage>,
                        lastExternalId: Option<string>, svc: Services) returns (db': Db, stats: Stats)
    requires ContentCounted(db.content)
    ensures (db', stats) == ProcessContentSpec(db, src, raw, lastExternalId, svc)
    ensures stats.created + stats.skipped + |stats.errors| == |raw|
  {
    var newer := NewMessages(raw, Watermark(lastExternalId));
    var created, errors;
    db', created, errors := ProcessBatch(db, src, newer, svc);
    stats := Stats(created, |raw| - |newer|, errors);
    ProcessContentSpecOfBatch(db, src, raw, lastExternalId, svc, newer, BatchResult(db', created, errors));
  }

  /** A NaN watermark skips every message: nothing is written and nothing is counted but skips. */
  lemma NaNWatermarkSkipsAll(db: Db, src: PipelineSource, raw: seq<TelegramMessage>,
                             lastExternalId: Option<string>, svc: Services)
    requires ContentCounted(db.content)
    requires Watermark(lastExternalId) == NaN
    ensures ProcessContentSpec(db, src, raw, lastExternalId, svc) == (db, Stats(0, |raw|, []))
  {
  }

  /** Without stored content for the source every message with a positive id is new. */
  lemma FirstSyncTakesPositiveIds(raw: seq<TelegramMessage>)
    requires forall i :: 0 <= i < |raw| ==> raw[i].id > 0
    ensures NewMessages(raw, Watermark(None)) == raw
  {
  }
}
