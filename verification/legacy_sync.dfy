/**
  The older synchronisation service (`SourceSyncService`). It differs from
  the pipeline path: the limit defaults to 10, a failed fetch is recorded
  rather than thrown, every message is processed (there is no watermark), a
  message without text counts as skipped and reports an error, the raw text
  (not the summary) is embedded, and the content ends `enriched` or
  `enrichment_failed`.
*/
module LegacySync {
  import opened Wrappers
  import opened Contracts
  import opened Database
  import opened Pipeline
  import opened TelegramSync

  const LegacyFetchLimit := 10
  const EnrichedStatus := "enriched"
  const EnrichmentFailedStatus := "enrichment_failed"
  const NoPeer := "Source has no valid Telegram username or external_id"

  /** The HTTP exceptions the service throws. */
  datatype HttpError = NotFoundError(message: string) | BadRequestError(message: string)

  /** The collaborators: the `getMessage` job round trip and the AI jobs. */
  datatype LegacyEnv = LegacyEnv(fetch: FetchRequest -> Result<seq<TelegramMessage>, string>, svc: Services)

  /** A run: the store it leaves behind and its result or exception. */
  datatype LegacyRun = LegacyRun(db: Db, result: Result<SyncResult, HttpError>)

  /**
    `findContentByExternalId`: a placeholder that always answers `null`. The
    already-exists branch of `processMessage` behind it is therefore never
    taken and the model does not spell it out.
  */
  function FindContentByExternalId(sourceId: string, externalId: string): (r: Option<ContentView>)
    ensures r.None?
  {
    None
  }

  /** The peer: the metadata username, else the external id, else a bad request. */
  function LegacyPeer(v: SourceView): (r: Result<string, HttpError>)
    ensures r.Err? <==> (!(v.metadata.Some? && Truthy(v.metadata.value.username)) && v.externalId == "")
    ensures r.Err? ==> r.error == BadRequestError(NoPeer)
    ensures r.Ok? ==> r.value == ResolvePeer(v)
  {
    if v.metadata.Some? && Truthy(v.metadata.value.username) then Ok(v.metadata.value.username.value)
    else if v.externalId != "" then Ok(v.externalId)
    else Err(BadRequestError(NoPeer))
  }

  /** `options?.limit || 10` */
  function LegacyLimit(options: SyncOptions): (n: nat)
    ensures n > 0
    ensures options.limit.Some? && options.limit.value != 0 ==> n == options.limit.value
  {
    OrDefault(options.limit, LegacyFetchLimit)
  }

  // ---------------------------------------------------------------------------
  // One message

  /** What `processMessage` returns, or the message it throws; `db` is the store either way. */
  datatype Processed =
    | Processed(db: Db, isNew: bool, error: Option<string>)
    | Threw(db: Db, message: string)

  /** The update after a successful enrichment. */
  function EnrichedUpdate(id: string, a: AiAnalysis, e: EmbeddingResult): (req: UpdateContentRequest)
    ensures req.id == id && req.status == Some(EnrichedStatus) && req.isVectorized == Some(true)
    ensures req.aiAnalysis == Some(AnalysisDoc(a)) && req.embeddingModel == Some(e.model)
    ensures req.qdrantId.None? && req.text.None?
  {
    UpdateContentRequest(id, None, Some(true), None, Some(e.model), Some(AnalysisDoc(a)), Some(EnrichedStatus))
  }

  /** The update after a failed enrichment: only the status. */
  function FailedUpdate(id: string): (req: UpdateContentRequest)
    ensures req == UpdateContentRequest(id, None, None, None, None, None, Some(EnrichmentFailedStatus))
  {
    UpdateContentRequest(id, None, None, None, None, None, Some(EnrichmentFailedStatus))
  }

  /** The guarded part of `processMessage`: analyse, embed the raw text, record. */
  function Enrich(db: Db, id: string, text: string, svc: Services): (r: Result<Db, string>)
  {
    match svc.analyze(text)
    case Err(e) => Err(e)
    case Ok(a) =>
      match svc.embed(text)
      case Err(e) => Err(e)
      case Ok(emb) =>
        match UpdateContent(db, EnrichedUpdate(id, a, emb))
        case Err(e) => Err(RpcErrorText(e))
        case Ok((db', _)) => Ok(db')
  }

  /**
    `processMessage` of the older service. A message without text is not new
    and carries an error; a failed creation throws; once created the message
    is new, and an enrichment failure is recorded as its error after setting
    status `enrichment_failed` (a failure of that write throws).
  */
  function ProcessLegacyMessage(db: Db, src: PipelineSource, m: TelegramMessage, svc: Services): (o: Processed)
    requires ContentCounted(db.content)
    ensures ContentCounted(o.db.content)
    ensures !HasText(m) ==> o == Processed(db, false, Some(NoTextContent))
    ensures o.Processed? && !o.isNew ==> o == Processed(db, false, Some(NoTextContent))
    ensures o.Threw? <==> HasText(m) && CreateContentRejected(db, CreateRequest(src, m))
  {
    if !HasText(m) then Processed(db, false, Some(NoTextContent))
    else match CreateContent(db, CreateRequest(src, m))
      case Err(e) => Threw(db, RpcErrorText(e))
      case Ok((db1, v)) =>
        InsertContentCounted(db.content, NewContentRow(CreateRequest(src, m)));
        match Enrich(db1, v.id, m.message.value, svc)
        case Ok(db2) =>
          ReplaceContentCounted(db1.content, v.id, ApplyContentUpdate(db1.content.rows[v.id], EnrichedUpdate(v.id, svc.analyze(m.message.value).value, svc.embed(m.message.value).value)));
          Processed(db2, true, None)
        case Err(e) =>
          ReplaceContentCounted(db1.content, v.id, ApplyContentUpdate(db1.content.rows[v.id], FailedUpdate(v.id)));
          var u := UpdateContent(db1, FailedUpdate(v.id));
          Processed(u.value.0, true, Some(e))
  }

  // ---------------------------------------------------------------------------
  // The batch

  /** The counters of the loop; `thrown` counts the messages whose processing threw. */
  datatype Tally = Tally(db: Db, created: nat, skipped: nat, errors: seq<string>, thrown: nat)

  /**
    The loop over the fetched messages: a new message counts as created,
    another one as skipped, and one that throws counts as neither and adds
    `"Message {id}: {error}"`; a returned error is added as it is.
  */
  function ProcessAllLegacy(db: Db, src: PipelineSource, msgs: seq<TelegramMessage>, svc: Services): (t: Tally)
    requires ContentCounted(db.content)
    ensures ContentCounted(t.db.content)
    ensures t.created + t.skipped + t.thrown == |msgs|
    ensures t.thrown <= |t.errors| <= |msgs|
    decreases |msgs|
  {
    if |msgs| == 0 then Tally(db, 0, 0, [], 0)
    else
      var o := ProcessLegacyMessage(db, src, msgs[0], svc);
      var rest := ProcessAllLegacy(o.db, src, msgs[1..], svc);
      match o
      case Threw(_, e) =>
        Tally(rest.db, rest.created, rest.skipped, [ErrorLine(msgs[0].id, e)] + rest.errors, rest.thrown + 1)
      case Processed(_, isNew, err) =>
        var errors := (if err.Some? then [err.value] else []) + rest.errors;
        if isNew then Tally(rest.db, rest.created + 1, rest.skipped, errors, rest.thrown)
        else Tally(rest.db, rest.created, rest.skipped + 1, errors, rest.thrown)
  }

  function SourceNotFoundLegacy(id: string): string {
    "Source " + id + " not found"
  }

  function NotTelegramLegacy(sourceType: string): string {
    "Sync is only supported for Telegram sources. Got: " + sourceType
  }

  function FetchFailed(error: string): string {
    "Telegram fetch failed: " + error
  }

  /** `syncSource` of the older service; `started` and `finished` are the two clock readings. */
  function SyncLegacy(db: Db, sourceId: string, options: SyncOptions, env: LegacyEnv, started: int, finished: int)
    : (run: LegacyRun)
    requires ContentCounted(db.content)
    ensures ContentCounted(run.db.content)
    ensures run.result.Ok? ==>
      var r := run.result.value;
      r.contentCreated + r.contentSkipped <= r.messagesProcessed <= r.contentCreated + r.contentSkipped + |r.errors|
  {
    match LookUpSource(db, sourceId)
    case None => LegacyRun(db, Err(NotFoundError(SourceNotFoundLegacy(sourceId))))
    case Some(v) =>
      if v.sourceType != TelegramType then LegacyRun(db, Err(BadRequestError(NotTelegramLegacy(v.sourceType))))
      else match LegacyPeer(v)
        case Err(e) => LegacyRun(db, Err(e))
        case Ok(peer) =>
          var fetched := env.fetch(FetchRequest(peer, LegacyLimit(options), 0));
          var msgs := if fetched.Ok? then fetched.value else [];
          var fetchErrors := if fetched.Err? then [FetchFailed(fetched.error)] else [];
          var t := ProcessAllLegacy(db, PipelineSource(v.id, v.externalId), msgs, env.svc);
          LegacyRun(t.db, Ok(SyncResult(v.id, SourceName(v), |msgs|, t.created, t.skipped, fetchErrors + t.errors,
                                        started, finished, finished - started)))
  }

  // ---------------------------------------------------------------------------
  // Properties

  /** A missing source is a not-found, a non-Telegram source a bad request; both before any fetch. */
  lemma LegacyRejectsFirst(db: Db, sourceId: string, options: SyncOptions, env: LegacyEnv, env': LegacyEnv,
                           started: int, finished: int)
    requires ContentCounted(db.content)
    requires sourceId !in db.sources.rows || db.sources.rows[sourceId].sourceType != TelegramType
    ensures var run := SyncLegacy(db, sourceId, options, env, started, finished);
      && run.db == db
      && run == SyncLegacy(db, sourceId, options, env', started, finished)
      && (sourceId !in db.sources.rows ==> run.result == Err(NotFoundError(SourceNotFoundLegacy(sourceId))))
      && (sourceId in db.sources.rows ==>
            run.result == Err(BadRequestError(NotTelegramLegacy(db.sources.rows[sourceId].sourceType))))
  {
    if sourceId in db.sources.rows {
      assert LookUpSource(db, sourceId) == Some(MapSource(sourceId, db.sources.rows[sourceId]));
    }
  }

  /** The older peer choice agrees with `resolvePeer` except that it refuses an empty external id. */
  lemma LegacyPeerAgrees(v: SourceView)
    requires v.externalId != "" || (v.metadata.Some? && Truthy(v.metadata.value.username))
    ensures LegacyPeer(v) == Ok(ResolvePeer(v))
  {
  }

  /**
    A failed fetch is not thrown: the run completes with no message, nothing
    written, and one `Telegram fetch failed` entry.
  */
  lemma FetchFailureRecorded(db: Db, sourceId: string, options: SyncOptions, env: LegacyEnv, started: int, finished: int)
    requires ContentCounted(db.content)
    requires sourceId in db.sources.rows
    requires var v := MapSource(sourceId, db.sources.rows[sourceId]);
      v.sourceType == TelegramType && LegacyPeer(v).Ok?
      && env.fetch(FetchRequest(LegacyPeer(v).value, LegacyLimit(options), 0)).Err?
    ensures var v := MapSource(sourceId, db.sources.rows[sourceId]);
      var e := env.fetch(FetchRequest(LegacyPeer(v).value, LegacyLimit(options), 0)).error;
      SyncLegacy(db, sourceId, options, env, started, finished)
        == LegacyRun(db, Ok(SyncResult(sourceId, SourceName(v), 0, 0, 0, [FetchFailed(e)], started, finished, finished - started)))
  {
    var v := MapSource(sourceId, db.sources.rows[sourceId]);
    var e := env.fetch(FetchRequest(LegacyPeer(v).value, LegacyLimit(options), 0)).error;
    assert LookUpSource(db, sourceId) == Some(v);
    assert ProcessAllLegacy(db, PipelineSource(v.id, v.externalId), [], env.svc) == Tally(db, 0, 0, [], 0);
    assert [FetchFailed(e)] + [] == [FetchFailed(e)];
  }

  /** A message without text is counted as skipped and also reports `No text content`. */
  lemma NoTextSkippedWithError(db: Db, src: PipelineSource, m: TelegramMessage, svc: Services)
    requires ContentCounted(db.content)
    requires !HasText(m)
    ensures ProcessAllLegacy(db, src, [m], svc) == Tally(db, 0, 1, [NoTextContent], 0)
  {
    assert [m][1..] == [];
  }

  /**
    No message is ever reported as already stored: a message with text either
    throws (its creation was refused, a duplicate included) or is new.
  */
  lemma NeverAlreadyExists(db: Db, src: PipelineSource, m: TelegramMessage, svc: Services)
    requires ContentCounted(db.content)
    requires HasText(m)
    ensures var o := ProcessLegacyMessage(db, src, m, svc);
      o.Threw? || (o.Processed? && o.isNew)
    ensures ContentKey(src.id, DerivedExternalId(src, m)) in db.content.keys ==>
      ProcessLegacyMessage(db, src, m, svc) == Threw(db, RpcErrorText(RpcError(Internal, "Failed to create content")))
  {
  }

  /**
    After a successful enrichment the created content holds the analysis,
    the model of the embedding of the raw text, `isVectorized` and status
    `enriched`.
  */
  lemma EnrichedOutcome(db: Db, src: PipelineSource, m: TelegramMessage, svc: Services)
    requires ContentCounted(db.content)
    requires HasText(m) && !CreateContentRejected(db, CreateRequest(src, m))
    requires svc.analyze(m.message.value).Ok? && svc.embed(m.message.value).Ok?
    ensures var o := ProcessLegacyMessage(db, src, m, svc);
      var id := CreatedId(db, src, m);
      && o == Processed(o.db, true, None)
      && id in o.db.content.rows
      && o.db.content.rows[id].status == EnrichedStatus
      && o.db.content.rows[id].isVectorized
      && o.db.content.rows[id].aiAnalysis == Some(AnalysisDoc(svc.analyze(m.message.value).value))
      && o.db.content.rows[id].embeddingModel == Some(svc.embed(m.message.value).value.model)
  {
  }

  /**
    When analysis or embedding fails the content still counts as created: it
    keeps status `enrichment_failed`, is not vectorised, and the failure is
    its error.
  */
  lemma EnrichmentFailedOutcome(db: Db, src: PipelineSource, m: TelegramMessage, svc: Services)
    requires ContentCounted(db.content)
    requires HasText(m) && !CreateContentRejected(db, CreateRequest(src, m))
    requires svc.analyze(m.message.value).Err? || svc.embed(m.message.value).Err?
    ensures var o := ProcessLegacyMessage(db, src, m, svc);
      var id := CreatedId(db, src, m);
      var e := if svc.analyze(m.message.value).Err? then svc.analyze(m.message.value).error
               else svc.embed(m.message.value).error;
      && o == Processed(o.db, true, Some(e))
      && id in o.db.content.rows
      && o.db.content.rows[id].status == EnrichmentFailedStatus
      && !o.db.content.rows[id].isVectorized
      && o.db.content.rows[id].aiAnalysis.None?
  {
  }

  /** One message keeps the store invariant. */
  lemma ProcessLegacyMessagePreservesValid(db: Db, src: PipelineSource, m: TelegramMessage, svc: Services)
    requires Valid(db)
    ensures Valid(ProcessLegacyMessage(db, src, m, svc).db)
  {
    var req := CreateRequest(src, m);
    if HasText(m) && !CreateContentRejected(db, req) {
      CreateContentPreservesValid(db, req);
      var (db1, v) := CreateContent(db, req).value;
      var text := m.message.value;
      if svc.analyze(text).Ok? && svc.embed(text).Ok? {
        UpdateContentPreservesValid(db1, EnrichedUpdate(v.id, svc.analyze(text).value, svc.embed(text).value));
      }
      UpdateContentPreservesValid(db1, FailedUpdate(v.id));
    }
  }

  /** The loop keeps the store invariant. */
  lemma {:induction false} ProcessAllLegacyPreservesValid(db: Db, src: PipelineSource, msgs: seq<TelegramMessage>, svc: Services)
    requires Valid(db)
    ensures Valid(ProcessAllLegacy(db, src, msgs, svc).db)
    decreases |msgs|
  {
    if |msgs| > 0 {
      ProcessLegacyMessagePreservesValid(db, src, msgs[0], svc);
      ProcessAllLegacyPreservesValid(ProcessLegacyMessage(db, src, msgs[0], svc).db, src, msgs[1..], svc);
    }
  }

  /** With no duplicate lookup, a batch of messages that all have text and all create counts nothing as skipped. */
  lemma {:induction false} NothingSkippedWithText(db: Db, src: PipelineSource, msgs: seq<TelegramMessage>, svc: Services)
    requires ContentCounted(db.content)
    requires forall i :: 0 <= i < |msgs| ==> HasText(msgs[i])
    ensures ProcessAllLegacy(db, src, msgs, svc).skipped == 0
    decreases |msgs|
  {
    if |msgs| > 0 {
      var o := ProcessLegacyMessage(db, src, msgs[0], svc);
      assert HasText(msgs[0]);
      NothingSkippedWithText(o.db, src, msgs[1..], svc);
    }
  }
}
