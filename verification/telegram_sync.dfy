/**
  The Telegram synchronisation strategy of the core service
  (`TelegramSyncService`): it looks the source up, checks its type, resolves
  the peer and the fetch limit, fetches one page of messages through the
  parser queue, hands them to the pipeline and assembles the `SyncResult`.
  The parser queue, the last-content lookup, the AI services, the
  `updateSource` call and the clock are parameters.
*/
module TelegramSync {
  import opened Wrappers
  import opened Contracts
  import opened Database
  import opened Pipeline

  const TelegramType := "telegram"
  const DefaultFetchLimit := 50

  /** The `getMessage` job payload: whom to read, how many, and from which message id. */
  datatype FetchRequest = FetchRequest(peer: string, limit: nat, offsetId: int)

  /**
    The collaborators of one sync run:
    - `fetch`: the `getMessage` job round trip (an error carries the thrown message);
    - `lastExternalId`: `getLastContentForSource`, the external id of the newest
      stored content of a source, or `None`;
    - `svc`: the services of the pipeline;
    - `updateSource`: the `last_sync_at` write, `Some(error)` when it throws.
  */
  datatype SyncEnv = SyncEnv(
    fetch: FetchRequest -> Result<seq<TelegramMessage>, string>,
    lastExternalId: (Db, string) -> Option<string>,
    svc: Services,
    updateSource: (string, int) -> Option<string>)

  /**
    The clock readings of one run: the start, the `last_sync_at` value, the
    `finishedAt` value and the reading the duration is computed from.
  */
  datatype Clock = Clock(started: int, syncedAt: int, finished: int, measured: int)

  /** A run: the store it leaves behind (writes are not rolled back) and its result or thrown message. */
  datatype SyncRun = SyncRun(db: Db, result: Result<SyncResult, string>)

  /** `resolvePeer`: the metadata username when it is truthy, otherwise the external id. */
  function ResolvePeer(v: SourceView): (peer: string)
    ensures peer == v.externalId || (v.metadata.Some? && Truthy(v.metadata.value.username))
    ensures v.metadata.Some? && Truthy(v.metadata.value.username) ==> peer == v.metadata.value.username.value
  {
    if v.metadata.Some? && Truthy(v.metadata.value.username) then v.metadata.value.username.value
    else v.externalId
  }

  /** `options.limit || 50` */
  function FetchLimit(options: SyncOptions): (n: nat)
    ensures n > 0
    ensures n == DefaultFetchLimit <==> (options.limit.None? || options.limit.value in {0, DefaultFetchLimit})
  {
    OrDefault(options.limit, DefaultFetchLimit)
  }

  /** The one fetch of a run: the resolved peer, the limit, offset 0. */
  function FetchFor(v: SourceView, options: SyncOptions): (req: FetchRequest)
    ensures req.offsetId == 0 && req.limit > 0
  {
    FetchRequest(ResolvePeer(v), FetchLimit(options), 0)
  }

  /** `source.name || source.external_id` */
  function SourceName(v: SourceView): string {
    if v.name == "" then v.externalId else v.name
  }

  function SourceNotFound(id: string): string {
    "Source not found: " + id
  }

  function NotTelegram(sourceType: string): string {
    "TelegramSyncService can only sync telegram sources, got: " + sourceType
  }

  /** The sync result of a run that got to the end. */
  function Report(v: SourceView, fetched: nat, stats: Stats, clock: Clock): (r: SyncResult)
    ensures r.sourceId == v.id && r.messagesProcessed == fetched
    ensures r.contentCreated == stats.created && r.contentSkipped == stats.skipped && r.errors == stats.errors
    ensures r.durationMs == clock.measured - clock.started
  {
    SyncResult(v.id, SourceName(v), fetched, stats.created, stats.skipped, stats.errors,
      clock.started, clock.finished, clock.measured - clock.started)
  }

  /** `syncSource` */
  function SyncSource(db: Db, sourceId: string, options: SyncOptions, env: SyncEnv, clock: Clock): (run: SyncRun)
    requires ContentCounted(db.content)
    ensures ContentCounted(run.db.content)
    ensures run.result.Ok? ==>
      var r := run.result.value;
      r.contentCreated + r.contentSkipped + |r.errors| == r.messagesProcessed
    ensures run.result.Ok? ==> run.result.value.sourceId == sourceId
  {
    match LookUpSource(db, sourceId)
    case None => SyncRun(db, Err(SourceNotFound(sourceId)))
    case Some(v) =>
      if v.sourceType != TelegramType then SyncRun(db, Err(NotTelegram(v.sourceType)))
      else
        match env.fetch(FetchFor(v, options))
        case Err(e) => SyncRun(db, Err(e))
        case Ok(msgs) =>
          var (db', stats) := ProcessContentSpec(db, PipelineSource(v.id, v.externalId), msgs,
                                                 env.lastExternalId(db, v.id), env.svc);
          match env.updateSource(v.id, clock.syncedAt)
          case Some(e) => SyncRun(db', Err(e))
          case None => SyncRun(db', Ok(Report(v, |msgs|, stats, clock)))
  }

  // ---------------------------------------------------------------------------
  // Properties

  /** An unknown source fails with `Source not found` before anything is fetched or written. */
  lemma MissingSourceFetchesNothing(db: Db, sourceId: string, options: SyncOptions, env: SyncEnv, env': SyncEnv, clock: Clock)
    requires ContentCounted(db.content)
    requires sourceId !in db.sources.rows
    ensures SyncSource(db, sourceId, options, env, clock) == SyncRun(db, Err(SourceNotFound(sourceId)))
    ensures SyncSource(db, sourceId, options, env, clock) == SyncSource(db, sourceId, options, env', clock)
  {
  }

  /** A source of another type fails before anything is fetched or written. */
  lemma WrongTypeFetchesNothing(db: Db, sourceId: string, options: SyncOptions, env: SyncEnv, env': SyncEnv, clock: Clock)
    requires ContentCounted(db.content)
    requires sourceId in db.sources.rows && db.sources.rows[sourceId].sourceType != TelegramType
    ensures SyncSource(db, sourceId, options, env, clock)
         == SyncRun(db, Err(NotTelegram(db.sources.rows[sourceId].sourceType)))
    ensures SyncSource(db, sourceId, options, env, clock) == SyncSource(db, sourceId, options, env', clock)
  {
  }

  /**
    The run asks the parser for exactly one page: two parsers that agree on
    that request give the same run.
  */
  lemma OneFetch(db: Db, sourceId: string, options: SyncOptions, env: SyncEnv, env': SyncEnv, clock: Clock)
    requires ContentCounted(db.content)
    requires sourceId in db.sources.rows
    requires env' == env.(fetch := env'.fetch)
    requires var req := FetchFor(MapSource(sourceId, db.sources.rows[sourceId]), options);
      env.fetch(req) == env'.fetch(req)
    ensures SyncSource(db, sourceId, options, env, clock) == SyncSource(db, sourceId, options, env', clock)
  {
    assert LookUpSource(db, sourceId) == Some(MapSource(sourceId, db.sources.rows[sourceId]));
  }

  /** A failed fetch is thrown on: nothing is written. */
  lemma FetchFailurePropagates(db: Db, sourceId: string, options: SyncOptions, env: SyncEnv, clock: Clock)
    requires ContentCounted(db.content)
    requires sourceId in db.sources.rows && db.sources.rows[sourceId].sourceType == TelegramType
    requires env.fetch(FetchFor(MapSource(sourceId, db.sources.rows[sourceId]), options)).Err?
    ensures SyncSource(db, sourceId, options, env, clock)
         == SyncRun(db, Err(env.fetch(FetchFor(MapSource(sourceId, db.sources.rows[sourceId]), options)).error))
  {
    assert LookUpSource(db, sourceId) == Some(MapSource(sourceId, db.sources.rows[sourceId]));
  }

  /**
    A completed run reports the pipeline's statistics unchanged, the number
    of fetched messages, and the source's name or else its external id.
  */
  lemma ReportCopiesStats(db: Db, sourceId: string, options: SyncOptions, env: SyncEnv, clock: Clock)
    requires ContentCounted(db.content)
    requires SyncSource(db, sourceId, options, env, clock).result.Ok?
    ensures sourceId in db.sources.rows
    ensures var row := db.sources.rows[sourceId];
      var v := MapSource(sourceId, row);
      var msgs := env.fetch(FetchFor(v, options)).value;
      var (db', stats) := ProcessContentSpec(db, PipelineSource(sourceId, row.externalId), msgs,
                                             env.lastExternalId(db, sourceId), env.svc);
      var r := SyncSource(db, sourceId, options, env, clock).result.value;
      && r.messagesProcessed == |msgs|
      && r.contentCreated == stats.created && r.contentSkipped == stats.skipped && r.errors == stats.errors
      && r.sourceName == (if Truthy(row.name) then row.name.value else row.externalId)
      && SyncSource(db, sourceId, options, env, clock).db == db'
  {
    assert LookUpSource(db, sourceId) == Some(MapSource(sourceId, db.sources.rows[sourceId]));
  }

  /**
    The `last_sync_at` write comes after processing and its failure is not
    caught: the run fails, and the content the pipeline stored stays.
  */
  lemma UpdateFailureKeepsContent(db: Db, sourceId: string, options: SyncOptions, env: SyncEnv, clock: Clock)
    requires ContentCounted(db.content)
    requires sourceId in db.sources.rows && db.sources.rows[sourceId].sourceType == TelegramType
    requires var req := FetchFor(MapSource(sourceId, db.sources.rows[sourceId]), options); env.fetch(req).Ok?
    requires env.updateSource(sourceId, clock.syncedAt).Some?
    ensures var row := db.sources.rows[sourceId];
      var msgs := env.fetch(FetchFor(MapSource(sourceId, row), options)).value;
      var spec := ProcessContentSpec(db, PipelineSource(sourceId, row.externalId), msgs,
                                     env.lastExternalId(db, sourceId), env.svc);
      SyncSource(db, sourceId, options, env, clock) == SyncRun(spec.0, Err(env.updateSource(sourceId, clock.syncedAt).value))
  {
    assert LookUpSource(db, sourceId) == Some(MapSource(sourceId, db.sources.rows[sourceId]));
  }

  /** A run keeps the store invariant, whatever its outcome. */
  lemma SyncPreservesValid(db: Db, sourceId: string, options: SyncOptions, env: SyncEnv, clock: Clock)
    requires Valid(db)
    ensures Valid(SyncSource(db, sourceId, options, env, clock).db)
  {
    if sourceId in db.sources.rows {
      var v := MapSource(sourceId, db.sources.rows[sourceId]);
      assert LookUpSource(db, sourceId) == Some(v);
      var msgs := env.fetch(FetchFor(v, options));
      if v.sourceType == TelegramType && msgs.Ok? {
        var src := PipelineSource(v.id, v.externalId);
        var newer := NewMessages(msgs.value, Watermark(env.lastExternalId(db, v.id)));
        ProcessAllPreservesValid(db, src, newer, env.svc);
        assert ProcessContentSpec(db, src, msgs.value, env.lastExternalId(db, v.id), env.svc).0
          == ProcessAll(db, src, newer, env.svc).db;
      }
    }
  }

  // ---------------------------------------------------------------------------
  // The peer and the source's metadata

  /** With the stored metadata passed on, a source's truthy username is the peer. */
  lemma StoredUsernameIsPeer(db: Db, sourceId: string)
    requires sourceId in db.sources.rows
    requires var row := db.sources.rows[sourceId]; row.metadata.Some? && Truthy(row.metadata.value.username)
    ensures LookUpSource(db, sourceId).Some?
    ensures ResolvePeer(LookUpSource(db, sourceId).value) == db.sources.rows[sourceId].metadata.value.username.value
  {
  }

  /**
    Through the `getSource` handler as written the username is never seen:
    the peer is always the external id.
  */
  lemma PeerIgnoresUsernameAsWritten(db: Db, sourceId: string)
    requires GetSourceAsWritten(db, sourceId).Ok?
    ensures ResolvePeer(GetSourceAsWritten(db, sourceId).value) == db.sources.rows[sourceId].externalId
  {
  }

  /** A channel stored with username "news" and numeric id "-1001": as written the peer is "-1001". */
  lemma UsernameDroppedExample()
    ensures var row := SourceRow(TelegramType, "-1001", None, true, Some(SourceMetadata(Some("news"))), None, None);
      var db := EmptyDb().(sources := SourceStore(map["s" := row], map[SourceKeyOf(row) := "s"], 0));
      && ResolvePeer(GetSourceAsWritten(db, "s").value) == "-1001"
      && ResolvePeer(GetSource(db, "s").value) == "news"
  {
  }
}
