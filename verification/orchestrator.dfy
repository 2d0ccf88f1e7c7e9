/**
  `SourceSyncOrchestrator`: looks the source up, picks the sync strategy for
  its type and delegates the run to it, passing the options through.
*/
module SyncOrchestrator {
  import opened Wrappers
  import opened Contracts
  import opened Database
  import opened TelegramSync

  /** The registered sync strategies; Telegram is the only one. */
  datatype Strategy = TelegramStrategy

  /** `getSyncService`: the strategy for a source type, or the thrown message. */
  function GetSyncService(sourceType: string): (r: Result<Strategy, string>)
    ensures r.Ok? <==> sourceType == TelegramType
    ensures r.Err? ==> r.error == "Unsupported source type: " + sourceType
  {
    if sourceType == TelegramType then Ok(TelegramStrategy)
    else Err("Unsupported source type: " + sourceType)
  }

  /** A strategy's `syncSource`. */
  function Run(s: Strategy, db: Db, sourceId: string, options: SyncOptions, env: SyncEnv, clock: Clock): SyncRun
    requires ContentCounted(db.content)
  {
    match s
    case TelegramStrategy => SyncSource(db, sourceId, options, env, clock)
  }

  /** `syncSource` of the orchestrator. */
  function Orchestrate(db: Db, sourceId: string, options: SyncOptions, env: SyncEnv, clock: Clock): (run: SyncRun)
    requires ContentCounted(db.content)
    ensures sourceId !in db.sources.rows ==> run == SyncRun(db, Err(SourceNotFound(sourceId)))
    ensures run.result.Ok? ==> sourceId in db.sources.rows && db.sources.rows[sourceId].sourceType == TelegramType
  {
    match LookUpSource(db, sourceId)
    case None => SyncRun(db, Err(SourceNotFound(sourceId)))
    case Some(v) =>
      match GetSyncService(v.sourceType)
      case Err(e) => SyncRun(db, Err(e))
      case Ok(s) => Run(s, db, sourceId, options, env, clock)
  }

  /** For a Telegram source the orchestrator's run is exactly the Telegram strategy's run with the same options. */
  lemma DelegatesTelegram(db: Db, sourceId: string, options: SyncOptions, env: SyncEnv, clock: Clock)
    requires ContentCounted(db.content)
    requires sourceId in db.sources.rows && db.sources.rows[sourceId].sourceType == TelegramType
    ensures Orchestrate(db, sourceId, options, env, clock) == SyncSource(db, sourceId, options, env, clock)
  {
    assert LookUpSource(db, sourceId) == Some(MapSource(sourceId, db.sources.rows[sourceId]));
  }

  /** A source of an unsupported type is refused before any strategy runs: nothing is fetched or written. */
  lemma UnsupportedTypeRefused(db: Db, sourceId: string, options: SyncOptions, env: SyncEnv, env': SyncEnv, clock: Clock)
    requires ContentCounted(db.content)
    requires sourceId in db.sources.rows && db.sources.rows[sourceId].sourceType != TelegramType
    ensures Orchestrate(db, sourceId, options, env, clock)
         == SyncRun(db, Err("Unsupported source type: " + db.sources.rows[sourceId].sourceType))
    ensures Orchestrate(db, sourceId, options, env, clock) == Orchestrate(db, sourceId, options, env', clock)
  {
    assert LookUpSource(db, sourceId) == Some(MapSource(sourceId, db.sources.rows[sourceId]));
  }

  /** The orchestrator and the strategy agree on every source: the strategy's own checks never disagree with the dispatch. */
  lemma OrchestratedRunIsStrategyRun(db: Db, sourceId: string, options: SyncOptions, env: SyncEnv, clock: Clock)
    requires ContentCounted(db.content)
    ensures var run := Orchestrate(db, sourceId, options, env, clock);
      run.result.Ok? ==> run == SyncSource(db, sourceId, options, env, clock)
    ensures Orchestrate(db, sourceId, options, env, clock).db == SyncSource(db, sourceId, options, env, clock).db
  {
    if sourceId in db.sources.rows {
      assert LookUpSource(db, sourceId) == Some(MapSource(sourceId, db.sources.rows[sourceId]));
    }
  }
}
