/**
  The database service's storage queue worker
  (apps/database/src/processors/storage.processor.ts): keyed upserts of sources
  and content, the vector write of a content row and the write of its AI
  analysis. The two UUIDs a save may draw and the one a vector update may draw
  are parameters; the vector store's write is an oracle that says whether the
  write to a collection succeeded.
*/
module Storage {
  import opened Wrappers
  import opened Contracts
  import opened Database

  const SaveContentJob := "save-content"
  const UpdateVectorJob := "update-vector"
  const UpdateAiAnalysisJob := "update-ai-analysis"

  /** The payload of a job, as the producer put it on the queue. */
  datatype StoragePayload =
    | SaveContent(save: SaveContentPayload)
    | UpdateVector(vector: UpdateVectorPayload)
    | UpdateAiAnalysis(analysis: UpdateAiAnalysisPayload)

  datatype StorageJob = StorageJob(name: string, data: StoragePayload)

  /** The worker casts the payload by the job name: a known name carries the matching payload. */
  predicate WellFormedJob(job: StorageJob) {
    && (job.name == SaveContentJob ==> job.data.SaveContent?)
    && (job.name == UpdateVectorJob ==> job.data.UpdateVector?)
    && (job.name == UpdateAiAnalysisJob ==> job.data.UpdateAiAnalysis?)
  }

  /** The random UUIDs a job may draw: a content external id and a vector id. */
  datatype Uuids = Uuids(externalId: string, qdrantId: string)

  /** The value a job returns. */
  datatype StorageReply =
    | ContentSaved(id: string, sourceId: string, qdrantId: Option<string>)
    | VectorSaved(vectorId: string)
    | AnalysisSaved(id: string)
    | NoReply

  /** The vector store's upsert of one point: collection, point id, vector; true when it succeeds. */
  type VectorWrite = (string, string, seq<real>) -> bool

  /** The error thrown when the vector store rejects a write; its wording is the client's and is not modelled. */
  const VectorWriteFailed := "vector store write failed"

  // ---------------------------------------------------------------------------
  // save-content

  /** The source a save creates when its (type, externalId) is new; a new source is active. */
  function NewSourceRow(p: SaveContentPayload): SourceRow {
    SourceRow(p.sourceType, p.sourceExternalId, p.sourceName, true, None, None, None)
  }

  /**
    The source upsert keyed on (type, externalId): an existing source keeps
    everything but its name, and the name changes only when one is given.
  */
  function UpsertSource(ss: SourceStore, p: SaveContentPayload): (r: (SourceStore, string))
    requires SourceStoreValid(ss)
    ensures r.1 in r.0.rows && SourceKeyOf(r.0.rows[r.1]) == SourceKey(p.sourceType, p.sourceExternalId)
    ensures SourceKey(p.sourceType, p.sourceExternalId) in ss.keys ==>
      && r.1 == ss.keys[SourceKey(p.sourceType, p.sourceExternalId)] && r.1 in ss.rows
      && r.0 == ss.(rows := ss.rows[r.1 := if p.sourceName.Some? then ss.rows[r.1].(name := p.sourceName) else ss.rows[r.1]])
    ensures SourceKey(p.sourceType, p.sourceExternalId) !in ss.keys ==>
      && r.1 !in ss.rows
      && r.0.rows == ss.rows[r.1 := NewSourceRow(p)]
      && r.0.rows[r.1].name == p.sourceName
  {
    var key := SourceKey(p.sourceType, p.sourceExternalId);
    if key in ss.keys then
      var id := ss.keys[key];
      var s := ss.rows[id];
      (ss.(rows := ss.rows[id := if p.sourceName.Some? then s.(name := p.sourceName) else s]), id)
    else
      InsertSource(ss, NewSourceRow(p))
  }

  lemma UpsertSourceValid(ss: SourceStore, p: SaveContentPayload)
    requires SourceStoreValid(ss)
    ensures SourceStoreValid(UpsertSource(ss, p).0)
    ensures ss.rows.Keys <= UpsertSource(ss, p).0.rows.Keys
  {
    var key := SourceKey(p.sourceType, p.sourceExternalId);
    if key in ss.keys {
      var id := ss.keys[key];
      var s := ss.rows[id];
      ReplaceSourceValid(ss, id, if p.sourceName.Some? then s.(name := p.sourceName) else s);
    } else {
      InsertSourceValid(ss, NewSourceRow(p));
    }
  }

  /** The content a save creates when its (sourceId, externalId) is new. */
  function NewSavedRow(sourceId: string, externalId: string, p: SaveContentPayload, qdrantId: string): ContentRow {
    ContentRow(externalId, sourceId, p.text, p.rawData, None, p.sourceDate, InitialContentStatus,
      Some(qdrantId), false, None, None, 0)
  }

  /**
    The fields the update branch of the content upsert writes: the text when
    it is defined, the raw data always (an absent one becomes null), the source
    date when it is given. The vector id and everything else is kept.
  */
  function ResaveRow(c: ContentRow, p: SaveContentPayload): (c': ContentRow)
    ensures c'.text == (if p.text.Some? then p.text else c.text)
    ensures c'.rawData == p.rawData
    ensures c'.sourceDate == (if p.sourceDate.Some? then p.sourceDate else c.sourceDate)
    ensures KeyOf(c') == KeyOf(c) && c'.createdAt == c.createdAt
    ensures c'.qdrantId == c.qdrantId && c'.isVectorized == c.isVectorized && c'.aiAnalysis == c.aiAnalysis
    ensures c'.status == c.status && c'.embeddingModel == c.embeddingModel && c'.receivedViaId == c.receivedViaId
  {
    c.(text := if p.text.Some? then p.text else c.text,
       rawData := p.rawData,
       sourceDate := if p.sourceDate.Some? then p.sourceDate else c.sourceDate)
  }

  /** The content upsert keyed on (sourceId, externalId); `qdrantId` is used only when the row is created. */
  function UpsertContent(cs: ContentStore, sourceId: string, externalId: string, p: SaveContentPayload, qdrantId: string)
    : (r: (ContentStore, string))
    requires ContentStoreValid(cs)
    ensures r.1 in r.0.rows && KeyOf(r.0.rows[r.1]) == ContentKey(sourceId, externalId)
    ensures ContentKey(sourceId, externalId) in cs.keys ==>
      && r.1 == cs.keys[ContentKey(sourceId, externalId)]
      && r.0 == cs.(rows := cs.rows[r.1 := ResaveRow(cs.rows[r.1], p)])
    ensures ContentKey(sourceId, externalId) !in cs.keys ==>
      && r.1 !in cs.rows
      && r.0 == InsertContent(cs, NewSavedRow(sourceId, externalId, p, qdrantId)).0
      && r.0.rows[r.1].qdrantId == Some(qdrantId)
  {
    var key := ContentKey(sourceId, externalId);
    if key in cs.keys then
      var id := cs.keys[key];
      (cs.(rows := cs.rows[id := ResaveRow(cs.rows[id], p)]), id)
    else
      InsertContent(cs, NewSavedRow(sourceId, externalId, p, qdrantId))
  }

  lemma UpsertContentValid(cs: ContentStore, sourceId: string, externalId: string, p: SaveContentPayload, qdrantId: string)
    requires ContentStoreValid(cs)
    ensures ContentStoreValid(UpsertContent(cs, sourceId, externalId, p, qdrantId).0)
    ensures cs.rows.Keys <= UpsertContent(cs, sourceId, externalId, p, qdrantId).0.rows.Keys
  {
    var key := ContentKey(sourceId, externalId);
    if key in cs.keys {
      var id := cs.keys[key];
      ReplaceContentValid(cs, id, ResaveRow(cs.rows[id], p));
    } else {
      InsertContentValid(cs, NewSavedRow(sourceId, externalId, p, qdrantId));
    }
  }

  /** The external id a save uses: the payload's, or a fresh UUID when it has none. */
  function SavedExternalId(p: SaveContentPayload, uuids: Uuids): string {
    p.externalId.GetOr(uuids.externalId)
  }

  /** `handleSaveContent`: upsert the source, then the content, and reply with both ids and the vector id. */
  function HandleSaveContent(db: Db, p: SaveContentPayload, uuids: Uuids): (r: (Db, StorageReply))
    requires Valid(db)
    ensures r.1.ContentSaved?
    ensures var (ss', sourceId) := UpsertSource(db.sources, p);
      var (cs', id) := UpsertContent(db.content, sourceId, SavedExternalId(p, uuids), p, uuids.qdrantId);
      && r.0 == db.(sources := ss', content := cs')
      && r.1 == ContentSaved(id, sourceId, cs'.rows[id].qdrantId)
  {
    var (ss', sourceId) := UpsertSource(db.sources, p);
    var (cs', id) := UpsertContent(db.content, sourceId, SavedExternalId(p, uuids), p, uuids.qdrantId);
    (db.(sources := ss', content := cs'), ContentSaved(id, sourceId, cs'.rows[id].qdrantId))
  }

  /** A save keeps the store invariant. */
  lemma SaveContentPreservesValid(db: Db, p: SaveContentPayload, uuids: Uuids)
    requires Valid(db)
    ensures Valid(HandleSaveContent(db, p, uuids).0)
  {
    var (ss', sourceId) := UpsertSource(db.sources, p);
    UpsertSourceValid(db.sources, p);
    var (cs', id) := UpsertContent(db.content, sourceId, SavedExternalId(p, uuids), p, uuids.qdrantId);
    UpsertContentValid(db.content, sourceId, SavedExternalId(p, uuids), p, uuids.qdrantId);
    SavedRowsKeepSources(db.content, db.sources, ss', sourceId, SavedExternalId(p, uuids), p, uuids.qdrantId);
  }

  /** After a save every content row still belongs to an existing source. */
  lemma SavedRowsKeepSources(cs: ContentStore, ss: SourceStore, ss': SourceStore, sourceId: string,
                             externalId: string, p: SaveContentPayload, qdrantId: string)
    requires ContentStoreValid(cs) && ContentSourcesExist(cs, ss)
    requires ss.rows.Keys <= ss'.rows.Keys && sourceId in ss'.rows
    ensures ContentSourcesExist(UpsertContent(cs, sourceId, externalId, p, qdrantId).0, ss')
  {
    var (cs', id) := UpsertContent(cs, sourceId, externalId, p, qdrantId);
    forall x | x in cs'.rows ensures cs'.rows[x].sourceId in ss'.rows {
      if x != id {
        assert cs'.rows[x] == cs.rows[x];
      }
    }
  }

  /**
    Saving the same keyed content twice leaves one row: the second save
    answers with the same content id, source id and vector id, adds no row,
    and the row carries the second save's text, raw data and date.
  */
  lemma SaveTwiceKeepsOneRow(db: Db, p: SaveContentPayload, uuids1: Uuids, uuids2: Uuids)
    requires Valid(db)
    requires p.externalId.Some?
    ensures var (db1, r1) := HandleSaveContent(db, p, uuids1);
      && Valid(db1)
      && var (db2, r2) := HandleSaveContent(db1, p, uuids2);
      && r2 == r1
      && db2.content.rows.Keys == db1.content.rows.Keys
      && db2.sources.rows.Keys == db1.sources.rows.Keys
      && db2.content.rows[r2.id] == ResaveRow(db1.content.rows[r1.id], p)
  {
    SaveContentPreservesValid(db, p, uuids1);
    var (db1, r1) := HandleSaveContent(db, p, uuids1);
    UpsertSourceValid(db.sources, p);
    ResaveSourceSameId(db.sources, p);
    var (ss1, sid) := UpsertSource(db.sources, p);
    UpsertContentValid(db.content, sid, p.externalId.value, p, uuids1.qdrantId);
    ResaveContentSameId(db.content, sid, p.externalId.value, p, uuids1.qdrantId, uuids2.qdrantId);
  }

  /** Upserting the same source again finds the row the first upsert left and adds none. */
  lemma ResaveSourceSameId(ss: SourceStore, p: SaveContentPayload)
    requires SourceStoreValid(ss)
    ensures var (ss1, id1) := UpsertSource(ss, p);
      && SourceStoreValid(ss1)
      && var (ss2, id2) := UpsertSource(ss1, p);
      && id2 == id1 && ss2.rows.Keys == ss1.rows.Keys
  {
    UpsertSourceValid(ss, p);
    var (ss1, id1) := UpsertSource(ss, p);
    assert SourceKey(p.sourceType, p.sourceExternalId) in ss1.keys && ss1.keys[SourceKey(p.sourceType, p.sourceExternalId)] == id1 by {
      assert SourceKeyOf(ss1.rows[id1]) == SourceKey(p.sourceType, p.sourceExternalId);
    }
    var (ss2, id2) := UpsertSource(ss1, p);
    assert ss2.rows.Keys == ss1.rows.Keys;
  }

  /** Upserting the same content again finds the row the first upsert left, adds none and keeps its vector id. */
  lemma ResaveContentSameId(cs: ContentStore, sourceId: string, externalId: string, p: SaveContentPayload,
                            q1: string, q2: string)
    requires ContentStoreValid(cs)
    ensures var (cs1, id1) := UpsertContent(cs, sourceId, externalId, p, q1);
      && ContentStoreValid(cs1)
      && var (cs2, id2) := UpsertContent(cs1, sourceId, externalId, p, q2);
      && id2 == id1 && cs2.rows.Keys == cs1.rows.Keys
      && cs2.rows[id2] == ResaveRow(cs1.rows[id1], p)
  {
    UpsertContentValid(cs, sourceId, externalId, p, q1);
    var (cs1, id1) := UpsertContent(cs, sourceId, externalId, p, q1);
    assert ContentKey(sourceId, externalId) in cs1.keys && cs1.keys[ContentKey(sourceId, externalId)] == id1 by {
      assert KeyOf(cs1.rows[id1]) == ContentKey(sourceId, externalId);
    }
    var (cs2, id2) := UpsertContent(cs1, sourceId, externalId, p, q2);
    assert cs2.rows.Keys == cs1.rows.Keys;
  }

  /**
    A save without an external id draws a fresh UUID, so when no content of
    the source uses that UUID the save creates a row and leaves every existing
    row as it was.
  */
  lemma SaveWithoutExternalIdCreates(db: Db, p: SaveContentPayload, uuids: Uuids)
    requires Valid(db)
    requires p.externalId.None?
    requires forall k :: k in db.content.keys ==> k.externalId != uuids.externalId
    ensures var (db', r) := HandleSaveContent(db, p, uuids);
      && r.id !in db.content.rows
      && db'.content.rows[r.id].externalId == uuids.externalId
      && db'.content.rows[r.id].qdrantId == Some(uuids.qdrantId)
      && forall id :: id in db.content.rows ==> id in db'.content.rows && db'.content.rows[id] == db.content.rows[id]
  {
    var (ss', sourceId) := UpsertSource(db.sources, p);
    assert ContentKey(sourceId, uuids.externalId) !in db.content.keys;
  }

  // ---------------------------------------------------------------------------
  // update-vector

  /**
    `handleUpdateVector` with the vector written to `collection`: a missing
    content row is an error; otherwise the row's vector id is reused, or the
    fresh one taken when it has none, the point is written, and only when the
    write succeeds is the row marked vectorized with that id.
  */
  function UpdateVectorIn(collection: string, db: Db, p: UpdateVectorPayload, uuids: Uuids, write: VectorWrite)
    : (r: Result<(Db, StorageReply), string>)
    ensures p.contentId !in db.content.rows ==> r == Err("Content not found: " + p.contentId)
    ensures p.contentId in db.content.rows ==>
      var c := db.content.rows[p.contentId];
      var q := c.qdrantId.GetOr(uuids.qdrantId);
      && (r.Err? <==> !write(collection, q, p.vector))
      && (r.Err? ==> r.error == VectorWriteFailed)
      && (r.Ok? ==>
        && r.value.1 == VectorSaved(q)
        && r.value.0 == db.(content := db.content.(rows := db.content.rows[p.contentId := c.(qdrantId := Some(q), isVectorized := true)])))
  {
    if p.contentId !in db.content.rows then Err("Content not found: " + p.contentId)
    else
      var c := db.content.rows[p.contentId];
      var q := c.qdrantId.GetOr(uuids.qdrantId);
      if !write(collection, q, p.vector) then Err(VectorWriteFailed)
      else Ok((db.(content := db.content.(rows := db.content.rows[p.contentId := c.(qdrantId := Some(q), isVectorized := true)])), VectorSaved(q)))
  }

  /** `handleUpdateVector` as intended: the point goes to the content collection. */
  function HandleUpdateVector(db: Db, p: UpdateVectorPayload, uuids: Uuids, write: VectorWrite)
    : (r: Result<(Db, StorageReply), string>)
    ensures r == UpdateVectorIn(ContentCollection, db, p, uuids, write)
    ensures r.Ok? ==> p.contentId in db.content.rows && r.value.0.content.rows[p.contentId].isVectorized
  {
    UpdateVectorIn(ContentCollection, db, p, uuids, write)
  }

  /**
    `handleUpdateVector` as written: the vector id lands in the collection
    parameter of the vector store's upsert, so the write names a collection
    called after the point.
  */
  function HandleUpdateVectorAsWritten(db: Db, p: UpdateVectorPayload, uuids: Uuids, write: VectorWrite)
    : (r: Result<(Db, StorageReply), string>)
    ensures p.contentId in db.content.rows ==>
      var q := db.content.rows[p.contentId].qdrantId.GetOr(uuids.qdrantId);
      r == UpdateVectorIn(q, db, p, uuids, write)
    ensures p.contentId !in db.content.rows ==> r == HandleUpdateVector(db, p, uuids, write)
  {
    if p.contentId !in db.content.rows then Err("Content not found: " + p.contentId)
    else UpdateVectorIn(db.content.rows[p.contentId].qdrantId.GetOr(uuids.qdrantId), db, p, uuids, write)
  }

  /** A vector store holding only the two collections the service creates at start-up. */
  ghost predicate OnlyServiceCollections(write: VectorWrite) {
    forall c, id, v :: write(c, id, v) ==> c == ContentCollection || c == TopicCollection
  }

  /**
    Against a store with only the service's collections, the write as written
    fails for every row whose vector id is not a collection name, while the
    intended write succeeds whenever the store accepts the point.
  */
  lemma VectorWriteMisdirected(db: Db, p: UpdateVectorPayload, uuids: Uuids, write: VectorWrite)
    requires OnlyServiceCollections(write)
    requires p.contentId in db.content.rows
    requires var q := db.content.rows[p.contentId].qdrantId.GetOr(uuids.qdrantId);
      q != ContentCollection && q != TopicCollection
    ensures HandleUpdateVectorAsWritten(db, p, uuids, write) == Err(VectorWriteFailed)
  {
  }

  /** A concrete store that accepts every write to the content collection and no other. */
  function ContentOnlyStore(): (w: VectorWrite)
    ensures OnlyServiceCollections(w)
    ensures forall id, v :: w(ContentCollection, id, v)
  {
    (c: string, id: string, v: seq<real>) => c == ContentCollection
  }

  /** With that store the intended handler succeeds on a fresh row where the written one fails. */
  lemma VectorWriteMisdirectedExample(db: Db, p: UpdateVectorPayload)
    requires p.contentId in db.content.rows && db.content.rows[p.contentId].qdrantId.None?
    ensures HandleUpdateVector(db, p, Uuids("e", "0"), ContentOnlyStore()).Ok?
    ensures HandleUpdateVectorAsWritten(db, p, Uuids("e", "0"), ContentOnlyStore()).Err?
  {
    var w := ContentOnlyStore();
    assert w(ContentCollection, "0", p.vector);
    assert !w("0", "0", p.vector);
  }

  /** A vector update keeps the store invariant. */
  lemma UpdateVectorPreservesValid(db: Db, p: UpdateVectorPayload, uuids: Uuids, write: VectorWrite)
    requires Valid(db)
    ensures var r := HandleUpdateVector(db, p, uuids, write); r.Ok? ==> Valid(r.value.0)
  {
    if p.contentId in db.content.rows {
      var c := db.content.rows[p.contentId];
      var q := c.qdrantId.GetOr(uuids.qdrantId);
      ReplaceContentValid(db.content, p.contentId, c.(qdrantId := Some(q), isVectorized := true));
    }
  }

  /** Once a row is vectorized its vector id is reused: a second update answers with the same id, whatever UUID it draws. */
  lemma UpdateVectorReusesId(db: Db, p: UpdateVectorPayload, uuids1: Uuids, uuids2: Uuids, write: VectorWrite)
    requires HandleUpdateVector(db, p, uuids1, write).Ok?
    ensures var (db1, r1) := HandleUpdateVector(db, p, uuids1, write).value;
      var r2 := HandleUpdateVector(db1, p, uuids2, write);
      r2.Ok? ==> r2.value.1 == r1 && r2.value.0 == db1
  {
  }

  // ---------------------------------------------------------------------------
  // update-ai-analysis

  /** `handleUpdateAiAnalysis`: only the analysis of the row changes; a missing row is the store's error. */
  function HandleUpdateAiAnalysis(db: Db, p: UpdateAiAnalysisPayload): (r: Result<(Db, StorageReply), string>)
    ensures r.Err? <==> p.contentId !in db.content.rows
    ensures r.Err? ==> r.error == UncaughtStoreError
    ensures r.Ok? ==>
      var c := db.content.rows[p.contentId];
      && r.value.1 == AnalysisSaved(p.contentId)
      && r.value.0 == db.(content := db.content.(rows := db.content.rows[p.contentId := c.(aiAnalysis := Some(p.analysis))]))
  {
    if p.contentId !in db.content.rows then Err(UncaughtStoreError)
    else
      var c := db.content.rows[p.contentId];
      Ok((db.(content := db.content.(rows := db.content.rows[p.contentId := c.(aiAnalysis := Some(p.analysis))])), AnalysisSaved(p.contentId)))
  }

  /** An analysis update keeps the store invariant. */
  lemma UpdateAiAnalysisPreservesValid(db: Db, p: UpdateAiAnalysisPayload)
    requires Valid(db)
    ensures var r := HandleUpdateAiAnalysis(db, p); r.Ok? ==> Valid(r.value.0)
  {
    if p.contentId in db.content.rows {
      var c := db.content.rows[p.contentId];
      ReplaceContentValid(db.content, p.contentId, c.(aiAnalysis := Some(p.analysis)));
    }
  }

  // ---------------------------------------------------------------------------
  // Dispatch

  /**
    `process`: the job name selects the handler; an unknown name is answered
    with null and writes nothing; a handler's error is rethrown.
  */
  function Process(db: Db, job: StorageJob, uuids: Uuids, write: VectorWrite): (r: Result<(Db, StorageReply), string>)
    requires Valid(db)
    requires WellFormedJob(job)
    ensures job.name == SaveContentJob ==> r == Ok(HandleSaveContent(db, job.data.save, uuids))
    ensures job.name == UpdateVectorJob ==> r == HandleUpdateVector(db, job.data.vector, uuids, write)
    ensures job.name == UpdateAiAnalysisJob ==> r == HandleUpdateAiAnalysis(db, job.data.analysis)
    ensures job.name !in {SaveContentJob, UpdateVectorJob, UpdateAiAnalysisJob} ==> r == Ok((db, NoReply))
    ensures r.Ok? && r.value.1.NoReply? ==> r.value.0 == db
  {
    if job.name == SaveContentJob then Ok(HandleSaveContent(db, job.data.save, uuids))
    else if job.name == UpdateVectorJob then HandleUpdateVector(db, job.data.vector, uuids, write)
    else if job.name == UpdateAiAnalysisJob then HandleUpdateAiAnalysis(db, job.data.analysis)
    else Ok((db, NoReply))
  }
}
