/**
  The database service's gRPC handlers (apps/database/src/grpc/database.grpc.controller.ts)
  over an abstract relational store. Each table is a store of rows keyed by id,
  with one map per unique index — content (sourceId, externalId), source
  (type, externalId), user email — so that a write that would break a unique
  index fails, as the relational store makes it fail. The store gives new rows
  random UUIDs; here each table draws its ids from its own counter rendered in
  decimal, which keeps the one property the services rely on: a new id is fresh.
*/
module Database {
  import opened Wrappers
  import opened Decimal
  import opened Contracts

  // ---------------------------------------------------------------------------
  // gRPC status codes and errors

  datatype RpcCode = Unknown | InvalidArgument | NotFound | AlreadyExists | Internal

  /** The numeric gRPC status code. */
  function CodeNumber(c: RpcCode): nat {
    match c
    case Unknown => 2
    case InvalidArgument => 3
    case NotFound => 5
    case AlreadyExists => 6
    case Internal => 13
  }

  function CodeName(c: RpcCode): string {
    match c
    case Unknown => "UNKNOWN"
    case InvalidArgument => "INVALID_ARGUMENT"
    case NotFound => "NOT_FOUND"
    case AlreadyExists => "ALREADY_EXISTS"
    case Internal => "INTERNAL"
  }

  datatype RpcError = RpcError(code: RpcCode, message: string)

  /** The text of the error a gRPC client raises for a failed call: `"<code> <NAME>: <message>"`. */
  function RpcErrorText(e: RpcError): string {
    IntToString(CodeNumber(e.code)) + " " + CodeName(e.code) + ": " + e.message
  }

  /** Text used for store errors that a handler does not catch; the store's own wording is not modelled. */
  const UncaughtStoreError := "record not found"

  // ---------------------------------------------------------------------------
  // Rows

  const InitialContentStatus := "pending"
  const DefaultUserRole := "USER"

  datatype ContentRow = ContentRow(
    externalId: string,
    sourceId: string,
    text: Option<string>,
    rawData: Option<Json>,
    receivedViaId: Option<string>,
    sourceDate: Option<int>,
    status: string,
    qdrantId: Option<string>,
    isVectorized: bool,
    embeddingModel: Option<string>,
    aiAnalysis: Option<Json>,
    createdAt: nat)

  /** Source metadata; only the `username` key is ever read. */
  datatype SourceMetadata = SourceMetadata(username: Option<string>)

  datatype SourceRow = SourceRow(
    sourceType: string,
    externalId: string,
    name: Option<string>,
    isActive: bool,
    metadata: Option<SourceMetadata>,
    lastSyncAt: Option<int>,
    language: Option<string>)

  datatype TopicRow = TopicRow(
    title: string,
    summary: Option<string>,
    version: int,
    relevanceScore: real,
    isExpired: bool,
    embeddingModel: Option<string>,
    qdrantId: Option<string>)

  const StatusPending := "PENDING"
  const StatusScheduled := "SCHEDULED"

  datatype PublicationRow = PublicationRow(
    workspaceTopicId: string,
    targetId: string,
    topicVersion: int,
    scheduledAt: Option<int>,
    contentOverride: Option<Json>,
    status: string,
    createdAt: nat)

  datatype UserRow = UserRow(
    email: string,
    name: Option<string>,
    passwordHash: string,
    role: string,
    isActive: bool,
    telegramId: Option<string>,
    telegramUsername: Option<string>,
    avatarUrl: Option<string>,
    refreshTokenHash: Option<string>)

  datatype ContentKey = ContentKey(sourceId: string, externalId: string)
  datatype SourceKey = SourceKey(sourceType: string, externalId: string)

  function KeyOf(c: ContentRow): ContentKey {
    ContentKey(c.sourceId, c.externalId)
  }

  function SourceKeyOf(s: SourceRow): SourceKey {
    SourceKey(s.sourceType, s.externalId)
  }

  // ---------------------------------------------------------------------------
  // Fresh ids

  /** The value of the first `k` characters of `id` read as decimal digits, or -1 if one is not a digit. */
  function DigitsValue(id: string, k: nat): int
    requires k <= |id|
  {
    if k == 0 then 0
    else
      var p := DigitsValue(id, k - 1);
      if p < 0 || !IsDigit(id[k - 1]) then -1 else p * 10 + DigitValue(id[k - 1])
  }

  /** The counter value an id renders, or -1 for a string that is not all digits. */
  function IdNumber(id: string): int {
    DigitsValue(id, |id|)
  }

  /** Appending characters does not change the value of a prefix. */
  lemma {:induction false} DigitsValueAppend(s: string, t: string, k: nat)
    requires k <= |s|
    ensures DigitsValue(s + t, k) == DigitsValue(s, k)
  {
    if k > 0 {
      DigitsValueAppend(s, t, k - 1);
      assert (s + t)[k - 1] == s[k - 1];
    }
  }

  /** Reading back a rendered counter value gives the value. */
  lemma {:induction false} IdNumberOfNatToString(n: nat)
    ensures IdNumber(NatToString(n)) == n
  {
    var s := NatToString(n);
    var d := DigitChar(n % 10);
    assert DigitValue(d) == n % 10;
    if n >= 10 {
      var p := NatToString(n / 10);
      IdNumberOfNatToString(n / 10);
      DigitsValueAppend(p, [d], |p|);
      assert s == p + [d];
      assert DigitsValue(s, |s|) == DigitsValue(s, |p|) * 10 + n % 10;
    } else {
      assert s == [d];
      assert DigitsValue(s, 1) == DigitsValue(s, 0) * 10 + n % 10;
    }
  }

  /** The ids a counter has handed out before reaching `n`. */
  function IssuedIds(n: nat): set<string> {
    if n == 0 then {} else IssuedIds(n - 1) + {NatToString(n - 1)}
  }

  /** Every issued id reads back as a counter value below `n`. */
  lemma {:induction false} IssuedIdsBelow(n: nat, id: string)
    requires id in IssuedIds(n)
    ensures 0 <= IdNumber(id) < n
  {
    if id == NatToString(n - 1) {
      IdNumberOfNatToString(n - 1);
    } else {
      IssuedIdsBelow(n - 1, id);
    }
  }

  /** Issued ids are never empty. */
  lemma {:induction false} IssuedIdNonEmpty(n: nat, id: string)
    requires id in IssuedIds(n)
    ensures id != ""
  {
    if id != NatToString(n - 1) {
      IssuedIdNonEmpty(n - 1, id);
    }
  }

  /** The counter's current value has not been handed out yet. */
  lemma NotIssuedYet(n: nat)
    ensures NatToString(n) !in IssuedIds(n)
  {
    if NatToString(n) in IssuedIds(n) {
      IssuedIdsBelow(n, NatToString(n));
      IdNumberOfNatToString(n);
      assert false;
    }
  }

  /** Issuing the next id adds exactly that id. */
  lemma IssueNext(n: nat)
    ensures IssuedIds(n + 1) == IssuedIds(n) + {NatToString(n)}
    ensures NatToString(n) !in IssuedIds(n)
  {
    NotIssuedYet(n);
  }

  // ---------------------------------------------------------------------------
  // Content table

  datatype ContentStore = ContentStore(
    rows: map<string, ContentRow>,
    keys: map<ContentKey, string>,
    order: seq<string>,
    next: nat)

  /** The (sourceId, externalId) index maps every key to the one row that has it. */
  predicate ContentIndexed(cs: ContentStore) {
    && (forall k :: k in cs.keys ==> cs.keys[k] in cs.rows && KeyOf(cs.rows[cs.keys[k]]) == k)
    && (forall id :: id in cs.rows ==> KeyOf(cs.rows[id]) in cs.keys && cs.keys[KeyOf(cs.rows[id])] == id)
  }

  /** `order` lists every row once, oldest first. */
  predicate ContentOrdered(cs: ContentStore) {
    && (forall id :: id in cs.rows ==> id in cs.order)
    && (forall i :: 0 <= i < |cs.order| ==> cs.order[i] in cs.rows)
    && (forall i, j :: 0 <= i < j < |cs.order| ==> cs.rows[cs.order[i]].createdAt < cs.rows[cs.order[j]].createdAt)
  }

  /** Every id and creation stamp was drawn from the counter. */
  predicate ContentCounted(cs: ContentStore) {
    && cs.rows.Keys <= IssuedIds(cs.next)
    && (forall id :: id in cs.rows ==> cs.rows[id].createdAt < cs.next)
  }

  predicate ContentStoreValid(cs: ContentStore) {
    ContentIndexed(cs) && ContentOrdered(cs) && ContentCounted(cs)
  }

  /** Inserting a row: it gets the next id and the next creation stamp. */
  function InsertContent(cs: ContentStore, row: ContentRow): (r: (ContentStore, string))
    requires ContentCounted(cs)
    ensures r.1 !in cs.rows
    ensures r.0 == ContentStore(
      cs.rows[r.1 := row.(createdAt := cs.next)],
      cs.keys[KeyOf(row) := r.1],
      cs.order + [r.1],
      cs.next + 1)
  {
    var id := NatToString(cs.next);
    NotIssuedYet(cs.next);
    (ContentStore(cs.rows[id := row.(createdAt := cs.next)], cs.keys[KeyOf(row) := id], cs.order + [id], cs.next + 1), id)
  }

  /** Inserting a row whose key is free keeps the content table valid. */
  lemma InsertContentValid(cs: ContentStore, row: ContentRow)
    requires ContentStoreValid(cs)
    requires KeyOf(row) !in cs.keys
    ensures ContentStoreValid(InsertContent(cs, row).0)
  {
    InsertContentIndexed(cs, row);
    InsertContentOrdered(cs, row);
    InsertContentCounted(cs, row);
  }

  lemma InsertContentIndexed(cs: ContentStore, row: ContentRow)
    requires ContentIndexed(cs) && ContentCounted(cs)
    requires KeyOf(row) !in cs.keys
    ensures ContentIndexed(InsertContent(cs, row).0)
  {
  }

  lemma InsertContentOrdered(cs: ContentStore, row: ContentRow)
    requires ContentOrdered(cs) && ContentCounted(cs)
    ensures ContentOrdered(InsertContent(cs, row).0)
  {
    var (cs', id) := InsertContent(cs, row);
    forall i | 0 <= i < |cs.order|
      ensures cs'.rows[cs'.order[i]].createdAt < cs.next
    {
      assert cs.order[i] in cs.rows;
    }
  }

  lemma InsertContentCounted(cs: ContentStore, row: ContentRow)
    requires ContentCounted(cs)
    ensures ContentCounted(InsertContent(cs, row).0)
  {
    IssueNext(cs.next);
  }

  /** Replacing a row by one with the same key and creation stamp keeps the content table valid. */
  lemma ReplaceContentValid(cs: ContentStore, id: string, row: ContentRow)
    requires ContentStoreValid(cs)
    requires id in cs.rows
    requires KeyOf(row) == KeyOf(cs.rows[id]) && row.createdAt == cs.rows[id].createdAt
    ensures ContentStoreValid(cs.(rows := cs.rows[id := row]))
  {
    ReplaceContentIndexed(cs, id, row);
    ReplaceContentOrdered(cs, id, row);
    ReplaceContentCounted(cs, id, row);
  }

  lemma ReplaceContentIndexed(cs: ContentStore, id: string, row: ContentRow)
    requires ContentIndexed(cs)
    requires id in cs.rows && KeyOf(row) == KeyOf(cs.rows[id])
    ensures ContentIndexed(cs.(rows := cs.rows[id := row]))
  {
  }

  lemma ReplaceContentOrdered(cs: ContentStore, id: string, row: ContentRow)
    requires ContentOrdered(cs)
    requires id in cs.rows && row.createdAt == cs.rows[id].createdAt
    ensures ContentOrdered(cs.(rows := cs.rows[id := row]))
  {
    var cs' := cs.(rows := cs.rows[id := row]);
    forall i | 0 <= i < |cs'.order| ensures cs'.order[i] in cs'.rows {
      assert cs.order[i] in cs.rows;
    }
  }

  lemma ReplaceContentCounted(cs: ContentStore, id: string, row: ContentRow)
    requires ContentCounted(cs)
    requires id in cs.rows && row.createdAt == cs.rows[id].createdAt
    ensures ContentCounted(cs.(rows := cs.rows[id := row]))
  {
    assert cs.rows[id := row].Keys == cs.rows.Keys;
  }

  // ---------------------------------------------------------------------------
  // Source table

  datatype SourceStore = SourceStore(rows: map<string, SourceRow>, keys: map<SourceKey, string>, next: nat)

  /** The (type, externalId) index maps every key to the one row that has it; ids come from the counter. */
  predicate SourceStoreValid(ss: SourceStore) {
    && (forall k :: k in ss.keys ==> ss.keys[k] in ss.rows && SourceKeyOf(ss.rows[ss.keys[k]]) == k)
    && (forall id :: id in ss.rows ==> SourceKeyOf(ss.rows[id]) in ss.keys && ss.keys[SourceKeyOf(ss.rows[id])] == id)
    && ss.rows.Keys <= IssuedIds(ss.next)
  }

  function InsertSource(ss: SourceStore, row: SourceRow): (r: (SourceStore, string))
    requires ss.rows.Keys <= IssuedIds(ss.next)
    ensures r.1 !in ss.rows
    ensures r.0 == SourceStore(ss.rows[r.1 := row], ss.keys[SourceKeyOf(row) := r.1], ss.next + 1)
  {
    var id := NatToString(ss.next);
    NotIssuedYet(ss.next);
    (SourceStore(ss.rows[id := row], ss.keys[SourceKeyOf(row) := id], ss.next + 1), id)
  }

  lemma InsertSourceValid(ss: SourceStore, row: SourceRow)
    requires SourceStoreValid(ss)
    requires SourceKeyOf(row) !in ss.keys
    ensures SourceStoreValid(InsertSource(ss, row).0)
  {
    IssueNext(ss.next);
  }

  lemma ReplaceSourceValid(ss: SourceStore, id: string, row: SourceRow)
    requires SourceStoreValid(ss)
    requires id in ss.rows && SourceKeyOf(row) == SourceKeyOf(ss.rows[id])
    ensures SourceStoreValid(ss.(rows := ss.rows[id := row]))
  {
    assert ss.rows[id := row].Keys == ss.rows.Keys;
  }

  // ---------------------------------------------------------------------------
  // Publication table

  datatype PublicationStore = PublicationStore(rows: map<string, PublicationRow>, order: seq<string>, next: nat)

  predicate PublicationStoreValid(ps: PublicationStore) {
    && (forall id :: id in ps.rows ==> id in ps.order)
    && (forall i :: 0 <= i < |ps.order| ==> ps.order[i] in ps.rows)
    && (forall i, j :: 0 <= i < j < |ps.order| ==> ps.rows[ps.order[i]].createdAt < ps.rows[ps.order[j]].createdAt)
    && ps.rows.Keys <= IssuedIds(ps.next)
    && (forall id :: id in ps.rows ==> ps.rows[id].createdAt < ps.next)
  }

  // ---------------------------------------------------------------------------
  // User table

  datatype UserStore = UserStore(rows: map<string, UserRow>, emails: map<string, string>, next: nat)

  /** The unique email index maps every email to the one user that has it; ids come from the counter. */
  predicate UserStoreValid(us: UserStore) {
    && (forall e :: e in us.emails ==> us.emails[e] in us.rows && us.rows[us.emails[e]].email == e)
    && (forall id :: id in us.rows ==> us.rows[id].email in us.emails && us.emails[us.rows[id].email] == id)
    && us.rows.Keys <= IssuedIds(us.next)
  }

  // ---------------------------------------------------------------------------
  // The whole store

  datatype Db = Db(
    content: ContentStore,
    sources: SourceStore,
    topics: map<string, TopicRow>,
    publications: PublicationStore,
    users: UserStore,
    targetIds: set<string>,
    workspaceTopicIds: set<string>)

  /** Every content row belongs to an existing source (the foreign key). */
  predicate ContentSourcesExist(content: ContentStore, sources: SourceStore) {
    forall id :: id in content.rows ==> content.rows[id].sourceId in sources.rows
  }

  predicate Valid(db: Db) {
    && ContentStoreValid(db.content)
    && SourceStoreValid(db.sources)
    && PublicationStoreValid(db.publications)
    && UserStoreValid(db.users)
    && ContentSourcesExist(db.content, db.sources)
  }

  /** The store the services start from. */
  function EmptyDb(): (db: Db)
    ensures Valid(db)
  {
    Db(ContentStore(map[], map[], [], 0), SourceStore(map[], map[], 0), map[],
      PublicationStore(map[], [], 0), UserStore(map[], map[], 0), {}, {})
  }

  // ---------------------------------------------------------------------------
  // Row rendering

  /** The `ContentResponse` message. `status` is not part of it. */
  datatype ContentView = ContentView(
    id: string,
    externalId: string,
    text: string,
    sourceId: string,
    receivedViaId: string,
    qdrantId: string,
    isVectorized: bool,
    embeddingModel: string,
    createdAt: nat,
    rawData: Option<Json>,
    aiAnalysis: Option<Json>)

  /** `mapContent`: a null optional string is rendered as `''`. */
  function MapContent(id: string, c: ContentRow): (v: ContentView)
    ensures v.id == id && v.externalId == c.externalId && v.sourceId == c.sourceId
    ensures v.qdrantId == "" <==> (c.qdrantId.None? || c.qdrantId == Some(""))
    ensures c.qdrantId.Some? ==> v.qdrantId == c.qdrantId.value
    ensures v.text == "" <==> (c.text.None? || c.text == Some(""))
    ensures v.embeddingModel == "" <==> (c.embeddingModel.None? || c.embeddingModel == Some(""))
    ensures v.receivedViaId == "" <==> (c.receivedViaId.None? || c.receivedViaId == Some(""))
    ensures v.isVectorized == c.isVectorized && v.aiAnalysis == c.aiAnalysis && v.rawData == c.rawData
  {
    ContentView(id, c.externalId, c.text.GetOr(""), c.sourceId, c.receivedViaId.GetOr(""),
      c.qdrantId.GetOr(""), c.isVectorized, c.embeddingModel.GetOr(""), c.createdAt,
      c.rawData, c.aiAnalysis)
  }

  /** The `UserResponse` message. */
  datatype UserView = UserView(
    id: string,
    email: string,
    name: string,
    passwordHash: string,
    isActive: bool,
    role: string,
    telegramId: string,
    telegramUsername: string,
    avatarUrl: string,
    refreshTokenHash: string)

  /** `mapUser`: a null optional string is rendered as `''`. */
  function MapUser(id: string, u: UserRow): (v: UserView)
    ensures v.id == id && v.email == u.email && v.role == u.role && v.isActive == u.isActive
    ensures v.passwordHash == u.passwordHash
    ensures v.refreshTokenHash == "" <==> (u.refreshTokenHash.None? || u.refreshTokenHash == Some(""))
    ensures u.refreshTokenHash.Some? ==> v.refreshTokenHash == u.refreshTokenHash.value
    ensures v.name == "" <==> (u.name.None? || u.name == Some(""))
  {
    UserView(id, u.email, u.name.GetOr(""), u.passwordHash, u.isActive, u.role,
      u.telegramId.GetOr(""), u.telegramUsername.GetOr(""), u.avatarUrl.GetOr(""),
      u.refreshTokenHash.GetOr(""))
  }

  /** The fields of the `SourceResponse` message; `metadata` is the parsed `metadata_json`. */
  datatype SourceView = SourceView(
    id: string,
    sourceType: string,
    externalId: string,
    name: string,
    isActive: bool,
    language: string,
    metadata: Option<SourceMetadata>)

  /**
    `mapSource` as written: the response has no `metadata_json` field (nor
    `last_sync_at`), so whoever reads the response sees no metadata.
  */
  function MapSourceAsWritten(id: string, s: SourceRow): (v: SourceView)
    ensures v.id == id && v.sourceType == s.sourceType && v.externalId == s.externalId
    ensures v.metadata.None?
  {
    SourceView(id, s.sourceType, s.externalId, s.name.GetOr(""), s.isActive, s.language.GetOr(""), None)
  }

  /**
    `mapSource` with the stored metadata passed on, as `SourceResponse`
    declares it; a null name or language is rendered as `''`.
  */
  function MapSource(id: string, s: SourceRow): (v: SourceView)
    ensures v.id == id && v.sourceType == s.sourceType && v.externalId == s.externalId && v.isActive == s.isActive
    ensures v.name == "" <==> (s.name.None? || s.name == Some(""))
    ensures s.name.Some? ==> v.name == s.name.value
    ensures v.language == "" <==> (s.language.None? || s.language == Some(""))
    ensures s.language.Some? ==> v.language == s.language.value
    ensures v.metadata == s.metadata
    ensures MapSourceAsWritten(id, s) == v.(metadata := None)
  {
    SourceView(id, s.sourceType, s.externalId, s.name.GetOr(""), s.isActive, s.language.GetOr(""), s.metadata)
  }

  // ---------------------------------------------------------------------------
  // Source handlers

  /** `getSource`: there is no check for an empty id; an unknown id is NOT_FOUND. */
  function GetSource(db: Db, id: string): (r: Result<SourceView, RpcError>)
    ensures r.Err? <==> id !in db.sources.rows
    ensures r.Err? ==> r.error == RpcError(NotFound, "Source not found")
    ensures r.Ok? ==> r.value == MapSource(id, db.sources.rows[id])
  {
    if id !in db.sources.rows then Err(RpcError(NotFound, "Source not found"))
    else Ok(MapSource(id, db.sources.rows[id]))
  }

  /** The database client's `getSource`: `null` when the server answers NOT_FOUND. */
  function LookUpSource(db: Db, id: string): (r: Option<SourceView>)
    ensures r.None? <==> id !in db.sources.rows
    ensures r.Some? ==> GetSource(db, id) == Ok(r.value)
  {
    match GetSource(db, id)
    case Ok(v) => Some(v)
    case Err(_) => None
  }

  /** `getSource` as written, rendering with `MapSourceAsWritten`. */
  function GetSourceAsWritten(db: Db, id: string): (r: Result<SourceView, RpcError>)
    ensures r.Err? <==> id !in db.sources.rows
    ensures r.Ok? ==> r.value.metadata.None? && GetSource(db, id) == Ok(r.value.(metadata := db.sources.rows[id].metadata))
  {
    if id !in db.sources.rows then Err(RpcError(NotFound, "Source not found"))
    else Ok(MapSourceAsWritten(id, db.sources.rows[id]))
  }

  // ---------------------------------------------------------------------------
  // Content handlers

  /** `getContent` */
  function GetContent(db: Db, id: string): (r: Result<ContentView, RpcError>)
    ensures r.Err? <==> (id == "" || id !in db.content.rows)
    ensures id == "" ==> r == Err(RpcError(InvalidArgument, "Content ID required"))
    ensures id != "" && id !in db.content.rows ==> r == Err(RpcError(NotFound, "Content not found: " + id))
    ensures r.Ok? ==> r.value == MapContent(id, db.content.rows[id])
  {
    if id == "" then Err(RpcError(InvalidArgument, "Content ID required"))
    else if id !in db.content.rows then Err(RpcError(NotFound, "Content not found: " + id))
    else Ok(MapContent(id, db.content.rows[id]))
  }

  datatype ListContentRequest = ListContentRequest(
    limit: Option<nat>,
    offset: Option<nat>,
    sourceId: Option<string>,
    status: Option<string>)

  datatype ContentPage = ContentPage(items: seq<ContentView>, total: nat)

  /** `x || d` for an optional count: absent and 0 are both falsy. */
  function OrDefault(x: Option<nat>, d: nat): (r: nat)
    ensures x.Some? && x.value != 0 ==> r == x.value
    ensures x.None? || x.value == 0 ==> r == d
  {
    if x.Some? && x.value != 0 then x.value else d
  }

  /** A string field used as a condition: absent and empty are both falsy. */
  predicate Truthy(x: Option<string>) {
    x.Some? && x.value != ""
  }

  /** The page size `listContent` uses: `min(limit || 10, 100)`. */
  function ContentPageSize(limit: Option<nat>): (n: nat)
    ensures 1 <= n <= 100
    ensures limit.None? || limit.value == 0 ==> n == 10
    ensures limit.Some? && 0 < limit.value <= 100 ==> n == limit.value
    ensures limit.Some? && limit.value > 100 ==> n == 100
  {
    var l := OrDefault(limit, 10);
    if l < 100 then l else 100
  }

  /** The `where` clause of `listContent`: a filter applies only when it is truthy. */
  predicate ContentMatches(c: ContentRow, req: ListContentRequest) {
    && (Truthy(req.sourceId) ==> c.sourceId == req.sourceId.value)
    && (Truthy(req.status) ==> c.status == req.status.value)
  }

  /** The ids of `ids` that satisfy the filter, last first. */
  function MatchingNewestFirst(cs: ContentStore, ids: seq<string>, req: ListContentRequest): (r: seq<string>)
    requires forall i :: 0 <= i < |ids| ==> ids[i] in cs.rows
    ensures forall i :: 0 <= i < |r| ==> r[i] in cs.rows && ContentMatches(cs.rows[r[i]], req)
    ensures forall i :: 0 <= i < |r| ==> r[i] in ids
    ensures forall i :: 0 <= i < |ids| && ContentMatches(cs.rows[ids[i]], req) ==> ids[i] in r
  {
    if |ids| == 0 then []
    else
      var rest := MatchingNewestFirst(cs, ids[..|ids| - 1], req);
      var last := ids[|ids| - 1];
      if ContentMatches(cs.rows[last], req) then [last] + rest else rest
  }

  /** The slice `skip offset, take limit` of a list. */
  function Page<T>(s: seq<T>, offset: nat, limit: nat): (r: seq<T>)
    ensures |r| <= limit
    ensures offset <= |s| ==> |r| == if |s| - offset < limit then |s| - offset else limit
    ensures offset <= |s| ==> r == s[offset..offset + |r|]
    ensures offset > |s| ==> r == []
  {
    if offset > |s| then []
    else if |s| - offset <= limit then s[offset..]
    else s[offset..offset + limit]
  }

  /** Creation stamps strictly decrease along a list of content ids: newest first. */
  predicate NewestFirst(cs: ContentStore, ids: seq<string>)
    requires forall i :: 0 <= i < |ids| ==> ids[i] in cs.rows
  {
    forall i, j :: 0 <= i < j < |ids| ==> cs.rows[ids[i]].createdAt > cs.rows[ids[j]].createdAt
  }

  lemma {:induction false} MatchingIsNewestFirst(cs: ContentStore, ids: seq<string>, req: ListContentRequest)
    requires forall i :: 0 <= i < |ids| ==> ids[i] in cs.rows
    requires forall i, j :: 0 <= i < j < |ids| ==> cs.rows[ids[i]].createdAt < cs.rows[ids[j]].createdAt
    ensures NewestFirst(cs, MatchingNewestFirst(cs, ids, req))
    decreases |ids|
  {
    if |ids| > 0 {
      var init := ids[..|ids| - 1];
      MatchingIsNewestFirst(cs, init, req);
      var rest := MatchingNewestFirst(cs, init, req);
      var last := ids[|ids| - 1];
      forall i | 0 <= i < |rest|
        ensures cs.rows[rest[i]].createdAt < cs.rows[last].createdAt
      {
        var k :| 0 <= k < |init| && init[k] == rest[i];
        assert ids[k] == rest[i];
      }
    }
  }

  /** A slice of a newest-first list is newest first. */
  lemma PageNewestFirst(cs: ContentStore, ids: seq<string>, offset: nat, limit: nat)
    requires forall i :: 0 <= i < |ids| ==> ids[i] in cs.rows
    requires NewestFirst(cs, ids)
    ensures forall i :: 0 <= i < |Page(ids, offset, limit)| ==> Page(ids, offset, limit)[i] in ids
    ensures NewestFirst(cs, Page(ids, offset, limit))
  {
    var p := Page(ids, offset, limit);
    if offset <= |ids| {
      forall i | 0 <= i < |p| ensures p[i] == ids[offset + i] && p[i] in ids {}
    }
  }

  /** The elements of a list without repeats number as many as its length. */
  lemma {:induction false} DistinctCard<T>(s: seq<T>)
    requires forall i, j :: 0 <= i < j < |s| ==> s[i] != s[j]
    ensures |set x | x in s| == |s|
  {
    if |s| > 0 {
      DistinctCard(s[1..]);
      assert (set x | x in s) == {s[0]} + (set x | x in s[1..]) by {
        forall x | x in s ensures x == s[0] || x in s[1..] {
          var k :| 0 <= k < |s| && s[k] == x;
          if k > 0 { assert s[1..][k - 1] == x; }
        }
      }
      assert s[0] !in (set x | x in s[1..]) by {
        forall k | 0 <= k < |s| - 1 ensures s[1..][k] != s[0] {
          assert s[1..][k] == s[k + 1];
        }
      }
    }
  }

  /** How many rows a page holds: `take limit` after `skip offset` out of `total`. */
  function PageLength(total: nat, offset: nat, limit: nat): nat {
    if total <= offset then 0 else if total - offset < limit then total - offset else limit
  }

  /** The ids of the content rows that pass the filter. */
  ghost function MatchingIds(cs: ContentStore, req: ListContentRequest): set<string> {
    set id | id in cs.rows && ContentMatches(cs.rows[id], req)
  }

  /** The matching content rows created after stamp `t`. */
  ghost function MatchingNewerThan(cs: ContentStore, req: ListContentRequest, t: int): set<string> {
    set id | id in cs.rows && ContentMatches(cs.rows[id], req) && cs.rows[id].createdAt > t
  }

  /** The listed ids are exactly the matching rows, each once, newest first. */
  lemma MatchingListsAll(cs: ContentStore, req: ListContentRequest)
    requires ContentOrdered(cs)
    ensures var m := MatchingNewestFirst(cs, cs.order, req);
      && NewestFirst(cs, m)
      && (forall id :: id in m <==> id in MatchingIds(cs, req))
      && |m| == |MatchingIds(cs, req)|
  {
    var m := MatchingNewestFirst(cs, cs.order, req);
    MatchingIsNewestFirst(cs, cs.order, req);
    forall id | id in MatchingIds(cs, req) ensures id in m {
      var k :| 0 <= k < |cs.order| && cs.order[k] == id;
    }
    DistinctCard(m);
    assert (set x | x in m) == MatchingIds(cs, req);
  }

  /** In a newest-first list of exactly the matching rows, those newer than the `k`-th are the first `k`. */
  lemma NewerAreBefore(cs: ContentStore, req: ListContentRequest, m: seq<string>, k: nat)
    requires forall i :: 0 <= i < |m| ==> m[i] in cs.rows
    requires NewestFirst(cs, m)
    requires forall id :: id in m <==> id in MatchingIds(cs, req)
    requires k < |m|
    ensures MatchingNewerThan(cs, req, cs.rows[m[k]].createdAt) == set x | x in m[..k]
  {
    var t := cs.rows[m[k]].createdAt;
    forall x | x in MatchingNewerThan(cs, req, t) ensures x in m[..k] {
      assert x in MatchingIds(cs, req);
      var j :| 0 <= j < |m| && m[j] == x;
      if j >= k {
        assert false;
      }
      assert m[..k][j] == x;
    }
    forall x | x in m[..k] ensures x in MatchingNewerThan(cs, req, t) {
      var j :| 0 <= j < k && m[..k][j] == x;
      assert m[j] == x && x in MatchingIds(cs, req);
    }
  }

  /** The `k`-th listed id has exactly `k` matching rows newer than it. */
  lemma MatchingRank(cs: ContentStore, req: ListContentRequest, k: nat)
    requires ContentOrdered(cs)
    requires k < |MatchingNewestFirst(cs, cs.order, req)|
    ensures var m := MatchingNewestFirst(cs, cs.order, req);
      |MatchingNewerThan(cs, req, cs.rows[m[k]].createdAt)| == k
  {
    var m := MatchingNewestFirst(cs, cs.order, req);
    MatchingListsAll(cs, req);
    NewerAreBefore(cs, req, m, k);
    assert forall i, j :: 0 <= i < j < k ==> m[..k][i] == m[i] && m[..k][j] == m[j];
    DistinctCard(m[..k]);
  }

  /** On a page starting at `offset`, the `i`-th item has exactly `offset + i` matching rows newer than it. */
  lemma PageRanks(cs: ContentStore, req: ListContentRequest, offset: nat, limit: nat)
    requires ContentOrdered(cs)
    ensures var ids := Page(MatchingNewestFirst(cs, cs.order, req), offset, limit);
      forall i :: 0 <= i < |ids| ==>
        (ids[i] in cs.rows && |MatchingNewerThan(cs, req, cs.rows[ids[i]].createdAt)| == offset + i)
  {
    var ids := Page(MatchingNewestFirst(cs, cs.order, req), offset, limit);
    forall i | 0 <= i < |ids|
      ensures ids[i] in cs.rows && |MatchingNewerThan(cs, req, cs.rows[ids[i]].createdAt)| == offset + i
    {
      PageItemRank(cs, req, offset, limit, i);
    }
  }

  /** One item of a content page: its rank among the matches is its position plus the offset. */
  lemma PageItemRank(cs: ContentStore, req: ListContentRequest, offset: nat, limit: nat, i: nat)
    requires ContentOrdered(cs)
    requires i < |Page(MatchingNewestFirst(cs, cs.order, req), offset, limit)|
    ensures var ids := Page(MatchingNewestFirst(cs, cs.order, req), offset, limit);
      ids[i] in cs.rows && |MatchingNewerThan(cs, req, cs.rows[ids[i]].createdAt)| == offset + i
  {
    var m := MatchingNewestFirst(cs, cs.order, req);
    assert Page(m, offset, limit)[i] == m[offset + i];
    MatchingRank(cs, req, offset + i);
  }

  /** The rendered rows of a list of content ids, in the same order. */
  function MapContents(cs: ContentStore, ids: seq<string>): (r: seq<ContentView>)
    requires forall i :: 0 <= i < |ids| ==> ids[i] in cs.rows
    ensures |r| == |ids|
    ensures forall i :: 0 <= i < |ids| ==> r[i] == MapContent(ids[i], cs.rows[ids[i]])
  {
    if |ids| == 0 then [] else [MapContent(ids[0], cs.rows[ids[0]])] + MapContents(cs, ids[1..])
  }

  /**
    `listContent` with both filters honoured: a page of the matching content,
    newest first, at most 100 rows, and the number of matches.
  */
  function ListContent(db: Db, req: ListContentRequest): (r: ContentPage)
    requires ContentOrdered(db.content)
    ensures |r.items| <= ContentPageSize(req.limit) <= 100
    ensures forall i :: 0 <= i < |r.items| ==>
      && r.items[i].id in db.content.rows
      && ContentMatches(db.content.rows[r.items[i].id], req)
      && r.items[i] == MapContent(r.items[i].id, db.content.rows[r.items[i].id])
    ensures forall i, j :: 0 <= i < j < |r.items| ==> r.items[i].createdAt > r.items[j].createdAt
    ensures r.total == |MatchingIds(db.content, req)|
    ensures |r.items| == PageLength(r.total, OrDefault(req.offset, 0), ContentPageSize(req.limit))
    ensures forall i :: 0 <= i < |r.items| ==>
      |MatchingNewerThan(db.content, req, db.content.rows[r.items[i].id].createdAt)| == OrDefault(req.offset, 0) + i
  {
    var cs := db.content;
    var offset := OrDefault(req.offset, 0);
    var matching := MatchingNewestFirst(cs, cs.order, req);
    MatchingListsAll(cs, req);
    var ids := Page(matching, offset, ContentPageSize(req.limit));
    PageNewestFirst(cs, matching, offset, ContentPageSize(req.limit));
    PageRanks(cs, req, offset, ContentPageSize(req.limit));
    ContentPage(MapContents(cs, ids), |matching|)
  }

  /**
    `listContent` as written: the handler reads the filter from `sourceId`, but
    the request arrives with snake_case keys (`source_id`), so only the status
    filter ever applies.
  */
  function ListContentAsWritten(db: Db, req: ListContentRequest): (r: ContentPage)
    requires ContentOrdered(db.content)
    ensures r == ListContent(db, req.(sourceId := None))
  {
    ListContent(db, req.(sourceId := None))
  }

  /** A store with one row, from source "b". */
  function OneRowStore(): (cs: ContentStore)
    ensures ContentStoreValid(cs)
  {
    var row := ContentRow("m", "b", None, None, None, None, InitialContentStatus, None, false, None, None, 0);
    IssueNext(0);
    ContentStore(map[NatToString(0) := row], map[KeyOf(row) := NatToString(0)], [NatToString(0)], 1)
  }

  /** As written, asking for source "a" lists a row of source "b". */
  lemma SourceFilterIgnored()
    ensures var db := EmptyDb().(content := OneRowStore());
      var page := ListContentAsWritten(db, ListContentRequest(None, None, Some("a"), None));
      |page.items| == 1 && page.items[0].sourceId == "b"
  {
    var db := EmptyDb().(content := OneRowStore());
    var cs := db.content;
    var q := ListContentRequest(None, None, None, None);
    assert cs.order[..0] == [];
    assert MatchingNewestFirst(cs, cs.order, q) == [NatToString(0)];
  }

  datatype CreateContentRequest = CreateContentRequest(
    externalId: string,
    sourceId: string,
    text: Option<string>,
    rawData: Option<Json>,
    receivedViaId: Option<string>,
    sourceDate: Option<int>)

  /** Whether creating content for this request would break the unique index or the foreign key. */
  predicate CreateContentRejected(db: Db, req: CreateContentRequest) {
    ContentKey(req.sourceId, req.externalId) in db.content.keys || req.sourceId !in db.sources.rows
  }

  /** The row `createContent` inserts, before the store stamps it. */
  function NewContentRow(req: CreateContentRequest): ContentRow {
    ContentRow(req.externalId, req.sourceId, req.text, req.rawData, req.receivedViaId,
      req.sourceDate, InitialContentStatus, None, false, None, None, 0)
  }

  /**
    `createContent`. Every failure — a duplicate (sourceId, externalId) included —
    is reported as INTERNAL, never as a conflict.
  */
  function CreateContent(db: Db, req: CreateContentRequest): (r: Result<(Db, ContentView), RpcError>)
    requires ContentCounted(db.content)
    ensures r.Err? <==> CreateContentRejected(db, req)
    ensures r.Err? ==> r.error == RpcError(Internal, "Failed to create content")
    ensures r.Ok? ==>
      var (db', v) := r.value;
      && v.id !in db.content.rows
      && db' == db.(content := InsertContent(db.content, NewContentRow(req)).0)
      && v.id == InsertContent(db.content, NewContentRow(req)).1
      && v == MapContent(v.id, db'.content.rows[v.id])
      && v.externalId == req.externalId && v.sourceId == req.sourceId
      && !v.isVectorized && v.qdrantId == ""
  {
    if CreateContentRejected(db, req) then Err(RpcError(Internal, "Failed to create content"))
    else
      var (cs', id) := InsertContent(db.content, NewContentRow(req));
      Ok((db.(content := cs'), MapContent(id, cs'.rows[id])))
  }

  /** `createContent` keeps the store invariant. */
  lemma CreateContentPreservesValid(db: Db, req: CreateContentRequest)
    requires Valid(db)
    requires !CreateContentRejected(db, req)
    ensures Valid(CreateContent(db, req).value.0)
  {
    InsertContentValid(db.content, NewContentRow(req));
  }

  datatype UpdateContentRequest = UpdateContentRequest(
    id: string,
    text: Option<string>,
    isVectorized: Option<bool>,
    qdrantId: Option<string>,
    embeddingModel: Option<string>,
    aiAnalysis: Option<Json>,
    status: Option<string>)

  /** The fields of `req` that are not undefined overwrite the row; the rest are kept. */
  function ApplyContentUpdate(c: ContentRow, req: UpdateContentRequest): (c': ContentRow)
    ensures c'.text == (if req.text.Some? then req.text else c.text)
    ensures c'.isVectorized == (if req.isVectorized.Some? then req.isVectorized.value else c.isVectorized)
    ensures c'.qdrantId == (if req.qdrantId.Some? then req.qdrantId else c.qdrantId)
    ensures c'.embeddingModel == (if req.embeddingModel.Some? then req.embeddingModel else c.embeddingModel)
    ensures c'.aiAnalysis == (if req.aiAnalysis.Some? then req.aiAnalysis else c.aiAnalysis)
    ensures c'.status == (if req.status.Some? then req.status.value else c.status)
    ensures KeyOf(c') == KeyOf(c) && c'.createdAt == c.createdAt
    ensures c'.rawData == c.rawData && c'.sourceDate == c.sourceDate && c'.receivedViaId == c.receivedViaId
  {
    c.(
      text := if req.text.Some? then req.text else c.text,
      isVectorized := if req.isVectorized.Some? then req.isVectorized.value else c.isVectorized,
      qdrantId := if req.qdrantId.Some? then req.qdrantId else c.qdrantId,
      embeddingModel := if req.embeddingModel.Some? then req.embeddingModel else c.embeddingModel,
      aiAnalysis := if req.aiAnalysis.Some? then req.aiAnalysis else c.aiAnalysis,
      status := if req.status.Some? then req.status.value else c.status)
  }

  /** `updateContent`: any failure, a missing row included, is reported as NOT_FOUND. */
  function UpdateContent(db: Db, req: UpdateContentRequest): (r: Result<(Db, ContentView), RpcError>)
    ensures r.Err? <==> req.id !in db.content.rows
    ensures r.Err? ==> r.error == RpcError(NotFound, "Content not found or update failed")
    ensures r.Ok? ==>
      var (db', v) := r.value;
      && db' == db.(content := db.content.(rows := db.content.rows[req.id := ApplyContentUpdate(db.content.rows[req.id], req)]))
      && v == MapContent(req.id, db'.content.rows[req.id])
  {
    if req.id !in db.content.rows then Err(RpcError(NotFound, "Content not found or update failed"))
    else
      var row := ApplyContentUpdate(db.content.rows[req.id], req);
      Ok((db.(content := db.content.(rows := db.content.rows[req.id := row])), MapContent(req.id, row)))
  }

  /** `updateContent` keeps the store invariant. */
  lemma UpdateContentPreservesValid(db: Db, req: UpdateContentRequest)
    requires Valid(db)
    ensures UpdateContent(db, req).Ok? ==> Valid(UpdateContent(db, req).value.0)
  {
    if req.id in db.content.rows {
      ReplaceContentValid(db.content, req.id, ApplyContentUpdate(db.content.rows[req.id], req));
    }
  }

  /** An update whose fields are all undefined leaves the row as it was. */
  lemma EmptyUpdateKeepsRow(c: ContentRow, id: string)
    ensures ApplyContentUpdate(c, UpdateContentRequest(id, None, None, None, None, None, None)) == c
  {
  }

  /** Applying the same update twice is applying it once. */
  lemma UpdateIdempotent(c: ContentRow, req: UpdateContentRequest)
    ensures ApplyContentUpdate(ApplyContentUpdate(c, req), req) == ApplyContentUpdate(c, req)
  {
  }

  /** A created row is found again by its id, exactly as `createContent` returned it. */
  lemma CreateThenGet(db: Db, req: CreateContentRequest)
    requires ContentCounted(db.content)
    requires !CreateContentRejected(db, req)
    ensures var (db', v) := CreateContent(db, req).value; GetContent(db', v.id) == Ok(v)
  {
    var (db', v) := CreateContent(db, req).value;
    assert |v.id| > 0;
  }

  /** Creating the same (sourceId, externalId) twice fails the second time. */
  lemma CreateTwiceFails(db: Db, req: CreateContentRequest)
    requires Valid(db)
    requires !CreateContentRejected(db, req)
    ensures var db' := CreateContent(db, req).value.0;
      ContentCounted(db'.content) && CreateContent(db', req) == Err(RpcError(Internal, "Failed to create content"))
  {
    CreateContentPreservesValid(db, req);
  }

  /** The newest content comes first in an unfiltered listing. */
  lemma CreatedIsListedFirst(db: Db, req: CreateContentRequest)
    requires ContentOrdered(db.content) && ContentCounted(db.content)
    requires !CreateContentRejected(db, req)
    ensures var (db', v) := CreateContent(db, req).value;
      && ContentOrdered(db'.content)
      && var page := ListContent(db', ListContentRequest(None, None, None, None));
      |page.items| > 0 && page.items[0] == v
  {
    InsertContentOrdered(db.content, NewContentRow(req));
    var (db', v) := CreateContent(db, req).value;
    var cs' := db'.content;
    var q := ListContentRequest(None, None, None, None);
    assert cs'.order[|cs'.order| - 1] == v.id;
    assert cs'.order[..|cs'.order| - 1] == db.content.order;
    var m := MatchingNewestFirst(cs', cs'.order, q);
    assert m[0] == v.id;
    var ids := Page(m, 0, 10);
    assert ids[0] == v.id;
  }

  // ---------------------------------------------------------------------------
  // Topic handlers

  datatype UpdateTopicRequest = UpdateTopicRequest(
    id: string,
    title: Option<string>,
    summary: Option<string>,
    version: Option<int>,
    relevanceScore: Option<real>,
    isExpired: Option<bool>,
    embeddingModel: Option<string>,
    qdrantId: Option<string>,
    qdrantIdToNull: Option<string>)

  predicate TruthyInt(x: Option<int>) {
    x.Some? && x.value != 0
  }

  predicate TruthyReal(x: Option<real>) {
    x.Some? && x.value != 0.0
  }

  /**
    The topic fields `updateTopic` writes: a falsy value (absent, `''`, `0`) is
    ignored, `isExpired` is written whenever it is defined, and a truthy
    `qdrant_id_to_null` clears the vector id whatever `qdrant_id` says.
  */
  function ApplyTopicUpdate(t: TopicRow, req: UpdateTopicRequest): (t': TopicRow)
    ensures t'.title == (if Truthy(req.title) then req.title.value else t.title)
    ensures t'.summary == (if Truthy(req.summary) then req.summary else t.summary)
    ensures t'.version == (if TruthyInt(req.version) then req.version.value else t.version)
    ensures t'.relevanceScore == (if TruthyReal(req.relevanceScore) then req.relevanceScore.value else t.relevanceScore)
    ensures t'.isExpired == (if req.isExpired.Some? then req.isExpired.value else t.isExpired)
    ensures t'.embeddingModel == (if Truthy(req.embeddingModel) then req.embeddingModel else t.embeddingModel)
    ensures Truthy(req.qdrantIdToNull) ==> t'.qdrantId.None?
    ensures !Truthy(req.qdrantIdToNull) && Truthy(req.qdrantId) ==> t'.qdrantId == req.qdrantId
    ensures !Truthy(req.qdrantIdToNull) && !Truthy(req.qdrantId) ==> t'.qdrantId == t.qdrantId
  {
    var q := if Truthy(req.qdrantId) then req.qdrantId else t.qdrantId;
    TopicRow(
      if Truthy(req.title) then req.title.value else t.title,
      if Truthy(req.summary) then req.summary else t.summary,
      if TruthyInt(req.version) then req.version.value else t.version,
      if TruthyReal(req.relevanceScore) then req.relevanceScore.value else t.relevanceScore,
      if req.isExpired.Some? then req.isExpired.value else t.isExpired,
      if Truthy(req.embeddingModel) then req.embeddingModel else t.embeddingModel,
      if Truthy(req.qdrantIdToNull) then None else q)
  }

  /** `updateTopic`; a missing topic is a store error the handler does not catch. */
  function UpdateTopic(db: Db, req: UpdateTopicRequest): (r: Result<(Db, TopicRow), RpcError>)
    ensures r.Err? <==> req.id !in db.topics
    ensures r.Ok? ==>
      && r.value.1 == ApplyTopicUpdate(db.topics[req.id], req)
      && r.value.0 == db.(topics := db.topics[req.id := r.value.1])
  {
    if req.id !in db.topics then Err(RpcError(RpcCode.Unknown, UncaughtStoreError))
    else
      var t := ApplyTopicUpdate(db.topics[req.id], req);
      Ok((db.(topics := db.topics[req.id := t]), t))
  }

  /** `updateTopic` keeps the store invariant: no invariant mentions topics. */
  lemma UpdateTopicPreservesValid(db: Db, req: UpdateTopicRequest)
    requires Valid(db)
    ensures UpdateTopic(db, req).Ok? ==> Valid(UpdateTopic(db, req).value.0)
  {
  }

  /** An update with only falsy fields and no clearing leaves the topic as it was. */
  lemma FalsyTopicUpdateKeepsRow(t: TopicRow, id: string)
    ensures ApplyTopicUpdate(t, UpdateTopicRequest(id, Some(""), Some(""), Some(0), Some(0.0), None, Some(""), Some(""), Some(""))) == t
  {
  }

  /** Asking to clear the vector id and to set it at once clears it. */
  lemma ClearVectorIdWins(t: TopicRow, req: UpdateTopicRequest)
    requires Truthy(req.qdrantIdToNull) && Truthy(req.qdrantId)
    ensures ApplyTopicUpdate(t, req).qdrantId == None
  {
  }

  // ---------------------------------------------------------------------------
  // Publication handlers

  datatype ListPublicationsRequest = ListPublicationsRequest(
    limit: Option<nat>,
    offset: Option<nat>,
    status: Option<string>,
    targetId: Option<string>,
    onlyDue: bool)

  /** `only_due`: pending, or scheduled no later than `now`. */
  predicate IsDue(p: PublicationRow, now: int) {
    || p.status == StatusPending
    || (p.status == StatusScheduled && p.scheduledAt.Some? && p.scheduledAt.value <= now)
  }

  /** The `where` clause of `listPublications`. */
  predicate PublicationMatches(p: PublicationRow, req: ListPublicationsRequest, now: int) {
    && (Truthy(req.status) ==> p.status == req.status.value)
    && (Truthy(req.targetId) ==> p.targetId == req.targetId.value)
    && (req.onlyDue ==> IsDue(p, now))
  }

  /** The ids of `ids` that satisfy the filter, last first. */
  function PublicationsNewestFirst(ps: PublicationStore, ids: seq<string>, req: ListPublicationsRequest, now: int): (r: seq<string>)
    requires forall i :: 0 <= i < |ids| ==> ids[i] in ps.rows
    ensures forall i :: 0 <= i < |r| ==> r[i] in ps.rows && PublicationMatches(ps.rows[r[i]], req, now)
    ensures forall i :: 0 <= i < |r| ==> r[i] in ids
    ensures forall i :: 0 <= i < |ids| && PublicationMatches(ps.rows[ids[i]], req, now) ==> ids[i] in r
  {
    if |ids| == 0 then []
    else
      var rest := PublicationsNewestFirst(ps, ids[..|ids| - 1], req, now);
      var last := ids[|ids| - 1];
      if PublicationMatches(ps.rows[last], req, now) then [last] + rest else rest
  }

  /** Creation stamps strictly decrease along a list of publication ids: newest first. */
  predicate PublicationsDescending(ps: PublicationStore, ids: seq<string>)
    requires forall i :: 0 <= i < |ids| ==> ids[i] in ps.rows
  {
    forall i, j :: 0 <= i < j < |ids| ==> ps.rows[ids[i]].createdAt > ps.rows[ids[j]].createdAt
  }

  /** Filtering a creation-ordered list and reversing it gives a newest-first list. */
  lemma {:induction false} PublicationsListedNewestFirst(ps: PublicationStore, ids: seq<string>, req: ListPublicationsRequest, now: int)
    requires forall i :: 0 <= i < |ids| ==> ids[i] in ps.rows
    requires forall i, j :: 0 <= i < j < |ids| ==> ps.rows[ids[i]].createdAt < ps.rows[ids[j]].createdAt
    ensures PublicationsDescending(ps, PublicationsNewestFirst(ps, ids, req, now))
    decreases |ids|
  {
    if |ids| > 0 {
      var init := ids[..|ids| - 1];
      PublicationsListedNewestFirst(ps, init, req, now);
      var rest := PublicationsNewestFirst(ps, init, req, now);
      var last := ids[|ids| - 1];
      forall i | 0 <= i < |rest|
        ensures ps.rows[rest[i]].createdAt < ps.rows[last].createdAt
      {
        var k :| 0 <= k < |init| && init[k] == rest[i];
        assert ids[k] == rest[i];
      }
    }
  }

  /** The ids of the publications that pass the filter at `now`. */
  ghost function PublicationIds(ps: PublicationStore, req: ListPublicationsRequest, now: int): set<string> {
    set id | id in ps.rows && PublicationMatches(ps.rows[id], req, now)
  }

  /** The matching publications created after stamp `t`. */
  ghost function PublicationsNewerThan(ps: PublicationStore, req: ListPublicationsRequest, now: int, t: int): set<string> {
    set id | id in ps.rows && PublicationMatches(ps.rows[id], req, now) && ps.rows[id].createdAt > t
  }

  /** The listed ids are exactly the matching publications, each once, newest first. */
  lemma PublicationsListAll(ps: PublicationStore, req: ListPublicationsRequest, now: int)
    requires PublicationStoreValid(ps)
    ensures var m := PublicationsNewestFirst(ps, ps.order, req, now);
      && PublicationsDescending(ps, m)
      && (forall id :: id in m <==> id in PublicationIds(ps, req, now))
      && |m| == |PublicationIds(ps, req, now)|
  {
    var m := PublicationsNewestFirst(ps, ps.order, req, now);
    PublicationsListedNewestFirst(ps, ps.order, req, now);
    forall id | id in PublicationIds(ps, req, now) ensures id in m {
      var k :| 0 <= k < |ps.order| && ps.order[k] == id;
    }
    DistinctCard(m);
    assert (set x | x in m) == PublicationIds(ps, req, now);
  }

  /** In a newest-first list of exactly the matching publications, those newer than the `k`-th are the first `k`. */
  lemma PublicationsNewerAreBefore(ps: PublicationStore, req: ListPublicationsRequest, now: int, m: seq<string>, k: nat)
    requires forall i :: 0 <= i < |m| ==> m[i] in ps.rows
    requires PublicationsDescending(ps, m)
    requires forall id :: id in m <==> id in PublicationIds(ps, req, now)
    requires k < |m|
    ensures PublicationsNewerThan(ps, req, now, ps.rows[m[k]].createdAt) == set x | x in m[..k]
  {
    var t := ps.rows[m[k]].createdAt;
    forall x | x in PublicationsNewerThan(ps, req, now, t) ensures x in m[..k] {
      assert x in PublicationIds(ps, req, now);
      var j :| 0 <= j < |m| && m[j] == x;
      if j >= k {
        assert false;
      }
      assert m[..k][j] == x;
    }
    forall x | x in m[..k] ensures x in PublicationsNewerThan(ps, req, now, t) {
      var j :| 0 <= j < k && m[..k][j] == x;
      assert m[j] == x && x in PublicationIds(ps, req, now);
    }
  }

  /** The `k`-th listed publication has exactly `k` matching publications newer than it. */
  lemma PublicationRank(ps: PublicationStore, req: ListPublicationsRequest, now: int, k: nat)
    requires PublicationStoreValid(ps)
    requires k < |PublicationsNewestFirst(ps, ps.order, req, now)|
    ensures var m := PublicationsNewestFirst(ps, ps.order, req, now);
      |PublicationsNewerThan(ps, req, now, ps.rows[m[k]].createdAt)| == k
  {
    var m := PublicationsNewestFirst(ps, ps.order, req, now);
    PublicationsListAll(ps, req, now);
    PublicationsNewerAreBefore(ps, req, now, m, k);
    assert forall i, j :: 0 <= i < j < k ==> m[..k][i] == m[i] && m[..k][j] == m[j];
    DistinctCard(m[..k]);
  }

  /** On a page starting at `offset`, the `i`-th publication has exactly `offset + i` matching publications newer than it. */
  lemma PublicationPageRanks(ps: PublicationStore, req: ListPublicationsRequest, now: int, offset: nat, limit: nat)
    requires PublicationStoreValid(ps)
    ensures var ids := Page(PublicationsNewestFirst(ps, ps.order, req, now), offset, limit);
      forall i :: 0 <= i < |ids| ==>
        (&& ids[i] in ps.rows && PublicationMatches(ps.rows[ids[i]], req, now)
         && |PublicationsNewerThan(ps, req, now, ps.rows[ids[i]].createdAt)| == offset + i)
  {
    var ids := Page(PublicationsNewestFirst(ps, ps.order, req, now), offset, limit);
    forall i | 0 <= i < |ids|
      ensures && ids[i] in ps.rows && PublicationMatches(ps.rows[ids[i]], req, now)
              && |PublicationsNewerThan(ps, req, now, ps.rows[ids[i]].createdAt)| == offset + i
    {
      PublicationPageItemRank(ps, req, now, offset, limit, i);
    }
  }

  /** One item of a publication page: its rank among the matches is its position plus the offset. */
  lemma PublicationPageItemRank(ps: PublicationStore, req: ListPublicationsRequest, now: int, offset: nat, limit: nat, i: nat)
    requires PublicationStoreValid(ps)
    requires i < |Page(PublicationsNewestFirst(ps, ps.order, req, now), offset, limit)|
    ensures var ids := Page(PublicationsNewestFirst(ps, ps.order, req, now), offset, limit);
      && ids[i] in ps.rows && PublicationMatches(ps.rows[ids[i]], req, now)
      && |PublicationsNewerThan(ps, req, now, ps.rows[ids[i]].createdAt)| == offset + i
  {
    var m := PublicationsNewestFirst(ps, ps.order, req, now);
    assert Page(m, offset, limit)[i] == m[offset + i];
    PublicationRank(ps, req, now, offset + i);
  }

  /** A page of publication ids and the number of matches. */
  datatype PublicationPage = PublicationPage(ids: seq<string>, total: nat)

  /**
    `listPublications` at time `now`: a page (`skip offset || 0`, `take limit
    || 10`, not clamped) of the ids of the matching publications, newest
    first, and the number of matches.
  */
  function ListPublications(db: Db, req: ListPublicationsRequest, now: int): (r: PublicationPage)
    requires PublicationStoreValid(db.publications)
    ensures |r.ids| <= OrDefault(req.limit, 10)
    ensures forall i :: 0 <= i < |r.ids| ==>
      r.ids[i] in db.publications.rows && PublicationMatches(db.publications.rows[r.ids[i]], req, now)
    ensures r.total == |PublicationIds(db.publications, req, now)|
    ensures |r.ids| == PageLength(r.total, OrDefault(req.offset, 0), OrDefault(req.limit, 10))
    ensures forall i :: 0 <= i < |r.ids| ==>
      |PublicationsNewerThan(db.publications, req, now, db.publications.rows[r.ids[i]].createdAt)| == OrDefault(req.offset, 0) + i
  {
    var ps := db.publications;
    var offset := OrDefault(req.offset, 0);
    var matching := PublicationsNewestFirst(ps, ps.order, req, now);
    PublicationsListAll(ps, req, now);
    PublicationPageRanks(ps, req, now, offset, OrDefault(req.limit, 10));
    PublicationPage(Page(matching, offset, OrDefault(req.limit, 10)), |matching|)
  }

  datatype CreatePublicationRequest = CreatePublicationRequest(
    workspaceTopicId: string,
    targetId: string,
    topicVersion: int,
    scheduledAt: Option<int>,
    contentOverride: Option<Json>)

  /** The row `createPublication` inserts: SCHEDULED exactly when a schedule is given. */
  function NewPublicationRow(ps: PublicationStore, req: CreatePublicationRequest): PublicationRow {
    PublicationRow(req.workspaceTopicId, req.targetId, req.topicVersion, req.scheduledAt,
      req.contentOverride, if req.scheduledAt.Some? then StatusScheduled else StatusPending, ps.next)
  }

  /** Whether the foreign keys of a new publication are missing. */
  predicate CreatePublicationRejected(db: Db, req: CreatePublicationRequest) {
    req.targetId !in db.targetIds || req.workspaceTopicId !in db.workspaceTopicIds
  }

  /** `createPublication`: any failure is INTERNAL. */
  function CreatePublication(db: Db, req: CreatePublicationRequest): (r: Result<(Db, string), RpcError>)
    requires db.publications.rows.Keys <= IssuedIds(db.publications.next)
    ensures r.Err? <==> CreatePublicationRejected(db, req)
    ensures r.Err? ==> r.error == RpcError(Internal, "Failed to create publication")
    ensures r.Ok? ==>
      var (db', id) := r.value;
      var ps := db.publications;
      && id !in ps.rows
      && db' == db.(publications := PublicationStore(ps.rows[id := NewPublicationRow(ps, req)], ps.order + [id], ps.next + 1))
      && (db'.publications.rows[id].status == StatusScheduled <==> req.scheduledAt.Some?)
      && (db'.publications.rows[id].status == StatusPending <==> req.scheduledAt.None?)
  {
    if CreatePublicationRejected(db, req) then Err(RpcError(Internal, "Failed to create publication"))
    else
      var ps := db.publications;
      var id := NatToString(ps.next);
      NotIssuedYet(ps.next);
      Ok((db.(publications := PublicationStore(ps.rows[id := NewPublicationRow(ps, req)], ps.order + [id], ps.next + 1)), id))
  }

  /** `createPublication` keeps the store invariant. */
  lemma CreatePublicationPreservesValid(db: Db, req: CreatePublicationRequest)
    requires Valid(db)
    ensures CreatePublication(db, req).Ok? ==> Valid(CreatePublication(db, req).value.0)
  {
    if !CreatePublicationRejected(db, req) {
      InsertPublicationValid(db.publications, req);
    }
  }

  lemma InsertPublicationValid(ps: PublicationStore, req: CreatePublicationRequest)
    requires PublicationStoreValid(ps)
    ensures var id := NatToString(ps.next);
      PublicationStoreValid(PublicationStore(ps.rows[id := NewPublicationRow(ps, req)], ps.order + [id], ps.next + 1))
  {
    var id := NatToString(ps.next);
    var p := NewPublicationRow(ps, req);
    var ps' := PublicationStore(ps.rows[id := p], ps.order + [id], ps.next + 1);
    IssueNext(ps.next);
    forall i | 0 <= i < |ps.order|
      ensures ps'.rows[ps'.order[i]].createdAt < p.createdAt
    {
      assert ps.order[i] in ps.rows;
    }
  }

  /**
    A publication created without a schedule is always due; one scheduled at
    `t` is due exactly from `t` on.
  */
  lemma CreatedPublicationDue(db: Db, req: CreatePublicationRequest, now: int)
    requires db.publications.rows.Keys <= IssuedIds(db.publications.next)
    requires !CreatePublicationRejected(db, req)
    ensures var (db', id) := CreatePublication(db, req).value;
      IsDue(db'.publications.rows[id], now) <==> (req.scheduledAt.None? || req.scheduledAt.value <= now)
  {
  }

  /** A due-only listing that skips nothing shows a just-created unscheduled publication first. */
  lemma CreatedPendingIsListed(db: Db, req: CreatePublicationRequest, now: int)
    requires PublicationStoreValid(db.publications)
    requires !CreatePublicationRejected(db, req) && req.scheduledAt.None?
    ensures var (db', id) := CreatePublication(db, req).value;
      && PublicationStoreValid(db'.publications)
      && var q := ListPublicationsRequest(None, None, None, None, true);
      var listed := PublicationsNewestFirst(db'.publications, db'.publications.order, q, now);
      |listed| > 0 && listed[0] == id
  {
    var (db', id) := CreatePublication(db, req).value;
    InsertPublicationValid(db.publications, req);
    var q := ListPublicationsRequest(None, None, None, None, true);
    var ids := db'.publications.order;
    assert ids[|ids| - 1] == id;
    assert ids[..|ids| - 1] == db.publications.order;
    assert PublicationMatches(db'.publications.rows[id], q, now);
  }

  // ---------------------------------------------------------------------------
  // Similarity search

  const ContentCollection := "content_vectors"
  const TopicCollection := "topic_vectors"

  /** A search hit as the vector store returns it. */
  datatype ScoredPoint = ScoredPoint(payloadId: string, payloadText: string, score: real)

  datatype SearchItem = SearchItem(id: string, text: string, score: real)

  datatype SearchSimilarRequest = SearchSimilarRequest(vector: seq<real>, limit: Option<nat>, minScore: Option<real>)

  /** The vector store's search: collection, query vector, limit and optional score threshold. */
  type VectorSearch = (string, seq<real>, nat, Option<real>) -> seq<ScoredPoint>

  /** `searchSimilarContent` / `searchSimilarTopics` in the collection given. */
  function SearchSimilar(collection: string, req: SearchSimilarRequest, search: VectorSearch): (r: Result<seq<SearchItem>, RpcError>)
    ensures r.Err? <==> |req.vector| == 0
    ensures r.Err? ==> r.error == RpcError(InvalidArgument, "Vector required")
    ensures r.Ok? ==>
      var hits := search(collection, req.vector, OrDefault(req.limit, 10), req.minScore);
      && |r.value| == |hits|
      && forall i :: 0 <= i < |hits| ==> r.value[i] == SearchItem(hits[i].payloadId, hits[i].payloadText, hits[i].score)
  {
    if |req.vector| == 0 then Err(RpcError(InvalidArgument, "Vector required"))
    else
      var hits := search(collection, req.vector, OrDefault(req.limit, 10), req.minScore);
      Ok(seq(|hits|, i requires 0 <= i < |hits| => SearchItem(hits[i].payloadId, hits[i].payloadText, hits[i].score)))
  }

  // ---------------------------------------------------------------------------
  // User handlers

  /** `getUserById` */
  function GetUserById(db: Db, id: string): (r: Result<UserView, RpcError>)
    ensures r.Err? <==> (id == "" || id !in db.users.rows)
    ensures id == "" ==> r == Err(RpcError(InvalidArgument, "User ID required"))
    ensures id != "" && id !in db.users.rows ==> r == Err(RpcError(NotFound, "User not found"))
    ensures r.Ok? ==> r.value == MapUser(id, db.users.rows[id])
  {
    if id == "" then Err(RpcError(InvalidArgument, "User ID required"))
    else if id !in db.users.rows then Err(RpcError(NotFound, "User not found"))
    else Ok(MapUser(id, db.users.rows[id]))
  }

  /** `getUserByEmail`, through the unique email index. */
  function GetUserByEmail(db: Db, email: string): (r: Result<UserView, RpcError>)
    requires UserStoreValid(db.users)
    ensures r.Err? <==> (email == "" || forall id :: id in db.users.rows ==> db.users.rows[id].email != email)
    ensures email == "" ==> r == Err(RpcError(InvalidArgument, "Email required"))
    ensures r.Err? && email != "" ==> r == Err(RpcError(NotFound, "User not found"))
    ensures r.Ok? ==>
      && r.value.id in db.users.rows && r.value.email == email
      && r.value == MapUser(r.value.id, db.users.rows[r.value.id])
  {
    if email == "" then Err(RpcError(InvalidArgument, "Email required"))
    else if email !in db.users.emails then Err(RpcError(NotFound, "User not found"))
    else Ok(MapUser(db.users.emails[email], db.users.rows[db.users.emails[email]]))
  }

  /** `countUsers` */
  function CountUsers(db: Db): (n: nat)
    ensures n == 0 <==> db.users.rows == map[]
  {
    |db.users.rows|
  }

  datatype CreateUserRequest = CreateUserRequest(email: string, name: Option<string>, passwordHash: string, role: Option<string>)

  /** The row `createUser` inserts: an absent or empty role becomes USER; a new account is active. */
  function NewUserRow(req: CreateUserRequest): UserRow {
    UserRow(req.email, req.name, req.passwordHash,
      if Truthy(req.role) then req.role.value else DefaultUserRole, true, None, None, None, None)
  }

  /** `createUser`: a taken email is ALREADY_EXISTS. */
  function CreateUser(db: Db, req: CreateUserRequest): (r: Result<(Db, UserView), RpcError>)
    requires db.users.rows.Keys <= IssuedIds(db.users.next)
    ensures r.Err? <==> req.email in db.users.emails
    ensures r.Err? ==> r.error == RpcError(AlreadyExists, "User with this email already exists")
    ensures r.Ok? ==>
      var (db', v) := r.value;
      var us := db.users;
      && v.id !in us.rows
      && db' == db.(users := UserStore(us.rows[v.id := NewUserRow(req)], us.emails[req.email := v.id], us.next + 1))
      && v == MapUser(v.id, NewUserRow(req))
      && v.email == req.email && v.passwordHash == req.passwordHash
      && v.role == (if Truthy(req.role) then req.role.value else DefaultUserRole)
      && v.isActive && v.refreshTokenHash == ""
  {
    var us := db.users;
    if req.email in us.emails then Err(RpcError(AlreadyExists, "User with this email already exists"))
    else
      var id := NatToString(us.next);
      NotIssuedYet(us.next);
      Ok((db.(users := UserStore(us.rows[id := NewUserRow(req)], us.emails[req.email := id], us.next + 1)),
        MapUser(id, NewUserRow(req))))
  }

  /** `createUser` keeps the store invariant. */
  lemma CreateUserPreservesValid(db: Db, req: CreateUserRequest)
    requires Valid(db)
    ensures CreateUser(db, req).Ok? ==> Valid(CreateUser(db, req).value.0)
  {
    if req.email !in db.users.emails {
      InsertUserValid(db.users, req);
    }
  }

  lemma InsertUserValid(us: UserStore, req: CreateUserRequest)
    requires UserStoreValid(us)
    requires req.email !in us.emails
    ensures var id := NatToString(us.next);
      UserStoreValid(UserStore(us.rows[id := NewUserRow(req)], us.emails[req.email := id], us.next + 1))
  {
    IssueNext(us.next);
  }

  /** A created user is found again by email. */
  lemma CreateUserThenGetByEmail(db: Db, req: CreateUserRequest)
    requires UserStoreValid(db.users)
    requires req.email != "" && req.email !in db.users.emails
    ensures var (db', v) := CreateUser(db, req).value;
      UserStoreValid(db'.users) && GetUserByEmail(db', req.email) == Ok(v)
  {
    InsertUserValid(db.users, req);
  }

  /** `updateUserRefreshToken`: an empty hash is stored as null. */
  function UpdateUserRefreshToken(db: Db, id: string, hash: string): (r: Result<(Db, UserView), RpcError>)
    ensures r.Err? <==> id !in db.users.rows
    ensures r.Err? ==> r.error == RpcError(NotFound, "User not found")
    ensures r.Ok? ==>
      var (db', v) := r.value;
      var u := db.users.rows[id];
      && db' == db.(users := db.users.(rows := db.users.rows[id := u.(refreshTokenHash := if hash == "" then None else Some(hash))]))
      && v == MapUser(id, db'.users.rows[id])
      && v.refreshTokenHash == hash
  {
    if id !in db.users.rows then Err(RpcError(NotFound, "User not found"))
    else
      var u := db.users.rows[id].(refreshTokenHash := if hash == "" then None else Some(hash));
      Ok((db.(users := db.users.(rows := db.users.rows[id := u])), MapUser(id, u)))
  }

  /** `updateUserRefreshToken` keeps the store invariant. */
  lemma UpdateRefreshTokenPreservesValid(db: Db, id: string, hash: string)
    requires Valid(db)
    ensures UpdateUserRefreshToken(db, id, hash).Ok? ==> Valid(UpdateUserRefreshToken(db, id, hash).value.0)
  {
    if id in db.users.rows {
      assert db.users.rows[id := db.users.rows[id].(refreshTokenHash := if hash == "" then None else Some(hash))].Keys == db.users.rows.Keys;
    }
  }
}
