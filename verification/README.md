# content-manager core, modelled in Dafny

This project models the core of **content-manager**, a NestJS system that
collects Telegram channel posts, stores them, has AI providers analyse and
embed them, and lets workspaces manage their sources, targets and donors.
The model is pure Dafny: every service is a function over immutable state,
and everything outside the service (the network, the queues, the clock,
UUIDs, bcrypt and JWT, the AI endpoints) is a parameter.

| file | module | models |
|---|---|---|
| wrappers.dfy | Wrappers | `Option` and `Result` |
| text.dfy | Text | the JavaScript string operations the services use: `trim`, `split(sep).pop()`, `slice`, literal `replace(/p/g, '')` |
| decimal.dfy | Decimal | `${n}` for integers and `parseInt`, with its NaN |
| contracts.dfy | Contracts | the queue payloads and results shared by the apps |
| database.dfy | Database | the database gRPC controller over a store of content, sources, topics, publications and users; unique indexes are explicit, and `Valid` is the store invariant every handler keeps |
| storage.dfy | Storage | the storage queue processor: save (two upserts), vector update, analysis update |
| pipeline.dfy | Pipeline | `processContent`: the watermark filter, then one message after another through create, analyse, embed, vector upsert, enrich |
| telegram_sync.dfy | TelegramSync | the Telegram sync strategy: find the source, resolve the peer, fetch one page, run the pipeline, stamp `last_sync_at`, report |
| orchestrator.dfy | SyncOrchestrator | the sync orchestrator's dispatch by source type |
| legacy_sync.dfy | LegacySync | the older all-in-one source sync service |
| access.dfy | Access | the access checks of the workspaces, targets, donors and sources services, each operation returning the store call it would make |
| auth.dfy | Auth | register, login, refresh and logout over the user store, with signing and hashing as a `Crypto` value |
| telegram_parser.dfy | TelegramParser | the parser's client registry, session resolution, message service and job processor |
| ai_service.dfy | AiService | the AI job processor, the provider factory and the xAI and OpenAI providers over an abstract backend |
| dto.dfy | Dto | the class-validator rules of the request DTOs, as data, with a validator |

Two behaviours that might be expected otherwise are modelled as the code has them:

- `processMessage` throws on a message without text instead of skipping it (apps/core/src/pipeline/pipeline.service.ts:67-70);
- a duplicate `createContent` is an INTERNAL error, "Failed to create content", not a conflict treated as success (apps/database/src/grpc/database.grpc.controller.ts:98-100).

Neither `apps/core/src/main.ts` nor `core.module.ts` registers a
`ValidationPipe`, so the DTO decorators are declared but not applied.
`Dto` states what the decorators declare, not what a request is checked against.

## Model

| member | source | states |
|---|---|---|
| Database.InsertContent | apps/database/src/grpc/database.grpc.controller.ts:87-96 | a created content row gets an id no row has yet and the next creation stamp, and is registered under its (sourceId, externalId) key and at the end of the creation order |
| Database.InsertContentValid | apps/database/src/grpc/database.grpc.controller.ts:87-96 | inserting a row whose (sourceId, externalId) key is free keeps the content table's invariant: unique keys, a key index that agrees with the rows, creation stamps increasing along the creation order |
| Database.ReplaceContentValid | apps/database/src/grpc/database.grpc.controller.ts:115-118 | overwriting a row without touching its key or creation stamp keeps the content table's invariant |
| Database.InsertSourceValid | apps/database/src/processors/storage.processor.ts:58-73 | inserting a source whose (type, externalId) key is free keeps the source table's unique index consistent |
| Database.ReplaceSourceValid | apps/database/src/processors/storage.processor.ts:65-67 | overwriting a source without touching its (type, externalId) key keeps the source table's invariant |
| Database.EmptyDb | apps/database/src/grpc/database.grpc.controller.ts:45-52 | the empty store the services start from satisfies the store invariant |
| Database.MapContent | apps/database/src/grpc/database.grpc.controller.ts:433-448 | the content response carries the row's id, keys, flags and JSON unchanged, and renders a null optional string as the empty string, exactly when it was null or empty |
| Database.MapUser | apps/database/src/grpc/database.grpc.controller.ts:495-510 | the user response carries id, email, role, activity and password hash unchanged; a null refresh-token hash or name becomes the empty string |
| Database.MapSourceAsWritten | apps/database/src/grpc/database.grpc.controller.ts:450-460 | the source response as written carries id, type and external id but never the metadata |
| Database.MapSource | apps/database/src/grpc/database.grpc.controller.ts:450-460 | the source response with the metadata passed on differs from the one as written in the metadata alone; a null name or language becomes the empty string, and a stored one is rendered unchanged |
| Database.GetSource | apps/database/src/grpc/database.grpc.controller.ts:129-134 | a known source id gives the rendered row; any other id, the empty one included, is NOT_FOUND "Source not found" |
| Database.LookUpSource | apps/core/src/grpc/database.grpc.client.ts:480-487 | the client's lookup is null exactly for an unknown id and otherwise the server's answer |
| Database.GetSourceAsWritten | apps/database/src/grpc/database.grpc.controller.ts:129-134 | the handler as written fails exactly when the corrected one does, and otherwise returns the same source with its metadata dropped |
| Database.GetContent | apps/database/src/grpc/database.grpc.controller.ts:58-66 | an empty id is INVALID_ARGUMENT, an unknown one NOT_FOUND with the id in the message, and a known one gives the rendered row |
| Database.OrDefault | apps/database/src/grpc/database.grpc.controller.ts:70-71 | `x \|\| d` on an optional count: the count when present and non-zero, else the default |
| Database.ContentPageSize | apps/database/src/grpc/database.grpc.controller.ts:70 | the page size lies in 1..100: 10 when the limit is absent or 0, the limit when it is within 1..100, 100 above that |
| Database.MatchingNewestFirst | apps/database/src/grpc/database.grpc.controller.ts:72-77 | the listed ids are exactly those of the input that pass the source and status filters |
| Database.Page | apps/database/src/grpc/database.grpc.controller.ts:77 | `skip offset, take limit`: the contiguous slice starting at the offset, as long as the limit allows, empty past the end |
| Database.MatchingIsNewestFirst | apps/database/src/grpc/database.grpc.controller.ts:77 | filtering a list held in creation order and reversing it gives strictly decreasing creation stamps |
| Database.PageNewestFirst | apps/database/src/grpc/database.grpc.controller.ts:77 | a page of a newest-first list is itself newest first and holds only listed ids |
| Database.MatchingListsAll | apps/database/src/grpc/database.grpc.controller.ts:72-78 | the newest-first listing holds every matching row and nothing else, each once, so its length is the `count` of the same filter |
| Database.NewerAreBefore | apps/database/src/grpc/database.grpc.controller.ts:77 | in a newest-first list of exactly the matches, the matches newer than the `k`-th item are the first `k` items |
| Database.MatchingRank | apps/database/src/grpc/database.grpc.controller.ts:77 | the `k`-th row of the full newest-first listing has exactly `k` matching rows created after it |
| Database.PageRanks | apps/database/src/grpc/database.grpc.controller.ts:77 | after `skip offset`, the `i`-th item of the page has exactly `offset + i` matching rows created after it |
| Database.PageItemRank | apps/database/src/grpc/database.grpc.controller.ts:77 | one page item: a stored row whose rank among the matches is its position plus the offset |
| Database.MapContents | apps/database/src/grpc/database.grpc.controller.ts:81 | the rendered list has one item per id, in the same order |
| Database.ListContent | apps/database/src/grpc/database.grpc.controller.ts:68-82 | corrected `listContent`: `total` is the number of rows passing both filters. The page holds `min(total - offset, min(limit \|\| 10, 100))` items, none past the end. Each item is a matching stored row, rendered from the store. The `i`-th item has exactly `offset + i` matching rows newer than it, so the page is the matches newest first with `offset` skipped |
| Database.ListContentAsWritten | apps/database/src/grpc/database.grpc.controller.ts:73 | as written, the source filter never applies: the answer is the corrected listing of the same request with the source filter removed |
| Database.SourceFilterIgnored | apps/database/src/grpc/database.grpc.controller.ts:73 | counterexample: asking the handler as written for source "a" lists a row of source "b" |
| Database.CreateContent | apps/database/src/grpc/database.grpc.controller.ts:84-102 | creation fails, as INTERNAL "Failed to create content", exactly when the key is taken or the source is missing; otherwise a fresh row with the request's keys is added, not vectorized and without vector id, and returned rendered |
| Database.CreateContentPreservesValid | apps/database/src/grpc/database.grpc.controller.ts:84-102 | a successful create keeps the whole store invariant |
| Database.ApplyContentUpdate | apps/database/src/grpc/database.grpc.controller.ts:107-113 | each field of the update that is defined overwrites the row's field, every other field, the key and the creation stamp are kept |
| Database.UpdateContent | apps/database/src/grpc/database.grpc.controller.ts:104-123 | an unknown id is NOT_FOUND "Content not found or update failed"; a known one has exactly that row replaced by the updated one, and the answer renders it |
| Database.UpdateContentPreservesValid | apps/database/src/grpc/database.grpc.controller.ts:104-123 | a successful update keeps the store invariant |
| Database.EmptyUpdateKeepsRow | apps/database/src/grpc/database.grpc.controller.ts:107-113 | an update with every field undefined leaves the row unchanged |
| Database.UpdateIdempotent | apps/database/src/grpc/database.grpc.controller.ts:107-113 | applying the same update twice is the same as applying it once |
| Database.CreateThenGet | apps/database/src/grpc/database.grpc.controller.ts:58-102 | a created row is found again by its id, exactly as the create returned it |
| Database.CreateTwiceFails | apps/database/src/grpc/database.grpc.controller.ts:84-102 | creating the same (sourceId, externalId) a second time fails with INTERNAL |
| Database.CreatedIsListedFirst | apps/database/src/grpc/database.grpc.controller.ts:68-102 | right after a create, an unfiltered listing starts with the created item |
| Database.ApplyTopicUpdate | apps/database/src/grpc/database.grpc.controller.ts:192-200 | falsy values (absent, empty, 0) leave a topic field alone, `is_expired` is written whenever defined, and a truthy `qdrant_id_to_null` string clears the vector id whatever `qdrant_id` says |
| Database.UpdateTopic | apps/database/src/grpc/database.grpc.controller.ts:190-207 | a missing topic is an uncaught store error; otherwise only that topic changes, to the updated one |
| Database.UpdateTopicPreservesValid | apps/database/src/grpc/database.grpc.controller.ts:190-207 | a topic update keeps the store invariant |
| Database.FalsyTopicUpdateKeepsRow | apps/database/src/grpc/database.grpc.controller.ts:193-199 | an update whose fields are all falsy, without clearing, leaves the topic unchanged |
| Database.ClearVectorIdWins | apps/database/src/grpc/database.grpc.controller.ts:199-200 | asking to set and to clear the vector id at once clears it |
| Database.PublicationsNewestFirst | apps/database/src/grpc/database.grpc.controller.ts:235-246 | the listed publications are exactly those that pass the status, target and due filters at time `now` |
| Database.PublicationsListedNewestFirst | apps/database/src/grpc/database.grpc.controller.ts:246 | filtering the creation-ordered publications and reversing them gives strictly decreasing creation stamps |
| Database.PublicationsListAll | apps/database/src/grpc/database.grpc.controller.ts:235-247 | the newest-first publication listing holds every matching publication and nothing else, each once, so its length is the `count` of the same filter |
| Database.PublicationsNewerAreBefore | apps/database/src/grpc/database.grpc.controller.ts:246 | in a newest-first list of exactly the matching publications, those newer than the `k`-th are the first `k` |
| Database.PublicationRank | apps/database/src/grpc/database.grpc.controller.ts:246 | the `k`-th publication of the full newest-first listing has exactly `k` matching publications created after it |
| Database.PublicationPageRanks | apps/database/src/grpc/database.grpc.controller.ts:246 | after `skip offset`, the `i`-th id of the page is a matching publication with exactly `offset + i` matching publications created after it |
| Database.PublicationPageItemRank | apps/database/src/grpc/database.grpc.controller.ts:246 | one publication on a page: its rank among the matches is its position plus the offset |
| Database.ListPublications | apps/database/src/grpc/database.grpc.controller.ts:233-250 | `total` is the number of publications passing the status, target and due filters at `now`. The page holds `min(total - offset, limit \|\| 10)` ids (not clamped at 100), each a matching publication. The `i`-th id has exactly `offset + i` matching publications newer than it |
| Database.CreatePublication | apps/database/src/grpc/database.grpc.controller.ts:252-270 | a created publication gets a fresh id and is SCHEDULED exactly when a schedule is given and PENDING exactly when none is; any failure is INTERNAL "Failed to create publication" |
| Database.CreatePublicationPreservesValid | apps/database/src/grpc/database.grpc.controller.ts:252-270 | a successful create keeps the store invariant |
| Database.InsertPublicationValid | apps/database/src/grpc/database.grpc.controller.ts:255-264 | adding a publication under the next id keeps the publication table's invariant |
| Database.CreatedPublicationDue | apps/database/src/grpc/database.grpc.controller.ts:238-262 | a publication created without a schedule is always due; one scheduled at `t` is due exactly from `t` on |
| Database.CreatedPendingIsListed | apps/database/src/grpc/database.grpc.controller.ts:233-270 | a due-only listing shows a just-created unscheduled publication first |
| Database.SearchSimilar | apps/database/src/grpc/database.grpc.controller.ts:321-363 | an empty vector is INVALID_ARGUMENT "Vector required"; otherwise one item per hit of the vector search with `limit \|\| 10`, in the search's order, carrying the hit's payload id, text and score |
| Database.GetUserById | apps/database/src/grpc/database.grpc.controller.ts:369-377 | an empty id is INVALID_ARGUMENT, an unknown one NOT_FOUND, a known one the rendered user |
| Database.GetUserByEmail | apps/database/src/grpc/database.grpc.controller.ts:379-387 | an empty email is INVALID_ARGUMENT; it fails exactly when no user has that email, and otherwise returns the user with that email |
| Database.CountUsers | apps/database/src/grpc/database.grpc.controller.ts:423-427 | the count is zero exactly when there is no user |
| Database.CreateUser | apps/database/src/grpc/database.grpc.controller.ts:389-408 | a taken email is ALREADY_EXISTS; otherwise a fresh active user with the request's email and hash, role `role \|\| 'USER'` and no refresh token is added and indexed by email |
| Database.CreateUserPreservesValid | apps/database/src/grpc/database.grpc.controller.ts:389-408 | a successful create keeps the store invariant, the email index included |
| Database.InsertUserValid | apps/database/src/grpc/database.grpc.controller.ts:393-400 | adding a user with a free email under the next id keeps the user table's invariant |
| Database.CreateUserThenGetByEmail | apps/database/src/grpc/database.grpc.controller.ts:379-408 | a created user is found again by email, exactly as the create returned it |
| Database.UpdateUserRefreshToken | apps/database/src/grpc/database.grpc.controller.ts:410-421 | an unknown id is NOT_FOUND; otherwise only the user's hash changes, an empty hash being stored as null, and the answer echoes the hash |
| Database.UpdateRefreshTokenPreservesValid | apps/database/src/grpc/database.grpc.controller.ts:410-421 | a refresh-token update keeps the store invariant |
| Database.NotIssuedYet | apps/database/src/grpc/database.grpc.controller.ts:87 | the id the store issues next was never issued before, standing in for the store's UUID default |
| Database.IssueNext | apps/database/src/grpc/database.grpc.controller.ts:87 | issuing an id adds exactly that id to the issued ones |
| Storage.UpsertSource | apps/database/src/processors/storage.processor.ts:58-73 | the source upsert keyed on (type, externalId): a known key keeps its row and id, with the name replaced only when one is given; an unknown key creates a fresh row with the given name |
| Storage.UpsertSourceValid | apps/database/src/processors/storage.processor.ts:58-73 | the source upsert keeps the source table's invariant and removes no row |
| Storage.ResaveRow | apps/database/src/processors/storage.processor.ts:87-91 | the update branch writes the text when defined, the raw data always, the date when given, and keeps the vector id, status, analysis, key and creation stamp |
| Storage.UpsertContent | apps/database/src/processors/storage.processor.ts:80-100 | the content upsert keyed on (sourceId, externalId): a known key rewrites its row in place; an unknown key inserts a fresh row carrying the drawn vector id |
| Storage.UpsertContentValid | apps/database/src/processors/storage.processor.ts:80-100 | the content upsert keeps the content table's invariant and removes no row |
| Storage.HandleSaveContent | apps/database/src/processors/storage.processor.ts:54-110 | a save upserts the source, then the content under the given external id or a fresh UUID, and answers with the content id, the source id and the row's vector id |
| Storage.SaveContentPreservesValid | apps/database/src/processors/storage.processor.ts:54-110 | a save keeps the whole store invariant, including that every content row belongs to an existing source |
| Storage.SavedRowsKeepSources | apps/database/src/processors/storage.processor.ts:80-100 | after the content upsert every content row still refers to an existing source |
| Storage.SaveTwiceKeepsOneRow | apps/database/src/processors/storage.processor.ts:54-110 | saving the same keyed payload twice answers twice with the same ids, adds no row, and leaves the row with the second save's fields |
| Storage.ResaveSourceSameId | apps/database/src/processors/storage.processor.ts:58-73 | upserting the same source twice gives the same id and adds no row |
| Storage.ResaveContentSameId | apps/database/src/processors/storage.processor.ts:80-100 | upserting the same content twice gives the same id, adds no row and keeps the vector id drawn the first time |
| Storage.SaveWithoutExternalIdCreates | apps/database/src/processors/storage.processor.ts:76-77 | a save without an external id, whose drawn UUID is unused, creates a new row under that UUID and leaves every existing row as it was |
| Storage.UpdateVectorIn | apps/database/src/processors/storage.processor.ts:115-148 | a missing row is "Content not found: <id>"; otherwise the row's vector id is reused or a fresh one taken, the write's failure is the handler's failure, and on success only that row changes, to vectorized with that id |
| Storage.HandleUpdateVector | apps/database/src/processors/storage.processor.ts:115-148 | the corrected handler writes the point to the content collection and marks the row vectorized whenever it succeeds |
| Storage.HandleUpdateVectorAsWritten | apps/database/src/processors/storage.processor.ts:131-134 | as written, the point's id is passed where the vector store expects the collection name, so the write goes to a collection named after the point |
| Storage.VectorWriteMisdirected | apps/database/src/storage/qdrant.service.ts:61-71 | against a store holding only the two service collections, the handler as written fails for every row whose vector id is not a collection name |
| Storage.ContentOnlyStore | apps/database/src/storage/qdrant.service.ts:61-71 | a concrete vector store that accepts every point written to the content collection and nothing else |
| Storage.VectorWriteMisdirectedExample | apps/database/src/processors/storage.processor.ts:128-134 | counterexample: on a row without a vector id, the corrected handler succeeds where the one as written fails |
| Storage.UpdateVectorPreservesValid | apps/database/src/processors/storage.processor.ts:137-143 | a vector update keeps the store invariant |
| Storage.UpdateVectorReusesId | apps/database/src/processors/storage.processor.ts:128 | once a row is vectorized, a second update answers with the same vector id and leaves the store as it was, whatever UUID it draws |
| Storage.HandleUpdateAiAnalysis | apps/database/src/processors/storage.processor.ts:153-166 | only the analysis of the row changes; a missing row is the store's uncaught error |
| Storage.UpdateAiAnalysisPreservesValid | apps/database/src/processors/storage.processor.ts:153-166 | an analysis update keeps the store invariant |
| Storage.Process | apps/database/src/processors/storage.processor.ts:27-49 | the job name picks the handler and a handler's error is rethrown; an unknown name is answered with null and changes nothing |
| Pipeline.ExtractMessageId | apps/core/src/pipeline/pipeline.service.ts:140-143 | the message id is `parseInt` of the part after the last `:`, and 0 when that part is empty |
| Pipeline.Watermark | apps/core/src/pipeline/pipeline.service.ts:26-27 | the watermark is 0 for a source without content and otherwise the message id read from its latest content's external id |
| Pipeline.NewMessages | apps/core/src/pipeline/pipeline.service.ts:32 | the kept messages are exactly those whose id exceeds the watermark: all of them, unchanged, when all are newer, and none when the watermark is NaN |
| Pipeline.DerivedIdReadsBack | apps/core/src/pipeline/pipeline.service.ts:65 | the external id stored for a message, `<source external id>:<message id>`, reads back as the message id: the round trip of the watermark |
| Pipeline.NonNumericTailIsNaN | apps/core/src/pipeline/pipeline.service.ts:142 | an external id whose last segment starts with neither a digit, a sign nor blank reads back as NaN |
| Pipeline.NonNumericWatermarkExample | apps/core/src/pipeline/pipeline.service.ts:27 | a latest content stored as `news:abc` gives a NaN watermark |
| Pipeline.SourceDate | apps/core/src/pipeline/pipeline.service.ts:80 | the content date is present exactly when the message date is non-zero, and is the date in milliseconds |
| Pipeline.EnrichRequest | apps/core/src/pipeline/pipeline.service.ts:123-129 | the final update writes the analysis, status `ready`, the vector id, and the vectorized flag computed from that id, and leaves the text alone |
| Pipeline.ProcessMessage | apps/core/src/pipeline/pipeline.service.ts:64-135 | a message without text fails with "No text content" and changes nothing; a rejected create fails with the INTERNAL error and changes nothing; the content table stays counted |
| Pipeline.ProcessedMessageStored | apps/core/src/pipeline/pipeline.service.ts:64-135 | a message that passes every stage was analysed and embedded and is stored once under its derived external id and its source, enriched with its analysis, status `ready`, and vectorized exactly when the vector store answered with a non-empty id |
| Pipeline.NoTextIsError | apps/core/src/pipeline/pipeline.service.ts:68-71 | a message whose text is absent or blank is an error before anything is created |
| Pipeline.DuplicateIsError | apps/core/src/pipeline/pipeline.service.ts:75-81 | a message whose content already exists is an INTERNAL error and changes nothing |
| Pipeline.AnalyzeFailureStops | apps/core/src/pipeline/pipeline.service.ts:92-95 | when analysis fails the outcome does not depend on the embedding or vector services, and the error is the analysis error |
| Pipeline.EmbedFailureStops | apps/core/src/pipeline/pipeline.service.ts:99-101 | when embedding fails the outcome does not depend on the vector service; the message is an error and its row keeps the initial status |
| Pipeline.VectorFailureNonFatal | apps/core/src/pipeline/pipeline.service.ts:106-118 | a failed vector upsert is not an error: the row is still enriched to `ready`, only not vectorized |
| Pipeline.ProcessMessagePreservesValid | apps/core/src/pipeline/pipeline.service.ts:64-135 | processing one message keeps the store invariant |
| Pipeline.ProcessAll | apps/core/src/pipeline/pipeline.service.ts:43-52 | every message of the batch is counted either as created or by one error entry |
| Pipeline.ProcessAllStep | apps/core/src/pipeline/pipeline.service.ts:43-52 | the batch handles the first message, then the rest from the store it left; a failure adds one `Message <id>: <error>` entry and does not stop the batch |
| Pipeline.FirstFailureReported | apps/core/src/pipeline/pipeline.service.ts:47-50 | when the first message fails, the first error entry names it and its error |
| Pipeline.ProcessAllPreservesValid | apps/core/src/pipeline/pipeline.service.ts:43-52 | the whole batch keeps the store invariant |
| Pipeline.FailingEmbedCreatesNothing | apps/core/src/pipeline/pipeline.service.ts:99-101 | with an embedding service that always fails, no message is ever counted as created |
| Pipeline.ProcessContentSpec | apps/core/src/pipeline/pipeline.service.ts:24-55 | created, skipped and failed add up to the number of raw messages, and skipped counts the messages not newer than the watermark |
| Pipeline.AccountsStep | apps/core/src/pipeline/pipeline.service.ts:43-52 | one more loop iteration keeps the counters and error list in step with the batch function |
| Pipeline.ProcessBatch | apps/core/src/pipeline/pipeline.service.ts:43-52 | the loop computes exactly what the batch function does: same store, created count and error list |
| Pipeline.ProcessContent | apps/core/src/pipeline/pipeline.service.ts:24-55 | the method agrees with the functional description, and created, skipped and failed add up to the number of raw messages |
| Pipeline.NaNWatermarkSkipsAll | apps/core/src/pipeline/pipeline.service.ts:27-38 | a NaN watermark skips every message and writes nothing |
| Pipeline.FirstSyncTakesPositiveIds | apps/core/src/pipeline/pipeline.service.ts:26-32 | for a source without content every message with a positive id is new |
| Decimal.NatToString | apps/core/src/pipeline/pipeline.service.ts:65 | the rendering of a natural number is digits only, without a leading zero, and has the number as its value |
| Decimal.ParseIntOfIntToString | apps/core/src/pipeline/pipeline.service.ts:142 | `parseInt` reads every rendered integer back |
| Decimal.IntToStringInjective | apps/core/src/pipeline/pipeline.service.ts:65 | distinct message ids render to distinct strings |
| Decimal.ParseIntNaN | apps/core/src/pipeline/pipeline.service.ts:142 | `parseInt` of a text whose first non-blank character is neither a sign nor a digit is NaN |
| Text.AfterLast | apps/core/src/pipeline/pipeline.service.ts:141-142 | the last piece of `split(sep)` is a suffix free of the separator, preceded by the separator unless it is the whole text |
| Text.AfterLastAppend | apps/core/src/pipeline/pipeline.service.ts:141-142 | splitting `a + sep + b` ends with `b` whenever `b` holds no separator |
| Text.Trim | apps/core/src/pipeline/pipeline.service.ts:68 | the trimmed text is the piece of the original between a whitespace prefix and a whitespace suffix, and it neither starts nor ends with whitespace, so exactly the whitespace at both ends is removed |
| Text.BlankIffAllWhitespace | apps/core/src/pipeline/pipeline.service.ts:68 | a text trims to the empty string exactly when all of it is whitespace |
| Text.TrimIdempotent | apps/ai-service/src/providers/xai/xai.provider.ts:53 | trimming twice is trimming once |
| Text.Take | apps/ai-service/src/providers/openai/openai.provider.ts:72-76 | `slice(0, n)` is the prefix of length `min(n, length)` |
| Text.RemoveAllAbsent | apps/ai-service/src/providers/xai/xai.provider.ts:53 | removing a pattern the text does not contain leaves it unchanged |
| Text.RemoveAllKeepsPrefix | apps/ai-service/src/providers/xai/xai.provider.ts:53 | removing a pattern from `x + y` keeps a prefix `x` that cannot start the pattern |
| Decimal.IntToString | apps/core/src/pipeline/pipeline.service.ts:65 | the rendering of an integer is non-empty and holds no `:`, so it is one segment of an external id |
| Text.RemoveAll | apps/ai-service/src/providers/xai/xai.provider.ts:53 | removing every occurrence of a pattern never lengthens the text |
| AiService.AsciiLower | apps/ai-service/src/providers/ai-provider.factory.ts:14 | lower-casing keeps the length and maps exactly the capital letters to small ones |
| AiService.GetProvider | apps/ai-service/src/providers/ai-provider.factory.ts:13-22 | the factory answers with the xAI provider exactly for `xai` in any letter case, and otherwise refuses with "Unsupported AI provider: <name>" |
| AiService.XaiCaseInsensitive | apps/ai-service/src/providers/ai-provider.factory.ts:14-16 | `xai`, `XAI`, `xAI` and `XaI` all select the xAI provider |
| AiService.OtherProvidersRefused | apps/ai-service/src/providers/ai-provider.factory.ts:17-20 | OpenAI and Gemini, in any letter case, are refused: their cases are commented out |
| AiService.CleanJson | apps/ai-service/src/providers/xai/xai.provider.ts:53 | removing the code fences and trimming never lengthens the reply |
| AiService.PlainReplyTrimmed | apps/ai-service/src/providers/xai/xai.provider.ts:53 | a reply without backticks is only trimmed |
| AiService.FencedReplyUnwrapped | apps/ai-service/src/providers/xai/xai.provider.ts:52-53 | a reply wrapped in a json code fence is unwrapped to its trimmed body |
| AiService.XaiGenerateText | apps/ai-service/src/providers/xai/xai.provider.ts:24-38 | the endpoint's answer or error is passed through, under the given model or `grok-4-1-fast-reasoning` when none or an empty one is given |
| AiService.XaiAnalyzeText | apps/ai-service/src/providers/xai/xai.provider.ts:40-63 | analysis never fails: a failed call or an unparsable cleaned reply gives the fixed fallback, otherwise the parsed cleaned reply |
| AiService.XaiReadsFencedReply | apps/ai-service/src/providers/xai/xai.provider.ts:49-54 | a fenced JSON reply is analysed as its trimmed body |
| AiService.XaiGenerateEmbedding | apps/ai-service/src/providers/xai/xai.provider.ts:65-68 | the xAI provider's embedding fails on every input with "Embedding generation not implemented for xAI provider" |
| AiService.OpenAiGenerateText | apps/ai-service/src/providers/openai/openai.provider.ts:25-39 | the endpoint's answer or error is passed through, under the given model or `gpt-4o-mini` when none or an empty one is given |
| AiService.OpenAiFallback | apps/ai-service/src/providers/openai/openai.provider.ts:72-76 | the fallback summary is at most the first 100 characters of the text followed by `...`, with unknown sentiment and no keywords |
| AiService.OpenAiAnalyzeText | apps/ai-service/src/providers/openai/openai.provider.ts:41-78 | analysis never fails: the structured answer when the call succeeds, the truncated-text fallback otherwise |
| AiService.OpenAiGenerateEmbedding | apps/ai-service/src/providers/openai/openai.provider.ts:80-95 | the embedding is the endpoint's vector for the text under `text-embedding-3-small`, errors passed through |
| AiService.ProviderName | apps/ai-service/src/processors/ai.processor.ts:49 | `provider \|\| 'xai'`: never empty, the given name when non-empty, `xai` otherwise |
| AiService.EmbeddingProviderFor | apps/ai-service/src/processors/ai.processor.ts:62-64 | an embedding job uses the factory's provider for a non-empty name and the default embedding provider otherwise |
| AiService.HandleGenerateEmbedding | apps/ai-service/src/processors/ai.processor.ts:60-73 | it succeeds exactly when provider selection and embedding do, and then returns that embedding with model `text-embedding-3-small` and its length as dimension count |
| AiService.Process | apps/ai-service/src/processors/ai.processor.ts:26-58 | the job name picks the handler. Text generation with a provider name other than `xai` fails as an unsupported provider; with `xai` it succeeds exactly when the xAI call does, with that text or that error. Analysis succeeds exactly when the name is `xai` in some case. Embeddings follow the embedding handler. Errors are rethrown |
| AiService.TextJobDefaultsToXai | apps/ai-service/src/processors/ai.processor.ts:48-52 | text generation without a provider name goes to xAI with the job's prompt and options |
| AiService.AnalysisJobFailsOnlyOnProvider | apps/ai-service/src/processors/ai.processor.ts:54-58 | an analysis job fails exactly when it names a provider other than xAI, with the factory's refusal |
| AiService.NamedEmbeddingProviderFails | apps/ai-service/src/processors/ai.processor.ts:62-66 | an embedding job that names its provider always fails: the factory only knows xAI and xAI has no embeddings |
| AiService.DefaultEmbeddingFromOpenAi | apps/ai-service/src/processors/ai.processor.ts:60-73 | with OpenAI as the default embedding provider, an unnamed embedding job returns the endpoint's vector, the fixed model name and the vector's length |
| AiService.UnknownJobIgnored | apps/ai-service/src/processors/ai.processor.ts:37-38 | an unknown job calls no provider and returns nothing |
| TelegramSync.ResolvePeer | apps/core/src/sources/telegram/telegram-sync.service.ts:70-73 | the peer is the metadata username when that is truthy, and the external id otherwise |
| TelegramSync.FetchLimit | apps/core/src/sources/telegram/telegram-sync.service.ts:39 | `limit \|\| 50` is positive, and is 50 exactly when the limit is absent, 0 or 50 |
| TelegramSync.FetchFor | apps/core/src/sources/telegram/telegram-sync.service.ts:37-41 | the one fetch of a run asks from offset 0 for a positive number of messages |
| TelegramSync.Report | apps/core/src/sources/telegram/telegram-sync.service.ts:54-64 | the result names the source, counts the fetched messages, copies the pipeline's statistics and measures the duration on the clock |
| TelegramSync.SyncSource | apps/core/src/sources/telegram/telegram-sync.service.ts:17-65 | a completed run reports the source it was asked for, and its created, skipped and failed counts add up to the fetched messages |
| TelegramSync.MissingSourceFetchesNothing | apps/core/src/sources/telegram/telegram-sync.service.ts:21-25 | an unknown source fails with "Source not found: <id>", writes nothing and does not depend on the parser or the pipeline |
| TelegramSync.WrongTypeFetchesNothing | apps/core/src/sources/telegram/telegram-sync.service.ts:27-29 | a source of another type fails with the type in the message, before anything is fetched or written |
| TelegramSync.OneFetch | apps/core/src/sources/telegram/telegram-sync.service.ts:34-41 | the run depends on the parser only through the one request for the resolved peer, the limit and offset 0 |
| TelegramSync.FetchFailurePropagates | apps/core/src/sources/telegram/telegram-sync.service.ts:37-41 | a failed fetch is the run's error and nothing is written |
| TelegramSync.ReportCopiesStats | apps/core/src/sources/telegram/telegram-sync.service.ts:43-64 | a completed run reports the number of fetched messages, the pipeline's statistics unchanged, and the source's name or else its external id |
| TelegramSync.UpdateFailureKeepsContent | apps/core/src/sources/telegram/telegram-sync.service.ts:46-51 | a failing `last_sync_at` write fails the run after processing, and the content the pipeline stored stays |
| TelegramSync.SyncPreservesValid | apps/core/src/sources/telegram/telegram-sync.service.ts:17-65 | a run keeps the store invariant, whatever its outcome |
| TelegramSync.StoredUsernameIsPeer | apps/core/src/sources/telegram/telegram-sync.service.ts:70-73 | with the stored metadata passed on, a source's truthy username is the peer |
| TelegramSync.PeerIgnoresUsernameAsWritten | apps/database/src/grpc/database.grpc.controller.ts:450-460 | through the `getSource` handler as written the peer is always the external id |
| TelegramSync.UsernameDroppedExample | apps/core/src/sources/telegram/telegram-sync.service.ts:71-72 | counterexample: a channel stored with username `news` and id `-1001` is fetched as `-1001` as written, and as `news` with the metadata passed on |
| SyncOrchestrator.GetSyncService | apps/core/src/sources/sync/source-sync-orchestrator.service.ts:39-53 | only `telegram` has a strategy; any other type is refused with "Unsupported source type: <type>" |
| SyncOrchestrator.Orchestrate | apps/core/src/sources/sync/source-sync-orchestrator.service.ts:20-34 | an unknown source fails with "Source not found", and a completed run is always of a Telegram source |
| SyncOrchestrator.DelegatesTelegram | apps/core/src/sources/sync/source-sync-orchestrator.service.ts:29-33 | for a Telegram source the orchestrator's run is exactly the Telegram strategy's run with the same options |
| SyncOrchestrator.UnsupportedTypeRefused | apps/core/src/sources/sync/source-sync-orchestrator.service.ts:50-51 | a source of an unsupported type is refused before any strategy runs: nothing is fetched or written |
| SyncOrchestrator.OrchestratedRunIsStrategyRun | apps/core/src/sources/sync/source-sync-orchestrator.service.ts:20-34 | the orchestrator and the strategy leave the same store on every source, and agree on every completed run |
| LegacySync.FindContentByExternalId | apps/core/src/sources/sync/source-sync.service.ts:249-254 | the duplicate lookup always answers null |
| LegacySync.LegacyPeer | apps/core/src/sources/sync/source-sync.service.ts:62-79 | the peer is the truthy metadata username, else the non-empty external id; a bad request exactly when neither exists, and otherwise the same peer the newer service picks |
| LegacySync.LegacyLimit | apps/core/src/sources/sync/source-sync.service.ts:82 | `limit \|\| 10` is positive and is the given limit when it is non-zero |
| LegacySync.EnrichedUpdate | apps/core/src/sources/sync/source-sync.service.ts:213-219 | the update after enrichment writes the analysis, the vectorized flag, the embedding's model and status `enriched`, and no vector id or text |
| LegacySync.FailedUpdate | apps/core/src/sources/sync/source-sync.service.ts:230-232 | the update after a failed enrichment writes status `enrichment_failed` and nothing else |
| LegacySync.ProcessLegacyMessage | apps/core/src/sources/sync/source-sync.service.ts:151-243 | a message without text is not new, changes nothing and reports "No text content"; the message throws exactly when it has text and its creation is refused; any non-new outcome is that no-text one |
| LegacySync.ProcessAllLegacy | apps/core/src/sources/sync/source-sync.service.ts:103-122 | each message counts as created, skipped or thrown, and there are at least as many error entries as thrown messages and no more than messages |
| LegacySync.SyncLegacy | apps/core/src/sources/sync/source-sync.service.ts:43-141 | a completed run never counts more created and skipped messages than it fetched, nor fewer than fetched minus the errors |
| LegacySync.LegacyRejectsFirst | apps/core/src/sources/sync/source-sync.service.ts:50-60 | a missing source is NOT_FOUND and a non-Telegram one a bad request, both before any fetch, with nothing written |
| LegacySync.LegacyPeerAgrees | apps/core/src/sources/sync/source-sync.service.ts:69-76 | whenever a peer exists, the older choice agrees with the newer service's `resolvePeer` |
| LegacySync.FetchFailureRecorded | apps/core/src/sources/sync/source-sync.service.ts:85-98 | a failed fetch does not fail the run: it completes with no messages, nothing written, and one "Telegram fetch failed" entry |
| LegacySync.NoTextSkippedWithError | apps/core/src/sources/sync/source-sync.service.ts:108-116 | a message without text is counted as skipped and also reports "No text content" |
| LegacySync.NeverAlreadyExists | apps/core/src/sources/sync/source-sync.service.ts:157-168 | no message is ever reported as already stored: one with text either throws or is new, and a duplicate throws the INTERNAL create error |
| LegacySync.EnrichedOutcome | apps/core/src/sources/sync/source-sync.service.ts:197-223 | after successful analysis and embedding of the raw text the created content holds the analysis and the embedding's model, is vectorized and has status `enriched` |
| LegacySync.EnrichmentFailedOutcome | apps/core/src/sources/sync/source-sync.service.ts:225-242 | when analysis or embedding fails the content still counts as created, keeps status `enrichment_failed`, is not vectorized, and the failure is its error |
| LegacySync.ProcessLegacyMessagePreservesValid | apps/core/src/sources/sync/source-sync.service.ts:151-243 | one message keeps the store invariant |
| LegacySync.ProcessAllLegacyPreservesValid | apps/core/src/sources/sync/source-sync.service.ts:103-122 | the loop keeps the store invariant |
| LegacySync.NothingSkippedWithText | apps/core/src/sources/sync/source-sync.service.ts:157-181 | with the lookup always null, a batch of messages that all have text counts nothing as skipped |
| Access.FindMember | apps/core/src/workspaces/workspaces.service.ts:113 | `find` gives the first membership of the user, and some membership exactly when the user has one |
| Access.CheckAccess | apps/core/src/workspaces/workspaces.service.ts:79-93 | a missing workspace is NotFound; access is granted exactly to the owner and to any member, and otherwise refused with "Access denied to this workspace" |
| Access.CheckOwner | apps/core/src/workspaces/workspaces.service.ts:95-102 | a missing workspace is NotFound; only the owner is granted |
| Access.CheckOwnerOrAdmin | apps/core/src/workspaces/workspaces.service.ts:104-118 | a missing workspace is NotFound; granted exactly to the owner and to a member whose first membership is ADMIN, whatever the caller's global role |
| Access.Guarded | apps/core/src/workspaces/workspaces.service.ts:36-76 | the store call is made exactly when the guard grants, and a refusal is returned as the guard's error |
| Access.FindWorkspace | apps/core/src/workspaces/workspaces.service.ts:24-34 | a workspace is returned exactly to a caller with view access |
| Access.UpdateWorkspaceAs | apps/core/src/workspaces/workspaces.service.ts:36-44 | updating a workspace succeeds exactly for the owner or an ADMIN member |
| Access.RemoveWorkspaceAs | apps/core/src/workspaces/workspaces.service.ts:46-52 | removing a workspace succeeds exactly for its owner |
| Access.AddUserAs | apps/core/src/workspaces/workspaces.service.ts:55-59 | adding a member succeeds exactly for the owner or an ADMIN member |
| Access.RemoveUserAs | apps/core/src/workspaces/workspaces.service.ts:61-71 | removing a member succeeds exactly for the owner or an ADMIN member, and never when the removed user is the owner |
| Access.ListUsersAs | apps/core/src/workspaces/workspaces.service.ts:73-76 | listing members succeeds exactly with view access |
| Access.CheckModify | apps/core/src/targets/targets.service.ts:88-107 | a missing workspace is NotFound; modify access is granted exactly to the owner, a global FATHER or ADMIN, or an ADMIN member |
| Access.CheckView | apps/core/src/targets/targets.service.ts:110-129 | a missing workspace is NotFound; view access is granted exactly to the owner, a global FATHER or ADMIN, or any member, and otherwise refused with "You do not have access to this workspace" |
| Access.FindTarget | apps/core/src/targets/targets.service.ts:38-52 | a target is returned exactly with view access when it exists and belongs to the workspace; a missing one is "Target not found", one of another workspace "Target not found in this workspace" |
| Access.CreateTargetAs | apps/core/src/targets/targets.service.ts:12-31 | creating a target succeeds exactly with modify access |
| Access.ListTargetsAs | apps/core/src/targets/targets.service.ts:33-36 | listing targets succeeds exactly with view access |
| Access.UpdateTargetAs | apps/core/src/targets/targets.service.ts:54-75 | a successful update updates that target |
| Access.RemoveTargetAs | apps/core/src/targets/targets.service.ts:77-85 | a successful removal deletes that target |
| Access.AddDonorAs | apps/core/src/workspace-donors/workspace-donors.service.ts:12-17 | adding a donor succeeds exactly with modify access |
| Access.RemoveDonorAs | apps/core/src/workspace-donors/workspace-donors.service.ts:19-24 | removing a donor succeeds exactly with modify access |
| Access.UpdateDonorAs | apps/core/src/workspace-donors/workspace-donors.service.ts:33-41 | updating a donor succeeds exactly with modify access |
| Access.ListDonorsAs | apps/core/src/workspace-donors/workspace-donors.service.ts:26-31 | listing donors succeeds exactly with view access |
| Access.CheckAdminAccess | apps/core/src/sources/sources.service.ts:87-91 | granted exactly to a global FATHER or ADMIN, otherwise "Only FATHER and ADMIN can manage sources" |
| Access.FindSource | apps/core/src/sources/sources.service.ts:35-41 | any caller finds an existing source; a missing one is "Source not found" |
| Access.CreateSourceAs | apps/core/src/sources/sources.service.ts:13-28 | creating a source succeeds exactly for a global FATHER or ADMIN |
| Access.UpdateSourceAs | apps/core/src/sources/sources.service.ts:48-62 | a successful update updates that source |
| Access.SetSourceActiveAs | apps/core/src/sources/sources.service.ts:65-73 | a successful call sets that source's activity to the value given |
| Access.RemoveSourceAs | apps/core/src/sources/sources.service.ts:76-84 | a successful removal deletes that source |
| Access.AdminMemberIsMember | apps/core/src/workspaces/workspaces.service.ts:113-116 | a caller whose first membership is ADMIN is a member |
| Access.WorkspaceChecksNested | apps/core/src/workspaces/workspaces.service.ts:79-118 | owner access implies owner-or-admin access, which implies view access |
| Access.ModifyImpliesView | apps/core/src/targets/targets.service.ts:88-129 | modify access to a workspace implies view access |
| Access.BypassExtendsWorkspaceChecks | apps/core/src/targets/targets.service.ts:88-129 | the target and donor checks grant at least what the workspace checks grant, and for a caller without a global role modify access is exactly owner-or-admin access |
| Access.NoBypassInWorkspaces | apps/core/src/workspaces/workspaces.service.ts:104-118 | counterexample of consistency: a global FATHER who is neither owner nor member may modify targets but is refused "Admin access required" on the workspace itself |
| Access.TargetMutationGuard | apps/core/src/targets/targets.service.ts:54-85 | update and remove of a target succeed exactly with modify access to a target of that workspace, and a refused check is the error |
| Access.OwnerNeverRemoved | apps/core/src/workspaces/workspaces.service.ts:61-71 | the owner can never be removed from the workspace, whoever asks |
| Access.MissingWorkspaceFirst | apps/core/src/targets/targets.service.ts:88-92 | a missing workspace is NotFound for every workspace check, before any membership is looked at |
| Access.StrangerCannotView | apps/core/src/workspace-donors/workspace-donors.service.ts:66-85 | a caller without a global role and without membership cannot even list the donors |
| Access.SourceRoleFirst | apps/core/src/sources/sources.service.ts:48-91 | without a global role every source mutation is Forbidden, before the source is looked up |
| Access.SourceMutationGuard | apps/core/src/sources/sources.service.ts:48-84 | with a global role a source mutation goes ahead exactly when the source exists, and a missing one is "Source not found" |
| Auth.GenerateTokens | apps/core/src/auth/auth.service.ts:172-195 | both tokens are signed over the same claims, one with the access and one with the refresh secret, and `expiresIn` is the 15-minute access lifetime |
| Auth.FindUserByEmail | apps/core/src/grpc/database.grpc.client.ts:289-298 | the client's lookup throws exactly for an empty email (INVALID_ARGUMENT) and answers null exactly for an unknown non-empty email |
| Auth.FindUserById | apps/core/src/grpc/database.grpc.client.ts:278-287 | the client's lookup throws exactly for an empty id and answers null exactly for an unknown non-empty id, and otherwise the rendered user |
| Auth.Issue | apps/core/src/auth/auth.service.ts:56-60 | issuing tokens fails exactly for a user no longer stored; otherwise it signs the user's claims and stores the hash of the refresh token |
| Auth.Register | apps/core/src/auth/auth.service.ts:26-71 | refused with Forbidden when registration is off and with Conflict for a taken email. It succeeds exactly when registration is on and the email is non-empty and free. On success it stores a fresh user under that email with the hash of the password, active, and with the hash of the refresh token it returns, and changes no other user |
| Auth.CreateAndIssue | apps/core/src/auth/auth.service.ts:48-60 | creating the user and issuing its tokens fails exactly when the email is already taken |
| Auth.CreateAndIssueFrame | apps/core/src/auth/auth.service.ts:48-60 | the new user gets a fresh id, the email index gains exactly that email, and no other user row changes |
| Auth.CreateAndIssueStores | apps/core/src/auth/auth.service.ts:48-60 | the stored row carries the requested email, password hash and role, is active, and holds the hash of the returned refresh token; the response carries the requested role (USER when none) and the tokens signed over the new id, email and role |
| Auth.RegisterStoresHashes | apps/core/src/auth/auth.service.ts:38-60 | with a sound hash, the registered user's stored refresh hash is the hash of the returned refresh token and the password hash is the hash of the password |
| Auth.RegisterKeepsUsersValid | apps/core/src/auth/auth.service.ts:48-60 | registration keeps the user table consistent: every email maps to the one user that has it, and ids come from the counter |
| Auth.CreateAndIssueKeepsUsersValid | apps/core/src/auth/auth.service.ts:48-60 | creating a user under a free email and storing its refresh hash keeps every email mapped to the one user that has it |
| Auth.RegisterThenLogin | apps/core/src/auth/auth.service.ts:38-109 | right after registering, logging in with the same email and password succeeds |
| Auth.RegisterThenRefresh | apps/core/src/auth/auth.service.ts:55-139 | the refresh token that registration returns is accepted by the following refresh |
| Auth.Login | apps/core/src/auth/auth.service.ts:73-109 | an unknown email is "Invalid credentials"; a successful login is of an active user whose stored hash matches the password |
| Auth.Refresh | apps/core/src/auth/auth.service.ts:111-146 | every failure is "Invalid refresh token"; a success means the token verifies and names an active user whose stored non-empty hash matches the token |
| Auth.RefreshAccepts | apps/core/src/auth/auth.service.ts:111-146 | a refresh succeeds exactly when the token verifies and names an active user whose stored, non-empty refresh hash matches the token |
| Auth.Logout | apps/core/src/auth/auth.service.ts:148-152 | logout fails exactly for an unknown user, and otherwise leaves the user's stored hash null |
| Auth.FirstUserIsFather | apps/core/src/auth/auth.service.ts:41-43 | the first registered user gets FATHER, every later one USER |
| Auth.IssuedRefreshTokenStored | apps/core/src/auth/auth.service.ts:91-96 | a login stores the hash of the refresh token it hands out on the user it names, and nothing else of any user changes |
| Auth.LoginRejections | apps/core/src/auth/auth.service.ts:75-89 | login succeeds exactly for a known, active user with the right password; an inactive account is "Account is deactivated" |
| Auth.LoginThenRefresh | apps/core/src/auth/auth.service.ts:92-139 | the refresh token a login hands out is accepted by the following refresh: the round trip of the stored hash |
| Auth.LogoutRevokes | apps/core/src/auth/auth.service.ts:125-150 | after logout no refresh token of that user is accepted |
| Auth.RefreshRotates | apps/core/src/auth/auth.service.ts:134-139 | a refresh replaces the stored hash by that of the new refresh token and adds or removes no user |
| TelegramParser.RegisteredClients | apps/content-parser/src/sources/adapters/telegram/telegram.provider.ts:13-43 | every configured session name is registered, every registered name comes from a session whose client it holds, and the last session of a name wins |
| TelegramParser.ResolveSessionName | apps/content-parser/src/sources/adapters/telegram/telegram.service.ts:22-25 | an explicit name is used even when empty, else the default name, else the first session's name; there is no name exactly when none of the three exists |
| TelegramParser.GetClient | apps/content-parser/src/sources/adapters/telegram/telegram.service.ts:21-40 | a client is returned exactly when the resolved name is non-empty and registered; no name or an empty one is "No Telegram sessions configured", an unregistered one `Telegram client for session "<name>" not found` |
| TelegramParser.EmptySessionNameRefused | apps/content-parser/src/sources/adapters/telegram/telegram.service.ts:22-29 | an explicit empty session name is used as it is and then refused as missing, whatever sessions are configured |
| TelegramParser.FirstSessionServes | apps/content-parser/src/sources/adapters/telegram/telegram.service.ts:22-25 | with no explicit or default name and clients built from the sessions, the first session serves every request unless its name is empty |
| TelegramParser.RegisteredNameServes | apps/content-parser/src/sources/adapters/telegram/telegram.provider.ts:16-39 | any non-empty configured session name, asked for explicitly, resolves to a client of that session |
| TelegramParser.MessagesQuery | apps/content-parser/src/sources/adapters/telegram/services/telegram-message.service.ts:29-36 | the query carries the peer and offset, reverses exactly when the offset is truthy, and asks for the given limit or 50 when none is given |
| TelegramParser.SendMessage | apps/content-parser/src/sources/adapters/telegram/services/telegram-message.service.ts:12-21 | an unresolvable session is its error; otherwise the send goes through the session's client with the given peer and message |
| TelegramParser.GetMessages | apps/content-parser/src/sources/adapters/telegram/services/telegram-message.service.ts:23-39 | an unresolvable session is its error; otherwise the session's client is asked the built query and its answer is returned |
| TelegramParser.Process | apps/content-parser/src/sources/adapters/telegram/processors/telegram.processor.ts:24-61 | a send job answers `sent` exactly when the send succeeds; a get job answers `received` with the fetched messages exactly when the fetch succeeds; any other job is `skipped` with `unknown-job` |
| TelegramParser.UnknownJobTouchesNothing | apps/content-parser/src/sources/adapters/telegram/processors/telegram.processor.ts:57-59 | an unknown job depends neither on the sessions nor on the network |
| TelegramParser.SendUsesJobData | apps/content-parser/src/sources/adapters/telegram/processors/telegram.processor.ts:38-45 | a send job sends exactly the job's peer and message through the client of the job's session |
| TelegramParser.GetUsesJobData | apps/content-parser/src/sources/adapters/telegram/processors/telegram.processor.ts:47-55 | a get job asks the client of the job's session for the job's peer, offset and limit, and nothing else |
| TelegramParser.UnresolvedSessionFails | apps/content-parser/src/sources/adapters/telegram/processors/telegram.processor.ts:31-55 | a job whose session cannot be resolved fails with the resolver's message before any network call |
| Dto.Validate | apps/core/src/targets/dto/index.ts:1-98 | the error list is empty exactly when the body is valid; each entry names a failing property and each failing property is listed |
| Dto.UnlistedFieldIgnored | apps/core/src/sources/dto/sources.dto.ts:36-60 | changing a property the DTO does not declare never changes whether a body is valid |
| Dto.Demand | apps/core/src/targets/dto/index.ts:3-48 | a valid body satisfies every decorator of every property that is present or required |
| Dto.AllOptionalAcceptsEmpty | apps/core/src/workspaces/dto/workspaces.dto.ts:12-20 | a DTO whose properties are all optional accepts the empty body |
| Dto.MaxPostsPerDayRange | apps/core/src/targets/dto/index.ts:26-30 | `maxPostsPerDay` passes exactly when it is absent or an integer from 1 to 100 |
| Dto.MinPostIntervalUnbounded | apps/core/src/targets/dto/index.ts:32-35 | `minPostInterval` passes exactly when it is absent or an integer of at least 1, with no upper bound |
| Dto.TargetLimitsOnBothDtos | apps/core/src/targets/dto/index.ts:50-97 | a valid create or update target body meets both posting limits |
| Dto.CreateTargetNeedsTypeAndExternalId | apps/core/src/targets/dto/index.ts:3-8 | a valid create target body has a string `type` and a string `externalId` |
| Dto.UpdateTargetOptional | apps/core/src/targets/dto/index.ts:50-97 | the empty body is a valid target update, and a given `isActive` must be a boolean |
| Dto.TargetObjectsAreObjects | apps/core/src/targets/dto/index.ts:37-43 | in a valid create target body, `settings` and `workSchedule` are objects when given |
| Dto.CreateSourceShape | apps/core/src/sources/dto/sources.dto.ts:3-34 | a valid create source body has one of the five known types, a string external id and, if any, object metadata |
| Dto.UnknownSourceTypeRefused | apps/core/src/sources/dto/sources.dto.ts:4-6 | a string type outside the five known ones is refused whatever the rest of the body |
| Dto.UpdateSourceIgnoresIdentity | apps/core/src/sources/dto/sources.dto.ts:36-60 | the values of `type`, `externalId` and `isActive` have no bearing on whether a source update body is valid |
| Dto.SetSourceActiveNeedsBoolean | apps/core/src/sources/dto/sources.dto.ts:62-65 | a body is valid exactly when it has a boolean `isActive` |
| Dto.CreateWorkspaceShape | apps/core/src/workspaces/dto/workspaces.dto.ts:3-10 | a body is valid exactly when it has a string name and, if any, object settings |
| Dto.UpdateWorkspaceOptional | apps/core/src/workspaces/dto/workspaces.dto.ts:12-20 | the empty body is a valid workspace update |
| Dto.AnyRoleStringAccepted | apps/core/src/workspaces/dto/workspaces.dto.ts:22-28 | any string passes as a member role, including ones outside ADMIN, EDITOR and VIEWER |
| Dto.AddDonorShape | apps/core/src/workspace-donors/dto/index.ts:3-10 | a body is valid exactly when it has a string source id and, if any, object settings |
| Dto.UpdateDonorShape | apps/core/src/workspace-donors/dto/index.ts:12-20 | a body is valid exactly when `isActive`, if given, is a boolean and `settings`, if given, an object |

## Left out

- Transport: gRPC, BullMQ queues, HTTP controllers and the JSON text of payloads are not modelled. A queue round trip is a direct call, and a JSON field is carried as its parsed value.
- The proto files and the gRPC loader options are not part of this model. The controller is modelled on its own terms: an absent optional field is `None`, and wire defaults that might turn `undefined` into `''` or `0` are not applied.
- Ids: the store's UUID defaults are a per-table counter rendered in decimal. Cross-table distinctness of ids is not modelled; nothing here relies on it. The two `uuidv4()` calls of the storage processor are a parameter.
- Dates are integers. `new Date(...)`, ISO strings and time zones are not modelled, and the clock readings of a sync run are a parameter.
- Unmodelled controller handlers: `listSources`, `getTopic`, `listTopics`, `createTopic`, `addContentToTopic`, `getPublication`, `updatePublicationStatus`, `createAiLog`, and the rendering helpers `mapTopic` and `mapPublication`. They are plain reads or writes with no branch beyond those modelled for their siblings.
- Server handlers the core calls that are not part of this model are inputs of the model: `getLastContentForSource`, `upsertContentVector`, `updateSource`, and the workspace, target and donor stores. The workspace, target and donor stores are the `Directory` value of `Access`.
- Vector search is an uninterpreted function; scoring and the `min_score` threshold belong to the vector store.
- `AiProducer` (apps/core/src/queues/ai.producer.ts) has no `generateEmbedding` method, and `AiProviderFactory` (apps/ai-service/src/providers/ai-provider.factory.ts) has no `getEmbeddingProvider`, yet both are called. Both are parameters: the pipeline's `embed` service and `AiEnv.embeddingProvider`.
- Decimal.ParseIntOfIntToString: numbers are unbounded integers. JavaScript numbers lose precision beyond 2^53, where `${n}` followed by `parseInt` no longer gives back `n`; the round trip is proved only for exact integers.
- The AI endpoints, `JSON.parse` of a reply, bcrypt and JWT signing and verification are parameters. A parsed reply is an `AiAnalysis` or nothing; replies of other shapes are not modelled. JWT expiry and secrets are not modelled.
- `toLowerCase` is modelled on ASCII letters only. That is exact for the comparison with `xai`.
- The Telegram client lifecycle is not modelled: connection, retries and `getMe` logging. Sending and fetching are a `Network` value.
- DTO numbers are reals, not IEEE doubles; NaN and the infinities are not modelled in the DTO checks.
- `AuthService.getMe` and the HTTP layer of auth are not modelled.
- Workspace `create` and `findAll` carry no guard and only forward to the store, so they are not modelled.
- Logging is not modelled.
- LegacySync.FindContentByExternalId: the already-exists branch of the older `processMessage` sits behind a lookup that always answers null, so it is never taken and is not spelled out.
- TelegramSync.SyncSource: the `last_sync_at` write is an input returning an optional error; its effect on the source row is not modelled.
- TelegramSync.SyncSource: the run looks its source up through the corrected `getSource` (`Database.LookUpSource`, rendering with `Database.MapSource`), which passes the stored metadata on. As written, `mapSource` drops `metadata_json`, so every run fetches by `external_id` and never by a stored username. `TelegramSync.PeerIgnoresUsernameAsWritten` and `TelegramSync.UsernameDroppedExample` state that consequence.
- LegacySync.SyncLegacy: the run uses the same corrected `getSource` as `TelegramSync.SyncSource`. As written, the older service never sees a stored username. A source with a username and an empty `external_id` is therefore refused with BadRequest "Source has no valid Telegram username or external_id", where this model syncs it by the username.
- Access.FindSource: answers with the source as the corrected `getSource` renders it, metadata included. As written, the response carries no metadata. `Database.GetSourceAsWritten` states exactly what differs.
- AiService.CleanJson: its own contract states only that the reply does not grow. What it returns is stated by `AiService.PlainReplyTrimmed` (a reply without backticks is only trimmed) and `AiService.FencedReplyUnwrapped` (a fenced reply gives its trimmed body). Like `Text.RemoveAll`, the fence removal is not characterised for every input.
- Database.ListContent: creation stamps are a counter that every insert increases, so no two rows share a stamp. The database's `now()` default can give two rows the same `createdAt`, and then `orderBy createdAt desc` may list them in either order. The strict newest-first order and the rank clause hold only under the counter.
- Database.ListPublications: the rank clause rests on the same strictly increasing stamps as `Database.ListContent`; equal `createdAt` values are not modelled.
- Database.MatchingIsNewestFirst: the strict decrease of stamps along the list rests on the counter; with tied `now()` stamps only a non-increasing order would hold.
- Database.PublicationsListedNewestFirst: the same counter assumption as `Database.MatchingIsNewestFirst`, for publications.
- Database.CreatedIsListedFirst: a newly created row is strictly the newest only because its stamp comes from the counter. A row created within the same `now()` tick could tie with it.
- Database.CreatedPendingIsListed: rests on the same counter stamps as `Database.CreatedIsListedFirst`.
- Database.CreateUser: models only the P2002 unique-email failure, as ALREADY_EXISTS. Other store failures are mapped by the handler to INTERNAL "Failed to create user". Examples are a role outside the schema's enum or a lost connection. They depend on the database schema and connection, which are not part of this model, so the model never produces that error.
- Database.CreateContent: `source_date` arrives as a date string and is modelled as its parsed integer. The handler tests the string's truthiness, and the only falsy string `''` is modelled as an absent date, so presence stands for truthiness.
- Storage.NewSavedRow: the payload's `sourceDate` is treated as `Database.CreateContent` treats `source_date`. An absent or empty date string is `None`, and any other string is its parsed integer.
- Storage.ResaveRow: the same reading of the payload's `sourceDate` as `Storage.NewSavedRow`.
- Database.MapContent: `raw_data_json` and `ai_analysis_json` carry the stored document as it is. `mapContent` renders a stored falsy JSON value (`null`, `false`, `0`, `""`) as `''`, but those values are not among the modelled document kinds.
- TelegramSync.FetchLimit: limits and offsets are natural numbers here and in `Database.ListContent` and `Database.ListPublications`. A negative limit, which `||` passes on unchanged, is not modelled.
- Strings are sequences of Unicode scalar values, not JavaScript's UTF-16 code units. A `slice(0, 100)` or `substring` cut, as in `AiService.OpenAiFallback` and `Text.Take`, can therefore differ for text outside the Basic Multilingual Plane.
- Pipeline.ProcessMessage: its own contract states the error paths only; the success path is stated by `Pipeline.ProcessedMessageStored` and the stage lemmas.
- Text.RemoveAll: its own contract states only that the text does not grow; what it removes is stated by `Text.RemoveAllAbsent` and `Text.RemoveAllKeepsPrefix`.

## Findings

| source | as written | input that shows it | evidently intended | confidence | as-written member | corrected member |
|---|---|---|---|---|---|---|
| apps/database/src/grpc/database.grpc.controller.ts:73 | `listContent` reads the source filter from `data.sourceId`, while the other handlers read snake_case fields (`source_id`) as the request arrives | a store with one row of source "b", listed with source filter "a", returns that row | only rows of the requested source are listed | not executed | Database.ListContentAsWritten (counterexample Database.SourceFilterIgnored) | Database.ListContent |
| apps/database/src/processors/storage.processor.ts:131 | `upsertVector(qdrantId, vector, payload)` against the signature `upsertVector(collectionName, id, vector, payload)`: the point id lands in the collection slot | a row without vector id and a store holding only `content_vectors` and `topic_vectors`: the write goes to a collection named after the fresh UUID and fails | the point is written to the content collection under the row's vector id | not executed | Storage.HandleUpdateVectorAsWritten (Storage.VectorWriteMisdirected, Storage.VectorWriteMisdirectedExample) | Storage.HandleUpdateVector |
| apps/database/src/grpc/database.grpc.controller.ts:450-460 | `mapSource` leaves out the source's metadata, so `resolvePeer` in telegram-sync.service.ts:70-73 never sees a stored username | a Telegram source stored with username `news` and external id `-1001` is fetched as `-1001` | the metadata is passed on and the username is the peer | not executed | Database.GetSourceAsWritten (TelegramSync.PeerIgnoresUsernameAsWritten, TelegramSync.UsernameDroppedExample) | Database.GetSource |
