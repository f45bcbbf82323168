# FlowDesk verification

A Dafny model of the stateful core of the FlowDesk API, with proofs about it: keyset pagination of
requests, the request store with its cache, the webhook intake and the classification worker,
authentication sessions with tenant and user creation, and two recursive transformations (tenant slugs
and the response stripping of tenant ids). PostgreSQL, Redis and the job queue are maps, a list of jobs
and a list of events; argon2 is a hash that verifies exactly what it was made of; a signed token is its
content. `dafny verify dfyconfig.toml` checks everything.

## How the model is built

- *Pagination* (`Calendar`, `CalendarLaws`, `Digits`, `Base64Url`, `JsonText`, `Uuids`, `Cursors`,
  `Requests`, `RowOrder`, `Listings`, `Walks`, `StaticWalks`, `WalkLimits`, `WalkExamples`, `Pagination`,
  `ListingLaws`). The table is a finite map of rows, times are microseconds as in the `timestamptz`
  column, and a cursor keeps milliseconds, as `toISOString` does.
  The cursor codec is modelled down to the characters of the ISO date, the JSON text and the base64url
  text (section 5 of RFC 4648, section 7 of RFC 8259). A walk is the list of pages a client gets by
  following `nextCursor`, each page perhaps from a different table.
- *Requests, one call at a time* (`RequestEntities`, `Caching`, `RequestStore`, `SerialRuns`, `Coherence`,
  `StaleEntries`, `StoreLaws`, `RowHistories`, `TenantIsolation`, `MixedRuns`). Each service call is a
  function of the store; runs are lists of calls, worker attempts and clock ticks.
- *Requests, one await at a time* (`Interleaving`, `InterleavingInvariants`, `Staleness`, `Pipeline`,
  `IntakeHistory`, `SerialAgreement`, `Settling`). Any number of service calls and jobs advance in any
  order, may fail at any await, and every write to the table is logged. `SerialAgreement` ties the two
  granularities together.
- *Objects* (`RequestRepositories`, `RequestServices`, `AuthServices`, and classes in `Caching`,
  `RequestEntities`, `Tenants`). The classes of the source with their fields and methods; every method is
  proved to do what the function of the same name says, so the results about runs are about them.
- *Accounts* (`Accounts`, `AuthRuns` and `AuthLaws` call by call, `Sessions` await by await,
  `SessionAgreement` between the two, `Registrations`, `SessionExamples`), *slugs* (`Tenants`, `SlugLaws`)
  and *stripping* (`ResponseStripping`).
- The modules named `…Laws` say what the operations of the others do in plain terms: columns, numbers,
  characters and dates.

## Where the code falls short of its documentation

The code is modelled as it is. These promises do not hold as stated; each has its exact condition below.

- Stable, gap-free pages (docs/adr/005-cursor-pagination.md): a cursor drops the microseconds of the row
  it stands for. Going down, rows within the millisecond of a page's last row are lost; going up, they are
  repeated, and the walk may never end (`DescWalkLosesRow`, `AscWalkRepeatsRow`, `AscWalkRunsOn`, `WalkExactIff`,
  `DescMissesIff`, `AscEndsIff`).
- Dropping the cached row on every write: the cache key holds the id as the client spelled it, and ids are
  accepted in either case, so a write under one spelling leaves the entry under the other, and a removed
  request is still shown (`UpdateCanBeHidden`; `CoherentIff`, `FindOneExactIff`, `RemovalFinalIff`).
- Legal status histories: for the same reason an edit through the entry left behind writes an old status
  back, and a request goes from IN_PROGRESS to OPEN without being reopened (`StatusCanGoBack`;
  `StatusLegalIff`).
- Status changes: `changeStatus` is refused whenever the row is cached, because plain data has no status
  methods (`ChangeCanBeRefused`; `ChangeStatusCommitsIff`).
- Classification: an `update` that loads a copy cached before the worker's write takes the
  classification away again (`ClassificationCanBeLost`; `ClassificationLostIff`, `LostOnlyIfStale`).
- Rotation "invalidates the old token" (docs/adr/003-jwt-access-refresh.md): not when both tokens are
  issued within one second, since nothing but the second distinguishes them (`RotationCanFail`;
  `RotationInvalidatesIff`); and with overlapping calls the later save wins, not the later token
  (`OlderTokenCanWin`; `AcceptedIff`).
- Registration: the transaction covers tenant and owner, but not the save of the refresh-token hash that
  follows it, so a registration that fails there leaves both behind (`FailedRegistrationStays`;
  `RegistrationLeaves`).

## Model

| member | source | states |
|---|---|---|
| Base64Url.DecodeEncode | src/common/pagination/paginated.ts:11-19 | unpadded base64url decodes to the bytes it encoded, for every byte string |
| Base64Url.EncodeThree | src/common/pagination/paginated.ts:13 | three bytes are written as one 24-bit number, six bits a character; then the rest follows |
| Base64Url.EncodeOne | src/common/pagination/paginated.ts:13 | one byte left over is filled up with zero bits to two characters |
| Base64Url.EncodeTwo | src/common/pagination/paginated.ts:13 | two bytes left over are filled up with zero bits to three characters, and there is no padding |
| Calendar.FromIsoToIso | src/common/pagination/paginated.ts:12 | the ISO text of every instant of the years 0 to 9999 reads back as that instant |
| Calendar.FromLiteralToIso | src/modules/requests/requests.repository.ts:62-67 | as a literal the database reads that text as that instant, unless it is of the year 0, which it refuses |
| CalendarLaws.Epoch | src/common/pagination/paginated.ts:12 | millisecond 0 is midnight of 1 January 1970 |
| CalendarLaws.NextDay | src/common/pagination/paginated.ts:12 | a day later it is the next day of the month, or the first of the next month or year, exactly at the month lengths 31, 28 or 29, 31, 30 and so on, leap years included, at the same time of day |
| CalendarLaws.TimeOfDay | src/common/pagination/paginated.ts:12 | hour, minute, second and millisecond are the parts of the milliseconds since midnight |
| CalendarLaws.IsoText | src/common/pagination/paginated.ts:12 | the text has year, month, day, hour, minute, second and millisecond in their places, with the fixed characters between them |
| Uuids.ParseText | src/modules/requests/requests.repository.ts:28-33 | every UUID is read back from its canonical text |
| Uuids.TwoSpellings | src/modules/requests/requests.repository.ts:28-33 | an id whose last digit is a letter has a second accepted spelling |
| Cursors.DecodeEncodeCursor | src/common/pagination/paginated.ts:11-19 | decoding an encoded cursor gives exactly the ISO time and the id back, for all instants and ids |
| Cursors.CursorIs | src/common/pagination/paginated.ts:11-14 | the cursor is the base64url text of the JSON object with the ISO time and the id, nothing escaped |
| Cursors.SeekOfEncodeCursor | src/modules/requests/requests.repository.ts:61-68 | the database seeks from exactly the millisecond and id that were encoded, or refuses the cursor if its time is in the year 0; no cursor text is empty, so none is taken for "no cursor" |
| Cursors.EncodeCursorInjective | src/common/pagination/paginated.ts:11-14 | two positions have the same cursor text only if millisecond and id are the same |
| RowOrder.SortedUnique | src/modules/requests/requests.repository.ts:56-57 | a set of rows has only one listing in (field, id) order, so what the database returns is determined |
| RowOrder.PutInOrder | src/modules/requests/requests.repository.ts:56-57 | putting the rows in order yields that listing |
| Listings.FetchMeaning | src/modules/requests/requests.repository.ts:58-95 | taking limit + 1 and slicing yields the first `limit` remaining rows, and a next cursor exactly when more remain: that of the last row, cut to the millisecond |
| Pagination.ParseSortAccepted | src/modules/requests/dto/list-requests-query.dto.ts:46-53 | every sort text the DTO lets through is parsed to its field and direction |
| ListingLaws.NewestFirst | src/modules/requests/dto/list-requests-query.dto.ts:46-53 | without a sort text, or with an empty one, every page is ordered by falling creation time, and by falling id where the times are equal |
| ListingLaws.SortTexts | src/modules/requests/dto/list-requests-query.dto.ts:46-53 | each of the eight sort texts orders every page by its column, up or down, and by id in the same direction; statuses from OPEN to CLOSED, urgencies from LOW to CRITICAL and then none |
| ListingLaws.RefusedIff | src/modules/requests/dto/list-requests-query.dto.ts:46-53 | a page is refused exactly for a non-empty text that is not a column, a colon and a direction, or for a non-empty cursor the database cannot read |
| ListingLaws.PageHolds | src/modules/requests/requests.repository.ts:45-96 | whatever the sort and the cursor, a page holds only stored rows of the tenant that are not deleted and pass the filters, and at most 20 or the query's limit |
| ListingLaws.DefaultPage | src/modules/requests/requests.repository.ts:45-96 | by default a page is the newest of the rows that are asked for and older than the cursor, 20 or the query's limit of them or all there are; nothing left out is newer than what is on it; the next cursor is there exactly if more remain, and is the last row's |
| Pagination.TextWalkIsWalk | src/modules/requests/requests.repository.ts:45-96 | following cursor texts from page to page is a walk from position to position |
| Pagination.WalkIsTextWalk | src/modules/requests/requests.repository.ts:45-96 | and every walk shows to the client as such a text walk |
| Pagination.CompletedTexts | src/modules/requests/requests.repository.ts:85-95 | a text walk has reached its null cursor exactly when the walk has no next position |
| Walks.WalkInOrder | src/modules/requests/requests.repository.ts:53-95 | descending, or over whole milliseconds, rows come in strict (createdAt, id) order over all pages, so no row repeats, whatever changes between fetches |
| Walks.WalkMissesNone | src/modules/requests/requests.repository.ts:53-95 | an ascending walk that ends, or one over whole milliseconds, returns every row that stayed listed, whatever changes between fetches |
| Walks.StableWalk | src/modules/requests/requests.repository.ts:53-95 | the promised stability under arbitrary inserts, deletions and edits: no row twice, and each row that stayed listed exactly once |
| StaticWalks.StaticIsWalk | src/modules/requests/requests.repository.ts:45-96 | a walk over an unchanging table is a walk whose fetches all see that table |
| StaticWalks.WalkUnique | src/modules/requests/requests.repository.ts:45-96 | an unchanging table has only one completed walk per query |
| StaticWalks.CleanCutMeaning | src/modules/requests/requests.repository.ts:61-68 | when a page boundary is harmless: what the cursor's lost microseconds may hide between its last row and the next |
| StaticWalks.WalkExactIff | src/modules/requests/requests.repository.ts:45-96 | some completed walk returns exactly the sorted filtered rows if and only if every page boundary is clean |
| StaticWalks.ExactTimesWalk | src/modules/requests/requests.repository.ts:45-96 | with whole-millisecond times the pages are the sorted filtered rows cut into chunks of `limit`, in max(1, ceil(n / limit)) pages |
| WalkLimits.AnySortWalk | src/modules/requests/requests.repository.ts:51-95 | for every sort field, descending or over whole milliseconds: cursors strictly advance, only matching rows come, at most max(1, n) pages |
| WalkLimits.AnySortWalkEnds | src/modules/requests/requests.repository.ts:51-95 | such a walk can always be completed |
| WalkLimits.DescMissesIff | src/modules/requests/requests.repository.ts:61-68 | a completed descending walk misses a row if and only if the row at the end of some page shadows it |
| WalkLimits.ShadowMeaning | src/common/pagination/paginated.ts:11-13 | a row is shadowed only within the millisecond of the row that ends the page |
| WalkLimits.AscRepeats | src/modules/requests/requests.repository.ts:61-68 | an ascending walk repeats a row only within the millisecond of a page's last row |
| WalkLimits.AscWalkEnds | src/modules/requests/requests.repository.ts:61-68 | an ascending walk ends if every millisecond holds fewer than `limit` matching rows, or fits on the last page |
| WalkLimits.AscWalkNeverEnds | src/modules/requests/requests.repository.ts:61-68 | an ascending walk that starts before a millisecond with `limit` rows inside it, and more to come, never ends |
| WalkLimits.AscEndsIff | src/modules/requests/requests.repository.ts:61-68 | unless a listed row falls on exactly a millisecond that is too full, an ascending walk ends if and only if every millisecond can be passed |
| WalkLimits.EndsSoonOrNever | src/modules/requests/requests.repository.ts:45-96 | for every table, sort and direction: a walk that ends has at most one page more than there are rows to list, so one that has not ended by then never does |
| WalkExamples.DescWalkLosesRow | src/common/pagination/paginated.ts:11-13 | a table of two rows whose descending walk completes without one of them |
| WalkExamples.AscWalkRunsOn | src/common/pagination/paginated.ts:11-13 | the same table, whose ascending walk never completes |
| WalkExamples.AscWalkRepeatsRow | src/common/pagination/paginated.ts:11-13 | every page of such a walk is the first row again |
| WalkExamples.AscWalkGoesOn | src/modules/requests/requests.repository.ts:61-68 | and there is such a walk of every length |
| WalkExamples.StableWalkCase | src/modules/requests/requests.repository.ts:53-95 | a walk as in `StableWalk`, with a deletion between its two fetches |
| RequestRepositories.QueryBuilder.GetMany | src/modules/requests/requests.repository.ts:53-83 | returns the first `take` rows, in order, that meet every condition added so far |
| RequestRepositories.SelectedIsEligible | src/modules/requests/requests.repository.ts:60-81 | the conditions, added one by one, select exactly the live rows of the tenant that pass the filters and lie beyond the cursor |
| RequestRepositories.RequestRepository.FindPaginated | src/modules/requests/requests.repository.ts:45-96 | the method that builds the query step by step returns the page the walks are about, or the same error |
| RequestRepositories.RequestRepository.Save | src/modules/requests/requests.repository.ts:24-26 | overwrites the row by id and stamps it, or fails on the unique external message id and changes nothing |
| RequestRepositories.RequestRepository.Insert | src/modules/requests/requests.repository.ts:24-26 | adds a new row, or fails and changes nothing; uniqueness is kept |
| RequestRepositories.RequestRepository.FindById | src/modules/requests/requests.repository.ts:28-33 | an entity for the live row of that tenant and id, or null |
| RequestRepositories.RequestRepository.FindByExternalMessageId | src/modules/requests/requests.repository.ts:35-43 | the one row of the tenant with that id, deleted or not, or none if there is none |
| RequestRepositories.RequestRepository.SoftRemove | src/modules/requests/requests.repository.ts:98-100 | marks the row deleted and changes no other |
| RequestEntities.Request.MarkInProgress | src/modules/requests/entities/request.entity.ts:102-109 | moves along its edge of the status graph, or refuses and changes nothing |
| RequestEntities.Request.MarkResolved | src/modules/requests/entities/request.entity.ts:111-121 | moves along its edge of the status graph, or refuses and changes nothing |
| RequestEntities.Request.Close | src/modules/requests/entities/request.entity.ts:123-128 | moves along its edge of the status graph, or refuses and changes nothing |
| RequestEntities.Request.Reopen | src/modules/requests/entities/request.entity.ts:130-140 | moves along its edge of the status graph, or refuses and changes nothing |
| RequestEntities.TheEdges | src/modules/requests/entities/request.entity.ts:102-140 | the status graph has exactly eight edges, written out |
| RequestEntities.ChangesBounded | src/modules/requests/entities/request.entity.ts:102-140 | a history with r reopenings has at most 4r + 3 status changes |
| Caching.RequestKeyInjective | src/common/cache/cache.service.ts:35-37 | the key tells tenant and request apart whenever tenant ids have no colon |
| Caching.KeyForInjective | src/common/cache/cache.service.ts:35-37 | so different tenants, or different spellings of an id, never share an entry |
| Caching.ImageIsJson | src/common/cache/cache.service.ts:21-28 | what JSON makes of a row is its one image: every column as it was, each date cut to the millisecond, a deletion date there exactly if it was there |
| Caching.CacheService.Get | src/common/cache/cache.service.ts:16-25 | the value, or nothing once it is 300 seconds old |
| Caching.CacheService.Set | src/common/cache/cache.service.ts:27-29 | stores an image of the row - every column, dates cut to the millisecond - with the time, and touches no other entry |
| Caching.CacheService.Del | src/common/cache/cache.service.ts:31-33 | removes that entry and no other |
| RequestStore.FindById | src/modules/requests/requests.repository.ts:28-33 | what is found is the stored row the text spells |
| RequestStore.FindByExternalId | src/modules/requests/requests.repository.ts:35-43 | finds a row of the tenant with the id if and only if there is one |
| RequestServices.RequestsService.Create | src/modules/requests/requests.service.ts:19-22 | the object does to table, cache and reply what the serial model says |
| RequestServices.RequestsService.FindAll | src/modules/requests/requests.service.ts:24-29 | returns the specified page |
| RequestServices.RequestsService.FindOne | src/modules/requests/requests.service.ts:31-44 | cache-aside as in the serial model: plain data after a hit, an entity after a miss, and what is then cached |
| RequestServices.RequestsService.Update | src/modules/requests/requests.service.ts:46-57 | load, edit in place, save, drop the entry: state and reply of the serial model |
| RequestServices.RequestsService.ChangeStatus | src/modules/requests/requests.service.ts:59-90 | the switch over entity methods has state and reply of the serial model, cache hits included |
| RequestServices.RequestsService.Remove | src/modules/requests/requests.service.ts:92-96 | state and reply of the serial model |
| RequestServices.WebhooksService.HandleInbound | src/modules/webhooks/webhooks.service.ts:25-55 | find or create as in the serial model, and one job queued for exactly the requests that are created |
| RequestServices.ClassificationProcessor.Process | src/modules/classification/classification.processor.ts:30-75 | table and outcome of the serial model, and an LLM_CLASSIFIED event exactly when the row was classified |
| RequestServices.ClassificationProcessor.OnFailed | src/modules/classification/classification.processor.ts:77-102 | a CLASSIFICATION_FAILED event exactly after the last attempt |
| StoreLaws.CreateStores | src/modules/requests/requests.service.ts:19-22 | `create` succeeds exactly if the id is new and nobody has the external message id; the row has the caller's columns, OPEN, unclassified, not deleted |
| StoreLaws.InboundStores | src/modules/webhooks/webhooks.service.ts:29-46 | a created row tells the sender in its title, the text in its body, the channel and the message id; a found row is the tenant's, and nothing changes; it fails exactly if another tenant has the message id |
| StoreLaws.UpdateStores | src/modules/requests/requests.service.ts:46-57 | `update` answers exactly if `findOne` does; title and body are the given ones or those loaded, every other column is that loaded, `updatedAt` apart |
| StoreLaws.ChangeStatusStores | src/modules/requests/requests.service.ts:59-90 | `changeStatus` stores the target status and otherwise the row as it was loaded; its refusals change nothing |
| StoreLaws.WorkStores | src/modules/classification/classification.processor.ts:37-56 | an attempt throws exactly if the classifier fails or says UNCLASSIFIED, skips exactly if the row is not there, and else stores just the answer's category, urgency and sentiment |
| StoreLaws.RemoveRemoves | src/modules/requests/requests.service.ts:92-96 | `remove` answers exactly if `findOne` does; then no spelling of the id, no tenant, no page and no worker finds the row, `findOne` says not found, a second delivery of its message still finds it, and every other row is as it was |
| StoreLaws.RemovalFinalIff | src/modules/requests/requests.service.ts:92-96 | in serial runs what is removed is never found again, if and only if no two spellings in use denote the same id |
| SerialRuns.RunSane | src/modules/requests/requests.service.ts:19-96 | over every serial run external message ids stay unique and every cache entry is about the tenant's row its key names |
| SerialRuns.UpdateEffect | src/modules/requests/requests.service.ts:46-57 | `update` rewrites exactly the loaded row, with the edit, and never fails once it is loaded |
| SerialRuns.ChangeStatusEffect | src/modules/requests/requests.service.ts:59-90 | `changeStatus` rewrites exactly the loaded row, and only after a miss along a legal edge |
| Coherence.RunCoherent | src/modules/requests/requests.service.ts:31-96 | in every serial run in which no id is spelled in two ways, worker included, an entry belongs to a live row of its tenant and differs from it at most in classification and update time |
| Coherence.CoherentIff | src/common/cache/cache.service.ts:35-37 | the cache is coherent in every serial run if and only if no two spellings in use denote one id |
| Coherence.HidingRunIncoherent | src/modules/requests/requests.service.ts:54-55 | any two spellings of one id make a run in which an update stays hidden behind the cache |
| Coherence.UpdateCanBeHidden | src/modules/requests/requests.service.ts:54-55 | such a run, with the stale title a reader then gets |
| Coherence.FindOneIsLookup | src/modules/requests/requests.service.ts:31-44 | through a coherent cache `findOne` finds nothing exactly when the database does, and otherwise the row, or on a hit a copy that agrees with it and is exact unless it is stale |
| Coherence.LookAgain | src/common/cache/cache.service.ts:16-29 | a second look within 300 seconds shows the row first found in every column, dates cut to the millisecond; a later look reads it anew |
| Coherence.RunExact | src/modules/classification/classification.processor.ts:53-56 | over serial runs in which no id is spelled in two ways, every entry is exactly what the database would return, unless the worker has written the row since the entry was set |
| StaleEntries.FindOneExactIff | src/modules/requests/requests.service.ts:31-44 | after every serial run from the empty store `findOne` is the uncached lookup in every column, the dates of a hit cut to the millisecond, but for classification and update time of rows the worker has written under the entry served, if and only if no two spellings in use denote one id |
| RowHistories.ChangeStatusCommitsIff | src/modules/requests/requests.service.ts:59-90 | `changeStatus` commits if and only if the load misses the cache, finds the row, and the edge is legal |
| RowHistories.ChangeCanBeRefused | src/modules/requests/requests.service.ts:59-85 | a legal change of a request that has just been looked at is refused |
| RowHistories.StatusHistoryLegal | src/modules/requests/entities/request.entity.ts:102-140 | in every serial run in which no id is spelled in two ways, a row starts OPEN, follows only legal edges, and with r reopenings changes at most 4r + 3 times |
| RowHistories.StatusLegalIff | src/modules/requests/entities/request.entity.ts:102-140 | all serial runs keep to the status graph if and only if no two spellings in use denote one id |
| RowHistories.StaleStatusIllegal | src/modules/requests/requests.service.ts:87-88 | any two spellings of one id make a run whose history is OPEN, OPEN, IN_PROGRESS, OPEN |
| RowHistories.StatusCanGoBack | src/modules/requests/requests.service.ts:87-88 | such spellings and such a run exist |
| RowHistories.RunWhole | src/modules/classification/classification.processor.ts:37-56 | in every serial run category, urgency and sentiment are all there or all absent, never the fallback |
| RowHistories.ClassificationLostIff | src/modules/requests/requests.service.ts:46-57 | a classified row loses its classification if and only if an `update` hits a copy cached without one |
| RowHistories.LostOnlyIfStale | src/modules/requests/requests.service.ts:46-57 | and, over serial runs in which no id is spelled in two ways, only if the worker has written the row under the very entry that the update hits |
| RowHistories.ClassificationCanBeLost | src/modules/classification/classification.processor.ts:53-56 | a request looked at, classified and then edited has lost its classification |
| TenantIsolation.NonInterference | src/modules/requests/requests.service.ts:24-96 | whatever other tenants store or cache, a tenant's calls get the same answers and leave its rows and entries the same |
| TenantIsolation.CreateAlikeIff | src/modules/requests/entities/request.entity.ts:74-80 | creating a request is answered alike exactly if the tenant uses the external message id itself, or others use it in both stores or in neither: the one place where tenants can feel each other |
| TenantIsolation.OthersUntouched | src/modules/requests/requests.service.ts:24-96 | no sequence of a tenant's calls changes another tenant's rows or entries |
| MixedRuns.OthersCanBeLeftOut | src/modules/requests/requests.service.ts:24-96 | in a run of many tenants and the worker, leaving out everything that concerns the others changes none of a tenant's replies, rows and entries |
| InterleavingInvariants.RunOk | src/modules/requests/requests.service.ts:31-96 | in every interleaving, every copy of a row held by a call, a job or the cache keeps that row's identity, and every cached value is a logged version |
| InterleavingInvariants.StepEvolves | src/modules/requests/requests.repository.ts:24-26 | no step removes a row or changes its id, tenant or external message id |
| Staleness.BoundedStaleness | src/modules/requests/requests.service.ts:31-44 | a cache hit shows every column of a past version of the tenant's row, dates cut to the millisecond, a version still current 300 seconds ago less the loader's read-to-set gap, under every interleaving and fault |
| Staleness.AlwaysWhole | src/modules/classification/classification.processor.ts:53-56 | in every interleaving every version of every row has a whole classification or none |
| Pipeline.AtMostOnce | src/modules/classification/classification.module.ts:11-22 | in every interleaving with faults: one row per external message id, one job per row, one terminal event per job, at most three attempts, no LLM_CLASSIFIED event of a row never classified, and no CLASSIFICATION_FAILED event before three attempts have failed |
| Pipeline.ExactlyOnce | src/modules/classification/classification.processor.ts:30-102 | when a fault-free run has settled, every row a delivery created has exactly one terminal event, unless it was deleted at the time its job read it, and then none |
| Pipeline.IdempotentReplies | src/modules/webhooks/webhooks.service.ts:25-55 | all replies to one external message id go to one tenant and name one request, and at most one says it was created |
| Pipeline.OverStays | src/modules/webhooks/webhooks.service.ts:25-55 | a reply once given stays as it is |
| Pipeline.LaterReplies | src/modules/webhooks/webhooks.service.ts:29-36 | a delivery that starts after the message has been answered is told the same request, not created, soft deletion included |
| IntakeHistory.ReceivedIsSent | src/modules/webhooks/webhooks.service.ts:38-52 | in every interleaving each row a delivery created was first written as some message sent to its tenant says, OPEN and unclassified, and its job has that message's text |
| IntakeHistory.CreatedAsTold | src/modules/webhooks/webhooks.service.ts:46-54 | whoever is told that a row was created for a message is told of a row first written as that message says |
| SerialAgreement.AloneIsRun | src/modules/requests/requests.service.ts:19-96 | a call left alone ends after at most five steps |
| SerialAgreement.FindOneAgrees | src/modules/requests/requests.service.ts:31-44 | uninterrupted, the awaits of `findOne` do what the serial model says, and tell the same error |
| SerialAgreement.UpdateAgrees | src/modules/requests/requests.service.ts:46-57 | uninterrupted, the awaits of `update` do what the serial model says, and tell the same error |
| SerialAgreement.ChangeStatusAgrees | src/modules/requests/requests.service.ts:59-90 | uninterrupted, the awaits of `changeStatus` do what the serial model says, and tell the same error |
| SerialAgreement.RemoveAgrees | src/modules/requests/requests.service.ts:92-96 | uninterrupted, the awaits of `remove` do what the serial model says, and tell the same error |
| SerialAgreement.CreateAgrees | src/modules/requests/requests.service.ts:19-22 | uninterrupted, the awaits of `create` do what the serial model says, and tell the same error |
| SerialAgreement.InboundAgrees | src/modules/webhooks/webhooks.service.ts:25-55 | uninterrupted, the awaits of `handleInbound` do what the serial model says, reply and error included, plus one job per created request |
| SerialAgreement.AttemptAgrees | src/modules/classification/classification.processor.ts:30-75 | an uninterrupted attempt does what the serial model says; it records its event exactly when it classified, and counts as failed exactly when it threw |
| Settling.JobComesNearer | src/modules/classification/classification.processor.ts:30-75 | every step of a job, retries included, lowers a bound on the steps left to it |
| Settling.BreakComesNearer | src/modules/classification/classification.module.ts:13-18 | so does every fault of a job (a job that waits has none) |
| Settling.CanSettle | src/modules/webhooks/webhooks.service.ts:25-55 | from every world all calls and jobs in progress can be brought to an end without a fault |
| Accounts.FindByEmail | src/modules/users/users.repository.ts:22-24 | finds a user with the email if and only if there is one |
| Accounts.OwnerSound | src/modules/tenants/tenants.repository.ts:44-61 | a tenant comes with exactly one ADMIN; emails and slugs stay unique |
| Accounts.AgentSound | src/modules/users/users.service.ts:15-28 | a created user is an AGENT, so the one ADMIN of each tenant stays the only one |
| AuthRuns.RunGood | src/modules/auth/auth.service.ts:31-116 | in every serial run emails and slugs are unique, every tenant has one ADMIN, every token's claims and dates are right, and a user's row changes only in its slot |
| AuthRuns.RunsStayGood | src/modules/auth/auth.service.ts:31-116 | the same from the empty database on |
| AuthLaws.LoginIff | src/modules/auth/auth.service.ts:48-59 | a login succeeds exactly with the email and the password of a user; any other is refused alike and changes nothing |
| AuthLaws.LoginIffEnrolled | src/modules/auth/auth.service.ts:31-59 | after every serial run, an email and a password can log in if and only if a registration or user creation with just these has succeeded |
| AuthLaws.RegisterStores | src/modules/auth/auth.service.ts:31-46 | `register` succeeds exactly if email, slug and ids are free; tenant and owner have the caller's columns, and the owner is ADMIN and signed in |
| AuthLaws.CreateUserStores | src/modules/users/users.service.ts:15-28 | user creation succeeds exactly if the email is free and the tenant exists; the user has the caller's email and password, is AGENT and not signed in |
| AuthLaws.TokensSay | src/modules/auth/auth.service.ts:93-116 | tokens handed out are of the present second, for 900 and 604800 seconds, with the claims of the user's row; the row gets the hash of the refresh token and keeps the rest |
| AuthLaws.RefreshIff | src/modules/auth/auth.service.ts:61-83 | `refresh` accepts exactly an unexpired refresh token whose hash its user's row has |
| AuthRuns.RotationInvalidatesIff | src/modules/auth/auth.service.ts:61-83 | refreshing invalidates the presented token if and only if it was issued in an earlier second |
| AuthRuns.RotationCanFail | src/modules/auth/auth.service.ts:93-108 | a registration and a refresh within one second, after which the old token is still accepted |
| AuthRuns.OldTokensDie | src/modules/auth/auth.service.ts:61-83 | once tokens are reissued at a later second, no earlier refresh token of the user is ever accepted again |
| AuthRuns.LogoutEndsSession | src/modules/auth/auth.service.ts:85-91 | after logout no refresh token of the user is accepted until a login of the user succeeds |
| AuthRuns.AccessEndsAfterLogout | src/modules/auth/auth.service.ts:96-105 | and unless a login of the user succeeds, every access token of the user has expired 15 minutes after the logout |
| Sessions.AccountsStaySound | src/modules/auth/auth.service.ts:31-116 | in every interleaving, faults included, the same holds of emails, slugs, ADMINs and claims |
| Sessions.AcceptedIff | src/modules/auth/auth.service.ts:61-116 | in every interleaving a refresh token is accepted if and only if it is unexpired and the last save of its user's slot stored it: no logout has been saved since |
| Registrations.RegistrationLeaves | src/modules/auth/auth.service.ts:31-46 | in every interleaving a registration leaves a tenant if and only if it leaves its owner: neither if it is refused, both if it succeeds, and if a fault breaks it off both exactly when the transaction was behind it |
| Sessions.SingleLiveSession | src/modules/auth/auth.service.ts:61-116 | so at most one refresh token of a user is accepted: that of the last slot save, unexpired |
| Sessions.LaterSaveWins | src/modules/auth/auth.service.ts:110-116 | of two overlapping calls the one that saves last has its token accepted, however old |
| SessionExamples.OlderTokenCanWin | src/modules/auth/auth.service.ts:48-59 | two overlapping logins, both answered, after which the token issued a second earlier is the one accepted |
| SessionExamples.FailedRegistrationStays | src/modules/auth/auth.service.ts:42-43 | a registration that fails after its transaction, with tenant and owner left behind |
| SessionAgreement.RegisterAgrees | src/modules/auth/auth.service.ts:31-46 | uninterrupted, the steps of `register` do what the serial model says, and tell the same tokens or error |
| SessionAgreement.LoginAgrees | src/modules/auth/auth.service.ts:48-59 | uninterrupted, the steps of `login` do what the serial model says, and tell the same tokens or error |
| SessionAgreement.RefreshAgrees | src/modules/auth/auth.service.ts:61-83 | uninterrupted, the steps of `refresh` do what the serial model says, and tell the same tokens or error |
| SessionAgreement.LogoutAgrees | src/modules/auth/auth.service.ts:85-91 | uninterrupted, the steps of `logout` do what the serial model says |
| SessionAgreement.CreateUserAgrees | src/modules/users/users.service.ts:15-28 | uninterrupted, the steps of user creation do what the serial model says, and tell the same user or error |
| AuthServices.UserRepository.FindByEmail | src/modules/users/users.repository.ts:22-24 | an entity for the user with that email, or null if there is none |
| AuthServices.UserRepository.FindById | src/modules/users/users.repository.ts:26-28 | an entity for the user of that id, or null |
| AuthServices.UserRepository.Save | src/modules/users/users.repository.ts:18-20 | overwrites that user's row; emails stay unique |
| AuthServices.TenantRepository.CreateTenantWithOwner | src/modules/tenants/tenants.repository.ts:44-61 | both inserts or neither: on failure tenants and users are as before |
| AuthServices.AuthService.Reissue | src/modules/auth/auth.service.ts:110-116 | the slot in the row holds the hash of the refresh token handed out |
| AuthServices.AuthService.Register | src/modules/auth/auth.service.ts:31-46 | state and reply of the serial model if the slot is saved; a failed registration leaves neither tenant nor owner, unless it is the save of the slot that fails, and then both |
| AuthServices.AuthService.Login | src/modules/auth/auth.service.ts:48-59 | state and reply of the serial model |
| AuthServices.AuthService.Refresh | src/modules/auth/auth.service.ts:61-83 | state and reply of the serial model |
| AuthServices.AuthService.Logout | src/modules/auth/auth.service.ts:85-91 | empties the user's slot |
| AuthServices.UsersService.Create | src/modules/users/users.service.ts:15-28 | state and reply of the serial model; the new user is an AGENT of the given tenant |
| Tenants.SlugAlphabet | src/modules/tenants/entities/tenant.entity.ts:54-59 | a slug has only a-z, 0-9 and hyphens, for every name |
| Tenants.SlugFixedPoints | src/modules/tenants/entities/tenant.entity.ts:54-59 | a text is its own slug if and only if it is over that alphabet |
| Tenants.SlugIdempotent | src/modules/tenants/entities/tenant.entity.ts:54-59 | slugging twice is slugging once |
| Tenants.SlugKeepsLetters | src/modules/tenants/entities/tenant.entity.ts:54-59 | a slug keeps every letter and digit of the folded name, in order |
| SlugLaws.SlugLetters | src/modules/tenants/entities/tenant.entity.ts:46-59 | hyphens apart, a slug is the name's characters in order, each as the letter or digit it stands for: A-Z as a-z, the six mapped letters in either case without their marks, every other character as none |
| SlugLaws.SlugOfOne | src/modules/tenants/entities/tenant.entity.ts:54-59 | what becomes of every single character between letters: a hyphen for a hyphen or any of the 25 white space characters, else its letter or nothing |
| Tenants.SlugIgnoresPadding | src/modules/tenants/entities/tenant.entity.ts:57 | white space around a name does not show |
| Tenants.SlugJoinsWords | src/modules/tenants/entities/tenant.entity.ts:59 | each run of white space between words becomes exactly one hyphen: the slugs of the words are joined by it |
| Tenants.Tenant.GenerateDefaults | src/modules/tenants/entities/tenant.entity.ts:40-61 | fills in slug and secret only where they are missing |
| ResponseStripping.ObjectFields | src/common/interceptors/tenant-scope.interceptor.ts:27-39 | of an object: `tenantId` goes unless it is a wrapper, the elements of a wrapper's `data` are stripped, every other key keeps its value |
| ResponseStripping.StripCommutes | src/common/interceptors/tenant-scope.interceptor.ts:20-42 | what is at a path of the stripped tree is what was there, stripped: no more and no less is reached |
| ResponseStripping.StrippedIsClean | src/common/interceptors/tenant-scope.interceptor.ts:20-42 | no object reached through arrays and `data` arrays still has a `tenantId`, wrappers apart |
| ResponseStripping.FixedIffClean | src/common/interceptors/tenant-scope.interceptor.ts:20-42 | stripping leaves a tree alone if and only if it is clean |
| ResponseStripping.StripIdempotent | src/common/interceptors/tenant-scope.interceptor.ts:20-42 | stripping twice is stripping once |

## Left out

- WalkLimits.AscEndsIff: leaves open the tables in which a listed row falls on exactly a millisecond that is too full; there whether the walk gets past depends on where a page happens to end, and `AscWalkEnds`, `AscWalkNeverEnds` and `EndsSoonOrNever` are what is stated.
- WalkLimits.AnySortWalk: bounds the walk and its rows; for sorts other than creation time it does not say which rows are returned, because the cursor does not follow the sort field and rows are indeed skipped.
- Column times outside the years 1 to 9999.
- RequestRepositories.RequestRepository.Save: models the ORM's partial-column update as an overwrite of the whole loaded row; what it does to a row deleted meanwhile (`deletedAt`) is not claimed beyond that.
- RowHistories.StatusHistoryLegal: is about serial runs; loads and saves take no lock, so overlapping `changeStatus` calls can skip edges too.
- TenantIsolation.NonInterference: like `OthersCanBeLeftOut`, is about the tenant's calls on existing requests; creation is answered by `CreateAlikeIff`, since external message ids are unique over all tenants.
- Pipeline.ExactlyOnce: assumes each attempt is followed by completion or `onFailed`; stalled-job redelivery, process crashes and queue retention are not part of this model.
- Pipeline.AtMostOnce: a fault in the insert of an event is one that leaves no event; an insert whose acknowledgement is lost would be retried and could be recorded twice.
- Cursor texts: JSON values other than objects of strings, and non-ASCII bytes in a cursor, read as a bad cursor.
- The `events` relation inside cached and returned rows; events are a separate list, and the CREATED and STATUS_CHANGED kinds, which no code writes, do not occur.
- The suggested reply, token usage and cost of a classification, and the call to the Gemini API: the classifier is an arbitrary answer or failure per attempt.
- argon2, HMAC, JWT signing and random secrets, other than as abstract hashes, token contents and parameters; awaits on hashing belong to the step before them.
- Lower-casing of letters that a slug strips in either case.
- HTTP controllers, guards, decorators, validation pipes, throttling, logging, configuration, health checks, migrations, seeds and containers: plumbing or single-branch code.
- `regenerateWebhookSecret`, `findBySlug`, `findByIdWithSecret`: one-line reads and writes that would add only easy members.
