# Harmonic Jam: batched moves between company collections

This project models the core of a small web application that shows companies
grouped into named collections ("My List", "Liked Companies List", and a
hidden "Companies to Ignore List"). A user pages through a collection, ticks
rows, and moves the selection, or the whole collection, to the other list.
The model covers four parts and proves what each promises.

- **Batched move dispatch** (`frontend/src/utils/jam-api.ts`, module `JamApi`,
  with the chunking in module `Partition`). A list that fits in one batch is
  sent as one call. A longer list is cut into chunks of `batchSize` (default
  100), sent one at a time, in order. The first failure is rethrown and no
  later chunk is sent. The remote store is a parameter: a function that answers
  the n-th call with `Ok(body)` or `Err(error)`. A ghost log records the calls
  made.
- **The company table** (`frontend/src/components/CompanyTable.tsx`, class
  `CompanyTable.Table`). Its fields are the component's state. Its handlers run to
  completion and take the replies of their remote calls as inputs. A ghost
  `requests` field records every remote call in order. The rules modelled are:
  - which collection is the destination;
  - the rejections made before any call is sent;
  - clear-and-refetch after a successful move, and keeping the selection after a failed one;
  - the offset arithmetic of pagination.

  The disabled predicates of the two buttons are `Table.MoveDisabled` and
  `Table.MoveAllDisabled`. The first is used by the contract of
  `Table.HandleMoveCompanies`. The second only records line 101 of
  `CompanyTable.tsx`: the move-all handler never reads the busy flag, so no
  contract relies on it.
- **Role resolution** (`frontend/src/App.tsx`, module `App`). The ignore list is
  filtered out by name, the first remaining collection is shown, and the two
  role ids are found by name, with the last match winning.
- **Backend membership routes** (`backend/backend/routes/collections.py`, module
  `Collections`). They work on an in-memory store with a map from collection id
  to name and the association table as a sequence of `(companyId,
  collectionId)` rows in table order. The routes modelled are:
  - the listing with its liked-exclusion filter, total count and offset/limit slice;
  - `move`;
  - `move_all`, which sends its ids in batches of 1000 under one commit or rollback.

  Changes are made on a copy of the table. A commit assigns the copy back, and
  a rollback drops it.

Some behaviour one might expect is absent from the code, and the model does
not add it:
- a failed batched move only rethrows the error. It does not report how many ids moved or which ones did not.
- nothing checks that the source differs from the destination. `CompanyTable.DestinationDiffersFromSource` shows this holds whenever the two role ids differ.
- a fetch reply is applied whenever it arrives. There is no last-request-wins guard.
- switching collection resets the offset but keeps the selection.
- `move_all` is not chunked by the client. The server chunks it.

## Model

| member | source | states |
|---|---|---|
| `Partition.FlattenChunks` | frontend/src/utils/jam-api.ts:84-92 | concatenating the chunks in order gives back exactly the input list |
| `Partition.ChunkSizes` | frontend/src/utils/jam-api.ts:86-88 | every chunk is non-empty and at most `size` long; every chunk but the last is exactly `size` long |
| `Partition.ChunkCount` | frontend/src/utils/jam-api.ts:86 | there are exactly ceil(n / size) chunks |
| `Partition.ChunkAt` | frontend/src/utils/jam-api.ts:86-87 | chunk j is the slice [j*size, (j+1)*size) of the input, cut off at its end, so each position of the input lies in exactly one chunk |
| `JamApi.ChunkArray` | frontend/src/utils/jam-api.ts:84-90 | the `for` loop that steps `i += size` and pushes `slice(i, i + size)` builds exactly `Chunks(ids, size)`; it requires `size >= 1`, since the loop does not advance otherwise |
| `JamApi.MoveCompaniesInBatches` | frontend/src/utils/jam-api.ts:62-105 | the promise rejects exactly when some planned call would fail. The calls made are a non-empty prefix of the plan, in order, each carrying the source, the destination and its chunk; every call before the last succeeded; the promise rejects exactly when the last call failed, with that call's error; it resolves only after the whole plan was sent, to the reply body on the single-call path and to nothing on the batched path |
| `JamApi.SmallListOneCall` | frontend/src/utils/jam-api.ts:69-80 | a list of at most `batchSize` ids (the empty list included) is sent as exactly one call carrying the whole list unchanged; the outcome is that call's body or error |
| `JamApi.PlanCovers` | frontend/src/utils/jam-api.ts:69-92 | the id lists sent cover the input exactly, in order, with at most `batchSize` ids each; a longer list gives ceil(n / batchSize) non-empty lists, all but the last full |
| `JamApi.AllSucceed` | frontend/src/utils/jam-api.ts:92-105 | if every call succeeds, the whole plan is sent and the promise resolves; for n > batchSize that is ceil(n / batchSize) calls |
| `JamApi.FirstFailureStops` | frontend/src/utils/jam-api.ts:93-103 | if call i is the first one to fail, exactly calls 0..i were made, none after them, and the promise rejects with call i's error |
| `JamApi.SentPrefix` | frontend/src/utils/jam-api.ts:93-103 | after a rejected dispatch, every logged call but the last succeeded and the last one failed, carrying its planned chunk. The ids of the succeeded calls, followed by the ids of the failed and never-issued chunks, give back the whole list, so the moved ids are a prefix of it. The log ends at the failed call, so nothing is retried or rolled back |
| `JamApi.FiveInPairs` | frontend/src/utils/jam-api.ts:84-92 | ids 1..5 in batches of 2 are sent as [1, 2], [3, 4], [5] |
| `CompanyTable.DestinationDiffersFromSource` | frontend/src/components/CompanyTable.tsx:36-37 | when `myListId` and `likedCompaniesId` differ, the destination is never the collection being shown |
| `CompanyTable.DestinationRoles` | frontend/src/components/CompanyTable.tsx:36-37 | the destination is always one of the two role ids. Items shown from the liked list go to "My List". When the roles differ, the destination is the liked list exactly when "My List" is shown. With neither role resolved, the handlers' check at lines 42 and 67 finds no destination |
| `CompanyTable.LabelsNameDestination` | frontend/src/components/CompanyTable.tsx:36-39 | the button labels name the collection that the items go to |
| `CompanyTable.Table.constructor` | frontend/src/components/CompanyTable.tsx:7-13 | the initial state is no rows, total 0, offset 0, page size 25, nothing selected, not busy |
| `CompanyTable.Table.FetchCompanies` | frontend/src/components/CompanyTable.tsx:15-25 | one listing request for the current collection, offset and page size; a reply replaces the rows and the total, a failure keeps the previous ones; `fetching` is false afterwards; nothing else changes |
| `CompanyTable.Table.ReceiveProps` | frontend/src/components/CompanyTable.tsx:6-33 | a change of the shown collection resets the offset to 0; the selection, page size and rows are kept |
| `CompanyTable.Table.OnPaginationModelChange` | frontend/src/components/CompanyTable.tsx:128-131 | the offset becomes `page * pageSize` and the page size is recorded; nothing else changes |
| `CompanyTable.Table.OnRowSelectionModelChange` | frontend/src/components/CompanyTable.tsx:125-127 | the selection becomes the ticked rows; nothing else changes |
| `CompanyTable.Table.HandleMoveCompanies` | frontend/src/components/CompanyTable.tsx:41-64 | clicking the enabled button never answers "nothing selected". With no destination (checked first) or an empty selection, no call is made and no state changes. Otherwise the selection is dispatched in batches of 100 as `MoveCompaniesInBatches` specifies. Success clears the selection and fetches the current window again. Failure keeps the selection, the rows and the total. The busy flag is false afterwards in both cases |
| `CompanyTable.Table.HandleMoveAllCompanies` | frontend/src/components/CompanyTable.tsx:66-83 | only the destination is checked; one move-all call is made; success fetches the current window again; the selection is never cleared; the busy flag is false afterwards |
| `App.WithoutIgnoredMembers` | frontend/src/App.tsx:43-45 | the filtered listing holds exactly the collections not named "Companies to Ignore List" |
| `App.WithoutIgnoredAppend` | frontend/src/App.tsx:43-45 | filtering distributes over concatenation, so the kept collections keep their relative order |
| `App.FirstShownIsFirstKept` | frontend/src/App.tsx:47 | the shown collection is the first one not named like the ignore list, and there is none exactly when every collection is |
| `App.LastIdNamedIsLastMatch` | frontend/src/App.tsx:49-55 | a role id is the id of the last collection with that name, and keeps its previous value when no collection has that name |
| `App.LastIdNamedFrom` | frontend/src/App.tsx:49-55 | a resolved role id is either the previous value or the id of a collection with that role's name |
| `App.IgnoreListTakesNoRole` | frontend/src/App.tsx:42-55 | the shown collection, `myListId` and `likedCompaniesId` never come from the ignore list |
| `App.ResolveRoles` | frontend/src/App.tsx:49-55 | the `forEach` that overwrites `myListId` and `likedCompaniesId` ends with the last "My List" id and the last "Liked Companies List" id, or the previous values |
| `App.AppState.constructor` | frontend/src/App.tsx:37-39 | the shown collection and both role ids start undefined |
| `App.AppState.OnCollectionsLoaded` | frontend/src/App.tsx:42-56 | with no listing yet, the shown collection becomes undefined and the role ids are kept. Otherwise the shown collection is the first kept one, and each role id is resolved by last match over the kept collections |
| `App.AppState.SwitchCollection` | frontend/src/App.tsx:58-59 | the shown collection becomes `id`; the role ids are unchanged |
| `Collections.GetCompanyCollectionById` | backend/backend/routes/collections.py:51-114 | the listing fails when the collection does not exist or more than one collection is named like the liked list. Otherwise `total` is the size of the filtered listing, and the page is its [offset, offset+limit) slice with length min(limit, max(0, total - offset)) |
| `Collections.TotalIgnoresWindow` | backend/backend/routes/collections.py:97-101 | the total does not depend on offset or limit |
| `Collections.ListingExcludesLiked` | backend/backend/routes/collections.py:60-95 | the liked list lists all of its members; any other collection lists exactly its members that are not also in a liked list |
| `Collections.RepointRows` | backend/backend/routes/collections.py:159-170 | the loop that sets `collection_id = destination_id` re-points the source rows of the requested companies and returns how many rows matched. When source and destination differ, those are the rows that change |
| `Collections.RepointedTwice` | backend/backend/routes/collections.py:236-250 | moving two batches one after the other equals moving their concatenation once |
| `Collections.MoveMembership` | backend/backend/routes/collections.py:159-172 | when source and destination differ, `move` takes the requested companies out of the source and adds them to the destination. Membership of other collections does not change. Requested ids not in the source are skipped |
| `Collections.OtherCollectionsUnchanged` | backend/backend/routes/collections.py:159-170 | the members of every other collection stay the same, in the same order |
| `Collections.MoveCount` | backend/backend/routes/collections.py:159-173 | when source and destination differ, the reported count is the number of rows that left the source and the number that arrived in the destination. It can be smaller than the number of ids requested |
| `Collections.MoveOntoItself` | backend/backend/routes/collections.py:127-173 | there is no source-versus-destination check: moving a collection onto itself leaves the table unchanged, yet every selected row is counted as moved |
| `Collections.MoveAllEffect` | backend/backend/routes/collections.py:214-233 | the ids to move are exactly the source members not already in the destination. A source row moves exactly when its company is not already in the destination. When source and destination differ, every source member is in the destination afterwards |
| `Collections.Store.MoveCompanies` | backend/backend/routes/collections.py:117-179 | a missing source, a missing destination or a database fault answers status 500 and leaves the table unchanged (the 404 is caught by the generic handler). Otherwise the matching rows are re-pointed, the change is committed, and the matched count is reported |
| `Collections.StageMoveAll` | backend/backend/routes/collections.py:236-250 | the batch loop stops exactly when the faulty batch is one of the planned batches of 1000. Otherwise the staged rows equal all the ids re-pointed at once, and the batches processed are `Chunks(toMove, 1000)` in order |
| `Collections.Store.MoveAllCompanies` | backend/backend/routes/collections.py:182-259 | a missing collection answers 500 and changes nothing. Otherwise the ids to move are processed as `Chunks(toMove, 1000)` and committed once, and the reported count is the number of ids to move. A fault in any batch rolls back all of them |

## Left out

- HTTP transport: the axios wrappers `getCompanies`, `getCollectionsById`, `getCollectionsMetadata` and `moveAllCompanies` are replaced by the remote oracle and by reply parameters. So are the FastAPI routing, the SQLAlchemy session and the Pydantic models.
- Logging and alerts: `console.log`, `console.error`, `print` and `alert` are left out. The handlers return the kind of alert they would show (`CompanyTable.Notice`).
- Rendering: the theme, the MUI buttons, the data grid, and the "Processing..." label.
- Asynchronous scheduling: effects and promises run to completion, one handler at a time. The grid's effect that fetches again after the collection, offset or page size changes is not triggered automatically. A caller invokes `Table.FetchCompanies` after `ReceiveProps` or `OnPaginationModelChange`. Replies cannot arrive out of order, so nothing is claimed about that. In the component, a collection change while the offset is non-zero first fetches the new collection at the old offset, then fetches again at offset 0 once `setOffset(0)` re-renders (CompanyTable.tsx:27-33). Nothing orders the two replies, so the stale page can be the one shown; the model shows only the second fetch.
- `window.history.pushState` in `switchCollection`: browser history.
- `fetch_companies_with_liked` (backend/routes/companies.py) is not part of this model. The listing returns the page's company ids in place of the full records and their `liked` flags.
- `get_all_collection_metadata`: a plain projection of the collection table.
- Row order: the SQL queries have no `ORDER BY`. The model uses table order.
- Collections.GetCompanyCollectionById: offset and limit are natural numbers. A negative value, which the database would reject, is not modelled.
- Collections.Store.MoveCompanies: a database fault is one boolean parameter applied after the rows are staged. Where in the transaction it is raised is not modelled.
- Collections.Store.MoveCompanies: moving a company that is already in the destination gives a duplicate `(company, destination)` row on the success path. If the table has a unique key on that pair, the real commit fails and answers 500. The schema is not part of this model, so `dbFault` is not tied to this case.
- Collections.Store.MoveAllCompanies: a database fault is modelled only as the batch at which it is raised. A fault in the initial queries or in the commit has the same effect (rollback and 500) and is not modelled separately.
- JamApi.MoveCompaniesInBatches: requires `batchSize >= 1`. The only caller passes the default 100. With `batchSize <= 0`, `chunkArray` does not terminate on a non-empty list.
- The remote oracle `JamApi.Remote`: the remote store's reply depends only on the call's position in the dispatch and its payload. Server state across calls is not modelled on the frontend side.
