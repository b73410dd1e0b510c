# Leaderboard import/retrieve pipeline — a Dafny model

This project models the core of a small leaderboard system for a shooting
sport. The system has two server functions and one browser page:

- `fetchLeaderboard` imports one stage. It fetches the stage metadata from
  the upstream scoring platform, then fetches its scores in one bulk search
  whose constraint lists every score id. It overwrites the stage document, then writes every score
  under its `_id` in one batch.
- `getLeaderboard` reads back a stage's scores, ordered by hit factor from
  high to low.
- The page does four things: it checks the stage id, filters the list by
  display name, resets the page when the filter or the data changes, and
  slices out the current page of the table.

Modules:

- `Types` (`types.dfy`): the upstream records `Leaderboard` and `Score`,
  plus the stored and displayed `LeaderboardEntry`.
- `Ordering` (`ordering.dfy`): what the store's ordered scan promises.
  Hit factors never increase, and the listing holds each stored document
  exactly once: `multiset(listing) == Bag(collection)`. Tie order is left
  open.
- `Store` (`store.dfy`): the document store, a class `Firestore` with a
  map from stage id to stage record. A stage record is the stage document
  plus its `scores` map. The import and retrieve handlers are its methods.
  `FetchLeaderboard` is proved equal to three functions of the old state and
  the environment (`ImportedStages`, `ImportResponse`, `ImportRequests`).
  The lemmas state what an import promises.
- `JsStrings` (`jsstrings.dfy`): the JavaScript `trim`, `toLowerCase` and
  `includes` the page relies on.
- `App` (`app.dfy`): the page state as a class `LeaderboardPage` with
  the React state fields. Its methods are the button and input handlers.
  The filter effect (App.tsx:84-90) runs at the end of every handler that
  changes `searchQuery` or `leaderboardData`.

The outside world is passed in as parameters:

- An `ImportEnv` value holds what the upstream platform answers, the
  import time, and whether the stage write and the batch commit succeed.
- A flag says whether the store read of a retrieve succeeds.
- On the page, the reply of each request is a method parameter. The
  methods return the request the page would send.

## Model

| member | source | states |
|---|---|---|
| `Store.Firestore.FetchLeaderboard` | functions/src/index.ts:17-75 | The new store, the response and the upstream calls are exactly those of the import specification functions, for every upstream reply and store failure |
| `Store.ImportValidation` | functions/src/index.ts:20-25 | Only an absent or empty stage id is refused, so a whitespace id passes (the `!stageId` test of index.ts:22 is `StageIdGiven`). A refused import makes no upstream call, leaves the store unchanged and answers 400 "Stage ID is required." |
| `Store.ImportFetches` | functions/src/index.ts:29-40 | At most two upstream calls. The stage fetch comes first, then one search whose single constraint is `_id` `in` the whole score-id list (built by `ScoreConstraints`, index.ts:32-38). There are two calls exactly when the id is accepted and the stage fetch succeeded |
| `Store.ImportReplacesStageDoc` | functions/src/index.ts:48-52 | Once written, the stage document is exactly {stageName, threshold, createdAt} from the fetched metadata and the import time (built by `MetadataOf`). This holds whatever was stored before, whether or not the batch later commits |
| `Store.Normalize` | functions/src/index.ts:58-63 | The field renaming loses nothing: the document id plus the stored document give back the upstream score |
| `Store.BatchOf` | functions/src/index.ts:55-64 | The batch writes one document per distinct fetched id, and no other document |
| `Store.BatchLastWins` | functions/src/index.ts:56-64 | Take a fetched score whose id no later score repeats. The batch writes exactly its renamed fields under its id |
| `Store.ImportStoresEachScore` | functions/src/index.ts:55-66 | After a commit, each fetched score (the last one, when an id repeats) is stored under its id with exactly displayName/hitFactor/rank/timeInSeconds |
| `Store.ImportUpserts` | functions/src/index.ts:55-66 | After a commit, the stored ids are the old ids plus the fetched ones. A stored score whose id was not fetched is unchanged. The count grows by the number of fetched ids that were not yet stored |
| `Store.FailedCommitKeepsScores` | functions/src/index.ts:48-72 | If the batch is not committed, or cannot be built because the reply has no `results`, the stored scores are unchanged. The stage document still carries the new metadata, and the answer is 500 "Failed to process leaderboard data." |
| `Store.ImportResponds` | functions/src/index.ts:66-72 | The answer is 200 exactly when the batch committed. It is 500 for every failure after validation. A failure before the stage write leaves the store unchanged |
| `Store.ImportIsolatesStages` | functions/src/index.ts:44-66 | An import leaves every other stage's record as it was, and creates no other stage |
| `Store.ReimportIdempotent` | functions/src/index.ts:48-66 | Importing the same upstream data again leaves the same scores and the same stage document, apart from the new `createdAt` |
| `Store.Firestore.OrderedScores` | functions/src/index.ts:93-98 | The ordered scan lists every score document of the stage exactly once, with hit factors non-increasing |
| `Store.Firestore.GetLeaderboard` | functions/src/index.ts:80-112 | A missing or empty id gives 400. A read failure gives 500 "Failed to retrieve leaderboard data." Otherwise the answer is 200 with a permutation of the stage's stored scores, ordered by hit factor from high to low. The method has no `modifies`, so the store is unchanged |
| `Store.ListingLength` | functions/src/index.ts:100-106 | The retrieved list has one entry per stored score document |
| `Store.EmptyStageListsNothing` | functions/src/index.ts:93-106 | A stage never imported, or one with no scores, is retrieved as the empty list |
| `Store.FreshImportListsFetched` | functions/src/index.ts:56-103 | Import into a stage with no stored scores, with distinct ids. A later retrieve then lists exactly the renamed fetched scores, as a multiset |
| `Store.TwoScoreScenario` | functions/src/tests/index.test.ts:95-99 | Import a stage whose upstream scores have hit factors 90 and 80. It is retrieved as exactly those two entries, in that order |
| `Ordering.ListingUnique` | functions/src/index.ts:97 | When no two hit factors tie, there is only one ordered listing, so the unspecified tie order does not matter |
| `JsStrings.Trim` | frontend/src/App.tsx:49 | `trim` never lengthens the id, and what it keeps neither starts nor ends with white space |
| `JsStrings.TrimStart` | frontend/src/App.tsx:49 | Drops exactly the leading white space, using the ECMAScript white-space and line-terminator set |
| `JsStrings.TrimEnd` | frontend/src/App.tsx:49 | Drops exactly the trailing white space |
| `JsStrings.TrimKeepsCore` | frontend/src/App.tsx:49-56 | `trim` keeps one contiguous piece of the input that neither starts nor ends with white space. It drops only white space around it |
| `JsStrings.TrimEmptyIffBlank` | frontend/src/App.tsx:49-52 | The trimmed id is empty exactly when every character of the id is white space |
| `App.SentIdPassesCheck` | frontend/src/App.tsx:49-56 | The id a request carries passes the page's own blank check, and trimming it again would change nothing |
| `JsStrings.ToLower` | frontend/src/App.tsx:86 | Same length, and each character is lower-cased on its own |
| `JsStrings.Includes` | frontend/src/App.tsx:86 | The empty query is always found, and a query is found only in a name at least as long |
| `JsStrings.IncludesIffOccurs` | frontend/src/App.tsx:86 | The left-to-right `includes` search succeeds exactly when the query occurs at some position of the name |
| `JsStrings.IncludesEmpty` | frontend/src/App.tsx:86 | Every name includes the empty query |
| `App.Matches` | frontend/src/App.tsx:86 | An entry matches exactly when the lower-cased query occurs at some position of its lower-cased display name; every entry matches the empty query |
| `App.FilterEntries` | frontend/src/App.tsx:85-87 | The entries whose lower-cased display name contains the lower-cased query, in data order; never longer than the data |
| `App.FilterIsSubsequence` | frontend/src/App.tsx:85-87 | The visible list is a subsequence of `leaderboardData`, in the same order |
| `App.FilterMembership` | frontend/src/App.tsx:85-87 | An entry is visible exactly when it is in the data and its lower-cased display name contains the lower-cased query |
| `App.FilterCount` | frontend/src/App.tsx:85-87 | A matching entry keeps all its copies, and any other entry keeps none |
| `App.FilterIgnoresQueryCase` | frontend/src/App.tsx:85-87 | Typing the query in capitals lists the same entries as typing it lower-cased |
| `App.FilterEmptyQuery` | frontend/src/App.tsx:145 | The empty query keeps every entry, in order |
| `App.Slice` | frontend/src/App.tsx:166 | JavaScript `slice` with non-negative bounds: `s[start..end]` when both are in range, `s[start..]` when only `end` is past the end, empty when `start` is at or past the end or after `end` |
| `App.PageRows` | frontend/src/App.tsx:166 | The rows of one page: at most `rowsPerPage` of them, each from the visible list |
| `App.PageRowsWindow` | frontend/src/App.tsx:166 | The rows shown are `visible[page*rowsPerPage .. min(len, page*rowsPerPage+rowsPerPage))`. A page past the end shows nothing. There are at most `rowsPerPage` rows, each from the visible list |
| `App.PageRowsLocate` | frontend/src/App.tsx:166 | Visible entry i is row i % rowsPerPage of page i / rowsPerPage |
| `App.LeaderboardPage.constructor` | frontend/src/App.tsx:31-42 | Initial state: empty id, data, visible list and query. Page 0, 10 rows per page, no toast |
| `App.LeaderboardPage.FilterEffect` | frontend/src/App.tsx:84-90 | The visible list becomes the filtered data and the page goes back to 0. Nothing else changes |
| `App.LeaderboardPage.SetStageId` | frontend/src/App.tsx:105 | Only the stage id changes |
| `App.LeaderboardPage.ImportLeaderboardData` | frontend/src/App.tsx:48-63 | A blank id sends no request and sets the "Please enter a valid Stage ID." error toast. Otherwise it sends the trimmed id to fetchLeaderboard and sets a success or error toast from the outcome. Only the toast changes |
| `App.LeaderboardPage.FetchLeaderboardData` | frontend/src/App.tsx:65-90 | A blank id sends no request. Otherwise it sends the trimmed id to getLeaderboard. On success the data becomes the returned list, the visible list becomes the filtered list, and the page becomes 0. On failure or a blank id the data, visible list and page are kept. The toast says which case happened |
| `App.LeaderboardPage.SetSearchQuery` | frontend/src/App.tsx:84-90 | The visible list is the data filtered by the new query. The page resets to 0 when the query changed, and stays when the same string is set again |
| `App.LeaderboardPage.ClearFilter` | frontend/src/App.tsx:145 | The query becomes empty and every entry of the data is visible again |
| `App.LeaderboardPage.ChangePage` | frontend/src/App.tsx:190 | Only the page changes |
| `App.LeaderboardPage.ChangeRowsPerPage` | frontend/src/App.tsx:192 | Only rows-per-page changes. The page is not reset |
| `App.LeaderboardPage.RowsShown` | frontend/src/App.tsx:164-166 | The rows are the page slice of the visible list, whose exact window `PageRowsWindow` states; at most `rowsPerPage` rows, each from the visible list |

## Left out

- HTTP handling, CORS, response writing and `axios`. They are replaced by
  the `ImportEnv` parameter and the reply parameters. frontend/src/apiUtils.ts
  is a thin wrapper around `axios.get` and is not part of this model.
- Building the upstream URLs and the `JSON.stringify` of the constraint list
  are not modelled. The model keeps the constraint as a value.
- The score search reply may be only the first page of a paginated result.
  The handler reads `results` once and never asks for the rest, so a long
  score list can be stored in part while the answer is still 200. The model
  takes whatever `results` list the reply holds and does not promise that it
  is every score of the stage.
- App.LeaderboardPage.ImportLeaderboardData and
  App.LeaderboardPage.FetchLeaderboardData: the trimmed id is put into the
  query string without URL encoding, so an id containing `&`, `#`, `+` or `%`
  reaches the server as a different string (`"#7"` arrives as empty and gets
  the 400 answer). The model's request carries the trimmed id itself and does
  not model that transformation.
- `new Date()`: the import time is a parameter. Console logging is left out.
- Store failures and upstream failures are flags and reply variants. A
  stage reply without `scores_list_custom_score` is not modelled.
- Store.Firestore.OrderedScores: its body stands in for the store engine's
  sort. Only its contract describes the store. The engine's tie order is
  deliberately left unspecified.
- Document-id validity is not modelled. A stage id or score `_id` that is
  empty or contains `/` would make the store throw or nest paths.
- A stage field value of `undefined` is not modelled separately. The store
  rejects such a write, which the `setSucceeds` flag covers.
- A score reply with a missing field is not modelled either: the model's
  `Score` always has every field. In the source, `batch.set` throws inside the
  loop, after the stage document was set, so no score is written and the
  answer is 500. The `commitSucceeds` flag set to false gives the same store
  and response.
- Concurrent imports of the same stage and their interleavings are left
  out. Each handler runs as one step.
- Hit factor, threshold and time are JavaScript floats. They are only copied
  and compared, so they are modelled as `int`.
- A query parameter that arrives as an array is not modelled. The stage id
  is an optional string.
- JsStrings.ToLower: lower-cases ASCII letters only. JavaScript's full
  Unicode case mapping is not modelled, and strings are sequences of code
  points rather than UTF-16 code units.
- Rendering, the loading flag and the disabled buttons, and the toast's
  auto-hide timing are left out. The rows-per-page parse is also left out:
  the model receives the parsed number as a `nat`.
- A non-success reply of the page's requests is a `None` reply, or a
  `false` flag for the import. The error detail is not modelled.
- The `setVisibleLeaderboardData(data)` of App.tsx:75 is modelled. Its value
  never survives to the end of the handler, because the effect that follows
  the data change replaces it with the filtered list. The handler's contract
  therefore states the filtered list.
