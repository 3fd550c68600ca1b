# ResoNote annotator: session state machine and annotation store

A model of the two pieces of the ResoNote lyrics-annotation tool that have behaviour
worth proving:

* the browser client's annotation session (`public/app.js`): the global `state`
  object becomes the class `Session.AnnotationSession`, with the queue of assigned
  tracks, the skip list, the integer cursor, the saved count, the local annotation
  copies and the four per-facet selection sets as fields, and one method per user
  action (load, show next track, skip, toggle a tag, clear, search a facet, save);
* the server's persistence (`server.js`): the annotations directory and the shared
  `_index.json` become the class `AnnotationStore.AnnotationServer`, whose
  `Annotate` method is the `POST /api/annotate` handler; start-up and the
  `GET /api/annotation/:trackId` lookup (`Lookup`) are over that state.

Modelling choices:

* A JavaScript `Set` iterates in insertion order, and `[...set]` is what goes into a
  saved annotation, so each selection set is a duplicate-free `seq<string>` in
  insertion order (`Facets.FacetLists`). Toggling a tag twice restores the set's
  membership always, and the exact list exactly when the tag was absent or was the
  last one added; any other selected tag moves to the end
  (`Facets.ToggledTwiceReorders`, `Facets.ToggledTwiceRestores`).
* `Math.random()` is replaced by an oracle: `draws[i]` is the index
  `Math.floor(Math.random() * (i + 1))` drawn at loop step `i`, so
  `0 <= draws[i] <= i` (`Shuffle.ValidDraws`).
* The outcome of each `fetch` is a parameter: `Load` takes whether both documents
  arrived together with their content; `Save` takes whether the POST succeeded with
  an ok status. The clock (`toISOString`) and the session id are string parameters.
* The 800 ms `setTimeout` after a successful save is collapsed: `Save` clears the
  selections and shows the next track in the same step.
* A string field is "truthy" exactly when it is non-empty; a missing field is the
  empty string (tracks) or `None` (request bodies, `state.tags`, `state.current`).
* On completion `showNextTrack` leaves `state.current` on the last track, as the code
  does. A session can therefore save that track again after completion; the model
  keeps this (`Scenarios.SaveAgainAfterCompletion`), and it is the situation in
  which the `Math.max(0, ...)` of the remaining count matters.
* The code does not bound how often a track is re-queued: a track skipped on its
  second pass goes back on the skip list. A failed save pushes the local copy and
  pops it again, so the state after it is unchanged.
* The record file of track `_index` is the index file itself
  (`annotations/_index.json`). A save of that track writes its record over the
  index, which then has no `by_track`: that save and every later save get 500, and
  the lookup of `_index` shows the index before and the record after
  (`Scenarios.IndexIdOverwritesIndex`).

Files: `wrappers.dfy` (Option), `facets.dfy` (facets, selection lists, toggle),
`tracks.dfy` (tracks and the eligibility filter), `shuffle.dfy` (`shuffleArray`),
`session.dfy` (the client state machine), `store.dfy` (the server),
`scenarios.dfy` (whole sessions through both models).

## Model

| member | source | states |
|---|---|---|
| `Facets.FacetLists.With` | public/app.js:355-364 | replacing one facet's list leaves the other three facets' lists as they were |
| `Facets.FacetLists.Count` | public/app.js:457-458 | the total selection count is 0 exactly when all four sets are empty |
| `Facets.Without` | public/app.js:359 | `Set.delete`: the tag is no longer in the list, which does not grow; `Facets.WithoutMembers` gives the members exactly |
| `Facets.WithoutMembers` | public/app.js:358-359 | deleting a tag keeps exactly the other tags |
| `Facets.Toggled` | public/app.js:358-363 | toggling puts the tag in the list exactly when it was not there; `Facets.ToggledFlips` adds that the other tags keep their membership |
| `Facets.ToggledFlips` | public/app.js:355-364 | toggling flips the tag's membership, keeps every other tag's membership, and keeps the list duplicate-free |
| `Facets.ToggledTwiceSameMembers` | public/app.js:355-364 | toggling the same tag twice restores the set's membership |
| `Facets.ToggledTwiceAbsent` | public/app.js:355-364 | toggling an unselected tag twice restores exactly the same list |
| `Facets.ToggledTwiceReorders` | public/app.js:358-363 | for every list and every selected tag, toggling it twice gives the list without the tag followed by the tag: it moves to the end of the iteration order |
| `Facets.ToggledTwiceReordersExample` | public/app.js:358-363 | deselecting and reselecting `calm` in `[calm, dark]` saves `[dark, calm]` |
| `Facets.ToggledTwiceRestores` | public/app.js:358-363 | for every duplicate-free list, toggling a tag twice gives back exactly the same list iff the tag was not selected or was the last one added |
| `Tracks.IsEligible` | public/app.js:178 | the filter's `x.track_id && x.lyrics`: both strings non-empty; `Tracks.EligibleMembers` ties it to the filter |
| `Tracks.Eligible` | public/app.js:178 | the filtered corpus is no longer than the corpus and holds only eligible tracks; `Tracks.EligibleCount` and `Tracks.EligibleIsSubsequence` pin it exactly |
| `Tracks.EligibleCount` | public/app.js:178 | the filtered corpus holds each eligible track as often as the corpus does and no ineligible track |
| `Tracks.EligibleMembers` | public/app.js:178 | a track is kept iff it is in the corpus with a non-empty id and non-empty lyrics |
| `Tracks.EligibleIsSubsequence` | public/app.js:178 | the filtered corpus keeps the corpus order |
| `Shuffle.Swap` | public/app.js:53 | the destructuring swap: cells `i` and `j` exchange their elements and every other cell keeps its own |
| `Shuffle.ShuffleFrom` | public/app.js:51-54 | the loop from step `i` down to 1 keeps the length; `Shuffle.ShuffleFromPermutes` and `Shuffle.ShuffleFromKeepsAbove` give its effect |
| `Shuffle.Shuffled` | public/app.js:49-56 | the whole loop keeps the length; `Shuffle.ShuffledPermutes` proves it a permutation |
| `Shuffle.SwapMultiset` | public/app.js:53 | one swap permutes the array's elements |
| `Shuffle.ShuffleFromPermutes` | public/app.js:51-54 | any number of loop steps, with any valid draws, only permute the elements |
| `Shuffle.ShuffledPermutes` | public/app.js:49-56 | the shuffled array has the input's length and the same multiset of elements |
| `Shuffle.ShuffleFromKeepsAbove` | public/app.js:51-54 | the steps from `i` down never touch a cell above `i` |
| `Shuffle.ShuffledLast` | public/app.js:51-54 | the last cell ends up holding the element picked by the first draw |
| `Shuffle.ShuffleFromIdentity` | public/app.js:51-54 | when every draw picks `j == i` the order is unchanged |
| `Shuffle.ShuffleArray` | public/app.js:49-56 | copies the input into a fresh array, swaps down from the last cell, and returns the permutation that the draws specify |
| `Session.Vocabulary` | public/app.js:183 | `state.tags[f] \|\| []`: a facet the vocabulary lacks shows an empty list; `Session.FullVocabulary` applies it to every facet |
| `Session.FullVocabulary` | public/app.js:182-183 | every facet gets a displayed list, equal to its vocabulary or empty when the document lacks the facet |
| `Session.InitialQueue` | public/app.js:180 | the queue has length `min(50, eligible count)`, holds only eligible tracks with no track more often than in the corpus, and is a permutation of them when there are at most 50 |
| `Session.Requeue` | public/app.js:253-262 | past the end of the queue the skipped tracks are appended in skip order and the skip list is emptied; otherwise nothing changes; the queue-plus-skip total is kept |
| `Session.RemainingCount` | public/app.js:222-224 | the remaining count is `queue + skipped - cursor` when positive and 0 exactly when the cursor has reached the total |
| `Session.AnnotationSession.Remaining` | public/app.js:222-224 | the counter of the current state is 0 exactly when the cursor has reached queue plus skipped list, and otherwise adds up with the cursor to that total |
| `Session.AnnotationSession.constructor` | public/app.js:1-20 | the initial state: no vocabulary, empty queue, lists and copies, cursor and count 0, four empty sets |
| `Session.AnnotationSession.ShowFullVocabulary` | public/app.js:433-435 | the facet loop sets every facet's displayed list to its vocabulary |
| `Session.AnnotationSession.ResetSelections` | public/app.js:424-436 | all four sets are cleared; the displayed lists are reset to the vocabulary, or left alone when no vocabulary is loaded |
| `Session.AnnotationSession.ToggleTag` | public/app.js:355-364 | only facet `f`'s set changes, to its toggled list |
| `Session.AnnotationSession.ApplySearch` | public/app.js:401-411 | a non-empty query shows the matches, an empty one the whole vocabulary, and only that facet's displayed list changes |
| `Session.AnnotationSession.ShowNextTrack` | public/app.js:252-280 | re-queues per `Requeue`; reports completion iff the cursor is past the queue and nothing was skipped; otherwise displays the track under the cursor if there is one, and leaves `current` as it was when there is none; cursor and remaining count unchanged |
| `Session.AnnotationSession.Load` | public/app.js:162-207 | a failed fetch sets only the session id; a successful one stores the vocabulary, filters the corpus, builds the queue, resets the displayed lists, zeroes the saved count and shows the first track, leaving `current` as it was when no track is shown |
| `Session.AnnotationSession.Start` | public/app.js:177-200 | the part of loading after both documents arrived, with the same guarantees |
| `Session.AnnotationSession.Skip` | public/app.js:441-449 | with no displayed track nothing changes; otherwise the displayed track is appended to the skip list, the cursor moves on by one, the sets are cleared, the saved count and local copies are kept and the remaining count is unchanged |
| `Session.AnnotationSession.Save` | public/app.js:451-518 | refused without change with no displayed track or no selected tag; the payload is the track id and the four sets; success adds one to count and cursor, appends one local copy with the current sets and clears the sets; failure leaves everything as it was |
| `AnnotationStore.InitIndex` | server.js:18-22 | an absent index file is created as `{by_track: {}, total: 0}`; an existing one is kept |
| `AnnotationStore.EntryPath` | server.js:59 | the recorded `annotations/<id>.json` path; `AnnotationStore.EntryPathInjective` proves that distinct ids get distinct paths |
| `AnnotationStore.EntryPathInjective` | server.js:59 | distinct track ids are given distinct recorded paths |
| `AnnotationStore.Upsert` | server.js:58-62 | set the track's entry and recount; `AnnotationStore.UpsertSpec`, `ResaveKeepsTotal` and `TwoDistinctSaves` state its properties |
| `AnnotationStore.UpsertSpec` | server.js:57-62 | the upserted entry holds the track's path and save time, other entries are unchanged, and `total` equals the number of entries |
| `AnnotationStore.ResaveKeepsTotal` | server.js:55-62 | saving the same track again overwrites its save time and does not change `total` |
| `AnnotationStore.TwoDistinctSaves` | server.js:57-62 | two saves of different tracks on a fresh index give `total == 2` |
| `AnnotationStore.AnnotationServer.constructor` | server.js:16-22 | start-up keeps the stored records and initialises the index file |
| `AnnotationStore.Incomplete` | server.js:50 | `!track_id \|\| !selections`; `AnnotationStore.AnnotationServer.Annotate` answers 400 with nothing changed exactly in this case |
| `AnnotationStore.AnnotationServer.Lookup` | server.js:70-79 | for an id other than `_index` the stored record, and `null` exactly when none is stored; for `_index` the index document, the record written over it, or 500 when the file does not parse |
| `AnnotationStore.AnnotationServer.Annotate` | server.js:47-68 | a body without a track id or selections gets 400 and changes nothing; otherwise the record is written and reads back, and with a readable index the entry is upserted and `total` counts the entries; with an unreadable index the answer is 500 after the record was written; a save of `_index` replaces the index file with its record and gets 500 |
| `Scenarios.EmptyCorpusCompletes` | public/app.js:178-200 | an empty corpus gives an empty queue and immediate completion, with no track displayed, so a save is refused |
| `Scenarios.SkipThenRequeue` | public/app.js:252-262 | a skipped track reappears at the tail after the rest of the queue, and the request carries exactly the selected tag |
| `Scenarios.SaveAgainAfterCompletion` | public/app.js:252-262 | completion keeps the last track displayed, so it can be saved twice; the cursor passes the total and the remaining count stays at 0 |
| `Scenarios.SaveThenRead` | server.js:47-75 | a payload stored on a fresh server reads back with the same track id and selections, and the index counts one track |
| `Scenarios.TwoSavesTwoRecords` | server.js:47-75 | two saves of different tracks on a fresh server leave both records readable and the index counting two tracks |
| `Scenarios.IndexIdOverwritesIndex` | server.js:47-75 | a save of `_index` on a fresh server gets 500, so does a later save of another track, and the lookup of `_index` shows the fresh index before and the record after |

## Left out

- DOM rendering, chips, ripple effect, toasts, the loading overlay, the completion modal and the progress percentage and circle (floating point and `Math.PI`): presentation only.
- Font-scale zoom and its `localStorage` entry: floating-point arithmetic and browser storage with a clock-based expiry.
- Fuse.js fuzzy search: a foreign library; `ApplySearch` takes its matches as a parameter and the query already trimmed.
- `fetch` and `Promise.all`, the unused `_index.json` fetch in `loadData`, clipboard access in `copyLyrics`, the Blob download in `downloadAnnotations` and the keyboard shortcuts: network, browser and I/O plumbing.
- Session snapshots (`saveToLocalStorage`, `loadFromLocalStorage`, the `beforeunload` and 30-second interval handlers) and `generateSessionId`: browser storage, clocks and randomness.
- Disabling the save button while a request is in flight, and the 800 ms delay during which `state.current` is still the saved track: the model is sequential, each action completes before the next.
- Express routing, `express.static`, JSON parsing, and write failures of `fs` (other than an unreadable index file): records are an in-memory map keyed by track id.
- `/api/tags` and `/api/tracks`: verbatim file serving with no logic.
- The unlocked read-modify-write of the index file across concurrent requests: the server model handles one request at a time.
- `path.join` normalisation of `track_id` in the record file name (ids containing `/` or `..` that name the same file as another id or the index) and JavaScript's special object keys such as `__proto__`: the model keys records and index entries by the id string itself.
- Request bodies are typed: `selections` is the four facet lists, and a present but falsy value (`0`, `""`, `false`), which the server answers with 400, is treated as missing; a truthy `selections` of any other shape, which the server stores as it is, is not modelled. An index file that parses but has no `by_track` field, on which the server answers 500, counts as `Unreadable`, unless it is the record a save of `_index` wrote (`Overwritten`).
- Non-string `track_id` values (JSON numbers, where `0` is falsy): ids are strings, truthy when non-empty.
- `Load` with a document that arrives with an ok status but fails to parse after `state.tags` was already set: the model treats fetch and parse as one outcome.
