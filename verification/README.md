# Drive webhook order updater — a Dafny model

`index.js` runs an Express endpoint, `/drive-webhook`, that Google Drive calls
when something changes in a watched folder. The handler does the following:

- It checks that the callback reports new children of the folder.
- It asks Drive for the newest video or image in the folder.
- It claims that file's id in a Firestore ledger (`processed_files`), so the
  file is handled at most once.
- It reads an order code and a role suffix from the file name with a regular
  expression.
- It updates the matching order: `B` sets the start video; no suffix completes
  the order and files a notification; `P<digits>` adds a supplemental file.

This project models that handler as a deterministic step over three stores:

- the ledger of processed file ids (`set<string>`);
- the orders, keyed by their code (`map<string, Order>`);
- the notifications (`seq<Notification>`).

Modules:

- `Wrappers` (wrappers.dfy): the `Option` type.
- `Classifier` (classifier.dfy): the filename pattern
  `^([A-Z0-9]+?)(B|P\d+)?\.(mp4|mkv|jpe?g|png)$` with the `i` flag.
  `Accepts` is the reference definition: one way of matching the whole name.
  `Classify` computes the match. The lemmas prove that `Classify` returns the
  match with the shortest group 1, which is what the lazy `+?` makes the
  engine report.
- `Orders` (orders.dfy): the order document, the viewer URL, the rounded
  duration, the name search over `extraVideos`, and `Route`, the
  suffix-driven update as a value transition.
- `Webhook` (webhook.dfy): `Handle`, the whole request as a function from the
  stores before to the status code and the stores after. `Run` handles a
  sequence of deliveries. The lemmas state the gate, the ledger guard,
  at-most-once processing and an end-to-end scenario.
- `Handler` (handler.dfy): class `Stores` holds the three stores as fields.
  `HandleWebhook` updates them step by step, in the source's order:
  1. claim the file in the ledger;
  2. classify the name and look up the order;
  3. build an `updates` record field by field;
  4. add the notification;
  5. apply the update to the order.

  Its postcondition equates the result with `Webhook.Handle`, so every lemma
  about `Handle` holds for the method.

Inputs the handler takes from outside are parameters:

- the two headers;
- the result of the Drive listing (a failure, no file, or the newest file's id
  and name);
- the current time in milliseconds.

The response is its status code: 200, or 500 when the Drive listing fails.

There is no change-feed cursor: the handler fetches only the newest file
(index.js:46-54), accepts only `update` together with `children`
(index.js:30) and answers only with a status code.

## Model

| member | source | states |
|---|---|---|
| `Classifier.Classify` | index.js:83-90 | a returned code and suffix are a real match of the pattern: code alphanumeric and non-empty, suffix absent, `B` or `P<digits>` in either case, then a dot and an allowed extension in either case |
| `Classifier.LazyCut` | index.js:83 | the lazy group 1 ends at the first position from which the rest can be the optional suffix; no earlier position qualifies |
| `Classifier.ClassifyPicksShortestCode` | index.js:83-90 | whenever the pattern can match, `Classify` finds a match; among all ways of matching, its group 1 is the shortest, and with the same length it is that very match |
| `Classifier.UnrecognisedMeansNoMatch` | index.js:83-87 | a name `Classify` rejects matches the pattern in no way |
| `Classifier.ClassifyStartExample` | index.js:83-90 | "ABC123B.mp4" gives code "ABC123" and suffix "B" |
| `Classifier.ClassifyCompletionExample` | index.js:83-90 | "ABC123.mp4" gives code "ABC123" and an empty suffix |
| `Classifier.ClassifySupplementalExample` | index.js:83-90 | "ABC123P1.jpg" gives code "ABC123" and suffix "P1" |
| `Classifier.ClassifyMarkerAloneExample` | index.js:83-90 | "B.mp4" gives code "B" and an empty suffix |
| `Classifier.ClassifyLowerStartExample` | index.js:83-90 | "abc1b.mp4" matches, with code "abc1" and suffix "b" |
| `Classifier.ClassifyLowerSupplementalExample` | index.js:83-90 | "abc1p2.png" matches, with code "abc1" and suffix "p2" |
| `Classifier.ClassifyRejectsTextExample` | index.js:83-87 | "random.txt" does not match |
| `Classifier.ClassifyRejectsGifExample` | index.js:83-87 | "ABC123.gif", an extension outside the list, does not match |
| `Orders.FileUrl` | index.js:58 | the URL is the fixed Drive prefix, the file id, then "/view"; the id can be read back from it |
| `Orders.FileUrlInjective` | index.js:58 | different file ids give different URLs |
| `Orders.DurationMinutes` | index.js:112-116 | the result is the whole number of minutes nearest to `now - createdAt`, with a tie rounding up, as `Math.round` does |
| `Orders.FindByName` | index.js:127 | the search answers true exactly when some entry of the list has the file's name |
| `Orders.Route` | index.js:100-132 | `B` sets only `videoStart`; no suffix does nothing if `videoEnd` already equals the URL; otherwise it sets `videoEnd`, status "Completed" and `completedAt`, and sets `duration` only when `createdAt` is present; a notification is filed exactly on a fresh completion, carrying the order id, the partner or "" and an empty `readBy`; an upper-case P suffix appends `{name, url}` at the end unless the name is listed, a missing list counting as empty; any other suffix changes nothing; id, partner and `createdAt` never change |
| `Orders.RouteIdempotent` | index.js:103-130 | routing the same file again, at any later time, changes nothing and files no notification |
| `Orders.RoutePreservesUniqueNames` | index.js:125-130 | if the extra-file names are unique, they stay unique; earlier entries keep their places; after a P-suffix file, exactly one entry has its name |
| `Webhook.Handle` | index.js:22-139 | the ledger only grows; the set of order codes is unchanged; notifications are only appended, at most one per request; 500 is answered exactly when a children update meets a failed Drive listing, and then nothing changes; every other answer is 200 |
| `Webhook.GateIgnoresOtherEvents` | index.js:30-33 | a request that is not `update` with `children` answers 200 and changes no store |
| `Webhook.NoFileNoChange` | index.js:53-54 | an empty Drive listing answers 200 and changes no store |
| `Webhook.ProcessedFileIsSkipped` | index.js:62-80 | a file already in the ledger answers 200 and changes no store |
| `Webhook.NewFileIsClaimed` | index.js:62-96 | a new file's id is added to the ledger, and nothing else is added, whatever its name and whether or not its order exists; the answer is 200 |
| `Webhook.SkippedFileOnlyClaims` | index.js:83-96 | an unrecognised name or a missing order leaves orders and notifications unchanged; only the claim remains |
| `Webhook.UnroutedSuffixOnlyClaims` | index.js:100-132 | a suffix that is not `B`, not empty and does not start with an upper-case P leaves orders and notifications unchanged |
| `Webhook.LowerCaseSuffixOnlyClaims` | index.js:83-132 | "abc1b.mp4" and "abc1p2.png" only claim their file |
| `Webhook.RecognisedFileIsRouted` | index.js:92-132 | for a new file with a recognised name and an existing order, that order becomes the router's result and the router's notice is appended; all other orders are untouched |
| `Webhook.Run` | index.js:22-139 | over any sequence of deliveries, the ledger only grows, the order codes stay, and notifications are only appended, at most one per delivery |
| `Webhook.LedgerGrowsAlongRun` | index.js:62-80 | the ledger at an earlier point of a run is contained in the ledger at any later point |
| `Webhook.AtMostOnce` | index.js:62-80 | after one children update has presented a file, every later delivery of a file with the same id (renamed or not) leaves all three stores unchanged |
| `Webhook.StartThenCompletion` | index.js:100-124 | a start file, then a completion file one hour after `createdAt`, leave the order with both links, status "Completed", duration 60, and exactly one new notification for it |
| `Webhook.StartThenCompletionScenario` | index.js:83-124 | the same, with the files "XYZ9B.mp4" and "XYZ9.mp4" |
| `Handler.ApplyUpdates` | index.js:132 | each field the update names takes the update's value; each field it does not name, and the id, partner and `createdAt`, keep the order's value; an empty update leaves the order as it was |
| `Handler.Stores.Claim` | index.js:62-80 | the id is recorded in the ledger; the answer is "claimed" exactly when it was not there before |
| `Handler.Stores.AddNotification` | index.js:118-124 | the notification is appended to the collection |
| `Handler.Stores.UpdateOrder` | index.js:132 | only the order with the given code changes, to the old order with the update applied |
| `Handler.Stores.HandleWebhook` | index.js:22-139 | the status code and the new state of the three stores are exactly what `Webhook.Handle` gives for the old state |

## Left out

- Express setup, routing and `app.listen` (index.js:1-6, 141-143): HTTP plumbing. The response is modelled only as its status code.
- Decoding the service account and initialising Firebase Admin (index.js:8-17). firebase.js is not part of this model: it only sets up credentials.
- Google Drive authentication and the `files.list` query (index.js:37-51): a network call. The model takes its outcome as the input `Listing`: a failure, no file, or the newest file's id and name. Which file is newest is Drive's business.
- Atomicity of the ledger transaction and concurrent deliveries: each request is one sequential step.
- Firestore failures other than "already processed": in the source they answer 500, including partial failure between the notification add (index.js:118) and the order update (index.js:132). Only a failed Drive listing is modelled as the 500 path.
- Several orders with the same code: orders are a map keyed by code, so `where("code", "==", code).limit(1)` becomes a map lookup.
- What Firestore does with an empty update map (index.js:132): a suffix that selects no branch (a lower-case b or p) is modelled as changing no order field, and the model answers 200 there regardless. If Firestore rejects an empty update, the source instead answers 500 from its catch (index.js:135-137), after the ledger claim has been committed.
- Server timestamps and `Timestamp` conversion (index.js:72, 110, 123): times are integer milliseconds. The notification's server timestamp is modelled as `now`. The ledger records only the file id; the marker's `name` and `processedAt` fields are dropped.
- `Orders.DurationMinutes`: does not model floating-point division. It uses the exact rounding `floor((now - createdAt + 30000) / 60000)` of `Math.round((now - created) / 60000)`.
- Field values of unexpected types are not modelled. A header that is not a string is read as a missing header. A `createdAt` without `toDate` counts as absent. A `partner` that is missing or empty gives `""`.
- All `console.log` / `console.error` output.
