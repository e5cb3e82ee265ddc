# Earthquake notifier: the alert cycle

This project models the alert cycle of a small earthquake notifier. One
cycle (`checkEarthquake`) takes the feature list that a seismic feed
returns. It skips every feature whose id is already in the "sent_alerts"
ledger and collects the others into a batch, in feed order. While it does
so it raises a running priority from the magnitude bands:

- 5.0 to below 6.0 raises it to 0;
- 6.0 to below 8.0 raises it to 1;
- 8.0 and above raises it to 2.

It then sends one push message. The message carries the summary of the
batch and that priority, and it gets expiry and retry settings only at
priority 2. After the dispatch, every batched feature is written to the
ledger with `sent` set. The cycle returns one of three fixed strings or the
summary.

Files:

- `alerts.dfy` (module `Alerts`) holds the data and the functions that
  specify a cycle. These are the tier of a magnitude, the running priority,
  the batch, the push message, the ledger after marking and `CycleSpec`,
  which is the whole cycle as a function of the ledger, the feed, the
  summary and the store faults.
- `notifier.dfy` (module `Notifier`) holds the class
  `EarthquakeNotifier`. Its `ledger` field is a `map` standing in for the
  document store, and its ghost `dispatched` field logs every push message.
  Its methods follow the source's steps and loops, and each is proved
  against the functions of `Alerts`.
- `alert_lemmas.dfy` (module `AlertLemmas`) proves the properties of the
  cycle about those functions. It covers the maximum priority, the batch
  contents and order, the ledger only growing, at most one dispatch,
  nothing written without a dispatch, and two cycles over the same feed
  dispatching once.

The external collaborators become inputs:

- The feed request is a `FeedResult`: either a failed request, or the
  response's `features` member, which may be absent.
- The summarizer's answer is an `Option<string>`, None when the call throws.
- A failing ledger read or write is given by its position in `Faults`.
  A failing read aborts the cycle before anything is dispatched. A failing
  write aborts the marking loop after the earlier writes have been stored.
  Both make the cycle return the error string.
- A push delivery error is only logged by the source, so the model always
  appends the message to `dispatched`.

A magnitude is an `Option<real>`: None stands for a record without `mag`.
In the source, each band test is a pair of comparisons such as
`mag >= 5.0 && mag < 6.0`. A `null` magnitude converts to 0, so its `<`
halves are true but every `>=` half is false; an `undefined` one makes
every comparison false. Either way no band matches, so a None leaves the
priority unchanged.

What the code does, and so what the model does:

- The priority uses only the three magnitude bands above.
- Every new feature is batched, dispatched and marked, whatever its
  magnitude. A batch whose features are all below 5.0 is still sent, with
  priority -1.
- There is one dispatch per cycle.
- A failing summarizer makes the cycle return the error string, and it
  writes no ledger record.

`Alerts.CycleSpec` is the whole of `checkEarthquake`
(functions/index.js:16-81) as one function. `Alerts.Batch` and
`Alerts.Priority` are the scan loop (functions/index.js:25-56), and
`Alerts.ScanSpec` adds its failing ledger read. `Alerts.Marked` is the
marking loop (functions/index.js:68-71). The lemmas in `AlertLemmas` state
the properties of these definitions, and the methods of
`EarthquakeNotifier` are proved equal to them.

## Model

| member | source | states |
|---|---|---|
| `Alerts.Tier` | functions/index.js:37-54 | A magnitude in 5.0 to below 6.0 has tier 0, in 6.0 to below 8.0 tier 1, and 8.0 or more tier 2 (each an if-and-only-if); any other magnitude, or none, has tier -1. |
| `Alerts.Raise` | functions/index.js:38-53 | One step of the running priority is the larger of the priority and the tier: it is at least both and equal to one of them. |
| `Alerts.Priority` | functions/index.js:22-54 | The running priority of a batch always stays within -1..2. |
| `Alerts.AlertPayload` | functions/index.js:99-107 | The push message carries the summary, `html = 1` and the batch priority; `expire = 3600` and `retry = 180` are present if and only if the priority is above 1. |
| `Alerts.Written` | functions/index.js:68-71 | When the write at a batch position below the batch length fails, exactly the writes before that position complete. Otherwise every write completes. |
| `AlertLemmas.PriorityIsMax` | functions/index.js:22-54 | The batch priority is the maximum tier over the batched features, and it is -1 exactly when no batched feature reaches 5.0. |
| `AlertLemmas.PriorityMonotone` | functions/index.js:38-53 | Processing more features never lowers the running priority. |
| `AlertLemmas.BatchMembers` | functions/index.js:25-56 | A feature is batched if and only if it is in the feed and its id is not in the ledger, whatever its magnitude. |
| `AlertLemmas.BatchAppend` | functions/index.js:25-56 | The batch keeps feed order: the batch of two concatenated feeds is the concatenation of their batches. |
| `AlertLemmas.BatchOfSent` | functions/index.js:30-33 | When every feed id is already in the ledger, the batch is empty. |
| `AlertLemmas.MarkedKeys` | functions/index.js:68-71 | After the marking loop, the ledger's keys are the old keys plus the batched ids. |
| `AlertLemmas.MarkedEntries` | functions/index.js:130-133 | Marking keeps every record outside the batch unchanged, and stores each batched id with a record of that id with `sent` set. |
| `AlertLemmas.MarkedWellFormed` | functions/index.js:130-133 | Marking keeps every stored record under its own id with `sent` set. |
| `AlertLemmas.MarkedGrows` | functions/index.js:68-71 | Marking a batch of ids not yet in the ledger loses no key and overwrites no existing record. |
| `AlertLemmas.MarkedPrefixGrows` | functions/index.js:68-71 | The same holds when a failing write stops the marking loop part-way: the ledger gains only batched ids. |
| `AlertLemmas.FeedCovered` | functions/index.js:25-56 | After the scan, every feed id is either already in the ledger or the id of a batched feature. |
| `AlertLemmas.CycleDispatch` | functions/index.js:24-66 | A cycle dispatches exactly when the feed has features, no ledger read fails, some feature is new and the summarizer answers. The one message carries the summary and the priority of the batch, and the batch is exactly the new features. Without a dispatch, the ledger is unchanged. |
| `AlertLemmas.CycleFixedResults` | functions/index.js:16-81 | A failed fetch or ledger read returns the error string. A missing or empty feature list returns "No significant earthquakes detected.", and an all-sent feed returns "No new earthquakes detected.". None of these dispatches or writes. |
| `AlertLemmas.CycleLedgerGrows` | functions/index.js:63-73 | Across a cycle the ledger loses no key and overwrites no existing record. Its new keys are batched ids, and a well-formed ledger stays well-formed. |
| `AlertLemmas.CycleCommit` | functions/index.js:63-79 | After a dispatch, the cycle returns the summary exactly when every write succeeds, and then every batched feature is in the ledger with `sent` set. A failed write returns the error string. Every feature written before the failing write is in the ledger with `sent` set. |
| `AlertLemmas.CycleIdempotent` | functions/index.js:30-33 | After a cycle that dispatched and stored its whole batch, a second cycle over the same feed returns "No new earthquakes detected.", dispatches nothing and writes nothing, so the two cycles dispatch exactly once. |
| `AlertLemmas.ExampleCriticalThenRerun` | functions/index.js:16-81 | A magnitude 8.0 feature is dispatched at priority 2 with expiry 3600 and retry 180, and the rerun reports nothing new. |
| `Notifier.EarthquakeNotifier.constructor` | functions/index.js:11-13 | The notifier starts from a given ledger with no message dispatched. |
| `Notifier.EarthquakeNotifier.CheckIfAlertSent` | functions/index.js:119-127 | The lookup answers whether the id is in the ledger, and fails exactly when the store read fails. |
| `Notifier.EarthquakeNotifier.MarkAlertAsSent` | functions/index.js:130-139 | A successful write stores the feature with `sent` set under its id; a failed write changes nothing and is reported. |
| `Notifier.EarthquakeNotifier.SendAlert` | functions/index.js:91-116 | Builds the message step by step and appends exactly the `AlertPayload` of the summary and priority to the dispatch log; a delivery error does not stop it. |
| `Notifier.EarthquakeNotifier.Scan` | functions/index.js:22-56 | The scan loop, with the ledger as it was at the start, produces the batch of new features and its running priority, or fails at a failing ledger read. |
| `Notifier.EarthquakeNotifier.MarkAllAsSent` | functions/index.js:68-71 | The marking loop writes the batch in order up to the first failing write and leaves the ledger as `Marked` of that prefix. |
| `Notifier.EarthquakeNotifier.CheckEarthquake` | functions/index.js:16-81 | One cycle leaves the ledger, returns the string and appends to the dispatch log exactly what `CycleSpec` gives, so every `AlertLemmas` property holds of it. |

## Left out

- The summarizer (`functions/ai.js`) is a chat-completion request whose text is not determined, so its answer is an input.
- The feed request and its URL (functions/index.js:17-21) are network I/O, so the feed is an input `FeedResult`.
- The push-delivery service and its asynchronous callback are external. Only the message handed to it is modelled, and its error is only logged.
- The document store is replaced by an in-memory map, and its failures are given as positions in `Faults`.
- The HTTP and scheduled trigger functions, their default coordinates and their cron schedule (functions/index.js:141-162) only pass parameters, so they are not modelled.
- Overlapping invocations, and the check-then-act race between them, are concurrency, which a sequential model does not capture.
- Magnitudes are `real`, so floating-point rounding and NaN are not modelled. An absent magnitude is None.
- Console logging is not modelled.
- A feature's other fields (title, time, coordinates) are never compared or branched on, so a `Feature` holds only `id`, `mag` and `sent`. In the source they are serialized into the summarizer's input (functions/index.js:63) and written to the ledger with the record (functions/index.js:133). The summary is an input here, and the stored record keeps only the modelled fields.
- A malformed feed record is not modelled. In the source, an id the store rejects throws at the ledger lookup. A record without `properties` throws only when its id is not in the ledger, because the magnitude is first read at functions/index.js:38, after the skip at functions/index.js:31-33. The catch turns either into the error string.
- Setting `sent` on the batched object in place is modelled as storing a copy with `sent` set. Nothing reads the object afterwards.
