# Agendash back-end, modelled in Dafny

Agendash is a web dashboard for the Agenda job scheduler. Its back-end,
`lib/agendash.js`, reads the collection of job records that Agenda keeps in
MongoDB. It works out each job's lifecycle state from the job's timestamps,
lists the jobs filtered by name and state, and counts the states. It also
changes jobs on request: run now, unlock, enable, disable, requeue, delete and
create. The four "guarded" operations update only the records whose guard
holds and report how many records changed.

The model is organised as follows:

- `results.dfy` (`Results`): `Option` and the `Reply` type, which is either a value or an error message.
- `records.dfy` (`Records`): the job record. A timestamp is an `Option<int>`, and `None` (absent or null) lies below every present time.
- `bson.dfy` (`Bson`): the part of MongoDB's value semantics that the pipelines use. It covers the type order, truthiness and `$ifNull`.
- `classifier.dfy` (`Classifier`): the seven state flags. It holds the literal meaning of both pipeline projections, and a proof that both equal the classifier.
- `listing.dfy` (`Listing`): `getJobs` as a function (name filter, stable sort, classification, state filter, `$limit 200`, `$skip 0`). It is checked against a reference definition in store order.
- `overview.dfy` (`Overview`): the per-name groups and the method that builds the `"All Jobs"` totals row with a loop, as the source does.
- `updates.dfy` (`Updates`): the four conditional multi-record updates. The reported count is MongoDB's `nModified`.
- `agendash.dfy` (`Agendash`): the `Dashboard` class. It holds the job collection, the engine-handle flag `ready`, the title option and a fresh-id counter. Its methods are `api` and the seven control operations.

Some values that come from outside the program become parameters:

- The clock is the parameter `now`, one instant per call.
- The engine's parsing of schedule strings becomes the parameter `firstRunAt`.
- The outcome of the engine's `save` in `createJob` becomes the parameter `saveOk`.

## Model

| member | source | states |
|---|---|---|
| Bson.StampedOrder | lib/agendash.js:53-57 | After `{$ifNull: [field, 0]}`, a timestamp is truthy iff it is present. One is greater than another iff it is earlier in the absent-first order on stamps, and two are equal iff the stamps are equal. |
| Classifier.Classify | lib/agendash.js:61-94 | Each of the seven flags holds exactly when its predicate holds on the raw fields, with an absent stamp below every present one. For example, running iff lastRunAt is present and lastFinishedAt is absent or earlier; repeating iff repeatInterval is non-null; disabled iff disabled is true. |
| Classifier.ProjectionsAgree | lib/agendash.js:50-94 | The listing projection and the overview projection, both evaluated literally over BSON values, give exactly `Classify`. This holds even though the overview pipeline takes repeatInterval without `$ifNull`. |
| Classifier.CompletedExcludesFailed | lib/agendash.js:77-85 | No job is both completed and failed. |
| Classifier.ScheduledAndQueued | lib/agendash.js:68-76 | With a single `now`, a job is both scheduled and queued iff nextRunAt == now and lastFinishedAt is absent or not later than nextRunAt. |
| Classifier.ParseFlagName | lib/agendash.js:34-37 | Every flag name used as a state filter selects that flag. |
| Records.WithName | lib/agendash.js:29-32 | The `{name: job}` match keeps exactly the stored records with that name. |
| Listing.SortByKeyCorrect | lib/agendash.js:45-49 | The sort stage yields a permutation of its input, ordered ascending by (nextRunAt, lastFinishedAt, lastRunAt) with absent values first. |
| Listing.InsertCorrect | lib/agendash.js:45-49 | Inserting into a sorted sequence keeps it sorted and adds exactly the one record. |
| Listing.KeyLeTotal | lib/agendash.js:45-49 | Any two records are comparable under the sort key. |
| Listing.KeyLeTrans | lib/agendash.js:45-49 | The sort key order is transitive. |
| Listing.Classified | lib/agendash.js:50-94 | Each listed row carries its record and exactly the flags the classifier gives it, in input order. |
| Listing.MatchingCount | lib/agendash.js:29-37 | The reference listing holds every stored record that has the requested name and state, as often as it is stored, and no other record. |
| Listing.OrderedCorrect | lib/agendash.js:43-95 | Before the page cut, the pipeline's records are sorted and are a permutation of the reference listing. |
| Listing.GetJobsRows | lib/agendash.js:28-104 | Every row of `getJobs` is a stored record with the requested name (if one is given) whose requested state flag holds, and it carries the classifier's flags. |
| Listing.GetJobsPage | lib/agendash.js:39-40 | The listing is sorted by the key and holds min(number of matching records, 200) rows, all drawn from the matching records. It is all of them when at most 200 match. |
| Listing.GetJobsEarliest | lib/agendash.js:45-49 | When more than 200 records match, every record left off the page sorts no earlier than any record on it. |
| Listing.UnknownStateListsNothing | lib/agendash.js:34-37 | A state name that is not one of the seven flags lists nothing. |
| Listing.GetJobsIsPage | lib/agendash.js:95-97 | The listing is the first min(n, 200) records of the filtered, sorted sequence. |
| Overview.Names | lib/agendash.js:160-162 | The grouping keys are distinct. Every stored record's name is one of them, and every key is the name of some stored record. |
| Overview.ContributionCounts | lib/agendash.js:129-158 | Each record's 0/1 `$cond` values add 1 to total and 1 to exactly the flags the classifier sets. |
| Overview.TallyCounts | lib/agendash.js:169-176 | A group's total is its number of records, and each flag sum is the number of its records with that flag. |
| Overview.GroupsCountEverything | lib/agendash.js:160-177 | The per-name groups together count every stored record exactly once: the sum of their counters equals the counters of the whole collection. |
| Overview.AddRow | lib/agendash.js:188-190 | The inner loop over the eight states adds a group's counters to the running totals, entry by entry. |
| Overview.GetOverview | lib/agendash.js:182-194 | The returned row is `"All Jobs"` with no meta. Its total is the number of records, each flag count is the number of records with that flag, and its counters are the sum of the group rows. With no jobs, every counter is 0. |
| Overview.CountMatchesListing | lib/agendash.js:169-176 | Each flag's total equals the number of records the unfiltered listing for that state would show. The listing shows that many rows, up to 200. |
| Updates.UpdateFrame | lib/agendash.js:228-234 | An update keeps every record's id. A record that is not listed, or whose guard fails, is unchanged. A selected record gets the target value and keeps every other field. |
| Updates.DisableSparesExplicitFalse | lib/agendash.js:350-356 | Disable never changes a record whose disabled is an explicit false. |
| Updates.ModifiedCountsChanges | lib/agendash.js:237 | The reported count is exactly the number of records the update changed. |
| Updates.NothingModifiedIffUnchanged | lib/agendash.js:237-240 | The count is zero iff the collection is left as it was. |
| Updates.ModifiedAtMostMatched | lib/agendash.js:284-290 | Only matched records are modified. For unlock, enable and disable, every matched record is modified. |
| Updates.EmptyIdsModifyNothing | lib/agendash.js:230 | An empty id list modifies nothing, so every guarded operation fails on it. |
| Updates.RepeatModifiesNothing | lib/agendash.js:317-329 | Repeating unlock, enable or disable on the same ids modifies nothing, so the second call fails. Repeating run at the same instant also modifies nothing. |
| Updates.RunAgainLater | lib/agendash.js:228-240 | Repeating run at a later instant modifies every record the first run matched. |
| Updates.ApplyIdempotent | lib/agendash.js:227-234 | Applying an update twice leaves the collection as applying it once does. |
| Updates.ApplyKeepsIds | lib/agendash.js:227-234 | Updates keep ids unique and below the fresh-id counter. |
| Agendash.PlanFor | lib/agendash.js:397-406 | Both supplied gives repeat-at the schedule plus repeat-every the interval. Schedule only gives a one-off at the schedule. RepeatEvery only gives repeat-every. Neither gives no plan, and that is the only case without one. |
| Agendash.Lookup | lib/agendash.js:258 | The find keeps exactly the stored records whose id is listed. |
| Agendash.Without | lib/agendash.js:379 | The cancel keeps exactly the stored records whose id is not listed. Found plus kept records make up the collection. |
| Agendash.RequeuedRecords | lib/agendash.js:263-269 | A requeue creates one record per found record, with the same name and data and an id no stored record has. Ids stay unique and below the advanced counter. |
| Agendash.RequeuedIsDue | lib/agendash.js:264 | A requeued record is scheduled and queued at `now`, and is not running, completed, failed, repeating or disabled. |
| Agendash.CreatedClassification | lib/agendash.js:396-403 | A created record is repeating iff repeatEvery was supplied, and scheduled iff its first run is not in the past. It is never running, completed, failed or disabled. |
| Agendash.RunMakesDue | lib/agendash.js:228-233 | After a run, every selected record is scheduled at `now`. It is queued iff its last finish is not later than `now`. |
| Agendash.WithoutKeepsIds | lib/agendash.js:379 | Deleting keeps ids unique and below the counter. |
| Agendash.FreshId | lib/agendash.js:264 | The initial counter lies above every stored id. |
| Agendash.LookupNone | lib/agendash.js:258-262 | When no listed id is stored, the find returns nothing. |
| Agendash.DeleteAsWrittenRepliesTwice | lib/agendash.js:380-383 | As written, deleting ids none of which is stored draws two replies: the failure, then a success. |
| Classifier.ListingProjection | lib/agendash.js:50-94 | The listing's two `$project` stages evaluated over BSON values. `ProjectionsAgree` proves it equals `Classify`. |
| Classifier.OverviewProjection | lib/agendash.js:109-159 | The overview's two `$project` stages, with repeatInterval taken raw. `ProjectionsAgree` proves it equals `Classify`. |
| Listing.SortByKey | lib/agendash.js:45-49 | The `$sort` stage, as a stable insertion sort. Its contract keeps the length; `SortByKeyCorrect` proves the output sorted and a permutation of the input. |
| Listing.GetJobs | lib/agendash.js:28-104 | `getJobs` as a pipeline of functions. Its contract: never more than 200 rows. `GetJobsRows`, `GetJobsPage` and `GetJobsEarliest` state what the rows are. |
| Overview.Tally | lib/agendash.js:169-176 | The `$sum` accumulators over some records. Its contract: the total is the number of records. `TallyCounts` states each flag sum. |
| Overview.Groups | lib/agendash.js:160-177 | The `$group` stage: one row per distinct name, so no two rows share a name. `GroupsOnePerName` and `GroupsCountEverything` state the rest. |
| Overview.GroupsOnePerName | lib/agendash.js:160-169 | Every stored record's name has a group row. Every group row counts the records of its name, of which there is at least one. |
| Updates.Apply | lib/agendash.js:227-234 | The multi-record conditional `$set`. Its contract keeps the number of records; `UpdateFrame` states what changes and what does not. |
| Updates.Modified | lib/agendash.js:237 | `nModified`, the number of records the update changed (`ModifiedCountsChanges`, `NothingModifiedIffUnchanged`). |
| Agendash.Created | lib/agendash.js:396-403 | The record `createJob` saves. `CreatedFields` and `CreatedClassification` state its fields and its flags. |
| Agendash.CreatedFields | lib/agendash.js:396-403 | A created record keeps its name and data and is due at its first run. Its repeatAt is the schedule iff both strings were supplied. Its repeatInterval is repeatEvery iff that was supplied. It is neither locked, disabled nor run. |
| Agendash.Fresh | lib/agendash.js:264 | The record a requeue saves. `RequeuedIsDue` states its flags. |
| Agendash.Requeued | lib/agendash.js:263-269 | The records a requeue creates, one per found record, in lookup order. `RequeuedRecords` states their names, data and fresh ids. |
| Agendash.DeleteRepliesAsWritten | lib/agendash.js:380-383 | The replies `deleteJobs` issues as written. `DeleteAsWrittenRepliesTwice` shows two replies when nothing is deleted. |
| Agendash.Dashboard.constructor | lib/agendash.js:5-6 | Starts with the given records and options, and with unique ids below the counter. |
| Agendash.Dashboard.Api | lib/agendash.js:198-218 | Fails with "Agenda instance is not ready" when there is no engine handle. Otherwise it returns the `"All Jobs"` totals of the whole collection, the `getJobs` listing, the title (defaulting to "Emarsys Agendash") and the request echoed back with job defaulting to "All Jobs". |
| Agendash.Dashboard.ConditionalUpdate | lib/agendash.js:220-249 | Not ready: fails, store unchanged. Otherwise the store becomes the updated collection. The reply is the operation's fixed message iff nothing was modified (store then unchanged), else the modified count. Ids stay unique. |
| Agendash.Dashboard.RunJobs | lib/agendash.js:220-249 | Sets nextRunAt to now on the listed unlocked records. Fails with "Jobs not found, or jobs were locked." iff nothing was modified, else returns the count. |
| Agendash.Dashboard.UnlockJobs | lib/agendash.js:276-305 | Clears lockedAt on the listed locked records. Fails with "Jobs not found, or jobs were unlocked." iff nothing was modified. |
| Agendash.Dashboard.EnableJobs | lib/agendash.js:307-338 | Clears disabled on the listed records where it is set, including false. Fails with "Jobs not found, or jobs were already enabled." iff nothing was modified. |
| Agendash.Dashboard.DisableJobs | lib/agendash.js:340-371 | Sets disabled to true on the listed records where it is absent or null. Fails with "Jobs not found, or jobs were already disabled." iff nothing was modified. |
| Agendash.Dashboard.RequeueJobs | lib/agendash.js:251-274 | Fails with "Jobs not found", store unchanged, when no listed id is stored. Otherwise it appends and returns one fresh record per found record, in lookup order. Existing records are untouched. |
| Agendash.Dashboard.DeleteJobs | lib/agendash.js:373-388 | Removes exactly the listed records. Replies once: "Jobs not deleted" iff none was stored, else success. |
| Agendash.Dashboard.CreateJob | lib/agendash.js:390-416 | Without schedule and repeatEvery, or when the save fails, replies "Jobs not created" and adds nothing. Otherwise it appends exactly one record built from the chosen plan. Both supplied means schedule is used as repeatAt. |

## Left out

- `public/js/main.js` (the browser views, polling and fuzzy filter) is not part of this model.
- Index creation and the server-version check at start-up (`lib/agendash.js:8-26`) are I/O and a version-string library, so they are left out.
- MongoDB and engine faults are left out. These are the `err` arguments of `aggregate`, `update`, `find`, `cancel` and `save`, and the exceptions caught by each `try`. The dereference of `commandResult` before the `err` check (`lib/agendash.js:237`) is left out too: on a store error it crashes rather than replying.
- `pkFactory` id conversion is left out. Ids are natural numbers, and the fresh-id counter stands in for MongoDB's ObjectId generation.
- `async.parallel` in `api` and `async.series` in requeue are modelled sequentially. Logging is left out.
- The engine's `agenda.create`, `save` and `cancel` are modelled as an append of a record and the removal of records. Parsing of schedule and interval strings is not modelled: the first run time is the parameter `firstRunAt`, and the strings are stored as given. Fields the engine fills in on create or save (type, priority, timezone, lock state) are left absent.
- Agendash.Dashboard.RequeueJobs: assumes every save succeeds. When a save fails, the source inserts nothing but still reports the record as requeued; the model always appends it.
- Agendash.Dashboard.CreateJob: the save outcome is the parameter `saveOk`, because the engine's save is not visible.
- Listing.GetJobs: a state string that names a nested path (for example `job.name`) would match a field of the record in MongoDB. Only the seven flag names are modelled; any other state matches nothing.
- A numeric `repeatInterval` of 0 would be falsy in the pipeline. The model stores intervals as strings, where every present value is truthy.
- String ordering of names and intervals is by code point. Collation is not modelled.
- The order of records that tie on the whole sort key is unspecified in MongoDB. The model keeps store order (a stable sort), so its results about order hold up to such ties only.
- The source reads the clock separately in each predicate. The model uses one `now` per call.
- The overview's group rows, with their metadata sets, are computed (`Overview.Groups`) but not returned, as in the source. The totals row carries no metadata, which the model writes as the empty set.

## Findings

| source | as written | input that shows it | evidently intended | confidence | as-written member | corrected member |
|---|---|---|---|---|---|---|
| lib/agendash.js:380-383 | when the cancel reports nothing deleted, the callback is called with "Jobs not deleted" and then, because there is no `return`, called again with success | `deleteJobs` with ids none of which is stored | a single reply: the failure only | not executed | Agendash.DeleteAsWrittenRepliesTwice | Agendash.Dashboard.DeleteJobs |
