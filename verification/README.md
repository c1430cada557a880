# Alive-check backend: a verified model

This project is a Dafny model of the backend of a personal liveness monitor.
Each user (a *subject*, identified by a device id) checks in at a chosen
cadence of whole days. Each subject keeps a *squad* of up to five e-mail
addresses. An hourly *sweep* finds subjects who are overdue beyond a grace
window of twice the cadence. It e-mails their squad exactly once per missed
check-in *episode*. The guard for that is a ledger of alerts keyed by
`subjectId_lastCheckInMs`. Other users can *watch* a subject through the
subject's six-character invite code. Each subject's `watchersCount` is kept
equal to the number of watch rows that target it. Deleting an account
cascades through all of this.

A second component, the *alive check*, is a wellness questionnaire. It has a
fallback score and a vibe grade, a limit of five checks per calendar day with
date rollover, a stored history of at most 45 submissions, and a history
view. Its questions come from a fixed bank of forty sets of five questions.
The bank hands out a random set, and it avoids repeating the previous set.

The modules follow the source files:

- `Liveness`, `Records`, `AlertKeys`, `Decimal`, `Text`, `Sweep` and `Registry`
  model `server.js`:
  - `Liveness` holds the timing rules.
  - `Records` holds the user record, the check-in rule and the squad rules.
  - `AlertKeys` and `Decimal` hold the ledger key and its decimal text.
  - `Text` holds `toLowerCase`, `toUpperCase`, `trim` and the e-mail pattern.
  - `Sweep` holds the sweep as a pure function of its snapshot, with its
    lemmas.
  - `Registry` holds the store. It is a class whose handlers update it in
    place, and its invariant is that every counter equals its number of rows.
- `AliveCheck` models `aliveCheck.js`.
- `QuestionBank` models `questionBank.js`.

The sweep loop, the e-mail fan-out, the send tally, the invite-code retries,
the fallback score and the question pick are `while` loops. Each is proved
against a specification function (`Sweep.Plan`, `Sweep.NoticesFor`,
`Sweep.CountDelivered`, `Registry.FirstFree`, `AliveCheck.Total`,
`QuestionBank.Pick`). The properties the source promises
are proved as lemmas about those functions.

Each handler of the store is modelled as one update that runs to completion
with no store failure. The source groups only some of its writes in a batch
or a transaction; see "## Left out" for what that leaves out. Times are integral milliseconds. The clock (`now`,
`today`), fresh ids, the e-mail transport's verdicts (`outcomes`), the
generated invite codes (`candidates`) and the random draws (`draws`) are
parameters.

## Model

| member | source | states |
|---|---|---|
| Decimal.ParseNatText | server.js:439 | the decimal digits of a natural number read back as that number |
| Decimal.IntTextRoundTrip | server.js:439 | the text of a timestamp inside the alert key reads back as the same integer, so distinct times give distinct texts |
| Text.Lower | server.js:890 | lower-casing maps each character and keeps the length (ASCII letters only) |
| Text.Upper | server.js:1006 | upper-casing maps each character and keeps the length (ASCII letters only) |
| Text.Trim | server.js:890 | the result is the slice of the input that starts after its leading spaces, and everything after the result is a space; neither end of the result is a space |
| Text.Utf16Length | server.js:1008 | the length JavaScript reports: between the number of characters and twice that, and equal to it exactly when every character lies in the Basic Multilingual Plane |
| Text.Utf16LengthAppend | server.js:1008 | the length adds up over concatenation, and one character counts 1 inside the Basic Multilingual Plane and 2 outside it, which fixes the length of every string |
| Text.EmojiCodeIsSix | server.js:1008 | four capitals and an emoji are five characters but have length 6 |
| Text.NormalizeEmailIdempotent | server.js:890-891 | lower-casing and trimming twice changes nothing, so stored addresses are their own normal form and the duplicate test compares normal forms |
| AlertKeys.ParseAlertKeyRoundTrip | server.js:439 | the ledger key `userId_ms` can be split back into the subject id and the check-in time |
| AlertKeys.AlertKeyInjective | server.js:439 | two episodes share a key only if they have the same subject and the same last check-in |
| Liveness.EffectiveDays | server.js:115-118 | a cadence of 0 counts as one day; any other cadence is kept |
| Liveness.IntervalMs | server.js:115-118 | the interval is a whole number of days, that number is the effective cadence, and it is positive exactly for non-negative cadences |
| Liveness.IntervalOfValidCadence | server.js:115-118 | for a cadence of 1 to 30 days the interval is `days × 86,400,000` ms |
| Liveness.Evaluate | server.js:431-438 | overdue exactly when the time since the last check-in exceeds twice the interval; the overdue amount is positive and is the excess over the grace window |
| Liveness.GraceBoundaryOnTime | server.js:437 | exactly the grace window elapsed is on time; one more millisecond is overdue by 1 |
| Liveness.SeverityOf | server.js:143-148 | critical from 49 whole hours overdue, elevated from 25 hours, standard below that |
| Liveness.ThreeDaysSilentIsStandard | server.js:143-148 | with a one-day cadence, a subject silent for three days is one day overdue, which is the standard grade |
| Liveness.TimeSpan | server.js:131-141 | the text uses the largest of day, hour and minute whose floored count is positive, otherwise seconds; the amount is the floored count |
| Liveness.FormatTimeDifference | server.js:131-141 | the text is the decimal amount, a space, then the word of the unit `TimeSpan` chooses, with an "s" exactly when the amount is not one |
| Liveness.FormatTimeDifferenceReadsBack | server.js:131-141 | the text up to its first space reads back as the floored count of the chosen unit |
| Liveness.FormatTimeDifferenceExamples | server.js:131-141 | one day reads "1 day", three days "3 days" and ninety minutes "1 hour" |
| Liveness.StatusAt | server.js:834-844 | a check-in is offered when there is none yet or a full interval has passed; otherwise the remaining time is positive and ends exactly one interval after the last check-in |
| Liveness.WatchStatusAt | server.js:1117-1130 | watchers see "missed" exactly when there is no check-in or more than one interval (not the grace window) has passed |
| Liveness.WatchListFlagsBeforeSweep | server.js:1121-1130 | every subject the sweep finds overdue is shown missed, and a subject one interval and 1 ms late is shown missed while still on time for the sweep |
| Liveness.StreakFollowsLiveness | server.js:763-775 | the streak grows exactly when the check-in comes before the subject would be overdue, and restarts at 1 otherwise or on a first check-in |
| Records.NewUser | server.js:86-98 | a new device gets the display name "User", no code, no squad, no check-in, a one-day cadence and zero counters |
| Records.SafeWatchersCount | server.js:121-125 | a stored count reads back unchanged when non-negative and as 0 otherwise |
| Records.RecordCheckIn | server.js:757-783 | one more lifetime check-in, `lastCheckIn` becomes now, the streak rule is applied, and nothing else changes |
| Records.StreakOfOnTimeRun | server.js:763-775 | consecutive check-ins, each within the grace window of the one before, raise the streak by one each time |
| Records.DistinctEmailsPairwise | server.js:891 | in a valid squad no two members share an address |
| Records.WithoutMember | server.js:966 | filtering by id keeps no member with that id and changes the length exactly when such a member existed |
| Records.WithoutMemberKeeps | server.js:966 | the members kept are exactly the squad's members with another id |
| Records.WithoutAbsentMember | server.js:966 | a squad without a member of that id is kept whole |
| Records.WithoutMemberAppend | server.js:966 | the filter distributes over concatenation, so the kept members stay in squad order |
| Records.WithoutMemberValid | server.js:963-975 | removing members keeps a squad valid |
| Records.AddMember | server.js:867-912 | refused in the source's order (missing address, five members, address already present after normalisation, bad format); otherwise exactly the normalised member is appended after the old squad; a request passing every check is accepted |
| Records.AddMemberValid | server.js:883-912 | a successful add keeps the squad at most five, normalised, well-formed and free of duplicates |
| Records.RemoveMember | server.js:963-970 | refused exactly when no member has the id; otherwise the result is `WithoutMember`: exactly the members with another id, in squad order |
| Records.EventsWithout | server.js:1273-1278 | the events kept are exactly those of other subjects |
| Sweep.Decide | server.js:419-449 | a subject is newly alerted exactly when it has a squad, has checked in, is overdue and its episode key is not in the ledger; the alert carries that key and the overdue amount |
| Sweep.NoticesFor | server.js:455-467 | one e-mail per squad member, in squad order, each with the subject and the overdue amount |
| Sweep.Plan | server.js:413-482 | every document is counted; the missed subjects are among those with a squad; the batch has at most one entry per missed subject |
| Sweep.StepFansOut | server.js:455-480 | a new alert appends exactly one e-mail per squad member and one ledger entry listing exactly those addresses; any other outcome adds neither |
| Sweep.PlanBatchKeys | server.js:439-480 | the batch holds exactly the keys of the run's new alerts |
| Sweep.PlanBatchEntries | server.js:469-480 | every batch entry sits under its own episode key, and that key was not in the ledger before |
| Sweep.QuietRun | server.js:437-449 | a run with no new alert queues no e-mail and writes no entry |
| Sweep.SweepIdempotent | server.js:439-449 | against any ledger that holds the committed batch, a second run on the same snapshot sends nothing and writes nothing |
| Sweep.AlertedEpisodeStaysQuiet | server.js:439-449 | a subject alerted once is never alerted again for the same check-in, at any later time, whatever else its document or the ledger then holds |
| Sweep.NoticesComeFromNewAlerts | server.js:451-467 | every queued e-mail belongs to a subject newly found overdue and carries its overdue amount |
| Sweep.LaterRunSkipsAlertedSubjects | server.js:439-449 | after the commit, a later run newly alerts only subjects that the first run did not alert |
| Sweep.NewEpisodeRealerts | server.js:439 | a check-in at a new time starts a new episode whose key differs, so a later overdue is alerted again |
| Sweep.MissedCountIsBatchSize | server.js:451-471 | with one document per subject, the missed count equals the number of ledger entries written |
| Sweep.CountDelivered | server.js:457-462 | the sent count is at most the number of sends, equals it exactly when every send succeeds, and is 0 exactly when every send fails |
| Sweep.CountDeliveredAppend | server.js:457-462 | the sent count adds up over concatenation, and one verdict counts 1 when delivered and 0 otherwise, which fixes the count of every run |
| Sweep.OneFailureOfThree | server.js:455-467 | three squad members with the second send failing give two sent and one failed |
| Registry.Resolved | server.js:69-108 | the middleware works on the stored record, or on the default record for a new device |
| Registry.WatchName | server.js:1052 | a non-blank custom name is used trimmed, otherwise a non-empty display name, otherwise "User " and the code; the name is never empty |
| Registry.FirstFree | server.js:701-716 | the first candidate code nobody holds among the first ten, every earlier one being taken |
| Registry.GeneratedCodeNormal | server.js:59-66 | a generated code is unchanged by the watch route's normalisation and is six code units long |
| Registry.WatchTarget | server.js:998-1043 | the add checks in the source's order (device id, code, six UTF-16 code units after normalisation, a subject holding the code, no existing row of this watcher on it), each refused exactly when it fails; accepted exactly when all pass; the result holds the code and is not yet watched by this watcher |
| Registry.WatchIssuedCode | server.js:998-1043 | a watcher given a subject's issued code, who does not watch it yet, gets that subject |
| Registry.RemovalCheck | server.js:1169-1190 | removal is refused without a device id, for a missing row (not found) and for another device's row (forbidden); accepted exactly for the caller's own existing row, which it yields |
| Registry.AddUserValid | server.js:86-100 | storing a new device's default record keeps the counters equal to the rows |
| Registry.SetCodeValid | server.js:725-728 | giving a subject without a code one that nobody holds keeps codes unique and the invariant |
| Registry.InsertWatchValid | server.js:1056-1068 | a row under a fresh id with one increment of its target keeps every counter equal to its rows |
| Registry.RemoveWatchValid | server.js:1192-1205 | deleting a row with one floored decrement of its target keeps every counter equal to its rows |
| Registry.CommitValid | server.js:485-487 | committing a sweep's batch keeps every ledger entry under its own episode key |
| Registry.DeleteUserValid | server.js:1264-1285 | deleting a subject with the rows on it and its ledger entries keeps the invariant, whatever rows it still watches through, and leaves no key of it |
| Registry.RowsNotTargeting | server.js:1266-1271 | exactly the rows on other subjects remain, unchanged |
| Registry.RowsNotWatchedBy | server.js:1234-1262 | exactly the rows of other watchers remain, unchanged |
| Registry.EntriesNotOf | server.js:1280-1285 | exactly the ledger entries of other subjects remain, unchanged |
| Registry.Bumped | server.js:1061-1067 | only the target's counter changes, to its safe value plus one; every other subject and every other field of the target is unchanged |
| Registry.Dropped | server.js:1197-1205 | only the target's counter changes, to its safe value minus one but never below zero; every other subject and every other field of the target is unchanged |
| Registry.ScanSubjects | server.js:413-482 | the loop's counters, queued e-mails and batch are exactly those of `Sweep.Plan` over the snapshot |
| Registry.ScanSubject | server.js:413-481 | one pass of the loop performs exactly `Sweep.Step` for its document |
| Registry.QueueNotices | server.js:455-467 | the inner loop appends exactly `Sweep.NoticesFor` to the queue |
| Registry.TallySends | server.js:457-462 | with one verdict per send, the sent count is the number of delivered sends, and sent plus failed is the number of e-mails |
| Registry.SnapshotSweepAlertsOverdue | server.js:394-449 | a sweep over the store's snapshot alerts every stored subject that has a squad and is overdue in an episode not yet in the ledger |
| Registry.SnapshotSweepAlertsStored | server.js:394-480 | such a sweep alerts only stored subjects, and its missed count equals its number of ledger entries |
| Registry.Store.ResolveUser | server.js:541-564 | an empty device id is refused; an unknown device gets the default record and is reported new; nothing else changes |
| Registry.Store.GenerateCode | server.js:684-735 | a subject with a code gets it back; otherwise the first of ten candidates nobody holds becomes its code, or the request fails when all ten are taken; an assigned code is a generated one nobody held; nothing else changes |
| Registry.Store.CheckIn | server.js:746-795 | the subject is replaced by `RecordCheckIn` of it and exactly one event with the new streak and total is appended, in one update |
| Registry.Store.Status | server.js:819-854 | replies with `StatusAt` of the subject's record, the cadence with its one-day default, the last check-in, the streak and the total |
| Registry.Store.AddSquadMember | server.js:865-917 | the subject's squad becomes the result of `AddMember`, or is left as it was when that refuses |
| Registry.Store.RemoveSquadMember | server.js:952-975 | the subject's squad becomes the result of `RemoveMember`, or is left as it was when that refuses |
| Registry.Store.AddWatch | server.js:994-1068 | a refusal of `WatchTarget` changes nothing; otherwise one row with the normalised code and the chosen name is added under a fresh id and the target's counter is bumped |
| Registry.Store.LinkWatch | server.js:1045-1068 | inserts the row under the next id together with one increment of its target |
| Registry.Store.RemoveWatch | server.js:1164-1206 | a refusal changes nothing; otherwise the row is deleted and its target's counter is dropped, never below zero |
| Registry.Store.UnlinkWatch | server.js:1192-1205 | deletes the row together with one floored decrement of its target |
| Registry.Store.RunSweep | server.js:386-502 | the queued e-mails, the counters and the ledger after the run are those of `Sweep.Plan` with its batch committed; sent and failed tally the transport's verdicts; nothing else changes |
| Registry.Store.DeleteAccount | server.js:1229-1297 | the subject, the rows it watches through (with their decrements), the rows on it, its check-in events and its ledger entries all go; the counts reported are the sizes of those sets |
| Registry.Store.DropWatcherRows | server.js:1234-1262 | every row the subject watches through is deleted and the counters stay equal to the rows |
| Registry.Store.DropSubject | server.js:1264-1285 | deletes the subject, the rows on it, its events and its ledger entries, and reports how many of each |
| AliveCheck.Clamp | aliveCheck.js:77 | the score is kept within 0..100 |
| AliveCheck.FallbackScore | aliveCheck.js:62-78 | the score is 50 plus every answer's contribution, clamped to 0..100 |
| AliveCheck.TotalUniform | aliveCheck.js:65-75 | answers that each add the same amount add that amount times their number |
| AliveCheck.FallbackExtremes | aliveCheck.js:62-78 | five top-scale answers give 100, five bottom-scale answers give 0, and five enthusiastic words give 90 |
| AliveCheck.VibeOf | aliveCheck.js:80-85 | THRIVING from 80, LIVING from 60, SURVIVING from 40, STRUGGLING below 40, each both ways |
| AliveCheck.VibeMonotone | aliveCheck.js:80-85 | a higher score never gives a worse vibe |
| AliveCheck.DailyCount | aliveCheck.js:402-409 | today's count is the stored count when the stored date is today, and 0 on a new day or without a record |
| AliveCheck.LimitCheck | aliveCheck.js:387-424 | refused, reporting the count used, exactly when today's count has reached 5 |
| AliveCheck.TodayCountOf | aliveCheck.js:766-790 | reports today's count, `max(0, 5 − count)` remaining, and whether the count is below 5 |
| AliveCheck.CanCheckIffLimitPasses | aliveCheck.js:780-786 | the today-count view offers a check exactly when the limit check would let it through |
| AliveCheck.PushSubmission | aliveCheck.js:537-543 | the new submission comes first, the earlier ones follow in their order, and at most 45 are kept |
| AliveCheck.SubmittedEffect | aliveCheck.js:522-553 | a submission adds exactly one to today's count (on the same day or after rollover), dates the record today and adds one lifetime check |
| AliveCheck.HistoryOf | aliveCheck.js:592-615 | a positive limit keeps the first `min(limit, n)` submissions, otherwise all; the total is the lifetime count, or the number returned when that is 0; a device without a record gets an empty history, a total of 0 and no stored count |
| AliveCheck.StoredHistory | aliveCheck.js:601-613 | for a record the routes maintain, the history is non-empty and its total is the lifetime count, at least the number returned |
| AliveCheck.HistoryIsPrefix | aliveCheck.js:601-608 | the history is always a prefix of the stored list |
| AliveCheck.AliveChecks.Submit | aliveCheck.js:489-572 | refusals in the source's order (device id, daily limit, five questions and five answers) change nothing; otherwise the record becomes `Submitted` of it, and the reply's `remaining` is what the today-count view then shows |
| AliveCheck.AliveChecks.GetHistory | aliveCheck.js:584-615 | an empty device id is refused; otherwise the reply is `HistoryOf` of the device's record, which for a stored record is non-empty and totals the lifetime count |
| AliveCheck.AliveChecks.ClearHistory | aliveCheck.js:804-816 | an empty device id is refused; otherwise exactly the device's record is removed, and nothing else changes |
| QuestionBank.BankShape | questionBank.js:9-1314 | the bank holds forty sets of five questions |
| QuestionBank.BankWellFormed | questionBank.js:9-1314 | every choice question has at least two options, and every scale is 1..5 with two labels |
| QuestionBank.TotalSets | questionBank.js:1340 | the number of sets |
| QuestionBank.SumSizesUniform | questionBank.js:1345-1347 | sets that all have size k sum to k times their number |
| QuestionBank.TotalQuestionsCount | questionBank.js:1345-1347 | the total is five times the number of sets, 200 |
| QuestionBank.IndexOf | questionBank.js:1328 | a draw in [0, 1) gives an index within the bank |
| QuestionBank.Pick | questionBank.js:1324-1335 | the index settled on is within the bank and passes the loop's exit test |
| QuestionBank.PickAvoidsLast | questionBank.js:1327-1329 | with more than one set, the previous set is never repeated |
| QuestionBank.PickFirstDraw | questionBank.js:1329 | without a previous set, or with a single set, the first draw is taken; a single set always gives index 0 |
| QuestionBank.PickIsFirstAccepted | questionBank.js:1327-1329 | the pick is the first draw the loop accepts, and every earlier draw hit the previous set |
| QuestionBank.RandomQuestionSet | questionBank.js:1324-1335 | returns `Pick` of the draws, within the bank, never the previous set, and exactly that set's five questions |

## Left out

- Firestore, Express and the HTTP layer are not modelled. Status codes become `Failure` and `Refusal` variants.
- Handlers behind the device middleware resolve the subject first, so the source's later "User not found" replies cannot happen in a sequential store. The model has no such branch.
- The routes for updating the display name and setting the check-in cadence are not modelled. Neither are `/api/users/me` and the squad listing, which only read. Invite codes are unique per subject, an invariant `Registry.Store.GenerateCode` keeps. Code lookup with `limit(1)` therefore finds the one holder. generateCode's random characters are the `candidates` parameter.
- The watch-list route is modelled only for its status rule (`Liveness.WatchStatusAt`). The assembly of the list and its per-row reads are left out.
- Store failures and partial progress are not modelled; every handler runs to completion. Three paths are not atomic in the source:
  - The sweep reads the ledger entry by entry, commits one batch, then sends. If a read or the commit throws (server.js:441-444, 485-487, 498-500), sends already started go out but the ledger stays unwritten, so the next run alerts the same episodes again. `Sweep.SweepIdempotent` and `Sweep.AlertedEpisodeStaysQuiet` hold only after a successful commit.
  - The account cascade (server.js:1229-1297) is six awaited stages of independent writes. A failure part way leaves a half-deleted account, for example the subject gone while rows still target it. `Registry.Store.DeleteAccount` and `Registry.DeleteUserValid` describe only the completed cascade.
  - Code generation (server.js:684-735) queries and then updates outside any transaction. Two concurrent requests could pick the same free code. `Registry.Store.GenerateCode` keeps codes unique only because the model runs requests one at a time.
- Scheduling (`cron.schedule`, `setTimeout`) and concurrency are left out. The `Promise.all` fan-outs become sequential steps. This matters for the account cascade, whose watcher-row transactions run in parallel in the source.
- Registry.Store.RunSweep: takes the query snapshot as a parameter. It does not itself state that the snapshot is the store's check-in subjects. `IsSnapshot` and the two `SnapshotSweep` lemmas state what follows when it is. The e-mails are tallied after the ledger commit, as the source awaits them.
- E-mail HTML, the Resend transport and logging are left out. A send is a `Notice`, and the transport's verdicts are the `outcomes` parameter, one per send in send order.
- `parseInt`/`Number` coercions and NaN are not modelled: inputs are already-parsed integers. `Records.SafeWatchersCount` therefore has no non-finite case.
- Timestamps are integral milliseconds, and calendar dates are opaque strings. The IST date helpers and the reset-time text are not modelled.
- Text.Lower: case mapping covers ASCII letters only, not JavaScript's full Unicode mapping.
- Text.Upper: case mapping covers ASCII letters only and keeps the length. JavaScript's `toUpperCase` maps all of Unicode and can lengthen a string ("ß" becomes "SS").
- Registry.WatchTarget: the code is upper-cased with `Text.Upper`, ASCII letters only. So a code such as "abcdß", which JavaScript turns into six characters and looks up, is refused here for its length. The length itself is counted in UTF-16 code units, as JavaScript does.
- The e-mail pattern is written as a structural predicate (`Text.ValidEmail`), not as a regular-expression engine.
- The OpenAI scoring, prompts and reply parsing are not modelled. The submitted score is a parameter. So are the insights and analytics routes, whose averages use floating point.
- AliveCheck.AliveChecks.Submit: the middleware and the route each read `today` and the record. The model reads them once, so a request that straddles midnight is not modelled.
- The quote, message, emoji and source fields of a stored submission are not modelled.
- QuestionBank.BankShape: the bank keeps each question's id, kind, options and scale labels, but not its wording (`text`), which no operation reads.
- QuestionBank.RandomQuestionSet: `Math.random` is a finite sequence of draws in [0, 1), one of which ends the loop. A run that never ends is not modelled.
