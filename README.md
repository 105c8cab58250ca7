# Challenges module: a verified model of the progress engine

This project models the core of a browser app for health challenges. The user
joins challenges from a fixed catalog of twelve. They check off one day at a
time, earn a challenge's points when every day is done, and collect badges
(Bronze, Silver, Gold) as completed challenges accumulate. Everything the user
owns is one `{challenges, user}` aggregate, stored as JSON text in a single
`localStorage` slot. A separate service shows a rotating reminder message once
per browser session.

The model has four parts, one module each, plus shared helpers:

- `Catalog` (`catalog.dfy`): the twelve challenge definitions and the two
  lookups over them.
- `StorageService` (`storage.dfy`): the store, as a class `Storage` whose field
  `data` is the slot's content.
  - Every mutator except two reads the aggregate, installing the default one
    when the slot is empty, changes it and writes all of it back.
    - `importData` parses the given text and writes it without reading the slot.
    - `clearAll` removes the slot and runs `init`, so the default is in effect again.
  - A write either succeeds or fails (for example when the quota is exceeded);
    a failed write leaves the slot unchanged.
  - A ghost counter, `failedWrites`, counts the writes that failed. "No write
    failed during this call" is the counter being unchanged. Only `SetData`
    changes the counter: it adds one when its write fails.
  - Each single-write mutator's `ensures` gives the new aggregate in both cases.
- `ChallengeEngine` (`challenge_service.dfy`): the service that drives the store.
  - Each state-changing operation is a method that writes through the store.
    - `joinChallenge` makes one write (`addChallenge`).
    - `leaveChallenge` and `markDayComplete` may make several.
  - Each is specified by a function of the aggregate: `Joined`, `LeaveState`
    and `MarkDay`.
  - When no write fails, the method leaves exactly that function's aggregate.
  - Whatever fails, the challenges and the point total are each either as they
    were or as the function has them.
  - The badges are looser after a failed write:
    - after leaving, they are the old list or the recalculated one;
    - after checking off a day, the old badges stay a prefix and every badge
      added is one the call reports. With a stale count of 5 and the Bronze write
      failing, the list can end as the old one plus Silver, which is neither.
- `EngineLaws` (`engine_laws.dfy`): what the operations promise together.
  - Checking off a day is idempotent.
  - A challenge's points are paid once.
  - The incremental badge award, run before the new progress is saved, lands
    exactly on the recalculated tiers.
  - Joining, checking off and leaving keep the aggregate `Consistent`:
    - ids are unique;
    - earned points match progress;
    - the point total equals the sum of points earned;
    - the badges equal the recalculation.
- `Reminders` (`reminder.dfy`): the once-per-session reminder.
  - It includes JavaScript's `parseInt` and `toString` on the rotation position
    it stores.
  - One check is also a function, `CheckStep`. A second check in the same
    session changes nothing, so a session shows at most one reminder.
  - The rotation is proved to show all four messages over four sessions.
- Shared helpers: `Wrappers` (`Option`), `Seqs` (`find`, `findIndex` and
  `filter`) and `Models` (the persisted records).

Where the source stores JSON, the model keeps the text abstract.
`JsonText` is either the encoding of an aggregate or text that does not parse,
and `Parse` reads it back.

## The badge rules

`checkAndAwardBadges` grants Bronze, Silver and Gold at 2, 5 and 8 completed
challenges. Its own comment says 3, 6 and 9, and so does `recalculateBadges`.
The only caller of `checkAndAwardBadges` is `markDayComplete`. That method runs
the award before it saves the progress that completes the challenge, so the
count the award sees is one short of the real one.

`EngineLaws.AwardTopsUpToRecalculation` shows the two rules agree. The
incremental award at count `n` tops the recalculated badges for `n` up to
exactly the recalculated badges for `n + 1`.

So completing a second challenge grants nothing
(`EngineLaws.SecondCompletionGrantsNothing`), and completing a third grants
Bronze (`EngineLaws.ThirdCompletionGrantsBronze`). A reading of
`checkAndAwardBadges` on its own suggests that two completed challenges earn
Bronze. The model follows the code, where the thresholds are effectively
3, 6 and 9.

## Model

| member | source | states |
|---|---|---|
| Catalog.TableShape | src/app/data/challenges.data.ts:7-107 | The catalog has 12 entries. Entry `i` has id `i + 1`, so ids are unique. Every duration is 7, 10 or 30 days, and every reward is between 45 and 100 points. |
| Catalog.IdsIncrease | src/app/data/challenges.data.ts:7-107 | The table lists its definitions in strictly increasing id order. |
| Catalog.LookupIndex | src/app/data/challenges.data.ts:114-116 | `find`/`findIndex` by id hit position `id - 1` exactly for ids 1 to 12. Every other id is absent. |
| Catalog.GetChallengeById | src/app/data/challenges.data.ts:114-116 | A definition is found exactly when `1 <= id <= 12`. The one found carries the requested id, is the table entry for it, lasts at least a day and pays 45 to 100 points. |
| Catalog.GetAllChallenges | src/app/data/challenges.data.ts:122-124 | The copy has the 12 entries in id order, and each is found again by `getChallengeById` of its own id. |
| Models.NewUserChallenge | src/app/services/challenge.service.ts:73-79 | The joined record copies the definition's id, title, icon, description, points and duration, and carries the given start time. It has one `false` per day and nothing earned, is marked joined, and is not complete for any challenge of a day or more. |
| StorageService.FindChallenge | src/app/services/storage.service.ts:121-124 | `find` by id returns an entry exactly when some entry has the id. The entry returned is the first one with that id. |
| StorageService.UpdateFirst | src/app/services/storage.service.ts:94-103 | The merge touches only the first entry with the id, giving `{...entry, ...updates}`. All other entries and the length are unchanged, and the list is unchanged when no entry has the id. |
| StorageService.RemoveId | src/app/services/storage.service.ts:110-114 | No entry with the id remains. Every other entry is kept, nothing new appears, and an absent id leaves the list as it was. |
| StorageService.RemoveIdKeepsOrder | src/app/services/storage.service.ts:110-114 | Filtering keeps order and multiplicity. For any entry, the entries before it and after it are filtered on their own, and the entry itself stays exactly when its id differs. |
| StorageService.FindAppended | src/app/services/storage.service.ts:82-86 | An entry appended under an id not yet stored is what `find` by that id returns. |
| StorageService.CompletedCount | src/app/services/storage.service.ts:175-180 | The completed count is at most the number of entries. It equals that number exactly when every entry is done, and is 0 exactly when none is. |
| StorageService.IncrementalAward | src/app/services/storage.service.ts:189-210 | None of the granted badges was held before. |
| StorageService.IncrementalAwardIsTierFilter | src/app/services/storage.service.ts:189-210 | The granted badges are exactly the tiers, in Bronze, Silver, Gold order, whose threshold (2, 5, 8) the count reaches and that are not yet held. |
| StorageService.Storage.constructor | src/app/services/storage.service.ts:15-37 | Construction runs `init`. The aggregate is the stored one, or the default one when the slot is empty, and a stored aggregate is left alone. |
| StorageService.Storage.SetData | src/app/services/storage.service.ts:58-66 | A write either stores the aggregate and reports true, or reports false, changes nothing and counts one more failed write. |
| StorageService.Storage.Init | src/app/services/storage.service.ts:22-37 | `init` returns the current aggregate. It leaves an existing one alone, and otherwise stores the default one or nothing. |
| StorageService.Storage.GetChallenges | src/app/services/storage.service.ts:72-75 | The stored list, or the empty list when the slot is empty. |
| StorageService.Storage.AddChallenge | src/app/services/storage.service.ts:82-86 | On success the entry is appended at the end and nothing else changes. On failure nothing changes. |
| StorageService.Storage.UpdateChallenge | src/app/services/storage.service.ts:94-103 | An absent id gives false with no write. On success the list becomes `UpdateFirst`. On failure nothing changes. When no write fails, the result is true exactly when the id is stored. |
| StorageService.Storage.DeleteChallenge | src/app/services/storage.service.ts:110-114 | On success the list is filtered by id, and an absent id still writes and can succeed. On failure nothing changes. |
| StorageService.Storage.GetChallengeById | src/app/services/storage.service.ts:121-124 | The result is present exactly when the store holds the id, and it is the first stored entry with that id (`FindChallenge` on the stored list). |
| StorageService.Storage.GetUserData | src/app/services/storage.service.ts:130-133 | The stored profile, or the empty default profile when the slot is empty. |
| StorageService.Storage.UpdateUserData | src/app/services/storage.service.ts:140-144 | On success the profile becomes `{...user, ...updates}` and the challenges are unchanged. On failure nothing changes. |
| StorageService.Storage.AddBadge | src/app/services/storage.service.ts:151-158 | A held badge gives false with no write. Otherwise, on success, the badge is appended and nothing else changes. When no write fails, the result is true exactly when the badge was not held. |
| StorageService.Storage.AddPoints | src/app/services/storage.service.ts:165-169 | On success the total rises by exactly the amount and nothing else changes. |
| StorageService.Storage.GetCompletedChallengesCount | src/app/services/storage.service.ts:175-180 | The count is `CompletedCount` of the stored challenges, the number of entries marked completed, so it never exceeds the number stored. |
| StorageService.Storage.CheckAndAwardBadges | src/app/services/storage.service.ts:189-210 | The reported badges are `IncrementalAward` of the count and the held badges, whichever writes fail. Challenges, points and reminder time are untouched. The badge list only grows, and every badge it gains is a reported one. When no write fails it grows by exactly the reported badges. |
| StorageService.Storage.ClearAll | src/app/services/storage.service.ts:216-225 | `clearAll` reports true and leaves the default aggregate in effect. The slot holds the default aggregate or nothing. |
| StorageService.Storage.ExportData | src/app/services/storage.service.ts:231-234 | The exported text parses back to the aggregate in effect, and nothing changes. |
| StorageService.Storage.ImportData | src/app/services/storage.service.ts:241-249 | Malformed text gives false with no write. Otherwise the slot becomes the parsed aggregate on success and is unchanged on failure. |
| StorageService.BackupAndRestore | src/app/services/storage.service.ts:231-249 | Importing what was just exported leaves the aggregate unchanged, whether or not the import's write succeeds. |
| ChallengeEngine.RecalcBadges | src/app/services/challenge.service.ts:171-187 | The recalculated badges are the first `min(count / 3, 3)` tiers: one tier per three completed challenges, lowest first. |
| ChallengeEngine.CountTrue | src/app/services/challenge.service.ts:159 | The number of days done is at most the number of days. It equals it exactly when every day is done. |
| ChallengeEngine.CountTrueFlip | src/app/services/challenge.service.ts:159 | Checking off one day that was not done raises the count of days done by exactly one. |
| ChallengeEngine.RoundedPercent | src/app/services/challenge.service.ts:161 | The rounded percentage `p` is the nearest integer to `100 * completed / total`, halves rounding up: `p - 1/2 <= 100 * completed / total < p + 1/2`. It lies between 0 and 100, is 0 with no day done and 100 with every day done, and is above 0 once a day is done, for challenges of up to 200 days. |
| ChallengeEngine.UnjoinedDefinitions | src/app/services/challenge.service.ts:21-28 | Every definition kept is unjoined, and every unjoined definition is kept. |
| ChallengeEngine.UnjoinedKeepsOrder | src/app/services/challenge.service.ts:21-28 | Filtering keeps order and multiplicity. For any definition, the ones before it and after it are filtered on their own, and it stays exactly when it is unjoined. |
| ChallengeEngine.UnjoinedStaysIncreasing | src/app/services/challenge.service.ts:21-28 | Definitions listed in increasing id order stay in increasing id order after the filter. |
| ChallengeEngine.Joined | src/app/services/challenge.service.ts:61-82 | A join keeps the profile and every stored challenge, adds one entry, and `find` by the id then returns the fresh copy of the definition. |
| ChallengeEngine.LeavePoints | src/app/services/challenge.service.ts:92-97 | A never-joined id leaves the total alone, and so does a found challenge with no points earned. When the total covers the earned points, exactly those come off. When the earned points exceed the total, the total is clamped to 0. A non-negative total stays between 0 and what it was. |
| ChallengeEngine.LeaveState | src/app/services/challenge.service.ts:89-108 | After leaving, the challenges are the old list with every entry for the id filtered out (`RemoveId`), so no entry has the id. The total is `LeavePoints`, and the badges are the recalculation over the entries left. A never-joined id keeps the challenges and the total. The reminder time is untouched. |
| ChallengeEngine.MarkDay | src/app/services/challenge.service.ts:117-151 | A check-off succeeds exactly when the entry exists and the day is not yet done. A refused one reports the refusal and changes nothing. No entry is added or removed, no badge is lost, and the reminder time is untouched. |
| ChallengeEngine.ChallengeService.constructor | src/app/services/challenge.service.ts:15 | The service works over the store it is given. |
| ChallengeEngine.ChallengeService.GetAvailableChallenges | src/app/services/challenge.service.ts:21-28 | The result contains exactly the catalog entries whose id no stored challenge has: each one returned is unjoined, and each unjoined entry is returned. |
| ChallengeEngine.ChallengeService.AvailableInCatalogOrder | src/app/services/challenge.service.ts:21-28 | The available challenges come in catalog order, which is strictly increasing id order, so none appears twice. |
| ChallengeEngine.ChallengeService.JoinChallenge | src/app/services/challenge.service.ts:61-82 | Success implies the id is in the catalog and not yet joined, and then the aggregate is `Joined`: the fresh record appended. Otherwise nothing changes. The failed-write counter never decreases, and when no write fails the call succeeds exactly when `CanJoin` holds for the aggregate it started from. |
| ChallengeEngine.ChallengeService.LeaveChallenge | src/app/services/challenge.service.ts:89-108 | The result is the delete's own result, and on success the entries with the id are gone. The total is either unchanged or the clamped deduction. Badges are untouched when the delete fails; otherwise they are either unchanged or the recalculation over what is left. The reminder time is untouched. When no write fails, the result is true and the aggregate is `LeaveState`. |
| ChallengeEngine.ChallengeService.MarkDayComplete | src/app/services/challenge.service.ts:117-151 | The report is `MarkDay`'s report, whatever the writes do. A refused check-off changes nothing. The challenges and the total are each either unchanged or as `MarkDay` has them, so the points are paid at most once. Badges are never lost, and every badge gained is a reported one. The reminder time is untouched. When no write fails the aggregate is `MarkDay`'s aggregate. |
| ChallengeEngine.ChallengeService.GetChallengeStats | src/app/services/challenge.service.ts:158-164 | The total is the number of days and the count done is `CountTrue` of the progress, at most the total and equal to it exactly when all days are done. The percentage is `RoundedPercent` of the two: at most 100, 0 with nothing done, and 100 when all days are done. |
| ChallengeEngine.ChallengeService.RecalculateBadges | src/app/services/challenge.service.ts:171-187 | Either nothing changes, or the badge list is replaced by `RecalcBadges` of the completed count and nothing else changes. When no write fails it is the latter. |
| ChallengeEngine.ChallengeService.GetUserStats | src/app/services/challenge.service.ts:193-207 | The statistics report the stored total and the number of stored challenges. The completed count is `CompletedCount` of the stored challenges: at most the number stored, and equal to it exactly when every stored challenge is done. |
| EngineLaws.AwardTopsUpToRecalculation | src/app/services/storage.service.ts:189-210 | The 2/5/8 award at count `n` on top of the 3/6/9 badges for `n` gives exactly the 3/6/9 badges for `n + 1`. |
| EngineLaws.MarkSuccessShape | src/app/services/challenge.service.ts:122-150 | A successful check-off finds the first entry with the id and sets its day to true. It awards points and badges exactly when that completes the entry with nothing earned before. |
| EngineLaws.MarkChangesOnlyThatDay | src/app/services/challenge.service.ts:122-150 | A check-off succeeds exactly when the entry exists and the day was not yet done. A refused one changes nothing. A successful one changes that day and the entry's earned points, and no other entry. |
| EngineLaws.MarkIsIdempotent | src/app/services/challenge.service.ts:124-126 | Checking off the same day twice gives a refusal the second time and leaves the aggregate as after the first. |
| EngineLaws.FinishedChallengeIsFrozen | src/app/services/challenge.service.ts:124-126 | A challenge with every day done accepts no further check-off. |
| EngineLaws.MarkPaysPointsOnce | src/app/services/challenge.service.ts:135-138 | The total rises by the challenge's points exactly when the check-off completes it with nothing earned before, and the entry then records them as earned. Otherwise the total is unchanged. |
| EngineLaws.MarkCountsOneMore | src/app/services/challenge.service.ts:129-148 | A check-off raises the completed count by one exactly when it completes the challenge. |
| EngineLaws.BadgeCheckSeesCountBeforeSave | src/app/services/challenge.service.ts:135-148 | Badges granted by a check-off are the incremental award for the count after the save minus one. |
| EngineLaws.DefaultIsConsistent | src/app/services/storage.service.ts:25-32 | The default aggregate is consistent. |
| EngineLaws.AppendKeepsConsistent | src/app/services/storage.service.ts:82-86 | Appending an entry with a new id, nothing done and nothing earned keeps the aggregate consistent. |
| EngineLaws.JoinKeepsConsistent | src/app/services/challenge.service.ts:61-82 | Joining keeps a consistent aggregate consistent. |
| EngineLaws.ReplaceKeepsConsistent | src/app/services/storage.service.ts:94-103 | Replacing one entry keeps the aggregate consistent, provided the new entry keeps the id and its earned points match its progress, and the total and badges are adjusted to match. |
| EngineLaws.RemoveKeepsConsistent | src/app/services/storage.service.ts:110-114 | Deleting one entry, taking its earned points off and recalculating the badges keeps the aggregate consistent, and the remaining total is not negative. |
| EngineLaws.MarkKeepsConsistent | src/app/services/challenge.service.ts:117-151 | Checking off a day keeps a consistent aggregate consistent, with the incremental award included. |
| EngineLaws.LeaveDeletesEntry | src/app/services/storage.service.ts:110-114 | With unique ids, deleting a stored id removes exactly that entry's position. |
| EngineLaws.LeavePointsExact | src/app/services/challenge.service.ts:92-97 | When the total covers the earned points, leaving subtracts exactly those points. |
| EngineLaws.LeaveKeepsConsistent | src/app/services/challenge.service.ts:89-108 | Leaving keeps a consistent aggregate consistent. It subtracts exactly the earned points, with no clamping needed, and a never-joined id leaves the aggregate as it was. |
| EngineLaws.SecondCompletionGrantsNothing | src/app/services/challenge.service.ts:135-141 | Completing the second challenge by a check-off grants no badge. |
| EngineLaws.ThirdCompletionGrantsBronze | src/app/services/challenge.service.ts:135-141 | In a consistent aggregate, completing the third challenge grants exactly Bronze, and Bronze is then the only badge held. |
| EngineLaws.LeavingThirdCompletedDemotes | src/app/services/challenge.service.ts:99-105 | Leaving one of exactly three completed challenges takes Bronze away. |
| EngineLaws.LeaveClampsAtZero | src/app/services/challenge.service.ts:92-96 | Leaving a challenge that earned 50 points from a total of 30 leaves 0 points, not -20. |
| EngineLaws.LeaveAbsentOnlyRecalculates | src/app/services/challenge.service.ts:89-107 | Leaving a never-joined id changes nothing except that the badges are recalculated. |
| EngineLaws.JoinTwiceKeepsOneEntry | src/app/services/challenge.service.ts:67-71 | After a join the id is stored exactly once, at the end, and a second join of it is refused. |
| EngineLaws.FreshChallengeStats | src/app/services/challenge.service.ts:158-164 | A freshly joined challenge reads 0 of its days done, out of its full duration, at 0%. |
| Reminders.NatToString | src/app/services/reminder.service.ts:55 | `toString` writes one or more decimal digits with no leading zero, and a single digit below 10. |
| Reminders.DecimalOfNatToString | src/app/services/reminder.service.ts:55 | The digits `toString` writes denote the number written. |
| Reminders.ParseInt | src/app/services/reminder.service.ts:38 | Text without any digit parses to NaN. |
| Reminders.ParseIntOfNatToString | src/app/services/reminder.service.ts:38 | `parseInt` reads back every natural number that `toString` writes. |
| Reminders.ParseIntWithoutDigits | src/app/services/reminder.service.ts:38 | For any white space, optional sign and following text that does not start with a digit, the text parses to NaN. |
| Reminders.ParseIntReadsLeadingDigits | src/app/services/reminder.service.ts:38 | For any white space, optional sign, non-empty run of digits and following text that does not start with a digit, `parseInt` gives the run's value with the sign applied. |
| Reminders.ParseSignedDigits | src/app/services/reminder.service.ts:38 | After the white space, an optional sign and a run of digits give the run's value with the sign applied. |
| Reminders.StartIndex | src/app/services/reminder.service.ts:38-43 | The position read is always a valid message index. A nonzero position comes only from a stored item that parses to it. A stored item that parses to an index in range is used as it is. An absent or empty item reads as 0, and so does one that parses to nothing, to a negative number or to 4 or more. |
| Reminders.StartIndexOfNatToString | src/app/services/reminder.service.ts:38-55 | A position stored by `toString` is read back as that position. |
| Reminders.NextStored | src/app/services/reminder.service.ts:52-55 | The stored text reads back as the following position, wrapping from the last message to the first. |
| Reminders.Rotation | src/app/services/reminder.service.ts:46-55 | Over `n` sessions the `k`-th message shown is the one at `(start + k) % 4`. |
| Reminders.RotationExtends | src/app/services/reminder.service.ts:46-55 | One more session appends the message at the next position. |
| Reminders.RotationContinues | src/app/services/reminder.service.ts:46-55 | After one showing, the following sessions continue the rotation from the stored position. |
| Reminders.FourSessionsShowEveryMessage | src/app/services/reminder.service.ts:15-20 | Four sessions in a row show each of the four messages exactly once, wherever the rotation starts. |
| Reminders.CheckStep | src/app/services/reminder.service.ts:28-59 | With no challenges or in a flagged session nothing changes. With challenges the session is flagged afterwards. At most one message is added, after those already shown. |
| Reminders.OncePerSession | src/app/services/reminder.service.ts:28-59 | A second check in the same session changes nothing, so at most one reminder is shown per session. |
| Reminders.CheckStepAdvances | src/app/services/reminder.service.ts:38-55 | In a new session with challenges, the check shows the message at the stored position and stores the following position. |
| Reminders.Notifier.ShowReminder | src/app/services/reminder.service.ts:49 | Showing a reminder appends the message to those shown. |
| Reminders.ReminderService.CheckAndShowReminder | src/app/services/reminder.service.ts:28-59 | With no challenges, or with the session flag already "true", nothing changes. Otherwise the message at the stored position is shown, the next position is stored and the session flag is set. The new state is `CheckStep` of the old one. |

## Left out

- JSON is abstract. `JsonText` is either an encoding of an aggregate or unparseable text.
  - Text that parses but is not an aggregate is not modelled; the source imports it without checking its shape.
  - Pretty-printing in `exportData` is not modelled either.
- Missing fields are not modelled: the fallbacks `data.challenges || []`, `data.user || {...}` and `points || 0` never fire on the aggregates the model stores.
- StorageService.Storage.ClearAll: an exception from `localStorage.removeItem` (the `false` branch) is not modelled, because removing a key does not fail in the browser's storage API in normal use.
- The default aggregate that `getChallenges`, `getUserData` and `getChallengeById` write when the slot is empty is not modelled, because it cannot be observed: an empty slot already reads as the default.
- ChallengeEngine.ChallengeService.MarkDayComplete and StorageService.Storage.CheckAndAwardBadges: when some badge writes fail, the contracts say only that the badges gained are reported ones, appended after those held. They do not say that each is gained at most once or in tier order.
- The failed-write counter also counts a failed write of the default aggregate by `init`. That write is invisible, since an empty slot already reads as the default. So "no write failed" is slightly stronger than what the exact outcomes need.
- ChallengeEngine.ChallengeService.MarkDayComplete requires the day to lie within the challenge's progress.
  - In the source an index outside the array makes the array grow with holes, or sets a non-index property.
  - This is not modelled because no caller passes such an index.
- ChallengeEngine.ChallengeService.GetChallengeStats requires at least one day, because an empty progress gives NaN in the source.
- ChallengeEngine.RoundedPercent uses exact half-up rounding. Floating-point rounding of `completed / total * 100` is not modelled.
- ChallengeEngine.ChallengeService.JoinChallenge takes the start time as a parameter instead of reading the clock (`new Date().toISOString()`).
- Reminders.ReminderService.CheckAndShowReminder does not model a failing `localStorage.setItem` or `sessionStorage.setItem`.
  - The source does not catch such a failure.
  - In the model both writes always succeed.
- The browser session's lifetime is outside the model: `sessionStorage` being emptied when a new session starts is a browser behaviour. The rotation across sessions is stated as a function, `Rotation`, and lemmas about it.
- The notification display (`NotificationService`) is reduced to the record of messages shown. The UI components and routes are not part of this model.
- `getActiveChallenges`, `getChallengeDefinition` and `getUserChallenge` are one-line forwards to `getChallenges`, `Catalog.GetChallengeById` and `getChallengeById`, and have no members of their own.
- The `console.error` logging in the four catch paths of `src/app/services/storage.service.ts` (reading, writing, clearing, importing) is not modelled: it is output only and changes no state. The model keeps only each path's return value.
- Integers are unbounded: the source's doubles are not modelled, and no value here comes near 2^53.
