# CreoTask rules in Dafny

CreoTask is a Next.js freelancing and contest platform. Most of it is user
interface. Beneath the interface sits a set of small, deterministic rules,
and this project models those rules and proves properties of them:

- **The gamification engine.** A points total, a five-level threshold
  table, achievements that unlock once, and the toasts the engine emits. It
  also covers the values that the points display, the dashboard, the
  achievement card, the achievements page, the daily-streak card and the
  profile page derive from that state.
- **Route and role gating.** The middleware's path classification, its
  cookie scan and its redirect decision; the `useAuth` hook; the role gate;
  and the dashboard layout.
- **Input validation and the credential flows.** The login and sign-up
  schemas, the NextAuth `authorize` guard chain with its `jwt` and `session`
  callbacks, and the sign-up route.
- **The profile partial-update semantics.** The `PUT /api/auth/me` and
  `PATCH /api/profile/update` handlers, run over in-memory tables.
- **The string helpers** of the animated-text components.
- **The build configuration's merge loop** and its `webpack` hook.

One Dafny module models each source file. A few shared modules sit beside
them:

- `Wrappers`: `Option`.
- `Js`: JavaScript values with truthiness, `typeof`, property access,
  object spread, `%` and decimal printing.
- `Http`: responses.
- `Db`: the in-memory Prisma tables, plus a `Store` class whose methods are
  the Prisma calls.

Code that changes state step by step is modelled as classes and methods.
Each method is proved equal to a pure transition function, and the
properties are lemmas about those functions. Examples are the gamification
`Provider`, the typewriter, the settings merge loop, the streak card and
the route handlers over the `Store`.

The model makes these choices:

- Bcrypt hashing and the e-mail format check are function parameters, and
  soundness of the hash (`compare(p, hash(p, c))`) is a precondition.
- The session that NextAuth's `auth()` returns is a parameter.
- React state updaters run from the update queue in call order. An updater
  queued from inside another updater therefore sees that updater's result.
  React does this when the provider already has pending work. It does not
  when React computes an update eagerly on an idle component, and the
  model leaves that case out (see "## Left out").
- The classes and handlers follow the code as written. Where the code
  evidently misbehaves, the corrected definition stands beside it and is
  the one the intended properties are proved about (see "## Findings").

## Model

| member | source | states |
|---|---|---|
| GamificationProvider.LevelTableShape | components/gamification/gamification-provider.tsx:39-45 | the table has levels 1..5 in order, the first threshold is 0 and the thresholds strictly increase |
| GamificationProvider.LevelSearchIsHighest | components/gamification/gamification-provider.tsx:95-102 | the top-down search from index i returns a table row whose threshold is at most p (or the first row), and no row up to i with threshold at most p has a higher level |
| GamificationProvider.CurrentLevel | components/gamification/gamification-provider.tsx:95-102 | `getCurrentLevel(p)` is a table row, its threshold is at most p unless it is the first row, and it is the highest such level |
| GamificationProvider.CurrentLevelTable | components/gamification/gamification-provider.tsx:39-102 | the level number is 5/4/3/2/1 as p reaches 1500/700/300/100/below, and the result is the table row of that level |
| GamificationProvider.CurrentLevelBelowFirstThreshold | components/gamification/gamification-provider.tsx:95-102 | every p below 100, negative ones and 0 included, gives level 1 |
| GamificationProvider.CurrentLevelMonotone | components/gamification/gamification-provider.tsx:95-102 | the level is monotone non-decreasing in the points |
| GamificationProvider.GetCurrentLevel | components/gamification/gamification-provider.tsx:95-102 | the descending loop with early return computes `CurrentLevel(p)` |
| GamificationProvider.Initial | components/gamification/gamification-provider.tsx:47-104 | the initial state has 0 points, level 1, no level-up flag, and satisfies the state invariant (level agrees with points, unique ids, bounded progress) |
| GamificationProvider.Accrue | components/gamification/gamification-provider.tsx:124-133 | the total moves by exactly the amount; a points toast is appended only for a positive amount; nothing else changes |
| GamificationProvider.ReasonText | components/gamification/gamification-provider.tsx:129 | under JavaScript truthiness (`Js.Truthy`), a truthy reason is shown as given and an absent (undefined) or empty one falls back to "Keep up the good work!"; the toast text is never empty |
| GamificationProvider.LevelEffect | components/gamification/gamification-provider.tsx:107-122 | the level becomes `getCurrentLevel(points)`; the flag is raised and a level-up toast shown exactly when the new level is strictly higher; otherwise the level is reassigned silently and may fall |
| GamificationProvider.LevelEffectIdle | components/gamification/gamification-provider.tsx:107-122 | when the stored level matches the points the effect changes nothing |
| GamificationProvider.AddPointsExact | components/gamification/gamification-provider.tsx:107-133 | `addPoints` changes the points by exactly the amount of any sign, keeps the invariant, raises the flag only on a level rise, and emits nothing for a non-positive amount |
| GamificationProvider.UnlockedListMeaning | components/gamification/gamification-provider.tsx:136-148 | the map keeps the length; each entry ends unlocked exactly when it was unlocked or carries the id, and nothing but the flag changes |
| GamificationProvider.UnlockAwardNone | components/gamification/gamification-provider.tsx:138-146 | with no locked entry carrying the id, an unlock awards nothing and emits no toast |
| GamificationProvider.UnlockAwardUnique | components/gamification/gamification-provider.tsx:138-146 | under unique ids, the award is the points of the one entry with the id if it was locked, and the toasts are that entry's |
| GamificationProvider.UnlockPreservesValid | components/gamification/gamification-provider.tsx:107-150 | the unlock transition keeps the state invariant |
| GamificationProvider.UnlockLocked | components/gamification/gamification-provider.tsx:135-150 | unlocking a locked entry marks it unlocked, adds exactly its points, and leaves every other entry untouched |
| GamificationProvider.UnlockNoop | components/gamification/gamification-provider.tsx:135-150 | unlocking an unlocked or unknown id changes nothing |
| GamificationProvider.UnlockTwice | components/gamification/gamification-provider.tsx:137-145 | a second unlock of the same id is a no-op, so the points are awarded at most once |
| GamificationProvider.ClampedProgress | components/gamification/gamification-provider.tsx:156 | the stored progress is min(progress, maxProgress) when the maximum is truthy, the raw progress otherwise; there is no lower clamp |
| GamificationProvider.ProgressListMeaning | components/gamification/gamification-provider.tsx:153-168 | the map keeps the length; an entry with another id or already unlocked is kept; the locked entry with the id gets the clamped progress, is unlocked exactly when that reaches a non-zero maximum, and keeps its other fields |
| GamificationProvider.CompletionsUnique | components/gamification/gamification-provider.tsx:159-160 | under unique ids at most one nested unlock is queued, and one is queued only for an entry that completes |
| GamificationProvider.CompletionsNone | components/gamification/gamification-provider.tsx:159-160 | with no entry carrying the id, no nested unlock is queued |
| GamificationProvider.ProgressListValid | components/gamification/gamification-provider.tsx:153-168 | the progress map keeps every id, unique ids and progress at most the maximum |
| GamificationProvider.NothingLeftToUnlock | components/gamification/gamification-provider.tsx:159-161 | after the outer updater has marked a completed entry unlocked, no locked entry carries the id |
| GamificationProvider.ProgressStepEffect | components/gamification/gamification-provider.tsx:152-169 | the update as written changes only the entry list (no points, no toasts, no level change) and keeps the invariant |
| GamificationProvider.ProgressNoop | components/gamification/gamification-provider.tsx:155 | on an unlocked or unknown id the progress update is a no-op |
| GamificationProvider.ProgressLocked | components/gamification/gamification-provider.tsx:152-169 | on a locked entry it stores min(progress, maxProgress), unlocks exactly on reaching the maximum with progress equal to it, awards no points and leaves other entries untouched |
| GamificationProvider.CompletionAwardUnique | components/gamification/gamification-provider.tsx:159-160 | under unique ids the intended award is the points of the entry carrying the id if it completes, else 0 |
| GamificationProvider.CompletionAwardNone | components/gamification/gamification-provider.tsx:159-160 | with no entry carrying the id, the intended award is 0 |
| GamificationProvider.IntendedProgressAwards | components/gamification/gamification-provider.tsx:152-169 | the intended update completes an entry as an unlock would: unlocked at its maximum, its points added once; short of the maximum nothing is awarded |
| GamificationProvider.ProgressCompletionAwardsNothing | components/gamification/gamification-provider.tsx:152-169 | on the initial state, completing "profile_complete" unlocks it with 0 points as written and 50 as intended |
| GamificationProvider.Provider.constructor | components/gamification/gamification-provider.tsx:89-104 | the provider starts in the initial state, with the level computed by the loop |
| GamificationProvider.Provider.AccruePoints | components/gamification/gamification-provider.tsx:124-133 | the fields become `Accrue` of the old state |
| GamificationProvider.Provider.RunLevelEffect | components/gamification/gamification-provider.tsx:107-122 | the fields become `LevelEffect` of the old state |
| GamificationProvider.Provider.AddPoints | components/gamification/gamification-provider.tsx:124-133 | the fields become `AddPointsStep` of the old state, the points move by the amount, and the invariant holds |
| GamificationProvider.Provider.RunUnlockUpdater | components/gamification/gamification-provider.tsx:136-149 | the map over the list, entry by entry, yields `ApplyUnlock` of the old state |
| GamificationProvider.Provider.UnlockOne | components/gamification/gamification-provider.tsx:137-147 | the callback returns the unlocked entry and adds its points and toasts exactly when it carries the id and is locked |
| GamificationProvider.Provider.UnlockAchievement | components/gamification/gamification-provider.tsx:135-150 | the fields become `UnlockStep` of the old state and the invariant holds |
| GamificationProvider.Provider.UpdateAchievementProgress | components/gamification/gamification-provider.tsx:152-169 | the fields become `ProgressStep` of the old state (outer updater, then the queued unlocks, then the level effect) and the invariant holds |
| GamificationProvider.Provider.RunQueuedUnlocks | components/gamification/gamification-provider.tsx:160 | the queued unlock updaters run in order on the outer updater's result |
| GamificationProvider.Provider.RunProgressUpdater | components/gamification/gamification-provider.tsx:153-168 | the outer updater's map yields `ProgressList` and counts the nested unlocks it queues |
| GamificationProvider.Provider.SetShowLevelUpAnimation | components/gamification/gamification-provider.tsx:91 | only the level-up flag changes |
| PointsDisplay.NextLevel | components/gamification/points-display.tsx:11 | the next level number is at least the current one, and equal to it exactly at level 5 and above |
| PointsDisplay.NextLevelPoints | components/gamification/points-display.tsx:12-15 | at level 5 the next-level points are the current threshold; below it they exceed it |
| PointsDisplay.NextLevelPointsIsNextThreshold | components/gamification/points-display.tsx:11-15 | for every table row below the top, the next level and its points are those of the next row; at the top they are 5 and 1500 |
| PointsDisplay.Progress | components/gamification/points-display.tsx:17-18 | the bar is a ratio (with a positive denominator) exactly below level 5, and full at level 5 |
| PointsDisplay.ProgressInRange | components/gamification/points-display.tsx:17-18 | for points >= 0 and the level the points determine, below the top, 0 <= points - pointsRequired < nextLevelPoints - pointsRequired |
| PointsDisplay.ProgressAtTop | components/gamification/points-display.tsx:17-18 | from 1500 points on, the bar is full |
| PointsDisplay.ProgressNegative | components/gamification/points-display.tsx:17-18 | a negative total shows the ratio points/100, below empty |
| PointsDisplay.TooltipMatchesBar | components/gamification/points-display.tsx:17-43 | the tooltip shows the same fraction as the bar, and says "Max level reached!" exactly when the bar is full |
| DashboardPage.DashboardAgreesWithHeader | app/dashboard/page.tsx:333-345 | the dashboard's step keyed on the current level and the header's keyed on the next level give the same next-level figure and the same bar for every level |
| DashboardPage.LabelNamesNextThreshold | app/dashboard/page.tsx:333-335 | below the top level, the label names the next table threshold |
| DashboardPage.HandleFindContests | app/dashboard/page.tsx:71-73 | the button is `addPoints(10, "Exploring new opportunities")`: points rise by exactly 10 and a +10 toast is shown |
| DashboardPage.Page.constructor | app/dashboard/page.tsx:19 | the welcome banner starts shown |
| DashboardPage.Page.WelcomeTimerFires | app/dashboard/page.tsx:62-68 | the timer hides the banner |
| AchievementCard.ProgressSection | components/gamification/achievement-card.tsx:55-65 | the section is shown exactly when `maxProgress` is truthy; a maximum of 0 renders as the text "0"; a shown section has a bar value exactly when the progress is present; `bar == None` stands for the `<Progress>` bar that the source renders with the value NaN when the progress is undefined |
| AchievementCard.PercentInRange | components/gamification/achievement-card.tsx:61 | for 0 <= progress <= max, `Math.round(progress/max*100)` lies in [0, 100], is 100 at the maximum and 0 at no progress |
| AchievementCard.FirstUnlocked | components/gamification/achievement-card.tsx:14 | `find(a => a.unlocked)`: the result is unlocked and every entry before it is locked; none means no entry is unlocked (list order, not time) |
| AchievementCard.FirstNextCandidate | components/gamification/achievement-card.tsx:17 | the first entry that is locked and has a progress, every earlier entry failing that test; none means no entry passes it |
| AchievementCard.RecentAndNextDiffer | components/gamification/achievement-card.tsx:14-17 | when both sections are found they are different entries |
| AchievementCard.NextPercentDefined | components/gamification/achievement-card.tsx:17-63 | the next section with a truthy maximum always shows a bar, since the chosen entry has a progress |
| AchievementCard.Render | components/gamification/achievement-card.tsx:14-69 | the recent section names the first unlocked entry and is absent exactly when none is unlocked; the next section names the first locked entry with a progress, shows that entry's progress section, and is absent (section hidden) exactly when no entry qualifies |
| AchievementCard.InitialCard | components/gamification/achievement-card.tsx:14-69 | on the initial list no entry is recent, and the next one is "Profile Perfectionist" at "0 / 5", "0%" |
| AchievementsPage.UnlockedCount | app/achievements/page.tsx:15 | the unlocked count is at most the total, equals it exactly when every entry is unlocked, and is 0 exactly when none is |
| AchievementsPage.UnlockedCountUpdate | app/achievements/page.tsx:15 | replacing one entry changes the count by the difference of the two entries' flags |
| AchievementsPage.UnlockRaisesCount | app/achievements/page.tsx:14-15 | unlocking a locked entry raises the unlocked count by exactly one and keeps the total |
| AchievementsPage.RenderEntry | app/achievements/page.tsx:104-131 | locked entries show the lock icon; the +points badge appears exactly for unlocked entries; the progress section exactly when `maxProgress` is truthy |
| AchievementsPage.RenderAllMeaning | app/achievements/page.tsx:87-137 | one card per entry, in list order, with the entry's title and description, a lock exactly while it is locked, the "+points" badge exactly once it is unlocked and the progress section exactly when the maximum is non-zero; the badged cards are as many as the unlocked entries |
| AchievementsPage.Summary | app/achievements/page.tsx:14-15 | the "unlocked/total" text has one slash, right after the printed unlocked count |
| AchievementsPage.SummaryReadsBack | app/achievements/page.tsx:14-15 | two lists with the same summary text have the same unlocked count and the same length, so the text shows both figures |
| DailyStreakCard.Markers | components/gamification/daily-streak-card.tsx:79-98 | one marker per weekday, in order; for a non-negative streak a day is lit exactly when its index is below `streak % 7` and is today exactly at index `streak % 7 - 1`; a negative streak lights nothing; today is always lit |
| DailyStreakCard.ActiveCount | components/gamification/daily-streak-card.tsx:79-98 | the count of lit days is 0 exactly when no day is lit and the row's length exactly when every day is |
| DailyStreakCard.ActivePrefix | components/gamification/daily-streak-card.tsx:80 | the first n markers hold min(n, streak % 7) active days |
| DailyStreakCard.ActiveDaysAreRemainder | components/gamification/daily-streak-card.tsx:80 | for a non-negative streak exactly `streak % 7` days are active, and they are the first ones |
| DailyStreakCard.TodayIsLastActive | components/gamification/daily-streak-card.tsx:80-81 | there is at most one today marker, at index `streak % 7 - 1`, and it is active; none at all when `streak % 7 == 0` |
| DailyStreakCard.NegativeStreakLightsNothing | components/gamification/daily-streak-card.tsx:80 | with JavaScript's sign-keeping remainder, a negative streak lights no day |
| DailyStreakCard.Card.constructor | components/gamification/daily-streak-card.tsx:12-14 | the streak starts at 4 and no animation shows |
| DailyStreakCard.Card.StreakTimerFires | components/gamification/daily-streak-card.tsx:20-75 | below 5, the timer sets the streak to 5, starts the animation and runs `addPoints(15, "Daily login streak bonus")`; from 5 on it changes nothing; afterwards the "5 day milestone!" badge (`Milestone`) shows, which the constructor's streak of 4 does not |
| DailyStreakCard.Card.AnimationTimerFires | components/gamification/daily-streak-card.tsx:27-29 | the inner timer hides the "+1" animation and keeps the streak |
| DailyStreakCard.BonusPaidOnce | components/gamification/daily-streak-card.tsx:20-34 | two firings of the timer pay the 15-point bonus once at most |
| ProfilePage.CompletionQuarters | app/profile/page.tsx:253-261 | completion is 25 per condition met among name, bio, some skill and some portfolio item, so one of 0, 25, 50, 75, 100, and 0 with no profile |
| ProfilePage.CompletionTasks | app/profile/page.tsx:328-333 | there are exactly four completion tasks |
| ProfilePage.CompletionMatchesTasks | app/profile/page.tsx:253-333 | the completion figure is 25 times the number of tasks marked done |
| ProfilePage.XpToNext | app/profile/page.tsx:276 | for xp >= 0, `500 - xp % 500` lies in [1, 500] and adds up with `xp % 500` to 500; a negative xp gives at least 500 |
| ProfilePage.XpToNextNegative | app/profile/page.tsx:276 | xp -1 shows 501 to go, since the remainder keeps the dividend's sign |
| ProfilePage.StreakBar | app/profile/page.tsx:1060 | `min(streak * 10, 100)`: at most 100, full exactly from a streak of 10, ten per day below that |
| ProfilePage.SavePayload | app/profile/page.tsx:195-203 | the save body holds exactly name, title, location, bio, xp, level and streak |
| ProfilePage.SavePayloadFigures | app/profile/page.tsx:200-202 | the save sends the shown xp plus 25 and the shown streak, and the shown level except for a stored level 0 (shown as 0 by the nullish default, sent as 1 by the falsy default) |
| ProfilePage.SaveReachesServer | app/profile/page.tsx:195-203 | of the save body the `me` route keeps the name for the user row and bio, xp, level and streak for the profile; title and location are sent but dropped |
| ProfilePage.SaveProfileFields | app/api/auth/me/route.ts:83-87 | the `me` route's profile filter on a body shaped like the save request keeps exactly bio, xp, level and streak |
| ProfilePage.SavedLocallyEffect | app/profile/page.tsx:213-224 | after a successful save the page shows 25 more xp, the same level and streak, the new name and bio, and the old title and location |
| ProfilePage.SaveDropsTitleAndLocation | app/profile/page.tsx:195-224 | as written, an edited title reaches neither the stored profile nor the page's record |
| ProfilePage.ProfileFieldsIntended | app/api/auth/me/route.ts:83-87 | the corrected filter keeps a key exactly when the route keeps it or it is a string title or location, with the body's value |
| ProfilePage.SaveKeepsEditsIntended | app/profile/page.tsx:195-224 | with the corrected filter and local update, the dialog's title, location, bio and name reach both the server and the page, with 25 more xp and the same level and streak |
| ProfilePage.DecodeWithoutGamification | app/profile/page.tsx:271-273 | a fetched record whose profile lacks xp, level, streak, title and location shows xp 0, level 1, streak 0, no title or location, and the save sends xp 25 |
| ProfilePage.ProfileValueOmits | app/api/auth/me/route.ts:33-55 | the `me` route's profile record has no xp, level, streak, title or location key |
| ProfilePage.MeAnswerHasNoGamification | app/api/auth/me/route.ts:18-55 | the `me` answer's profile holds none of xp, level, streak, title and location |
| ProfilePage.MeAnswerShowsDefaults | app/profile/page.tsx:271-273 | fed by the `me` route, the page always shows xp 0, level 1, streak 0, and every save sends xp 25, so xp never accumulates across reloads |
| ProfilePage.Page.constructor | app/profile/page.tsx:86-94 | the page starts loading with no profile, an empty dialog, no confetti, no xp animation and no toast |
| ProfilePage.Page.ProfileFetched | app/profile/page.tsx:124-148 | the answer is stored and the dialog filled from it, empty strings for missing fields; a null answer is stored as none and the error toast shown; loading ends |
| ProfilePage.Page.FetchFailed | app/profile/page.tsx:139-147 | a failed fetch shows the error toast, ends loading and changes nothing else |
| ProfilePage.Page.OpenEdit | app/profile/page.tsx:656 | only the dialog opens |
| ProfilePage.Page.HandleEditChange | app/profile/page.tsx:176-178 | a keystroke changes only the edited field of the dialog |
| ProfilePage.Page.HandleSaveChanges | app/profile/page.tsx:187-250 | the request body is `SavePayload`; on success the local record becomes `SavedLocally`, the +25 animation and confetti start, the success toast shows and the dialog closes; on failure only the error toast shows; saving ends either way |
| ProfilePage.Page.XpAnimationEnds | app/profile/page.tsx:183 | the xp animation's timer resets it and changes nothing else |
| ProfilePage.Page.ConfettiEnds | app/profile/page.tsx:231 | the confetti's timer hides it and changes nothing else |
| ProfilePage.SaveTwice | app/profile/page.tsx:187-250 | two successful saves without a reload add 50 xp on the page, each sending the xp it shows plus 25 |
| ProfileUpdateRoute.UserUpdateData | app/api/profile/update/route.ts:19-24 | the user update holds `name` and `avatar` exactly when each is truthy (empty strings are dropped), with the body's values |
| ProfileUpdateRoute.ProfileUpdateData | app/api/profile/update/route.ts:27-32 | the profile update holds exactly those of title, location, bio, skills and endorsements whose `profile?.key` is truthy, with their values |
| ProfileUpdateRoute.CreateDataIsDefaultsUpdated | app/api/profile/update/route.ts:40-51 | the created columns are the defaults (bio "", title and location null, skills and endorsements [], level 1, xp 0, streak 0) with exactly the update's values written over them |
| ProfileUpdateRoute.CreatedColumn | app/api/profile/update/route.ts:42-46 | each updatable column is created as its value or, when falsy, its default |
| ProfileUpdateRoute.FixedColumn | app/api/profile/update/route.ts:47-49 | level, xp and streak are created at their defaults and never from the body |
| ProfileUpdateRoute.CreateDataKeys | app/api/profile/update/route.ts:40-51 | the created row has the default columns and no others |
| ProfileUpdateRoute.UpdatedColumn | app/api/profile/update/route.ts:27-46 | the defaults overwritten by the update give, column by column, the value if truthy and the default otherwise |
| ProfileUpdateRoute.UserRowValue | app/api/profile/update/route.ts:33-56 | the returned user is the full row: id, name, email, password, role and avatar |
| ProfileUpdateRoute.ProfileRowValue | app/api/profile/update/route.ts:37-56 | the returned profile is the row's columns with its id and owner |
| ProfileUpdateRoute.Patch | app/api/profile/update/route.ts:7-61 | the handler on the store ends in the state and answer of `PatchOutcome` and keeps the tables well formed |
| ProfileUpdateRoute.RunUpsert | app/api/profile/update/route.ts:37-51 | the upsert on the store updates an existing profile or creates a missing one, as `Upsert` does, and leaves the store unchanged when the create fails |
| ProfileUpdateRoute.PatchNeedsSession | app/api/profile/update/route.ts:10-13 | without a session the answer is a plain 401 and nothing is written |
| ProfileUpdateRoute.PatchMissingUser | app/api/profile/update/route.ts:33-60 | the user update is issued even with nothing to write, so a missing user row gives a 500 and no change |
| ProfileUpdateRoute.PatchUserEffect | app/api/profile/update/route.ts:22-36 | for an existing user the answer is 200, the user row takes the truthy name and avatar, and no other user, e-mail index entry or achievement changes |
| ProfileUpdateRoute.PatchUpdatesProfile | app/api/profile/update/route.ts:37-39 | an existing profile gets only the filtered fields over its columns; every other profile is unchanged |
| ProfileUpdateRoute.PatchCreatesProfile | app/api/profile/update/route.ts:40-51 | a missing profile is created from the defaults with the provided truthy values over them |
| ProfileUpdateRoute.PatchKeepsGamification | app/api/profile/update/route.ts:19-32 | portfolio, xp, level and streak cannot be changed: an existing profile keeps them as they were, and a created one has them at their defaults |
| ProfileUpdateRoute.PatchExposesPassword | app/api/profile/update/route.ts:33-56 | as written, every successful answer carries the user's stored password hash |
| ProfileUpdateRoute.PatchIntendedHidesPassword | app/api/profile/update/route.ts:53-56 | the corrected handler writes the same and answers the same status, but its user never has a password field |
| MeRoute.InsertByDate | app/api/auth/me/route.ts:43 | inserting a row into a list sorted newest first keeps it sorted, adds exactly that row, and puts it or the old head first |
| MeRoute.SortByDateDesc | app/api/auth/me/route.ts:43 | `orderBy: {achievedAt: 'desc'}` gives the same rows, sorted newest first |
| MeRoute.ProfileValue | app/api/auth/me/route.ts:25-46 | the selected profile has exactly id, bio, skills, portfolio and its achievements |
| MeRoute.UserValue | app/api/auth/me/route.ts:18-48 | the selected user has exactly id, name, email, role and profile, never the password; the profile is null when there is none |
| MeRoute.ProfileAchievementsOrdered | app/api/auth/me/route.ts:35-44 | the profile's achievements are exactly its rows (as a multiset, with their number), newest first |
| MeRoute.HandleGet | app/api/auth/me/route.ts:7-63 | no session gives 401 "Authentication required"; a missing user 404; otherwise 200 with the selected user; it writes nothing |
| MeRoute.UserFields | app/api/auth/me/route.ts:79 | the user update holds `name` exactly when it is a string, with its value |
| MeRoute.ProfileFields | app/api/auth/me/route.ts:81-87 | the profile update holds bio if a string, skills, portfolio and endorsements if arrays, xp, level and streak if numbers, and nothing else |
| MeRoute.TitleAndLocationIgnored | app/api/auth/me/route.ts:77-87 | title and location never reach the user or the profile update |
| MeRoute.CreateAllWellFormed | app/api/auth/me/route.ts:113-123 | the creates keep the tables well formed |
| MeRoute.CreateAllKeeps | app/api/auth/me/route.ts:113-123 | the creates touch only the achievements and the id counter |
| MeRoute.AchievementsOfAppend | app/api/auth/me/route.ts:35-44 | a profile's rows in two lists joined are its rows in each, joined |
| MeRoute.AchievementsOfOwn | app/api/auth/me/route.ts:35-44 | rows that all belong to one profile are all that profile's rows |
| MeRoute.NewRows | app/api/auth/me/route.ts:113-123 | one new row per element |
| MeRoute.NewRowsAt | app/api/auth/me/route.ts:113-123 | the i-th new row has the i-th consecutive id and the i-th element's data |
| MeRoute.CreateAllAppends | app/api/auth/me/route.ts:113-123 | when every element is usable, the creates all succeed and append exactly the new rows in order |
| MeRoute.RunUserStep | app/api/auth/me/route.ts:89-94 | the user update on the store, issued only with something to write, yields `UserStep` |
| MeRoute.RunProfileStep | app/api/auth/me/route.ts:96-106 | the update-or-create on the store yields `ProfileStep` |
| MeRoute.ReplaceAchievementRows | app/api/auth/me/route.ts:110-124 | the delete and the create loop on the store yield `ReplaceAchievements`, stopping at the first element that throws |
| MeRoute.HandlePut | app/api/auth/me/route.ts:66-172 | the PUT on the store ends in the state and answer of `PutOutcome` and keeps the tables well formed |
| MeRoute.PutRejected | app/api/auth/me/route.ts:68-75 | without a session (401) or with an unreadable body (500) nothing is written |
| MeRoute.UserStepKeeps | app/api/auth/me/route.ts:89-94 | the user step succeeds exactly when there is nothing to write or the user exists, changes only that user's row, and leaves profiles and achievements alone |
| MeRoute.ProfileStepKeeps | app/api/auth/me/route.ts:96-106 | an existing profile is updated even with no fields; a missing one is created only with at least one field; the create throws only when the owner is gone; nothing else changes |
| MeRoute.AchievementsStepKeeps | app/api/auth/me/route.ts:108-125 | the achievements step leaves users and profiles alone |
| MeRoute.PutUserEffect | app/api/auth/me/route.ts:79-94 | no user row appears or disappears, no other user changes, and the signed-in user's row changes only in a string name |
| MeRoute.PutUpdatesProfile | app/api/auth/me/route.ts:96-101 | an existing profile gets the filtered fields over its columns and keeps its others |
| MeRoute.PutCreatesProfile | app/api/auth/me/route.ts:102-106 | a user without a profile who sends some profile field gets a profile holding exactly the filtered fields |
| MeRoute.PutNoProfileNoFields | app/api/auth/me/route.ts:102-124 | a user without a profile who sends no profile field gets none, and the achievements sent are dropped |
| MeRoute.AchievementsOfOther | app/api/auth/me/route.ts:35-44 | rows of one profile hold nothing for another |
| MeRoute.ReplaceAchievementsEffect | app/api/auth/me/route.ts:110-124 | after the delete and the creates, the profile holds exactly the new rows and every other profile what it held |
| MeRoute.PutReplacesAchievements | app/api/auth/me/route.ts:108-164 | an array of usable achievements replaces the profile's with one row per element in order, leaves other profiles' rows alone, and the answer is the refetched user |
| MeRoute.PutPartialFailure | app/api/auth/me/route.ts:88-171 | the writes are not undone: when the first achievement cannot be created the answer is 500, yet the old achievements are deleted and the name is written |
| MeRoute.UserValueIsPublic | app/api/auth/me/route.ts:127-157 | the answer has no password, and its profile no xp, level, streak or endorsements |
| MeRoute.PublicKeys | app/api/auth/me/route.ts:129-155 | the selected keys include no password and no gamification column |
| MeRoute.FinishShape | app/api/auth/me/route.ts:127-164 | a 200 answer after the writes is the refetched user in that public shape |
| MeRoute.PutAnswerShape | app/api/auth/me/route.ts:66-172 | every 200 answer of the PUT omits xp, level, streak and the password, even right after writing them |
| SignupRoute.Lookup | app/api/auth/signup/route.ts:16-21 | a found schema entry is in the shape under that key; none found means no entry carries the key |
| SignupRoute.Pick | app/api/auth/signup/route.ts:16-21 | `pick` keeps only entries of the shape that are named by the mask |
| SignupRoute.LookupAt | app/api/auth/signup/route.ts:16-21 | the lookup finds the first entry carrying the key |
| SignupRoute.SignupDataShapeValue | app/api/auth/signup/route.ts:16-21 | the server schema is the form schema's name, email, password and role entries, and nothing else |
| SignupRoute.PickRole | app/api/auth/signup/route.ts:20 | picking `role` gives the role entry |
| SignupRoute.PickPassword | app/api/auth/signup/route.ts:19-20 | picking `password` and `role` gives those two entries |
| SignupRoute.PickEmail | app/api/auth/signup/route.ts:18-20 | picking `email`, `password` and `role` gives those three entries |
| SignupRoute.PickFirst | app/api/auth/signup/route.ts:16-21 | `pick` takes the first entry named by the first key, then picks the rest |
| SignupRoute.SignupDataAccepts | app/api/auth/signup/route.ts:16-23 | the server schema accepts exactly an object with a name of length >= 2, a well-formed e-mail, a password of length >= 6 with an upper-case letter and a digit, and role FREELANCER or CLIENT |
| SignupRoute.FourFields | app/api/auth/signup/route.ts:16-23 | the server schema passes exactly when each of its four fields passes |
| SignupRoute.ShapeOfFour | app/api/auth/signup/route.ts:16-23 | a four-entry shape passes exactly when each entry's field check passes |
| SignupRoute.FormAcceptedServerAccepts | app/api/auth/signup/route.ts:16-23 | whatever the signup form accepts, the server accepts too |
| SignupRoute.ServerSkipsConfirmationAndTerms | app/api/auth/signup/route.ts:14-23 | the server accepts a body without confirmPassword and terms, which the form rejects |
| SignupRoute.JoinPath | app/api/auth/signup/route.ts:62 | `path.join('.')` of one segment is that segment, of none the empty string |
| SignupRoute.Details | app/api/auth/signup/route.ts:61-64 | one `{path, message}` detail per issue, in order, with the path joined by "." |
| SignupRoute.PublicUser | app/api/auth/signup/route.ts:46-51 | the answered user has exactly id, name, email and role |
| SignupRoute.Post | app/api/auth/signup/route.ts:9-80 | the handler on the store ends in the state and answer of `SignupOutcome` and keeps the tables well formed |
| SignupRoute.RejectedInput | app/api/auth/signup/route.ts:58-70 | input the schema rejects gets 400 with one detail per issue, and nothing is written |
| SignupRoute.TakenEmail | app/api/auth/signup/route.ts:25-34 | a taken e-mail gets 409 and nothing is written |
| SignupRoute.UnreadableBody | app/api/auth/signup/route.ts:73-79 | a body that is not JSON gets 500 "Registration failed" and nothing is written |
| SignupRoute.SuccessfulSignup | app/api/auth/signup/route.ts:36-57 | a 201 means the input was valid and the e-mail free; exactly one user is added, with the cost-10 hash of the password, and the answer has only id, name, email and role |
| SignupRoute.SignupThenSignIn | app/api/auth/signup/route.ts:36-52 | with a sound hash, the password just registered signs the new user in through `authorize` |
| Validations.ParsedType | lib/validations/auth.ts:4-23 | the type name reported for each kind of value (a schema-library default the schemas rely on) |
| Validations.CheckIssues | lib/validations/auth.ts:5-17 | no issue exactly when every string check of the field passes; every issue sits on the field's path |
| Validations.FieldCheck | lib/validations/auth.ts:4-23 | a field that aborts has at least one issue; every issue sits on the field's path |
| Validations.ShapeCheck | lib/validations/auth.ts:4-23 | no issue exactly when every field passes; the object aborts exactly when some field aborts |
| Validations.ObjectCheck | lib/validations/auth.ts:4-10 | a non-object input gets one root-level type issue and aborts |
| Validations.LoginAccepts | lib/validations/auth.ts:4-8 | login input passes exactly when it is an object with a well-formed e-mail, a password of at least 6 characters and an absent or boolean remember |
| Validations.NameRule | lib/validations/auth.ts:11 | the name passes exactly when it is a string of length at least 2 |
| Validations.EmailRule | lib/validations/auth.ts:12 | the e-mail passes exactly when it is a well-formed e-mail string |
| Validations.PasswordRule | lib/validations/auth.ts:13-16 | the password passes exactly when it is a string of length at least 6 holding an upper-case letter and a digit |
| Validations.ConfirmRule | lib/validations/auth.ts:17 | the confirmation passes exactly when it is a string of length at least 6 |
| Validations.RoleRule | lib/validations/auth.ts:18-20 | the role passes exactly when it is FREELANCER or CLIENT |
| Validations.SignupFieldsCheck | lib/validations/auth.ts:10-23 | the signup fields pass exactly when each field rule holds, terms being literally true |
| Validations.SignupAccepts | lib/validations/auth.ts:10-27 | signup input passes exactly when every field rule holds and the two passwords are equal |
| Validations.MismatchReported | lib/validations/auth.ts:24-27 | the mismatch issue on confirmPassword appears exactly when no field aborted and the passwords differ, and never when a field aborted |
| Validations.ShapeMessages | lib/validations/auth.ts:10-23 | no field of the signup schema produces the mismatch message |
| Validations.FieldMessages | lib/validations/auth.ts:10-23 | no single signup field produces the mismatch message |
| Validations.CheckMessages | lib/validations/auth.ts:11-17 | string checks whose messages differ from the mismatch message never produce it |
| Validations.SignupPasswordPassesLogin | lib/validations/auth.ts:6-16 | every password the signup rule accepts also passes the login rule |
| AuthConfig.ParseCredentials | lib/auth.ts:11-36 | the credentials parse exactly when they form an object with a well-formed e-mail and a password of at least 6 characters, and then give those two strings |
| AuthConfig.Authorize | lib/auth.ts:33-64 | a user is returned only for parsed credentials whose e-mail is stored and whose password matches the stored hash, and it is that stored user without the password |
| AuthConfig.AuthorizeFails | lib/auth.ts:36-63 | authorize gives null exactly on rejected credentials, an unknown e-mail or a wrong password |
| AuthConfig.AuthorizeKnownUser | lib/auth.ts:36-60 | a stored user with a matching password is authorized as that very user |
| AuthConfig.SessionMaxAgeValue | lib/auth.ts:69 | the session lasts 30 days, 2592000 seconds |
| AuthConfig.Token.constructor | lib/auth.ts:72 | a token starts with no id or role and its other claims as given |
| AuthConfig.Jwt | lib/auth.ts:72-78 | with a signed-in user the token gets the user's id and role and keeps its other claims; without one it is unchanged |
| AuthConfig.SessionCallback | lib/auth.ts:79-85 | with a token and a session user, the user gets the token's id and role and keeps name and e-mail; otherwise nothing changes |
| AuthConfig.SignInFlow | lib/auth.ts:72-85 | a sign-in carries the user's id and role through the token into what the route handlers see |
| Db.RoleName | lib/validations/auth.ts:18 | a role's stored name is FREELANCER or CLIENT |
| Db.ParseRole | lib/validations/auth.ts:18 | exactly the two names FREELANCER and CLIENT parse to a role |
| Db.RoleNameRoundTrip | lib/validations/auth.ts:18 | parsing a role's name gives the role back, and a parsed name prints as itself |
| Db.EmptyWellFormed | app/api/auth/signup/route.ts:26-52 | the empty database satisfies the table invariant |
| Db.FindUserByEmail | app/api/auth/signup/route.ts:26-28 | the lookup by e-mail finds a user exactly when some stored user has that e-mail, and it is that user |
| Db.CreateUserWellFormed | app/api/auth/signup/route.ts:39-52 | creating a user with a free e-mail keeps the invariant, and the new user is then found by its e-mail |
| Db.UpdatedUserRow | app/api/auth/me/route.ts:89-94 | a user update sets the name and avatar it carries and leaves id, e-mail, password and role alone |
| Db.UpdateUser | app/api/profile/update/route.ts:33-36 | an update succeeds exactly when the user exists, and replaces only that user's row |
| Db.UpdateUserWellFormed | app/api/auth/me/route.ts:89-94 | a user update keeps the invariant |
| Db.CreateProfile | app/api/auth/me/route.ts:103-105 | a profile is created exactly when its owner exists and has none yet, with a fresh id and the given columns |
| Db.CreateProfileWellFormed | app/api/auth/me/route.ts:103-105 | creating a profile keeps the invariant |
| Db.UpdateProfile | app/api/auth/me/route.ts:98-101 | a profile update succeeds exactly when the profile exists, overwriting the given columns and keeping the rest |
| Db.UpdateProfileWellFormed | app/api/auth/me/route.ts:98-101 | a profile update keeps the invariant |
| Db.WithoutProfile | app/api/auth/me/route.ts:111 | the rows left are exactly the rows of other profiles |
| Db.DeleteAchievementsWellFormed | app/api/auth/me/route.ts:111 | deleting a profile's achievements keeps the invariant |
| Db.CreateAchievementWellFormed | app/api/auth/me/route.ts:114-121 | creating an achievement keeps the invariant |
| Db.AchievementsOf | app/api/auth/me/route.ts:127-164 | the rows selected for a profile are exactly its rows |
| Db.DeleteLeavesNone | app/api/auth/me/route.ts:111 | after the delete the profile has no rows, and every other profile keeps its rows |
| Db.Store.constructor | app/api/auth/signup/route.ts:26-52 | a new store holds the empty tables, which are well formed |
| Db.Store.CreateUserRow | app/api/auth/signup/route.ts:39-52 | the store ends as CreateUser describes and returns its row |
| Db.Store.UpdateUserRow | app/api/auth/me/route.ts:89-94 | the store ends as UpdateUser describes, unchanged when the user is missing |
| Db.Store.CreateProfileRow | app/api/auth/me/route.ts:103-105 | the store ends as CreateProfile describes, unchanged when creation fails |
| Db.Store.UpdateProfileRow | app/api/auth/me/route.ts:98-101 | the store ends as UpdateProfile describes, unchanged when there is no profile |
| Db.Store.DeleteAchievementRows | app/api/auth/me/route.ts:111 | the store ends without the profile's achievement rows |
| Db.Store.CreateAchievementRow | app/api/auth/me/route.ts:114-121 | the store ends with one new achievement row appended under a fresh id |
| Middleware.IsProtected | middleware.ts:6-7 | a path is protected exactly when it starts with one of the four protected prefixes |
| Middleware.ProtectedAndAuthDisjoint | middleware.ts:6-8 | no path is both protected and a sign-in page |
| Middleware.ProtectionIsStringPrefix | middleware.ts:6 | the regex tests a string prefix, so /dashboardx, /profiles and /contests/create/2 are protected |
| Middleware.FirstPresent | middleware.ts:12-30 | the cookie found is one of the names and present; none is found exactly when no name is present |
| Middleware.FirstPresentIsFirst | middleware.ts:23-30 | the cookie found is the earliest listed name present |
| Middleware.FindAuthCookie | middleware.ts:22-30 | the loop finds the first listed session cookie the request carries |
| Middleware.AuthenticatedIffCookie | middleware.ts:32 | a request counts as signed in exactly when it carries one of the five cookie names, whatever the value |
| Middleware.Decide | middleware.ts:39-53 | sign-in redirect with the path as callbackUrl exactly for a protected path without a session; dashboard redirect exactly for a sign-in page with a session; otherwise the request goes on |
| Middleware.Run | middleware.ts:4-54 | the middleware's answer is the decision on the path and whether a session cookie is present |
| Middleware.PrefixOfExtension | middleware.ts:59-62 | a path under a section starts with the section's name |
| Middleware.MatchedPathsAreClassified | middleware.ts:56-66 | every path the matcher takes is either protected or a sign-in page, never both |
| Middleware.MatcherNarrowerThanRegex | middleware.ts:6-66 | /contests/create/2 and /dashboardx are protected by the regex but the matcher never runs the middleware on them |
| Middleware.DashboardNeedsSession | middleware.ts:40-59 | a page below the dashboard requested without a session cookie is sent to sign in with its own path as callbackUrl |
| UseAuth.WithDefaults | hooks/use-auth.ts:13-14 | left-out options default to not required and the /login page; given ones are kept |
| UseAuth.StatusFlagsExclusive | hooks/use-auth.ts:18-19 | the two flags never hold together, and both are false exactly when unauthenticated |
| UseAuth.CheckRole | hooks/use-auth.ts:21-27 | passes when no role is asked or there is no user; otherwise a list is checked by membership of the user's role and a single name by equality |
| UseAuth.OneIsSingletonList | hooks/use-auth.ts:21-27 | a non-empty single role name checks the same as the list holding it |
| UseAuth.EmptyRoleCases | hooks/use-auth.ts:22-24 | the empty role name checks nothing, while the empty list lets no user through |
| UseAuth.UseAuth | hooks/use-auth.ts:13-54 | the hook returns the user and status, the two flags of the status and the role check's verdict |
| UseAuth.Effect | hooks/use-auth.ts:31-43 | no push while loading; the sign-in push with the current path exactly when sign-in is required and missing; otherwise the dashboard push exactly for a signed-in user failing the role check |
| UseAuth.SignInComesFirst | hooks/use-auth.ts:14-37 | a required sign-in goes to the configured page, by default /login, whatever role was asked for |
| UseAuth.DashboardMeansWrongRole | hooks/use-auth.ts:38-41 | a dashboard push means a signed-in user whose role is not among those asked for |
| UseAuth.NoUserNoRoleRedirect | hooks/use-auth.ts:21-42 | signed in without a user object, a role never causes a redirect |
| RoleGate.Normalised | components/role-gate.tsx:19 | a single role becomes the one-element list holding it, a list stays as it is |
| RoleGate.Gate | components/role-gate.tsx:12-26 | the children are rendered exactly for a signed-in user whose role is allowed; otherwise the fallback, or null when it is falsy |
| RoleGate.SingleIsSingletonList | components/role-gate.tsx:19 | a single role gates the same as the list holding only it |
| RoleGate.EmptyListNeverRenders | components/role-gate.tsx:19-23 | the empty list of roles lets nobody through |
| RoleGate.GateIsMembership | components/role-gate.tsx:21-25 | a signed-in user with a known role passes exactly when that role is listed |
| RoleGate.FalsyFallbackIsNull | components/role-gate.tsx:15-22 | without access, a falsy fallback renders null |
| DashboardLayout.Layout.constructor | app/dashboard/layout.tsx:14 | a fresh layout is not yet mounted |
| DashboardLayout.Layout.Mount | app/dashboard/layout.tsx:16-18 | the mount effect sets the flag |
| DashboardLayout.Layout.Render | app/dashboard/layout.tsx:27-64 | the loading view exactly until mounted or while the session loads; the dashboard exactly when mounted and signed in; the sign-in notice exactly when mounted and signed out |
| DashboardLayout.Layout.RedirectEffect | app/dashboard/layout.tsx:20-25 | a replace to /login?callbackUrl=/dashboard exactly when mounted and signed out |
| DashboardLayout.Layout.RedirectWithNotice | app/dashboard/layout.tsx:20-64 | the redirect is issued exactly when the sign-in notice is shown |
| DashboardLayout.FirstRenders | app/dashboard/layout.tsx:14-64 | before mounting the loading view shows and nobody is redirected; once mounted the view follows the status |
| AnimatedText.Typewriter.constructor | components/animated-text.tsx:14-15 | the typewriter starts showing nothing at index 0, which is the empty prefix of the text |
| AnimatedText.Typewriter.Effect | components/animated-text.tsx:17-28 | the next character is scheduled exactly while some remain; onComplete is called exactly when all are shown and it is given, and then the whole text is shown |
| AnimatedText.Typewriter.Tick | components/animated-text.tsx:19-22 | a tick appends the next character and advances the index, the shown text staying the prefix of that length |
| AnimatedText.TypeHi | components/animated-text.tsx:13-31 | on "Hi" the first effect schedules, and after two ticks the text is shown whole and the effect completes |
| AnimatedText.Split | components/animated-text.tsx:59 | splitting on single spaces gives at least one piece and no piece holds a space |
| AnimatedText.JoinSplit | components/animated-text.tsx:59-118 | joining the pieces with single spaces gives back the text |
| AnimatedText.SplitAfterWord | components/animated-text.tsx:59 | a space-free word in front of a text joins the text's first piece |
| AnimatedText.SplitJoin | components/animated-text.tsx:59 | splitting space-free words joined by single spaces gives back the words |
| AnimatedText.Spans | components/animated-text.tsx:108-118 | one span per word, in order, highlighted exactly when the word is listed, followed by a space exactly when it is not the last |
| AnimatedText.Render | components/animated-text.tsx:54-118 | the typewriter animation hands the text to the typewriter; every other animation renders the word spans of the split text |
| AnimatedText.ShownSpans | components/animated-text.tsx:108-118 | the spans show the words joined by single spaces |
| AnimatedText.WordsShowText | components/animated-text.tsx:59-118 | whatever the highlighting, the word spans show exactly the text |
| AnimatedText.SpansOfWords | components/animated-text.tsx:59-118 | text of space-free words joined by single spaces renders one span per word |
| AnimatedText.PunctuationBlocksHighlight | components/animated-text.tsx:109 | highlighting is by exact word, so a listed word with a mark attached is not highlighted |
| AnimatedText.GradientText | components/animated-text.tsx:131-157 | the content is the text unless it is empty, then the children; the animation flag is kept |
| AnimatedText.LogoLetters | components/animated-text.tsx:199-204 | the logo renders its 8 letters, one per span, in order |
| NextConfig.UserConfig | next.config.mjs:69-71 | no truthy import means no configuration; a truthy default export is preferred, otherwise the module itself is used |
| NextConfig.UserEntries | next.config.mjs:69-73 | without a truthy import there is nothing to merge |
| NextConfig.MergeValue | next.config.mjs:74-84 | over an object-typed non-array value the user's fields are spread on top; any other value is replaced by the user's |
| NextConfig.Merged | next.config.mjs:73-85 | the merged settings hold the default and user keys; each user key gets its merged value and every other key keeps its default |
| NextConfig.NoUserConfigUnchanged | next.config.mjs:69 | without a user configuration the settings are left as they are |
| NextConfig.ObjectKeyMerges | next.config.mjs:78-81 | over an object, the user's fields win and the other fields stay |
| NextConfig.PrimitiveKeepsObject | next.config.mjs:78-81 | a user value that spreads to nothing, such as images set to false, leaves the object as it was |
| NextConfig.OtherKeysReplaced | next.config.mjs:82-84 | arrays, functions, primitives and missing keys are replaced outright by the user value |
| NextConfig.UserWebpackReplaces | next.config.mjs:25-84 | a user webpack function takes the place of the default hook |
| NextConfig.DefaultExportPreferred | next.config.mjs:70-71 | a module's truthy default export is what gets merged, and its other exports are ignored |
| NextConfig.Settings.constructor | next.config.mjs:15-67 | the settings start as the defaults |
| NextConfig.Settings.MergeUserConfig | next.config.mjs:69-86 | after the merge the settings are Merged of the defaults and the user configuration |
| NextConfig.Settings.MergeKeys | next.config.mjs:73-85 | the loop over the user keys, in any visiting order, ends in Merged |
| NextConfig.MergeStep | next.config.mjs:74-84 | merging a key not yet visited reads its starting value and keeps the loop invariant |
| NextConfig.MergedAll | next.config.mjs:73-85 | once every user key is merged the settings equal Merged |
| NextConfig.ClientFallback | next.config.mjs:28-50 | every listed native module is stubbed to false, every other fallback entry is kept, and nothing else is added |
| NextConfig.Webpack | next.config.mjs:25-61 | a client build stubs the native modules, a server build keeps the fallback; both append the null-loader rule and return the same object |
| NextConfig.WebpackTwice | next.config.mjs:25-61 | two client builds on one object leave two loader rules and the stubs of the first |
| NextConfig.ClientFallbackIdempotent | next.config.mjs:28-50 | a second client build changes nothing in the fallback |
| Js.Get | app/profile/page.tsx:271-275 | reading a property fails exactly on undefined and null; an object gives the field, or undefined when it lacks it |
| Js.OptGet | app/profile/page.tsx:271-275 | optional chaining gives undefined on undefined and null, and the property otherwise |
| Js.JsRem | components/gamification/daily-streak-card.tsx:80-81 | the remainder takes the sign of the dividend and is smaller than the divisor in size, matching the mathematical one on non-negative operands |
| Js.NatToString | app/achievements/page.tsx:104 | a natural number prints as at least one decimal digit, a single one exactly below 10 |
| Js.IntToString | app/achievements/page.tsx:104 | a number prints as at least one character, led by a minus sign exactly when negative |
| Js.IntToStringInjective | app/achievements/page.tsx:104 | different numbers print differently |
| Js.OwnEnumerable | next.config.mjs:28-81 | an object spreads its fields, an array its items under their index names, and null, undefined, booleans, numbers and functions spread nothing |
| Js.IndexMap | next.config.mjs:78-81 | an array's items are keyed exactly by their index names |
| Js.Spread | next.config.mjs:28-81 | a spread holds the keys of both sides, the right side winning where both have one |
| Js.OrNullishDiffer | app/profile/page.tsx:271-273 | a falsy default and a nullish default differ exactly on a falsy value that is neither null nor undefined and is not the default itself |
| Js.FloorDiv | components/gamification/achievement-card.tsx:61 | the quotient rounds toward minus infinity |
| Js.RoundPercent | components/gamification/achievement-card.tsx:61 | the percentage is the nearest whole number to 100 times the ratio, halves rounding up |

## Left out

- Bcrypt hashing and comparison are the `Crypto` parameter, so cost 10 appears only as an argument. NextAuth's JWT signing, cookie issuing and the `signIn`/`error` page settings are not modelled.
- The e-mail regex inside the schema library is the `isEmail` parameter.
- Prisma's own checks of column types are not modelled; a written value is stored as given. The calls are not transactional in the source, and the model keeps each earlier write when a later call fails.
- Columns the database fills on its own (`createdAt`, `updatedAt`) are not modelled. An achievement's `achievedAt` defaults to the `now` parameter; turning the given value into a date is the `parseDate` parameter.
- `Http.ErrorText`: a 500 whose body is a caught exception's message carries no message in the model, because exception texts belong to the runtime.
- Numbers are integers. Percentages are kept as integer ratios with rounding written out (`Js.RoundPercent`); floating point, NaN and infinities are not modelled.
- `UseAuth.Effect` and `Middleware.Decide`: the callback path is kept as given; its URL encoding in the query string is not modelled.
- `console.log` calls, class names, animation variants, the confetti and animation timings, and toast descriptions are presentation and are left out. Timers are methods that the caller fires.
- React StrictMode, which runs updaters twice, is not modelled. Updaters run once each, in call order.
- In `next.config.mjs`, the dynamic import of the user configuration is not modelled; its result is a parameter. The order in which `for...in` visits keys is a parameter of `NextConfig.Settings.MergeUserConfig`. The loader rule's regular expressions are kept as their text.
- `MeRoute.UserFields` and `MeRoute.ProfileFields` build the filtered maps as map comprehensions rather than by one conditional assignment after another. The resulting map is the same.
- The profile page reads the fetched JSON through its declared types, and a field of another type reads as absent. It therefore does not model what the page would show if the server sent a mistyped field.
- The profile page's fetch effect is modelled from the point where the answer arrives. Its guard on the session user and the loading spinner are left out.
- The `GET` handler's `select` is modelled through the fields it returns. Prisma's query planning and relation loading are not modelled.
- `GamificationProvider.GetCurrentLevel` is proved for the five-row table the source defines, not for an arbitrary table.
- `AnimatedText.Typewriter`: the text is fixed for the component's lifetime. The source's effect also re-runs when the `text` prop changes while typing, and then goes on appending characters of the new text from the old index; the model does not capture a text that changes mid-typing, so its invariant (the shown text is a prefix of the text) holds for a fixed text only.
- The components that render lists of cards (`AchievementsPage.RenderAll`, `DailyStreakCard.Markers`) model each card's data, not its markup.
- `GamificationProvider.Provider.UpdateAchievementProgress` and `GamificationProvider.ProgressStep`: the nested `unlockAchievement` call runs its updater on the outer updater's result, as React's update queue does once the provider has pending work. This abstracts React's scheduling. React's eager computation of an update on an idle component, where the nested updater would see the last rendered list, is not modelled.
- Validations.NameRule, Validations.PasswordRule, Validations.ConfirmRule, Validations.LoginAccepts, Validations.SignupAccepts, SignupRoute.SignupDataAccepts, AnimatedText.Typewriter.Tick, AnimatedText.LogoLetters and AuthConfig.ParseCredentials: lengths and indices are taken over characters (Unicode scalar values), not over the UTF-16 code units that JavaScript's `.length`, `text[i]` and the schema's `.min(n)` count. A character outside the Basic Multilingual Plane counts once here and twice in the source.

## Findings

| source | as written | input that shows it | evidently intended | confidence | as-written member | corrected member |
|---|---|---|---|---|---|---|
| components/gamification/gamification-provider.tsx:159-161 | the nested `unlockAchievement(id)` is queued inside the progress updater. When updates run from React's queue, which happens once the provider has pending work, the outer updater has already returned the entry as unlocked. The nested updater then finds no locked entry and adds no points. When the provider is idle, React computes both updaters eagerly on the rendered list, and the points are paid. The outcome therefore depends on React's scheduling. Nothing in the repository calls `updateAchievementProgress` | the initial state with pending work, id "profile_complete", progress 5: the entry ends unlocked and the points stay 0 | reaching the maximum awards the entry's points once, as an unlock does (50 here), whatever React's scheduling | low; not executed, and depends on React's scheduling | GamificationProvider.ProgressCompletionAwardsNothing | GamificationProvider.IntendedProgressAwards |
| app/profile/page.tsx:195-224 | the save sends `title` and `location`, but the PUT handler (app/api/auth/me/route.ts:79-87) keeps only name, bio, skills, portfolio, endorsements, xp, level and streak, and the page's own local update writes only name, bio and xp. Both edits are therefore lost on the server and on the page, while the dialog reports "Profile updated!" | any edit that changes the title: the stored profile, the next fetch and the page all keep the old title, yet the save is reported as a success | the edits the dialog reports as saved are the ones the server stores and the page shows | high; not executed | ProfilePage.SaveDropsTitleAndLocation | ProfilePage.SaveKeepsEditsIntended |
| app/api/profile/update/route.ts:33-36,53-56 | the user update selects no fields, so the answer's `user` is the whole row, password hash included | any signed-in PATCH: the answer's user carries the `password` column | the answer carries only the public user fields, as the signup and me routes do | medium; not executed | ProfileUpdateRoute.PatchExposesPassword | ProfileUpdateRoute.PatchIntendedHidesPassword |
