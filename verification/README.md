# Verified models of Hezo's stateful and arithmetic core

A Dafny 4.11 project that models the parts of Hezo where state, interleaving or arithmetic carries a real invariant,
and proves what those parts promise. `dafny verify dfyconfig.toml` checks everything.

| file | what it models |
|---|---|
| `MasterKey.dfy` | enrolment, unlock and key derivation by any number of managers over one database, cut at every `await` |
| `Png.dfy` | the icon pipeline's PNG reader: chunk walk, in-place unfiltering, RGB to RGBA |
| `Calendar.dfy`, `Budget.dfy` | anchored container-hours windows over the Gregorian calendar of section 21.4.1 of ECMA-262 |
| `SupportChat.dfy` | the support chat loader: identity, the hold after a naming, the context the widget has |
| `Analytics.dfy` | the analytics loader: its queue, the recording, and settings that may only tighten |
| `Policy.dfy` | the policy-file watcher: debounce, re-arm after an error, last good value |
| `Concurrency.dfy`, `BlobBackup.dfy` | bounded fan-out, and the asset backup and restore that run on it |
| `S3Xml.dfy` | escaping by ordered replacement, reading elements back, batched deletes |
| `Lcov.dfy` | reconciling and merging coverage reports |
| `Thread.dfy` | folding a task thread |
| `AllowancePace.dfy` | the pace line and its hold |
| `ModelPins.dfy` | ordering model ids and picking the newest of a family |

## How the models are built

Code that changes state is modelled twice and the two are tied together. A step function on values says what each
synchronous piece does, so that whole runs can be quantified over; a class with the source's own fields
(`MasterKeyManager`, and the loaders and the watcher in the `...Module`, `...Class` and `PolicyWatcher` modules) does
the same by assignment, and each of its methods is proved to take the object's view to the step function's result. A
`Play` method per class then drives the objects through any sequence of events and is proved to end in the state of the
run, with that run's promise. Loops stay loops, on arrays where the source works in place.

Asynchronous calls are cut where they await. A database statement and the resumption that reads its result are separate
steps, any call in flight may fail at its await, and a run is any sequence of events. Timers, the widget, the tracker,
the store's answers, the file's contents and random draws are parameters of the steps. Cryptography is ideal: a derived
key names the key and purpose it came from and a ciphertext opens only under the key that sealed it.

## Where the code and its comments part

* `packages/server/src/lib/concurrency.ts` says that after a rejection "no new ones start". A worker whose own item
  resolved goes on taking items, so a backup or restore that has failed keeps copying.
  `Concurrency.NoStartAfterRejectionIff` gives the exact condition under which the comment holds.
* `Date.UTC` reads years 0 to 99 as 1900 to 1999, so windows there are wrong. `Budget.WindowExact` says exactly for
  which instants the window is right, `Budget.NoDrift` exactly when a chain of windows does not drift, and
  `Budget.PreviousInverts` exactly when the previous window is found.
* The policy watcher is meant never to stop noticing changes, and to cope with a directory that a deployment creates
  later. An attempt to watch that fails is never repeated: after a failed re-arm, or from the start where the directory
  is missing, the watcher is open with no handle and no timer, for good unless a watch already closed reports another
  error. `Policy.DeafExactly` says which runs end so, `Policy.NeverFailsNeverDeaf` that no run does without a failed
  attempt, `Policy.RearmCanFail` and `Policy.StartsDeaf` that both cases happen.
* Each callback given to `onUnlock` is meant to run once when the manager unlocks. Two things break that, for good. An
  `initialize` that decides after a concurrent unlock, or whose check of the canary fails then, locks the manager again,
  and the next unlock runs every callback a second time. And a callback that throws ends the loop, so those after it are
  never called. `MasterKey.RelocksExactly` names the guard of the first, `MasterKey.CallbacksRunOnce` says that over a
  run the promise holds if and only if neither happens, and `MasterKey.LateInitialize` and `MasterKey.ThrowingCallback`
  that both do.
* A refetch is meant to keep the keys of a thread's items. It does while the active and the retryable run stay the same;
  when they change, `Thread.KeysSurvive` says exactly which keys are kept.
* The support chat's context agreement fails for a panel opened before the widget is ready, and in no other case:
  `SupportChat.ContextAgrees`, with the exception told from the events alone.
* A page that cannot be named is meant not to be sent at all, but a call queued on one goes out under the page of the
  tracker's load. `Analytics.UnderItsOwnPage` gives the exact condition, `Analytics.SentUnderAnotherPage` a run.
* Coverage totals are meant not to depend on report order. A row that precedes every file name of its report counts under
  the empty path once an earlier report has named that, so order can matter. `Lcov.StatsIgnoreOrder` gives the exact
  condition; `Lcov.OrdinarilySettled` says that it holds where every row has its file or no report names the empty path.
* Reconciling filters every row of a Bun record by the lines of the first file the record names. `Lcov.MergeExactly` says
  that this gives vitest's lines, whatever vitest reports, if and only if each line row stands under that very file;
  `Lcov.ShapedIsHomed` says that records of the lcov format do so.

## Model

| member | source | states |
|---|---|---|
| MasterKey.EnrolmentSafety | packages/server/src/crypto/master-key.ts:72-149 | for every number of managers, every starting database and every interleaving of initialize, setup, unlock and the rest: an existing canary is never replaced, at most one enrolment wins, every unlocked manager holds the enrolled (and the winner's) key, any two hold the same, and a canary has a public key beside it unless the database started with one that has not |
| MasterKey.Backfilled | packages/server/src/crypto/master-key.ts:207-224 | whatever the database held to begin with, with the public key a function of the unlock key: once an initialize with both keys gets to its unlock, the stored public key is the enrolled key's own, a manager that holds that key has it from there, and it stays stored in every continuation |
| MasterKey.KnownIsStored | packages/server/src/crypto/master-key.ts:189-224 | in every run, also from a canary without a public key and with any keys, a manager that holds a public key has it from the database, so one is stored |
| MasterKey.PublicKeyStays | packages/server/src/crypto/master-key.ts:110-125 | a stored public key is never lost, and a canary and a public key stay together |
| MasterKey.DerivedKeySafety | packages/server/src/crypto/master-key.ts:171-187 | every derived key any caller was ever handed is the enrolled key's derivation for the purpose asked, also when a derivation begun before the caches were cleared lands in them afterwards |
| MasterKey.KeyServed | packages/server/src/crypto/master-key.ts:171-187 | a purpose is answered at once when cached, refused exactly when there is no key at all, and otherwise answered and cached when its derivation settles, whatever happens before; a derivation in flight is filed and shared |
| MasterKey.SettleForgets | packages/server/src/crypto/master-key.ts:182-182 | a settled derivation drops its own promise and no other |
| MasterKey.NextOk | packages/server/src/crypto/master-key.ts:105-149 | every step keeps the protocol invariant, and a canary once stored stays as it is with no further win |
| MasterKey.RunOk | packages/server/src/crypto/master-key.ts:72-187 | the same over whole runs from any state satisfying the invariant |
| MasterKey.FirstCanary | packages/server/src/crypto/master-key.ts:110-130 | before the first canary nothing holds a key, so writing it disturbs nothing |
| MasterKey.CommittedUnlocks | packages/server/src/crypto/master-key.ts:72-149 | from any state of any run, an initialize or unlock with the enrolled key, or a setup that won, unlocks its manager with that key once its awaits have passed, whatever else is interleaved and unless one of them fails |
| MasterKey.CommittedAdvances | packages/server/src/crypto/master-key.ts:226-237 | each await such a call passes brings it nearer; the last but one stores the key and empties both caches, the last sets key and state |
| MasterKey.CallCommits | packages/server/src/crypto/master-key.ts:142-149 | an unlock or initialize is such a call exactly when its key is the enrolled one |
| MasterKey.EnrolmentWins | packages/server/src/crypto/master-key.ts:105-136 | an enrolment of an empty database writes its canary and public key and wins |
| MasterKey.SetupUnlocks | packages/server/src/crypto/master-key.ts:105-136 | left to itself, a setup of an unset manager over an empty database enrols its keys and unlocks with them |
| MasterKey.SetupOnlyUnset | packages/server/src/crypto/master-key.ts:105-106 | of any other manager it is refused and changes nothing |
| MasterKey.InitializeEnrols | packages/server/src/crypto/master-key.ts:82-83 | so does an initialize with both keys |
| MasterKey.InitializeReports | packages/server/src/crypto/master-key.ts:72-92 | an initialize without keys sets locked or unset by whether a canary is stored, and changes nothing else |
| MasterKey.RefusedChangesNothing | packages/server/src/crypto/master-key.ts:72-149 | every other step of such calls writes nothing and gives no key; at most it says locked, or unset |
| MasterKey.PublicKeyRemembered | packages/server/src/crypto/master-key.ts:189-224 | the remembered public key is what was read, written or enrolled last, and spares a further read |
| MasterKey.RelocksExactly | packages/server/src/crypto/master-key.ts:72-93 | a step takes a manager out of the unlocked state if and only if it lets an initialize of that manager decide that had no key, or one that does not open the canary, or fails its check of the canary |
| MasterKey.StaysUnlocked | packages/server/src/crypto/master-key.ts:72-93 | once initialize has run, no sequence of events leaves the unlocked state; an unlocked manager keeps its callbacks' promise, and any other breaks it exactly when a callback throws before the last one's turn |
| MasterKey.CallbacksStep | packages/server/src/crypto/master-key.ts:151-154 | a step breaks "each registration was called exactly once while unlocked, never otherwise" exactly when it relocks a manager that has callbacks or a callback throws before the last one's turn, and nothing repairs it afterwards |
| MasterKey.CallbacksRunOnce | packages/server/src/crypto/master-key.ts:226-237 | over every run each registered callback was called exactly once, in order, if the manager is unlocked, and not at all otherwise, if and only if no initialize locked the manager while it was unlocked and had callbacks and no callback threw before the last one's turn |
| MasterKey.AllRegistered | packages/server/src/crypto/master-key.ts:151-152 | the callbacks registered are exactly those handed to onUnlock, in order |
| MasterKey.OthersUntouched | packages/server/src/crypto/master-key.ts:42-51 | no event of one manager changes another |
| MasterKey.LateInitialize | packages/server/src/crypto/master-key.ts:72-93 | a concrete run in which a late initialize makes one callback run twice |
| MasterKey.ThrowingCallback | packages/server/src/crypto/master-key.ts:232-236 | a concrete run in which the first of two callbacks throws and the second is not called, and no continuation puts that right |
| MasterKeyClass.MasterKeyManager.BeginSetUnlocked | packages/server/src/crypto/master-key.ts:226-231 | stores the key and clears both caches, as the protocol step does |
| MasterKeyClass.MasterKeyManager.FinishSetUnlocked | packages/server/src/crypto/master-key.ts:231-236 | sets key and state and calls each callback in order, only on leaving a locked state and only up to one that throws |
| MasterKeyClass.MasterKeyManager.OnUnlocked | packages/server/src/crypto/master-key.ts:151-154 | registers a callback, and runs it at once when already unlocked |
| MasterKeyClass.MasterKeyManager.BeginGetDerivedKey | packages/server/src/crypto/master-key.ts:171-183 | cached key, refusal, shared promise or new promise, as the protocol step does |
| MasterKeyClass.MasterKeyManager.SettleDerivation | packages/server/src/crypto/master-key.ts:182-182 | drops whatever promise is filed under the purpose |
| MasterKeyClass.MasterKeyManager.Resume | packages/server/src/crypto/master-key.ts:72-149 | every continuation of initialize, setup, unlock, ensureAuthPublicKey, setUnlocked and getDerivedKey changes the fields and goes on as the protocol step does |
| MasterKeyClass.Play | packages/server/src/crypto/master-key.ts:72-237 | any events played on any number of manager objects end in the protocol's run, so no canary is replaced, every unlocked object holds the enrolled key, every key handed out is its derivation, and each object called its callbacks once exactly where nothing broke that promise |
| Png.DecodeRoundTrip | packages/web/scripts/png.ts:35-117 | decoding what any encoder wrote, for every size, both colour types, every per-row filter choice, any split into IDAT chunks, any other chunks and any trailing bytes, gives every pixel back, with alpha 255 for RGB |
| Png.EveryImageEncodes | packages/web/scripts/png.ts:35-117 | every image of every size and filter choice has a file the round trip speaks of, its stream carried as it is |
| Png.DecodePng | packages/web/scripts/png.ts:35-117 | every error and every success: header, walk, inflate, then the one reading of the stream, widened if RGB |
| Png.Unfilter | packages/web/scripts/png.ts:62-105 | the nested loops fill the buffer with the rows of the one reading of the stream, or stop at the first filter type above 4, and never look at it for rows of no bytes |
| Png.UnfilterLine | packages/web/scripts/png.ts:69-105 | one pass of the outer loop |
| Png.UnfilterRow | packages/web/scripts/png.ts:75-104 | one row rebuilt in place solves its reconstruction equation, and the rows above are untouched |
| Png.PredictorIsStandard | packages/web/scripts/png.ts:80-102 | the five predictions are those of section 9 of the W3C PNG Specification, ties in the Paeth choice included |
| Png.EncoderIsStandard | packages/web/scripts/png.ts:69-105 | the filterer of the round trip is the standard's, byte by byte, with zero outside the image |
| Png.UndoneUnique | packages/web/scripts/png.ts:69-105 | a stream has at most one reading |
| Png.FilterRoundTrip | packages/web/scripts/png.ts:69-105 | filtering an image with any types gives a stream whose reading is that image |
| Png.CollectIdats | packages/web/scripts/png.ts:51-59 | the chunk walk, range errors included |
| Png.WalkRoundTrip | packages/web/scripts/png.ts:51-59 | over any chunks the walk finds exactly the IDAT payloads before the end chunk, in order |
| Png.HeaderRoundTrip | packages/web/scripts/png.ts:37-49 | the header read from a written file is the one written |
| Png.HeaderTaken | packages/web/scripts/png.ts:37-49 | exactly which files have a header that is taken, and which are no PNG at all |
| Png.WalkWithoutEnd | packages/web/scripts/png.ts:51-59 | with no end chunk the walk takes all payloads, and fails where one to three bytes are left over |
| Png.HighBitDropped | packages/web/scripts/png.ts:54-56 | chunk types are compared by seven bits a letter |
| Png.Widen | packages/web/scripts/png.ts:109-115 | each output byte is the pixel's colour or 255 |
| Png.PixelRecovered | packages/web/scripts/png.ts:121-124 | pixelAt of a decoded image is the encoder's pixel |
| Calendar.YearLength | packages/shared/src/budget.ts:320-324 | the day-number formula advances by 365 or 366 days by the leap rule |
| Calendar.YearFromDay | packages/shared/src/budget.ts:355-357 | the year of a day is the one it lies in, for all days before and after the epoch |
| Calendar.MonthHolds | packages/shared/src/budget.ts:355-357 | year, month and date of a day agree with where its month starts |
| Calendar.MonthUnique | packages/shared/src/budget.ts:320-324 | a day lies in one month only |
| Calendar.MonthLengthIs | packages/shared/src/budget.ts:320-324 | the twelve lengths, and February in a leap year |
| Calendar.EpochIsDayZero | packages/shared/src/budget.ts:320-324 | days count from 1 January 1970 |
| Budget.OccurrenceIs | packages/shared/src/budget.ts:320-324 | day zero of the next month yields the clamped anchor day of the month meant, carries over years included |
| Budget.AnchorDayIs | packages/shared/src/budget.ts:358-363 | the anchor is the day set, a fraction dropped, kept from 1 to 31, and the 1st when unset |
| Budget.OpensAtMidnight | packages/shared/src/budget.ts:320-324 | a window opens at midnight of the clamped anchor day |
| Budget.OpeningGap | packages/shared/src/budget.ts:370-379 | windows run from 28 to 31 days, so a 32-day stride from a start lands in the next window |
| Budget.StartExact | packages/shared/src/budget.ts:355-368 | the start is at or before now, and is the reference start, exactly when now is not in a year Date.UTC misreads |
| Budget.WindowExact | packages/shared/src/budget.ts:393-403 | the window is the reference window exactly when neither now nor the look-ahead instant is in a misread year |
| Budget.WindowsTile | packages/shared/src/budget.ts:355-403 | an instant lies in its window, the instants sharing it are exactly those between its bounds, and the window at its end opens there |
| Budget.NoDrift | packages/shared/src/budget.ts:311-324 | the n-th window end is the anchor day, or last day, of the n-th following month, if and only if now and the windows on the way are read rightly |
| Budget.WindowOfDay | packages/shared/src/budget.ts:355-403 | anchored on day n, from 1 to 31, the window and the k-th after it run between the n-ths of successive months, clamped, exactly where Date.UTC reads rightly |
| Budget.ClearFromYear100 | packages/shared/src/budget.ts:311-324 | from the first window of year 100 on they always are |
| Budget.PreviousInverts | packages/shared/src/budget.ts:412-426 | the previous window of the one a window ends in is that window, for every instant except exactly those read rightly whose look-ahead is misread |
| Budget.SinceHoldsBack | packages/shared/src/budget.ts:338-345 | since moves no end, and both starts are the later of since and their own opening |
| Budget.MisreadExample | packages/shared/src/budget.ts:355-368 | in the year 50 the window containing now has yet to open, whatever the anchor |
| SupportChat.ContextAgrees | packages/ui/src/support-chat.ts:172-266 | in every reachable state that is ready, open, not holding and has a context: the widget has it or refused it last, if and only if the events do not say that the panel was opened before ready with nothing due since |
| SupportChat.NeverEarly | packages/ui/src/support-chat.ts:185-195 | a widget that reports opened only after ready never creates the exception |
| SupportChat.OpenedTooSoon | packages/ui/src/support-chat.ts:250-266 | the exception is reachable |
| SupportChat.EpochPromises | packages/ui/src/support-chat.ts:216-289 | between any two resets, and after the last, every naming carries the identity first handed to an install in that same stretch by the events, and no separate write follows an accepted naming until 3000 ms have passed |
| SupportChat.Introduces | packages/ui/src/support-chat.ts:250-289 | whenever the events say the widget is ready and a person is known, the current log holds a naming of that person |
| SupportChat.SendsExactly | packages/ui/src/support-chat.ts:172-266 | what each event sends: a naming that falls due with the context of an open panel riding it, a write at every open and every end of a hold, a write of a changed context, and nothing else |
| SupportChat.TakenIsRemembered | packages/ui/src/support-chat.ts:177-182 | a write is remembered as sent exactly when the widget took it |
| SupportChat.FilledIs | packages/ui/src/support-chat.ts:399-403 | a context keeps every fact, an absent one as an empty string |
| SupportChat.NextKeeps | packages/ui/src/support-chat.ts:172-405 | every event, call and timer keeps identity, hold, timer and agreement invariants, and the state stays what the events say |
| SupportChatModule.Loader.Send | packages/ui/src/support-chat.ts:172-183 | the context goes out only when ready, open, settled, non-empty and changed, and is remembered only if taken |
| SupportChatModule.Loader.Hold | packages/ui/src/support-chat.ts:235-244 | one pending hold timer, restarted by each accepted naming |
| SupportChatModule.Loader.Name | packages/ui/src/support-chat.ts:216-233 | the naming with its riding context, then the hold or an immediate send |
| SupportChatModule.Loader.HandleReady | packages/ui/src/support-chat.ts:250-266 | readiness recorded, the identity named |
| SupportChatModule.Loader.HandleOpened | packages/ui/src/support-chat.ts:190-195 | every open sends |
| SupportChatModule.Loader.HandleTimer | packages/ui/src/support-chat.ts:238-243 | the end of a hold sends again |
| SupportChatModule.Loader.Install | packages/ui/src/support-chat.ts:276-306 | first install, or adoption of an identity by an anonymous one |
| SupportChatModule.Loader.Reset | packages/ui/src/support-chat.ts:364-375 | identity, panel, remembered context and hold all dropped |
| SupportChatModule.Loader.SetContext | packages/ui/src/support-chat.ts:399-405 | missing facts become empty strings, and a change is sent |
| SupportChatModule.Play | packages/ui/src/support-chat.ts:172-405 | any events played on the module end in the run, with its context agreement |
| Analytics.OnlyTightens | packages/ui/src/analytics.ts:411-504 | from an installed page no sequence of settings, loads, calls and navigation starts a recording, shows masked text or resumes sending |
| Analytics.OffAndStopped | packages/ui/src/analytics.ts:239-276 | once off nothing is dispatched and every payload is refused; once a recording is stopped and the tracker loaded, no session is reported again |
| Analytics.SettingsExactly | packages/ui/src/analytics.ts:474-504 | over every run from an installed page: off exactly when the settings were withdrawn, a recording stopped exactly when some settings no longer pick the visit, its text hidden exactly when some that do ask for it |
| Analytics.StartsExactly | packages/ui/src/analytics.ts:283-319 | a page is installed exactly when some settings could start it, and records, with one recorder, exactly when the first of those ask for it |
| Analytics.SettingsStep | packages/ui/src/analytics.ts:411-504 | the same event by event, with a recording that starts without text masked from the start |
| Analytics.StartsOnce | packages/ui/src/analytics.ts:411-416 | a recording asked for again can only hide the text |
| Analytics.PickRule | packages/ui/src/analytics.ts:384-396 | a rate of zero never picks and one of one always does; between them the kept decision, or else the draw, decides |
| Analytics.AskedExactly | packages/ui/src/analytics.ts:195-345 | the calls that are queued or dispatched are exactly those made while on, in order, each under its page, the first page view marked as such |
| Analytics.PatternIs | packages/ui/src/analytics.ts:245-249 | a page goes out as its path, without query or fragment and with a leading slash |
| Analytics.NothingLostOrRepeated | packages/ui/src/analytics.ts:195-218 | while on, the tracker was handed exactly the first fifty early calls and every later one, in order, each under the page it was made on, or, queued on one without a name, under the page of the load, and only bare paths leave |
| Analytics.UnderItsOwnPage | packages/ui/src/analytics.ts:184-218 | with the load at any point of a run, a call goes out under its own page, or not at all where that has no name, if and only if it had a name, or the call came after the load, or the page of the load has no name either |
| Analytics.SentUnderAnotherPage | packages/ui/src/analytics.ts:195-218 | a run in which the view of a page without a name is sent as a view of another |
| Analytics.NextOk | packages/ui/src/analytics.ts:195-504 | every event keeps the queue, session and delivery invariants and only tightens |
| Analytics.Cut | packages/ui/src/analytics.ts:246-249 | the longest prefix without a question mark or hash |
| AnalyticsModule.Loader.EnqueueCall | packages/ui/src/analytics.ts:195-211 | dispatched, queued with its page, or dropped when the queue is full or analytics off |
| AnalyticsModule.Loader.TrackerLoaded | packages/ui/src/analytics.ts:213-218 | a stopped recording is silenced before the queue is drained in order |
| AnalyticsModule.Loader.Start | packages/ui/src/analytics.ts:411-431 | starts once, masks first, and only tightens afterwards |
| AnalyticsModule.Loader.Stop | packages/ui/src/analytics.ts:439-447 | marks the recording stopped and replaces the tracker's session |
| AnalyticsModule.Loader.ApplyAnalyticsSettings | packages/ui/src/analytics.ts:474-504 | the first settings start, later ones stop, mask or turn off |
| AnalyticsModule.Play | packages/ui/src/analytics.ts:195-504 | any events and more events played on the module end in the run, and the later ones only tighten |
| Policy.WatcherSafety | packages/server/src/config/policy.ts:106-188 | in every run the policy is the last one a reload validly read or the startup value and nothing else in the configuration moves, at most one handle is open, and open with no timer pending the last reload followed the last event or error, so an announced change shows |
| Policy.GoodWasRead | packages/server/src/config/policy.ts:115-124 | that value is the startup one or was read by some reload |
| Policy.ClosedForGood | packages/server/src/config/policy.ts:180-187 | from the moment close is called, whatever was pending and whatever follows, the policy stays and no handle or timer is left |
| Policy.ClosedExactly | packages/server/src/config/policy.ts:180-187 | the watch is closed exactly when close was called |
| Policy.EachEvent | packages/server/src/config/policy.ts:115-187 | what each event does to an open watch: a fresh debounce, one re-arm pending, a read of the file, a new handle, or nothing |
| Policy.DeafForGood | packages/server/src/config/policy.ts:142-173 | an open watcher with no handle and no timer keeps its policy whatever the file does |
| Policy.HearingReacts | packages/server/src/config/policy.ts:142-173 | any other open watcher can be brought to read the file as it stands |
| Policy.DeafExactly | packages/server/src/config/policy.ts:142-177 | over every run the watch is down for good if and only if the last attempt to watch failed with no error or close since, and deaf if and only if no debounce is pending either |
| Policy.NeverFailsNeverDeaf | packages/server/src/config/policy.ts:142-177 | where every attempt to watch succeeds no run ends deaf |
| Policy.RearmCanFail | packages/server/src/config/policy.ts:142-173 | an error and a failed re-arm leave it deaf |
| Policy.StartsDeaf | packages/server/src/config/policy.ts:162-177 | a directory missing at startup leaves the configuration as it is whatever file appears later |
| Policy.NextOk | packages/server/src/config/policy.ts:115-187 | every event keeps the timer, handle and freshness invariants |
| PolicyWatcher.Watcher.ReloadPolicy | packages/server/src/config/policy.ts:115-124 | a bad read keeps the value, a good one swaps the one slice |
| PolicyWatcher.Watcher.HandleEvent | packages/server/src/config/policy.ts:164-167 | the debounce is restarted |
| PolicyWatcher.Watcher.HandleError | packages/server/src/config/policy.ts:142-160 | the watch is closed and one re-arm scheduled |
| PolicyWatcher.Watcher.HandleTimer | packages/server/src/config/policy.ts:147-157 | a debounce reloads; a re-arm watches again and reloads, unless closed |
| PolicyWatcher.Watcher.CloseWatch | packages/server/src/config/policy.ts:180-187 | timers and handle dropped |
| PolicyWatcher.Play | packages/server/src/config/policy.ts:106-189 | any events played on the watcher end in the run, with the last good policy, one handle at most and announced changes in force |
| Concurrency.EachOnce | packages/server/src/lib/concurrency.ts:18-40 | a resolved run finished every item exactly once, whatever order they settled in |
| Concurrency.ResolvedIff | packages/server/src/lib/concurrency.ts:18-40 | with nothing in flight it resolved exactly when no item rejected |
| Concurrency.RunOk | packages/server/src/lib/concurrency.ts:18-40 | at every point each item taken is finished or held by one worker, items are begun in order, and there are at most the limit of workers |
| Concurrency.LimitUsed | packages/server/src/lib/concurrency.ts:25-36 | at most the limit in flight, and exactly the limit while items remain and none has rejected |
| Concurrency.NoStartAfterRejectionIff | packages/server/src/lib/concurrency.ts:13-17 | no item starts after a rejection in any run exactly when the limit is at most one or no lower than the number of items |
| BlobBackup.EnumerateAssetRows | packages/server/src/assets/blob-backup.ts:93-107 | paging returns the table, each row once and in order, and ends also on a page boundary |
| BlobBackup.DumpComplete | packages/server/src/assets/blob-backup.ts:129-164 | a backup that resolves holds exactly the source's blobs of the rows, copied plus missing is the number of rows, and the byte count is theirs, in any completion order |
| BlobBackup.RestoreExact | packages/server/src/assets/blob-backup.ts:183-241 | a restore resolves exactly when every read and write goes through and every blob passes its check, and then the target is overlaid with the bundle and every blob counted once |
| BlobBackup.MismatchAborts | packages/server/src/assets/blob-backup.ts:214-234 | a wrong hash, a wrong size or, when strict, a missing row rejects the restore; when not strict a missing row is no obstacle |
| BlobBackup.EightAtATime | packages/server/src/assets/blob-backup.ts:141-212 | copies go eight at a time |
| BlobBackup.RerunIsSafe | packages/server/src/assets/blob-backup.ts:175-241 | a restore cut off at any point, rejected or not, leaves the target overlaid with what it had written, blobs that failed their check included; run again it resolves by the same condition, and then the target is its first self overlaid with the whole bundle |
| BlobBackup.BackupRoundTrip | packages/server/src/assets/blob-backup.ts:129-241 | restored over the same rows, it resolves exactly when every read and write goes through and every copied blob still has its row's hash and size, and then all are verified and nothing else changed |
| BlobBackup.RowsByIdFinds | packages/server/src/assets/blob-backup.ts:193-194 | the id map finds each row |
| S3Xml.EscapeRoundTrip | packages/server/src/assets/s3-client.ts:33-49 | for every string the five ordered replacements back undo the five forward |
| S3Xml.EscapeSpells | packages/server/src/assets/s3-client.ts:33-40 | the chain writes each of the five characters as its entity once, and nothing else changes |
| S3Xml.BodyReadsBack | packages/server/src/assets/s3-client.ts:57-63 | reading the Key elements of a Delete body gives its keys back |
| S3Xml.DeleteObjects | packages/server/src/assets/s3-client.ts:187-216 | at most 1000 keys a body, the bodies sent read back as a prefix of the keys, and as all of them when nothing failed |
| Lcov.MergeExactly | scripts/coverage/lcov.ts:84-122 | for every vitest report, after reconciling and merging, a file vitest reports has exactly its lines, each covered iff a tier hit it, other files keep their rows and branch rows stay, if and only if each Bun line row stands under the file its record is filtered by |
| Lcov.MergeFollowsVitest | scripts/coverage/lcov.ts:84-122 | the same for one vitest report and one row, from that condition |
| Lcov.ShapedIsHomed | scripts/coverage/lcov.ts:95-101 | records of one file named before its rows, with any other lines before, between and after, meet that condition |
| Lcov.TotalsRecomputed | scripts/coverage/lcov.ts:100-119 | LF and LH of a reconciled record are its line rows and those hit |
| Lcov.ReadLineModel | scripts/coverage/lcov.ts:85-94 | the loop's model is the report's lines, file by file, for every report |
| Lcov.ReconciledRows | scripts/coverage/lcov.ts:100-119 | a reconciled record, of any shape and read from any point, keeps exactly its rows on lines its filter has, each of its old file |
| Lcov.OutlineReconciled | scripts/coverage/lcov.ts:100-119 | everything in a record but its line rows and the numbers of LF and LH stays, in its place |
| Lcov.JoinedReads | scripts/coverage/lcov.ts:95-121 | the written output holds exactly the rows each record holds where it stands and its filter lets through |
| Lcov.CombinedCoverageStats | scripts/coverage/lcov.ts:138-183 | the loops compute the totals of the scanned maps |
| Lcov.CountUp | scripts/coverage/lcov.ts:164-174 | the counting loops count each row once |
| Lcov.StatsCountRows | scripts/coverage/lcov.ts:138-174 | for all reports the totals are the numbers of distinct rows of the reports together, and of those any report hit, stray rows under the empty path once it was named |
| Lcov.StatsIgnoreOrder | scripts/coverage/lcov.ts:138-183 | neither the order of the reports nor a repeated one changes the totals, if and only if no report names the empty path or every stray row also counts without the one that does |
| Lcov.OrdinarilySettled | scripts/coverage/lcov.ts:138-183 | that condition holds where every row has its file, or where no report names the empty path |
| Lcov.UnanchoredExample | scripts/coverage/lcov.ts:142-160 | two reports whose order matters, because a row precedes any file name |
| Thread.BuildThreadItems | packages/shared/src/task-thread.ts:277-305 | detailed: one item a row; conversation: the items show exactly the rows in order and the groups are the maximal runs of foldable rows, keyed and summarised |
| Thread.FoldUnique | packages/shared/src/task-thread.ts:277-305 | those conditions leave one folding only |
| Thread.FoldRule | packages/shared/src/task-thread.ts:178-195 | which rows stay in the conversation: what is said, the run executing and the run that can be retried |
| Thread.KeysStable | packages/shared/src/task-thread.ts:273-275 | appending rows under one fold context keeps the old item keys as a prefix |
| Thread.KeysSurvive | packages/shared/src/task-thread.ts:273-275 | with rows appended and the active or retryable run changed, a key is kept if and only if its row folds, or stands alone, as before and, for a group, the row before it does not fold now |
| Thread.KeysDistinct | packages/shared/src/task-thread.ts:273-305 | the keys are exactly those of rows that stand alone or come first in a group, and with unique ids no two items share one |
| Thread.SummaryAccounts | packages/shared/src/task-thread.ts:248-264 | failed, runs, changes and failure notices add up to the group's rows |
| Thread.Summarize | packages/shared/src/task-thread.ts:248-264 | each number counts its own kind of row |
| Thread.FailureRule | packages/shared/src/task-thread.ts:232-246 | a run's status decides whether it failed; without one, whether a notice in the thread names it |
| Thread.FailedRunIds | packages/shared/src/task-thread.ts:222-230 | the set of non-empty run ids named by failure notices |
| Thread.FindGroupKey | packages/shared/src/task-thread.ts:308-317 | the key of a group holding the row, or nothing when none does |
| Thread.FoundIffFoldable | packages/shared/src/task-thread.ts:186-195 | with unique ids a row is found in a group exactly when the rule folds it |
| AllowancePace.LimitRises | packages/shared/src/allowance-pace.ts:90-94 | the line never falls with time nor passes 95 |
| AllowancePace.PaceReported | packages/shared/src/allowance-pace.ts:71-111 | when there is nothing to pace, the share in force, and the line from the window's start on |
| AllowancePace.HoldInWindow | packages/shared/src/allowance-pace.ts:96-103 | a hold ends between now and the reset |
| AllowancePace.HoldIs | packages/shared/src/allowance-pace.ts:96-103 | who is held and until when, without the clamp from below, which never bites |
| AllowancePace.HoldIsSteady | packages/shared/src/allowance-pace.ts:96-103 | with usage unchanged every instant up to the hold's end is held until that same end and every later one is not |
| AllowancePace.UnderStaysUnder | packages/shared/src/allowance-pace.ts:96-103 | usage under the line stays under it until the reset |
| AllowancePace.EvenShareReachesCap | packages/shared/src/allowance-pace.ts:49-51 | the even share makes all but the reserve usable by the window's end |
| ModelPins.VersionOrderIsTotal | packages/shared/src/model-pins.ts:104-114 | if localeCompare orders all strings, so does comparing by version, across version lengths |
| ModelPins.CompareModelVersions | packages/shared/src/model-pins.ts:104-114 | the padded loop finds the first difference |
| ModelPins.PickIsNewest | packages/shared/src/model-pins.ts:124-130 | the pick is nothing, or the one family member no other is newer than |
| ModelPins.PickIgnoresOrder | packages/shared/src/model-pins.ts:124-130 | catalog order, repetition and older ids never change the pick |
| ModelPins.ReadsNumber | packages/shared/src/model-pins.ts:95-98 | a number written in an id is read back as itself |
| ModelPins.ReadsVersion | packages/shared/src/model-pins.ts:88-98 | an id is read as exactly the numbers in it, whatever other characters stand between them |
| ModelPins.OnlyStampsDropped | packages/shared/src/model-pins.ts:78-85 | nothing but a date stamp is dropped |
| ModelPins.SnapshotSameVersion | packages/shared/src/model-pins.ts:78-98 | a dated snapshot, in either spelling of the date, has the numbers of the id before the date, and so its base id's version |
| ModelPins.PrefixIsOlder | packages/shared/src/model-pins.ts:100-114 | a run of numbers is older than any longer run beginning with it |
| ModelPins.FirstDifferenceDecides | packages/shared/src/model-pins.ts:100-114 | of versions that agree up to a position the smaller number there is older |

## Left out

- `initialize` with an unlock key and no public key: the test-helper path that overwrites a canary; callers supply both or neither.
- Key derivation, encryption and signatures themselves, and `verifySignature`: ideal functions here.
- Callbacks that register callbacks from inside a callback.
- Inflate, CRC checks (the source has none), buffer allocation limits, and the icon inspections after `pixelAt`.
- `Date` beyond its 8.64e15 ms range, a NaN anchor, the budget floor rules and their messages.
- The widget's locale, colour scheme, launcher and open requests, script loading, and the spelling of a serialised context: equal contexts are equal values.
- A tracker that runs the before-send hook after the call that brought it there: the model takes it to run inside the call.
- Event-name validation, click listening, referrer trimming and what session storage keeps: storage answers and draws are inputs.
- File watching itself: the model takes an open handle to be the only one that delivers changes. Timer durations of the policy watcher: any pending timer may fire at any moment.
- BlobBackup.DumpComplete: the copies are values folded in completion order rather than files written in place; directory creation and the manifest are not modelled.
- The order of `mapConcurrent` results, `listAllKeys`, `xmlText` for other tags, request signing and HTTP.
- Splitting of raw lcov text, an `SF:` line of spaces only, path normalisation, the JSON merge and the combined percentage.
- Thread categories beyond the fold rule, and comment limits.
- AllowancePace.HoldIs: takes a daily share above zero, as the setting's validation enforces (5 to 100).
- AllowancePace.HoldIsSteady: exact real arithmetic; floating-point rounding and the truncation of a `Date` to milliseconds are not modelled.
- ModelPins.PickIsNewest: numbers in ids are exact, where the source's lose precision past 2^53; families are any predicate rather than the listed patterns.
- Server wiring, CLI, React components and configuration schemas.
