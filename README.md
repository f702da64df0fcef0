# DataAccessNotifier: session keep-alive and access-log polling, in Dafny

DataAccessNotifier is an Android app for the Estonian state portal eesti.ee. It keeps
the user's portal session alive, polls the portal's data tracker (the "andmejälgija",
which lists which state registers read the citizen's data), stores the usage records
it has not seen before and raises a notification for them. This project models the
logic behind that loop:

- the usage records, their deduplication key and their display order;
- the two access-log stores: the older one keeps JSON texts, the newer one keeps
  parsed records and has the first-use rule (the first poll after login stores
  silently);
- the session renewal dispatch on the HTTP status, in both the alarm-driven service
  and the WorkManager worker, and the tracker response parsing they share;
- the single-slot refresh alarm, in both revisions;
- the bounded retry of the OkHttp interceptor on HTTP 500;
- the JWT cookie lookup, the user-info record updates and the tracker URL;
- the logout effects.

HTTP, JSON decoding, the clock and the operating system's alarm service are not
executed. They become parameters:

- a status code and a decoded body (`TrackerResponse.Body`) per request;
- `now` in milliseconds;
- `render` for `JsonElement.toString()`;
- `hash` for `String.hashCode()`;
- `displayTime` for `formatDisplayTime`.

A Kotlin exception becomes a `Result.Err`. A showing of a notification is appended to
`Notifications.Notifier.shown`. The stores and the alarm slot are classes whose fields
the methods update.

The files come from several revisions of the app, and each is modelled on its own
terms:

- `ForegroundServiceMain.kt` uses the string store (`StringLogStore`) and the alarm
  without a retry budget (`LegacyAlarmScheduler`), both in its own package.
- It calls `Utils.logOut`, which `Utils.kt` of this revision does not define. The model
  counts those calls in `ForegroundService.Service.logOutCalls`.
- It passes the batch's notification body, a `String`, to `showAccessLogNotification`,
  whose only definition in `NotificationManager.kt` takes a `LogEntryProto`. The model
  shows that body as a text notice, `Notifications.AccessLogText`.
- `AuthManager.logOut` calls `LoginStateRepository.setLoggedIn`, which
  `LoginStateRepository.kt` of this revision does not define: it has only `init`. The
  model gives `SessionState.LoginState` a logged-in flag that the call clears.

Behaviours of the code worth noting:

- A body that is not JSON, or whose top level is not an object, throws. It does not
  count as zero records. In the service, that exception skips the reschedule.
- A 500 on renewal sets a 30-second alarm. No retry budget is decremented anywhere: the
  newer alarm only refuses to schedule when `retries <= 0`, and every caller passes the
  default 20.
- The first-use rule suppresses notifications when the stored flag is `true`. An unset
  flag reads as `false`, so it notifies. The flag becomes `true` only through
  `setFirstUse(context)` at login.
- `AuthManager.clearSavedCookies` clears only the WebView cookies. The clearing of the
  saved cookie preferences is commented out.
- The newer store compares whole records, not a content hash: the newer parser never
  sets `contentHash`.
- A JSON `null` field is read by `jsonPrimitive.content` as the text `"null"`, not as
  an absent field.

## Model

| member | source | states |
|---|---|---|
| LogEntries.ContentHash | app/src/main/java/com/arkadst/dataaccessnotifier/LogEntryManager.kt:46-48 | `generateContentHash`: the four fields with `\|` between them; ContentHashIsJoin states it as a join |
| LogEntries.ContentHashIsJoin | app/src/main/java/com/arkadst/dataaccessnotifier/LogEntryManager.kt:46-48 | the content hash is the four fields joined by `\|` in the order timestamp, receiver, infoSystem, action |
| LogEntries.ContentHashSplits | app/src/main/java/com/arkadst/dataaccessnotifier/LogEntryManager.kt:46-48 | when no field holds `\|`, splitting the hash on `\|` gives back the four fields |
| LogEntries.ContentHashInjective | app/src/main/java/com/arkadst/dataaccessnotifier/LogEntryManager.kt:47 | when no field holds `\|`, distinct 4-tuples have distinct hashes |
| LogEntries.Field | app/src/main/java/com/arkadst/dataaccessnotifier/LogEntryManager.kt:20-23 | an absent key reads as ""; a present one as its primitive content, and an array or object there throws |
| LogEntries.ParseLogEntry | app/src/main/java/com/arkadst/dataaccessnotifier/LogEntryManager.kt:17-34 | a non-object throws; otherwise the entry holds the four field readings and its hash is `ContentHash` of its own fields; it fails exactly when a field reading fails |
| LogEntries.ParsedFieldDefaults | app/src/main/java/com/arkadst/dataaccessnotifier/LogEntryManager.kt:20-23 | each of the four fields absent from the object becomes ""; a string receiver is copied verbatim |
| LogEntries.ParseLogEntries | app/src/main/java/com/arkadst/dataaccessnotifier/LogEntryManager.kt:39-41 | succeeds exactly when every element parses; then one entry per element, in order |
| LogEntries.Insert | app/src/main/java/com/arkadst/dataaccessnotifier/LogEntryManager.kt:75 | inserting into a newest-first list keeps it newest-first and adds exactly the one entry |
| LogEntries.SortNewestFirst | app/src/main/java/com/arkadst/dataaccessnotifier/LogEntryManager.kt:75 | the result is newest-first and a permutation of the input, and the sort is stable: the entries of each timestamp stay in input order |
| LogEntries.LoadLogEntries | app/src/main/java/com/arkadst/dataaccessnotifier/LogEntryManager.kt:74-76 | the loaded list is a permutation of the stored entries, every earlier entry's timestamp is not smaller than any later one's, and entries with equal timestamps keep their stored order |
| LogEntries.NewestFirstPairwise | app/src/main/java/com/arkadst/dataaccessnotifier/LogEntryManager.kt:75 | neighbour-wise descending order gives descending order between any two positions |
| LogEntries.LexTransitive | app/src/main/java/com/arkadst/dataaccessnotifier/LogEntryManager.kt:75 | `String.compareTo` order is transitive |
| LogEntries.FormatExpandedNotification | app/src/main/java/com/arkadst/dataaccessnotifier/LogEntryManager.kt:67-69 | the text is the four labelled lines Time, Receiver, System and Action, joined by newlines |
| LogEntries.ExpandedNotificationLines | app/src/main/java/com/arkadst/dataaccessnotifier/LogEntryManager.kt:67-69 | the expanded text splits into exactly four lines: the Time, Receiver, System and Action labels, in that order, each with its value |
| AccessLogEntries.ParseLogEntry | app/src/main/java/com/arkadst/dataaccessnotifier/access_logs/LogEntryManager.kt:29-41 | a non-null field is copied verbatim, a null or absent one leaves the default ""; the content hash stays "" |
| AccessLogEntries.ParsedEqualityByFields | app/src/main/java/com/arkadst/dataaccessnotifier/access_logs/LogEntryManager.kt:32-40 | two parsed records are equal exactly when their four field readings are equal |
| AccessLogEntries.ParseLogEntries | app/src/main/java/com/arkadst/dataaccessnotifier/access_logs/LogEntryManager.kt:46-48 | one record per element, in the same order |
| AccessLogEntries.LoadLogEntries | app/src/main/java/com/arkadst/dataaccessnotifier/access_logs/LogEntryManager.kt:78-80 | a permutation of the stored records in descending timestamp order; records with equal timestamps keep their stored order |
| AccessLogEntries.ExpandedNotificationLines | app/src/main/java/com/arkadst/dataaccessnotifier/access_logs/LogEntryManager.kt:71-73 | the expanded text is the four labelled lines Time, Receiver, System, Action |
| StringLogStore.ListSet | app/src/main/java/com/arkadst/dataaccessnotifier/StoredAccessLogManagemer.kt:12-14 | writing a hash set back as a list, in an order left open, gives a list of exactly its elements with no duplicate |
| StringLogStore.Store.AddAccessLog | app/src/main/java/com/arkadst/dataaccessnotifier/StoredAccessLogManagemer.kt:7-16 | the stored set becomes old ∪ {entry}; an entry already stored leaves the set unchanged; no duplicates; `hasAccessLog(entry)` holds afterwards |
| StringLogStore.Store.HasAccessLog | app/src/main/java/com/arkadst/dataaccessnotifier/StoredAccessLogManagemer.kt:18-21 | whether the stored list contains the log |
| StringLogStore.Store.GetAllAccessLogs | app/src/main/java/com/arkadst/dataaccessnotifier/StoredAccessLogManagemer.kt:23-26 | exactly the logs for which `hasAccessLog` holds |
| StringLogStore.Store.ClearAccessLogs | app/src/main/java/com/arkadst/dataaccessnotifier/StoredAccessLogManagemer.kt:28-32 | the store is empty and `hasAccessLog` is false for every log |
| AccessLogStore.NewEntries | app/src/main/java/com/arkadst/dataaccessnotifier/access_logs/StoredAccessLogManager.kt:20-22 | the new records are the input's records minus the stored ones, each once |
| AccessLogStore.ToMutableSet | app/src/main/java/com/arkadst/dataaccessnotifier/access_logs/StoredAccessLogManager.kt:20 | the linked hash set of the input: its distinct records in first-occurrence order |
| AccessLogStore.RemoveAll | app/src/main/java/com/arkadst/dataaccessnotifier/access_logs/StoredAccessLogManager.kt:22 | the records not stored, in their order |
| AccessLogStore.Store.AddAccessLogs | app/src/main/java/com/arkadst/dataaccessnotifier/access_logs/StoredAccessLogManager.kt:19-39 | returns the new records; the store becomes the old list followed by them; nothing new means no change and no notification, and the flag is left alone; otherwise one notification per new record unless it is the first use, and `firstUse` becomes false |
| AccessLogStore.MergedIsUnion | app/src/main/java/com/arkadst/dataaccessnotifier/access_logs/StoredAccessLogManager.kt:22-35 | after a merge the store holds exactly the old records and the input's, and loses none |
| AccessLogStore.MergedKeepsNoDuplicates | app/src/main/java/com/arkadst/dataaccessnotifier/access_logs/StoredAccessLogManager.kt:22-35 | a store without duplicates never gains one |
| AccessLogStore.MergeIsIdempotent | app/src/main/java/com/arkadst/dataaccessnotifier/access_logs/StoredAccessLogManager.kt:22-25 | repeating a call with the same records finds nothing new and leaves the store as it was |
| AccessLogStore.MergeOrderIndependent | app/src/main/java/com/arkadst/dataaccessnotifier/access_logs/StoredAccessLogManager.kt:22-35 | the stored set does not depend on the order in which two batches arrive |
| AccessLogStore.Notices | app/src/main/java/com/arkadst/dataaccessnotifier/access_logs/StoredAccessLogManager.kt:30-32 | one access-log notification per new record, in order |
| AccessLogStore.FirstUseThenNotify | app/src/main/java/com/arkadst/dataaccessnotifier/access_logs/StoredAccessLogManager.kt:29-34 | after a login the first batch with new records raises no notification, and the next batch raises one per record it adds |
| UserInfo.Segments | app/src/main/java/com/arkadst/dataaccessnotifier/user_info/UserInfoManager.kt:45-46 | one trimmed segment per `;`-separated piece, in order |
| UserInfo.FindToken | app/src/main/java/com/arkadst/dataaccessnotifier/user_info/UserInfoManager.kt:47-48 | none exactly when no segment starts with `JWTTOKEN=`; otherwise the text after the prefix in the first segment that does |
| UserInfo.ExtractJwtToken | app/src/main/java/com/arkadst/dataaccessnotifier/user_info/UserInfoManager.kt:40-49 | a null or empty cookie gives no token; otherwise no token exactly when no trimmed segment starts with `JWTTOKEN=`, else the rest of the first that does |
| UserInfo.TokenHasNoSemicolon | app/src/main/java/com/arkadst/dataaccessnotifier/user_info/UserInfoManager.kt:45-48 | an extracted token never holds `;` |
| UserInfo.TokenRoundTrip | app/src/main/java/com/arkadst/dataaccessnotifier/user_info/UserInfoManager.kt:40-49 | the cookie `JWTTOKEN=t` gives back `t`, for any `t` without `;` or trailing whitespace |
| UserInfo.CleanPersonalCode | app/src/main/java/com/arkadst/dataaccessnotifier/user_info/UserInfoManager.kt:71 | one leading `EE` is removed when present, and only then |
| UserInfo.SavedUserInfo | app/src/main/java/com/arkadst/dataaccessnotifier/user_info/UserInfoManager.kt:66-90 | the stored code becomes the cleaned code unless that is empty, the first name becomes the new one unless it is empty, and the flags are kept |
| UserInfo.OneCountryPrefixRemoved | app/src/main/java/com/arkadst/dataaccessnotifier/user_info/UserInfoManager.kt:71-74 | `EE` followed by a non-empty code stores that code |
| UserInfo.MarkedFirstUse | app/src/main/java/com/arkadst/dataaccessnotifier/user_info/UserInfoManager.kt:95-105 | sets the flag to true only when it is unset |
| UserInfo.MarkedFirstUseIdempotent | app/src/main/java/com/arkadst/dataaccessnotifier/user_info/UserInfoManager.kt:95-105 | marking twice is marking once, and the flag is set afterwards |
| UserInfo.IsFirstUse | app/src/main/java/com/arkadst/dataaccessnotifier/user_info/UserInfoManager.kt:132-134 | true exactly when the flag is set to true; an unset flag reads false |
| UserInfo.UserInfoStore.FirstUse | app/src/main/java/com/arkadst/dataaccessnotifier/user_info/UserInfoManager.kt:132-134 | `isFirstUse(context)` reads the stored record through IsFirstUse |
| UserInfo.UserInfoStore.SaveUserInfo | app/src/main/java/com/arkadst/dataaccessnotifier/user_info/UserInfoManager.kt:66-90 | the stored record becomes `SavedUserInfo` of the old one |
| UserInfo.UserInfoStore.MarkFirstUse | app/src/main/java/com/arkadst/dataaccessnotifier/user_info/UserInfoManager.kt:95-105 | the stored record becomes `MarkedFirstUse` of the old one |
| UserInfo.UserInfoStore.SetFirstUse | app/src/main/java/com/arkadst/dataaccessnotifier/user_info/UserInfoManager.kt:110-116 | overwrites the first-use flag and no other field |
| UserInfo.UserInfoStore.SetLoggedIn | app/src/main/java/com/arkadst/dataaccessnotifier/user_info/UserInfoManager.kt:121-127 | overwrites the logged-in flag and no other field |
| Constants.Parameters | app/src/main/java/com/arkadst/dataaccessnotifier/core/Constants.kt:13-16 | one `dataSystemCodes=<code>` parameter per code, in order |
| Constants.DataTrackerUrl | app/src/main/java/com/arkadst/dataaccessnotifier/core/Constants.kt:11-17 | the URL starts with the usages endpoint |
| Constants.DataTrackerUrlShape | app/src/main/java/com/arkadst/dataaccessnotifier/core/Constants.kt:11-17 | the URL starts with the usages endpoint, and splitting the rest on `&` gives exactly the 15 parameters in array order |
| Constants.QueryParameters | app/src/main/java/com/arkadst/dataaccessnotifier/core/Constants.kt:13-16 | for any codes without `&`, the joined query splits back into one parameter per code |
| Constants.UrlMatchesWorker | app/src/main/java/com/arkadst/dataaccessnotifier/JwtExtentionWorker.kt:27 | `dataTrackerUrl()` equals the URL the worker writes out by hand |
| TrackerResponse.UsageRecords | app/src/main/java/com/arkadst/dataaccessnotifier/ForegroundServiceMain.kt:98-113 | a body that is not JSON throws, and so does one that is not an object; an object body yields exactly the items of the array under `findUsageResponses`, and no records when that key is missing or holds no array |
| TrackerResponse.DropSelfCaused | app/src/main/java/com/arkadst/dataaccessnotifier/ForegroundServiceMain.kt:101-104 | an empty array gives no records and never fails; otherwise it succeeds exactly when the personal code is stored and every record is an object; then the kept records are those whose rendered receiver does not contain the code, in order |
| TrackerResponse.KeptRecords | app/src/main/java/com/arkadst/dataaccessnotifier/ForegroundServiceMain.kt:98-104 | a non-JSON body fails with the parse error; success needs an object body, and every kept record is one of its usage records |
| TrackerResponse.KeptRecordsAreOthers | app/src/main/java/com/arkadst/dataaccessnotifier/ForegroundServiceMain.kt:101-104 | every kept record is a record the user did not cause, and every such record is kept |
| TrackerResponse.NoArrayNoRecords | app/src/main/java/com/arkadst/dataaccessnotifier/ForegroundServiceMain.kt:99-113 | an object body without an array under `findUsageResponses` yields no records |
| TrackerResponse.Texts | app/src/main/java/com/arkadst/dataaccessnotifier/ForegroundServiceMain.kt:105-107 | the text of each kept record, in order |
| ForegroundService.FreshEntries | app/src/main/java/com/arkadst/dataaccessnotifier/ForegroundServiceMain.kt:119-124 | the batch's entries not stored before, each once |
| ForegroundService.FreshEntriesStep | app/src/main/java/com/arkadst/dataaccessnotifier/ForegroundServiceMain.kt:119-124 | an entry is new exactly when it is neither stored nor earlier in the batch: a repeat inside the batch is found as stored |
| ForegroundService.NotificationBody | app/src/main/java/com/arkadst/dataaccessnotifier/ForegroundServiceMain.kt:116-121 | the body is empty exactly when there is no new entry |
| ForegroundService.NotificationBodyLines | app/src/main/java/com/arkadst/dataaccessnotifier/ForegroundServiceMain.kt:121 | the notification body lists the new entries one per line, in order |
| ForegroundService.BatchNotice | app/src/main/java/com/arkadst/dataaccessnotifier/ForegroundServiceMain.kt:126-131 | at most one notification per batch, and one exactly when the body is non-empty |
| ForegroundService.HandleParsedEntries | app/src/main/java/com/arkadst/dataaccessnotifier/ForegroundServiceMain.kt:116-132 | the store gains exactly the batch's entries; one notification lists the new entries, or none is shown when there are none |
| ForegroundService.ParsedEntries | app/src/main/java/com/arkadst/dataaccessnotifier/ForegroundServiceMain.kt:96-114 | the texts of the kept records, or the parse exception |
| ForegroundService.Service.ExtendJwtSession | app/src/main/java/com/arkadst/dataaccessnotifier/ForegroundServiceMain.kt:58-76 | 200 renews with no other effect; 500 sets an alarm 30 s out with no logout; any other status logs out with no alarm; only 200 returns true |
| ForegroundService.Service.PollDataTracker | app/src/main/java/com/arkadst/dataaccessnotifier/ForegroundServiceMain.kt:78-94 | a non-200 answer returns false and touches nothing; a 200 answer handles the parsed entries and returns true, or throws the parse exception |
| ForegroundService.Service.OnStartCommand | app/src/main/java/com/arkadst/dataaccessnotifier/ForegroundServiceMain.kt:41-56 | polling and the five-minute reschedule happen only after a renewal; a parse exception skips the reschedule; the service stops in every case |
| JwtWorker.HashIndex | app/src/main/java/com/arkadst/dataaccessnotifier/JwtExtentionWorker.kt:87-89 | every kept text's hash is a key, and every key holds a kept text with that hash |
| JwtWorker.HashIndexLastWins | app/src/main/java/com/arkadst/dataaccessnotifier/JwtExtentionWorker.kt:87-89 | a key holds the last text with that hash |
| JwtWorker.HashIndexValues | app/src/main/java/com/arkadst/dataaccessnotifier/JwtExtentionWorker.kt:87-89 | when the hash tells the batch's texts apart (equal hashes only for equal texts), the map's values are exactly the kept texts |
| JwtWorker.ParseDataTrackerResponseBody | app/src/main/java/com/arkadst/dataaccessnotifier/JwtExtentionWorker.kt:77-96 | the map built by the loop indexes the kept records' texts by hash; a non-array `findUsageResponses` gives the empty map; exceptions as in the service |
| JwtWorker.Worker.ExtendJwtSession | app/src/main/java/com/arkadst/dataaccessnotifier/JwtExtentionWorker.kt:47-57 | a non-200 status clears the saved and WebView cookies and returns false; 200 returns true and keeps them |
| JwtWorker.Worker.PollDataTracker | app/src/main/java/com/arkadst/dataaccessnotifier/JwtExtentionWorker.kt:59-75 | a non-200 answer returns false; a 200 answer returns true or throws the parse exception |
| JwtWorker.Worker.ScheduleNextWork | app/src/main/java/com/arkadst/dataaccessnotifier/JwtExtentionWorker.kt:102-114 | enqueues one run five minutes out |
| JwtWorker.Worker.DoWork | app/src/main/java/com/arkadst/dataaccessnotifier/JwtExtentionWorker.kt:32-45 | no poll after a failed renewal; success, and the next run, exactly when both steps succeed; otherwise failure with nothing enqueued |
| ServerErrorInterceptor.Retries | app/src/main/java/com/arkadst/dataaccessnotifier/ServerErrorInterceptor.kt:14-20 | the retries stop at the first answer that is not 500 or after 30 retries, and every earlier answer was 500 |
| ServerErrorInterceptor.Intercept | app/src/main/java/com/arkadst/dataaccessnotifier/ServerErrorInterceptor.kt:10-26 | at most 31 calls; the returned response is the first non-500 one, or the 31st when all were 500 (then `retryCount` is 30); every earlier response is closed, in order |
| AlarmScheduler.AlarmSlot.IsAlarmSet | app/src/main/java/com/arkadst/dataaccessnotifier/alarm/AlarmScheduler.kt:24-33 | an alarm is set exactly when the single slot holds a pending refresh |
| AlarmScheduler.AlarmSlot.ScheduleNextRefresh | app/src/main/java/com/arkadst/dataaccessnotifier/alarm/AlarmScheduler.kt:48-67 | with `retries <= 0` nothing changes; otherwise the one pending alarm is at `now + interval` carrying `retries`, replacing any earlier one; defaults 300000 ms and 20 |
| AlarmScheduler.AlarmSlot.CancelRefresh | app/src/main/java/com/arkadst/dataaccessnotifier/alarm/AlarmScheduler.kt:69-75 | no alarm is pending and `isAlarmSet` is false |
| AlarmScheduler.AlarmSlot.EnsureAlarmScheduled | app/src/main/java/com/arkadst/dataaccessnotifier/alarm/AlarmScheduler.kt:77-84 | a pending alarm is left untouched; otherwise one is set `interval` out (default 60000 ms) with the default budget; an alarm is pending afterwards, so a second call changes nothing |
| AlarmScheduler.OnBootReceive | app/src/main/java/com/arkadst/dataaccessnotifier/alarm/BootReceiver.kt:8-12 | after a reboot a refresh is pending, one minute out unless one was already pending; other broadcasts change nothing |
| LegacyAlarmScheduler.AlarmSlot.IsAlarmSet | app/src/main/java/com/arkadst/dataaccessnotifier/AlarmScheduler.kt:26-35 | an alarm is set exactly when the single slot holds a pending refresh |
| LegacyAlarmScheduler.AlarmSlot.ScheduleNextRefresh | app/src/main/java/com/arkadst/dataaccessnotifier/AlarmScheduler.kt:48-63 | always sets the one pending alarm at `now + interval` (default 300000 ms), replacing any earlier one |
| LegacyAlarmScheduler.AlarmSlot.CancelRefresh | app/src/main/java/com/arkadst/dataaccessnotifier/AlarmScheduler.kt:65-71 | no alarm is pending and `isAlarmSet` is false |
| Auth.ClearSavedCookies | app/src/main/java/com/arkadst/dataaccessnotifier/auth/AuthManager.kt:11-19 | the WebView cookies are cleared and the saved cookie preferences are kept |
| Auth.LogOut | app/src/main/java/com/arkadst/dataaccessnotifier/auth/AuthManager.kt:23-29 | afterwards the stored user is logged out with the other fields kept, no refresh alarm is pending, the WebView cookies are gone, the login state is false, and exactly one logout notification was added |

## Left out

- Android plumbing is not modelled: the notification channels, pending intents, foreground-service start and the `START_NOT_STICKY` return value.
- HTTP, the cookie jar and JSON decoding are not modelled: statuses and decoded bodies are inputs.
- `JsonElement.toString()`, `String.hashCode()` and `formatDisplayTime` are uninterpreted function parameters.
- Coroutines, DataStore atomicity and the 20-second `Thread.sleep` are not modelled; calls are taken as sequential.
- Wall-clock time is a parameter. The `Long` sum `now + interval` is unbounded here: 64-bit overflow is not modelled.
- Notification identity is not modelled. The Android notification id is `timestamp.hashCode()`, so two records with equal timestamps replace each other on screen; the model counts both showings.
- Auth.LogOut: the order of the five effects is not observable in the model. Only the final state is stated, and the logout notification is the one notification added.
- `AlarmReceiver` is not modelled: a fired alarm is not removed from the slot. The code has the same gap, since a fired `PendingIntent` stays registered and `isAlarmSet` keeps answering true.
- The strictness of `decodeFromJsonElement` for `LogEntryJson` (unknown keys, non-string values) is not modelled; records arrive already decoded.
- ForegroundService.Service.ExtendJwtSession: the `Utils.logOut` it calls does not exist in `Utils.kt`, so the model counts the call in `logOutCalls` instead of applying `Auth.LogOut`.
- The string-bodied `showAccessLogNotification` call and `LoginStateRepository.setLoggedIn` do not exist in this revision; their assumed effects (a text notice, a cleared logged-in flag) are modelled, and nothing else about them.
- JwtWorker.Worker.ScheduleNextWork: the work constraints and the `APPEND_OR_REPLACE` policy are not modelled; the method only records the five-minute delay.
- `LoginStateRepository`, `SessionManagementCookieJar` and `Utils.getURL` are reduced to the fields the core writes (`SessionState`).
- `extractUserInfo` (Base64 decoding of the JWT payload) and `requestExactAlarmPermissionIfNeeded` are outside the modelled core.
- The `String.compareTo` order is modelled on `char` sequences: surrogate pairs compare as one code point, not as UTF-16 units.
