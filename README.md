# AndroidRefresher demos, modelled in Dafny

AndroidRefresher is a set of small Android teaching apps written in Kotlin.
Most of each app is Compose UI or a single platform call. The logic the
authors wrote themselves is small, and it becomes deterministic once the
platform's inputs are made parameters: the SDK level, whether a permission
is granted, the clock, and random UUIDs. This project models that logic and
proves what each demo promises.

- **Ordered broadcasts** (`spam_filter.dfy`, `inbox.dfy`, `ordered_broadcast.dfy`).
  - A spam filter at priority 100 aborts any message that contains "spam" in any letter case.
  - An inbox at priority 1 shows whatever reaches it.
  - The platform's ordered dispatch is a `Registry` class. It keeps its registrations in descending priority order and stops at the first abort.
  - The activity's `onStart`, `onStop` and `sendOrderedMessage` drive the registry.
- **Custom broadcasts** (`custom_broadcast.dfy`).
  - The sender encodes a message and a timestamp into an intent and counts its sends.
  - The receiver routes by action and decodes the extras with defaults.
  - The receiving screen puts each message at the front of its list.
- **Airplane mode** (`airplane_mode.dfy`): the receiver's action guard and its boolean `state` extra, and the screen state the receiver updates.
- **Notifications** (`notifications.dfy`).
  - The notification shade is a class over an ID-keyed table.
  - `NotificationIdDemoActivity` has a click counter and an ID counter: the same ID replaces, and different IDs stack as long as the shade holds no IDs left by an earlier instance of the screen.
  - `NotificationSenderActivity` gates posting on the SDK level and the permission.
  - The target screen reads back the `messageId` extra.
- **Music-service screen** (`services.dfy`).
  - `formatTime` uses Kotlin's truncating division and Java's `%02d`.
  - The `isBound` flag guards `unbindService`.
  - A permission check runs before the service starts.
- **Dictionary content provider** (`dictionary.dfy`).
  - `query` returns a fixed five-row table.
  - The no-op mutation stubs are modelled.
  - The client's `fetchWords` loop rebuilds the list from a cursor by column name.
- **Rotation** (`rotation.dfy`): the classic counter's save/restore round trip through a Bundle, and the ViewModel counter.
- **Intents** (`intent_demo.dfy`): SecondActivity's choice of message and its back result; MainActivity's result handling and the intents it builds.

`platform.dfy` holds the slice of Android the demos touch: intents with typed extras, and lookups with their defaults.
`text.dfy` holds the string helpers the demos rely on: ASCII case folding, substring search, and decimal printing and parsing.

## Model

| member | source | states |
|---|---|---|
| Text.ContainsIgnoreCaseCorrect | broadcastreceiver/src/main/java/com/balajiprabhu/broadcastreceiver/ordered/SpamFilterReceiver.kt:20 | The left-to-right scan behind `contains(…, ignoreCase = true)` answers true exactly when the pattern occurs at some offset, letter case ignored. |
| Text.ZeroPadRoundTrip | services/src/main/java/com/balajiprabhu/services/MainActivity.kt:149 | A number zero-padded by `%0Nd` is all digits and reads back as the same number. |
| SpamFilter.OnReceive | broadcastreceiver/src/main/java/com/balajiprabhu/broadcastreceiver/ordered/SpamFilterReceiver.kt:15-30 | Aborts exactly when a String message is present and contains "spam" in any case. It shows the blocked toast exactly when it aborts. A missing message has no effect. |
| SpamFilter.SpamAnywhere | broadcastreceiver/src/main/java/com/balajiprabhu/broadcastreceiver/ordered/SpamFilterReceiver.kt:20 | Any casing of "spam", with any text before or after it, is spam. |
| SpamFilter.NoSNotSpam | broadcastreceiver/src/main/java/com/balajiprabhu/broadcastreceiver/ordered/SpamFilterReceiver.kt:20-28 | A message with no letter s in either case is clean and passes on. |
| SpamFilter.SpamWithinWords | broadcastreceiver/src/main/java/com/balajiprabhu/broadcastreceiver/ordered/SpamFilterReceiver.kt:20 | The test is a substring test: "antispam" and "Spammer" are blocked too. |
| SpamFilter.DemoSpamMessage | broadcastreceiver/src/main/java/com/balajiprabhu/broadcastreceiver/ordered/OrderedBroadcastDemoActivity.kt:34 | The screen's spam message "Buy cheap SPAM now! 🥫" is spam. |
| SpamFilter.DemoCleanMessage | broadcastreceiver/src/main/java/com/balajiprabhu/broadcastreceiver/ordered/OrderedBroadcastDemoActivity.kt:33 | The screen's clean message "Hello Friend! 👋" is not spam. |
| SpamFilter.OnlyMessageMatters | broadcastreceiver/src/main/java/com/balajiprabhu/broadcastreceiver/ordered/SpamFilterReceiver.kt:13-30 | The receiver keeps no state: two intents with the same message extra get the same effect. |
| Inbox.OnReceive | broadcastreceiver/src/main/java/com/balajiprabhu/broadcastreceiver/ordered/InboxReceiver.kt:15-20 | Never aborts. Shows "📨 Inbox: " followed by the message exactly when a String message is present, and does nothing otherwise. |
| OrderedBroadcast.InsertByPriorityKeepsOrder | broadcastreceiver/src/main/java/com/balajiprabhu/broadcastreceiver/ordered/OrderedBroadcastDemoActivity.kt:63-78 | Registering keeps the table in non-increasing priority order. |
| OrderedBroadcast.InsertByPriorityAddsOne | broadcastreceiver/src/main/java/com/balajiprabhu/broadcastreceiver/ordered/OrderedBroadcastDemoActivity.kt:72-78 | Registering adds exactly the new registration and loses none (multiset equality). |
| OrderedBroadcast.KeepByPriority | broadcastreceiver/src/main/java/com/balajiprabhu/broadcastreceiver/ordered/OrderedBroadcastDemoActivity.kt:81-85 | Removing registrations, or selecting those an intent matches, keeps the priority order. |
| OrderedBroadcast.DeliverFollowsMatching | broadcastreceiver/src/main/java/com/balajiprabhu/broadcastreceiver/ordered/OrderedBroadcastDemoActivity.kt:56 | The dispatch runs a prefix of the matching receivers in table order, and only the last one it runs may abort. It ends Delivered exactly when it ran all of them and none aborted. It ends Aborted(p) only when the last one aborted at priority p. Its toasts are those of the receivers it ran, in order. |
| OrderedBroadcast.DeliverInPriorityOrder | broadcastreceiver/src/main/java/com/balajiprabhu/broadcastreceiver/ordered/OrderedBroadcastDemoActivity.kt:63-70 | Receivers run in non-increasing priority order. |
| OrderedBroadcast.DeliverStaysInPackage | broadcastreceiver/src/main/java/com/balajiprabhu/broadcastreceiver/ordered/OrderedBroadcastDemoActivity.kt:45 | An intent restricted to a package reaches only that package's receivers. |
| OrderedBroadcast.NoReceiverLeft | broadcastreceiver/src/main/java/com/balajiprabhu/broadcastreceiver/ordered/OrderedBroadcastDemoActivity.kt:81-85 | Removing the filter and then the inbox leaves the demo's table empty. |
| OrderedBroadcast.Registry.Register | broadcastreceiver/src/main/java/com/balajiprabhu/broadcastreceiver/ordered/OrderedBroadcastDemoActivity.kt:72-78 | The new table is the old one with the registration inserted after every entry of equal or higher priority. The order invariant is kept. |
| OrderedBroadcast.Registry.Unregister | broadcastreceiver/src/main/java/com/balajiprabhu/broadcastreceiver/ordered/OrderedBroadcastDemoActivity.kt:83-84 | Removes every registration of the receiver. It reports whether there was one; an unregistered receiver leaves the table unchanged. |
| OrderedBroadcast.Registry.Dispatch | broadcastreceiver/src/main/java/com/balajiprabhu/broadcastreceiver/ordered/OrderedBroadcastDemoActivity.kt:56 | The loop over the table produces exactly the trace `Deliver` specifies. |
| OrderedBroadcast.OrderedMessageIntentCarries | broadcastreceiver/src/main/java/com/balajiprabhu/broadcastreceiver/ordered/OrderedBroadcastDemoActivity.kt:43-46 | The sent intent carries the ordered action, the message unchanged, and the app's own package. |
| OrderedBroadcast.OnStart | broadcastreceiver/src/main/java/com/balajiprabhu/broadcastreceiver/ordered/OrderedBroadcastDemoActivity.kt:59-79 | Registers the filter at 100 and then the inbox at 1, both on the ordered action. |
| OrderedBroadcast.OnStop | broadcastreceiver/src/main/java/com/balajiprabhu/broadcastreceiver/ordered/OrderedBroadcastDemoActivity.kt:81-85 | Unregisters the filter, then the inbox. It succeeds exactly when both were registered, and then leaves the table empty. When the filter was not registered, the first call fails and the inbox stays. |
| OrderedBroadcast.SendOrderedMessage | broadcastreceiver/src/main/java/com/balajiprabhu/broadcastreceiver/ordered/OrderedBroadcastDemoActivity.kt:42-57 | The only visible outcome is the toasts of the dispatch, since no result receiver is passed. |
| OrderedBroadcast.StartedFromEmpty | broadcastreceiver/src/main/java/com/balajiprabhu/broadcastreceiver/ordered/OrderedBroadcastDemoActivity.kt:59-79 | From an empty table, `onStart` leaves exactly [filter, inbox]. |
| OrderedBroadcast.FilterAheadOfInbox | broadcastreceiver/src/main/java/com/balajiprabhu/broadcastreceiver/ordered/OrderedBroadcastDemoActivity.kt:63-70 | Whatever the table held, `onStart` puts the filter ahead of the inbox. |
| OrderedBroadcast.CleanMessageReachesInbox | broadcastreceiver/src/main/java/com/balajiprabhu/broadcastreceiver/ordered/OrderedBroadcastDemoActivity.kt:133 | A message without "spam" passes the filter. The inbox shows it and the dispatch ends Delivered. |
| OrderedBroadcast.SpamMessageStopsAtFilter | broadcastreceiver/src/main/java/com/balajiprabhu/broadcastreceiver/ordered/OrderedBroadcastDemoActivity.kt:148 | A spam message is aborted at priority 100 with the blocked toast. The inbox never runs. |
| OrderedBroadcast.DemoButtons | broadcastreceiver/src/main/java/com/balajiprabhu/broadcastreceiver/ordered/OrderedBroadcastDemoActivity.kt:33-34 | The screen's two buttons give the two expected outcomes against the table `onStart` builds. |
| OrderedBroadcast.StoppedReachesNeither | broadcastreceiver/src/main/java/com/balajiprabhu/broadcastreceiver/ordered/OrderedBroadcastDemoActivity.kt:81-85 | After both are unregistered, a dispatch runs no receiver and shows nothing. |
| CustomBroadcast.CustomMessageIntentCarries | broadcastreceiver/src/main/java/com/balajiprabhu/broadcastreceiver/custom/BroadcastSenderActivity.kt:54-60 | The intent has the custom action, exactly the message and the time under their keys, and the sender's package. |
| CustomBroadcast.BroadcastSender.constructor | broadcastreceiver/src/main/java/com/balajiprabhu/broadcastreceiver/custom/BroadcastSenderActivity.kt:21 | `broadcastCount` starts at 0. |
| CustomBroadcast.BroadcastSender.SendCustomBroadcast | broadcastreceiver/src/main/java/com/balajiprabhu/broadcastreceiver/custom/BroadcastSenderActivity.kt:53-70 | Sends that intent and adds exactly 1 to the count, whether or not anything listens. |
| CustomBroadcast.OnReceive | broadcastreceiver/src/main/java/com/balajiprabhu/broadcastreceiver/custom/CustomMessageReceiver.kt:17-41 | Calls back exactly when the intent is non-null with the custom action. The callback gets the String message or "No message", and the Long timestamp or 0. It toasts "📨 " plus the message exactly when it calls back and has a context. |
| CustomBroadcast.SendReceiveRoundTrip | broadcastreceiver/src/main/java/com/balajiprabhu/broadcastreceiver/custom/CustomMessageReceiver.kt:23-25 | The receiver decodes exactly the message and the timestamp the sender encoded. |
| CustomBroadcast.DefaultsWhenExtrasMissing | broadcastreceiver/src/main/java/com/balajiprabhu/broadcastreceiver/custom/CustomMessageReceiver.kt:23-25 | A custom-action intent without extras decodes to "No message" and 0. |
| CustomBroadcast.BroadcastReceiverActivity.constructor | broadcastreceiver/src/main/java/com/balajiprabhu/broadcastreceiver/custom/BroadcastReceiverActivity.kt:32 | The list starts empty and no receiver is registered. |
| CustomBroadcast.BroadcastReceiverActivity.OnStart | broadcastreceiver/src/main/java/com/balajiprabhu/broadcastreceiver/custom/BroadcastReceiverActivity.kt:58-69 | Registers the receiver and leaves the list alone. |
| CustomBroadcast.BroadcastReceiverActivity.OnStop | broadcastreceiver/src/main/java/com/balajiprabhu/broadcastreceiver/custom/BroadcastReceiverActivity.kt:71-75 | Unregisters the receiver. It fails exactly when the receiver was not registered, and leaves the list alone. |
| CustomBroadcast.BroadcastReceiverActivity.OnMessageReceived | broadcastreceiver/src/main/java/com/balajiprabhu/broadcastreceiver/custom/BroadcastReceiverActivity.kt:34-38 | The new entry, holding the message and timestamp unchanged, goes in at index 0. The older entries follow in their old order. |
| CustomBroadcast.BroadcastReceiverActivity.Receive | broadcastreceiver/src/main/java/com/balajiprabhu/broadcastreceiver/custom/BroadcastReceiverActivity.kt:58-75 | The list grows by the decoded entry only while registered and only for the custom action. Otherwise it is unchanged. |
| CustomBroadcast.NewestFirst | broadcastreceiver/src/main/java/com/balajiprabhu/broadcastreceiver/custom/BroadcastReceiverActivity.kt:36 | After a run of deliveries the list is those deliveries newest first, followed by the older entries. |
| AirplaneMode.OnReceive | broadcastreceiver/src/main/java/com/balajiprabhu/broadcastreceiver/AirplaneModeReceiver.kt:17-32 | Acts exactly on the airplane-mode action. The state is true exactly when the "state" extra is the Boolean true, so it is false when the extra is missing. The toast is the ON text exactly when the state is true, and the OFF text otherwise. |
| AirplaneMode.ReportsBroadcastState | broadcastreceiver/src/main/java/com/balajiprabhu/broadcastreceiver/AirplaneModeReceiver.kt:23-30 | The callback gets the state the system broadcast carries. |
| AirplaneMode.BroadcastDemoActivity.constructor | broadcastreceiver/src/main/java/com/balajiprabhu/broadcastreceiver/BroadcastDemoActivity.kt:24 | `isAirplaneModeOn` starts false. |
| AirplaneMode.BroadcastDemoActivity.OnStart | broadcastreceiver/src/main/java/com/balajiprabhu/broadcastreceiver/BroadcastDemoActivity.kt:53-65 | Registers the receiver and keeps the state. |
| AirplaneMode.BroadcastDemoActivity.OnStop | broadcastreceiver/src/main/java/com/balajiprabhu/broadcastreceiver/BroadcastDemoActivity.kt:67-71 | Unregisters the receiver. It fails exactly when the receiver was not registered. |
| AirplaneMode.BroadcastDemoActivity.Receive | broadcastreceiver/src/main/java/com/balajiprabhu/broadcastreceiver/BroadcastDemoActivity.kt:27-29 | While registered, an airplane-mode broadcast sets the state to its extra and toasts. Anything else changes nothing. |
| AirplaneMode.OtherActionsIgnored | broadcastreceiver/src/main/java/com/balajiprabhu/broadcastreceiver/AirplaneModeReceiver.kt:19 | Broadcasts with other actions never change the state shown. |
| AirplaneMode.LastDeliveredWins | broadcastreceiver/src/main/java/com/balajiprabhu/broadcastreceiver/BroadcastDemoActivity.kt:27-29 | The screen shows the state of the last airplane-mode broadcast delivered. |
| AirplaneMode.StartsOff | broadcastreceiver/src/main/java/com/balajiprabhu/broadcastreceiver/BroadcastDemoActivity.kt:24 | Until an airplane-mode broadcast arrives, the screen shows OFF. |
| Notifications.NotificationShade.Notify | pendingintent/src/main/java/com/balajiprabhu/pendingintent/NotificationIdDemoActivity.kt:107 | Posting under an ID replaces what that ID showed and leaves the other IDs alone. |
| Notifications.NotificationShade.CancelAll | pendingintent/src/main/java/com/balajiprabhu/pendingintent/NotificationIdDemoActivity.kt:142 | Empties the shade. |
| Notifications.NotificationIdDemo.constructor | pendingintent/src/main/java/com/balajiprabhu/pendingintent/NotificationIdDemoActivity.kt:81-111 | The click count starts at 0 and the ID counter at 100, whatever the shade still shows. The IDs showing are all accounted for exactly when none but ID 1 is showing. |
| Notifications.NotificationIdDemo.ShowWithSameId | pendingintent/src/main/java/com/balajiprabhu/pendingintent/NotificationIdDemoActivity.kt:85-109 | Adds 1 to the click count even when nothing is posted. If permitted, it posts under ID 1 with request code 0, and the text and extra show the new count. It adds no ID other than 1, so it keeps every showing ID accounted for. |
| Notifications.NotificationIdDemo.ShowWithDifferentId | pendingintent/src/main/java/com/balajiprabhu/pendingintent/NotificationIdDemoActivity.kt:115-139 | Adds 1 to the ID counter even when nothing is posted. The new ID is never 1 and is also the request code. A permitted post grows the shade by one exactly when that ID is not showing yet, and replaces it otherwise. While every showing ID is 1 or one this screen handed out, the new ID is never showing, so the post stacks, and that property is kept. |
| Notifications.NotificationIdDemo.ClearAll | pendingintent/src/main/java/com/balajiprabhu/pendingintent/NotificationIdDemoActivity.kt:141-145 | Empties the shade and resets the counters to 0 and 100, so every showing ID is accounted for again. |
| Notifications.HandleNotificationClick | pendingintent/src/main/java/com/balajiprabhu/pendingintent/NotificationSenderActivity.kt:64-72 | At SDK 33 and above a click always requests the permission. Below 33 it shows the notification at once. |
| Notifications.ShowNotification | pendingintent/src/main/java/com/balajiprabhu/pendingintent/NotificationSenderActivity.kt:91-130 | Posts under ID 1, with request code 0 and `messageId` "MSG_12345", exactly when the SDK is below 33 or the permission is granted. |
| Notifications.Click | pendingintent/src/main/java/com/balajiprabhu/pendingintent/NotificationSenderActivity.kt:37-43 | Below SDK 33 a click posts. From 33 on it posts only when the user grants the permission in the dialog. |
| Notifications.TargetMessageId | pendingintent/src/main/java/com/balajiprabhu/pendingintent/NotificationTargetActivity.kt:22 | The target shows the `messageId` extra when it is a String. It shows "No message ID" when the extra is missing or is not a String. |
| Notifications.TargetShowsMessageId | pendingintent/src/main/java/com/balajiprabhu/pendingintent/NotificationSenderActivity.kt:93-95 | Opening a posted notification's intent shows the ID it was given. |
| Notifications.SenderMessageIdArrives | pendingintent/src/main/java/com/balajiprabhu/pendingintent/NotificationSenderActivity.kt:95 | The sender's notification opens the target showing "MSG_12345". |
| Services.KRem | services/src/main/java/com/balajiprabhu/services/MainActivity.kt:148 | Kotlin's `%` goes with truncating division. The remainder is in [0, b) for a non-negative dividend and in (-b, 0] for a negative one. |
| Services.FormatTimeFields | services/src/main/java/com/balajiprabhu/services/MainActivity.kt:145-150 | For millis ≥ 0 the text is a minutes field of at least two digits, then ":", then two seconds digits. The fields' values are (millis/1000)/60 and (millis/1000)%60 < 60. |
| Services.FormatTimeRoundTrip | services/src/main/java/com/balajiprabhu/services/MainActivity.kt:145-150 | Parsing the text back gives MM*60+SS = millis/1000 for every millis ≥ 0. |
| Services.LongPlaybackWidensMinutes | services/src/main/java/com/balajiprabhu/services/MainActivity.kt:147-149 | Minutes never carry into hours. The minutes field has three or more digits exactly from 100 minutes on. |
| Services.SubSecondTruncated | services/src/main/java/com/balajiprabhu/services/MainActivity.kt:146 | Sub-second remainders are dropped: 999 gives "00:00" and 61999 gives "01:01". |
| Services.NegativeInputSignedFields | services/src/main/java/com/balajiprabhu/services/MainActivity.kt:146-149 | A negative input gives signed fields, so -61000 gives "-1:-1", which does not parse back. |
| Services.CountOfAppend | services/src/main/java/com/balajiprabhu/services/MainActivity.kt:121-143 | Counting calls distributes over appending logs. This is used to keep the unbind invariant. |
| Services.PlayClickCall | services/src/main/java/com/balajiprabhu/services/MainActivity.kt:96-114 | The play button starts the service exactly when the SDK is below 33 or the permission is held. Otherwise it requests the permission. |
| Services.ServiceController.constructor | services/src/main/java/com/balajiprabhu/services/MainActivity.kt:51-52 | No service and not bound. |
| Services.ServiceController.OnStart | services/src/main/java/com/balajiprabhu/services/MainActivity.kt:130-135 | Asks to bind and changes no state. |
| Services.ServiceController.OnServiceConnected | services/src/main/java/com/balajiprabhu/services/MainActivity.kt:55-61 | Stores the service and sets `isBound`. The platform calls it only while a binding is outstanding. |
| Services.ServiceController.OnServiceDisconnected | services/src/main/java/com/balajiprabhu/services/MainActivity.kt:63-68 | Clears the service and `isBound`. |
| Services.ServiceController.StopAndUnbindService | services/src/main/java/com/balajiprabhu/services/MainActivity.kt:121-128 | Unbinds only when bound and always stops the service. Afterwards it is not bound. Unbinds never outnumber binds. |
| Services.ServiceController.OnStop | services/src/main/java/com/balajiprabhu/services/MainActivity.kt:137-143 | Unbinds only when bound. Afterwards it is not bound. |
| Services.ServiceController.CheckAndRequestNotificationPermission | services/src/main/java/com/balajiprabhu/services/MainActivity.kt:96-114 | Makes the one call `PlayClickCall` chooses. |
| Services.ServiceController.OnPermissionResult | services/src/main/java/com/balajiprabhu/services/MainActivity.kt:43-49 | Starts the service exactly when the permission was granted. |
| Dictionary.Query | contentprovider/src/main/java/com/balajiprabhu/contentprovider/DictionaryProvider.kt:31-56 | The columns are exactly `_id`, `word`, `definition`. There are 5 rows in table order, row i holding i, the i-th word and its definition. No argument is read. |
| Dictionary.GetType | contentprovider/src/main/java/com/balajiprabhu/contentprovider/DictionaryProvider.kt:59 | Declares no MIME type. |
| Dictionary.Insert | contentprovider/src/main/java/com/balajiprabhu/contentprovider/DictionaryProvider.kt:60 | Stores nothing and returns no URI. |
| Dictionary.Delete | contentprovider/src/main/java/com/balajiprabhu/contentprovider/DictionaryProvider.kt:61 | Deletes no rows. |
| Dictionary.Update | contentprovider/src/main/java/com/balajiprabhu/contentprovider/DictionaryProvider.kt:62 | Updates no rows. |
| Dictionary.ColumnIndex | contentprovider/src/main/java/com/balajiprabhu/contentprovider/MainActivity.kt:51-53 | Finds the first column whose name matches ignoring case, or reports that none matches. |
| Dictionary.ParseLongRoundTrip | contentprovider/src/main/java/com/balajiprabhu/contentprovider/MainActivity.kt:56 | `getLong` on a string cell reads back any integer printed in decimal. |
| Dictionary.FetchWords | contentprovider/src/main/java/com/balajiprabhu/contentprovider/MainActivity.kt:34-65 | The `moveToNext` loop returns exactly what `FetchResult` specifies: no cursor gives no words; a missing column or an unreadable cell is an error; otherwise every row is read. |
| Dictionary.FailureStops | contentprovider/src/main/java/com/balajiprabhu/contentprovider/MainActivity.kt:55-60 | A row that fails ends the read with that row's error. |
| Dictionary.OneWordPerRow | contentprovider/src/main/java/com/balajiprabhu/contentprovider/MainActivity.kt:55-60 | The read succeeds exactly when every row reads. It then gives one word per row, in cursor order, each from its own row. |
| Dictionary.ColumnPositionIrrelevant | contentprovider/src/main/java/com/balajiprabhu/contentprovider/MainActivity.kt:51-53 | Cursors that agree on the cells their column names select give the same words, wherever the columns sit. |
| Dictionary.FetchFromProvider | contentprovider/src/main/java/com/balajiprabhu/contentprovider/DictionaryProvider.kt:51-53 | Against the provider the client gets the five words with ids 0 to 4 in table order, whatever the query arguments. |
| Dictionary.NoCursorNoWords | contentprovider/src/main/java/com/balajiprabhu/contentprovider/MainActivity.kt:50 | A null cursor yields an empty list. |
| Dictionary.MissingWordColumnThrows | contentprovider/src/main/java/com/balajiprabhu/contentprovider/MainActivity.kt:52 | A cursor without a `word` column makes `getColumnIndexOrThrow` fail. |
| Rotation.RestoredCount | activity/src/main/java/com/balajiprabhu/activity/RotationActivity.kt:42-48 | A fresh start gives 0. A Bundle without the key gives 0, and so does one holding something other than an Int under it. A Bundle with an Int under the key gives that Int. |
| Rotation.SaveClassicCount | activity/src/main/java/com/balajiprabhu/activity/RotationActivity.kt:67-71 | Writes the count under `KEY_CLASSIC_COUNT` and keeps every other key. |
| Rotation.SaveRestoreRoundTrip | activity/src/main/java/com/balajiprabhu/activity/RotationActivity.kt:43-44 | Restoring from a saved Bundle gives the saved count. |
| Rotation.RotationViewModel.constructor | activity/src/main/java/com/balajiprabhu/activity/RotationViewModel.kt:16 | The count starts at 0. |
| Rotation.RotationViewModel.Increment | activity/src/main/java/com/balajiprabhu/activity/RotationViewModel.kt:19-21 | Adds exactly 1. |
| Rotation.RotationActivity.constructor | activity/src/main/java/com/balajiprabhu/activity/RotationActivity.kt:38-48 | The classic count starts at what `RestoredCount` gives for the Bundle. |
| Rotation.RotationActivity.ClassicIncrement | activity/src/main/java/com/balajiprabhu/activity/RotationActivity.kt:58 | Adds exactly 1. |
| Rotation.RotationActivity.OnSaveInstanceState | activity/src/main/java/com/balajiprabhu/activity/RotationActivity.kt:67-71 | Writes the count out and changes nothing. |
| Rotation.Rotate | activity/src/main/java/com/balajiprabhu/activity/RotationActivity.kt:38-71 | Saving and recreating with the same ViewModel keeps the classic count and the ViewModel. |
| IntentDemo.SelectMessage | intent/src/main/java/com/balajiprabhu/intent/intent/SecondActivity.kt:32-38 | A plain-text `ACTION_SEND` shows `EXTRA_TEXT`. Any other intent shows the "message" extra. The extra it reads being absent gives "No message received". |
| IntentDemo.OnActivityResult | intent/src/main/java/com/balajiprabhu/intent/MainActivity.kt:34-40 | Toasts exactly on `RESULT_OK`. The toast is the "returnMessage" String, or "No return message" when there is no data or the extra is missing or not a String. |
| IntentDemo.OpenWebPage | intent/src/main/java/com/balajiprabhu/intent/MainActivity.kt:66-73 | Starts the view intent for the web page exactly when it resolves. Otherwise it shows the error toast. |
| IntentDemo.ShareText | intent/src/main/java/com/balajiprabhu/intent/MainActivity.kt:79-86 | A chooser titled "Share via" around a plain-text `ACTION_SEND` with `EXTRA_TEXT` "Hello from MainActivity". |
| IntentDemo.GoToNextScreen | intent/src/main/java/com/balajiprabhu/intent/MainActivity.kt:57-60 | An explicit intent, with no action, carrying "message" = "Hello from MainActivity". |
| IntentDemo.BackResultRoundTrip | intent/src/main/java/com/balajiprabhu/intent/intent/SecondActivity.kt:51-54 | The back result, `RESULT_OK` with "Hello from SecondActivity", toasts that greeting in MainActivity's callback. |
| IntentDemo.CanceledShowsNothing | intent/src/main/java/com/balajiprabhu/intent/MainActivity.kt:35 | `RESULT_CANCELED` shows nothing, whatever data comes with it. |
| IntentDemo.ShareReachesSecondActivity | intent/src/main/java/com/balajiprabhu/intent/intent/SecondActivity.kt:34-35 | The text MainActivity shares is what SecondActivity shows as a share target. |
| IntentDemo.OtherShareTypeIgnoresText | intent/src/main/java/com/balajiprabhu/intent/intent/SecondActivity.kt:34-37 | An `ACTION_SEND` of another type reads "message" and ignores `EXTRA_TEXT`. |
| IntentDemo.TextShareWithoutTextFallsBack | intent/src/main/java/com/balajiprabhu/intent/intent/SecondActivity.kt:34-35 | A plain-text share without `EXTRA_TEXT` shows the default and does not read "message". |

## Left out

- Compose screens, theming and layout, `Toast` and `Log`. Toasts are modelled as output values only, and logs not at all.
- Notification channels, `PendingIntent` flags, small icons, auto-cancel and the task flags on the sender's intent. A notification keeps its channel, title, text, request code and target intent.
- `startActivity`, `resolveActivity` and `Intent.createChooser`. What a button starts is returned as a value, and whether the view intent resolves is a parameter.
- The clock (`System.currentTimeMillis`), random UUIDs, the SDK level and permission answers. All are parameters.
- `MusicPlayerService`, `MyBackgroundService`, `BootCompletedReceiver` and `StaticReceiverDemoActivity`. They are platform lifecycle wrappers, static text, and an action check followed by a notification.
- The `LaunchedEffect` polling loop on the services screen and `Handler.postDelayed` on the sender screen: timing only.
- The `RECEIVER_NOT_EXPORTED` branch on SDK 33 and above. It only keeps other apps' broadcasts out, and every broadcast modelled here comes from the same app or from the system.
- `CustomBroadcast.BroadcastReceiverActivity.Receive`: package targeting is not checked for custom broadcasts, because the only sender is the same app. The ordered dispatcher does check the package.
- `OrderedConstants` is not part of this model. Its action and extra strings are stand-ins, distinct from every other key.
- Text: only ASCII case folding. Kotlin's `ignoreCase` also folds other alphabets, and `getColumnIndex` also strips a table-name prefix before comparing.
- Dictionary.ParseLong: 64-bit overflow of `Long.parseLong` is not modelled.
- Dictionary.ParseLong: only ASCII digits are read. `Long.parseLong` also accepts other Unicode decimal digits. The provider's own id cells are numbers, so this does not affect them.
- CustomBroadcast.BroadcastSender.SendCustomBroadcast: does not model 32-bit wrap-around of `broadcastCount`. The count is an unbounded integer.
- Notifications.NotificationIdDemo.ShowWithSameId: does not model 32-bit wrap-around of `clickCount`.
- Notifications.NotificationIdDemo.ShowWithDifferentId: does not model 32-bit wrap-around of `notificationIdCounter`. A wrap would eventually reuse 1 and other IDs.
- Rotation.RotationViewModel.Increment: does not model 32-bit wrap-around of the count.
- Rotation.RotationActivity.ClassicIncrement: does not model 32-bit wrap-around of the classic count.
- The explicit launch from MainActivity to SecondActivity is not claimed as a round trip. MainActivity imports `com.balajiprabhu.intent.explicit.SecondActivity`, but the SecondActivity shown here lives in `com.balajiprabhu.intent.intent`. The model only states what the launched intent carries.
- The notification shade is also cleared by the user and by auto-cancel. The ID invariant survives any removal, but removal is not an operation of this model.
