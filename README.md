# Prayer app core in Dafny

This project models the behaviour at the centre of a React Native prayer app. It has five parts:

- **The prayer session.** A deck of prayer-request cards is worked through one swipe at a time. A drag moves, tilts and fades the top card and brings the two preview cards forward. On release, the card is either committed (it flies out left or right and is counted) or cancelled (the stack springs back). A guard (`isAnimating`) ignores gestures while a commit is in flight. A 500 ms timeout then either advances to the next card or, after the last card, reports completion.
- **Prayer-time notifications.** The app checks the clock against four fixed prayer times: 6:00, 12:00, 18:00 and 21:00. It shows at most one prayer-time notification per minute, and none while the user is praying or while one is already showing. There is also a test notification, shown after a short delay. That delayed step does not check whether the user is praying, so it can appear during prayer. Prayer can be started and ended.
- **Language selection.** Six supported languages have their own display table and category lists. The language is restored from storage or detected from the device locale (`hi-IN` becomes Hindi). Unknown locales fall back to English.
- **Phone/OTP login.** The phone number must contain at least ten digits. A six-digit code is drawn and must be typed back. A correct code shows a one-second loading state before navigation.
- **The prayer card.** Rules decide the category colours, the urgent badge and the attribution line.

The six source files become seven modules: app/prayer-session.tsx is split into `PrayerSession` (the session's state and screen) and `SwipeGesture` (the gesture arithmetic), and each other file is one module (`PrayerNotifications`, `LanguageContext`, `Languages`, `Login`, `PrayerCard`). Two helper modules are added: `Decimal` (JavaScript's number-to-string for naturals) and `Wrappers` (`Option`). Each stateful screen or context is a `class` whose fields are the component's state. The class's methods are proved against pure step functions (`ensures Model() == DragEnded(old(Model()), …)`). The properties are lemmas about those step functions. Timers are separate methods (`OnSwipeTimeout`, `OnTestTimeout`, `OnNavigationTimeout`) that can only be called while their timer is pending. The random draw and the clock reading are parameters. Floating-point values are exact reals. JavaScript's `Math.round` is `floor(x + 0.5)`.

Where the written description of the session and the code differ, the model follows the code:

- On the last card the cursor never moves past that card. The guard stays set after completion, and the count reaches the deck size while the cursor stays at `length - 1`.
- The count is incremented at once on a commit, while the cursor moves only when the timeout fires. So "Prayed" + "Remaining" is one more than the deck size while a commit is in flight and after completion (`PrayerSession.RemainingAndPrayed`).

## Model

| member | source | states |
|---|---|---|
| SwipeGesture.Interpolate | app/prayer-session.tsx:205-221 | A clamped linear map. The output stays between the two output bounds, whichever way round they are. Inputs below or above the input range give exactly the first or last output. |
| SwipeGesture.InterpolateInterior | app/prayer-session.tsx:205-221 | Strictly inside the input range, the map is the straight line between the two outputs. |
| SwipeGesture.InterpolateMonotone | app/prayer-session.tsx:213-221 | The map follows the direction of its output range: a larger input never moves the output against it. |
| SwipeGesture.Rotation | app/prayer-session.tsx:205-210 | The tilt stays within [-30, 30] degrees. It is ±30 once the drag reaches a full screen width and 0 at rest. It has the sign of the drag. |
| SwipeGesture.RotationMonotone | app/prayer-session.tsx:205-210 | Dragging further right never tilts the card less. |
| SwipeGesture.RotationIsProportional | app/prayer-session.tsx:205-210 | Within one screen width, the tilt is 30 × dx / width. |
| SwipeGesture.RotationIsOdd | app/prayer-session.tsx:205-210 | Mirroring the drag mirrors the tilt. |
| SwipeGesture.RotationBeyondWidth | app/prayer-session.tsx:205-210 | At a full screen width or more, the tilt is held at 30 degrees in the drag's direction. |
| SwipeGesture.SwipeProgress | app/prayer-session.tsx:217 | Progress lies in [0, 1]. It is 1 exactly when the drag reaches the threshold (30% of the width) and 0 exactly at rest. |
| SwipeGesture.TopOpacity | app/prayer-session.tsx:213-214 | The top card's opacity lies in [0.6, 1]. It is 1 at rest and 0.6 at or beyond the threshold. |
| SwipeGesture.TopOpacityFadesWithDistance | app/prayer-session.tsx:213-214 | A longer drag never makes the top card more opaque, in either direction. |
| SwipeGesture.SwipeProgressGrowsWithDistance | app/prayer-session.tsx:217 | A longer drag, in either direction, never gives less swipe progress. |
| SwipeGesture.StartDrag | app/prayer-session.tsx:194-197 | A drag start pops the top card to scale 1.05 and changes nothing else. |
| SwipeGesture.ActiveDrag | app/prayer-session.tsx:198-222 | During a drag the card follows dx and one tenth of dy. Its tilt is the rotation map and its opacity the fade map, so both keep their bounds. The previews stay between their resting and promoted values. |
| SwipeGesture.PreviewsGrowWithDistance | app/prayer-session.tsx:217-221 | A longer drag, in either direction, never makes either preview card smaller or fainter. The vertical offset plays no part. |
| SwipeGesture.Decide | app/prayer-session.tsx:226-229 | A release commits exactly when the offset is beyond the threshold or the speed is beyond 1200. The direction is right exactly when the offset is positive. |
| SwipeGesture.CancelledVisuals | app/prayer-session.tsx:125-131 | A cancelled release returns every animated value to the resting stack. |
| SwipeGesture.ExitVisuals | app/prayer-session.tsx:133-146 | The exit sends the card to ±1.5 widths and ±60 degrees, with opacity 0 and scale 0.7. Each preview takes the resting values of the rank above it. The vertical offset is kept. |
| SwipeGesture.DragAtOriginIsRest | app/prayer-session.tsx:198-222 | A drag with no offset, on a card at scale 1, shows exactly the resting stack. |
| SwipeGesture.PreviewsReachExitTargets | app/prayer-session.tsx:217-221 | A drag at the threshold puts the previews exactly where the exit animation sends them. |
| SwipeGesture.DecisionIgnoresVelocitySign | app/prayer-session.tsx:226 | The release decision depends on the speed, not on its direction. |
| SwipeGesture.FlickWithoutOffsetGoesLeft | app/prayer-session.tsx:229 | A fast flick released at offset 0 commits to the left, whichever way it moved. |
| SwipeGesture.DecisionExamples | app/prayer-session.tsx:25 | Concrete releases on a 400-wide screen. Short and slow (50, speed 800) cancels, and so does exactly 120 (the threshold). Past it (-130), or a flick faster than 1200, commits to the left. |
| PrayerSession.SampleDeckShape | app/prayer-session.tsx:38-93 | The sample deck has six requests with distinct ids, each in a category that has its own colours. |
| PrayerSession.Swiped | app/prayer-session.tsx:148-152 | A commit sets the guard and counts the card at once. It schedules an advance unless this is the last card, and then completion. |
| PrayerSession.TimerFired | app/prayer-session.tsx:153-171 | The advance timeout moves the cursor and clears the guard. The completion timeout reports completion and leaves the cursor and guard as they are. |
| PrayerSession.SwipedKeepsConsistent | app/prayer-session.tsx:148-152 | A commit keeps the session invariant (count vs. cursor, guard, pending timeout). |
| PrayerSession.TimerFiredKeepsConsistent | app/prayer-session.tsx:153-171 | Each timeout keeps the session invariant. |
| PrayerSession.CommitsWalkTheDeck | app/prayer-session.tsx:148-173 | After k < n commits, cursor and count both equal k and the guard is clear. After n commits the cursor is n-1, the count is n, the guard is set and completion is reported. |
| PrayerSession.CommitsStayConsistent | app/prayer-session.tsx:148-173 | Every state reached by commits from the start satisfies the invariant. |
| PrayerSession.DragStarted | app/prayer-session.tsx:194-197 | A drag start is ignored while the guard is set. Otherwise it applies the pop (`StartDrag`). It never changes progress. |
| PrayerSession.DragMoved | app/prayer-session.tsx:198-222 | A drag update is ignored while the guard is set. Otherwise every animated value is the drag-time value (`ActiveDrag`): the card follows dx and tilts by the rotation map. Progress is unchanged. |
| PrayerSession.ReleaseDecision | app/prayer-session.tsx:223-229 | A release decides nothing exactly while the guard is set. Otherwise it is the release rule (`Decide`): commit exactly on the threshold/flick rule, to the right exactly when the offset is positive. |
| PrayerSession.DragEnded | app/prayer-session.tsx:223-240 | Ignored under the guard. A cancel restores the resting stack and keeps progress. A commit in each direction plays that exit and applies the commit to progress. |
| PrayerSession.TimeoutFired | app/prayer-session.tsx:153-171 | On advance the whole stack snaps back to rest for the next card. On completion the exit values stay. |
| PrayerSession.EventsKeepConsistent | app/prayer-session.tsx:193-241 | Every gesture event and every timeout keeps the session invariant. |
| PrayerSession.CommitBeforeLastCard | app/prayer-session.tsx:152-166 | A commit before the last card plus its timeout gives cursor and count one further, the guard clear and the stack at rest. |
| PrayerSession.CommitOnLastCard | app/prayer-session.tsx:167-171 | A commit on the last card plus its timeout gives a count equal to the deck size, the cursor on the last card, the guard set and completion reported. |
| PrayerSession.CompletionIsFinal | app/prayer-session.tsx:194-226 | After completion nothing is pending, the count is the deck size, and every gesture is a no-op. |
| PrayerSession.CardAt | app/prayer-session.tsx:280-282 | A card is present exactly when the deck reaches the index, and it is that deck entry. |
| PrayerSession.VisibleCards | app/prayer-session.tsx:280-282 | The top, next and third cards are the deck entries at the cursor and the two after it. Each is present exactly when the deck reaches it. |
| PrayerSession.StackShowsCardsFromCursor | app/prayer-session.tsx:335-355 | In every consistent state the top card is the cursor's card. The stack shows min(3, cards left) cards. |
| PrayerSession.Remaining | app/prayer-session.tsx:382 | "Remaining" counts the cards from the cursor to the end of the deck. It is at least 1 while the cursor is on a card. |
| PrayerSession.RemainingAndPrayed | app/prayer-session.tsx:382 | "Remaining" lies between 1 and n. It adds up with the count to n while idle, and to n + 1 while a commit is in flight or after completion. |
| PrayerSession.Round | app/prayer-session.tsx:308 | `Math.round` gives the integer within half a unit, with halves rounded up. |
| PrayerSession.ProgressFraction | app/prayer-session.tsx:321 | The bar's width lies in [0, 100]. It is 100 exactly when every card is counted and 0 exactly when none is. |
| PrayerSession.PercentComplete | app/prayer-session.tsx:328 | The label lies in [0, 100] and is within half a point of the bar. It reads 0 at the start and 100 at the end. |
| PrayerSession.ElapsedMinutes | app/prayer-session.tsx:308 | The minutes shown are within 30 s of the elapsed time. |
| PrayerSession.PrayerSessionScreen.constructor | app/prayer-session.tsx:96-113 | A session opens on card 0, with nothing counted, no guard and the stack at rest. |
| PrayerSession.PrayerSessionScreen.ResetCardPosition | app/prayer-session.tsx:125-131 | Returns the top card's five values to rest and leaves the previews and progress alone. |
| PrayerSession.PrayerSessionScreen.AnimateCardOut | app/prayer-session.tsx:133-146 | Sets the exit values for the direction and leaves progress alone. |
| PrayerSession.PrayerSessionScreen.HandleCardSwiped | app/prayer-session.tsx:148-173 | Applies the commit's immediate effect to the fields. |
| PrayerSession.PrayerSessionScreen.OnDragStart | app/prayer-session.tsx:194-197 | Updates the fields as `DragStarted` does and keeps the invariant. |
| PrayerSession.PrayerSessionScreen.OnDragActive | app/prayer-session.tsx:198-222 | Updates the fields as `DragMoved` does and keeps the invariant. |
| PrayerSession.PrayerSessionScreen.OnDragEnd | app/prayer-session.tsx:223-240 | Updates the fields as `DragEnded` does, returns the decision made, and keeps the invariant. |
| PrayerSession.PrayerSessionScreen.OnSwipeTimeout | app/prayer-session.tsx:153-171 | Updates the fields as `TimeoutFired` does and keeps the invariant. |
| PrayerSession.PrayerSessionScreen.Stack | app/prayer-session.tsx:280-282 | The shown stack is the cursor's card and the two after it (`VisibleCards`), and the top card is always present. |
| PrayerNotifications.FindPrayerTime | contexts/PrayerNotificationContext.tsx:60-62 | Finds nothing exactly when no entry matches the hour and minute. Otherwise it returns the first matching entry. |
| PrayerNotifications.DefaultScheduleIsTheFourTimes | contexts/PrayerNotificationContext.tsx:22-27 | The built-in schedule matches exactly 6:00, 12:00, 18:00 and 21:00. |
| PrayerNotifications.TimeKey | contexts/PrayerNotificationContext.tsx:52 | The minute key is at least three characters (hour digits, colon, minute digits). |
| PrayerNotifications.TimeKeyInjective | contexts/PrayerNotificationContext.tsx:52-57 | Two different minutes never share a key, so the dedup check never suppresses a different minute. |
| PrayerNotifications.CheckPrayerTime | contexts/PrayerNotificationContext.tsx:36-70 | Nothing changes while praying, while a notification shows, in an already-notified minute, or off the schedule. Otherwise "Time for <name>" is shown and the minute recorded, and only then. |
| PrayerNotifications.HideNotification | contexts/PrayerNotificationContext.tsx:86-90 | Hides and clears the message. Everything else is unchanged. |
| PrayerNotifications.TriggerTestNotification | contexts/PrayerNotificationContext.tsx:92-105 | Does nothing while praying. Otherwise it hides the current notification and schedules one test timeout. |
| PrayerNotifications.TestTimerFired | contexts/PrayerNotificationContext.tsx:106-110 | The test timeout shows the test message and consumes one pending timeout. |
| PrayerNotifications.StartPrayer | contexts/PrayerNotificationContext.tsx:113-120 | Sets praying and hides any showing notification. |
| PrayerNotifications.EndPrayer | contexts/PrayerNotificationContext.tsx:122-125 | Clears praying only. |
| PrayerNotifications.TransitionsKeepConsistent | contexts/PrayerNotificationContext.tsx:36-125 | Every transition keeps "hidden implies empty message". |
| PrayerNotifications.OneNotificationPerPrayerTime | contexts/PrayerNotificationContext.tsx:52-69 | Once a prayer time is shown and dismissed, the same minute shows nothing again, while a different prayer time still does. |
| PrayerNotifications.FirstPrayerTimeIsShown | contexts/PrayerNotificationContext.tsx:30-34 | From the initial state every prayer time produces a notification. |
| PrayerNotifications.CheckExamples | contexts/PrayerNotificationContext.tsx:64-69 | At 18:00 the message is "Time for Evening Prayer". At 18:01 nothing happens. |
| PrayerNotifications.PrayerNotificationProvider.constructor | contexts/PrayerNotificationContext.tsx:30-34 | Starts not praying, with nothing shown and no minute recorded. |
| PrayerNotifications.PrayerNotificationProvider.CheckPrayerTimeAt | contexts/PrayerNotificationContext.tsx:36-70 | Updates the fields as `CheckPrayerTime` does. |
| PrayerNotifications.PrayerNotificationProvider.Hide | contexts/PrayerNotificationContext.tsx:86-90 | Updates the fields as `HideNotification` does. |
| PrayerNotifications.PrayerNotificationProvider.TriggerTest | contexts/PrayerNotificationContext.tsx:92-105 | Updates the fields as `TriggerTestNotification` does. |
| PrayerNotifications.PrayerNotificationProvider.OnTestTimeout | contexts/PrayerNotificationContext.tsx:106-110 | Updates the fields as `TestTimerFired` does. |
| PrayerNotifications.PrayerNotificationProvider.Start | contexts/PrayerNotificationContext.tsx:113-120 | Updates the fields as `StartPrayer` does. |
| PrayerNotifications.PrayerNotificationProvider.End | contexts/PrayerNotificationContext.tsx:122-125 | Updates the fields as `EndPrayer` does. |
| Languages.FromKey | constants/Languages.ts:1-38 | A key names a language exactly when it is one of the six supported keys, and that language's code is the key. |
| Languages.Info | constants/Languages.ts:1-38 | Every row has a name and a native name and is left-to-right. Only English has the same name in both columns. |
| Languages.SupportedKeysAreTheSixCodes | constants/Languages.ts:1-40 | There are six distinct keys, and every language's code is one of them and maps back to it. |
| Languages.NoLanguageIsRightToLeft | constants/Languages.ts:1-38 | No supported language is right-to-left. |
| Languages.DefaultIsSupported | constants/Languages.ts:42 | The default is English, which is a supported key. |
| Languages.PrayerCategories | constants/Languages.ts:45-100 | Every language lists seven prayer categories. |
| Languages.CategoryListsHaveSevenDistinctEntries | constants/Languages.ts:45-100 | Every language has seven distinct prayer categories. |
| Languages.EnglishEndsWithOther | constants/Languages.ts:46-54 | The English list ends with "Other". |
| LanguageContext.PrimarySubtag | contexts/LanguageContext.tsx:73 | `split('-')[0]` is the prefix of the locale before its first hyphen. |
| LanguageContext.ToLowerAscii | contexts/LanguageContext.tsx:73 | Lower-casing keeps the length and lowers each character. |
| LanguageContext.DetectLanguageFromLocale | contexts/LanguageContext.tsx:71-86 | The detected language's code is the locale's lower-cased primary subtag when that is supported. Otherwise it is English. |
| LanguageContext.LanguageMapMatchesTable | contexts/LanguageContext.tsx:76-83 | The locale map has exactly the supported keys, each mapped to the language with that code. |
| LanguageContext.PrimarySubtagOfTagged | contexts/LanguageContext.tsx:73 | The primary subtag of "p-rest" is p. |
| LanguageContext.DetectUsesPrimarySubtagOnly | contexts/LanguageContext.tsx:73 | Region and later subtags never affect detection. |
| LanguageContext.DetectIgnoresCase | contexts/LanguageContext.tsx:73 | Detection is insensitive to ASCII case. |
| LanguageContext.DetectCode | contexts/LanguageContext.tsx:71-86 | Each language's own code detects that language. |
| LanguageContext.DetectIsIdempotent | contexts/LanguageContext.tsx:71-86 | Detecting from a detected language's code gives it back. |
| LanguageContext.DetectExamples | contexts/LanguageContext.tsx:72 | "hi-IN" gives Hindi, "TA-in" Tamil, "fr-FR" English and "" English. |
| LanguageContext.LanguageAfterLoad | contexts/LanguageContext.tsx:55-69 | A failed read keeps the language. A supported saved key is restored. Otherwise the device locale is detected. |
| LanguageContext.SavedLanguageIsRestored | contexts/LanguageContext.tsx:58 | What a successful save stores is what the next load restores. |
| LanguageContext.LanguageProvider.constructor | contexts/LanguageContext.tsx:28 | Starts in the default language. |
| LanguageContext.LanguageProvider.LoadSavedLanguage | contexts/LanguageContext.tsx:55-69 | Sets the language as `LanguageAfterLoad` does. |
| LanguageContext.LanguageProvider.SetLanguage | contexts/LanguageContext.tsx:88-95 | Switches the language exactly when storing it succeeded. |
| LanguageContext.LanguageProvider.IsRTL | contexts/LanguageContext.tsx:101 | Never right-to-left for any current language. |
| PrayerCard.CategoryColor | components/ui/PrayerCard.tsx:25-42 | Always three colours. The default palette is used exactly for categories outside the six coloured ones. |
| PrayerCard.PalettesAreDistinct | components/ui/PrayerCard.tsx:26-40 | Different coloured categories get different palettes. |
| PrayerCard.EnglishCategoriesAreColoured | components/ui/PrayerCard.tsx:25-42 | The first six English categories are exactly the coloured ones, and "Other" gets the default palette. |
| PrayerCard.Attribution | components/ui/PrayerCard.tsx:101 | "Anonymous" is shown exactly for anonymous requests. Otherwise the line is "by " followed by the name. |
| PrayerCard.AttributionRoundTrip | components/ui/PrayerCard.tsx:101 | The submitter can always be read back from the attribution line. |
| PrayerCard.Render | components/ui/PrayerCard.tsx:44-102 | The accent is the category's palette, and the badge is its first two colours. The urgent badge shows exactly for urgent requests. The label, title, content and age are the request's. The attribution line is the one `Attribution` gives for the submitter, and it reads back to the submitter. |
| Decimal.NatToString | contexts/PrayerNotificationContext.tsx:52 | A natural prints as a non-empty run of digits with no leading zero. |
| Decimal.DecimalRoundTrip | app/login.tsx:30 | Reading the printed digits back gives the number. |
| Decimal.NatToStringInjective | contexts/PrayerNotificationContext.tsx:52 | Different naturals print differently. |
| Decimal.NatToStringLength | app/login.tsx:30 | A number in [10^(k-1), 10^k) prints with k digits. |
| Decimal.SixDigits | app/login.tsx:30 | Every number from 100000 to 999999 prints with six digits. |
| Login.DigitsOnly | app/login.tsx:24 | Stripping non-digits leaves only digits, never lengthens, and keeps an all-digit string as is. |
| Login.IsValidPhone | app/login.tsx:24-25 | A valid phone has at least ten characters. A number typed with digits only is valid exactly when it has ten or more. |
| Login.DigitsOnlyAppend | app/login.tsx:24 | Stripping distributes over concatenation. |
| Login.NonDigitsAreIgnored | app/login.tsx:24-25 | Inserting a non-digit anywhere does not change the digits counted. |
| Login.NonDigitsDoNotAffectValidity | app/login.tsx:24-25 | Inserting a non-digit anywhere never changes whether the number is accepted. |
| Login.ValidityDependsOnDigitsOnly | app/login.tsx:24-25 | A number is accepted exactly when its digits alone would be: spaces, "+", dashes and brackets are ignored. |
| Login.OtpCode | app/login.tsx:30 | The code drawn is between 100000 and 999999. |
| Login.OtpText | app/login.tsx:30 | The code's text is exactly six digits and reads back as the code. |
| Login.EveryCodeCanBeDrawn | app/login.tsx:30 | Every six-digit code is drawn by some random value. |
| Login.HandlePhoneAuth | app/login.tsx:21-45 | Fewer than 10 digits alerts "Invalid Phone". A valid phone sends a code and shows it. A wrong code alerts "Incorrect OTP". The right code starts loading and navigation. |
| Login.PressPrimary | app/login.tsx:125-130 | The button does nothing while loading. Otherwise it runs the phone-or-code handler. |
| Login.PressResend | app/login.tsx:132-144 | Resend returns to phone entry and clears the typed code, unless loading. The phone, the issued code, the loading state and any pending navigation are kept. |
| Login.TypePhone | app/login.tsx:92-106 | Typing edits the phone only while it is shown. |
| Login.TypeOtp | app/login.tsx:108-122 | Typing edits the code only while it is shown. |
| Login.NavigationTimerFired | app/login.tsx:40-43 | After one second, loading ends and nothing else changes. |
| Login.IssuedCodeIsAccepted | app/login.tsx:21-45 | Typing back the code a valid phone was sent logs in. |
| Login.WrongCodeIsRefused | app/login.tsx:35-38 | Any other code is refused and nothing changes. |
| Login.LoginScreen.constructor | app/login.tsx:15-19 | Starts with empty inputs, no code sent and not loading. |
| Login.LoginScreen.OnPhoneChange | app/login.tsx:102 | Updates the fields as `TypePhone` does. |
| Login.LoginScreen.OnOtpChange | app/login.tsx:118 | Updates the fields as `TypeOtp` does. |
| Login.LoginScreen.OnPrimaryPress | app/login.tsx:21-45 | Updates the fields and returns the alert as `PressPrimary` does. |
| Login.LoginScreen.OnResendPress | app/login.tsx:132-144 | Updates the fields as `PressResend` does. |
| Login.LoginScreen.OnNavigationTimeout | app/login.tsx:40-43 | Updates the fields as `NavigationTimerFired` does. |

## Left out

- Storage, device locale, alerts, routing, `console.log` and the translation function `t` are not modelled as I/O. Their results are parameters (`StorageRead`, the locale string, the random draw, the clock reading) or return values (`Login.Alert`). Alert and notification texts are kept only where the state holds them.
- Animation physics (springs, timings, the entrance spring on mount) are left out. Each animated value is modelled by the value it is sent to.
- The delay between `runOnJS` calls and the UI thread is left out. A release and its effects are modelled as one atomic step.
- The completion alert's text, its "Amen" button (which calls `endPrayer` and navigates back) and `handleEndSession` are left out. That alert reads the count from the callback's stale closure, which is a property of React's render cycle that the model does not capture. The duration it shows is computed when the alert fires, as `ElapsedMinutes` models.
- The 60-second polling interval and the check on mount are left out. The model checks one clock reading per call to `CheckPrayerTime`. The clock itself is a parameter.
- `handleBeginPrayer` in app/_layout.tsx logs, calls `startPrayer` and navigates. The call to `startPrayer` is modelled by `StartPrayer`, which also hides a showing notification. The logging and the navigation are left out.
- `handleSocialLogin` in app/login.tsx is never attached to any button and cannot run, so it is left out.
- LanguageContext.DetectLanguageFromLocale: lower-cases ASCII letters only. JavaScript's Unicode `toLowerCase` also folds other characters. Lookups of inherited object keys (for example `"constructor"`) are also not modelled. Both only affect locales that are not language tags.
- LanguageContext.LanguageProvider.LoadSavedLanguage: the saved-key test uses membership in the six keys. JavaScript's `in` would also accept inherited property names.
- The `i18n.locale` effect, the language selector, the angel notification overlay, the welcome and home screens, styling constants and the card's layout are not part of this model.
- Screen width and every drag value are exact reals. Floating-point rounding in `interpolate`, the progress percentage and `Math.random` is not modelled.
