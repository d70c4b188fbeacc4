# LIFRAG CYCLING — a Dafny model of the booking app's core

LIFRAG CYCLING is a single-page React app for an indoor-cycling studio. Riders log
in, pick a class, choose up to three bikes on a seat map, pay by card or bank
transfer, chat with the studio, review instructors and follow their progress towards
rewards. An administrator manages instructors, classes, adverts, rewards, bank
accounts, clients, bikes, payments, prices and the chat from a dashboard. All data
lives in the state of the top-level component `App`, seeded from `constants.ts`;
each screen gets a slice of it and hands back whole new collections through
callbacks.

This project models that core:

- `types.dfy` — the records and enumerations of `types.ts` (bike, payment, sender,
  attachment, identification and account kinds).
- `text.dfy`, `collections.dfy` — the JavaScript built-ins the handlers rely on:
  `trim`, ASCII `toLowerCase`, `includes`, `String(n)`, and the array idioms
  `filter`, `find`, keyed `map` replacement and `reduce` sums.
- `constants.dfy` — the seed data and `generateBikeLayout`.
- `app.dfy` — the shell: the 14 views and 3 navigation tabs, `renderContent`'s
  screen guards, and a `Controller` class whose fields are the shell's state hooks
  and whose methods are its handlers, its plain `setView` links, the setters it
  hands to screens and the three timers.
- one file per screen (`booking_screen.dfy`, `payment_screen.dfy`,
  `profile_screen.dfy`, `chat_screen.dfy`, `instructor_profile_screen.dfy`,
  `login_screen.dfy`, `create_account_screen.dfy`, `admin_login_screen.dfy`,
  `admin_dashboard_screen.dfy`): the screen's local state as a class, its
  handlers as methods, and the collection rewrites it hands to the shell as
  functions with lemmas about them.

A handler that the shell only reaches while a given screen is shown carries that
view in its `requires` (for instance `PaymentSuccess` needs `view == Payment`); the
shell's invariant `App.Consistent` is kept by every handler. Timers are events
(`SplashTimerFired`, `FinalTimerFired`, `AdminInactivityTimeout`,
`MarkReadTimerFired`, `ResetTimerFired`) that can only occur while their screen is
shown. Clock readings (`Date.now()`, today's date), file-reader results and the
answer to `window.confirm` are parameters.

Behaviour of the code that the model states as it is:

- The final screen's timer calls `resetToHome`, which turns the bikes just marked
  taken back to available (`App.ResetReleasesBookedBikes`): a completed booking
  leaves no trace in the bike statuses.
- A review recomputes the rating from the reviews alone, so the seeded ratings
  (4.9, 4.8), which are not the means of the seeded reviews, are discarded on the
  first review (`App.SeedRatingDiscardedOnReview`).
- After a review the instructor screen keeps showing the stale copy in
  `selectedInstructor` (`App.Controller.SubmitReviewFor`).
- The booking screen renders nothing, with no way back, when the class's
  instructor has been deleted (`App.RenderNothingOnlyForMissingInstructor`);
  deleting an instructor leaves the classes that name it in place.
- The payment screen charges the group-of-three price per person for any party
  size other than 1 and 2, while the booking screen shows 0 outside 1..3; the two
  agree for every party the booking screen can confirm
  (`PaymentScreen.TotalAgreesWithBooking`).
- The admin "change password" form only validates; the admin password stays the
  constant `admin123`.
- Chat message ids are `m-` plus the clock reading, so two messages sent in the
  same millisecond share an id (`ChatScreen.MessageIdsFollowClock`).
- Toggling maintenance on a taken or selected bike puts it under maintenance, and
  toggling again makes it available.
- Accepting a payment completes every record with that id whatever its status,
  including a rejected one.
- The "next reward" is the first locked reward in list order; it is the locked
  reward with the smallest threshold only when the list is ascending, as the seed
  list is (`ProfileScreen.NextRewardIsNearest`).
- The `|| 4` fallback of the seat-row pattern is unreachable: the pattern index is
  taken modulo 5 and no entry is 0 (`BookingScreen.RowSizeSpec`).

## Model

| member | source | states |
|---|---|---|
| Text.TrimStart | components/ChatScreen.tsx:30 | the result is a suffix of the input, the dropped prefix is all whitespace, and it starts with a non-space |
| Text.TrimEnd | components/ChatScreen.tsx:30 | the result is a prefix of the input, the dropped suffix is all whitespace, and it ends with a non-space |
| Text.TrimEmptyIffBlank | components/ChatScreen.tsx:30 | `s.trim() === ''` exactly when every character of s is whitespace |
| Text.TrimIdempotent | components/AdminDashboardScreen.tsx:461 | trimming twice is trimming once |
| Text.LowerChar | components/AdminDashboardScreen.tsx:284-285 | upper-case ASCII letters map to their lower-case letter, everything else is kept, and no upper-case letter is left |
| Text.ToLower | components/AdminDashboardScreen.tsx:284-285 | same length, each character lowered |
| Text.ToLowerIdempotent | components/AdminDashboardScreen.tsx:284-285 | lowering twice is lowering once |
| Text.ContainsAt | components/AdminDashboardScreen.tsx:284-285 | `includes` holds exactly when the needle occurs at some position of the haystack |
| Text.ContainsEmpty | components/AdminDashboardScreen.tsx:283-286 | every string includes the empty string |
| Text.NatToString | constants.ts:111 | `String(n)` is a non-empty run of decimal digits without a leading zero |
| Text.ParseNatToString | constants.ts:111 | reading the digits of `String(n)` back gives n |
| Text.NatToStringInjective | constants.ts:111 | distinct numbers give distinct strings |
| Collections.Filter | components/AdminDashboardScreen.tsx:283-286 | the result is no longer than the input, holds only elements that pass, and holds every element that passes |
| Collections.FilterIsSubsequence | components/AdminDashboardScreen.tsx:189 | `filter` keeps the surviving elements in their original order |
| Collections.FilterConcat | components/AdminDashboardScreen.tsx:697 | filtering distributes over concatenation |
| Collections.FilterKeepsAll | components/AdminDashboardScreen.tsx:283-286 | filtering returns the input exactly when every element passes |
| Collections.FilterIdempotent | components/AdminDashboardScreen.tsx:189 | filtering twice with the same test is filtering once |
| Collections.FilterDistinctKeys | components/BookingScreen.tsx:26-27 | filtering never creates two elements with the same key |
| Collections.DistinctKeysBound | components/BookingScreen.tsx:38-46 | elements with pairwise distinct keys drawn from a list are no more numerous than that list |
| Collections.ReplaceById | components/AdminDashboardScreen.tsx:188 | the save handlers keep the collection's length |
| Collections.ReplaceByIdAt | components/AdminDashboardScreen.tsx:188 | each position holds the updated record when its id matches, and the old record otherwise |
| Collections.ReplaceByIdSpec | components/AdminDashboardScreen.tsx:188 | save replaces every record with the updated record's id, keeps all others in place, and keeps every id |
| Collections.ReplaceByIdIdempotent | components/AdminDashboardScreen.tsx:205 | saving the same record twice is saving it once |
| Collections.ReplaceByIdAbsent | components/AdminDashboardScreen.tsx:231 | saving a record whose id is not in the list leaves the list unchanged |
| Collections.RemoveByIdSpec | components/AdminDashboardScreen.tsx:189 | delete keeps, in order, exactly the records with another id, and deleting again changes nothing |
| Collections.RemoveUndoesAppend | components/AdminDashboardScreen.tsx:189-192 | deleting a record just appended with an unused id restores the list |
| Collections.Find | App.tsx:198 | `find` returns an element exactly when one passes, and then the first passing element in list order |
| Collections.SumConcat | components/AdminDashboardScreen.tsx:698 | the `reduce` sum distributes over concatenation |
| Constants.SampleChatThreadSpec | constants.ts:82-91 | the seed thread is unread and its three messages are in time order |
| Constants.GenerateBikeLayoutSpec | constants.ts:109-114 | `generateBikeLayout(n)` gives max(n, 0) bikes, all available, with ids "1".."n" in order, pairwise distinct, each reading back as its position plus one |
| Constants.SeedRewardsAscending | constants.ts:60-64 | the seed rewards' thresholds strictly increase (10, 25, 50) |
| Constants.SeedClassesHaveInstructors | constants.ts:30-58 | every seed class names a seed instructor |
| BookingScreen.ToggleKeepsSelectionValid | components/BookingScreen.tsx:19-36 | a click keeps the selection duplicate-free and within three bikes, and only ever adds the clicked id |
| BookingScreen.ToggleCases | components/BookingScreen.tsx:19-36 | a click on an absent, taken or maintenance bike, or on a fourth bike, is a no-op; a selected bike is removed and nothing else is; any other bike is appended |
| BookingScreen.ApplySelectionSpec | components/BookingScreen.tsx:38-46 | after a click taken and maintenance bikes keep their status, selected ids show selected, all others available; ids and order are kept; the last rewrite wins |
| BookingScreen.SelectedBikesBounded | components/BookingScreen.tsx:38-46 | with distinct bike ids, no more bikes show selected than the selection holds |
| BookingScreen.RowSize | components/BookingScreen.tsx:63-67 | every row size is 3 or 4 |
| BookingScreen.RowSizeSpec | components/BookingScreen.tsx:63-67 | the row size is the pattern entry at the index modulo 5: 4, 3, 4, 3, 4; the fallback never applies |
| BookingScreen.Ids | components/BookingScreen.tsx:61 | the ids of the bikes, in order |
| BookingScreen.RowsFlatten | components/BookingScreen.tsx:59-73 | reading the rows in order gives back the ids |
| BookingScreen.RowsSizes | components/BookingScreen.tsx:59-73 | every row is non-empty and no longer than its pattern entry; only the last may be shorter |
| BookingScreen.RowsStep | components/BookingScreen.tsx:66-70 | one loop turn cuts `slice(i, i + rowSize)` off the remaining ids |
| BookingScreen.BikeLayout | components/BookingScreen.tsx:59-73 | the chunking loop produces exactly the rows of the ids (whose sizes `RowsSizes` states), which flatten back to the ids |
| BookingScreen.BikeSelection.constructor | components/BookingScreen.tsx:17 | the selection starts empty |
| BookingScreen.BikeSelection.SelectBike | components/BookingScreen.tsx:19-47 | the handler updates the selection as the toggle prescribes and passes the rewritten bikes to `onBikesChange`, or returns early changing nothing |
| BookingScreen.BikeSelection.Confirm | components/BookingScreen.tsx:138 | confirm fires exactly when a bike is selected, with the selected ids and their count |
| PaymentScreen.PricePerPerson | components/PaymentScreen.tsx:18-22 | 1 rider pays the individual price, 2 the group-of-two price, any other size the group-of-three price |
| BookingScreen.TotalPrice | components/BookingScreen.tsx:49-55 | for 1 to 3 bikes the size times the per-person price of that size; 0 for any other count |
| PaymentScreen.TotalAgreesWithBooking | components/PaymentScreen.tsx:18-24 | for parties of 1 to 3 the payment total equals the booking total; outside it the booking total is 0 and the payment total is the group-of-three price times the size |
| PaymentScreen.SeedPricesFavourGroups | constants.ts:93-97 | with the seed prices a larger party pays less per person and more in total |
| PaymentScreen.PaymentForm.constructor | components/PaymentScreen.tsx:15 | the method starts as card |
| PaymentScreen.PaymentForm.SelectMethod | components/PaymentScreen.tsx:61-65 | the buttons set the method |
| PaymentScreen.PaymentForm.FinalizeBooking | components/PaymentScreen.tsx:26-33 | card reports success with no message, transfer with the pending-transfer notice |
| App.ShowNavIffTab | App.tsx:261 | the bottom navigation is shown exactly on the views a tab leads to |
| App.ConfirmationText | App.tsx:143-146 | a missing or empty message gives the default confirmation; a non-empty one is kept |
| App.ResetBikesSpec | App.tsx:53-60 | the reset keeps ids and order, keeps maintenance bikes, makes every other bike available, and is idempotent |
| App.MarkTakenSpec | App.tsx:147-150 | exactly the booked bikes become taken; all others are unchanged |
| App.ResetReleasesBookedBikes | App.tsx:118-125 | resetting after marking the booked bikes taken gives the same bikes as resetting without the booking |
| App.RatingSumBounds | App.tsx:163 | the ratings of n reviews of 1 to 5 stars sum to between n and 5n |
| App.MeanRatingBounds | App.tsx:163 | the mean of ratings of 1 to 5 stars is between 1 and 5 |
| App.RoundToTenth | App.tsx:164 | `toFixed(1)` gives a multiple of 0.1 within 0.05 of the value |
| App.RoundToTenthBounds | App.tsx:164 | rounding a value in [1, 5] stays in [1, 5] |
| App.SubmitReviewSpec | App.tsx:159-168 | only the named instructor changes: it gains the review at the end, keeps its other fields, and its rating is within 0.05 of the new mean and, with ratings of 1 to 5, in [1, 5] |
| App.SeedRatingDiscardedOnReview | App.tsx:159-168 | the seeded 4.9 becomes 5.0 when a 5-star review joins two 5-star reviews |
| App.RenderNothingOnlyForMissingInstructor | App.tsx:184-259 | in a consistent state `renderContent` returns null only on the booking view when the class's instructor is missing; the booking screen gets an instructor from the list with the class's instructor id |
| App.InitialStateConsistent | App.tsx:25-48 | the mount state is consistent and shows the splash screen without the navigation bar |
| App.LinksLeave | App.tsx:189-248 | every plain `setView` callback leads away from the screen that carries it |
| App.ReplaceUserSpec | App.tsx:170-173 | the user with the updated user's id is replaced, all others are untouched, and the updated user is then in the list |
| App.Controller.constructor | App.tsx:25-48 | the shell mounts on the splash view with the seed data and 20 available bikes |
| App.Controller.ResetToHome | App.tsx:53-60 | home view and tab, no selected class or booking, bikes reset; nothing else changes |
| App.Controller.GoHome | App.tsx:54-55 | home view and home tab; nothing else changes |
| App.Controller.ClearBooking | App.tsx:56-57 | no selected class and no booking details; nothing else changes |
| App.Controller.ReleaseBikes | App.tsx:58-59 | the bikes become their reset statuses; nothing else changes |
| App.Controller.UserLogin | App.tsx:62-66 | clears the login notice and goes to the home view and tab |
| App.Controller.AccountCreationSuccess | App.tsx:68-71 | shows the success notice on the login view |
| App.Controller.PasswordResetSuccess | App.tsx:73-76 | shows the info notice on the login view |
| App.Controller.BackToLogin | App.tsx:179-182 | clears the notice and goes to the login view |
| App.Controller.SplashTimerFired | App.tsx:109-116 | the splash timer leads to the login view |
| App.Controller.FinalTimerFired | App.tsx:118-125 | the final screen's timer performs `resetToHome` |
| App.Controller.AdminInactivityTimeout | App.tsx:79-106 | inactivity on the dashboard leads to the profile view |
| App.Controller.SelectClass | App.tsx:127-130 | stores the class and opens the booking view |
| App.Controller.SelectInstructor | App.tsx:132-135 | stores the instructor and opens the instructor view |
| App.Controller.BookingConfirm | App.tsx:137-140 | stores the booked ids and party size and opens the payment view |
| App.Controller.PaymentSuccess | App.tsx:142-152 | sets the success title and message, marks the booked bikes taken and opens the final view |
| App.Controller.TakeBikes | App.tsx:147-150 | the bikes with the booked ids become taken; nothing else changes |
| App.Controller.ShowFinal | App.tsx:151 | opens the final view once the success message is set; nothing else changes |
| App.Controller.Navigate | App.tsx:154-157 | sets the tab and the view of that tab |
| App.Controller.SubmitReviewFor | App.tsx:159-168 | updates the instructor list by the review and leaves `selectedInstructor` as it was |
| App.Controller.UpdateUser | App.tsx:170-173 | the current user becomes the updated user and the roster entry with its id is replaced |
| App.Controller.BikeCountChange | App.tsx:175-177 | the bikes become a fresh layout of the requested count |
| App.Controller.FollowLink | App.tsx:189-248 | each link callback sets its target view and changes nothing else |
| App.Controller.SetInstructors | App.tsx:233 | replaces the instructor list and nothing else, only from the dashboard, keeping the shell consistent |
| App.Controller.SetClasses | App.tsx:234 | replaces the class list and nothing else, only from the dashboard, keeping the shell consistent |
| App.Controller.SetPayments | App.tsx:235 | replaces the payment list and nothing else, only from the dashboard, keeping the shell consistent |
| App.Controller.SetAdvertisements | App.tsx:236 | replaces the advertisement list and nothing else, only from the dashboard, keeping the shell consistent |
| App.Controller.SetPricing | App.tsx:237 | replaces the prices and nothing else, only from the dashboard, keeping the shell consistent |
| App.Controller.SetBankAccounts | App.tsx:238 | replaces the bank accounts and nothing else, only from the dashboard, keeping the shell consistent |
| App.Controller.SetBikes | App.tsx:201 | replaces the bike layout and nothing else, only from the booking screen or the dashboard (line 239), keeping the shell consistent |
| App.Controller.SetChatThread | App.tsx:215 | replaces the chat thread and nothing else, only from the chat screen or the dashboard (line 241), keeping the shell consistent |
| App.Controller.SetRewards | App.tsx:242 | replaces the reward list and nothing else, only from the dashboard, keeping the shell consistent |
| App.Controller.SetUsers | App.tsx:243 | replaces the user roster and nothing else, only from the dashboard, keeping the shell consistent |
| LoginScreen.LoginForm.constructor | components/LoginScreen.tsx:15-16 | both fields start empty |
| LoginScreen.LoginForm.SetEmail | components/LoginScreen.tsx:15 | sets the email only |
| LoginScreen.LoginForm.SetPassword | components/LoginScreen.tsx:16 | sets the password only |
| LoginScreen.LoginForm.Submit | components/LoginScreen.tsx:18-23 | login succeeds exactly when email and password are both non-empty |
| CreateAccountScreen.CreateAccountForm.constructor | components/CreateAccountScreen.tsx:10-14 | all fields and the error start empty |
| CreateAccountScreen.CreateAccountForm.SetFields | components/CreateAccountScreen.tsx:10-13 | sets the four inputs, keeps the error |
| CreateAccountScreen.CreateAccountForm.Submit | components/CreateAccountScreen.tsx:16-25 | the account is created exactly when the passwords match; otherwise the mismatch error is shown |
| AdminLoginScreen.AdminLoginForm.constructor | components/AdminLoginScreen.tsx:12-14 | empty password and error, password hidden |
| AdminLoginScreen.AdminLoginForm.SetPassword | components/AdminLoginScreen.tsx:43 | sets the password only |
| AdminLoginScreen.AdminLoginForm.ToggleShowPassword | components/AdminLoginScreen.tsx:50 | flips the visibility only |
| AdminLoginScreen.AdminLoginForm.Submit | components/AdminLoginScreen.tsx:16-25 | success exactly for `admin123`; a wrong password sets the error and clears the field |
| ProfileScreen.NextRewardSpec | components/ProfileScreen.tsx:24 | the next reward is the first locked reward in list order; there is none exactly when all are unlocked |
| ProfileScreen.NextRewardIsNearest | components/ProfileScreen.tsx:24 | on an ascending list the next reward has the smallest threshold among the locked ones |
| ProfileScreen.ProgressPercentage | components/ProfileScreen.tsx:25 | progress is 100 exactly when no reward is left, and always between 0 and 100 |
| ProfileScreen.ProfileEditor.constructor | components/ProfileScreen.tsx:15-16 | not editing, the draft equals the user |
| ProfileScreen.ProfileEditor.SyncUser | components/ProfileScreen.tsx:19-22 | a new user prop replaces the draft |
| ProfileScreen.ProfileEditor.StartEditing | components/ProfileScreen.tsx:152 | opens the form, keeps the draft |
| ProfileScreen.ProfileEditor.InputChange | components/ProfileScreen.tsx:27-30 | changes only the named field of the draft |
| ProfileScreen.ProfileEditor.AvatarLoaded | components/ProfileScreen.tsx:36-46 | the loaded image replaces only the draft avatar |
| ProfileScreen.ProfileEditor.Save | components/ProfileScreen.tsx:48-51 | hands over the draft, which keeps the user's id, email and class count, and closes the form |
| ProfileScreen.ProfileEditor.Cancel | components/ProfileScreen.tsx:53-56 | the draft reverts to the user and the form closes |
| InstructorProfileScreen.ReviewForm.constructor | components/InstructorProfileScreen.tsx:16-19 | rating and hover 0, empty comment, not submitted |
| InstructorProfileScreen.ReviewForm.SetRating | components/InstructorProfileScreen.tsx:75 | a star click sets the rating to that star only |
| InstructorProfileScreen.ReviewForm.SetHover | components/InstructorProfileScreen.tsx:70-74 | entering a star or leaving the row sets the hover only |
| InstructorProfileScreen.ReviewForm.SetComment | components/InstructorProfileScreen.tsx:84 | sets the comment only |
| InstructorProfileScreen.ReviewForm.Submit | components/InstructorProfileScreen.tsx:21-29 | nothing happens without a rating; otherwise the review by the user, with a rating of 1 to 5 and the comment, goes out for this instructor and the thank-you note shows |
| InstructorProfileScreen.ReviewForm.ResetTimerFired | components/InstructorProfileScreen.tsx:30-35 | the form is cleared |
| ChatScreen.SendMessageSpec | components/ChatScreen.tsx:29-46 | blank text without an attachment sends nothing; otherwise a user message with the text as typed, an image attachment exactly when a URL is given, is appended and the thread marked read |
| ChatScreen.MessageIdsFollowClock | components/ChatScreen.tsx:33 | two message ids are equal exactly when the clock readings are |
| ChatScreen.StaleMarkReadDropsMessage | components/ChatScreen.tsx:17-23 | the mark-read timer as written drops a message sent before it fires |
| ChatScreen.MarkReadKeepsMessages | components/ChatScreen.tsx:17-23 | marking the current thread read keeps every message and is a no-op after a send |
| ChatScreen.ChatSession.constructor | components/ChatScreen.tsx:17-23 | mounting captures the thread and starts the mark-read timer exactly when it is unread |
| ChatScreen.ChatSession.Type | components/ChatScreen.tsx:126 | sets the typed text only |
| ChatScreen.ChatSession.SubmitForm | components/ChatScreen.tsx:48-51 | sends the typed text and clears the input when it was sent |
| ChatScreen.ChatSession.ImageLoaded | components/ChatScreen.tsx:57-69 | a loaded image is sent as an attachment-only message exactly when its URL is non-empty |
| ChatScreen.ChatSession.MarkReadTimerFired | components/ChatScreen.tsx:17-23 | the timer hands back the thread captured at mount with the unread flag cleared (`MarkReadFromMount`), and that thread becomes the current one, so its messages are those of the mount-time thread |
| AdminDashboardScreen.NewClass | components/AdminDashboardScreen.tsx:208 | a new class takes the first instructor's id, or the empty id without instructors |
| AdminDashboardScreen.NewClassHasInstructor | components/AdminDashboardScreen.tsx:208 | with an instructor present, a new class names an existing instructor |
| AdminDashboardScreen.ManagerKeepsIds | components/AdminDashboardScreen.tsx:188-192 | for any manager: saving keeps the length and every id in place; adding a record with an unused id and deleting that id restores the list |
| AdminDashboardScreen.InstructorsManagerSpec | components/AdminDashboardScreen.tsx:188-192 | saving keeps ids in place; the added instructor (`NewInstructor`) has no reviews and rating 0, adding then deleting it restores the list, and adds at different clock readings get different ids |
| AdminDashboardScreen.ClassesManagerSpec | components/AdminDashboardScreen.tsx:204-210 | saving keeps ids in place; the added class (`NewClass`) has the clock as id, and adding then deleting it restores the list |
| AdminDashboardScreen.AdsManagerSpec | components/AdminDashboardScreen.tsx:231-236 | saving keeps ids in place; the added advert (`NewAdvertisement`) is an image with the clock as id, and adding then deleting it restores the list |
| AdminDashboardScreen.RewardsManagerSpec | components/AdminDashboardScreen.tsx:253-258 | saving keeps ids in place; adding then deleting the new reward (`NewReward`) restores the list; its threshold of 100 keeps an ordered list with thresholds up to 100 ordered |
| AdminDashboardScreen.BankAccountsManagerSpec | components/AdminDashboardScreen.tsx:337-342 | saving keeps ids in place; the added account (`NewBankAccount`) has the clock as id, and adding then deleting it restores the list |
| AdminDashboardScreen.DeleteInstructorSpec | components/AdminDashboardScreen.tsx:135-139 | only a confirmed deletion happens; it keeps, in order, exactly the instructors with another id |
| AdminDashboardScreen.MatchesIffOccurs | components/AdminDashboardScreen.tsx:283-286 | a client matches exactly when the lowered term occurs in the lowered name or email |
| AdminDashboardScreen.FilterUsersSpec | components/AdminDashboardScreen.tsx:283-286 | the search keeps, in order, exactly the matching clients; the empty term keeps all; case of the term does not matter |
| AdminDashboardScreen.DeleteUserSpec | components/AdminDashboardScreen.tsx:276-281 | only a confirmed deletion happens; it keeps, in order, exactly the clients with another id |
| AdminDashboardScreen.ToggleMaintenanceSpec | components/AdminDashboardScreen.tsx:344-352 | the bike with that id swaps maintenance and non-maintenance; others are unchanged; toggling twice restores available and maintenance bikes and releases taken and selected ones |
| AdminDashboardScreen.AcceptPayment | components/AdminDashboardScreen.tsx:674-679 | accepting keeps the number of payments |
| AdminDashboardScreen.AcceptPaymentAt | components/AdminDashboardScreen.tsx:674-679 | each record with that id becomes completed; every other is unchanged |
| AdminDashboardScreen.AcceptPaymentSpec | components/AdminDashboardScreen.tsx:674-679 | only the status of the records with that id changes, to completed; accepting twice is accepting once |
| AdminDashboardScreen.AcceptPaymentRevenue | components/AdminDashboardScreen.tsx:696-698 | accepting raises today's revenue by exactly the amounts of the records it completes that are dated today |
| AdminDashboardScreen.AcceptPaymentPending | components/AdminDashboardScreen.tsx:699 | accepting lowers the pending count by the pending records with that id |
| AdminDashboardScreen.BikesInUseSpec | components/AdminDashboardScreen.tsx:700 | the taken-bike count is at most the number of bikes, 0 after `resetToHome`'s reset, and never lowered by marking a booking taken |
| AdminDashboardScreen.SeedDashboard | components/AdminDashboardScreen.tsx:696-700 | on the seed data the revenue is 15 and one payment is pending; accepting `pay2` makes them 41 and 0 |
| AdminDashboardScreen.AdminReplySpec | components/AdminDashboardScreen.tsx:460-466 | a blank reply sends nothing; otherwise an admin message with the untrimmed text is appended, the thread marked read, and the client's id and name kept |
| AdminDashboardScreen.ReplyBox.constructor | components/AdminDashboardScreen.tsx:452 | the reply starts empty |
| AdminDashboardScreen.ReplyBox.SetReply | components/AdminDashboardScreen.tsx:523 | sets the reply |
| AdminDashboardScreen.ReplyBox.Send | components/AdminDashboardScreen.tsx:460-466 | sends the reply and clears it once sent |
| AdminDashboardScreen.PasswordChangeError | components/AdminDashboardScreen.tsx:548-559 | no error exactly when the current password is `admin123`, the new passwords match and are at least 6 long; otherwise the error of the first failing check in that order: wrong current password, then mismatch, then too short |
| AdminDashboardScreen.PasswordForm.constructor | components/AdminDashboardScreen.tsx:537-541 | all fields empty |
| AdminDashboardScreen.PasswordForm.SetFields | components/AdminDashboardScreen.tsx:537-539 | sets the three inputs, keeps the messages |
| AdminDashboardScreen.PasswordForm.Submit | components/AdminDashboardScreen.tsx:543-568 | the first failing check's error is shown and the fields kept; on success the confirmation shows and the fields are cleared |
| AdminDashboardScreen.ConfigForm.constructor | components/AdminDashboardScreen.tsx:330-331 | the drafts start from the current prices and bike count |
| AdminDashboardScreen.ConfigForm.SetPrice | components/AdminDashboardScreen.tsx:333-335 | one price input changes one draft price |
| AdminDashboardScreen.ConfigForm.SetBikeCount | components/AdminDashboardScreen.tsx:389 | sets the draft count |
| AdminDashboardScreen.ConfigForm.SavePrices | components/AdminDashboardScreen.tsx:371 | the draft prices are saved |
| AdminDashboardScreen.ConfigForm.UpdateBikeCount | components/AdminDashboardScreen.tsx:390 | the draft count becomes a fresh layout of that many available bikes, none for a count of 0 or less |
| AdminDashboardScreen.InstructorEditor.constructor | components/AdminDashboardScreen.tsx:100-101 | not editing, the draft equals the instructor |
| AdminDashboardScreen.InstructorEditor.SyncInstructor | components/AdminDashboardScreen.tsx:104-106 | a new instructor prop replaces the draft |
| AdminDashboardScreen.InstructorEditor.StartEditing | components/AdminDashboardScreen.tsx:178 | opens the editor and keeps the instructor and the draft |
| AdminDashboardScreen.InstructorEditor.InputChange | components/AdminDashboardScreen.tsx:108-111 | changes only the named field of the draft |
| AdminDashboardScreen.InstructorEditor.AvatarLoaded | components/AdminDashboardScreen.tsx:113-123 | the loaded image replaces only the draft avatar |
| AdminDashboardScreen.InstructorEditor.Save | components/AdminDashboardScreen.tsx:125-128 | hands over the draft, which keeps the id, rating and reviews, and closes the editor |
| AdminDashboardScreen.InstructorEditor.Cancel | components/AdminDashboardScreen.tsx:130-133 | the draft reverts and the editor closes |
| AdminDashboardScreen.Dashboard.constructor | components/AdminDashboardScreen.tsx:652-653 | the clients tab and the figures view |
| AdminDashboardScreen.Dashboard.SelectTab | components/AdminDashboardScreen.tsx:655-660 | sets the tab; opening the chat tab on an unread thread marks it read |
| AdminDashboardScreen.Dashboard.OpenView | components/AdminDashboardScreen.tsx:702-782 | sets the dashboard view only |

## Left out

- The QR scanner screen (camera stream and decoder): only its place in the view graph (`QRScanner`, its back link) is modelled.
- The splash, home, forgot-password, bottom-navigation and entry-point components: they hold no logic beyond the callbacks the shell gives them, which the `Controller` models.
- Timer durations (2.5 s splash, 4 s final screen, 30 min admin inactivity, 0.5 s chat mark-read, 3 s review reset) and the activity listeners that restart the admin timer: a timer is an event that may fire while its screen is shown; when a screen is left its timer is cancelled, so no event fires afterwards.
- `Date.now()`, `new Date()` and today's ISO date are parameters (`now`, `today`); the chat seed thread's timestamps are clock readings in milliseconds.
- The file reader behind avatar and chat uploads: its data URL is a parameter; a failed read changes nothing and is not modelled.
- `window.confirm` is the boolean parameter `confirmed`.
- Floating point: prices, amounts and ratings are exact reals; `toFixed(1)` is rounding half up on the exact mean, and `toFixed(2)` display formatting is not modelled.
- App.RoundToTenth: binary floating-point effects of `toFixed` (a mean such as 4.45 stored just below its decimal value) are not modelled, and a negative tie rounds up (-2.25 to -2.2) where `toFixed(1)` rounds away from zero (-2.3); ratings are means of 1 to 5 stars, so no negative value reaches it.
- `Number(...)` parsing of the price and bike-count inputs: the modelled setters take the parsed number; `NaN` and fractional counts are not modelled.
- The generic `EditableItem` editor of classes, adverts, rewards and bank accounts edits fields through untyped keys (numbers arrive as strings); the model covers what its save and delete hand to the managers (`ReplaceById`, `RemoveById`) and the default records added, not the per-field typing.
- Browser form validation (`required`, `type=email`) and disabled buttons: the handlers are modelled as if submitted; the disabled send buttons only repeat the handlers' own blank checks.
- `toLowerCase` is modelled for ASCII letters only; other Unicode case mappings and UTF-16 code units versus code points are not modelled.
- ChatScreen.ChatSession.ImageLoaded: the file reader's callback sends into the thread current when it completes; the thread captured when the file was picked is not modelled.
- Rendering (JSX, CSS, scrolling, the full-screen image view, star hover colours) and `console.log`.

## Findings

| source | as written | input that shows it | evidently intended | confidence | as-written member | corrected member |
|---|---|---|---|---|---|---|
| components/ChatScreen.tsx:17-23 | the mount effect's timer calls `onThreadChange({ ...thread, unread: false })` with the thread captured at mount (`MarkReadFromMount`) | open the chat on an unread thread and send "Hola" within half a second: when the timer fires, the thread without "Hola" replaces the current one and the message is lost | clear `unread` on the current thread, keeping every message (`MarkRead`) | not executed | ChatScreen.StaleMarkReadDropsMessage | ChatScreen.MarkReadKeepsMessages |
