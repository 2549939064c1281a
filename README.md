# Token Earin reward rules, modelled in Dafny

Token Earin is a rewards app built with React and Firebase. Users earn coins in
several ways:

- visiting websites and completing social tasks;
- opening download links;
- watching ads;
- running timed mining sessions.

They withdraw coins through a wallet form. This project models the rules inside
those screens' event handlers and proves properties about them.

- **The account record** (`Account`). The user document holds:
  - the balance;
  - the two "already done" link lists, `completedSocialTasks` and `visitedWebsitesToday`;
  - `dailyAdCount`;
  - `miningData.lastMiningStart`;
  - `language` and `photoURL`.

  The reward ledger and the user's withdrawal requests are modelled beside it.
  `UserDoc` is a class whose methods are the three multi-field store writes
  (`UpdateBalance`, `AddToHistory`, `AddWithdrawal`); they update the document in
  place. The single-field `updateDoc` writes (`dailyAdCount`,
  `miningData.lastMiningStart`, `photoURL`, `language`) are field assignments on
  the document inside the handlers. The handlers are methods of their screens (or, where the screen keeps no
  state, module-level methods) that take the document as a parameter.
  `Data()` is its value as a `UserData` datatype.

- **The two store primitives** (`Account`). `UserService.updateBalance` gets a
  contract written down as an assumption (`Credited`), because its body is not
  part of this model:
  - the balance moves by exactly the delta;
  - one ledger entry recording the delta is appended;
  - nothing else changes.

  Firestore's `arrayUnion` is "append if absent" (`ArrayUnion`).

- **Handlers and failures.** Each handler is a method that takes the stored
  document as a parameter. It is proved equal to a pure outcome function (`TaskOutcome`, `DownloadOutcome`,
  `WatchOutcome`, `ClaimOutcome`, `WithdrawOutcome`, `UploadOutcome`,
  `SaveUrlOutcome`, `LanguageOutcome`). The properties are lemmas about those
  functions.
  - The handlers make several store calls in a row, and any of them may throw.
  - A `Backend` parameter says which store call, counted from 0, throws first;
    the calls before it take effect. This is how the model captures a credit
    whose follow-up write is lost.
- **The screens' local state** — the ad countdown, the mining view, the wallet,
  auth and profile forms — is a class per screen.
- **The validators and sanitisers** are pure functions:
  - the user name filter;
  - the e-mail filter and normalisation;
  - the auth error messages and the mode buttons;
  - the number parsing behind `Number(amount)`;
  - the withdrawal acceptance test;
  - the image and link checks;
  - the language lookup.

The model is sequential: one handler runs at a time, and it sees the stored
state as it is when the handler starts. The screens read a possibly stale
snapshot of the document and may interleave. That behaviour is not modelled
(see "Left out").

A division whose JavaScript result is not a finite number (NaN, ±Infinity) is
modelled as `None`. A parsed amount is never infinite in the model: an exponent
beyond the double range reads as its exact value (see "Left out"). Amounts are exact `real`s, times are whole seconds given as `now`, and
falsy defaults (`|| 0`, `|| 10`, `|| []`, `|| "Enter details"`) are written out.

## Model

| member | source | states |
|---|---|---|
| Account.ArrayUnion | TasksPage.tsx:36-38 | `arrayUnion`: the old list is a prefix of the new one; an element is in the result iff it was in the list or is the added link; a list without duplicates stays without duplicates |
| Account.Credited | TasksPage.tsx:35 | assumed contract of `UserService.updateBalance`: the balance moves by exactly `delta`, one ledger entry with that delta, kind and description is appended, and no other field changes |
| Account.LedgerTotalAppend | WalletPage.tsx:66 | appending a ledger entry adds its amount to the ledger total |
| Account.CreditedKeepsLedgerConsistent | AdsPage.tsx:38 | a balance update keeps the balance equal to the sum of the ledger |
| Account.UserDoc.constructor | App.tsx:60-62 | the stored document holds exactly the given user data |
| Account.UserDoc.UpdateBalance | MiningPage.tsx:62 | the document's new value is `Credited` of the old one |
| Account.UserDoc.AddToHistory | DownloadPage.tsx:77-79 | the chosen link list becomes `arrayUnion` of the old list and the link; every other field is unchanged |
| Account.UserDoc.AddWithdrawal | WalletPage.tsx:67-70 | the request list gains exactly the new request at its end; every other field is unchanged |
| Text.TrimStartSpec | WalletPage.tsx:59 | dropping leading white space leaves a suffix of the input that does not start with white space, and what was dropped is all white space |
| Text.TrimEndSpec | WalletPage.tsx:59 | dropping trailing white space leaves a prefix of the input that does not end with white space, and what was dropped is all white space |
| Text.UnpaddedIsTrimmed | AuthPage.tsx:45 | a string that neither starts nor ends with white space is its own `trim()` |
| Text.TrimEmptyIffBlank | WalletPage.tsx:59 | `s.trim()` is empty (falsy) exactly when every character of `s` is white space |
| Text.TrimIdempotent | AuthPage.tsx:45 | trimming twice is trimming once; a non-empty result has non-blank ends |
| Text.LowerAscii | AuthPage.tsx:76 | an ASCII capital maps to its small letter (32 code points up); any other character is unchanged |
| Text.ToLowerAscii | AuthPage.tsx:76 | lower-casing preserves length and maps each character by `LowerAscii` |
| TasksPage.WaitTime | TasksPage.tsx:26 | 5000 ms for social tasks; for visits 10000 ms when the timer is missing or 0, else 1000 × timer |
| TasksPage.HandleTask | TasksPage.tsx:20-49 | the handler's effect on the stored document is `TaskOutcome`: guard on the screen's list, credit, then `arrayUnion`, each store call possibly failing |
| TasksPage.NewLinkPaidAndRecorded | TasksPage.tsx:31-38 | a link absent from the screen's list is paid exactly its reward, with one ledger entry, and appended to that list; the other list is untouched; the list view then shows it done |
| TasksPage.DoneLinkChangesNothing | TasksPage.tsx:40-43 | a link already in the screen's list leaves the whole stored state unchanged, whatever the store does |
| TasksPage.PaysOnce | TasksPage.tsx:31-43 | two runs with the same link credit the reward once if the link was new, and not at all if it was done |
| TasksPage.HistoriesOnlyGrow | TasksPage.tsx:36-38 | both link lists keep their old contents as a prefix: no link is ever removed |
| TasksPage.KeepsLedgerConsistent | TasksPage.tsx:35 | every run, with any store failure, keeps the balance equal to the ledger total |
| TasksPage.LostRecordPaysAgain | TasksPage.tsx:35-38 | if the list write throws after the credit, the next run pays the reward a second time |
| TasksPage.NoLinkNormalisation | TasksPage.tsx:31 | done-ness is exact string membership: for any list holding a link but not the link with a trailing "/", the link pays nothing and the slash variant is paid again |
| TasksPage.CollectedMarkAfterRun | TasksPage.tsx:62-63 | after a run the task shows as collected exactly when it was before or the list write went through; another task's mark changes only if it has the same link and the write went through |
| TasksPage.OtherScreenUnchanged | TasksPage.tsx:62-63 | a run on one screen never changes a mark on the other screen, whose list is a different field |
| DownloadPage.WaitTime | DownloadPage.tsx:67 | 5000 ms exactly for web tasks, 8000 ms exactly for the others |
| DownloadPage.HandleDownload | DownloadPage.tsx:58-93 | the handler's effect on the stored document is `DownloadOutcome`: coming-soon skip, guard on `completedSocialTasks` and `reward > 0`, credit, then `arrayUnion` |
| DownloadPage.ComingSoonChangesNothing | DownloadPage.tsx:59 | a coming-soon task leaves the stored state unchanged |
| DownloadPage.PaidIffNewAndPositive | DownloadPage.tsx:70-79 | with a reliable store the reward is credited and the link appended iff the task is available, not done and has a positive reward; otherwise nothing changes; `visitedWebsitesToday` is never touched |
| DownloadPage.NonPositiveRewardNeverRecorded | DownloadPage.tsx:73 | a task with reward ≤ 0 is never credited and never recorded, so its done mark never changes |
| DownloadPage.PaysOnce | DownloadPage.tsx:82-86 | two runs with the same task credit the reward at most once |
| DownloadPage.HistoryOnlyGrows | DownloadPage.tsx:77-79 | `completedSocialTasks` keeps its old contents as a prefix |
| DownloadPage.KeepsLedgerConsistent | DownloadPage.tsx:75 | every run keeps the balance equal to the ledger total |
| DownloadPage.FixedListDisabledEntries | DownloadPage.tsx:109 | in the fixed four-entry list, with no task running, only the coming-soon entry is disabled, and it is the only entry without a positive reward |
| DownloadPage.CollectedMarkAfterDownload | DownloadPage.tsx:110 | after a run the task shows as collected exactly when it was before, or it paid and the list write went through |
| DownloadPage.DisabledWhileRunningOrComingSoon | DownloadPage.tsx:109 | a coming-soon button is always disabled; any other is disabled exactly while its own task runs |
| DownloadPage.SharedWithSocialTasks | DownloadPage.tsx:70-78 | a link paid on the social task screen is not paid on the download screen, and a link paid on the download screen is not paid on the social task screen |
| AdsPage.TimerAfterTicks | AdsPage.tsx:24-33 | after k ticks the countdown reads 10 − k for k ≤ 10 and 0 after; it is never negative |
| AdsPage.ButtonHiddenDuringCountdown | AdsPage.tsx:80-92 | the watch button is hidden exactly during the first nine ticks |
| AdsPage.WatchCreditsReward | AdsPage.tsx:37-39 | a watch credits exactly the ad reward with one ledger entry and adds one to `dailyAdCount`, so the earnings tile `dailyAdCount × reward` rises by what was credited |
| AdsPage.EveryWatchPays | AdsPage.tsx:37-39 | there is no once-only guard: n watches credit n × reward and count n |
| AdsPage.EarningsTrackWatches | AdsPage.tsx:65 | after n completed watches the earnings tile shows n more rewards |
| AdsPage.KeepsLedgerConsistent | AdsPage.tsx:38 | every watch keeps the balance equal to the ledger total |
| AdsPage.AdsScreen.constructor | AdsPage.tsx:17 | the countdown starts at 0 |
| AdsPage.AdsScreen.Tick | AdsPage.tsx:26-32 | one tick sets the timer to 0 from 1 or below and otherwise lowers it by one |
| AdsPage.AdsScreen.HandleWatch | AdsPage.tsx:19-46 | the countdown loop runs exactly ten ticks and ends at 0; then the document becomes `WatchOutcome` of the old one |
| MiningPage.Capped | MiningPage.tsx:49 | `Math.min(elapsed, DURATION)`: at most both arguments and equal to one of them |
| MiningPage.Observe | MiningPage.tsx:44-56 | a tick's view is claimable iff `elapsed ≥ DURATION`; for a non-negative rate the points never exceed `DURATION × RATE / 3600` |
| MiningPage.RemainingHours | MiningPage.tsx:123 | the remaining-hours value is a finite number iff the rate is non-zero |
| MiningPage.CappedAfterDuration | MiningPage.tsx:49-53 | every observation at or after the session's end shows the full reward and is claimable |
| MiningPage.PointsMonotone | MiningPage.tsx:48-51 | for a non-negative rate and a fixed start, points never decrease as `now` grows |
| MiningPage.ProgressIsPercentage | MiningPage.tsx:52 | with a positive duration and elapsed ≥ 0 the progress is in [0, 100], and it is 100 exactly when claimable |
| MiningPage.NoLowerClamp | MiningPage.tsx:48-52 | a start in the future gives negative points and negative progress, and the session is not claimable |
| MiningPage.RemainingFromCapped | MiningPage.tsx:123 | for a non-zero rate the remaining hours equal `(DURATION − capped) / 3600`: never negative, and zero exactly when claimable |
| MiningPage.ClaimRestartsSession | MiningPage.tsx:62-65 | a claim from a claimable view credits the full reward with one ledger entry and sets `lastMiningStart` to the claim time, so the next view is not claimable and shows 0 points |
| MiningPage.StaleViewPaysTwice | MiningPage.tsx:129-130 | until the next tick the view still says claimable, and a second claim credits the same points again |
| MiningPage.KeepsLedgerConsistent | MiningPage.tsx:62 | every claim keeps the balance equal to the ledger total |
| MiningPage.WorkedExample | MiningPage.tsx:40-53 | for a 3600 s session at 360 points/hour: 180 points and not claimable at half time; 360 and claimable at the end; the claim brings a zero balance to 360 |
| MiningPage.MiningScreen.constructor | MiningPage.tsx:35-37 | the screen starts with 0 points, 0 % progress, not claimable |
| MiningPage.MiningScreen.Tick | MiningPage.tsx:45-53 | the view becomes `Observe` of `now` and the stored start |
| MiningPage.MiningScreen.PressClaim | MiningPage.tsx:58-71 | the disabled button does nothing; otherwise the document becomes `ClaimOutcome` with the points on screen |
| WalletPage.NumeralParses | WalletPage.tsx:58 | `Number(s)` of the decimal numeral of any natural number n is n |
| WalletPage.ParseNumber | WalletPage.tsx:58 | an empty or all-white-space amount reads as 0 |
| WalletPage.NegatedNumeralParses | WalletPage.tsx:58 | a minus sign before a whole number's numeral reads as the negated number |
| WalletPage.FractionParses | WalletPage.tsx:58 | for every whole number a and digit string d, "a.d" reads as `DecimalValue(a, d)` |
| WalletPage.DecimalOfNumeral | WalletPage.tsx:58 | that value is a + d / 10^|d| |
| WalletPage.ExponentParses | WalletPage.tsx:58 | for all whole numbers a and k, "aek" reads as a scaled by 10^k |
| WalletPage.NegativeExponentParsesAll | WalletPage.tsx:58 | for all whole numbers a and positive k, "ae-k" reads as a scaled by 10^−k |
| WalletPage.ScaleValue | WalletPage.tsx:58 | scaling by 10^k multiplies by 10^k; scaling by 10^−k divides by it |
| WalletPage.MantissaWithFraction | WalletPage.tsx:58 | any digits, a point and digits (at least one digit in all) read as whole plus fraction |
| WalletPage.ExponentDigits | WalletPage.tsx:58 | an exponent of digits reads as their value, and with a minus sign as its negation |
| WalletPage.FractionsParse | WalletPage.tsx:58 | "1.5", ".5" and "5." read as 1.5, 0.5 and 5 |
| WalletPage.MalformedMantissaRejected | WalletPage.tsx:58 | a lone point, a second point and an exponent without a mantissa are not numbers |
| WalletPage.PositiveExponentParses | WalletPage.tsx:58 | "2e3" reads as 2000 |
| WalletPage.NegativeExponentParses | WalletPage.tsx:58 | "25e-1" reads as 2.5 |
| WalletPage.AcceptableIff | WalletPage.tsx:59 | a request is accepted iff the amount is a number with `min ≤ amt ≤ balance` and the details are not all white space |
| WalletPage.RejectedChangesNothing | WalletPage.tsx:59-62 | a rejected request changes neither the balance, the ledger nor the request list |
| WalletPage.AcceptedNeverOverdraws | WalletPage.tsx:59-70 | an accepted request debits exactly `amt` with one ledger entry, so the balance stays ≥ 0, and appends one pending request with the same amount, method and details |
| WalletPage.KeepsLedgerConsistent | WalletPage.tsx:66 | every withdrawal attempt keeps the balance equal to the ledger total |
| WalletPage.ClearedFormRejected | WalletPage.tsx:71-72 | the cleared amount field reads as 0, so with a positive minimum, submitting the cleared form again is rejected |
| WalletPage.InsertNewestFirst | WalletPage.tsx:52 | inserting into a newest-first list keeps it newest-first and adds exactly the one request |
| WalletPage.SortNewestFirst | WalletPage.tsx:52 | the listed requests are a permutation of the snapshot in descending timestamp order, a missing timestamp counting as 0 |
| WalletPage.InitialMethod | WalletPage.tsx:42 | the form starts on the first method's name, or "" when there is none |
| WalletPage.Placeholder | WalletPage.tsx:82 | the placeholder of the first method with the selected name when that placeholder is non-empty, otherwise "Enter details"; never empty |
| WalletPage.InitialPlaceholder | WalletPage.tsx:82 | the form starts with the first method's placeholder, or "Enter details" when that is empty |
| WalletPage.UnknownMethodPlaceholder | WalletPage.tsx:82 | a name no method has gives "Enter details" |
| WalletPage.ProgressWidth | WalletPage.tsx:116 | for a non-zero minimum the width is `balance / minimum * 100` capped at 100: 100 exactly when the balance reaches the minimum (at or above a positive minimum, at or below a negative one), otherwise width × minimum = balance × 100; non-negative for a positive minimum and non-negative balance; a zero minimum gives 100 for a positive balance and no finite number otherwise |
| WalletPage.ProgressMonotone | WalletPage.tsx:116 | with a positive minimum the bar never shrinks as the balance grows |
| WalletPage.WalletForm.constructor | WalletPage.tsx:41-43 | empty amount and details, the initial method selected |
| WalletPage.Withdraw | WalletPage.tsx:58-70 | the document becomes `WithdrawOutcome` of the old one: nothing for a rejected request or a failed debit, the debit alone when the request write fails, both otherwise |
| WalletPage.WalletForm.HandleWithdraw | WalletPage.tsx:57-80 | returns whether the request passed the check; the document becomes `WithdrawOutcome`; amount and details are cleared exactly when both store calls succeed |
| Onboarding.KeepNameChars | Onboarding.tsx:17 | the result has only `[a-z0-9]` characters and is no longer than the input |
| Onboarding.KeepNameCharsAppend | Onboarding.tsx:17 | the filter maps a concatenation to the concatenation of the filtered parts, so kept characters keep their order |
| Onboarding.KeepNameCharsSingle | Onboarding.tsx:17 | a single character is kept exactly when it is in `[a-z0-9]` |
| Onboarding.LowerChar | Onboarding.tsx:17 | one or two characters; an ASCII character maps to its ASCII lower case, a `[a-z0-9]` character to itself |
| Onboarding.ToLowerCase | Onboarding.tsx:17 | the result is at least as long as the input and at most twice as long |
| Onboarding.ToLowerCaseAppend | Onboarding.tsx:17 | lower-casing maps a concatenation to the concatenation of the lower-cased parts |
| Onboarding.SanitizeName | Onboarding.tsx:16-19 | the stored name has only `[a-z0-9]` characters |
| Onboarding.SanitizeIdempotent | Onboarding.tsx:17 | sanitising a sanitised name changes nothing |
| Onboarding.SanitizeAscii | Onboarding.tsx:17 | for ASCII input the result is the lower-cased input with every character outside `[a-z0-9]` dropped, in order |
| Onboarding.NonAsciiLettersSurvive | Onboarding.tsx:17 | lower-casing first lets U+212A and U+0130 survive as "k" and "i" |
| Onboarding.ReferralCode | Onboarding.tsx:27 | the URL `ref` parameter if present and non-empty, otherwise the stored code |
| Onboarding.Submit | Onboarding.tsx:21-29 | a name shorter than 3 gives "Min 3 characters" and no profile; otherwise a profile with that name and the referral code |
| Onboarding.CreatedNamesAreValid | Onboarding.tsx:16-29 | a profile is only ever created with at least 3 characters from `[a-z0-9]` |
| AuthPage.KeepEmailChars | AuthPage.tsx:76 | the result has only `[a-zA-Z0-9@._+-]` characters and is no longer than the input |
| AuthPage.KeepEmailCharsAppend | AuthPage.tsx:76 | the filter maps a concatenation to the concatenation of the filtered parts, so kept characters keep their order |
| AuthPage.KeepEmailCharsSingle | AuthPage.tsx:76 | a single character is kept exactly when `[a-zA-Z0-9@._+-]` matches it |
| AuthPage.SanitizeEmail | AuthPage.tsx:75-78 | the stored address has only `[a-z0-9@._+-]` characters |
| AuthPage.SanitizeEmailIdempotent | AuthPage.tsx:76 | sanitising a sanitised address changes nothing |
| AuthPage.CleanEmailIsNormal | AuthPage.tsx:45 | trimming and lower-casing a sanitised address changes nothing |
| AuthPage.NormalizeEmail | AuthPage.tsx:45 | the normalised address is no longer than the input and is empty exactly when the input is all white space |
| AuthPage.CleanEmailIsTrimmed | AuthPage.tsx:45 | a sanitised address has no white space at either end, so `trim()` leaves it as is |
| AuthPage.CleanEmailIsLowerCase | AuthPage.tsx:45 | a sanitised address has no capitals, so `toLowerCase()` leaves it as is |
| AuthPage.SubmittedEmailIsFieldValue | AuthPage.tsx:45 | the address submitted equals what the field holds after any input |
| AuthPage.ErrorMessage | AuthPage.tsx:57-63 | email-already-in-use maps to its own message; wrong-password, user-not-found and invalid-credential map to "Invalid email or password"; any other code shows the error's message |
| AuthPage.ButtonTarget | AuthPage.tsx:186-203 | only "forgot" in login mode leads to reset; every button shown in reset mode leads to login; the footer swaps login and signup |
| AuthPage.FooterSwitchIsInvolution | AuthPage.tsx:197 | the footer never leads to reset, and pressing it twice returns to the starting mode |
| AuthPage.ResetReachedOnlyByForgot | AuthPage.tsx:148-156 | a button leads to reset iff it is "forgot" in login mode; in reset mode only the back buttons are active |
| AuthPage.RequestFor | AuthPage.tsx:45-55 | login signs in, signup creates the user, reset sends the reset e-mail, each with `NormalizeEmail` of the address |
| AuthPage.RequestCarriesFieldValue | AuthPage.tsx:45 | for a sanitised address the request carries the address unchanged |
| AuthPage.AuthForm.constructor | AuthPage.tsx:19-25 | login mode, empty address and messages, password hidden, not loading |
| AuthPage.AuthForm.ToggleMode | AuthPage.tsx:68-73 | sets the mode and clears the error, the success message and the password toggle; the field stays valid |
| AuthPage.AuthForm.Press | AuthPage.tsx:92-98 | a shown mode button performs `toggleMode` to its target; a button not shown in the mode changes nothing; the field stays valid |
| AuthPage.AuthForm.TogglePassword | AuthPage.tsx:142 | flips password visibility only; the field stays valid |
| AuthPage.AuthForm.EmailChange | AuthPage.tsx:75-78 | the field becomes the sanitised input and stays valid |
| AuthPage.AuthForm.Submit | AuthPage.tsx:40-66 | on a valid form, issues the mode's request carrying exactly the field's address; a failure shows the mapped message and stops loading; only reset sets the success message; a successful login or signup stays loading; the form stays valid |
| AuthPage.AuthForm.Settle | AuthPage.tsx:42-65 | messages cleared and the spinner on first; then a failure's mapped message with the spinner off, or reset's success message with the spinner off; mode, address and password toggle unchanged |
| ProfilePage.ImageError | ProfilePage.tsx:38-46 | accepted iff the type starts with "image/" and the size is at most 2 × 1024 × 1024; the type is checked first |
| ProfilePage.TypeCheckedBeforeSize | ProfilePage.tsx:38-46 | a non-image file always reports the type error; an image of exactly 2 MiB is accepted and one byte more is rejected on size |
| ProfilePage.UploadError | ProfilePage.tsx:63-66 | a check's message, or "Upload failed. Try using a link." iff one of the four upload calls throws, or no error |
| ProfilePage.UploadWritesOnlyPhoto | ProfilePage.tsx:50-56 | a rejected file makes no store write; an upload changes at most `photoURL`, and sets it to the download URL when the store is reliable |
| ProfilePage.UrlCheckIsPrefixOnly | ProfilePage.tsx:78 | examples: the link check is a bare, case-sensitive "http" prefix test with no trimming (`UrlAccepted` is the whole definition) |
| ProfilePage.SaveUrlWritesOnlyPhoto | ProfilePage.tsx:78-87 | a rejected link makes no store write; an accepted one changes only `photoURL`, to the link |
| ProfilePage.FindLanguage | ProfilePage.tsx:34 | `find` returns a listed entry with the stored code, the first entry when it matches, or none when no entry matches |
| ProfilePage.FindLanguageReturnsFirst | ProfilePage.tsx:34 | the entry returned is the first one whose code matches, whatever entries with the same code follow |
| ProfilePage.LanguageCodesDistinct | ProfilePage.tsx:27-32 | no two entries of the fixed language list share a code |
| ProfilePage.CurrentLang | ProfilePage.tsx:27-34 | the shown language is always a listed one: the entry whose code is the stored language, else English |
| ProfilePage.UnknownLanguageShowsEnglish | ProfilePage.tsx:34 | a missing, unlisted or differently cased code shows English; "ur" shows Urdu |
| ProfilePage.SelectLanguageWritesOnlyLanguage | ProfilePage.tsx:103-105 | choosing a language writes only `language`, and a listed code chosen is then the one shown |
| ProfilePage.KeepsLedgerConsistent | ProfilePage.tsx:54-56 | no profile write touches the balance or the ledger |
| ProfilePage.ProfileScreen.constructor | ProfilePage.tsx:19-22 | no error, empty link, both pickers closed |
| ProfilePage.ProfileScreen.ProcessAndUpload | ProfilePage.tsx:36-69 | the document becomes `UploadOutcome` and the error becomes `UploadError` |
| ProfilePage.ProfileScreen.SaveUrl | ProfilePage.tsx:77-98 | the document becomes `SaveUrlOutcome`; a rejected link shows "Enter a valid URL (starting with http)"; a failed write shows "Failed to save URL."; a success keeps an earlier error and closes the link input |
| ProfilePage.ProfileScreen.SelectLanguage | ProfilePage.tsx:100-112 | the document becomes `LanguageOutcome`; the picker closes exactly when the write succeeds; the error is untouched |

## Left out

- Onboarding.KeepNameChars: its own contract states only the allowed characters and the length bound. Which characters are kept, and in what order, is stated by KeepNameCharsAppend and KeepNameCharsSingle.
- AuthPage.KeepEmailChars: its own contract states only the allowed characters and the length bound. Which characters are kept, and in what order, is stated by KeepEmailCharsAppend and KeepEmailCharsSingle.
- AuthPage.NormalizeEmail lower-cases ASCII letters only, whereas `toLowerCase` also lower-cases other scripts. The two agree on every value the e-mail field can hold, because the field only ever holds sanitised ASCII text (`AuthForm.Valid`, `RequestCarriesFieldValue`). A non-ASCII capital is not lower-cased by the model.
- The store, storage and auth services (`updateDoc`, `addDoc`, `onSnapshot`, `uploadBytes`, `getDownloadURL`, `signIn*`, `createUserWithEmailAndPassword`, `sendPasswordResetEmail`, `updateProfile`) are not modelled. Only their effect on the user document is kept. Whether one of them throws is the `Backend` parameter.
- ProfilePage.ProfileScreen.ProcessAndUpload, ProfilePage.ProfileScreen.SaveUrl: the source calls `updateProfile` only when `auth.currentUser` is set (ProfilePage.tsx:58, 88). The model always counts it as a store call that may throw, because the screen is shown only to a signed-in user, for whom the guard holds.
- `UserService` (its file is not part of this model): `updateBalance` is the assumed contract `Credited`. `createProfile` and `redeemReferral` are not modelled, and neither is the referral screen that relies on them.
- Concurrency and stale snapshots are not modelled. The handlers pass the balance and link lists of a snapshot that may be out of date, and two handlers, or two tabs, may interleave. The model runs one handler at a time on the current stored state.
- The `loading`, `activeTask`, `uploading`, `savingUrl` and `isUpdatingLang` flags are not modelled, except `loading` on the sign-in form. In a sequential model they are always clear when a button is pressed, so a claim, watch or withdrawal made while a previous one runs is not modelled.
- The withdraw button is disabled while `Number(amount) < minWithdrawal`. That check is not modelled: it is implied by the handler's own check.
- The ad SDK (`triggerAd`) is not modelled: it always resolves. The waits (`setTimeout`), `window.open`, `alert`, the clipboard and all rendering are left out too. Ticks are explicit method calls and the current time is the `now` parameter.
- Floating point is not modelled: amounts are exact reals, and `toFixed` formatting and the wallet's estimated payout are left out.
- WalletPage.ParseNumber covers the decimal grammar of `Number` (white space, sign, digits, fraction, exponent). Its own contract states only that blank input reads as 0. The grammar is stated for all inputs of each shape by NumeralParses, NegatedNumeralParses, FractionParses and ExponentParses/NegativeExponentParsesAll, but not for every combination: a signed fraction with an exponent is covered only by the definition. It does not cover the literal "Infinity" or hexadecimal, binary or octal literals; those inputs read as `None` (not a number). It does not round to a double either: an exponent beyond the double range reads as its exact value (`"1e400"` reads as 10^400), where JavaScript gives Infinity, and a tiny value reads as itself where JavaScript gives 0. The withdrawal guard rejects both 10^400 and Infinity for any balance below 10^308, so acceptance agrees on every realistic balance.
- Onboarding.LowerChar: `toLowerCase` is exact only where the result can contain `[a-z0-9]`. That is ASCII capitals, U+212A and U+0130; every other character is kept as it is, and its lower case is then dropped by the filter anyway.
- WalletPage.SortNewestFirst: it states the order and the permutation, but not which of two requests with equal timestamps comes first.
- The password field, Google sign-in and the browser's own `required`/`type="email"` validation of the auth form are not modelled.
- The app shell's language fallback (`userData.language` or the browser language), the home, history, layout and assistant screens are not part of this model.
- MiningPage.MiningScreen.Tick reads the clock as the parameter `now` in whole seconds (`Math.floor(Date.now() / 1000)`).
- AdsPage.AdsScreen.HandleWatch models the countdown and the ten-second wait as the same ten ticks. The source runs them as two independent timers.
