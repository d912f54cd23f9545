# Movie wall wallet ledger in Dafny

This project models the wallet ledger of the movie wall demo (`app.js`).
The page keeps one global `state` record with these parts:

- the session flags `isLoggedIn` and `isAdmin`;
- the wallet: `walletBalance`, `totalEarned` and `moviesWatched`;
- the transaction log `transactions`, newest first;
- the form context: `currentTransactionType` and `selectedBank`.

The handlers change this record in place. Watching a movie credits a fixed
reward of 100. A submitted form deposits, withdraws or transfers an amount.
The admin login and logout flip the session flags. `saveState` and
`loadState` copy the record to and from one browser storage slot.

Files and modules:

- `ledger.dfy`, module `Ledger`. The record as a datatype and one pure
  transition function per operation. It also holds the intended bookkeeping
  invariant `Consistent`:
  - the balance is the signed sum of the completed entries;
  - the total earned is the sum of the rewards, and is 100 per movie;
  - no `earning` form is open.
  The module proves the properties in the table under "## Model", including
  ones about runs of arbitrary action sequences.
- `app.dfy`, module `App`. The class `AppState` has the fields of `state`
  plus the storage slot. Each handler changes the fields step by step, in
  the source's order. Each is proved to produce exactly the record that the
  matching `Ledger` function computes, and to leave the storage slot as the
  source does.
- `device.dfy`, module `Device`. `getDeviceName` as a pure classifier of a
  user-agent string. The first marker found wins, in a fixed order. As a
  consequence, a typical iPhone user agent ("... like Mac OS X") is labelled a Mac
  device.
- `text.dfy`, module `Text`. `String.prototype.includes` as substring search,
  and `toUpperCase` over ASCII.

Modelling choices:

- Amounts are JavaScript numbers in the source and `int` here.
- Timestamps (`new Date().toISOString()`) are opaque string parameters.
- The user agent, the form fields and the credentials are parameters.
- The storage slot holds the parsed object as a value. A present field may
  hold `null`, which is modelled as nested `Option`s.
- `!state.selectedBank` is falsy for both `null` and the empty string, so
  `HasBank` requires a non-empty bank name.
- `details || ...` replaces only the empty string with
  `'No additional details'`.
- `currentTransactionType` is `null` until a form is opened. A submission in
  that state leaves the balance alone, because the `switch` has no matching
  case, and prepends an entry with no type.
- `addTransaction` re-renders the whole log after every prepend
  (`loadTransactions`). The rendering reads `tx.type.charAt(0)`, which throws
  on an entry whose type is `null`. The model keeps the part of the renderer
  that can throw (`AppState.LoadTransactions`) and reports the throw as
  `false`, or as the outcome `RenderError`. After the throw, nothing in the
  handler runs: a submission then keeps its entry and its balance change, but
  is not saved and does not clear the bank. The untyped entry stays in the
  log, so every later `addTransaction` throws as well.
- app.js:228 checks only a withdraw against the balance, so a transfer can
  make the balance negative.
- app.js:240 writes every form entry with status `completed`; no other status
  is ever produced.

## Model

| member | source | states |
|---|---|---|
| Ledger.Initial | app.js:4-14 | the starting record: both flags false, zero balance, zero total earned, zero movies, empty log, no form type, no bank |
| App.AppState.constructor | app.js:4-14 | a fresh state equals the default record, and the storage slot holds what an earlier visit left |
| Ledger.PrependShifts | app.js:267-270 | after `addTransaction` the log is one longer, the new entry is at index 0, and every old entry moves one place later unchanged |
| Ledger.Prepend | app.js:268 | the new log is one longer, starts with the new entry and continues with the old log |
| Ledger.Renders | app.js:276-286 | the log renders, that is `loadTransactions` gets through `tx.type.charAt(0)` without throwing, iff every entry in it has a type |
| Ledger.PrependRenders | app.js:267-286 | the log after a prepend renders iff the new entry has a type and the old log rendered |
| App.AppState.LoadTransactions | app.js:272-296 | the walk over the log runs through iff every entry has a type; it stops at the first untyped entry |
| App.AppState.AddTransaction | app.js:267-270 | the log becomes the new entry followed by the old log, and nothing else changes. The result tells whether re-rendering the new log runs through |
| Ledger.RewardEntry | app.js:168-177 | the reward entry is a completed `earning` entry of 100, which adds 100 both to the signed sum and to the rewards |
| Ledger.Credited | app.js:158-160 | the balance and the total earned both rise by 100 and the movie count by one. The log, the session flags, the form type and the selected bank are unchanged |
| Ledger.Watched | app.js:158-177 | the log gains the reward entry in front of the unchanged old log; apart from the log, the record is `Credited` |
| Ledger.WatchedCredits | app.js:156-177 | a reward adds exactly 100 to the balance and to the total earned and 1 to the movies watched. It puts one completed `earning` entry of 100 in front of the unchanged log and changes no other field |
| Ledger.WatchedTwice | app.js:156-160 | watching twice credits 200 and counts two movies, with the two reward entries newest first; there is no guard against re-watching |
| App.AppState.WatchMovie | app.js:156-178 | whatever `movieId` is, the state becomes `Watched` of the old state. The storage slot receives the credited record with the old log, because the source saves before it logs. The result tells whether the re-render of the log ran through |
| App.AppState.WatchMovieSavingAfterLog | app.js:156-178 | the same state change. When the re-render runs through, the storage slot receives the whole new record; when it throws, the slot is untouched |
| Ledger.HasBank | app.js:217 | a null bank and an empty bank name both count as no bank; any non-empty name counts as a bank |
| Ledger.Delta | app.js:246-256 | the balance change agrees with the signed meaning of a completed entry of the same type and amount (+ for deposit, - for withdraw and transfer, 0 without a type); an `earning` form moves nothing |
| Ledger.DetailsOrDefault | app.js:241 | the logged details are never empty. They equal the given details when those are non-empty, and are `No additional details` when they are empty |
| Ledger.FormEntry | app.js:234-243 | the entry carries the form type, the account name and number, the amount and the timestamp, with status `completed`. The bank name is the selected bank upper-cased character by character, and the details are `DetailsOrDefault` of the given ones |
| Ledger.LoggedRecord | app.js:246-268 | after both checks pass, the balance moves by `Delta` of the form type and the amount, and `FormEntry` goes in front of the log; every other field is unchanged |
| Ledger.Transact | app.js:214-264 | the outcome is `NoBankSelected` iff no non-empty bank is selected. It is `InsufficientBalance` iff a bank is selected, the form is a withdraw and the amount exceeds the balance; either rejection leaves the record unchanged. It is `RenderError` iff the submission passes both checks while the form type is null or the log already holds an untyped entry. In that case the bank stays selected |
| Ledger.TransactEffects | app.js:234-261 | on success the balance moves by +amount for a deposit and by -amount for a withdraw or transfer. The reward counters, the flags and the form type are unchanged. Exactly one completed entry is prepended; it is `FormEntry` of the form values: the form type, the account name and number, the amount, the timestamp, the bank upper-cased, and the default details when none were given. The selected bank ends up null |
| Ledger.UntypedEntryBlocksSubmissions | app.js:246-269 | a submission that passes the bank and balance checks, with no form type or made while the log holds an untyped entry, ends in `RenderError`. It still moves the balance and prepends its entry, keeps the bank selected, and leaves an untyped entry in the log |
| Ledger.TransferMayOverdraw | app.js:228-256 | with a bank selected, a transfer larger than the balance is still logged and leaves a negative balance |
| App.AppState.AdjustBalance | app.js:246-256 | the balance moves by `Delta` of the current form type and the amount, and no other field changes |
| App.AppState.HandleTransaction | app.js:214-264 | the outcome and new state are exactly `Transact` of the old state. A rejection or a render error leaves the storage slot alone, and a render error keeps the bank. A success saves the new wallet while the stored bank is still the selected one |
| Ledger.AdminLogin | app.js:59-75 | login succeeds iff the username is `admin` and the password is `admin123`. Success sets both flags and changes no other field; failure changes nothing |
| App.AppState.HandleAdminLogin | app.js:59-75 | the result and new state are exactly `AdminLogin` of the old state. Only a successful login saves |
| Ledger.Logout | app.js:87-89 | both flags become false and no other field changes |
| App.AppState.Logout | app.js:87-94 | the state becomes `Logout` of the old state, and the result is saved |
| Ledger.SessionLeavesWallet | app.js:59-94 | login (successful or not) and logout never change the balance, the counters or the log; a logout after a login gives the same record as a logout alone |
| Ledger.OpenForm | app.js:188-189 | the form type becomes the given kind and nothing else changes |
| App.AppState.OpenTransactionForm | app.js:188-198 | the state becomes `OpenForm` of the old state |
| Ledger.SelectBank | app.js:207-208 | the selected bank becomes the given name and nothing else changes |
| App.AppState.SelectBank | app.js:207-212 | the state becomes `SelectBank` of the old state |
| Ledger.CloseForm | app.js:200-205 | the selected bank becomes null and nothing else changes |
| App.AppState.CloseTransactionForm | app.js:200-205 | the state becomes `CloseForm` of the old state |
| Ledger.BankSelection | app.js:207-220 | selecting a bank enables a transaction iff its name is non-empty. After the form is closed, any submission, whatever its form values, is rejected with `NoBankSelected` |
| App.AppState.SaveState | app.js:353-355 | the storage slot holds every field of the current state |
| App.AppState.LoadState | app.js:357-362 | with an empty slot nothing changes; otherwise the state becomes the stored object overlaid on the current one |
| Ledger.Full | app.js:354 | loading what was saved into a fresh page restores exactly the saved record |
| Ledger.Merge | app.js:360 | overlaying an empty stored object leaves the current record unchanged |
| Ledger.MergeFieldwise | app.js:360 | each field of the merge is the stored value when that field is present, and the current value otherwise |
| Ledger.MergeLaws | app.js:353-361 | a record saved whole replaces the current one entirely, and an empty stored object changes nothing. Loading the same object twice equals loading it once. Saving right after a load writes the stored object back unchanged |
| Ledger.SignedSumAppend | app.js:267-268 | the signed balance sum and the reward sum of a concatenated log are the sums of the two parts |
| Ledger.InitialConsistent | app.js:4-14 | the starting record satisfies the bookkeeping invariant |
| Ledger.WatchedKeepsConsistent | app.js:156-177 | a movie reward preserves the bookkeeping invariant |
| Ledger.TransactKeepsConsistent | app.js:214-264 | every outcome of a submitted form preserves the bookkeeping invariant |
| Ledger.StepLogsNewestFirst | app.js:156-270 | each action adds at most one log entry, in front of the unchanged log; an action that does not log leaves the log unchanged |
| Ledger.StepKeepsFormType | app.js:188-264 | no action other than opening an `earning` form makes the form type `earning` |
| Ledger.StepLedger | app.js:156-264 | an action that logs moves the balance by the entry's signed amount and the total earned by its reward; any other action moves neither |
| Ledger.RunKeepsConsistent | app.js:59-270 | any sequence of in-page actions (no reload) that opens no `earning` form keeps the bookkeeping invariant |
| Ledger.RunLedger | app.js:59-270 | after any sequence of actions the old log lies below exactly one new entry per logging action, newest first. The balance has moved by the signed sum of the new entries, and the total earned by the sum of their rewards |
| Ledger.StoredByWatchAsWritten | app.js:158-162 | what the save inside `watchMovie` writes: the balance and total earned already raised by 100 and the movie count by one, but the old log; loaded into the default record it gives `Credited` of the old record |
| Ledger.WatchReloadLosesEntry | app.js:156-177 | as written, reloading the page (the default record overlaid with the stored one) right after a reward brings back the credit without its entry, so a consistent ledger comes back inconsistent |
| Ledger.WatchReloadKeepsEntry | app.js:156-177 | when the save comes after the log, a reload restores exactly the record in memory, which stays consistent |
| Ledger.TransactStoredWallet | app.js:258-261 | after a successful submission, reloading restores the wallet in memory but brings back the bank that was selected before the form closed |
| Ledger.FirstMovieScenario | app.js:156-177 | from the initial record one movie gives balance 100, total earned 100, one movie watched and a single `earning` entry of 100 |
| Ledger.WithdrawScenarios | app.js:228-256 | with 100 in the wallet, withdrawing 150 is refused and changes nothing. Withdrawing 40 leaves 60 and logs one completed withdraw of 40; it ends in `Done` iff the old log renders |
| Ledger.UntypedSubmissionScenario | app.js:214-269 | from the initial record with a bank chosen and no form type, a submission ends in `RenderError`. The balance stays 0, the bank stays selected, and the log holds one untyped entry |
| Text.Contains | app.js:321-324 | `includes` is true iff the marker occurs at some position of the string |
| Text.Upper | app.js:236 | upper-casing keeps the length and maps each character through `UpperChar` |
| Text.UpperChar | app.js:236 | the result is never a lower-case ASCII letter; a lower-case letter moves to its capital and any other character is unchanged |
| Text.UpperIdempotent | app.js:236 | upper-casing an upper-cased bank name changes nothing |
| Text.UpperFixesCapitals | app.js:236 | the upper-cased name has no lower-case letter, and a name without one is left unchanged |
| Device.DeviceName | app.js:319-326 | the label is one of five. It is Windows iff "Windows" occurs. Otherwise it is Mac iff "Mac" occurs, then Android iff "Android" occurs, then iOS iff "iOS" occurs. It is Unknown iff none occurs |
| Device.WindowsShadowsLaterMarkers | app.js:321 | any user agent containing "Windows" is labelled a Windows device, whatever else it contains |
| Device.IPhoneIsLabelledMac | app.js:322-324 | the sample iPhone user agent, which ends in "like Mac OS X", is labelled a Mac device, not an iOS device |

## Findings

| source | as written | input that shows it | evidently intended | confidence | as-written member | corrected member |
|---|---|---|---|---|---|---|
| app.js:158-177 | `watchMovie` calls `saveState()` before `addTransaction(...)`, so the stored record has the reward credited but not its log entry | start from the initial record, watch one movie, reload the page. The balance is 100 and the total earned 100, but the log is empty | log the reward before saving, so that the stored record matches the one in memory | medium, not executed | App.AppState.WatchMovie, Ledger.WatchReloadLosesEntry | App.AppState.WatchMovieSavingAfterLog, Ledger.WatchReloadKeepsEntry |

The latest reward's entry is missing from storage until the next
`saveState`: a successful login, a logout, another reward or a successful
submission. Opening a form, choosing a bank, closing the form, a failed
login and a rejected or throwing submission do not save, so a reload after
any of them still brings back the credit without its entry.

## Left out

- DOM reads and writes are not modelled, and neither are rendering, notifications and their timers. This covers `showDashboard`, `showSection`, `loadMovies`, `createMovieCard`, the table rows that `loadTransactions` builds, `updateWalletDisplay`, `updateDeviceInfo`, `showNotification`, the modal helpers and the hourly `setInterval`. They change no ledger field.
- The rendering at page load (`showDashboard` calling `loadTransactions`) is not modelled. It throws on a stored log that holds an untyped entry, but changes no state.
- JSON encoding and the `localStorage` calls are not modelled: the storage slot holds the parsed object as a value.
- `deviceInfo` and its generators (`initializeDeviceTracking`, `generateRandomIP`, `generateDeviceID`, `generateRandomIMEI`) are left out because they are random. So is the shuffle at app.js:133.
- The `DOMContentLoaded` hook is left out. It is only the call sequence `LoadState`, device tracking, then show the dashboard.
- The movie catalogue (app.js:17-39) is static data and is left out.
- `parseFloat` is not modelled: a form amount is an `int`. So `NaN`, fractions and `toFixed` formatting are not captured.
- Text.UpperChar: maps only the ASCII letters a-z, whereas `toUpperCase` also maps non-ASCII lower-case letters ("é" becomes "É"). Under the same restriction, the second clause of `Text.UpperFixesCapitals` ("a name without a lower-case letter is unchanged") holds only for ASCII lower case.
- Text.Upper: maps only the 26 ASCII letters, whereas JavaScript's `toUpperCase` also maps non-ASCII letters and can lengthen a string ("ß" becomes "SS").
- The server-side handlers of the repository (JSON file store, transfer status moving from `processing` to `completed`) are not part of this model.
