# Wallet and DApp browser: verified model of the client-side logic

This project models, in Dafny, the parts of a mobile crypto-wallet demo app
that carry actual logic:

- **the browser store** (`store/browserStore.ts`): the page `history`
  (newest first, every load kept) and `visitedDapps` (newest first, each URL
  once), with the actions `addToHistory`, `addVisitedDapp` and
  `clearHistory`. It is a class `BrowserStore.Store` with two `seq` fields;
  the same state and actions also exist as values (`BrowserState`, `Action`,
  `Step`, `Run`) so that whole runs of actions can be reasoned about;
- **the DApp screen** (`app/dapp.tsx`): a class `DAppScreen.Screen` holding
  `currentUrl`, `displayUrl` and `isLoading`, with the address-bar
  normalisation (`https://` added unless the text starts with `http`), the
  rule deciding which page loads are recorded, and the Home button. The store
  calls a load makes are returned as `BrowserStore.Action` values, and
  `LoadEffect` states what they do to the store;
- **the mission card** (`components/MissionCard.tsx`): the countdown text
  ("Expired" or "<h>h <m>m remaining" in whole hours and minutes) and the
  busy-flag guarded button that completes a mission or claims its reward.
  The missions store is not part of this model; the card's call into it is
  returned as a `MissionCall` value;
- **address shortening** (`components/WalletHeader.tsx`): first six
  characters, `...`, last four, with JavaScript's clamping of `substring`
  arguments. The same expression appears at
  `components/TransactionItem.tsx:49`, `app/send.tsx:54` and
  `app/(tabs)/profile.tsx:52`; `WalletHeader.FormatAddress` is the one
  definition;
- **the transaction row** (`components/TransactionItem.tsx`): icon, title,
  subtitle, amount sign and amount colour chosen by the transaction type.

`JsText` holds the ECMAScript string operations these rely on (`substring`,
`startsWith`, decimal rendering of a whole number); `Wrappers` holds `Option`.
The current time (`Date.now()`) is a parameter wherever the source reads it.

## Model

| member | source | states |
|---|---|---|
| `BrowserStore.Store.constructor` | store/browserStore.ts:19-21 | both lists start empty and the no-duplicates invariant holds |
| `BrowserStore.Store.AddToHistory` | store/browserStore.ts:22-26 | the entry is prepended, older entries follow in their old order, the length grows by exactly one, `visitedDapps` is unchanged, invariant kept |
| `BrowserStore.Store.AddVisitedDapp` | store/browserStore.ts:27-33 | a URL already listed leaves the list unchanged, a new one is prepended; `history` is unchanged; no URL is ever listed twice |
| `BrowserStore.Store.ClearHistory` | store/browserStore.ts:34-36 | `history` becomes empty and `visitedDapps` is unchanged |
| `BrowserStore.Visit` | store/browserStore.ts:29-31 | the visited list afterwards holds exactly the old URLs plus the new one, grows by one iff the URL was new, keeps the old list as its tail in order, and keeps it duplicate-free |
| `BrowserStore.VisitIdempotent` | store/browserStore.ts:29-31 | visiting a URL twice gives the same list as visiting it once |
| `BrowserStore.StepFrame` | store/browserStore.ts:22-36 | each action touches only its own field |
| `BrowserStore.RunKeepsNoDuplicates` | store/browserStore.ts:27-33 | every sequence of actions preserves "no URL listed twice" |
| `BrowserStore.ReachableHasNoDuplicates` | store/browserStore.ts:19-33 | from the initial store, `visitedDapps` never holds duplicates |
| `BrowserStore.RunVisitedExactly` | store/browserStore.ts:27-33 | after any run, a URL is listed iff it was listed before or some action visited it |
| `BrowserStore.RunHistory` | store/browserStore.ts:19-36 | after any run from the initial store, `history` is exactly the entries added since the last clear, newest first, none dropped or merged |
| `DAppScreen.NormalizeUrl` | app/dapp.tsx:35-37 | empty stays empty; text starting with `http` passes unchanged; other text gets `https://` prepended; a non-empty result always starts with `http` |
| `DAppScreen.NormalizeUrlIdempotent` | app/dapp.tsx:35-37 | normalising twice is normalising once |
| `DAppScreen.HostStartingWithHttpKeptAsIs` | app/dapp.tsx:35 | a worked example of the plain prefix test on two fixed inputs: `httpbin.org` is kept without a scheme, `example.org` gets one |
| `DAppScreen.LoadCalls` | app/dapp.tsx:50-60 | no store call for an empty or `about:blank` URL; otherwise one history entry (the URL, the page title or the URL when the title is empty, no favicon, the current time, `isDapp` true) then one visited-DApp call for the URL |
| `DAppScreen.LoadEffect` | app/dapp.tsx:50-60 | applied to any store, a recorded load adds exactly one history entry in front and visits the URL; any other load leaves the store unchanged |
| `DAppScreen.Screen.constructor` | app/dapp.tsx:14-16 | `currentUrl` and `displayUrl` both start at the route parameter, and a load is pending |
| `DAppScreen.Screen.HandleUrlChange` | app/dapp.tsx:27-29 | editing the address bar changes only `displayUrl` |
| `DAppScreen.Screen.HandleUrlSubmit` | app/dapp.tsx:31-42 | an empty address leaves `currentUrl` as it was; otherwise `currentUrl` becomes the normalised address; `displayUrl` and `isLoading` unchanged |
| `DAppScreen.Screen.HandleLoad` | app/dapp.tsx:44-62 | `displayUrl` becomes the loaded URL and `isLoading` false for every load, `about:blank` included; the store calls issued are those of `LoadCalls` |
| `DAppScreen.Screen.HandleLoadStart` | app/dapp.tsx:64-66 | `isLoading` becomes true, nothing else changes |
| `DAppScreen.Screen.HandleLoadEnd` | app/dapp.tsx:68-70 | `isLoading` becomes false, nothing else changes |
| `DAppScreen.Screen.HandleHome` | app/dapp.tsx:89-91 | `currentUrl` returns to the route parameter the screen opened with |
| `MissionCard.Dispatch` | components/MissionCard.tsx:24-29 | the call goes to the mission's id; it claims the reward iff the mission is completed and completes it iff not |
| `MissionCard.HoursMinutes` | components/MissionCard.tsx:41-42 | minutes are below 60 and `h*3600000 + m*60000 <= remaining < h*3600000 + (m+1)*60000`: never over-reports, short by under a minute |
| `MissionCard.HoursMinutesUnique` | components/MissionCard.tsx:41-42 | those bounds determine the hours and minutes: any pair meeting them is the computed one |
| `MissionCard.DisplayInjective` | components/MissionCard.tsx:44 | different hours or minutes give different countdown texts |
| `MissionCard.GetTimeRemaining` | components/MissionCard.tsx:35-45 | the text is "Expired" iff `expires - now <= 0`; otherwise it is `<h>h <m>m remaining` for whole hours `h` and minutes `m < 60` with `h*3600000 + m*60000 <= expires - now < h*3600000 + (m+1)*60000` |
| `MissionCard.TimeRemainingIsWholeMinutes` | components/MissionCard.tsx:37-44 | two unexpired countdowns read the same iff the same number of whole minutes is left |
| `MissionCard.Card.constructor` | components/MissionCard.tsx:15 | a card starts not busy |
| `MissionCard.Card.Start` | components/MissionCard.tsx:17-29 | while busy nothing is issued; otherwise the card becomes busy and issues the call `Dispatch` chooses |
| `MissionCard.Card.Finish` | components/MissionCard.tsx:30-32 | the busy flag is cleared whether or not the call threw, and a thrown exception propagates |
| `MissionCard.Card.HandleAction` | components/MissionCard.tsx:17-33 | a press on a busy card does nothing; otherwise exactly the `Dispatch` call is made, the card ends not busy, and an exception from the call propagates |
| `MissionCard.DoublePressDispatchesOnce` | components/MissionCard.tsx:18-21 | a second press while the first call is outstanding issues nothing |
| `MissionCard.PressAfterFailureDispatchesAgain` | components/MissionCard.tsx:17-33 | after a call that threw, the next press issues the call again |
| `JsText.Substring` | components/WalletHeader.tsx:33 | `substring` clamps both arguments into the string and takes the characters between them in either order; in range it is the plain slice |
| `JsText.NumberToString` | components/MissionCard.tsx:44 | a whole number renders as at least one decimal digit, without leading zero, that reads back as the number |
| `WalletHeader.FormatAddress` | components/WalletHeader.tsx:32-34 | the result is the first `min(6, len)` characters, `...`, then the last `min(4, len)` characters |
| `WalletHeader.FormatAddressParts` | components/WalletHeader.tsx:33 | for every length, the text before `...` is a prefix of the address and the text after it a suffix |
| `WalletHeader.FormatLongAddress` | components/WalletHeader.tsx:33 | from length 10 on: first 6 characters, `...`, last 4, 13 characters in all, and only the middle is left out |
| `WalletHeader.FormatLongAddressKeepsEnds` | components/WalletHeader.tsx:33 | two addresses of length 10 or more display the same iff their first six and last four characters agree |
| `WalletHeader.FormatShortHead` | components/WalletHeader.tsx:33 | under 6 characters the whole address stands before `...` |
| `WalletHeader.FormatShortAddress` | components/WalletHeader.tsx:33 | under 4 characters the whole address stands on both sides of `...` |
| `WalletHeader.FormatOverlap` | components/WalletHeader.tsx:33 | from 6 to 9 characters the head and tail overlap and the shared characters are shown twice |
| `TransactionItem.GetIcon` | components/TransactionItem.tsx:13-28 | send, receive, earn, stake and unstake get ArrowUpRight/error, ArrowDownRight/success, Coins/primary, LockKeyhole/secondary and Unlock/warning; the clock icon in the secondary text colour is used iff the type is none of the five known ones |
| `TransactionItem.IconIdentifiesKind` | components/TransactionItem.tsx:13-28 | the five known types get five different icons; all other types share one |
| `TransactionItem.GetTitle` | components/TransactionItem.tsx:30-45 | send/receive/earn/stake/unstake map to Sent/Received/Earned/Staked/Unstaked, each iff, and any other type to "Transaction" |
| `TransactionItem.TitleIdentifiesKind` | components/TransactionItem.tsx:30-45 | two types get the same title iff they are the same known type or both unknown |
| `TransactionItem.GetSubtitle` | components/TransactionItem.tsx:47-62 | a non-empty address gives the shortened address whatever the type; otherwise earn/stake/unstake give "DNS Earning"/"Staking Rewards"/"Unstaking" and every other type the local date of the timestamp |
| `TransactionItem.GetAmountStyle` | components/TransactionItem.tsx:89-91 | negative exactly for send, positive exactly for receive/earn/unstake, neutral otherwise |
| `TransactionItem.GetAmountSign` | components/TransactionItem.tsx:93-94 | "-" exactly for send, "+" exactly for receive/earn/unstake, empty for stake and unknown types |
| `TransactionItem.StyleColour` | components/TransactionItem.tsx:142-150 | the negative, positive and neutral styles are drawn in the error, success and text colours, each iff |
| `TransactionItem.AmountColour` | components/TransactionItem.tsx:89-91 | the amount is in the error colour exactly for send, the success colour exactly for receive/earn/unstake, and the text colour otherwise |
| `TransactionItem.SignMatchesStyle` | components/TransactionItem.tsx:89-94 | the sign and the colour style always agree |

## Left out

- The earning, wallet and missions stores (`store/earningStore.ts`,
  `store/walletStore.ts`, `store/missionsStore.ts`): their bodies are
  placeholder comments, so accrual, claiming, staking, boosters, mission
  refresh and `sendToken` have no code to model. `completeMission` and
  `claimMissionReward` appear only as the `MissionCall` values the card issues.
- Navigation and the web view (`app/dapp.tsx`: back, forward, reload, stop,
  close, `canGoBack`/`canGoForward`), router calls, alerts, haptic feedback and
  the timer that hides the "Copied" badge: UI and I/O with no logic of their own.
- `getDisplayUrl` in `components/BrowserControls.tsx` calls the WHATWG URL
  parser, a foreign library.
- The send form's amount checks and USD estimate (`app/send.tsx`): they use
  `parseFloat` and `toFixed`, i.e. floating point, including NaN.
- `app/(tabs)/browser.tsx` also adds to the browser store; that screen is not
  part of this model (its calls would be further `BrowserStore.Action` values).
- Local date formatting (`toLocaleString`): a subtitle in that case is
  `LocaleDate(timestamp)`, not a string; the amount text itself
  (`{amount} {token}`) needs number formatting and is not modelled.
- MissionCard.GetTimeRemaining: `expires` and the current time are whole milliseconds
  and unbounded; fractional values and the precision loss of doubles beyond
  2^53 are not modelled.
- MissionCard.Card.HandleAction: the busy flag is read from the card's
  current state; React's deferred state updates (a handler seeing a stale
  `isLoading` before the next render) are not modelled.
- WalletHeader.FormatAddress: strings are sequences of Dafny characters, not
  UTF-16 code units, so a surrogate pair counts as one character here.
- A missing page title or loaded URL (`undefined`) is modelled as the empty
  string, which JavaScript treats the same way in these `||` and `if` tests;
  a missing transaction address is `None` and is treated like `Some("")`.
