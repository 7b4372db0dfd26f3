# Arrow Signals web client — a Dafny model of its client-side logic

The Arrow Signals web client is a React dashboard over a REST backend for trading
signals. Users sign in, browse instruments ("scripts") with their latest buy/sell
signal, and admins create markets, scripts and signals. This project models the
parts of the client that decide something:

- **Markets & Exchanges page** (`Markets`). The fetched list of instruments is split
  into `openSignals` and `closedSignals`. An item is kept when its status matches
  exactly, its market matches the selected market type (an empty type matches
  anything), and its signal type matches the selected action (an empty action matches
  anything). The module also models the market buttons, which toggle the type filter,
  and the action and time selects. The lists are modelled as a recursive `Filter` on
  sequences. The lemmas prove that the filter is sound, that it keeps the original
  order (`IsSubsequence`), and that it keeps every occurrence of accepted items and
  none of the others. They also prove idempotence, disjointness of the two lists,
  exclusion of every other status, and that with both filters empty and only
  "Open"/"Closed" statuses the two lists together cover the input.
- **Signal card** (`CommodityCard`). The label of a creation time is chosen from
  four branches in a fixed order: today, yesterday, same week, date. The card's
  status cell falls back to "Open" when the status is empty.
- **Login page** (`Login`). `IsEmail` decides the e-mail regular expression
  `^[a-zA-Z0-9._%+-]+@[a-zA-Z0-9.-]+\.[a-zA-Z]{2,}$` by finding the first '@' and the
  last '.'. It is proved equal to the regex's meaning, `MatchesEmailRegex`: some
  placement of the literal '@' and '.' with each part in its character class. The
  module also models the form validator and its two independent messages, the submit
  logic, and the decision taken on the sign-in answer.
- **Admin forms** (`AddSignal`, `AddScript`, `AdminHome`). Each `onChange` handler
  is a record update. Lookups by name take the first match (`Common.FindByName`).
  The action and status handlers refuse a value equal to the select's placeholder
  text. The placeholder option itself carries the empty value, which is stored like
  any other. The request payloads drop the
  UI-only name field. A success resets the form and an error keeps it.

The status select of both signal forms offers "Open" and "Close", while the markets
page lists only "Open" and "Closed". `AddSignal.CloseOptionNeverListed` proves that a
row whose latest signal carries the status the "Close" option sends appears in neither
list. The add-signal dialog and the admin page both set that status through
`AddSignal.ChooseStatus` and send it in the same `status` field. The lemma assumes the
backend returns the status exactly as it was sent.

Each page whose handlers update component state is a class. Its fields are the
state variables and its methods are the handlers. Each method's postcondition gives
the new state in terms of the old one, through pure functions whose properties are
proved separately. Network answers are parameters: the `error` flag of a response
body, or the `statusCode`, `token` and `userData` of the sign-in answer. Numeric
signal fields are `int`. A numeric text box is `Common.NumberInput`, either `Blank`
or `Typed(n)`, and a blank box reads as 0. In the add-signal dialog that 0 comes from
the explicit `value === "" ? 0 :` guard in front of `parseFloat`, since
`parseFloat("")` is NaN. On the admin page it comes from `Number("")`, which is 0.

Time in `CommodityCard` is abstracted to day indices. "Today" is `day == now` and
"yesterday" is `day == now - 1`. The answer of the date library's same-week test is
a parameter. So are the weekday, time-of-day, ordinal-day and month texts.

`AdminHome` reuses `AddSignal.SignalData` and the select and lookup rules of
`AddSignal`. The two source files declare the same `SignalSchema` and the same
script, type and status select handlers. Their number handlers, number display and
`handleSignal` differ: see the `OnNumberChange` and `HandleSignal` rows. The
admin page's script list also lacks the `emoji` field.

## Model

| member | source | states |
|---|---|---|
| `Common.FindByName` | src/components/addSignal.tsx:180-182 | `find` by name returns nothing exactly when no entry has the name, and otherwise the entry at the first position holding that name |
| `Common.ReadNumber` | src/components/addSignal.tsx:106-107 | a number box reads as 0 exactly when it is empty or holds 0, and as its number otherwise |
| `Common.Shown` | src/components/addSignal.tsx:217 | `field === 0 ? "" : field`: the box is empty exactly when the field is 0, and reads back as the field |
| `Common.ShownRoundTrip` | src/components/addSignal.tsx:217 | a stored number shown in its box (0 as an empty box) reads back as itself; a box read and shown again is unchanged unless it held a typed 0 |
| `Markets.Filter` | src/pages/markets.tsx:71-83 | the shared `data.filter` of both lists: never longer than the fetched list, and each item occurs in it no more often than in the fetched list |
| `Markets.MarketsPage.OpenSignals` | src/pages/markets.tsx:71-76 | `openSignals` is an order-keeping subsequence of `data` whose items are all "Open" and match the non-empty type and action filters, and it holds every occurrence of every such row |
| `Markets.MarketsPage.ClosedSignals` | src/pages/markets.tsx:78-83 | `closedSignals` is an order-keeping subsequence of `data` whose items are all "Closed" and match the non-empty type and action filters, and it holds every occurrence of every such row |
| `Markets.FilterSound` | src/pages/markets.tsx:71-83 | every element of a filtered list has the required status, the selected market unless the type is empty, and the selected action unless the action is empty |
| `Markets.FilterIsSubsequence` | src/pages/markets.tsx:71-83 | each list is a subsequence of the fetched list and keeps its relative order |
| `Markets.FilterCounts` | src/pages/markets.tsx:71-83 | each list holds every occurrence of every accepted item and no occurrence of any other item |
| `Markets.FilterIdempotent` | src/pages/markets.tsx:71-76 | filtering `openSignals` again with the same predicate returns it unchanged |
| `Markets.ListedItemsMatchFilters` | src/pages/markets.tsx:73-82 | open signals are "Open", closed ones "Closed"; a non-empty type equals every listed market exactly and a non-empty action every listed signal type |
| `Markets.OpenClosedDisjoint` | src/pages/markets.tsx:71-83 | no item is in both lists |
| `Markets.OtherStatusNeverListed` | src/pages/markets.tsx:73-80 | an item whose status is neither "Open" nor "Closed" is in neither list, for all filter values |
| `Markets.EmptyFiltersSelectByStatus` | src/pages/markets.tsx:74-82 | with empty type and action, each list is exactly the ordered subsequence of items with that status |
| `Markets.OpenClosedCover` | src/pages/markets.tsx:71-83 | the lists together never exceed the fetched list; with empty filters and only "Open"/"Closed" statuses they account for every item |
| `Markets.MarketsPage.constructor` | src/pages/markets.tsx:34-37 | initial state: no type, time "This week", no action, empty list |
| `Markets.MarketsPage.SetData` | src/pages/markets.tsx:47 | the fetched list replaces `data` |
| `Markets.MarketsPage.PressMarketButton` | src/pages/markets.tsx:106-131 | pressing button B sets the type to "" when it was B and to B otherwise, so the type is B afterwards exactly when it was not before |
| `Markets.MarketsPage.HandleActionChange` | src/pages/markets.tsx:62-69 | "All" stores "", any other value is stored as it is |
| `Markets.MarketsPage.HandleTimeChange` | src/pages/markets.tsx:57-60 | the time is stored and neither list changes |
| `CommodityCard.BucketOf` | src/components/commodityCard.tsx:57-68 | exactly one branch is taken: today iff the same day, yesterday iff the previous day, same week iff neither but in the week, otherwise the date |
| `CommodityCard.FormatCreatedAt` | src/components/commodityCard.tsx:48-69 | "Today " + time, "Yesterday " + time, weekday + ", " + time, or ordinal day + " " + month, according to the branch taken |
| `CommodityCard.TodayPrecedesWeekday` | src/components/commodityCard.tsx:57-61 | a timestamp of today is labelled "Today ..." whatever the same-week answer |
| `CommodityCard.TimeShownUnlessDated` | src/components/commodityCard.tsx:57-67 | every label except the date label ends with the time text; the date label does not depend on it |
| `CommodityCard.StatusCell` | src/components/commodityCard.tsx:120 | the status cell is never empty: the status itself when non-empty, "Open" otherwise |
| `CommodityCard.CardAndModalAgree` | src/components/commodityCard.tsx:229 | the modal's raw status equals the card's cell exactly when the status is non-empty |
| `Login.IsEmail` | src/pages/login.tsx:29 | `emailRegex.test`: an accepted string has at least six characters and ends with a letter; `Login.EmailMatchesRegex` proves it is exactly the regex |
| `Login.EmailMatchesRegex` | src/pages/login.tsx:29 | the first-'@'/last-'.' decision accepts exactly the strings the e-mail regex matches |
| `Login.EmailHasOneAt` | src/pages/login.tsx:29 | an accepted address holds exactly one '@' |
| `Login.UsernameOk` | src/pages/login.tsx:53-56 | the username check passes exactly the strings the e-mail regex matches; its separate test for "" never changes the answer |
| `Login.PasswordOk` | src/pages/login.tsx:62 | the password check fails only for the empty string; no length, character or whitespace rule applies |
| `Login.SignInDecision` | src/pages/login.tsx:101-114 | a present `statusCode` stores nothing and does not navigate. Without it the token (or "ERROR") is always stored. With a `userData` object the user id (or "ERROR") is stored too and the route is "/". Without one, reading its `id` throws, so no user id is stored and there is no navigation |
| `Login.LoginPage.constructor` | src/pages/login.tsx:31-40 | empty form, no errors, not loading |
| `Login.LoginPage.HandleFormUpdate` | src/pages/login.tsx:44-49 | only the key `name` of the form changes |
| `Login.LoginPage.ValidateForm` | src/pages/login.tsx:51-69 | true iff the username is a non-empty e-mail and the password is non-empty; each failing check sets its own message only, both can fail in one call |
| `Login.LoginPage.ResetFormErrorDefault` | src/pages/login.tsx:71-76 | both messages become "" |
| `Login.LoginPage.SubmitLoginForm` | src/pages/login.tsx:77-97 | after a submit the messages reflect the current form only; a request carrying the form is issued exactly when it is valid, and only then does loading start |
| `Login.LoginPage.HandleSignInResponse` | src/pages/login.tsx:98-115 | loading stops and the sign-in decision is taken on the answer |
| `AddSignal.Payload` | src/components/addSignal.tsx:79 | the request body, from which the form is restored by putting back `selectedScriptName` |
| `AddSignal.PayloadDropsOnlyScriptName` | src/components/addSignal.tsx:79 | rebuilding a form from a payload and a name and taking its payload gives the payload back, and two forms have equal payloads iff they differ at most in `selectedScriptName` |
| `AddSignal.WithNumber` | src/components/addSignal.tsx:108 | the named numeric key takes the value; every other key and field is unchanged |
| `AddSignal.SelectScript` | src/components/addSignal.tsx:178-194 | a known name sets `Script.connect.id` from the first script with that name and `selectedScriptName`, nothing else; an unknown name or no list changes nothing |
| `AddSignal.ChooseAction` | src/components/addSignal.tsx:231-237 | "Select the Action" is ignored; any other value replaces only `type` |
| `AddSignal.ChooseStatus` | src/components/addSignal.tsx:295-301 | "Select the Status" is ignored; any other value replaces only `status` |
| `AddSignal.CloseOptionNeverListed` | src/components/addSignal.tsx:304-305 | a row whose latest signal carries the status the "Close" option sends, as returned unchanged by the backend, is in neither list of the markets page |
| `AddSignal.AddSignalForm.constructor` | src/components/addSignal.tsx:62-63 | the form starts as `initialSignalData`, the script list unfetched |
| `AddSignal.AddSignalForm.GetScriptData` | src/components/addSignal.tsx:65-76 | the fetched script list replaces the stored one |
| `AddSignal.AddSignalForm.OnScriptChange` | src/components/addSignal.tsx:178-195 | the form becomes `SelectScript` of the old form |
| `AddSignal.AddSignalForm.OnTypeChange` | src/components/addSignal.tsx:231-238 | the form becomes `ChooseAction` of the old form |
| `AddSignal.AddSignalForm.OnStatusChange` | src/components/addSignal.tsx:295-302 | the form becomes `ChooseStatus` of the old form |
| `AddSignal.AddSignalForm.HandleSignalNumberChange` | src/components/addSignal.tsx:102-109 | only the named key changes, and an empty box stores 0 |
| `AddSignal.AddSignalForm.Displayed` | src/components/addSignal.tsx:217 | a numeric box is empty exactly when its field is 0, and reads back as the field |
| `AddSignal.AddSignalForm.HandleSignal` | src/components/addSignal.tsx:78-100 | the payload is the old form without the script name; success resets to `initialSignalData`, an error keeps the form |
| `AddScript.Payload` | src/components/addScript.tsx:80 | the request body, from which the form is restored by putting back `marketName` |
| `AddScript.PayloadDropsOnlyMarketName` | src/components/addScript.tsx:80 | rebuilding a form from a payload (name, Market, emoji) and a market name and taking its payload gives the payload back, and equal payloads iff the forms differ at most in `marketName` |
| `AddScript.SelectMarket` | src/components/addScript.tsx:197-213 | a known name sets `Market.connect.id` from the first market with that name and `marketName` to it, nothing else; an unknown name or no list changes nothing |
| `AddScript.AddScriptForm.constructor` | src/components/addScript.tsx:49-56 | initial script form, picker closed, empty market form, no market list |
| `AddScript.AddScriptForm.GetMarkets` | src/components/addScript.tsx:62-77 | the market list is replaced only by an answer without error |
| `AddScript.AddScriptForm.OnNameChange` | src/components/addScript.tsx:180-185 | only `name` changes |
| `AddScript.AddScriptForm.OnMarketChange` | src/components/addScript.tsx:197-214 | the form becomes `SelectMarket` of the old form |
| `AddScript.AddScriptForm.TogglePicker` | src/components/addScript.tsx:227 | the picker flag is negated |
| `AddScript.AddScriptForm.OnEmojiSelect` | src/components/addScript.tsx:126-132 | only `emoji` changes, to the unified code, and the picker closes |
| `AddScript.AddScriptForm.HandleScript` | src/components/addScript.tsx:79-97 | the payload omits `marketName`; success resets to `initialScriptData`, an error keeps the form |
| `AddScript.AddScriptForm.OnMarketFormNameChange` | src/components/addScript.tsx:266-271 | the market form's name takes the typed value |
| `AddScript.AddScriptForm.HandleMarket` | src/components/addScript.tsx:99-119 | success clears the market name and asks for the market list again; an error keeps the form and asks for nothing |
| `AdminHome.AdminHomePage.constructor` | src/pages/adminHome.tsx:95-102 | script form `{name: "", market: "Forex"}`, signal form `initialSignalData`, no script list |
| `AdminHome.AdminHomePage.GetScriptData` | src/pages/adminHome.tsx:111-121 | the fetched script list replaces the stored one |
| `AdminHome.AdminHomePage.OnScriptNameChange` | src/pages/adminHome.tsx:244-249 | only the script form's name changes |
| `AdminHome.AdminHomePage.OnScriptMarketChange` | src/pages/adminHome.tsx:261-266 | only the script form's market changes |
| `AdminHome.AdminHomePage.HandleScript` | src/pages/adminHome.tsx:135-157 | the whole script form is sent; success resets it to `{name: "", market: "Forex"}`, an error keeps it; the script list is requested again either way |
| `AdminHome.AdminHomePage.OnScriptChange` | src/pages/adminHome.tsx:291-307 | the signal form becomes `SelectScript` of the old form |
| `AdminHome.AdminHomePage.OnTypeChange` | src/pages/adminHome.tsx:349-356 | the signal form becomes `ChooseAction` of the old form |
| `AdminHome.AdminHomePage.OnStatusChange` | src/pages/adminHome.tsx:422-429 | the signal form becomes `ChooseStatus` of the old form |
| `AdminHome.AdminHomePage.OnNumberChange` | src/pages/adminHome.tsx:332-337 | only the named numeric key changes, to `Number(value)`, 0 for an empty box |
| `AdminHome.AdminHomePage.HandleSignal` | src/pages/adminHome.tsx:159-179 | the whole signal form is sent, `selectedScriptName` included, unlike `AddSignal.AddSignalForm.HandleSignal`; success resets to `initialSignalData`, an error keeps the form |

## Left out

- HTTP requests (`fetch`, axios), `async`/`await` ordering, toasts, `localStorage`, `navigate` and console logging: responses are parameters (the body's `error` flag, or the sign-in answer's `statusCode`, `token` and `userData`), and the decision is returned as a value.
- Rendering, layout, styling and opening/closing of modals.
- The date library (`isToday`, `isYesterday`, `isSameWeek`, `format`) and `toLocaleTimeString`: days are integers, "today" and "yesterday" are `day == now` and `day == now - 1`, the same-week answer and all texts are parameters. Ordinal suffixes, the week-start convention and time zones (the day tests use the local zone while the time text uses Asia/Kolkata) are not modelled.
- `parseFloat` and `Number` on non-numeric text (NaN) and fractional prices: numbers are `int`, and only the rule that an empty box reads as 0 is kept.
- The `time` select of the markets page: its value is stored and, as in the source, used by neither list; no time-window filter exists.
- Rows without a `latestSignal`: the source would fail on them at src/pages/markets.tsx:73, and the model makes the field mandatory, as the row type does.
- `AddScript.SelectMarket` and `AddSignal.SelectScript` read only the `id` and `name` of a fetched entry; the `emoji` of the script list is not modelled.
- The HTTP wrapper, the subscription card, the static home page, the route table and the theme are not part of this model.
