# WeTran front end: verified model of the form, session and dashboard logic

WeTran is a browser dashboard: a signed-in user types a website and sees its traffic
(visits, time on site, pages per visit, global rank, traffic sources, keywords) as cards
and charts. Most of the code is presentation. This project models the logic under it,
in Dafny:

- **Session helper** (`api.dfy`, module `Api`): the single browser-storage slot `"token"`
  as the field of a `TokenStore` class. `Login` writes the slot only for a truthy token.
  `Logout` clears it. `GetTrafficStats` copies it, unchecked, into the `Authorization`
  value of the request. `Register` cannot see the slot.
- **Registration form** (`register.dfy`, module `Register`): `handleRegister` first resets
  the feedback. It then checks the username length, the email (an uninterpreted `isEmail`)
  and the password length, in that order, and stops at the first failure. Only when all
  three pass does it call the service, once. The nested early returns are proved equal to
  a reference "first failed check" search over the ordered list of checks.
- **Login form** (`login.dfy`, module `Login`): the empty-credential guard, the single
  service call, and the `loading`/`message` state on failure and on success.
- **Error text** (`error_messages.dfy`, module `ErrorMessages`): the precedence both forms
  use. The server's message comes first, then `error.message`, then `error.toString()`.
- **Dashboards** (`dashboard.dfy`, `dashboard2.dfy`, `dashboard3.dfy`): each page is a
  class holding the `website`, `trafficData`, `loading` and `error` hooks. Each fetch
  handler is a method that takes the abstract outcome of its HTTP call (`Http`). The chart
  projections and display fallbacks are pure functions. The fixture page's table lookup is
  by exact string.
- **Shared shapes** (`view.dfy`, `http.dfy`, `wrappers.dfy`, `numerals.dfy`): chart data,
  call outcomes, Option/Result, and JavaScript's integer-to-text conversion. The
  round trip of that conversion is proved, so distinct non-zero ranks, and distinct non-zero
  keyword volumes, show distinct text.

Each asynchronous handler is one sequential transition. Its ghost out-parameter
`atRequest` records what the page shows while the request is pending.

The code has no cache, retry, response normalisation or request de-duplication. A
missing number is shown as 0 (`|| 0`), not as an "unknown" marker. A traffic-stats
request is sent with whatever the slot holds, even nothing; it is not refused locally.
The model follows the code in all of these points.

## Model

| member | source | states |
|---|---|---|
| `ErrorMessages.ServerMessage` | src/components/Register.js:114 | the server's message is present exactly when `error.response`, its `data` and their `message` are all present |
| `ErrorMessages.ResMessage` | src/components/Register.js:113-116 | a non-empty server message wins; failing that, a non-empty `error.message`; otherwise `error.toString()`. Login.js:153-156 uses the same chain |
| `ErrorMessages.ResMessageEmpty` | src/components/Login.js:153-157 | the shown message is empty only when all three sources are empty or absent |
| `Numerals.NatToDecimal` | src/pages/Dashboard.js:408 | the text of a number is non-empty, all digits, and has no leading zero |
| `Numerals.IntToDecimal` | src/pages/Dashboard.js:267 | the text of an integer is `NatToDecimal` of its magnitude, with a leading '-' exactly for negatives |
| `Numerals.NatToDecimalRoundTrip` | src/pages/Dashboard.js:408 | reading the digits back gives the number again |
| `Numerals.IntToDecimalInjective` | src/pages/Dashboard.js:267 | two integers with the same text are equal |
| `Api.Settle` | src/api.js:12 | a resolved call hands back its data unchanged; a rejected call hands back its error |
| `Api.Register` | src/api.js:5 | forwards exactly (email, password) and hands back the axios result itself: the resolved value or the rejection's error, unchanged; it reads no state, so it cannot touch the token slot |
| `Api.TokenStore.constructor` | src/api.js:16 | a page starts with whatever the storage slot already holds |
| `Api.TokenStore.Login` | src/api.js:7-13 | posts (email, password); returns the body unchanged; stores the token only when it is a non-empty string; a rejected call or a falsy token leaves the slot as it was |
| `Api.TokenStore.GetTrafficStats` | src/api.js:15-21 | the request carries the website and exactly the stored token (possibly absent) as `Authorization`; the response data is passed through and a rejection propagates its error unchanged; nothing is written |
| `Api.TokenStore.Logout` | src/api.js:23 | the slot is empty afterwards |
| `Api.LogoutTwice` | src/api.js:23 | a second logout leaves the same state as the first |
| `Api.StatsAfterLogout` | src/api.js:15-23 | after logout the next stats request carries no Authorization value |
| `Register.Validate` | src/components/Register.js:90-106 | reports the username error exactly when its length is outside 3..20; the email error exactly when the username passes and `isEmail` rejects; the password error exactly when both pass and its length is outside 6..40; no error exactly when all pass |
| `Register.FirstFailureIsFirst` | src/components/Register.js:90-106 | the reference search returns a failed check preceded only by passed checks, and nothing only when every check passes |
| `Register.ValidateIsFirstFailure` | src/components/Register.js:90-106 | the early-return chain equals the first failed check of the ordered list username, email, password |
| `Register.RegisterForm.constructor` | src/components/Register.js:76-81 | the inputs start empty, with no errors, no message and `successful` false |
| `Register.RegisterForm.Fill` | src/components/Register.js:131-147 | the input handlers change the inputs and nothing shown |
| `Register.RegisterForm.HandleRegister` | src/components/Register.js:84-120 | at most one error key; a failed check sets only that field's error, with message "" and `successful` false, and makes no call; otherwise exactly one call with (username, email, password), made after the reset; success shows the server's message with `successful` true; failure shows `ResMessage` with `successful` false |
| `Login.LoginForm.constructor` | src/components/Login.js:130-133 | the inputs start empty, not loading, with no message |
| `Login.LoginForm.Fill` | src/components/Login.js:181-189 | the input handlers change the inputs and nothing shown |
| `Login.LoginForm.HandleLogin` | src/components/Login.js:136-160 | an empty username or password shows "Username and password are required", stops loading and makes no call; otherwise exactly one call with (username, password), made while loading with no message; success navigates and leaves loading on; failure shows `ResMessage` and stops loading |
| `Dashboard3.IncreasingIsStrictlySorted` | src/pages/Dashboard3.js:42 | increase between neighbours gives increase between any two positions |
| `Dashboard3.FixtureValuesIncrease` | src/pages/Dashboard3.js:42-53 | each fixture's twelve values increase from one month to the next |
| `Dashboard3.FixtureSeries` | src/pages/Dashboard3.js:41-53 | each fixture has the labels Jan..Dec and twelve strictly increasing values |
| `Dashboard3.TableEntries` | src/pages/Dashboard3.js:37-60 | the table has exactly the Google and Facebook keys, each with its own fixture |
| `Dashboard3.FixturesWellFormed` | src/pages/Dashboard3.js:37-60 | every table entry holds such a monthly series |
| `Dashboard3.InheritedNamePassesGuard` | src/pages/Dashboard3.js:68 | the guard as written accepts "toString", which is not a table key |
| `Dashboard3.Lookup` | src/pages/Dashboard3.js:68 | a hit happens exactly for the two exact URL keys, and yields that key's fixture |
| `Dashboard3.BareDomainMisses` | src/pages/Dashboard3.js:38-49 | "google.com" and "www.google.com" miss |
| `Dashboard3.DatasetLabel` | src/pages/Dashboard3.js:83 | "Google" exactly when the input is the Google key, "Facebook" for any other input |
| `Dashboard3.ChartOf` | src/pages/Dashboard3.js:78-91 | `{}` exactly when there is no data; otherwise the fixture's labels and values verbatim under the label chosen from the input |
| `Dashboard3.LabelFollowsInput` | src/pages/Dashboard3.js:83-84 | Google's values are labelled "Facebook" whenever the text field holds anything but the Google key |
| `Dashboard3.Dashboard3Page.constructor` | src/pages/Dashboard3.js:31-34 | empty input, no data, not loading, no error |
| `Dashboard3.Dashboard3Page.SetWebsite` | src/pages/Dashboard3.js:106 | the input handler changes only the input |
| `Dashboard3.Dashboard3Page.FetchWebsiteData` | src/pages/Dashboard3.js:63-75 | a hit stores exactly the fixture with no error; a miss sets "No data available for the entered website." and keeps the earlier data; loading ends false |
| `Dashboard2.ChartOf` | src/pages/Dashboard2.js:61-72 | always one "Website Traffic" dataset; empty labels and data without data, else `traffic.labels` and `traffic.values` verbatim |
| `Dashboard2.Dashboard2Page.constructor` | src/pages/Dashboard2.js:34-37 | empty input, no data, not loading, no error |
| `Dashboard2.Dashboard2Page.SetWebsite` | src/pages/Dashboard2.js:87 | the input handler changes only the input |
| `Dashboard2.Dashboard2Page.FetchWebsiteData` | src/pages/Dashboard2.js:40-58 | an empty input makes no request and changes nothing; otherwise one request for the input, made while loading with no error; success stores the body verbatim, a `null` body clearing the earlier data; failure sets "Error fetching data. Please try again." and keeps the data; loading ends false |
| `Dashboard.Keys` | src/pages/Dashboard.js:139 | `Object.keys` gives one key per entry, at that entry's position |
| `Dashboard.Values` | src/pages/Dashboard.js:143 | `Object.values` gives one value per entry, at that entry's position |
| `Dashboard.ZipKeysValues` | src/pages/Dashboard.js:139-143 | pairing the keys with the values gives back the object: nothing lost or reordered |
| `Dashboard.GetChartData` | src/pages/Dashboard.js:114-132 | `{}` exactly when the data or `EstimatedMonthlyVisits` is missing; otherwise labels and data have the object's length and follow its key order, label i being the month of date i and value i that date's visits |
| `Dashboard.GetPieChartData` | src/pages/Dashboard.js:134-156 | `{}` exactly when the data or `TrafficSources` is missing; otherwise labels and data are aligned and pair back up into exactly the sources object |
| `Dashboard.OrZero` | src/pages/Dashboard.js:221 | a missing or zero number shows 0; any other number shows itself |
| `Dashboard.MissingLooksLikeZero` | src/pages/Dashboard.js:221 | a missing metric and a zero metric show the same value |
| `Dashboard.RankText` | src/pages/Dashboard.js:267 | "N/A" exactly when `GlobalRank` or its `Rank` is missing or the rank is 0; otherwise the rank's decimal text |
| `Dashboard.RankTextDistinguishes` | src/pages/Dashboard.js:267 | two different non-zero ranks never show the same text |
| `Dashboard.VolumeText` | src/pages/Dashboard.js:408 | "N/A" exactly when `Volume` is missing or 0; otherwise "<Volume> searches" |
| `Dashboard.VolumeTextDistinguishes` | src/pages/Dashboard.js:408 | two different non-zero volumes never show the same chip text |
| `Dashboard.MetricCards` | src/pages/Dashboard.js:221-267 | a missing `Engagments` throws while rendering; each card shows 0 exactly when its number is missing or 0, otherwise the number itself; the rank card shows `RankText`: "N/A" exactly when the rank is falsy, else the rank's decimal text |
| `Dashboard.KeywordChips` | src/pages/Dashboard.js:399-417 | a missing `TopKeywords` throws while rendering; otherwise one chip per keyword, in order, with its name and `VolumeText` of its volume: "N/A" exactly when the volume is falsy, else "<Volume> searches" |
| `Dashboard.DashboardPage.constructor` | src/pages/Dashboard.js:80-83 | empty input, no data, not loading, no error |
| `Dashboard.DashboardPage.SetWebsite` | src/pages/Dashboard.js:176 | the input handler changes only the input |
| `Dashboard.DashboardPage.FetchWebsiteData` | src/pages/Dashboard.js:85-112 | one request for the input, the empty one included, made while loading with no error; an ok response with a parsable body is stored unchanged, a `null` body clearing the earlier data; a thrown request, a non-ok response or an unparsable body sets "Failed to fetch data. Please try again." and keeps the earlier data; loading ends false |

## Findings

| source | as written | input that shows it | evidently intended | confidence | as-written member | corrected member |
|---|---|---|---|---|---|---|
| src/pages/Dashboard3.js:68 | `hardcodedData[website]` is also truthy for every name a plain object inherits from Object.prototype. The guard passes and `error` stays empty. What follows depends on the name: `__proto__` stores Object.prototype; a function value is run by React's state setter as an updater, so "toString" stores the string "[object Undefined]", while "valueOf" or "hasOwnProperty" throws inside the updater. For most names the updater or the next render throws (`trafficData.traffic.labels`, line 80, reads a property of `undefined`); "constructor" after a hit keeps the earlier data, and "isPrototypeOf" with no data stores `false`; in every case no message is shown | website = "toString" (also "constructor", "__proto__", "valueOf", ...) | only the two table keys are hits; anything else shows the no-data message | high; not executed | `Dashboard3.InheritedNamePassesGuard` | `Dashboard3.Lookup` |

`Dashboard3.Dashboard3Page.FetchWebsiteData` uses the corrected `Lookup`.

## Left out

- JSX rendering, styled-components CSS, MUI layout and chart.js registration are presentation. So are the chart colours, `fill`, `tension` and options, and the Dashboard2 and Dashboard3 info cards (overview, backlinks, SEO score).
- HTTP transport (axios, fetch, URL building, `encodeURIComponent`, API keys and hosts): each call is an abstract outcome parameter (`Http.AxiosOutcome`, `Http.FetchOutcome`).
- Month names come from `new Date(date).toLocaleString(...)`, which depends on locale and the Date library. `Dashboard.GetChartData` takes that formatting as a parameter `monthLabel`.
- Top-countries table: its rows need the floating-point text `(Value * 100).toFixed(2)` and a lower-cased flag URL. Like the keyword chips, `trafficData.TopCountryShares.map` (src/pages/Dashboard.js:360) throws while rendering when the list is missing; the model does not state this for the countries table.
- `isEmail` from the `validator` package is a foreign library. `Register.Validate` takes it as an uninterpreted parameter.
- `AuthService` is not part of this model; its calls are outcome parameters. `navigate("/dashboard")` and `window.location.reload()` are side effects, reduced to the `navigated` result of `Login.LoginForm.HandleLogin`.
- src/components/Login-old.js, src/components/TrafficAnalysis.js and src/pages/Dashboard-old.js only forward to the session helper and then navigate, alert or print.
- React's asynchronous state batching: each handler is one sequential transition over its hooks. The render while a request is pending is the ghost `atRequest` snapshot.
- String lengths: `string` elements stand for the UTF-16 code units that JavaScript's `.length` counts.
- JSON numbers are `real`, with no NaN or Infinity; ranks and keyword volumes are integers. `Numerals.IntToDecimal` does not model the exponent notation JavaScript uses from 10^21 upwards.
- `Dashboard.Keys`/`Dashboard.Values` take a JSON object's entries in enumeration order. JavaScript's rule that integer-like keys are listed first, in ascending order, is not modelled.
- Response bodies of unexpected shape are not modelled. A JSON `null` body is modelled (as None): `Dashboard.DashboardPage.FetchWebsiteData` and `Dashboard2.Dashboard2Page.FetchWebsiteData` store it and so clear the earlier data, and the page then shows no data section. Not modelled: other non-object bodies, and a Dashboard2 body without `traffic`, whose `trafficData.traffic.labels` throws while rendering.
- `Api.TokenStore.Login`: the token is a string. A non-string truthy token would be stored by `localStorage.setItem` as its string form.
- `Register.RegisterForm.HandleRegister`: a successful reply's `message` is a string. The source would store `undefined` when the reply has none, which renders as nothing, like "".
