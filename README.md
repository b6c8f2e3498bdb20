# Stock price alerts: a Dafny model

This project models the core of a browser extension that watches stock prices for a user.
The popup lets the user store Telegram credentials and price alerts ("tell me when TSLA is
above 400"). A background checker wakes on a periodic alarm and resolves each alert's
current price through a chain of providers: Financial Modeling Prep, then Twelve Data, then
a table of mock prices. When an alert fires, the checker sends a Telegram message and
removes the alert from storage.

Modules:

- `Text`: the JavaScript string built-ins the popup uses (`trim`, `toUpperCase`,
  `includes`, `split`, `substring`), on strings as sequences of characters.
- `Alerts`: the alert record and the filter-by-id that both files perform on the
  `stockAlerts` list, with the uniqueness invariants of that list.
- `Extension`: the shared browser state as a class `Browser`. It holds:
  - the stored alert list;
  - the synced Telegram settings;
  - the alarm registry;
  - a log of the outbound HTTP requests.
- `PriceResolver`: `getCurrentStockPrice` as a function of the providers' outcomes, plus a
  reference definition of the chain as an ordered list of optional prices.
- `Background`: alarm re-arming, the runtime listeners, the trigger rule, and the check
  cycle. The cycle is written twice:
  - as functions on the stored list and request log, where its properties are proved;
  - as methods on `Browser` that follow the source step by step and are proved equal to
    those functions.
- `Popup`: masking, saving the settings, adding an alert and deleting one.

Providers' answers are inputs. A `Quotes` value gives the outcome of both requests for
one lookup, and a `Feed` gives the outcomes for the i-th lookup of a cycle. Each outcome
is one of:

- `Threw`: the request was rejected or the body was not JSON;
- `NoPrice`: the response was not ok, or it had no price;
- `Quoted(v)`: the response had a price.

Four behaviours of the code are worth knowing, and the model keeps them:

- A throw from Financial Modeling Prep lands in the `catch` block, which goes straight to
  the mock table (`Assignment-3/background.js:130-143`). Twelve Data is never asked. The
  alternative is a fall-through chain, in which every failure passes to the next source.
  It is kept as `PriceResolver.FallThroughPrice`, built on `PriceResolver.FirstPrice`.
  `PriceResolver.ResolveVersusFallThrough` proves that the two can differ only when the
  first provider throws and Twelve Data would have quoted. In that case the code gives
  the mock price and the fall-through chain gives Twelve Data's price.
- Financial Modeling Prep's price is accepted when it is truthy (`!= 0`), not only when it
  is positive. A negative quote is used.
- Twelve Data's price is a string, tested for truthiness before `parseFloat`. A quoted
  `"0"` therefore comes back as 0.
- `getCurrentStockPrice` never returns `null`, so the `currentPrice === null` branch of
  `checkSingleStock` is dead. The model has no such branch.

The functions that compute the model, and the source each one follows:

- `Text.Trim`: `trim()` at `Assignment-3/popup.js:14-15` and `:81`.
- `Text.ToUpper`: `toUpperCase()` at `Assignment-3/popup.js:81`.
- `Popup.NormalizeSymbol`: the symbol as stored, at `Assignment-3/popup.js:81`.
- `Popup.MaskSensitiveData`: `maskSensitiveData` at `Assignment-3/popup.js:57-68`.
- `Popup.SaveVerdict`: the checks of `saveTelegramSettings` at
  `Assignment-3/popup.js:14-26`.
- `Popup.AddVerdict`: the checks of `addAlert` at `Assignment-3/popup.js:81-106`.
- `Background.ClearAlarm`: `chrome.alarms.clear` at `Assignment-3/background.js:16`.
- `Background.Rearm`: `setupPeriodicChecks` at `Assignment-3/background.js:15-22`.
- `Background.ShouldTrigger`: the trigger rule at `Assignment-3/background.js:68-74`.
- `PriceResolver.Resolve`: `getCurrentStockPrice` at `Assignment-3/background.js:90-144`.
- `Background.CheckSingle`: `checkSingleStock` at `Assignment-3/background.js:56-88`.
- `Background.CheckAll`: the loop at `Assignment-3/background.js:48-50`.
- `Background.Cycle`: `checkStockPrices` at `Assignment-3/background.js:30-54`.

## Model

| member | source | states |
|---|---|---|
| Text.LeadingSpaces | Assignment-3/popup.js:14 | the length of the white-space run that starts the input: all white space, followed by the end or a non-space character |
| Text.TrailingStart | Assignment-3/popup.js:14 | where the white-space run that ends the input begins: all white space after it, a non-space character or the start before it |
| Text.Trim | Assignment-3/popup.js:14-15 | the trimmed value is empty exactly when the input is all white space; otherwise it starts and ends with a non-space character |
| Text.TrimOfTrimmed | Assignment-3/popup.js:14-15 | a string with no white space at either end is its own trim |
| Text.TrimIdempotent | Assignment-3/popup.js:14-15 | trimming twice is trimming once |
| Text.UpperChar | Assignment-3/popup.js:81 | a lower-case ASCII letter moves to upper case, every other character is unchanged, and white space is preserved |
| Text.ToUpper | Assignment-3/popup.js:81 | `toUpperCase` keeps the length and maps each character by UpperChar |
| Text.ToUpperIdempotent | Assignment-3/popup.js:81 | an upper-cased string has no lower-case letter, so upper-casing again changes nothing |
| Text.TrimToUpperOfTrimmed | Assignment-3/popup.js:81 | upper-casing a trimmed symbol leaves it trimmed |
| Text.ContainsIff | Assignment-3/popup.js:23 | `includes` holds exactly when the pattern occurs at some index |
| Text.ContainsInfix | Assignment-3/popup.js:23 | a string with the pattern written into it contains the pattern |
| Text.TrimSlice | Assignment-3/popup.js:14-15 | the trimmed value is a slice of the input with only white space outside it |
| Text.ContainsSurvivesTrim | Assignment-3/popup.js:14-23 | trimming never removes an occurrence of a pattern whose ends are not white space, so a `***` in the raw input is still seen after `trim` |
| Text.IndexOf | Assignment-3/popup.js:62 | the first index of a character, or the length when it is absent |
| Text.Split | Assignment-3/popup.js:62 | `split` gives at least one segment, no segment contains the separator, and there are two or more exactly when the separator occurs |
| Text.JoinPrepend | Assignment-3/popup.js:62 | prepending to the first segment prepends to the joined string |
| Text.JoinSplit | Assignment-3/popup.js:62 | joining the segments with the separator gives back the input |
| Text.SplitAtFirst | Assignment-3/popup.js:62-63 | the first segment is the text before the first separator; the rest are the split of what follows it |
| Text.Prefix | Assignment-3/popup.js:63 | `substring(0, n)` is the first n characters, or the whole string when it is shorter |
| Text.Suffix | Assignment-3/popup.js:63 | `substring(length - n)` is the last n characters, or the whole string when it is shorter |
| Alerts.WithoutIds | Assignment-3/background.js:179 | the filtered list is never longer than the input |
| Alerts.WithoutIdsMembers | Assignment-3/background.js:179 | the filter keeps exactly the entries whose id is not in the set |
| Alerts.WithoutId | Assignment-3/background.js:179 | `filter(alert => alert.id !== id)` keeps exactly the entries with another id |
| Alerts.WithoutIdsAppend | Assignment-3/background.js:179 | the filter distributes over concatenation, so kept entries keep their order |
| Alerts.WithoutIdsTwice | Assignment-3/background.js:179-180 | two successive removals equal one removal of both id sets |
| Alerts.WithoutAbsentIds | Assignment-3/background.js:179 | removing ids no entry carries leaves the list unchanged |
| Alerts.WithoutIdIdempotent | Assignment-3/background.js:174-181 | removing an id twice is removing it once, and removing an absent id changes nothing |
| Alerts.Ids | Assignment-3/background.js:179 | every entry's id is in the set of ids in use |
| Alerts.IdsAreUsed | Assignment-3/background.js:179 | an id is in use exactly when some entry carries it |
| Alerts.UniqueIdsAreDistinct | Assignment-3/popup.js:91 | ids that are pairwise different are also new at each append |
| Alerts.UniquePairsAppend | Assignment-3/popup.js:102-108 | appending keeps (symbol, type) pairs unique exactly when the new pair is absent |
| Alerts.UniqueIdsAppend | Assignment-3/popup.js:91-108 | appending keeps ids unique exactly when the new id is absent |
| Alerts.WithoutIdsKeepsUnique | Assignment-3/background.js:179 | filtering never creates a duplicate pair or id |
| Extension.Browser.constructor | Assignment-3/background.js:33-34 | a fresh install has no alerts, no settings, no alarm and no request |
| PriceResolver.MockPrice | Assignment-3/background.js:120-128 | the table price for a listed symbol, 100 otherwise, and never 0 |
| PriceResolver.ResolveRequests | Assignment-3/background.js:93-116 | Financial Modeling Prep is always asked first; Twelve Data is asked exactly when the first request neither threw nor gave a truthy price |
| PriceResolver.ThrowSkipsTwelveData | Assignment-3/background.js:130-143 | after a throw from the first provider, the second one's outcome does not matter and the mock table is used |
| PriceResolver.ResolveZeroOnlyFromTwelveData | Assignment-3/background.js:99-128 | a price of 0 can only come from Twelve Data; a mock-table price is the table's value |
| PriceResolver.FirstPrice | Assignment-3/background.js:90-143 | a fall-through chain gives the fallback when no source offers a price, and otherwise the price of the first source that offers one |
| PriceResolver.FirstOfTwo | Assignment-3/background.js:90-128 | a two-source chain takes the first offer, else the second, else the fallback |
| PriceResolver.ResolveVersusFallThrough | Assignment-3/background.js:90-143 | the code equals the fall-through chain except possibly when the first provider throws and Twelve Data would have quoted; then the code takes the mock price and the chain takes Twelve Data's price |
| Background.CountNamedAfterClear | Assignment-3/background.js:16 | after `alarms.clear(name)` no alarm of that name is left |
| Background.ClearAlarmMembers | Assignment-3/background.js:16 | clearing keeps exactly the alarms of other names |
| Background.ClearAlarmTwice | Assignment-3/background.js:16 | clearing twice is clearing once |
| Background.RearmArmsOnce | Assignment-3/background.js:15-22 | after re-arming there is exactly one `stockPriceCheck` alarm, with delay 1 and period 5, and the checker is armed |
| Background.RearmIdempotent | Assignment-3/background.js:15-22 | other alarms are kept, and re-arming twice equals re-arming once |
| Background.SetupPeriodicChecks | Assignment-3/background.js:15-22 | the registry becomes the re-armed one; nothing else changes |
| Background.OnInstalled | Assignment-3/background.js:3-6 | installation re-arms the checker |
| Background.OnMessage | Assignment-3/background.js:8-13 | `startMonitoring` re-arms and is answered; any other message changes nothing and gets no answer |
| Background.TriggerRule | Assignment-3/background.js:68-74 | `above` fires exactly at or over the target, `below` exactly at or under it, any other type never |
| Background.TriggerMonotone | Assignment-3/background.js:70-73 | a fired alert also fires at any price further in its direction |
| Background.TriggerBothAtTarget | Assignment-3/background.js:70-73 | an `above` and a `below` alert on one target both fire exactly at the target |
| Background.FiredIds | Assignment-3/background.js:48-50 | every alert of the snapshot whose check fires has its id in the set |
| Background.FiredIdsExactly | Assignment-3/background.js:48-82 | an id is retired exactly when some alert of the snapshot carrying it fires |
| Background.Symbols | Assignment-3/background.js:48-59 | the symbols of the snapshot, one per alert, in order |
| Background.NoticesAppend | Assignment-3/background.js:48-50 | messages and quotes in the request log distribute over concatenation |
| Background.ResolveCallsShape | Assignment-3/background.js:90-144 | one price lookup quotes its symbol once from Financial Modeling Prep and sends no message |
| Background.CheckAllAlerts | Assignment-3/background.js:48-50 | after the loop, the stored list is the start list without the ids of the alerts that fired |
| Background.CheckSingleRequests | Assignment-3/background.js:56-88 | one alert's check adds one quote for its symbol, and one message exactly when it fires |
| Background.CheckAllRequests | Assignment-3/background.js:48-50 | the loop sends one message per fired alert in list order, and quotes every alert's symbol in list order |
| Background.FiredIdsAreIds | Assignment-3/background.js:48-50 | only ids of the snapshot are retired |
| Background.SurvivorStep | Assignment-3/background.js:179 | filtering a list extended by one alert with a fresh id filters the prefix and keeps or drops that alert |
| Background.FiredIdsLeaveSurvivors | Assignment-3/background.js:48-82 | with distinct ids, removing the fired ids keeps exactly the alerts that did not fire, in order |
| Background.CycleEarlyExits | Assignment-3/background.js:36-46 | an empty list ends the cycle without reading the settings; a missing setting ends it with nothing changed |
| Background.CycleOutcome | Assignment-3/background.js:30-88 | a full cycle keeps exactly the alerts that did not fire, in order, sends one message per fired alert in list order, and quotes every symbol |
| Background.CycleRetiresFired | Assignment-3/background.js:76-82 | a fired alert's id is gone after the cycle, even if the message failed; an alert stays when its id was not retired, in particular when no alert carrying its id fires |
| Background.CycleKeepsUnique | Assignment-3/background.js:30-88 | a cycle never creates a duplicate pair or id |
| Background.TslaAboveFires | Assignment-3/background.js:56-143 | a TSLA alert above 400, with no provider price, fires at the mock 426.50, is messaged and is retired |
| Background.AaplBelowHolds | Assignment-3/background.js:56-143 | an AAPL alert below 100, with a throwing first provider, does not fire at the mock 175.20 and stays |
| Background.GetCurrentStockPrice | Assignment-3/background.js:90-144 | returns the resolved price and logs the requests it made |
| Background.SendTelegramMessage | Assignment-3/background.js:146-172 | the message is sent and any failure is swallowed; nothing else changes |
| Background.RemoveTriggeredAlert | Assignment-3/background.js:174-186 | the stored list loses exactly the entries with that id |
| Background.CheckSingleStock | Assignment-3/background.js:56-88 | the state after one check equals the CheckSingle function: resolve, decide, then message and remove |
| Background.CheckStockPrices | Assignment-3/background.js:30-54 | the state after the loop equals one Cycle of the state and settings it started with |
| Background.OnAlarm | Assignment-3/background.js:24-28 | the checker's alarm runs one cycle; any other alarm changes nothing |
| Popup.MaskShortUnchanged | Assignment-3/popup.js:58 | a value shorter than 8 characters, the empty one included, is shown as it is |
| Popup.MaskPlainShape | Assignment-3/popup.js:65-66 | without a `:` the mask is the first 3 characters, `***`, and the last 3: 9 characters |
| Popup.MaskTokenShape | Assignment-3/popup.js:60-63 | with a `:` the mask shows at most 3 characters before the first `:` and at most the last 3 of the next segment; later segments are dropped |
| Popup.MaskCarriesStars | Assignment-3/popup.js:57-68 | every masked value contains `***` |
| Popup.SaveVerdictMeaning | Assignment-3/popup.js:13-33 | a value is missing exactly when its input is blank; saved settings are trimmed, carry no `***`, and let the checker run |
| Popup.MaskedTokenNotSaved | Assignment-3/popup.js:22-26 | saving a form that still shows a masked token is refused |
| Popup.MaskedChatIdNotSaved | Assignment-3/popup.js:22-26 | saving a form that still shows a masked chat id is refused |
| Popup.SaveTelegramSettings | Assignment-3/popup.js:13-39 | the settings change only when both checks pass, and then to the trimmed inputs |
| Popup.NormalizeSymbolStable | Assignment-3/popup.js:81 | a stored symbol is already normal, has no lower-case letter, and is empty exactly when the input was blank |
| Popup.AddVerdictMeaning | Assignment-3/popup.js:81-106 | the input is refused exactly for a blank symbol or a price that is not positive; otherwise a pair already stored is refused |
| Popup.AddKeepsUnique | Assignment-3/popup.js:90-109 | adding keeps pairs unique, keeps ids unique when the new id is unused, and stores a positive price and a normal symbol |
| Popup.ReaddIsDuplicate | Assignment-3/popup.js:102-106 | re-typing a stored symbol in any case or spacing, for the same type, is refused as a duplicate |
| Popup.AddAlert | Assignment-3/popup.js:80-121 | on success the new alert is appended, earlier entries are untouched, and the alarm is re-armed; on a refusal nothing changes |
| Popup.DeleteAlert | Assignment-3/popup.js:150-163 | the stored list loses exactly the entries with that id |

## Left out

- DOM work is not modelled: `loadAlerts` rendering, `showStatus` and its timer,
  `handleSensitiveInputFocus`, `loadTelegramSettings` filling the fields, and clearing the
  inputs. None of it changes stored state. The form values reach the model as parameters.
- Errors from `chrome.storage` and the `catch` blocks that report them are left out.
  Storage is modelled as always succeeding.
- `fetch`, JSON parsing and HTTP status codes reach the model as `Quotes` outcomes. The
  Telegram URL and request body are recorded only as a `Notice`.
- `parseFloat` producing `NaN` is not modelled. A price input that does not parse is
  `None`. A quote whose price field is not a number is left out.
- `toFixed(2)` and the message text are not modelled. A message is the record of token,
  chat id, symbol, price, type and target.
- Prices are exact reals, not IEEE doubles.
- `Date.now()` and `new Date().toISOString()` are taken as parameters.
- The `console.log` and `console.error` logging is left out; it changes no state.
- Async interleaving is left out. One cycle runs at a time, with no popup write during it.
  So is the unawaited `alarms.clear` racing `alarms.create`: the model clears first.
- Text.ToUpper: upper-cases ASCII letters only, because full Unicode case mapping is out of
  scope.
- Popup.MaskSensitiveData, Text.Prefix and Text.Suffix: count characters where the source
  counts UTF-16 code units (`data.length < 8` and `substring`). A value of four
  characters outside the Basic Multilingual Plane is 8 units long: the source masks it,
  the model shows it unchanged.
- PriceResolver.MockPrice: covers only symbols as keys. The `mockPrices[symbol]` lookup on
  a JavaScript object also finds inherited keys such as `constructor`, which is not
  modelled.
- The Windows monitor script elsewhere in the repository has no logic of this system and
  is not part of this model.
