# Céu Azul weather alerts — a Dafny model of the core logic

Céu Azul is a weather app for Brazilian cities. The model covers three of its parts.

**The backend controller** (`Device-Back/controllers/openWeatherController.js`), modelled in `open_weather_controller.dfy`:

- `updateCitiesAndCheckWeather` walks a user's stored cities in listing order. For each city it:
  - fetches the forecast;
  - overwrites the stored document;
  - filters the entries that are dated today (UTC) and whose weather description names a hazard ("chuva forte", "ventos fortes" or "tempestade");
  - returns at most one alert.
- A failure in one city never stops the batch. Such failures are an empty name, a failed fetch, or a timestamp that `toISOString` rejects.
- `verifyAndSaveCity` fetches and stores one city and maps errors to HTTP statuses.
- The document store is a value `user -> city -> document` that each operation takes and returns.
- The listing, the per-city fetch and write outcomes, and the UTC day number of "now" are inputs.

**The Home screen** (`Device-Front/src/screens/Home/index.tsx`), modelled in `home.dfy`:

- `calculateDailyTemperatures` groups forecast entries by day into the `dailyData` dictionary. It is a method with the source's loop. Its result equals a specification function `DailySummaries`, and the lemmas state what that function promises:
  - one record per distinct day, in first-occurrence order;
  - min-of-mins and max-of-maxes;
  - the mean over at least one entry, bounded by min and max;
  - the first entry's weather.
- The prev/next buttons are a small class, `DayNavigator`.
- The card-press selection and the background-image lookup are functions.
- The local-time day string is a parameter `dayKey`.

**The Details screen** (`Device-Front/src/screens/Details/index.tsx`), modelled in `details.dfy`:

- `classifyWindSpeed` is a threshold classifier. It is total and monotone, and a speed equal to a threshold gets the next label.
- The narration of an entry is a sequence of line records. The rain and snow lines are present exactly when the entry has those blocks.
- The `activeCard` / `paused` / `lastContent` state is the class `DetailsReader`. The press handler returns the speech action it asks for. The `onStart`, `onDone` and `onStopped` callbacks are separate events.

`text.dfy` models `toLowerCase` and `includes`. `forecast.dfy` holds the forecast payload, shaped like `Device-Front/src/types.ts`. `wrappers.dfy` holds `Option`.

Behaviour of the code worth knowing:

- The alert text comes from the first weather element of the first severe entry, in list order. That element need not be a hazard (`AlertUsesFirstWeatherElement`). When the API lists entries out of time order, the quoted entry need not be the earliest severe one.
- A user with no cities gets status 200 and a body holding only `message`, with no `alerts` field.
- "Today" is the UTC calendar day of the server clock, compared with each entry's UTC day. In Brasília time (UTC−3), an entry between 21:00 and midnight local time therefore counts toward the next day.
- A timestamp outside JavaScript's date range makes `toISOString` throw inside the filter. The per-city `catch` then drops that city's alert entirely.
- The Details pause branch calls `Speech.stop()`. Speech engines that fire `onStopped` on `stop()` then reset the state to "no active card". The model records this as two events, a press and then `OnStopped`. It makes no claim about which engine does so.

## Model

| member | source | states |
|---|---|---|
| Text.Lower | Device-Back/controllers/openWeatherController.js:59-61 | each character is lower-cased: ASCII and Latin-1 capitals map to their small letter, the rest are unchanged; the length is kept |
| Text.ContainsIffOccurs | Device-Back/controllers/openWeatherController.js:59-61 | `includes` holds exactly when the phrase occurs at some position of the description |
| OpenWeatherController.Put | Device-Back/controllers/openWeatherController.js:38-47 | `set` on one document replaces exactly that document; every other user's and city's document reads as before |
| OpenWeatherController.SevereWeatherSound | Device-Back/controllers/openWeatherController.js:54-64 | every kept entry is an entry of the list that is dated today and names a hazard in some weather element |
| OpenWeatherController.SevereWeatherComplete | Device-Back/controllers/openWeatherController.js:54-64 | every list entry that is dated today and names a hazard in some weather element is kept |
| OpenWeatherController.SevereWeatherExact | Device-Back/controllers/openWeatherController.js:54-64 | the filter keeps exactly the list's entries that are dated today and name a hazard in some weather element |
| OpenWeatherController.SevereWeatherAppend | Device-Back/controllers/openWeatherController.js:54-64 | the filter distributes over concatenation, so the kept entries keep list order |
| OpenWeatherController.SevereWeatherSingle | Device-Back/controllers/openWeatherController.js:54-64 | a single entry is kept exactly when it meets both conditions |
| OpenWeatherController.Detect | Device-Back/controllers/openWeatherController.js:53-64 | detection yields a result exactly when every entry's timestamp is a valid date; the result holds exactly the list's entries that are dated today and name a hazard |
| OpenWeatherController.CityAlertSpec | Device-Back/controllers/openWeatherController.js:25-75 | a city gives an alert iff its name is non-empty, its fetch succeeded, its dates are valid and some entry is severe; the alert names the city, carries all severe entries and quotes the first severe entry's first weather description |
| OpenWeatherController.AlertUsesFirstWeatherElement | Device-Back/controllers/openWeatherController.js:65-72 | for a today-dated entry whose weather elements are "ceu limpo" then "tempestade", the alert quotes "ceu limpo", the element that is not the hazard |
| OpenWeatherController.HazardExample | Device-Back/controllers/openWeatherController.js:53-72 | of any two today-dated entries described "chuva forte" and "ceu limpo", only the first is kept, and the city's alert carries just it |
| OpenWeatherController.CeuLimpoIsNoHazard | Device-Back/controllers/openWeatherController.js:58-62 | "ceu limpo" contains none of the three hazard phrases |
| OpenWeatherController.AlertsForAppend | Device-Back/controllers/openWeatherController.js:20-22 | the alerts of consecutive city lists are the alerts of each list in turn: cities are handled in listing order |
| OpenWeatherController.AlertsForLength | Device-Back/controllers/openWeatherController.js:65-72 | there are at most as many alerts as listed cities |
| OpenWeatherController.AlertsForMembership | Device-Back/controllers/openWeatherController.js:65-72 | an alert is in the results exactly when some listed city produced it |
| OpenWeatherController.FailedCityIsSkipped | Device-Back/controllers/openWeatherController.js:25-75 | a city with an empty name or a failed fetch adds no alert, and the cities before and after it give the alerts they give without it |
| OpenWeatherController.SaveFailureKeepsAlert | Device-Back/controllers/openWeatherController.js:49-51 | a failed write leaves the city's alert as it would be after a successful write |
| OpenWeatherController.SaveAllLookup | Device-Back/controllers/openWeatherController.js:36-47 | after the batch, a document of this user holds the last successfully fetched and written payload for that city, and every other document is unchanged |
| OpenWeatherController.UnwrittenCityUnchanged | Device-Back/controllers/openWeatherController.js:36-51 | a city with no successful fetch and write keeps its previous document |
| OpenWeatherController.CheckCity | Device-Back/controllers/openWeatherController.js:29-75 | for a named city, the `try` block appends exactly that city's alert (none after a failed fetch) and writes its document exactly when the fetch and the write succeed |
| OpenWeatherController.UpdateCitiesAndCheckWeather | Device-Back/controllers/openWeatherController.js:7-85 | 400 with the store untouched when `userId` is missing or empty; 500 when the listing fails; 200 with only a message for no cities; otherwise 200 with the per-city alerts in listing order and the store after the per-city writes |
| OpenWeatherController.VerifyAndSaveCity | Device-Back/controllers/openWeatherController.js:88-118 | 400 when `userId` or `city` is missing; a fetch or write error is reported with the upstream status and data, or 500 with the fixed message when there is no upstream response; on success the payload is stored under the city and returned with `exists: true`; `exists: true` iff everything succeeded |
| HomeScreen.CalculateDailyTemperatures | Device-Front/src/screens/Home/index.tsx:62-99 | the `forEach` over `dailyData` followed by the `map` over its keys returns exactly the day summaries of `DailySummaries` |
| HomeScreen.DailySummaries | Device-Front/src/screens/Home/index.tsx:85-96 | there is one summary per distinct day key of the list |
| HomeScreen.DistinctDaysExact | Device-Front/src/screens/Home/index.tsx:68-78 | the days are pairwise distinct and are exactly the day keys of the list's entries |
| HomeScreen.FirstIndexIsFirst | Device-Front/src/screens/Home/index.tsx:68-78 | the entry that creates a day's record is the first entry of that day |
| HomeScreen.DaysInFirstOccurrenceOrder | Device-Front/src/screens/Home/index.tsx:71-85 | days come in the order of their first entries, the insertion order `Object.keys` returns |
| HomeScreen.DailySummaryFacts | Device-Front/src/screens/Home/index.tsx:71-96 | day j's minimum is the lowest `temp_min` and its maximum the highest `temp_max` of an entry of that day; its average is the sum of `temp` over its at least one entry divided by their count; its weather is `weather[0]` of the day's first entry |
| HomeScreen.LowestMinIsMinimum | Device-Front/src/screens/Home/index.tsx:74-81 | the running `Math.min` is below every `temp_min` of the day and equal to one of them |
| HomeScreen.HighestMaxIsMaximum | Device-Front/src/screens/Home/index.tsx:75-82 | the running `Math.max` is above every `temp_max` of the day and equal to one of them |
| HomeScreen.DayForecastsHead | Device-Front/src/screens/Home/index.tsx:71-77 | the first entry of a day's group is the list's first entry on that day |
| HomeScreen.DailyAverageBetween | Device-Front/src/screens/Home/index.tsx:80-87 | when every entry has `temp_min <= temp <= temp_max`, every day has minimum <= average <= maximum |
| HomeScreen.MeanBetween | Device-Front/src/screens/Home/index.tsx:87 | the mean of values between two bounds lies between them |
| HomeScreen.NonEmptyListHasDays | Device-Front/src/screens/Home/index.tsx:54-103 | past the empty-list guard there is at least one day, so index 0 names a day |
| HomeScreen.DayForecastsMembers | Device-Front/src/screens/Home/index.tsx:156-159 | the selection holds exactly the list's entries whose day key is the given date |
| HomeScreen.DayForecastsAppend | Device-Front/src/screens/Home/index.tsx:156-159 | the selection distributes over concatenation, so it keeps list order |
| HomeScreen.CardPressSelection | Device-Front/src/screens/Home/index.tsx:155-165 | the entries handed to Details are exactly the current day's entries, never none, and the day's average is taken over exactly them |
| HomeScreen.DayNavigator.constructor | Device-Front/src/screens/Home/index.tsx:51-103 | for a list past the empty-list guard, the screen starts on day 0 of the `groupedForecasts.length` days, one per entry of `DailySummaries` |
| HomeScreen.DayNavigator.Previous | Device-Front/src/screens/Home/index.tsx:207-213 | moves back one day only when not on the first day, otherwise stays; the index stays within the days |
| HomeScreen.DayNavigator.Next | Device-Front/src/screens/Home/index.tsx:214-226 | moves forward one day only when not on the last day, otherwise stays; the index stays within the days |
| HomeScreen.GetBackgroundImage | Device-Front/src/screens/Home/index.tsx:105-117 | a lower-cased description equal to one of the seven keys gives that key's image; any other description gives the clear-sky image |
| HomeScreen.DayBackground | Device-Front/src/screens/Home/index.tsx:119-122 | a day without weather gets the clear-sky image |
| HomeScreen.BackgroundOfKey | Device-Front/src/screens/Home/index.tsx:106-116 | each of the seven keys selects its own image, so the images are all reachable and distinct |
| HomeScreen.BackgroundIgnoresCase | Device-Front/src/screens/Home/index.tsx:116 | a description and its lower-cased form select the same image |
| DetailsScreen.ClassifyWindSpeed | Device-Front/src/screens/Details/index.tsx:12-20 | the label's rank is the number of thresholds 1, 5, 11, 19, 28, 38 that the speed has reached |
| DetailsScreen.ReachedWindThresholds | Device-Front/src/screens/Details/index.tsx:12-20 | the count of reached thresholds follows the strict `<` chain, so a speed equal to a threshold gets the next label |
| DetailsScreen.ReachedMonotone | Device-Front/src/screens/Details/index.tsx:12-20 | a higher speed reaches at least as many thresholds |
| DetailsScreen.ClassifyWindSpeedMonotone | Device-Front/src/screens/Details/index.tsx:12-20 | a higher speed never gets a calmer label |
| DetailsScreen.EveryLabelReached | Device-Front/src/screens/Details/index.tsx:12-20 | every label is given to some speed, its threshold (0 for calm), and for each label after calm every lower speed gets a calmer label |
| DetailsScreen.LabelsAreDistinct | Device-Front/src/screens/Details/index.tsx:12-20 | the seven labels have distinct ranks and distinct texts |
| DetailsScreen.DetailsNarration | Device-Front/src/screens/Details/index.tsx:58-91 | no narration when the entry has no weather element; otherwise a rain line iff the entry has rain and a snow line iff it has snow, each with that volume; the wind label line is present; the last line is the first weather description |
| DetailsScreen.DetailsReader.constructor | Device-Front/src/screens/Details/index.tsx:25-27 | no active card, not paused, empty last content |
| DetailsScreen.DetailsReader.ReadDetails | Device-Front/src/screens/Details/index.tsx:29-112 | pressing the paused active card re-speaks the last content unchanged; pressing the playing active card stops and pauses; pressing another card stops and speaks newly built content, which becomes the last content (only a stop when the entry has no weather) |
| DetailsScreen.DetailsReader.OnStart | Device-Front/src/screens/Details/index.tsx:36-102 | clears `paused`; a fresh reading also makes its card the active one |
| DetailsScreen.DetailsReader.OnDone | Device-Front/src/screens/Details/index.tsx:103-106 | resets to no active card, not paused |
| DetailsScreen.DetailsReader.OnStopped | Device-Front/src/screens/Details/index.tsx:107-110 | resets to no active card, not paused |

## Left out

- HTTP calls (axios), Firestore reads and writes: the listing and each city's fetch and write outcomes are inputs, and the store is a value map.
- The `serverTimestamp` field of stored documents: it is a server-side value.
- The Firestore listing order is taken as given: the model does not tie the listing to the store's current keys.
- UpdateCitiesAndCheckWeather: reads the clock once, as `today`. The source calls `new Date()` again for each city, so a batch that runs across midnight is not modelled.
- `toLocaleDateString("pt-BR")` and the device's time zone: the Home screen's day string is the parameter `dayKey`.
- `Object.keys` order: the model takes insertion order, which JavaScript uses only for keys that are not integer-like. pt-BR date strings ("dd/mm/yyyy") never are, so the two agree; a `dayKey` returning integer-like strings is not modelled.
- Date and time formatting in the narration, `toFixed(1)` / `parseFloat` rounding, and the `visibility / 1000` conversion: numbers are reals, kept before rounding.
- Floating-point behaviour, NaN and infinities in the payload: temperatures and speeds are reals.
- Text.Lower: lower-cases only ASCII and Latin-1 capitals; the rest of Unicode case mapping is not modelled.
- HomeScreen.GetBackgroundImage: a description equal to an inherited object property name (such as "constructor") gives the clear-sky image. In the source it would select that property.
- Malformed payloads are not modelled: a response without `list`, an entry without `weather`, or a `rain` / `snow` block without `"3h"`. Each is a typed field.
- The speech engine itself: speaking, stopping and the order in which it fires callbacks. The model returns the requested action, and callbacks are separate events.
- React's batching and stale closures: each event sees the state the previous one left.
- Rendering, styles, the Home screen's read-aloud toggle, the Search screen, App.tsx (notifications, background task, timers, user id generation), routing and Express and Firebase setup are not part of this model.
