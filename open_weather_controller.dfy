/**
 * The backend controller: the per-user alert batch (`updateCitiesAndCheckWeather`)
 * and the single-city fetch-and-save (`verifyAndSaveCity`).
 *
 * The document store is a value (user id -> city name -> stored document) that
 * each operation receives and returns. The store's answers and the weather
 * API's answers are inputs: the city listing, and for each city the outcome of
 * its forecast request and of its write. The server clock enters as `today`,
 * the UTC day number of "now".
 */
module OpenWeatherController {
  import opened Wrappers
  import opened Text
  import opened Forecast

  // ---------------------------------------------------------------------------
  // Inputs and outputs
  // ---------------------------------------------------------------------------

  /** The part of a failed call's `error.response` that the controller reads. */
  datatype UpstreamResponse = UpstreamResponse(status: int, data: string)

  /** A thrown error; `response` is absent for network or database failures. */
  datatype Failure = Failure(response: Option<UpstreamResponse>)

  datatype FetchOutcome = Fetched(data: ForecastData) | FetchFailed(failure: Failure)

  datatype SaveOutcome = Saved | SaveFailed(failure: Failure)

  /** One document of the user's `cities` collection, with what its calls will return. */
  datatype CityRequest = CityRequest(name: string, fetch: FetchOutcome, save: SaveOutcome)

  /** The result of reading the user's `cities` collection. */
  datatype Listing = Listed(cities: seq<CityRequest>) | ListFailed

  /** A stored city document: the forecast payload plus `cityName` (the server timestamp is left out). */
  datatype CityDoc = CityDoc(data: ForecastData, cityName: string)

  type Store = map<string, map<string, CityDoc>>

  datatype Alert = Alert(cityName: string, alert: string, details: seq<ForecastItem>)

  datatype BatchBody =
    | BatchError(error: string)
    | MessageOnly(message: string)
    | WithAlerts(message: string, alerts: seq<Alert>)

  datatype BatchResponse = BatchResponse(status: int, body: BatchBody)

  datatype ErrorPayload = UpstreamError(data: string) | InternalError(message: string)

  datatype VerifyBody =
    | VerifyInvalid(message: string)
    | Exists(data: ForecastData)
    | NotExists(error: ErrorPayload)

  datatype VerifyResponse = VerifyResponse(status: int, body: VerifyBody)

  const InvalidUserMessage := "Parâmetro inválido. userId é obrigatório."
  const NoCitiesMessage := "Nenhuma cidade registrada para este usuário."
  const DoneMessage := "Atualização e verificação concluídas."
  const BatchInternalMessage := "Erro interno no servidor."
  const InvalidParamsMessage := "Parâmetros inválidos. userId e city são obrigatórios."
  const VerifyInternalMessage := "Erro interno no servidor"

  /** JavaScript truthiness of a string request field: present and not empty. */
  predicate Present(field: Option<string>)
  {
    field.Some? && field.value != ""
  }

  // ---------------------------------------------------------------------------
  // The document store
  // ---------------------------------------------------------------------------

  function Lookup(store: Store, user: string, city: string): Option<CityDoc>
  {
    if user in store && city in store[user] then Some(store[user][city]) else None
  }

  /** `users/{user}/cities/{city}.set(doc)`: overwrites that one document. */
  function Put(store: Store, user: string, city: string, doc: CityDoc): (r: Store)
    ensures forall u, c :: Lookup(r, u, c) == if u == user && c == city then Some(doc) else Lookup(store, u, c)
  {
    var docs := if user in store then store[user] else map[];
    store[user := docs[city := doc]]
  }

  // ---------------------------------------------------------------------------
  // Severe-weather detection
  // ---------------------------------------------------------------------------

  /** Largest magnitude of a JavaScript time value, in milliseconds. */
  const MaxTimeValue: int := 8_640_000_000_000_000
  const MillisPerDay: int := 86_400_000

  /** `new Date(dt * 1000)` is a valid date (otherwise `toISOString` throws a RangeError). */
  predicate ValidDate(dt: int)
  {
    -MaxTimeValue <= dt * 1000 <= MaxTimeValue
  }

  /**
   * The UTC calendar day of `dt`. Two valid times give the same
   * `toISOString().split("T")[0]` exactly when they give the same day number.
   */
  function UtcDay(dt: int): int
  {
    (dt * 1000) / MillisPerDay
  }

  predicate MentionsHazard(description: string)
  {
    var d := Lower(description);
    Contains(d, "chuva forte") || Contains(d, "ventos fortes") || Contains(d, "tempestade")
  }

  /** The filter's condition: dated today, and some weather description names a hazard. */
  predicate IsSevere(item: ForecastItem, today: int)
  {
    UtcDay(item.dt) == today &&
    exists j :: 0 <= j < |item.weather| && MentionsHazard(item.weather[j].description)
  }

  /** `list.filter(...)` with the severe-weather condition. */
  function SevereWeather(list: seq<ForecastItem>, today: int): (r: seq<ForecastItem>)
    ensures |r| <= |list|
  {
    if list == [] then []
    else
      var last := list[|list| - 1];
      SevereWeather(list[..|list| - 1], today) + if IsSevere(last, today) then [last] else []
  }

  predicate AllDatesValid(list: seq<ForecastItem>)
  {
    forall i :: 0 <= i < |list| ==> ValidDate(list[i].dt)
  }

  /**
   * The detection step as it runs: the filter computes every entry's date, so
   * one invalid timestamp throws and no result is produced.
   */
  function Detect(list: seq<ForecastItem>, today: int): (r: Option<seq<ForecastItem>>)
    ensures r.Some? <==> AllDatesValid(list)
    ensures r.Some? ==> forall x :: x in r.value <==> x in list && IsSevere(x, today)
  {
    SevereWeatherExact(list, today);
    if AllDatesValid(list) then Some(SevereWeather(list, today)) else None
  }

  /** The alert text, built from a description. */
  function AlertText(description: string): string
  {
    "Previsão de " + description + " hoje."
  }

  /** What one city contributes to `results`: at most one alert. */
  function CityAlert(c: CityRequest, today: int): Option<Alert>
  {
    if c.name == "" then None
    else match c.fetch
      case FetchFailed(_) => None
      case Fetched(data) =>
        match Detect(data.list, today)
        case None => None
        case Some(severe) =>
          if |severe| > 0 then
            SevereWeatherSound(data.list, today, severe[0]);
            Some(Alert(c.name, AlertText(severe[0].weather[0].description), severe))
          else None
  }

  /**
   * A city gives an alert exactly when its name is set, its fetch succeeded, all
   * its dates are valid and some entry is severe; the alert carries all severe
   * entries and names the first weather element of the first of them.
   */
  lemma CityAlertSpec(c: CityRequest, today: int)
    ensures CityAlert(c, today).Some? <==>
      c.name != "" && c.fetch.Fetched? && AllDatesValid(c.fetch.data.list) &&
      |SevereWeather(c.fetch.data.list, today)| > 0
    ensures CityAlert(c, today).Some? ==>
      var a := CityAlert(c, today).value;
      && a.cityName == c.name
      && a.details == SevereWeather(c.fetch.data.list, today)
      && |a.details[0].weather| > 0
      && a.alert == AlertText(a.details[0].weather[0].description)
  {
    if CityAlert(c, today).Some? {
      var severe := SevereWeather(c.fetch.data.list, today);
      SevereWeatherSound(c.fetch.data.list, today, severe[0]);
    }
  }

  function AlertSeq(a: Option<Alert>): seq<Alert>
  {
    if a.Some? then [a.value] else []
  }

  /** The alerts of a city list, in list order. */
  function AlertsFor(cities: seq<CityRequest>, today: int): seq<Alert>
  {
    if cities == [] then []
    else AlertsFor(cities[..|cities| - 1], today) + AlertSeq(CityAlert(cities[|cities| - 1], today))
  }

  /** Whether the batch writes this city's document. */
  predicate Writes(c: CityRequest)
  {
    c.name != "" && c.fetch.Fetched? && c.save.Saved?
  }

  /** The store after the batch's writes for a city list, in list order. */
  function SaveAll(store: Store, user: string, cities: seq<CityRequest>): Store
  {
    if cities == [] then store
    else
      var last := cities[|cities| - 1];
      var before := SaveAll(store, user, cities[..|cities| - 1]);
      if Writes(last) then Put(before, user, last.name, CityDoc(last.fetch.data, last.name)) else before
  }

  /** The payload of the last written document named `name`, if any. */
  function LastWrite(cities: seq<CityRequest>, name: string): Option<ForecastData>
  {
    if cities == [] then None
    else
      var last := cities[|cities| - 1];
      if Writes(last) && last.name == name then Some(last.fetch.data)
      else LastWrite(cities[..|cities| - 1], name)
  }

  // ---------------------------------------------------------------------------
  // Operations
  // ---------------------------------------------------------------------------

  /** `updateCitiesAndCheckWeather`: refresh every city of the user and collect the alerts. */
  method UpdateCitiesAndCheckWeather(userId: Option<string>, listing: Listing, today: int, store: Store)
    returns (response: BatchResponse, store': Store)
    ensures !Present(userId) ==>
      response == BatchResponse(400, BatchError(InvalidUserMessage)) && store' == store
    ensures Present(userId) && listing.ListFailed? ==>
      response == BatchResponse(500, BatchError(BatchInternalMessage)) && store' == store
    ensures Present(userId) && listing == Listed([]) ==>
      response == BatchResponse(200, MessageOnly(NoCitiesMessage)) && store' == store
    ensures Present(userId) && listing.Listed? && listing.cities != [] ==>
      && response == BatchResponse(200, WithAlerts(DoneMessage, AlertsFor(listing.cities, today)))
      && store' == SaveAll(store, userId.value, listing.cities)
  {
    if !Present(userId) {
      return BatchResponse(400, BatchError(InvalidUserMessage)), store;
    }
    var user := userId.value;
    if listing.ListFailed? {
      return BatchResponse(500, BatchError(BatchInternalMessage)), store;
    }
    var cities := listing.cities;
    if cities == [] {
      return BatchResponse(200, MessageOnly(NoCitiesMessage)), store;
    }
    var results: seq<Alert> := [];
    store' := store;
    var i := 0;
    while i < |cities|
      invariant 0 <= i <= |cities|
      invariant results == AlertsFor(cities[..i], today)
      invariant store' == SaveAll(store, user, cities[..i])
    {
      var city := cities[i];
      PrefixStep(cities, i, today, store, user);
      if city.name == "" {
        i := i + 1;
        continue;
      }
      results, store' := CheckCity(user, city, today, results, store');
      i := i + 1;
    }
    assert cities[..|cities|] == cities;
    response := BatchResponse(200, WithAlerts(DoneMessage, results));
  }

  /**
   * The per-city `try` block of the loop: fetch, write (a failed write is only
   * logged), detect, and push at most one alert. A failed fetch skips the rest.
   */
  method CheckCity(user: string, city: CityRequest, today: int, results: seq<Alert>, store: Store)
    returns (results': seq<Alert>, store': Store)
    requires city.name != ""
    ensures results' == results + AlertSeq(CityAlert(city, today))
    ensures store' == if Writes(city) then Put(store, user, city.name, CityDoc(city.fetch.data, city.name)) else store
  {
    results', store' := results, store;
    match city.fetch {
      case FetchFailed(_) =>
      case Fetched(data) =>
        if city.save.Saved? {
          store' := Put(store', user, city.name, CityDoc(data, city.name));
        }
        var severe := Detect(data.list, today);
        if severe.Some? && |severe.value| > 0 {
          SevereWeatherSound(data.list, today, severe.value[0]);
          results' := results' + [Alert(city.name, AlertText(severe.value[0].weather[0].description), severe.value)];
        }
    }
  }

  /** One more city of the prefix: its alert (if any) and its write (if any) come last. */
  lemma PrefixStep(cities: seq<CityRequest>, i: nat, today: int, store: Store, user: string)
    requires i < |cities|
    ensures AlertsFor(cities[..i + 1], today) == AlertsFor(cities[..i], today) + AlertSeq(CityAlert(cities[i], today))
    ensures SaveAll(store, user, cities[..i + 1]) ==
      if Writes(cities[i]) then Put(SaveAll(store, user, cities[..i]), user, cities[i].name, CityDoc(cities[i].fetch.data, cities[i].name))
      else SaveAll(store, user, cities[..i])
  {
    assert cities[..i + 1][..i] == cities[..i];
  }

  /**
   * The `catch` branch of `verifyAndSaveCity`: an error that carries an
   * upstream response is reported with that response's status and data, any
   * other error as a 500 with the fixed message; `exists` is false in both.
   */
  function ErrorResponse(failure: Failure): VerifyResponse
  {
    match failure.response
    case Some(upstream) => VerifyResponse(upstream.status, NotExists(UpstreamError(upstream.data)))
    case None => VerifyResponse(500, NotExists(InternalError(VerifyInternalMessage)))
  }

  /** `verifyAndSaveCity`: fetch one city's forecast, store it, and return it. */
  method VerifyAndSaveCity(userId: Option<string>, city: Option<string>, fetch: FetchOutcome, save: SaveOutcome, store: Store)
    returns (response: VerifyResponse, store': Store)
    ensures !Present(userId) || !Present(city) ==>
      response == VerifyResponse(400, VerifyInvalid(InvalidParamsMessage)) && store' == store
    ensures Present(userId) && Present(city) && fetch.FetchFailed? ==>
      response == ErrorResponse(fetch.failure) && store' == store
    ensures Present(userId) && Present(city) && fetch.Fetched? && save.SaveFailed? ==>
      response == ErrorResponse(save.failure) && store' == store
    ensures Present(userId) && Present(city) && fetch.Fetched? && save.Saved? ==>
      && response == VerifyResponse(200, Exists(fetch.data))
      && store' == Put(store, userId.value, city.value, CityDoc(fetch.data, city.value))
    ensures response.body.Exists? <==> Present(userId) && Present(city) && fetch.Fetched? && save.Saved?
  {
    if !Present(userId) || !Present(city) {
      return VerifyResponse(400, VerifyInvalid(InvalidParamsMessage)), store;
    }
    match fetch {
      case FetchFailed(failure) =>
        response, store' := ErrorResponse(failure), store;
      case Fetched(data) =>
        match save {
          case SaveFailed(failure) =>
            response, store' := ErrorResponse(failure), store;
          case Saved =>
            store' := Put(store, userId.value, city.value, CityDoc(data, city.value));
            response := VerifyResponse(200, Exists(data));
        }
    }
  }

  // ---------------------------------------------------------------------------
  // Properties of the severe-weather filter
  // ---------------------------------------------------------------------------

  /** Every kept entry is an entry of the list that meets the condition. */
  lemma {:induction false} SevereWeatherSound(list: seq<ForecastItem>, today: int, x: ForecastItem)
    requires x in SevereWeather(list, today)
    ensures x in list && IsSevere(x, today)
  {
    var n := |list|;
    if x in SevereWeather(list[..n - 1], today) {
      SevereWeatherSound(list[..n - 1], today, x);
      assert list[..n - 1] <= list;
    }
  }

  /** The filter keeps exactly the list's entries that meet the condition. */
  lemma SevereWeatherExact(list: seq<ForecastItem>, today: int)
    ensures forall x :: x in SevereWeather(list, today) <==> x in list && IsSevere(x, today)
  {
    forall x | x in SevereWeather(list, today) {
      SevereWeatherSound(list, today, x);
    }
    forall x | x in list && IsSevere(x, today) {
      SevereWeatherComplete(list, today, x);
    }
  }

  /** Every entry of the list that meets the condition is kept. */
  lemma {:induction false} SevereWeatherComplete(list: seq<ForecastItem>, today: int, x: ForecastItem)
    requires x in list && IsSevere(x, today)
    ensures x in SevereWeather(list, today)
  {
    var n := |list|;
    if list[n - 1] != x {
      assert x in list[..n - 1] by {
        var k :| 0 <= k < n && list[k] == x;
        assert list[..n - 1][k] == x;
      }
      SevereWeatherComplete(list[..n - 1], today, x);
    }
  }

  /** The filter distributes over concatenation, so it keeps the list's order. */
  lemma {:induction false} SevereWeatherAppend(a: seq<ForecastItem>, b: seq<ForecastItem>, today: int)
    ensures SevereWeather(a + b, today) == SevereWeather(a, today) + SevereWeather(b, today)
    decreases |b|
  {
    if b == [] {
      assert a + b == a;
    } else {
      var n := |b|;
      assert (a + b)[..|a + b| - 1] == a + b[..n - 1];
      SevereWeatherAppend(a, b[..n - 1], today);
    }
  }

  /** A one-entry list keeps its entry exactly when the entry meets the condition. */
  lemma SevereWeatherSingle(x: ForecastItem, today: int)
    ensures SevereWeather([x], today) == if IsSevere(x, today) then [x] else []
  {
    assert [x][..0] == [];
  }

  // ---------------------------------------------------------------------------
  // Properties of the batch
  // ---------------------------------------------------------------------------

  /** The alerts of a concatenation are the alerts of each part, in order. */
  lemma {:induction false} AlertsForAppend(a: seq<CityRequest>, b: seq<CityRequest>, today: int)
    ensures AlertsFor(a + b, today) == AlertsFor(a, today) + AlertsFor(b, today)
    decreases |b|
  {
    if b == [] {
      assert a + b == a;
    } else {
      var n := |b|;
      assert (a + b)[..|a + b| - 1] == a + b[..n - 1];
      assert (a + b)[|a + b| - 1] == b[n - 1];
      var last := AlertSeq(CityAlert(b[n - 1], today));
      assert AlertsFor(a + b, today) == AlertsFor(a + b[..n - 1], today) + last;
      assert AlertsFor(b, today) == AlertsFor(b[..n - 1], today) + last;
      AlertsForAppend(a, b[..n - 1], today);
    }
  }

  /** Each city contributes at most one alert. */
  lemma {:induction false} AlertsForLength(cities: seq<CityRequest>, today: int)
    ensures |AlertsFor(cities, today)| <= |cities|
  {
    if cities != [] {
      AlertsForLength(cities[..|cities| - 1], today);
    }
  }

  /** An alert is in the results exactly when some listed city produced it. */
  lemma {:induction false} AlertsForMembership(cities: seq<CityRequest>, today: int, a: Alert)
    ensures a in AlertsFor(cities, today) <==> exists i :: 0 <= i < |cities| && CityAlert(cities[i], today) == Some(a)
  {
    if cities != [] {
      var n := |cities|;
      var init := cities[..n - 1];
      AlertsForMembership(init, today, a);
      if i :| 0 <= i < n - 1 && CityAlert(init[i], today) == Some(a) {
        assert CityAlert(cities[i], today) == Some(a);
      }
      if i :| 0 <= i < n && CityAlert(cities[i], today) == Some(a) {
        if i < n - 1 {
          assert CityAlert(init[i], today) == Some(a);
        }
      }
    }
  }

  /**
   * Failure isolation: a city whose fetch fails, or whose name is empty,
   * contributes nothing, and the cities around it contribute what they would
   * have contributed anyway.
   */
  lemma FailedCityIsSkipped(before: seq<CityRequest>, c: CityRequest, after: seq<CityRequest>, today: int)
    requires c.name == "" || c.fetch.FetchFailed?
    ensures AlertsFor(before + [c] + after, today) == AlertsFor(before, today) + AlertsFor(after, today)
  {
    NoAlertForFailedCity(c, today);
    AlertsForAppend(before, [c], today);
    assert AlertsFor(before + [c], today) == AlertsFor(before, today);
    AlertsForAppend(before + [c], after, today);
  }

  lemma NoAlertForFailedCity(c: CityRequest, today: int)
    requires c.name == "" || c.fetch.FetchFailed?
    ensures AlertsFor([c], today) == []
  {
    assert CityAlert(c, today) == None;
    assert [c][..0] == [];
  }

  /** A failed write does not stop detection: the city's alert is the one a successful write gives. */
  lemma SaveFailureKeepsAlert(name: string, data: ForecastData, failure: Failure, today: int)
    ensures CityAlert(CityRequest(name, Fetched(data), SaveFailed(failure)), today)
         == CityAlert(CityRequest(name, Fetched(data), Saved), today)
  {
  }

  /**
   * The batch's effect on the store: a document of this user is replaced by
   * the last successful write to that city, and every other document is
   * unchanged (in particular those of cities whose fetch failed).
   */
  lemma {:induction false} SaveAllLookup(store: Store, user: string, cities: seq<CityRequest>, u: string, c: string)
    ensures Lookup(SaveAll(store, user, cities), u, c) ==
      if u == user && LastWrite(cities, c).Some? then Some(CityDoc(LastWrite(cities, c).value, c))
      else Lookup(store, u, c)
  {
    if cities != [] {
      SaveAllLookup(store, user, cities[..|cities| - 1], u, c);
    }
  }

  /** A city that no listed, successfully fetched and saved entry names keeps its stored document. */
  lemma {:induction false} UnwrittenCityUnchanged(store: Store, user: string, cities: seq<CityRequest>, c: string)
    requires forall i :: 0 <= i < |cities| && cities[i].name == c ==> !Writes(cities[i])
    ensures Lookup(SaveAll(store, user, cities), user, c) == Lookup(store, user, c)
  {
    LastWriteNone(cities, c);
    SaveAllLookup(store, user, cities, user, c);
  }

  lemma {:induction false} LastWriteNone(cities: seq<CityRequest>, c: string)
    requires forall i :: 0 <= i < |cities| && cities[i].name == c ==> !Writes(cities[i])
    ensures LastWrite(cities, c) == None
  {
    if cities != [] {
      LastWriteNone(cities[..|cities| - 1], c);
    }
  }

  /**
   * The alert's text is taken from the first weather element of the first
   * severe entry, even when only a later weather element names the hazard.
   */
  lemma AlertUsesFirstWeatherElement(name: string, info: CityInfo, item: ForecastItem, save: SaveOutcome, today: int)
    requires name != ""
    requires ValidDate(item.dt) && UtcDay(item.dt) == today
    requires |item.weather| == 2
    requires item.weather[0].description == "ceu limpo" && item.weather[1].description == "tempestade"
    ensures CityAlert(CityRequest(name, Fetched(ForecastData(info, [item])), save), today)
         == Some(Alert(name, AlertText("ceu limpo"), [item]))
  {
    TempestadeIsHazard();
    assert MentionsHazard(item.weather[1].description);
    assert IsSevere(item, today);
    SevereWeatherSingle(item, today);
  }

  /**
   * Two entries dated today, described "chuva forte" and "ceu limpo": only the
   * first is severe, and the city's alert carries exactly that entry.
   */
  lemma HazardExample(name: string, info: CityInfo, rain: ForecastItem, clear: ForecastItem, save: SaveOutcome, today: int)
    requires name != ""
    requires ValidDate(rain.dt) && UtcDay(rain.dt) == today && ValidDate(clear.dt) && UtcDay(clear.dt) == today
    requires |rain.weather| == 1 && rain.weather[0].description == "chuva forte"
    requires |clear.weather| == 1 && clear.weather[0].description == "ceu limpo"
    ensures SevereWeather([rain, clear], today) == [rain]
    ensures CityAlert(CityRequest(name, Fetched(ForecastData(info, [rain, clear])), save), today)
         == Some(Alert(name, AlertText("chuva forte"), [rain]))
  {
    HazardExampleFilter(rain, clear, today);
    assert AllDatesValid([rain, clear]);
  }

  lemma HazardExampleFilter(rain: ForecastItem, clear: ForecastItem, today: int)
    requires UtcDay(rain.dt) == today && UtcDay(clear.dt) == today
    requires |rain.weather| == 1 && rain.weather[0].description == "chuva forte"
    requires |clear.weather| == 1 && clear.weather[0].description == "ceu limpo"
    ensures SevereWeather([rain, clear], today) == [rain]
  {
    ChuvaForteIsHazard();
    CeuLimpoIsNoHazard();
    assert MentionsHazard(rain.weather[0].description);
    assert IsSevere(rain, today);
    assert !IsSevere(clear, today);
    assert [rain] + [clear] == [rain, clear];
    SevereWeatherAppend([rain], [clear], today);
    SevereWeatherSingle(rain, today);
    SevereWeatherSingle(clear, today);
  }

  lemma TempestadeIsHazard()
    ensures MentionsHazard("tempestade")
  {
    assert Lower("tempestade") == "tempestade";
    assert StartsWith("tempestade", "tempestade");
  }

  lemma ChuvaForteIsHazard()
    ensures MentionsHazard("chuva forte")
  {
    assert Lower("chuva forte") == "chuva forte";
    assert StartsWith("chuva forte", "chuva forte");
  }

  /** A description shorter than every phrase cannot contain one. */
  lemma CeuLimpoIsNoHazard()
    ensures !MentionsHazard("ceu limpo")
  {
    assert Lower("ceu limpo") == "ceu limpo";
    ContainsIffOccurs("ceu limpo", "chuva forte");
    ContainsIffOccurs("ceu limpo", "ventos fortes");
    ContainsIffOccurs("ceu limpo", "tempestade");
  }
}
