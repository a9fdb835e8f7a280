/**
 * What each screen of the app shows, as sequences of row descriptors
 * instead of DOM nodes: the loading placeholder, city cards, the
 * recently-viewed section, the today panel and the forecast grid.
 */
module View {
  import opened Types

  /** A city card: clicking it opens the detail screen with this city and this response. */
  datatype Card = Card(city: City, weather: WeatherResponse)

  datatype PlaceholderItem = LoadingText | Bar

  datatype HomeRow =
    | Placeholder(items: seq<PlaceholderItem>)
    | CityCard(card: Card)
    | RecentHeading

  /** A temperature cell: the value, or the text "Unknown". */
  datatype TempLabel = Degrees(value: real) | Unknown

  /** A forecast row's day: "Today", or the weekday name of its date. */
  datatype DayLabel = Today | Weekday(date: string)

  datatype GridRow = GridRow(day: DayLabel, iconCode: int, low: TempLabel, high: TempLabel)

  datatype TodayPanel = TodayPanel(name: string, temperature: real, weatherCode: int, high: TempLabel, low: TempLabel)

  datatype DetailContent =
    | Loading                                              // the "loading..." indicator
    | Cleared                                              // emptied, then building the today panel threw
    | Shown(panel: TodayPanel, grid: Option<seq<GridRow>>)  // grid is None when building it threw

  /** The screen in the app's root element; the home screen always carries the search and map controls. */
  datatype Screen =
    | Empty
    | Home(rows: seq<HomeRow>)
    | Detail(city: City, today: Current, content: DetailContent)
    | MapView

  const PlaceholderBars := 4
  const RecentLimit := 5

  /** The loading placeholder: its heading, then exactly four grey bars. */
  function PlaceholderItems(): (items: seq<PlaceholderItem>)
    ensures |items| == 1 + PlaceholderBars && items[0] == LoadingText
    ensures forall i :: 1 <= i < |items| ==> items[i] == Bar
  {
    [LoadingText] + seq(PlaceholderBars, _ => Bar)
  }

  method CreateCityPlaceholder() returns (items: seq<PlaceholderItem>)
    ensures items == PlaceholderItems()
  {
    items := [LoadingText];
    for i := 0 to PlaceholderBars
      invariant |items| == 1 + i && items[0] == LoadingText
      invariant forall k :: 1 <= k < |items| ==> items[k] == Bar
    {
      items := items + [Bar];
    }
  }

  /** `createLocationDiv`: it reads `current.weather_code`, so it throws when `current` is absent. */
  function CreateLocationCard(city: City, weather: WeatherResponse): (card: Option<Card>)
    ensures card.Some? <==> weather.current.Some?
    ensures card.Some? ==> card.value.city == city && card.value.weather == weather
  {
    if weather.current.Some? then Some(Card(city, weather)) else None
  }

  /** Every card on a home screen was built from a response that has `current`. */
  ghost predicate CardsWellFormed(screen: Screen) {
    screen.Home? ==>
      forall i :: 0 <= i < |screen.rows| && screen.rows[i].CityCard? ==>
        screen.rows[i].card.weather.current.Some?
  }

  /** `slice(0, 5)`: the first five entries, or all of them when there are fewer. */
  function LimitedRecentlyViewed(list: seq<City>): (shown: seq<City>)
    ensures |shown| <= RecentLimit && |shown| <= |list| && shown == list[..|shown|]
    ensures |list| >= RecentLimit ==> |shown| == RecentLimit
    ensures |list| < RecentLimit ==> shown == list
  {
    if |list| <= RecentLimit then list else list[..RecentLimit]
  }

  /** How many responses, from the front, have `current`. */
  function WellFormedPrefix(weathers: seq<WeatherResponse>): (k: nat)
    ensures k <= |weathers|
    ensures forall i :: 0 <= i < k ==> weathers[i].current.Some?
    ensures k < |weathers| ==> weathers[k].current.None?
  {
    if weathers == [] || weathers[0].current.None? then 0
    else
      var k := 1 + WellFormedPrefix(weathers[1..]);
      assert forall i :: 1 <= i < |weathers| ==> weathers[i] == weathers[1..][i - 1];
      k
  }

  /**
   * The recently-viewed section: nothing for an empty list; otherwise the
   * heading and a card for each of the first five cities, paired by index
   * with the responses, up to the first response without `current`, where
   * building a card throws and the rest is not appended.
   */
  function RecentlyViewedRows(recent: seq<City>, weathers: seq<WeatherResponse>): (rows: seq<HomeRow>)
    requires |weathers| == |recent|
    ensures rows == [] <==> |recent| == 0
    ensures |recent| > 0 ==> rows[0] == RecentHeading && |rows| <= 1 + |LimitedRecentlyViewed(recent)|
    ensures forall i :: 1 <= i < |rows| ==> rows[i] == CityCard(Card(recent[i - 1], weathers[i - 1]))
    ensures forall i :: 1 <= i < |rows| ==> rows[i].card.weather.current.Some?
    ensures |recent| > 0 && 1 + |LimitedRecentlyViewed(recent)| > |rows| ==> weathers[|rows| - 1].current.None?
  {
    if |recent| == 0 then []
    else
      var shown := LimitedRecentlyViewed(recent);
      var k := WellFormedPrefix(weathers[..|shown|]);
      [RecentHeading] + seq(k, i requires 0 <= i < k => CityCard(Card(shown[i], weathers[i])))
  }

  method DisplayRecentlyViewedCities(recent: seq<City>, weathers: seq<WeatherResponse>) returns (rows: seq<HomeRow>)
    requires |weathers| == |recent|
    ensures rows == RecentlyViewedRows(recent, weathers)
  {
    rows := [];
    if |recent| > 0 {
      rows := [RecentHeading];
      var shown := LimitedRecentlyViewed(recent);
      var i := 0;
      while i < |shown|
        invariant 0 <= i <= |shown|
        invariant forall j :: 0 <= j < i ==> weathers[j].current.Some?
        invariant rows == [RecentHeading] + seq(i, j requires 0 <= j < i => CityCard(Card(shown[j], weathers[j])))
      {
        var card := CreateLocationCard(shown[i], weathers[i]);
        if card.None? {
          break;
        }
        rows := rows + [CityCard(card.value)];
        i := i + 1;
      }
      assert i == WellFormedPrefix(weathers[..|shown|]);
    }
  }

  /** The section exists exactly when the list is non-empty, and then it starts with its heading. */
  lemma RecentHeadingIffNonEmpty(recent: seq<City>, weathers: seq<WeatherResponse>)
    requires |weathers| == |recent|
    ensures RecentlyViewedRows(recent, weathers) != [] <==> |recent| > 0
    ensures |recent| > 0 ==> RecentlyViewedRows(recent, weathers)[0] == RecentHeading
  {
  }

  /**
   * At most five cards, and card i shows the i-th newest city with the i-th
   * response; when every response has `current` there are exactly
   * min(5, |recent|) cards.
   */
  lemma RecentCardsPairedByIndex(recent: seq<City>, weathers: seq<WeatherResponse>)
    requires |weathers| == |recent| && |recent| > 0
    ensures var rows := RecentlyViewedRows(recent, weathers);
      1 <= |rows| <= 1 + RecentLimit &&
      forall i :: 1 <= i < |rows| ==> rows[i] == CityCard(Card(recent[i - 1], weathers[i - 1]))
    ensures (forall i :: 0 <= i < |weathers| ==> weathers[i].current.Some?) ==>
      |RecentlyViewedRows(recent, weathers)| == 1 + |LimitedRecentlyViewed(recent)|
  {
  }

  /** `x?.[i] ?? ...`: the element, unless the array is absent, too short, or holds null there. */
  function At<T>(values: Option<seq<Option<T>>>, i: nat): (v: Option<T>)
    ensures v.Some? <==> values.Some? && i < |values.value| && values.value[i].Some?
    ensures v.Some? ==> v.value == values.value[i].value
  {
    match values
    case None => None
    case Some(vs) => if i < |vs| then vs[i] else None
  }

  function TempLabelAt(values: Option<seq<Option<real>>>, i: nat): (cell: TempLabel)
    ensures cell == Unknown <==> At(values, i).None?
    ensures cell.Degrees? ==> cell.value == At(values, i).value
  {
    match At(values, i)
    case Some(t) => Degrees(t)
    case None => Unknown
  }

  /**
   * `createTodayDiv`: the city's name, today's temperature and code, and
   * the H/L line from index 0 of the daily maxima and minima. Reading
   * `daily.temperature_2m_max` throws when `daily` is absent.
   */
  function CreateTodayPanel(city: City, today: Current, daily: Option<Daily>): (panel: Option<TodayPanel>)
    ensures panel.Some? <==> daily.Some?
    ensures panel.Some? ==>
      panel.value.name == city.name && panel.value.temperature == today.temperature &&
      panel.value.weatherCode == today.weatherCode &&
      panel.value.high == TempLabelAt(daily.value.tempMax, 0) &&
      panel.value.low == TempLabelAt(daily.value.tempMin, 0)
  {
    match daily
    case None => None
    case Some(d) =>
      Some(TodayPanel(city.name, today.temperature, today.weatherCode,
                      TempLabelAt(d.tempMax, 0), TempLabelAt(d.tempMin, 0)))
  }

  /** Row i of the forecast grid; a missing weather code falls back to code 0. */
  function GridRowAt(d: Daily, time: seq<string>, i: nat): (row: GridRow)
    requires i < |time|
    ensures row.day == Today <==> i == 0
    ensures i > 0 ==> row.day == Weekday(time[i])
    ensures At(d.weatherCode, i).None? ==> row.iconCode == 0
    ensures At(d.weatherCode, i).Some? ==> row.iconCode == At(d.weatherCode, i).value
    ensures row.low == TempLabelAt(d.tempMin, i) && row.high == TempLabelAt(d.tempMax, i)
  {
    GridRow(if i == 0 then Today else Weekday(time[i]), At(d.weatherCode, i).GetOr(0),
            TempLabelAt(d.tempMin, i), TempLabelAt(d.tempMax, i))
  }

  /** `createGridDiv`: one row per entry of `daily.time`; reading its length throws when it is absent. */
  function GridRows(d: Daily): (grid: Option<seq<GridRow>>)
    ensures grid.Some? <==> d.time.Some?
    ensures grid.Some? ==>
      |grid.value| == |d.time.value| &&
      forall i :: 0 <= i < |grid.value| ==> grid.value[i] == GridRowAt(d, d.time.value, i)
  {
    match d.time
    case None => None
    case Some(time) => Some(seq(|time|, i requires 0 <= i < |time| => GridRowAt(d, time, i)))
  }

  method CreateGridDiv(d: Daily) returns (grid: Option<seq<GridRow>>)
    ensures grid == GridRows(d)
  {
    if d.time.None? {
      return None;
    }
    var time := d.time.value;
    var rows: seq<GridRow> := [];
    for i := 0 to |time|
      invariant |rows| == i
      invariant forall j :: 0 <= j < i ==> rows[j] == GridRowAt(d, time, j)
    {
      var day := if i == 0 then Today else Weekday(time[i]);
      var code := At(d.weatherCode, i).GetOr(0);
      rows := rows + [GridRow(day, code, TempLabelAt(d.tempMin, i), TempLabelAt(d.tempMax, i))];
    }
    assert rows == seq(|time|, i requires 0 <= i < |time| => GridRowAt(d, time, i));
    grid := Some(rows);
  }

  /**
   * The grid has one row per date; only row 0 reads "Today"; a cell whose
   * value is missing at that index reads "Unknown".
   */
  lemma GridShape(d: Daily, i: nat)
    requires d.time.Some? && i < |d.time.value|
    ensures GridRows(d).Some? && |GridRows(d).value| == |d.time.value|
    ensures GridRows(d).value[i].day == (if i == 0 then Today else Weekday(d.time.value[i]))
    ensures GridRows(d).value[i].low == Unknown <==> At(d.tempMin, i).None?
    ensures GridRows(d).value[i].high == Unknown <==> At(d.tempMax, i).None?
  {
  }

  /** `updateDetailDiv`: the detail screen is emptied, then gets the today panel, then the grid. */
  function DetailContentOf(city: City, today: Current, forecast: ForecastResponse): (content: DetailContent)
    ensures content == Cleared <==> forecast.daily.None?
    ensures content.Shown? ==> content.grid == GridRows(forecast.daily.value)
    ensures forecast.daily.Some? ==>
      content == Shown(CreateTodayPanel(city, today, forecast.daily).value, GridRows(forecast.daily.value))
  {
    match CreateTodayPanel(city, today, forecast.daily)
    case None => Cleared
    case Some(panel) => Shown(panel, GridRows(forecast.daily.value))
  }

  /** The back button is built only into the today panel and the map screen. */
  predicate HasBackButton(screen: Screen)
    ensures HasBackButton(screen) ==> screen.MapView? || screen.Detail?
    ensures screen.MapView? ==> HasBackButton(screen)
    ensures screen.Detail? ==> (HasBackButton(screen) <==> screen.content.Shown?)
  {
    match screen
    case MapView => true
    case Detail(_, _, content) => content.Shown?
    case _ => false
  }
}
