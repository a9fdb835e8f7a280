/**
 * The app's controller: which screen is shown, the fetches that feed each
 * screen, and when a city enters the recently-viewed list.
 */
module App {
  import opened Types
  import opened Utilities
  import opened Recent
  import opened View

  /** `Promise.all`: every result, in the order of the requests, or a rejection if any request rejects. */
  function AllOf<T>(results: seq<Option<T>>): (all: Option<seq<T>>)
    ensures all.Some? <==> forall i :: 0 <= i < |results| ==> results[i].Some?
    ensures all.Some? ==>
      |all.value| == |results| && forall i :: 0 <= i < |results| ==> all.value[i] == results[i].value
  {
    if results == [] then Some([])
    else
      assert forall i :: 1 <= i < |results| ==> results[i] == results[1..][i - 1];
      match results[0]
      case None => None
      case Some(first) =>
        match AllOf(results[1..])
        case None => None
        case Some(rest) => Some([first] + rest)
  }

  /** One tracked city's card: fetch its weather, then build the card. */
  function LoadCard(city: City, net: Network): (card: Option<Card>)
    ensures card.Some? <==> net.weather(city).Some? && net.weather(city).value.current.Some?
    ensures card.Some? ==> card.value == Card(city, net.weather(city).value)
  {
    match net.weather(city)
    case None => None
    case Some(weather) => CreateLocationCard(city, weather)
  }

  /** The cards of all tracked cities, or a rejection if any one of them fails. */
  function TrackedCards(tracked: seq<City>, net: Network): (cards: Option<seq<Card>>)
    ensures cards.Some? <==> forall i :: 0 <= i < |tracked| ==> LoadCard(tracked[i], net).Some?
    ensures cards.Some? ==>
      |cards.value| == |tracked| &&
      forall i :: 0 <= i < |tracked| ==> Some(cards.value[i]) == LoadCard(tracked[i], net)
  {
    var loads := seq(|tracked|, i requires 0 <= i < |tracked| => LoadCard(tracked[i], net));
    assert forall i :: 0 <= i < |tracked| ==> loads[i] == LoadCard(tracked[i], net);
    AllOf(loads)
  }

  /** The weather of every stored recent city (not only the five shown), or a rejection. */
  function RecentWeathers(recent: seq<City>, net: Network): (weathers: Option<seq<WeatherResponse>>)
    ensures weathers.Some? <==> forall i :: 0 <= i < |recent| ==> net.weather(recent[i]).Some?
    ensures weathers.Some? ==>
      |weathers.value| == |recent| &&
      forall i :: 0 <= i < |recent| ==> Some(weathers.value[i]) == net.weather(recent[i])
  {
    var fetches := seq(|recent|, i requires 0 <= i < |recent| => net.weather(recent[i]));
    assert forall i :: 0 <= i < |recent| ==> fetches[i] == net.weather(recent[i]);
    AllOf(fetches)
  }

  function CardRows(cards: seq<Card>): seq<HomeRow> {
    seq(|cards|, i requires 0 <= i < |cards| => CityCard(cards[i]))
  }

  /**
   * The home screen once `displayWeather` has finished. Any failed tracked
   * city leaves the loading placeholder in place and skips the rest; an
   * unreadable store or any failed recent city leaves out the whole
   * recently-viewed section.
   */
  function LoadedHome(tracked: seq<City>, stored: Stored, net: Network): (screen: Screen)
    ensures screen.Home?
  {
    match TrackedCards(tracked, net)
    case None => Home([Placeholder(PlaceholderItems())])
    case Some(cards) =>
      match Read(stored)
      case None => Home(CardRows(cards))
      case Some(recent) =>
        match RecentWeathers(recent, net)
        case None => Home(CardRows(cards))
        case Some(weathers) => Home(CardRows(cards) + RecentlyViewedRows(recent, weathers))
  }

  /** Tracked cards keep the order of the tracked cities, not the order in which responses arrive. */
  lemma TrackedCardsInOrder(tracked: seq<City>, net: Network)
    requires TrackedCards(tracked, net).Some?
    ensures var cards := TrackedCards(tracked, net).value;
      |cards| == |tracked| &&
      forall i :: 0 <= i < |tracked| ==>
        cards[i].city == tracked[i] && net.weather(tracked[i]) == Some(cards[i].weather) &&
        cards[i].weather.current.Some?
  {
  }

  /** One tracked city that fails aborts the whole render: only the placeholder is shown. */
  lemma TrackedFailureKeepsPlaceholder(tracked: seq<City>, stored: Stored, net: Network, j: nat)
    requires j < |tracked| && LoadCard(tracked[j], net).None?
    ensures LoadedHome(tracked, stored, net) == Home([Placeholder(PlaceholderItems())])
  {
    var loads := seq(|tracked|, i requires 0 <= i < |tracked| => LoadCard(tracked[i], net));
    assert loads[j].None?;
  }

  /**
   * One stored city whose fetch fails, even one beyond the five shown,
   * leaves out the whole section: not even its heading is shown.
   */
  lemma RecentFailureDropsSection(tracked: seq<City>, stored: Stored, net: Network, j: nat)
    requires TrackedCards(tracked, net).Some? && Read(stored).Some?
    requires j < |Read(stored).value| && net.weather(Read(stored).value[j]).None?
    ensures LoadedHome(tracked, stored, net) == Home(CardRows(TrackedCards(tracked, net).value))
  {
    var recent := Read(stored).value;
    var fetches := seq(|recent|, i requires 0 <= i < |recent| => net.weather(recent[i]));
    assert fetches[j].None?;
  }

  /** An unreadable store: the tracked cards are shown, the recently-viewed section is not. */
  lemma UnreadableStoreDropsSection(tracked: seq<City>, net: Network)
    requires TrackedCards(tracked, net).Some?
    ensures LoadedHome(tracked, Unreadable, net) == Home(CardRows(TrackedCards(tracked, net).value))
  {
  }

  /**
   * When every fetch succeeds, the tracked cards are followed by the
   * recently-viewed section built from the stored list and one response per
   * stored city, in the same order.
   */
  lemma RecentSectionFollowsStore(tracked: seq<City>, stored: Stored, net: Network)
    requires TrackedCards(tracked, net).Some? && Read(stored).Some?
    requires forall i :: 0 <= i < |Read(stored).value| ==> net.weather(Read(stored).value[i]).Some?
    ensures var recent := Read(stored).value;
      RecentWeathers(recent, net).Some? &&
      var weathers := RecentWeathers(recent, net).value;
      |weathers| == |recent| &&
      (forall i :: 0 <= i < |recent| ==> Some(weathers[i]) == net.weather(recent[i])) &&
      LoadedHome(tracked, stored, net) == Home(CardRows(TrackedCards(tracked, net).value) + RecentlyViewedRows(recent, weathers))
  {
  }

  /** A missing list reads as the empty one, both when rendering and when adding. */
  lemma MissingStoreReadsEmpty(tracked: seq<City>, net: Network, city: City)
    ensures LoadedHome(tracked, Missing, net) == LoadedHome(tracked, Holds([]), net)
    ensures LoadedHome(tracked, Missing, net).rows == (match TrackedCards(tracked, net)
      case None => [Placeholder(PlaceholderItems())]
      case Some(cards) => CardRows(cards))
    ensures StoreAfterAdd(Missing, city) == Holds([city])
    ensures WritesOfAdd(Missing, city) == [[city]]
  {
  }

  /** Every card on the loaded home screen can be clicked through to a detail screen. */
  lemma LoadedHomeCardsWellFormed(tracked: seq<City>, stored: Stored, net: Network)
    ensures CardsWellFormed(LoadedHome(tracked, stored, net))
  {
    var screen := LoadedHome(tracked, stored, net);
    if TrackedCards(tracked, net).Some? {
      TrackedCardsInOrder(tracked, net);
      var cards := TrackedCards(tracked, net).value;
      if Read(stored).Some? && RecentWeathers(Read(stored).value, net).Some? {
        var recent := Read(stored).value;
        var weathers := RecentWeathers(recent, net).value;
        if |recent| > 0 {
          var shown := LimitedRecentlyViewed(recent);
          var k := WellFormedPrefix(weathers[..|shown|]);
          forall i | 0 <= i < k ensures weathers[i].current.Some? {
            assert weathers[..|shown|][i] == weathers[i];
          }
        }
      }
    }
  }

  /**
   * The screen after `displayWeatherDetail(city, today)`: the old screen is
   * removed first; building the detail screen throws when `today` has no
   * `current`; then the forecast fills it, or a failed forecast leaves it
   * loading.
   */
  function DetailScreen(city: City, today: WeatherResponse, net: Network): (screen: Screen)
    ensures screen.Detail? <==> today.current.Some?
    ensures screen.Detail? ==> screen.city == city && screen.today == today.current.value
    ensures !screen.Detail? ==> screen == Empty
  {
    match today.current
    case None => Empty
    case Some(current) =>
      var content := match net.forecast(city)
        case None => Loading
        case Some(forecast) => DetailContentOf(city, current, forecast);
      Detail(city, current, content)
  }

  /**
   * A failed forecast is terminal for the visit: the screen keeps its
   * loading indicator and offers no back button, search or map control.
   */
  lemma ForecastFailureStrandsDetail(city: City, today: WeatherResponse, net: Network)
    requires today.current.Some? && net.forecast(city).None?
    ensures DetailScreen(city, today, net) == Detail(city, today.current.value, Loading)
    ensures !HasBackButton(DetailScreen(city, today, net))
  {
  }

  /**
   * A successful forecast with all its arrays gives the today panel and a
   * grid with one row per date, the first labelled "Today".
   */
  lemma ForecastFillsDetail(city: City, today: WeatherResponse, net: Network)
    requires today.current.Some? && net.forecast(city).Some?
    requires net.forecast(city).value.daily.Some? && net.forecast(city).value.daily.value.time.Some?
    ensures var screen := DetailScreen(city, today, net);
      var time := net.forecast(city).value.daily.value.time.value;
      screen.content.Shown? && HasBackButton(screen) &&
      screen.content.grid.Some? && |screen.content.grid.value| == |time| &&
      (|time| > 0 ==> screen.content.grid.value[0].day == Today)
  {
  }

  /** Clicking a card always reaches the detail screen of that card's own city and response. */
  lemma CardOpensItsCity(card: Card, net: Network)
    requires card.weather.current.Some?
    ensures DetailScreen(card.city, card.weather, net).Detail?
    ensures DetailScreen(card.city, card.weather, net).city == card.city
    ensures DetailScreen(card.city, card.weather, net).today == card.weather.current.value
  {
  }

  /** JavaScript's white space and line terminators, which `trim` removes. */
  predicate IsJsWhitespace(ch: char) {
    ch == ' ' || ch == '\t' || ch == '\n' || ch == '\r' || ch == '\U{000B}' || ch == '\U{000C}' ||
    ch == '\U{00A0}' || ch == '\U{1680}' || ('\U{2000}' <= ch <= '\U{200A}') ||
    ch == '\U{2028}' || ch == '\U{2029}' || ch == '\U{202F}' || ch == '\U{205F}' ||
    ch == '\U{3000}' || ch == '\U{FEFF}'
  }

  function TrimStart(s: string): (r: string)
    ensures |r| <= |s| && r == s[|s| - |r|..]
    ensures forall i :: 0 <= i < |s| - |r| ==> IsJsWhitespace(s[i])
    ensures r != [] ==> !IsJsWhitespace(r[0])
  {
    if s != [] && IsJsWhitespace(s[0]) then
      var r := TrimStart(s[1..]);
      assert forall i :: 1 <= i < |s| ==> s[i] == s[1..][i - 1];
      r
    else s
  }

  function TrimEnd(s: string): (r: string)
    ensures |r| <= |s| && r == s[..|r|]
    ensures forall i :: |r| <= i < |s| ==> IsJsWhitespace(s[i])
    ensures r != [] ==> !IsJsWhitespace(r[|r| - 1])
  {
    if s != [] && IsJsWhitespace(s[|s| - 1]) then
      var r := TrimEnd(s[..|s| - 1]);
      assert forall i :: 0 <= i < |s| - 1 ==> s[i] == s[..|s| - 1][i];
      r
    else s
  }

  /** `s` is `r` preceded by `k` white-space characters and followed by white space only. */
  ghost predicate PaddedBy(s: string, r: string, k: nat) {
    k + |r| <= |s| && r == s[k..k + |r|] &&
    (forall i :: 0 <= i < k ==> IsJsWhitespace(s[i])) &&
    (forall i :: k + |r| <= i < |s| ==> IsJsWhitespace(s[i]))
  }

  /** `String.prototype.trim`: only leading and trailing white space is removed. */
  function Trim(s: string): (r: string)
    ensures r != [] ==> !IsJsWhitespace(r[0]) && !IsJsWhitespace(r[|r| - 1])
    ensures exists k: nat :: PaddedBy(s, r, k)
  {
    var t := TrimStart(s);
    var r := TrimEnd(t);
    assert r != [] ==> r[0] == t[0];
    TrimEndOfSuffixPads(s, |s| - |t|);
    r
  }

  /** Trimming the end of a suffix of `s` that follows only white space removes white space from both ends of `s`. */
  lemma TrimEndOfSuffixPads(s: string, k: nat)
    requires k <= |s| && forall i :: 0 <= i < k ==> IsJsWhitespace(s[i])
    ensures PaddedBy(s, TrimEnd(s[k..]), k)
  {
    var t := s[k..];
    var r := TrimEnd(t);
    assert r == s[k..k + |r|];
    forall i | k + |r| <= i < |s| ensures IsJsWhitespace(s[i]) {
      assert s[i] == t[i - k];
    }
  }

  /** A name trims to nothing exactly when it is all white space. */
  lemma TrimEmptyIffBlank(s: string)
    ensures Trim(s) == [] <==> forall i :: 0 <= i < |s| ==> IsJsWhitespace(s[i])
  {
  }

  /**
   * The city a search resolves to: the trimmed name, when not empty, is
   * geocoded and the first result taken. `None` when the name is blank, the
   * request rejects or there is no result.
   */
  function SearchedCity(input: string, net: Network): (found: Option<City>)
    ensures Trim(input) == [] ==> found.None?
    ensures found.Some? <==>
      Trim(input) != [] && net.geocode(Trim(input)).Some? && ExtractCityData(net.geocode(Trim(input)).value).Some?
    ensures found.Some? ==> found == ExtractCityData(net.geocode(Trim(input)).value)
  {
    var cityName := Trim(input);
    if cityName == [] then None
    else
      match net.geocode(cityName)
      case None => None
      case Some(data) => ExtractCityData(data)
  }

  /** A blank search resolves to nothing, whatever the network would have answered. */
  lemma BlankSearchFindsNothing(input: string, net: Network)
    requires forall i :: 0 <= i < |input| ==> IsJsWhitespace(input[i])
    ensures SearchedCity(input, net) == None
  {
  }

  /**
   * The screen after a resolved city is added and opened (search and map
   * click): an unreadable store throws before anything else happens, a
   * failed weather fetch stops before the detail screen.
   */
  function ScreenAfterOpen(screen: Screen, stored: Stored, city: City, net: Network): (next: Screen)
    ensures stored.Unreadable? || net.weather(city).None? ==> next == screen
    ensures !stored.Unreadable? && net.weather(city).Some? ==> next == DetailScreen(city, net.weather(city).value, net)
    ensures next != screen ==> next == Empty || (next.Detail? && next.city == city)
  {
    if stored.Unreadable? then screen
    else
      match net.weather(city)
      case None => screen
      case Some(weather) => DetailScreen(city, weather, net)
  }

  /**
   * The city is added before its weather is fetched: when that fetch fails
   * the list has already grown by the city, yet the screen stays.
   */
  lemma AddPrecedesWeatherFetch(screen: Screen, stored: Stored, city: City, net: Network)
    requires Read(stored).Some? && !Contains(Read(stored).value, city)
    requires net.weather(city).None?
    ensures ScreenAfterOpen(screen, stored, city, net) == screen
    ensures StoreAfterAdd(stored, city) == Holds([city] + Read(stored).value)
    ensures WritesOfAdd(stored, city) == [[city] + Read(stored).value]
  {
  }

  /**
   * A newly added city is the first card of the recently-viewed section;
   * the entries shown before follow it, and the fifth of them drops out of view.
   */
  lemma NewCityShownFirst(list: seq<City>, city: City)
    requires !Contains(list, city)
    ensures var shown := LimitedRecentlyViewed(Added(list, city));
      |shown| == (if |list| < RecentLimit then |list| + 1 else RecentLimit) &&
      shown[0] == city && shown[1..] == LimitedRecentlyViewed(list)[..|shown| - 1]
  {
  }

  /** The page: the screen in its root element and the session's recently-viewed entry. */
  class App {
    const tracked: seq<City>  // `Object.values(cities)`
    var screen: Screen
    var store: Stored
    ghost var writes: seq<seq<City>>  // every list written with `setItem`, oldest first

    ghost predicate Valid()
      reads this
    {
      (store.Holds? ==> NoDuplicates(store.cities)) && CardsWellFormed(screen)
    }

    constructor (tracked: seq<City>, session: Stored)
      requires session.Holds? ==> NoDuplicates(session.cities)
      ensures Valid()
      ensures this.tracked == tracked && screen == Empty && store == session && writes == []
    {
      this.tracked := tracked;
      screen := Empty;
      store := session;
      writes := [];
    }

    /** `addRecentlyViewedCity`; `ok` is false when reading the stored list throws. */
    method AddRecentlyViewedCity(city: City) returns (ok: bool)
      requires Valid()
      modifies this`store, this`writes
      ensures Valid()
      ensures ok <==> !old(store).Unreadable?
      ensures store == StoreAfterAdd(old(store), city)
      ensures writes == old(writes) + WritesOfAdd(old(store), city)
    {
      var stored := Read(store);
      if stored.None? {
        return false;
      }
      var recentlyViewed := stored.value;
      var cityExists := Contains(recentlyViewed, city);
      if !cityExists {
        AddPreservesNoDuplicates(recentlyViewed, city);
        recentlyViewed := [city] + recentlyViewed;
        store := Holds(recentlyViewed);
        writes := writes + [recentlyViewed];
      }
      return true;
    }

    /** `displaySkeleton`: the home screen with its loading placeholder, then `displayWeather`. */
    method DisplaySkeleton(net: Network)
      requires Valid()
      modifies this`screen
      ensures Valid()
      ensures screen == LoadedHome(tracked, store, net)
    {
      var placeholder := CreateCityPlaceholder();
      screen := Home([Placeholder(placeholder)]);
      DisplayWeather(net);
    }

    method DisplayWeather(net: Network)
      requires Valid() && screen == Home([Placeholder(PlaceholderItems())])
      modifies this`screen
      ensures Valid()
      ensures screen == LoadedHome(tracked, store, net)
    {
      LoadedHomeCardsWellFormed(tracked, store, net);
      var cards := TrackedCards(tracked, net);
      if cards.None? {
        return;
      }
      var rows := CardRows(cards.value);
      screen := Home(rows);
      var recentlyViewed := Read(store);
      if recentlyViewed.None? {
        return;
      }
      var weatherDataList := RecentWeathers(recentlyViewed.value, net);
      if weatherDataList.None? {
        return;
      }
      var recentRows := DisplayRecentlyViewedCities(recentlyViewed.value, weatherDataList.value);
      screen := Home(rows + recentRows);
    }

    /** `displayWeatherDetail`. */
    method DisplayWeatherDetail(city: City, today: WeatherResponse, net: Network)
      requires Valid()
      modifies this`screen
      ensures Valid()
      ensures screen == DetailScreen(city, today, net)
    {
      if today.current.None? {
        screen := Empty;
        return;
      }
      var current := today.current.value;
      screen := Detail(city, current, Loading);
      var forecast := net.forecast(city);
      if forecast.None? {
        return;
      }
      screen := Detail(city, current, Cleared);
      var panel := CreateTodayPanel(city, current, forecast.value.daily);
      if panel.None? {
        return;
      }
      var grid := CreateGridDiv(forecast.value.daily.value);
      screen := Detail(city, current, Shown(panel.value, grid));
    }

    /** `handleSearch`, fired by the search field or button of the home screen. */
    method HandleSearch(input: string, net: Network)
      requires Valid() && screen.Home?
      modifies this`screen, this`store, this`writes
      ensures Valid()
      ensures SearchedCity(input, net).None? ==>
        screen == old(screen) && store == old(store) && writes == old(writes)
      ensures SearchedCity(input, net).Some? ==>
        var city := SearchedCity(input, net).value;
        store == StoreAfterAdd(old(store), city) &&
        writes == old(writes) + WritesOfAdd(old(store), city) &&
        screen == ScreenAfterOpen(old(screen), old(store), city, net)
    {
      var cityName := Trim(input);
      if cityName == [] {
        return;
      }
      var cityData := net.geocode(cityName);
      if cityData.None? {
        return;
      }
      var city := ExtractCityData(cityData.value);
      if city.None? {
        return;
      }
      var ok := AddRecentlyViewedCity(city.value);
      if !ok {
        return;
      }
      var weatherData := net.weather(city.value);
      if weatherData.None? {
        return;
      }
      DisplayWeatherDetail(city.value, weatherData.value, net);
    }

    /** The map button of the home screen: `map()`. */
    method OpenMap()
      requires Valid() && screen.Home?
      modifies this`screen
      ensures Valid()
      ensures screen == MapView
    {
      screen := MapView;
    }

    /** A click on the map at (lat, lng). */
    method MapClick(lat: real, lng: real, toFixed2: real -> string, net: Network)
      requires Valid() && screen == MapView
      modifies this`screen, this`store, this`writes
      ensures Valid()
      ensures var city := CreateCityFromLatLng(lat, lng, toFixed2);
        store == StoreAfterAdd(old(store), city) &&
        writes == old(writes) + WritesOfAdd(old(store), city) &&
        screen == ScreenAfterOpen(MapView, old(store), city, net)
    {
      var city := CreateCityFromLatLng(lat, lng, toFixed2);
      var ok := AddRecentlyViewedCity(city);
      if !ok {
        return;
      }
      var weatherData := net.weather(city);
      if weatherData.None? {
        return;
      }
      DisplayWeatherDetail(city, weatherData.value, net);
    }

    /**
     * A click on the i-th row of the home screen, a city card: it opens the
     * card's own city and response, and leaves the recently-viewed list alone.
     */
    method ClickCard(i: nat, net: Network)
      requires Valid() && screen.Home? && i < |screen.rows| && screen.rows[i].CityCard?
      modifies this`screen
      ensures Valid()
      ensures var card := old(screen).rows[i].card;
        screen == DetailScreen(card.city, card.weather, net) &&
        screen.Detail? && screen.city == card.city && screen.today == card.weather.current.value
      ensures store == old(store) && writes == old(writes)
    {
      var card := screen.rows[i].card;
      DisplayWeatherDetail(card.city, card.weather, net);
    }

    /** The back button of the map screen or of a filled detail screen: `displaySkeleton` again. */
    method Back(net: Network)
      requires Valid() && HasBackButton(screen)
      modifies this`screen
      ensures Valid()
      ensures screen == LoadedHome(tracked, store, net)
    {
      DisplaySkeleton(net);
    }
  }
}
