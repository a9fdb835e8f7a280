/**
 * The recently-viewed list kept in session storage under the key
 * "recentlyViewed": how a city is added to it, and what reading it gives.
 */
module Recent {
  import opened Types

  /** Two cities are the same place when both coordinates are equal; names do not matter. */
  predicate SameCoordinates(a: City, b: City) {
    a.latitude == b.latitude && a.longitude == b.longitude
  }

  /** `list.some(...)`: some stored city has the coordinates of `city`. */
  function Contains(list: seq<City>, city: City): (found: bool)
    ensures found <==> exists i :: 0 <= i < |list| && SameCoordinates(list[i], city)
  {
    if list == [] then false
    else if SameCoordinates(list[0], city) then true
    else
      var rest := Contains(list[1..], city);
      assert forall i :: 1 <= i < |list| ==> list[i] == list[1..][i - 1];
      rest
  }

  /** The list invariant: no two entries share their coordinates. */
  ghost predicate NoDuplicates(list: seq<City>) {
    forall i, j :: 0 <= i < j < |list| ==> !SameCoordinates(list[i], list[j])
  }

  /** The list after `addRecentlyViewedCity(city)`: a new place goes to the front, a known one changes nothing. */
  function Added(list: seq<City>, city: City): (added: seq<City>)
    ensures Contains(added, city)
    ensures |list| <= |added| <= |list| + 1 && added[|added| - |list|..] == list
    ensures |added| == |list| <==> Contains(list, city)
    ensures |added| > |list| ==> added[0] == city
  {
    if Contains(list, city) then list else [city] + list
  }

  lemma AddAbsentPrepends(list: seq<City>, city: City)
    requires forall i :: 0 <= i < |list| ==> !SameCoordinates(list[i], city)
    ensures |Added(list, city)| == |list| + 1
    ensures Added(list, city)[0] == city && Added(list, city)[1..] == list
  {
  }

  lemma AddPresentUnchanged(list: seq<City>, city: City, i: nat)
    requires i < |list| && SameCoordinates(list[i], city)
    ensures Added(list, city) == list
  {
  }

  /** After an add the city is present, and every earlier entry is still there in its old order. */
  lemma AddKeepsOldEntries(list: seq<City>, city: City)
    ensures Contains(Added(list, city), city)
    ensures |Added(list, city)| >= |list|
    ensures Added(list, city)[|Added(list, city)| - |list|..] == list
  {
  }

  /** Adding twice is adding once. */
  lemma AddIdempotent(list: seq<City>, city: City)
    ensures Added(Added(list, city), city) == Added(list, city)
  {
  }

  /**
   * A second city at the same coordinates, whatever its name, is already
   * present: the list keeps the first one where it was inserted.
   */
  lemma AddSameCoordinatesKeepsFirst(list: seq<City>, first: City, second: City)
    requires SameCoordinates(first, second)
    ensures Contains(list, first) == Contains(list, second)
    ensures Added(Added(list, first), second) == Added(list, first)
  {
  }

  lemma AddPreservesNoDuplicates(list: seq<City>, city: City)
    requires NoDuplicates(list)
    ensures NoDuplicates(Added(list, city))
  {
  }

  /** What session storage holds under the list's key. */
  datatype Stored =
    | Missing
    | Holds(cities: seq<City>)
    | Unreadable  // text that JSON.parse rejects, or that is not an array

  /**
   * `JSON.parse(getItem(key) || "[]")`: a missing entry reads as the empty
   * list, unreadable text throws (`None`).
   */
  function Read(stored: Stored): (list: Option<seq<City>>)
    ensures list.None? <==> stored.Unreadable?
    ensures stored.Missing? ==> list == Some([])
    ensures stored.Holds? ==> list == Some(stored.cities)
  {
    match stored
    case Missing => Some([])
    case Holds(cities) => Some(cities)
    case Unreadable => None
  }

  /** The store after `addRecentlyViewedCity(city)`. */
  function StoreAfterAdd(stored: Stored, city: City): (after: Stored)
    ensures stored.Unreadable? ==> after == Unreadable
    ensures !stored.Unreadable? ==> after.Holds? && after.cities == Added(Read(stored).value, city)
  {
    match Read(stored)
    case None => stored
    case Some(list) => if Contains(list, city) then stored else Holds(Added(list, city))
  }

  /** The `setItem` calls `addRecentlyViewedCity(city)` makes: one, of the new list, or none. */
  function WritesOfAdd(stored: Stored, city: City): (written: seq<seq<City>>)
    ensures |written| <= 1
    ensures |written| == 1 <==> Read(stored).Some? && !Contains(Read(stored).value, city)
    ensures |written| == 1 ==> written[0] == [city] + Read(stored).value
  {
    match Read(stored)
    case None => []
    case Some(list) => if Contains(list, city) then [] else [Added(list, city)]
  }

  /**
   * The store changes exactly when something is written, and then it holds
   * what was written; a readable store always ends up containing the city.
   */
  lemma StoreAfterAddMatchesWrites(stored: Stored, city: City)
    ensures StoreAfterAdd(stored, city) == stored <==> WritesOfAdd(stored, city) == []
    ensures WritesOfAdd(stored, city) != [] ==>
      |WritesOfAdd(stored, city)| == 1 && StoreAfterAdd(stored, city) == Holds(WritesOfAdd(stored, city)[0])
    ensures !stored.Unreadable? ==>
      StoreAfterAdd(stored, city).Holds? && Contains(StoreAfterAdd(stored, city).cities, city)
  {
  }

  /** An unreadable store stays as it is and nothing is written. */
  lemma UnreadableStoreUntouched(city: City)
    ensures StoreAfterAdd(Unreadable, city) == Unreadable
    ensures WritesOfAdd(Unreadable, city) == []
  {
  }

  lemma StoreAfterAddPreservesNoDuplicates(stored: Stored, city: City)
    requires stored.Holds? ==> NoDuplicates(stored.cities)
    ensures StoreAfterAdd(stored, city).Holds? ==> NoDuplicates(StoreAfterAdd(stored, city).cities)
  {
  }
}
