/**
 * The destination panel of the campus map page: search suggestions over a fixed list of
 * campus places (a case-insensitive substring match on name or description), the walking
 * time estimate, and the distance and time labels.
 */
module DestinationPanel {
  import opened Wrappers
  import opened JsMath
  import opened Format
  import opened JsString

  datatype Place = Place(name: string, description: string, lat: real, lng: real)

  /** The places offered as suggestions, in display order. */
  const CampusPlaces: seq<Place> := [
    Place("Main Academic Block", "Central academic building", 18.5226207, 73.7307949),
    Place("Library", "Central library and study area", 18.5230157, 73.7305252),
    Place("Student Hostel", "Residential accommodation", 18.5235557, 73.7315252),
    Place("Cafeteria", "Main dining facility", 18.5228207, 73.7310949),
    Place("Sports Complex", "Athletic facilities", 18.5220207, 73.7320949),
    Place("Auditorium", "Main event venue", 18.5232207, 73.7302949),
    Place("Admin Block", "Administrative offices", 18.5234207, 73.7308949),
    Place("Medical Center", "Campus health services", 18.5225207, 73.7312949)
  ]

  /** Average walking speed for the estimate, in metres per second. */
  const WalkingSpeed: real := 1.39

  // ---------------------------------------------------------------------------
  // Suggestions.

  /** The filter predicate: the lower-cased query occurs in the lower-cased name or description. */
  predicate Matches(place: Place, query: string) {
    Includes(Lower(place.name), Lower(query)) || Includes(Lower(place.description), Lower(query))
  }

  /** `places.filter(...)`: the matching places, in their original order. */
  function Filter(places: seq<Place>, query: string): (r: seq<Place>)
    ensures |r| <= |places|
    ensures forall p :: p in r <==> p in places && Matches(p, query)
    decreases |places|
  {
    if places == [] then []
    else
      var rest := Filter(places[1..], query);
      assert forall p :: p in places <==> p == places[0] || p in places[1..];
      if Matches(places[0], query) then [places[0]] + rest else rest
  }

  /** Filtering keeps order: it distributes over concatenation. */
  lemma {:induction false} FilterAppend(a: seq<Place>, b: seq<Place>, query: string)
    ensures Filter(a + b, query) == Filter(a, query) + Filter(b, query)
    decreases |a|
  {
    if a != [] {
      assert (a + b)[0] == a[0] && (a + b)[1..] == a[1..] + b;
      FilterAppend(a[1..], b, query);
      if Matches(a[0], query) {
        assert [a[0]] + (Filter(a[1..], query) + Filter(b, query)) ==
               ([a[0]] + Filter(a[1..], query)) + Filter(b, query);
      }
    } else {
      assert a + b == b;
    }
  }

  /**
   * The suggestion list for a query: empty for a blank query; otherwise the matches,
   * computed with the untrimmed query.
   */
  function Suggestions(query: string): (r: seq<Place>)
    ensures IsBlank(query) ==> r == []
    ensures !IsBlank(query) ==> forall p :: p in r <==> p in CampusPlaces && Matches(p, query)
    ensures !IsBlank(query) ==> r == Filter(CampusPlaces, query)
  {
    if IsBlank(query) then [] else Filter(CampusPlaces, query)
  }

  /** A place always matches its own name, whatever the case the query is typed in. */
  lemma MatchesOwnName(place: Place, query: string)
    requires Lower(query) == Lower(place.name)
    ensures Matches(place, query)
  {
    assert OccursAt(Lower(place.name), Lower(query), 0);
  }

  // ---------------------------------------------------------------------------
  // Labels.

  /** Walking time in seconds for a distance in metres, `distance / 1.39`. */
  function WalkingTime(distance: real): (t: real)
    ensures t * WalkingSpeed == distance
    ensures distance >= 0.0 ==> 0.0 <= t <= distance
  {
    distance / WalkingSpeed
  }

  class Panel {
    var searchQuery: string
    var filtered: seq<Place>
    var estimatedTime: Option<real>
    var isExpanded: bool

    constructor()
      ensures searchQuery == "" && filtered == [] && estimatedTime == None && !isExpanded
    {
      searchQuery := "";
      filtered := [];
      estimatedTime := None;
      isExpanded := false;
    }

    /** Typing in the search box. */
    method SetQuery(q: string)
      modifies this`searchQuery
      ensures searchQuery == q
    {
      searchQuery := q;
    }

    /** The filter effect, run when the query changes. */
    method QueryEffect()
      modifies this`filtered
      ensures filtered == Suggestions(searchQuery)
    {
      if IsBlank(searchQuery) {
        filtered := [];
      } else {
        filtered := Filter(CampusPlaces, searchQuery);
      }
    }

    /** The estimate effect: a missing or zero distance keeps the previous estimate. */
    method DistanceEffect(distance: Option<real>)
      modifies this`estimatedTime
      ensures Truthy(distance) ==> estimatedTime == Some(WalkingTime(distance.value))
      ensures !Truthy(distance) ==> estimatedTime == old(estimatedTime)
    {
      if Truthy(distance) {
        estimatedTime := Some(distance.value / WalkingSpeed);
      }
    }

    /** handleLocationSelect: the query becomes the place's name and the list empties; no destination is set. */
    method SelectPlace(place: Place)
      modifies this`searchQuery, this`filtered
      ensures searchQuery == place.name && filtered == []
    {
      searchQuery := place.name;
      filtered := [];
    }

    method Toggle()
      modifies this`isExpanded
      ensures isExpanded == !old(isExpanded)
    {
      isExpanded := !isExpanded;
    }
  }

  /**
   * Selecting a suggestion whose name differs from the current query changes the query, so
   * the filter effect runs again and the selected place is back in the list.
   */
  method SelectThenRerender(panel: Panel, place: Place)
    requires place in CampusPlaces && !IsBlank(place.name)
    modifies panel
    ensures panel.searchQuery == place.name
    ensures old(panel.searchQuery) != place.name ==> place in panel.filtered
    ensures old(panel.searchQuery) == place.name ==> panel.filtered == []
  {
    var before := panel.searchQuery;
    panel.SelectPlace(place);
    if before != place.name {
      panel.QueryEffect();
      MatchesOwnName(place, place.name);
    }
  }
}
