/**
 * `MapViewModel` (POIFinder/ViewModels/MapViewModel.swift): the published state of the map
 * screen and the operations that update it. Asynchronous hops to the main queue are single steps.
 */
module ViewModel {
  import opened Wrappers
  import opened Sequences
  import opened Models
  import opened SearchService
  import opened Persistence

  /** The cases of `MKMapType`. */
  datatype MapType = Standard | Satellite | Hybrid | SatelliteFlyover | HybridFlyover | MutedStandard

  datatype Span = Span(latitudeDelta: real, longitudeDelta: real)

  /** An `MKCoordinateRegion`. */
  datatype Region = Region(center: Coordinate, span: Span)

  /** An `MKLocalSearchCompletion` as shown in the list. */
  datatype Suggestion = Suggestion(title: string, subtitle: string)

  /** The region the view model starts with: centred on Lagos, 0.05 degrees across. */
  const InitialRegion := Region(Coordinate(6.5244, 3.3792), Span(0.05, 0.05))

  /** The span `centerOn` zooms to. */
  const FocusSpan := Span(0.01, 0.01)

  /** `recentSearches` never holds more than this many entries. */
  const RecentCapacity := 5

  const SearchFailedPrefix := "Search failed: "

  /** The message for a search that succeeded with no results. */
  function NoResultsMessage(query: string): string
  {
    "No results found for '" + query + "'"
  }

  /** `mapType == .standard ? .mutedStandard : .standard` */
  function Toggled(t: MapType): MapType
  {
    if t == Standard then MutedStandard else Standard
  }

  /** `removeAll { $0.id == id }` */
  function WithoutId(s: seq<Poi>, id: nat): seq<Poi>
  {
    Filter((q: Poi) => q.id != id, s)
  }

  /** The recent-searches list after `addToRecentSearches(p)`. */
  function Recorded(recent: seq<Poi>, p: Poi): seq<Poi>
  {
    var moved := [p] + WithoutId(recent, p.id);
    if |moved| > RecentCapacity then moved[..RecentCapacity] else moved
  }

  /** `fetchFavoritesFromStorage`'s `map`: every fetched POI marked as a favorite. */
  function MarkedFavorites(s: seq<Poi>): (r: seq<Poi>)
    ensures |r| == |s|
    ensures forall i :: 0 <= i < |s| ==> r[i] == AsFavorite(s[i])
  {
    if s == [] then [] else [AsFavorite(s[0])] + MarkedFavorites(s[1..])
  }

  /** Every id in `s` was drawn before `bound`. */
  predicate IssuedBefore(s: seq<Poi>, bound: nat)
  {
    forall i :: 0 <= i < |s| ==> s[i].id < bound
  }

  class MapViewModel {
    var pois: seq<Poi>
    var selectedPOI: Option<Poi>
    var suggestions: seq<Suggestion>
    var favorites: seq<Poi>
    var recentSearches: seq<Poi>
    var userLocation: Option<Coordinate>
    var region: Region
    var mapType: MapType
    var errorMessage: Option<string>
    /** The fragment last forwarded to the search completer (`completerService.currentQuery`). */
    var currentQuery: string
    /** The next value `UUID()` hands out; every POI built so far has a smaller id. */
    var nextId: nat
    /** `PersistenceService.shared` */
    const store: PersistenceService

    /** The identity invariant: the lists only hold POIs that have already been built. */
    ghost predicate Valid()
      reads this
    {
      IssuedBefore(pois, nextId) && IssuedBefore(favorites, nextId) && IssuedBefore(recentSearches, nextId)
    }

    /** `init()`: empty lists, the initial region, standard map, favorites read from storage. */
    constructor (store: PersistenceService, fetchFailed: bool)
      ensures Valid() && this.store == store
      ensures pois == [] && selectedPOI == None && suggestions == [] && recentSearches == []
      ensures userLocation == None && region == InitialRegion && mapType == Standard
      ensures errorMessage == None && currentQuery == ""
      ensures favorites == MarkedFavorites(store.FetchFavorites(0, fetchFailed))
      ensures nextId == |favorites|
    {
      pois, selectedPOI, suggestions, favorites, recentSearches := [], None, [], [], [];
      userLocation, region, mapType, errorMessage, currentQuery := None, InitialRegion, Standard, None, "";
      this.store := store;
      // `fetchFavoritesFromStorage()`, the last step of `init()`, with no POI built yet
      var fetched := store.FetchFavorites(0, fetchFailed);
      favorites := MarkedFavorites(fetched);
      nextId := |fetched|;
    }

    /**
     * The completion of `searchPOIs` for the provider's `reply`: on success `pois` is replaced by
     * the results, even by no results, and the first result goes to the completion; on failure only
     * the message changes.
     */
    method SearchPOIs(query: string, reply: SearchReply) returns (completed: Option<Poi>)
      requires Valid()
      modifies this
      ensures Valid()
      ensures reply.error.Some? ==>
        && pois == old(pois) && nextId == old(nextId) && completed == None
        && errorMessage == Some(SearchFailedPrefix + reply.error.value)
      ensures reply.error.None? ==>
        var results := Search(reply, old(nextId)).value;
        && pois == results && nextId == old(nextId) + |results|
        && (results == [] ==> errorMessage == Some(NoResultsMessage(query)) && completed == None)
        && (results != [] ==> errorMessage == old(errorMessage) && completed == Some(results[0]))
      ensures favorites == old(favorites) && recentSearches == old(recentSearches)
      ensures selectedPOI == old(selectedPOI) && suggestions == old(suggestions)
      ensures userLocation == old(userLocation) && region == old(region) && mapType == old(mapType)
      ensures currentQuery == old(currentQuery)
    {
      completed := None;
      var result := Search(reply, nextId);
      match result
      case Success(results) =>
        nextId := nextId + |results|;
        pois := results;
        if |results| == 0 {
          errorMessage := Some(NoResultsMessage(query));
        } else {
          completed := Some(results[0]);
        }
      case Failure(description) =>
        errorMessage := Some(SearchFailedPrefix + description);
    }

    /** `addToRecentSearches(p)` */
    method AddToRecentSearches(p: Poi)
      requires Valid() && p.id < nextId
      modifies this`recentSearches
      ensures Valid()
      ensures recentSearches == Recorded(old(recentSearches), p)
    {
      recentSearches := WithoutId(recentSearches, p.id);
      recentSearches := [p] + recentSearches;
      if |recentSearches| > RecentCapacity {
        recentSearches := recentSearches[..RecentCapacity];
      }
      WithoutIdMembers(old(recentSearches), p.id);
    }

    /**
     * `updateNote(for:note:)`: the first entry of `pois` with `poi`'s id, and the first such entry
     * of `favorites`, get the note; nothing else changes, and nothing at all when the id is absent.
     */
    method UpdateNote(poi: Poi, note: string)
      requires Valid()
      modifies this`pois, this`favorites
      ensures Valid()
      ensures |pois| == |old(pois)| && |favorites| == |old(favorites)|
      ensures forall i :: 0 <= i < |pois| ==>
        pois[i] == if IndexOfId(old(pois), poi.id) == Some(i) then WithNote(old(pois)[i], note) else old(pois)[i]
      ensures forall i :: 0 <= i < |favorites| ==>
        favorites[i] == if IndexOfId(old(favorites), poi.id) == Some(i) then WithNote(old(favorites)[i], note) else old(favorites)[i]
    {
      var i := IndexOfId(pois, poi.id);
      if i.Some? {
        pois := pois[i.value := WithNote(pois[i.value], note)];
      }
      var j := IndexOfId(favorites, poi.id);
      if j.Some? {
        favorites := favorites[j.value := WithNote(favorites[j.value], note)];
      }
    }

    /** `fetchFavoritesFromStorage()`: the favorites become the store's fetch, each marked favorite. */
    method FetchFavoritesFromStorage(fetchFailed: bool)
      modifies this`favorites, this`nextId
      ensures favorites == MarkedFavorites(store.FetchFavorites(old(nextId), fetchFailed))
      ensures nextId == old(nextId) + |favorites|
      ensures IssuedBefore(favorites, nextId)
      ensures forall i :: 0 <= i < |favorites| ==> favorites[i].id >= old(nextId)
    {
      var fetched := store.FetchFavorites(nextId, fetchFailed);
      favorites := MarkedFavorites(fetched);
      nextId := nextId + |fetched|;
    }

    /**
     * `saveFavorite(poi)`: one more stored record; the first `pois` entry with the id is flagged;
     * the favorites are then re-read, so none of them is `==` to `poi`.
     */
    method SaveFavorite(poi: Poi, fetchFailed: bool)
      requires Valid() && poi.id < nextId
      modifies this, store
      ensures Valid()
      ensures store.records == old(store.records) + [RecordOf(poi)]
      ensures favorites == MarkedFavorites(store.FetchFavorites(old(nextId), fetchFailed))
      ensures nextId == old(nextId) + |favorites|
      ensures forall i :: 0 <= i < |favorites| ==> !Same(favorites[i], poi) && favorites[i].isFavorite
      ensures |pois| == |old(pois)|
      ensures forall i :: 0 <= i < |pois| ==>
        pois[i] == if IndexOfId(old(pois), poi.id) == Some(i) then AsFavorite(old(pois)[i]) else old(pois)[i]
      ensures recentSearches == old(recentSearches) && selectedPOI == old(selectedPOI)
      ensures suggestions == old(suggestions) && errorMessage == old(errorMessage)
      ensures userLocation == old(userLocation) && region == old(region) && mapType == old(mapType)
      ensures currentQuery == old(currentQuery)
    {
      store.Save(poi);
      var updated := AsFavorite(poi);
      favorites := WithoutId(favorites, updated.id);
      favorites := favorites + [updated];
      FlagFavorite(updated.id);
      FetchFavoritesFromStorage(fetchFailed);
    }

    /** `pois[index].isFavorite = true` for the first entry with the id, if there is one. */
    method FlagFavorite(id: nat)
      modifies this`pois
      ensures |pois| == |old(pois)|
      ensures forall i :: 0 <= i < |pois| ==>
        pois[i] == if IndexOfId(old(pois), id) == Some(i) then AsFavorite(old(pois)[i]) else old(pois)[i]
    {
      var i := IndexOfId(pois, id);
      if i.Some? {
        pois := pois[i.value := AsFavorite(pois[i.value])];
      }
    }

    /** `deleteFavorite(poi)`: the store loses its first record named like `poi`; favorites are re-read. */
    method DeleteFavorite(poi: Poi, deleteFailed: bool, fetchFailed: bool)
      requires Valid()
      modifies this, store
      ensures Valid()
      ensures store.records == if deleteFailed then old(store.records) else WithoutFirstNamed(old(store.records), poi.name)
      ensures favorites == MarkedFavorites(store.FetchFavorites(old(nextId), fetchFailed))
      ensures nextId == old(nextId) + |favorites|
      ensures pois == old(pois) && recentSearches == old(recentSearches) && selectedPOI == old(selectedPOI)
      ensures suggestions == old(suggestions) && errorMessage == old(errorMessage)
      ensures userLocation == old(userLocation) && region == old(region) && mapType == old(mapType)
      ensures currentQuery == old(currentQuery)
    {
      store.Delete(poi, deleteFailed);
      FetchFavoritesFromStorage(fetchFailed);
    }

    /** `toggleMapType()` */
    method ToggleMapType()
      modifies this`mapType
      ensures mapType == Toggled(old(mapType))
    {
      mapType := if mapType == Standard then MutedStandard else Standard;
    }

    /**
     * `updateSearchQuery(q)` once its delay has passed: the fragment is forwarded to the completer
     * only when it differs from the completer's current one.
     */
    method UpdateSearchQuery(q: string) returns (forwarded: bool)
      modifies this`currentQuery
      ensures forwarded <==> q != old(currentQuery)
      ensures currentQuery == q
    {
      forwarded := q != currentQuery;
      if forwarded {
        currentQuery := q;
      }
    }

    /** The completer's published suggestions, replaced wholesale (an empty list after a failure). */
    method SuggestionsPublished(results: seq<Suggestion>)
      modifies this`suggestions
      ensures suggestions == results
    {
      suggestions := results;
    }

    /** `centerOn(poi)`: the region moves to the POI at the focus span. */
    method CenterOn(poi: Poi)
      modifies this`region
      ensures region == Region(poi.coordinate, FocusSpan)
    {
      region := Region(poi.coordinate, FocusSpan);
    }
  }

  // ---- Properties of the recent-searches ring ----

  lemma {:induction false} WithoutIdMembers(s: seq<Poi>, id: nat)
    ensures forall i :: 0 <= i < |WithoutId(s, id)| ==> WithoutId(s, id)[i].id != id && WithoutId(s, id)[i] in s
  {
    FilterMembers((q: Poi) => q.id != id, s);
  }

  /** Removing one id keeps the others distinct. */
  lemma {:induction false} WithoutIdDistinct(s: seq<Poi>, id: nat)
    requires DistinctIds(s)
    ensures DistinctIds(WithoutId(s, id))
  {
    if s != [] {
      WithoutIdDistinct(s[1..], id);
      WithoutIdMembers(s[1..], id);
      var tail := WithoutId(s[1..], id);
      assert WithoutId(s, id) == (if s[0].id != id then [s[0]] else []) + tail;
      forall k | 0 <= k < |tail| ensures tail[k].id != s[0].id {
        var j :| 0 <= j < |s[1..]| && s[1..][j] == tail[k];
        assert s[j + 1] == tail[k];
      }
    }
  }

  /**
   * After recording `p`: `p` is first, the list holds at most five entries (exactly five once four
   * others remain), no other entry has `p`'s id, and the others are the old entries without `p`'s id,
   * in their old order, cut to fit.
   */
  lemma RecordedShape(recent: seq<Poi>, p: Poi)
    ensures var r, others := Recorded(recent, p), WithoutId(recent, p.id);
      && r[0] == p
      && |r| == (if 1 + |others| < RecentCapacity then 1 + |others| else RecentCapacity)
      && r[1..] == others[..|r| - 1]
      && (forall i :: 1 <= i < |r| ==> r[i].id != p.id && r[i] in recent)
  {
    WithoutIdMembers(recent, p.id);
    var others := WithoutId(recent, p.id);
    var r := Recorded(recent, p);
    forall i | 1 <= i < |r| ensures r[i] == others[i - 1] {
    }
  }

  /** Recording keeps the ring free of repeated ids. */
  lemma RecordedDistinct(recent: seq<Poi>, p: Poi)
    requires DistinctIds(recent)
    ensures DistinctIds(Recorded(recent, p))
  {
    WithoutIdDistinct(recent, p.id);
    WithoutIdMembers(recent, p.id);
    var others := WithoutId(recent, p.id);
    var moved := [p] + others;
    assert DistinctIds(moved) by {
      forall i, j | 0 <= i < j < |moved| ensures moved[i].id != moved[j].id {
        if i > 0 {
          assert moved[i] == others[i - 1] && moved[j] == others[j - 1];
        }
      }
    }
  }

  /** Recording the same POI twice in a row is the same as recording it once. */
  lemma RecordedIdempotent(recent: seq<Poi>, p: Poi)
    ensures Recorded(Recorded(recent, p), p) == Recorded(recent, p)
  {
    var r := Recorded(recent, p);
    RecordedShape(recent, p);
    assert r == [p] + r[1..];
    assert WithoutId(r, p.id) == WithoutId(r[1..], p.id);
    FilterAll((q: Poi) => q.id != p.id, r[1..]);
  }

  // ---- Map type ----

  /** Toggling twice restores exactly the two types the toggle moves between. */
  lemma ToggleTwice(t: MapType)
    ensures Toggled(Toggled(t)) == t <==> (t == Standard || t == MutedStandard)
    ensures Toggled(t) == Standard || Toggled(t) == MutedStandard
  {
  }

  /** Every marked favorite keeps its POI's identity and fields. */
  lemma MarkedFavoritesKeepIdentity(s: seq<Poi>)
    ensures Ids(MarkedFavorites(s)) == Ids(s)
    ensures forall i :: 0 <= i < |s| ==> MarkedFavorites(s)[i].(isFavorite := s[i].isFavorite) == s[i]
  {
    var m := MarkedFavorites(s);
    assert forall i :: 0 <= i < |s| ==> m[i].id == s[i].id;
  }
}
