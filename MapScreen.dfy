/**
 * The state logic of `MapView` (POIFinder/Views/MapView.swift): the merged annotation list,
 * the user marker, the search guard, the one-shot centring on the user and clearing the search.
 */
module MapScreen {
  import opened Wrappers
  import opened Sequences
  import opened Models
  import opened SearchService
  import opened ViewModel

  const UserName := "You"
  const UserCategory := "User"
  const UserAddress := "Current Location"

  /** `userAnnotation`: a freshly built "You" marker when a location is known. */
  function UserAnnotation(location: Option<Coordinate>, newId: nat): (r: Option<Poi>)
  {
    match location
    case None => None
    case Some(c) => Some(NewPoi(newId, UserName, UserCategory, UserAddress, c))
  }

  /**
   * Reference definition of the favorites `allAnnotations` appends: a favorite is kept when its id
   * occurs neither among `pois` nor among the favorites before it.
   */
  function FavoritesToAdd(pois: seq<Poi>, favs: seq<Poi>): seq<Poi>
    decreases |favs|
  {
    if favs == [] then []
    else
      var earlier, fav := favs[..|favs| - 1], favs[|favs| - 1];
      FavoritesToAdd(pois, earlier) + (if fav.id in Ids(pois) || fav.id in Ids(earlier) then [] else [fav])
  }

  /** What `allAnnotations` evaluates to. */
  function Merged(pois: seq<Poi>, favs: seq<Poi>, user: Option<Poi>): seq<Poi>
  {
    pois + FavoritesToAdd(pois, favs) + (if user.Some? then [user.value] else [])
  }

  /** The merge covers exactly the ids of the POIs and of the favorites. */
  lemma {:induction false} MergedIds(pois: seq<Poi>, favs: seq<Poi>)
    ensures Ids(pois + FavoritesToAdd(pois, favs)) == Ids(pois) + Ids(favs)
  {
    if favs == [] {
      assert pois + [] == pois;
    } else {
      var earlier, fav := favs[..|favs| - 1], favs[|favs| - 1];
      var added := FavoritesToAdd(pois, earlier);
      MergedIds(pois, earlier);
      assert favs == earlier + [fav];
      IdsAppend(earlier, [fav]);
      var extra := if fav.id in Ids(pois) || fav.id in Ids(earlier) then [] else [fav];
      assert pois + FavoritesToAdd(pois, favs) == (pois + added) + extra;
      IdsAppend(pois + added, extra);
      assert Ids([fav]) == {fav.id};
    }
  }

  /** `allAnnotations`: the POIs, then each favorite whose id is not yet present, then the user marker. */
  method AllAnnotations(pois: seq<Poi>, favorites: seq<Poi>, user: Option<Poi>) returns (annotations: seq<Poi>)
    ensures annotations == Merged(pois, favorites, user)
  {
    annotations := pois;
    for i := 0 to |favorites|
      invariant annotations == pois + FavoritesToAdd(pois, favorites[..i])
    {
      var fav := favorites[i];
      ghost var prefix := favorites[..i + 1];
      assert prefix[..|prefix| - 1] == favorites[..i] && prefix[|prefix| - 1] == fav;
      MergedIds(pois, favorites[..i]);
      HasIdIsMembership(annotations, fav.id);
      if !HasId(annotations, fav.id) {
        annotations := annotations + [fav];
      }
    }
    assert favorites[..|favorites|] == favorites;
    if user.Some? {
      annotations := annotations + [user.value];
    }
  }

  // ---- Properties of the merge ----

  /** The appended favorites are drawn from the favorites list, in its order. */
  lemma {:induction false} FavoritesToAddFromFavorites(pois: seq<Poi>, favs: seq<Poi>)
    ensures Subsequence(FavoritesToAdd(pois, favs), favs)
  {
    if favs != [] {
      var earlier, fav := favs[..|favs| - 1], favs[|favs| - 1];
      var added := FavoritesToAdd(pois, earlier);
      FavoritesToAddFromFavorites(pois, earlier);
      assert favs == earlier + [fav];
      SubsequenceSnoc(added, earlier, fav);
      if fav.id in Ids(pois) || fav.id in Ids(earlier) {
        assert added + [] == added;
        assert FavoritesToAdd(pois, favs) == added;
        assert Subsequence(added, earlier + [fav]);
      }
    }
  }

  /** No appended favorite shares an id with a POI already on the map. */
  lemma {:induction false} FavoritesToAddAreNew(pois: seq<Poi>, favs: seq<Poi>)
    ensures forall i :: 0 <= i < |FavoritesToAdd(pois, favs)| ==> FavoritesToAdd(pois, favs)[i].id !in Ids(pois)
  {
    if favs != [] {
      var earlier := favs[..|favs| - 1];
      FavoritesToAddAreNew(pois, earlier);
    }
  }

  /** The appended favorites have pairwise distinct ids, even when the favorites list repeats one. */
  lemma {:induction false} FavoritesToAddDistinct(pois: seq<Poi>, favs: seq<Poi>)
    ensures DistinctIds(FavoritesToAdd(pois, favs))
  {
    if favs != [] {
      var earlier, fav := favs[..|favs| - 1], favs[|favs| - 1];
      var added := FavoritesToAdd(pois, earlier);
      FavoritesToAddDistinct(pois, earlier);
      if !(fav.id in Ids(pois) || fav.id in Ids(earlier)) {
        MergedIds(pois, earlier);
        IdsAppend(pois, added);
        var r := added + [fav];
        assert FavoritesToAdd(pois, favs) == r;
        forall i, j | 0 <= i < j < |r| ensures r[i].id != r[j].id {
          if j == |added| {
            assert r[i] == added[i];
            assert r[i].id in Ids(pois + added);
          }
        }
      }
    }
  }

  /** With distinct POI ids, the annotations other than the user marker have distinct ids. */
  lemma MergedDistinct(pois: seq<Poi>, favs: seq<Poi>)
    requires DistinctIds(pois)
    ensures DistinctIds(pois + FavoritesToAdd(pois, favs))
  {
    var added := FavoritesToAdd(pois, favs);
    FavoritesToAddAreNew(pois, favs);
    FavoritesToAddDistinct(pois, favs);
    var r := pois + added;
    forall i, j | 0 <= i < j < |r| ensures r[i].id != r[j].id {
      if i < |pois| && j >= |pois| {
        assert r[j] == added[j - |pois|];
        assert r[i].id in Ids(pois);
      } else if i >= |pois| {
        assert r[i] == added[i - |pois|] && r[j] == added[j - |pois|];
      }
    }
  }

  /** The layout of the merged list: the POIs as a prefix, the marker last exactly when present. */
  lemma MergedLayout(pois: seq<Poi>, favs: seq<Poi>, user: Option<Poi>)
    ensures var r, body := Merged(pois, favs, user), pois + FavoritesToAdd(pois, favs);
      && r[..|pois|] == pois
      && (user.None? ==> r == body)
      && (user.Some? ==> |r| == |body| + 1 && r[|r| - 1] == user.value && r[..|body|] == body)
  {
  }

  /**
   * Results `[a, b]` and favorites `[b, c]`, with `b` the same POI: the merge is `[a, b, c]`, and a
   * known location adds the marker after them.
   */
  lemma MergeExample(a: Poi, b: Poi, c: Poi, user: Poi)
    requires a.id != b.id && b.id != c.id && a.id != c.id
    ensures Merged([a, b], [b, c], None) == [a, b, c]
    ensures Merged([a, b], [b, c], Some(user)) == [a, b, c, user]
  {
    assert [a, b][1].id == b.id;
    assert b.id in Ids([a, b]);
    assert [b, c][..1] == [b] && [b, c][..0] == [];
    assert FavoritesToAdd([a, b], [b]) == FavoritesToAdd([a, b], []) + [];
    assert c.id !in Ids([a, b]) && c.id !in Ids([b]);
  }

  /** The user marker exists exactly when a location is known, with the fixed "You" fields. */
  lemma UserAnnotationFields(location: Option<Coordinate>, newId: nat)
    ensures UserAnnotation(location, newId).Some? <==> location.Some?
    ensures location.Some? ==> var u := UserAnnotation(location, newId).value;
      u.name == "You" && u.category == "User" && u.address == "Current Location"
      && u.coordinate == location.value && u.id == newId
  {
  }

  /**
   * The arguments `performSearch` passes to `searchPOIs`; `centerOnFirst` says whether its
   * completion recentres the map on the first result.
   */
  datatype SearchRequest = SearchRequest(query: string, near: Coordinate, centerOnFirst: bool)

  class MapView {
    const viewModel: MapViewModel
    var searchQuery: string
    var hasCenteredOnUser: bool

    constructor (viewModel: MapViewModel)
      ensures this.viewModel == viewModel && searchQuery == "" && !hasCenteredOnUser
    {
      this.viewModel := viewModel;
      searchQuery := "";
      hasCenteredOnUser := false;
    }

    /**
     * `.onReceive(locationManager.$userLocation)`: the first known location becomes the view model's
     * user location and the region's centre; afterwards the flag blocks every update.
     */
    method OnReceiveLocation(newLocation: Option<Coordinate>)
      modifies this`hasCenteredOnUser, viewModel`userLocation, viewModel`region
      ensures old(hasCenteredOnUser) || newLocation.None? ==>
        hasCenteredOnUser == old(hasCenteredOnUser)
        && viewModel.userLocation == old(viewModel.userLocation) && viewModel.region == old(viewModel.region)
      ensures !old(hasCenteredOnUser) && newLocation.Some? ==>
        hasCenteredOnUser && viewModel.userLocation == newLocation
        && viewModel.region == old(viewModel.region).(center := newLocation.value)
    {
      if newLocation.Some? && !hasCenteredOnUser {
        viewModel.userLocation := newLocation;
        viewModel.region := viewModel.region.(center := newLocation.value);
        hasCenteredOnUser := true;
      }
    }

    /**
     * `performSearch(query:completion:)`: nothing for an empty term; otherwise a search for the term
     * (the argument, else the text field) near the live location, else near the region's centre.
     * `centerOnFirst` is whether a centring completion was passed (`onSubmit` passes none).
     */
    method PerformSearch(query: Option<string>, liveLocation: Option<Coordinate>, centerOnFirst: bool)
      returns (request: Option<SearchRequest>)
      ensures var term := if query.Some? then query.value else searchQuery;
        && (request.None? <==> term == "")
        && (request.Some? ==>
              && request.value.query == term
              && request.value.near == (if liveLocation.Some? then liveLocation.value else viewModel.region.center)
              && request.value.centerOnFirst == centerOnFirst)
    {
      var coordinateToUse := liveLocation.GetOr(viewModel.region.center);
      var searchTerm := query.GetOr(searchQuery);
      if searchTerm == "" {
        return None;
      }
      request := Some(SearchRequest(searchTerm, coordinateToUse, centerOnFirst));
    }

    /**
     * The provider's answer to `request`: `searchPOIs` handles the reply, and a request with a
     * centring completion moves the region to the first result, if there is one.
     */
    method CompleteSearch(request: SearchRequest, reply: SearchReply)
      requires viewModel.Valid()
      modifies viewModel
      ensures viewModel.Valid()
      ensures reply.error.Some? ==>
        && viewModel.pois == old(viewModel.pois) && viewModel.region == old(viewModel.region)
        && viewModel.errorMessage == Some(SearchFailedPrefix + reply.error.value)
        && viewModel.nextId == old(viewModel.nextId)
      ensures reply.error.None? ==>
        var results := Search(reply, old(viewModel.nextId)).value;
        && viewModel.pois == results && viewModel.nextId == old(viewModel.nextId) + |results|
        && viewModel.region ==
             (if request.centerOnFirst && results != [] then Region(results[0].coordinate, FocusSpan)
              else old(viewModel.region))
        && viewModel.errorMessage == (if results == [] then Some(NoResultsMessage(request.query)) else old(viewModel.errorMessage))
      ensures viewModel.favorites == old(viewModel.favorites) && viewModel.recentSearches == old(viewModel.recentSearches)
      ensures viewModel.selectedPOI == old(viewModel.selectedPOI)
      ensures viewModel.suggestions == old(viewModel.suggestions) && viewModel.userLocation == old(viewModel.userLocation)
      ensures viewModel.mapType == old(viewModel.mapType) && viewModel.currentQuery == old(viewModel.currentQuery)
    {
      var first := viewModel.SearchPOIs(request.query, reply);
      if request.centerOnFirst && first.Some? {
        viewModel.CenterOn(first.value);
      }
    }

    /** `clearSearch()`: the text field and the suggestion list are emptied. */
    method ClearSearch()
      modifies this`searchQuery, viewModel`suggestions
      ensures searchQuery == "" && viewModel.suggestions == []
    {
      searchQuery := "";
      viewModel.suggestions := [];
    }

    /**
     * Tapping a suggestion: its title fills the field and is searched with a completion that
     * centres the map on the first result; the list is then emptied.
     */
    method SelectSuggestion(s: Suggestion, liveLocation: Option<Coordinate>) returns (request: Option<SearchRequest>)
      modifies this`searchQuery, viewModel`suggestions
      ensures searchQuery == s.title && viewModel.suggestions == []
      ensures request.None? <==> s.title == ""
      ensures request.Some? ==>
        && request.value.query == s.title
        && request.value.near == (if liveLocation.Some? then liveLocation.value else viewModel.region.center)
        && request.value.centerOnFirst
    {
      searchQuery := s.title;
      request := PerformSearch(Some(s.title), liveLocation, true);
      viewModel.suggestions := [];
    }

    /** Evaluating `allAnnotations` against the live location, drawing a fresh id for the marker. */
    method Annotations(liveLocation: Option<Coordinate>) returns (annotations: seq<Poi>)
      requires viewModel.Valid()
      modifies viewModel`nextId
      ensures viewModel.Valid()
      ensures annotations == Merged(viewModel.pois, viewModel.favorites, UserAnnotation(liveLocation, old(viewModel.nextId)))
      ensures viewModel.nextId == old(viewModel.nextId) + (if liveLocation.Some? then 1 else 0)
    {
      var user := UserAnnotation(liveLocation, viewModel.nextId);
      if user.Some? {
        viewModel.nextId := viewModel.nextId + 1;
      }
      annotations := AllAnnotations(viewModel.pois, viewModel.favorites, user);
    }
  }
}
