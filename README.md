# POIFinder state core in Dafny

POIFinder is an iOS app. A user searches for points of interest (POIs) near them, sees them as pins on a
map, keeps a short list of recent searches, attaches notes and saves favorites to a local store.
Most of the app is SwiftUI and MapKit layout. This project models the state logic underneath it and
proves properties of that model:

- `Models.dfy`: the `POI` value (`POIFinder/Models/POI.swift`). Its equality is decided by the UUID
  drawn at construction and nothing else.
- `SearchService.dfy`: how a search provider's reply becomes a list of POIs or an error
  (`POISearchService.search`).
- `Persistence.dfy`: the favorites store (`PersistenceService`), a sequence of records in fetch order.
  It has `save`, `fetchFavorites` and `delete`.
- `ViewModel.dfy`: the `MapViewModel` class with its published fields:
  - applying a search result;
  - the recent-searches ring (capacity 5, most recent first, no repeated id);
  - note editing;
  - favorites save and delete, each followed by a re-read of the store;
  - the map-type toggle;
  - the guard that suppresses a repeated completer query;
  - centring.
- `MapScreen.dfy`: the state logic of `MapView`:
  - the merged annotation list (results, then favorites not yet present, then the "You" marker);
  - the search guard;
  - the one-shot centring on the first location;
  - clearing the search.
- `MapWrapper.dfy`: `MapViewWrapper` and its coordinator:
  - the annotation key (name and coordinate, not id);
  - the marker colour;
  - the reconciliation of the key-to-annotation dictionary with the map view's annotations;
  - the callout lookup;
  - the route-overlay rule;
  - the drag flag;
  - the region sync.
- `Wrappers.dfy` and `Sequences.dfy`: `Option`, `Result`, a generic `Filter` (Swift's
  `filter`/`compactMap`/`removeAll`), `FirstIndex` (`firstIndex(where:)`/`first(where:)`) and
  subsequences.

Modelling conventions:

- `UUID()` is a counter: `MapViewModel.nextId` is the next id to hand out. Pure constructors such as
  `NewPoi` take the fresh id as an argument. `MapViewModel.Valid()` states that every POI in
  `pois`, `favorites` and `recentSearches` was built before `nextId`; `selectedPOI` is not covered,
  because the callout lookup takes it from the POI list the coordinator captured.
- Each asynchronous completion (a `DispatchQueue.main.async` block, a search provider callback, a
  Combine delivery) is one synchronous method call. The provider's answer is passed in as a parameter.
- A failed Core Data fetch or delete is a `bool` parameter. Coordinates are pairs of `real`.

Behaviour of the code worth stating explicitly:

- A search that succeeds with no results replaces `pois` with the empty list.
- A successful search does not clear `errorMessage`.
- `save(poi:)` always inserts a new record. It never updates an existing one, so saving twice stores
  two records.
- Notes are not persisted, and `updateNote` only edits the in-memory lists.
- `delete(poi:)` removes the first record with the same name, whatever its coordinate.
- No suggestion batch is ever discarded as stale.
- An empty query is forwarded to the completer like any other; suggestions are not cleared for it.
- An annotation's rendered category is fixed when the annotation is created, from `isFavorite` at
  that moment. A reused annotation is never recomputed.
- The callout lookup matches by name and coordinate. It searches the POI list captured when the
  coordinator was made (`makeCoordinator` stores `self`, and `updateUIView` never refreshes
  `parent`). `Coordinator.parentPois` models that snapshot.
- `updateSearchQuery` compares against `completerService.currentQuery`, but
  `SearchCompleterService.swift` declares no such property. `MapViewModel.currentQuery` models it
  as the last fragment forwarded.

## Model

| member | source | states |
|---|---|---|
| Models.SameIffSameId | POIFinder/Models/POI.swift:18-20 | Two POIs are `==` exactly when their ids are equal; replacing any of name, category, address, coordinate, note and flag leaves the comparison unchanged |
| Models.IndependentConstructionsDiffer | POIFinder/Models/POI.swift:11-20 | Two POIs built from identical fields but with distinct fresh ids are not `==`, though their fields agree |
| Models.SameIsEquivalence | POIFinder/Models/POI.swift:18-20 | `==` is reflexive, symmetric and transitive, and a POI held by a collection is found in it by id |
| Models.CopiesKeepIdentity | POIFinder/Models/POI.swift:12-16 | Copies that set only `note` or only `isFavorite` keep the id and every other field, and carry the new value |
| Models.IndexOfId | POIFinder/ViewModels/MapViewModel.swift:86-87 | `firstIndex(where: id ==)`: none exactly when no entry has the id; otherwise the earliest index holding it |
| SearchService.ToPois | POIFinder/Services/POISearchService.swift:35-43 | Items without a name are dropped; the i-th named item becomes the i-th POI with fresh id `firstId + i`; output is no longer than the input |
| SearchService.ConvertedFields | POIFinder/Services/POISearchService.swift:36-42 | Each converted POI keeps the item's name and coordinate; a missing category becomes "Uncategorized", a missing address "No address"; no note, not a favorite |
| SearchService.Search | POIFinder/Services/POISearchService.swift:24-46 | A provider error is a failure carrying it; no response is success with no POIs; otherwise success with the conversion |
| SearchService.AllNamedMapOneToOne | POIFinder/Services/POISearchService.swift:35-43 | When every item is named, the conversion keeps the length and each position's name |
| SearchService.ConvertedIdsFresh | POIFinder/Services/POISearchService.swift:37-42 | The POIs of one reply have pairwise distinct ids, all drawn at or after `firstId` |
| Persistence.Hydrate | POIFinder/Services/PersistenceService.swift:53-68 | Incomplete records are skipped; the i-th complete record becomes a fresh POI with its five fields and id `firstId + i` |
| Persistence.WithoutFirstNamed | POIFinder/Services/PersistenceService.swift:78-84 | With no record named like the POI the store is unchanged; otherwise exactly the earliest such record is removed and the rest keep their order |
| Persistence.PersistenceService.constructor | POIFinder/Services/PersistenceService.swift:12-28 | The store starts out holding the records already in the persistent context |
| Persistence.PersistenceService.Save | POIFinder/Services/PersistenceService.swift:31-46 | One record holding name, category, address, latitude and longitude is appended; nothing else changes |
| Persistence.PersistenceService.FetchFavorites | POIFinder/Services/PersistenceService.swift:49-73 | A failed fetch gives no POIs; otherwise the hydration of every stored record in store order |
| Persistence.PersistenceService.Delete | POIFinder/Services/PersistenceService.swift:76-90 | A failed fetch leaves the store alone; otherwise the first record with the POI's name is removed |
| Persistence.SaveThenHydrate | POIFinder/Services/PersistenceService.swift:31-73 | Fetching after a save gives the earlier fetch followed by one fresh POI with the saved POI's name, category, address and coordinate |
| Persistence.SavedGoesLast | POIFinder/Services/PersistenceService.swift:31-73 | After a save the fetch is one longer: the earlier POIs are its prefix and the saved POI, under the next id, comes last |
| Persistence.SaveTwiceKeepsBoth | POIFinder/Services/PersistenceService.swift:31-46 | Saving the same POI twice fetches two more POIs than before, both with its name and not `==` to each other |
| Persistence.FetchedNeverSameAsEarlier | POIFinder/Services/PersistenceService.swift:62-67 | No fetched POI is `==` to a POI built before the fetch, in particular not to the one that was saved |
| Persistence.DeleteMatchesNameOnly | POIFinder/Services/PersistenceService.swift:78-84 | With a namesake at another coordinate stored first, deleting a POI removes the namesake and keeps the POI's own record |
| Persistence.DeleteRemovesAtMostOne | POIFinder/Services/PersistenceService.swift:78-84 | A delete shortens the store by at most one record, and by exactly one if and only if some record has the name |
| ViewModel.MarkedFavorites | POIFinder/ViewModels/MapViewModel.swift:130-134 | Same length, and each entry is the fetched POI with `isFavorite` set |
| ViewModel.MarkedFavoritesKeepIdentity | POIFinder/ViewModels/MapViewModel.swift:130-134 | Marking keeps the set of ids and changes nothing else in any entry |
| ViewModel.MapViewModel.constructor | POIFinder/ViewModels/MapViewModel.swift:12-37 | Empty lists, no selection, message or location, the Lagos region at 0.05 degrees, standard map type; favorites are the store's fetch marked favorite |
| ViewModel.MapViewModel.SearchPOIs | POIFinder/ViewModels/MapViewModel.swift:55-71 | Failure sets "Search failed: ..." and keeps `pois`; success replaces `pois` even by none; none sets "No results found for '<query>'"; otherwise the first result goes to the completion and the message stays; nothing else changes |
| ViewModel.MapViewModel.AddToRecentSearches | POIFinder/ViewModels/MapViewModel.swift:74-82 | The ring becomes `Recorded(old ring, p)` and the identity invariant is kept |
| ViewModel.WithoutIdMembers | POIFinder/ViewModels/MapViewModel.swift:76 | After `removeAll` by id no entry has the id and every entry was there before |
| ViewModel.WithoutIdDistinct | POIFinder/ViewModels/MapViewModel.swift:76 | `removeAll` by id keeps the remaining ids distinct |
| ViewModel.RecordedShape | POIFinder/ViewModels/MapViewModel.swift:76-81 | `p` is first; the length is the smaller of 5 and one more than the others; the rest are the old entries without `p`'s id, in order, cut to fit |
| ViewModel.RecordedDistinct | POIFinder/ViewModels/MapViewModel.swift:76-81 | Recording keeps the ring free of repeated ids |
| ViewModel.RecordedIdempotent | POIFinder/ViewModels/MapViewModel.swift:76-81 | Recording the same POI twice in a row leaves the ring as recording it once |
| ViewModel.MapViewModel.UpdateNote | POIFinder/ViewModels/MapViewModel.swift:85-88 | Only the first entry with the id in `pois`, and the first in `favorites`, get the note; lengths and every other entry are unchanged |
| ViewModel.MapViewModel.FetchFavoritesFromStorage | POIFinder/ViewModels/MapViewModel.swift:129-135 | Favorites become the store's fetch with every entry marked favorite, each under a newly drawn id |
| ViewModel.MapViewModel.SaveFavorite | POIFinder/ViewModels/MapViewModel.swift:108-118 | One record appended; favorites re-read from the store, none `==` to the saved POI; the first `pois` entry with its id flagged, the rest unchanged; other fields unchanged |
| ViewModel.MapViewModel.FlagFavorite | POIFinder/ViewModels/MapViewModel.swift:114-116 | Only the first `pois` entry with the id is flagged favorite |
| ViewModel.MapViewModel.DeleteFavorite | POIFinder/ViewModels/MapViewModel.swift:120-123 | The store loses its first record named like the POI; favorites are re-read; `pois`, the ring and the selection are unchanged |
| ViewModel.MapViewModel.ToggleMapType | POIFinder/ViewModels/MapViewModel.swift:138-140 | The map type becomes `Toggled(old)` |
| ViewModel.ToggleTwice | POIFinder/ViewModels/MapViewModel.swift:138-140 | The toggle always yields standard or muted standard, and toggling twice restores exactly those two |
| ViewModel.MapViewModel.UpdateSearchQuery | POIFinder/ViewModels/MapViewModel.swift:143-148 | The fragment is forwarded if and only if it differs from the completer's current one |
| ViewModel.MapViewModel.SuggestionsPublished | POIFinder/Services/SearchCompleterService.swift:28-35 | The suggestion list is replaced wholesale by the completer's delivery |
| ViewModel.MapViewModel.CenterOn | POIFinder/ViewModels/MapViewModel.swift:151-155 | The region is centred on the POI at a 0.01-degree span |
| MapScreen.AllAnnotations | POIFinder/Views/MapView.swift:191-203 | The loop computes `Merged`: the POIs, the favorites each `FavoritesToAdd` keeps, then the marker |
| MapScreen.MergedIds | POIFinder/Views/MapView.swift:192-196 | The merge without the marker holds exactly the ids of the POIs and of the favorites |
| MapScreen.FavoritesToAddFromFavorites | POIFinder/Views/MapView.swift:194-196 | The appended favorites are a subsequence of the favorites list, in its order |
| MapScreen.FavoritesToAddAreNew | POIFinder/Views/MapView.swift:194-196 | No appended favorite has the id of a POI already listed |
| MapScreen.FavoritesToAddDistinct | POIFinder/Views/MapView.swift:194-196 | The appended favorites have pairwise distinct ids, even when the favorites list repeats an id |
| MapScreen.MergedDistinct | POIFinder/Views/MapView.swift:192-196 | With distinct POI ids, the merge without the marker has distinct ids |
| MapScreen.MergedLayout | POIFinder/Views/MapView.swift:191-203 | The POIs are a prefix; the marker is the last entry exactly when it exists |
| MapScreen.MergeExample | POIFinder/Views/MapView.swift:191-203 | Results `[a, b]` and favorites `[b, c]` merge to `[a, b, c]`, with the marker after them when there is one |
| MapScreen.UserAnnotationFields | POIFinder/Views/MapView.swift:181-189 | A marker exists exactly when a location is known; it is "You", "User", "Current Location" at that location |
| MapScreen.MapView.constructor | POIFinder/Views/MapView.swift:11-16 | The text field starts empty and the map has not yet centred on the user |
| MapScreen.MapView.OnReceiveLocation | POIFinder/Views/MapView.swift:29-36 | Only the first known location sets the user location and the region's centre; afterwards nothing changes |
| MapScreen.MapView.PerformSearch | POIFinder/Views/MapView.swift:205-213 | No search for an empty term; otherwise a search for the argument or text field, near the live location or else the region's centre, carrying whether a centring completion was passed |
| MapScreen.MapView.CompleteSearch | POIFinder/ViewModels/MapViewModel.swift:55-71 | The reply is handled as by `searchPOIs` (the POIs, the message and the ids drawn), every other view-model field but the region unchanged; a request with a centring completion moves the region to the first result at the focus span, and without results or with a failure the region stays |
| MapScreen.MapView.ClearSearch | POIFinder/Views/MapView.swift:123-130 | The text field and the suggestions are emptied |
| MapScreen.MapView.SelectSuggestion | POIFinder/Views/MapView.swift:137-149 | The suggestion's title fills the field and is searched with a completion that centres on the first result; the suggestions are emptied |
| MapScreen.MapView.Annotations | POIFinder/Views/MapView.swift:191-203 | The annotations are the merge of the view model's lists with a freshly drawn marker for the live location |
| MapWrapper.KeyIgnoresIdentity | POIFinder/Views/MapViewWrapper.swift:33-35 | Keys are equal exactly when name and coordinate are; id, category and address do not matter |
| MapWrapper.MarkerColorRule | POIFinder/Views/MapViewWrapper.swift:56-62 | Red exactly for "User", yellow exactly for "Favorite", blue for every other category |
| MapWrapper.NewAnnotationColor | POIFinder/Views/MapViewWrapper.swift:179-184 | A new annotation is yellow when the POI is flagged or its category is "Favorite", else red for "User", else blue |
| MapWrapper.PoiAnnotation.constructor | POIFinder/Views/MapViewWrapper.swift:231-243 | Title and subtitle are present, and every field is as given |
| MapWrapper.DepictedKey | POIFinder/Views/MapViewWrapper.swift:200-205 | An annotation built for a POI is recognised on the view under that POI's key |
| MapWrapper.CalloutSelection | POIFinder/Views/MapViewWrapper.swift:69-80 | The earliest POI within 1e-6 degrees whose name equals the title; if none, a new POI from the annotation with "Unknown" and "" for a missing title or subtitle |
| MapWrapper.Coordinator.CalloutTapped | POIFinder/Views/MapViewWrapper.swift:65-81 | The selection becomes the lookup in the captured POI list; a new id is drawn only when nothing matches |
| MapWrapper.Coordinator.constructor | POIFinder/Views/MapViewWrapper.swift:20-30 | A new coordinator is not dragging and has an empty dictionary |
| MapWrapper.Coordinator.RegionWillChange | POIFinder/Views/MapViewWrapper.swift:84-88 | An active gesture sets the drag flag; otherwise it is unchanged |
| MapWrapper.Coordinator.RegionDidChange | POIFinder/Views/MapViewWrapper.swift:90-95 | The view's region reaches the binding only while the flag is set, and the flag is false afterwards |
| MapWrapper.CollectAnnotations | POIFinder/Views/MapViewWrapper.swift:172-188 | One annotation per POI, in order; known keys reuse theirs; the first POI of a new key gets a new annotation with its fields and category |
| MapWrapper.RemoveStale | POIFinder/Views/MapViewWrapper.swift:191-197 | The stale keys leave the dictionary, and their annotations leave the view |
| MapWrapper.AddUnshown | POIFinder/Views/MapViewWrapper.swift:200-207 | Only annotations whose key the view did not already show are added |
| MapWrapper.UpdateAnnotations | POIFinder/Views/MapViewWrapper.swift:168-208 | The dictionary's keys become the incoming keys, with old entries reused and new ones fresh; the view keeps its non-stale annotations and gains the unshown ones; view and dictionary stay in agreement |
| MapWrapper.ReconciledViewShowsMap | POIFinder/Views/MapViewWrapper.swift:168-208 | If view and dictionary agreed before an update, the view afterwards shows exactly the dictionary's annotations |
| MapWrapper.RoutedOverlays | POIFinder/Views/MapViewWrapper.swift:211-227 | No route removes every polyline; a route already shown changes nothing; a new route replaces all polylines with its own; other overlays stay |
| MapWrapper.UpdateRoute | POIFinder/Views/MapViewWrapper.swift:211-227 | The overlays become `RoutedOverlays` of the old overlays and the route |
| MapWrapper.MapCanvas.constructor | POIFinder/Views/MapViewWrapper.swift:139-147 | A new map view has no annotations or overlays, at the bound region and map type |
| MapWrapper.SyncRegion | POIFinder/Views/MapViewWrapper.swift:157-165 | Unless dragging, a view more than 0.0005 degrees off takes the bound region, so if not dragging it ends within the threshold |
| MapWrapper.UpdateUIView | POIFinder/Views/MapViewWrapper.swift:149-154 | The sync's exact region, within the threshold of the bound region unless dragging; the dictionary holds the incoming keys, reuses known entries and gives each new key a fresh annotation depicting its first POI; the view keeps its non-stale annotations and gains the unshown ones; agreement of view and dictionary is kept; the map type and overlays follow the inputs |

## Left out

- Routing: `getDirections` (MapViewModel.swift:91-105) and `showRoute` (MapViewWrapper.swift:107-133) call `MKDirections`, a foreign service. The route is only an input to `UpdateRoute`, zooming with `setVisibleMapRect` is not modelled, and neither is `currentRoute`.
- The `MKLocalSearch` request and its asynchronous start: a foreign service. Its reply is the `SearchReply` parameter.
- The Core Data container and the `fatalError` when it fails to load: a foreign framework. A failed `context.save()` is only logged in the source, so it has no effect in the model.
- Map rendering: annotation-view dequeuing, callout buttons and the polyline renderer are presentation. Only the marker colour is modelled.
- The location manager, the suggestion completer and the `MKUserLocation` pin are thin wrappers over system services. Their outputs are parameters: a location, a suggestion list.
- The `$errorMessage` subscription in `bindCompleter` (MapViewModel.swift:46-51): `SearchCompleterService.swift` declares no such publisher.
- Debouncing and concurrency: the 0.25 s delay, main-queue hops and Combine bindings become single synchronous calls. The interleavings of several in-flight searches are not modelled.
- Floating point: coordinates, spans, the 1e-6 callout tolerance and the 0.0005 sync threshold are exact arithmetic on `real`.
- `fetchFavorites()` (MapViewModel.swift:125-127) only returns the `favorites` field, so it has no member of its own.
- `centerOnUser` (MapView.swift:86-97), because it is `CenterOn` applied to a freshly built "You" POI.
- The views `FavoritesView`, `POIDetailView` and `POIFinderApp`, and the layout, sheets and buttons of `MapView`: UI composition only.
- The `MapViewWrapper` call site (MapView.swift:22-27) omits `mapType`, which the wrapper requires. `UpdateUIView` takes the map type as a parameter.
- MapWrapper.MapCanvas: `MKMapView`'s annotations are a set of annotation objects, so adding an annotation already shown changes nothing. The order in which MapKit keeps annotations is not captured.
- Persistence.PersistenceService.records: the fetch requests (PersistenceService.swift:50, 78-82) have no sort descriptors, so Core Data promises no order. The model fixes one fetch order, the order of insertion. "First" in `WithoutFirstNamed`, `Delete` and `DeleteMatchesNameOnly`, and "last" in `SaveThenHydrate` and `SavedGoesLast`, refer to that chosen order, which Core Data does not guarantee.
