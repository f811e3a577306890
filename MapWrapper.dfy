/**
 * `MapViewWrapper` and its `Coordinator` (POIFinder/Views/MapViewWrapper.swift): the bridge that keeps
 * an `MKMapView`'s annotations and route overlay in step with the SwiftUI state.
 */
module MapWrapper {
  import opened Wrappers
  import opened Sequences
  import opened Models
  import opened ViewModel

  /** The three parts `annotationKey(for:)` formats into its string: latitude, longitude and name. */
  datatype AnnotationKey = AnnotationKey(latitude: real, longitude: real, name: string)

  /** `annotationKey(for: poi)` */
  function KeyFor(p: Poi): AnnotationKey
  {
    AnnotationKey(p.coordinate.latitude, p.coordinate.longitude, p.name)
  }

  /** The key depends on name and coordinate only, never on the id. */
  lemma KeyIgnoresIdentity(p: Poi, q: Poi)
    ensures KeyFor(p) == KeyFor(q) <==> p.name == q.name && p.coordinate == q.coordinate
    ensures KeyFor(p) == KeyFor(p.(id := q.id, category := q.category, address := q.address))
  {
  }

  datatype MarkerColor = SystemRed | SystemYellow | SystemBlue

  /** `markerColor(for:)` on an annotation's category. */
  function MarkerColorFor(category: string): MarkerColor
  {
    match category
    case "User" => SystemRed
    case "Favorite" => SystemYellow
    case _ => SystemBlue
  }

  /** Red exactly for "User", yellow exactly for "Favorite", blue for every other category. */
  lemma MarkerColorRule(category: string)
    ensures MarkerColorFor(category) == SystemRed <==> category == "User"
    ensures MarkerColorFor(category) == SystemYellow <==> category == "Favorite"
    ensures MarkerColorFor(category) == SystemBlue <==> category != "User" && category != "Favorite"
  {
  }

  /** A `POIAnnotation`: an object whose fields are fixed when it is built. */
  class PoiAnnotation {
    const title: Option<string>
    const subtitle: Option<string>
    const coordinate: Coordinate
    const category: string

    constructor (title: string, subtitle: string, coordinate: Coordinate, category: string)
      ensures this.title == Some(title) && this.subtitle == Some(subtitle)
      ensures this.coordinate == coordinate && this.category == category
    {
      this.title := Some(title);
      this.subtitle := Some(subtitle);
      this.coordinate := coordinate;
      this.category := category;
    }
  }

  /** The category a new annotation is given: "Favorite" for a flagged POI, else its own. */
  function AnnotationCategory(p: Poi): string
  {
    if p.isFavorite then "Favorite" else p.category
  }

  /** A new annotation's colour follows the flag first, then the POI's category. */
  lemma NewAnnotationColor(p: Poi)
    ensures MarkerColorFor(AnnotationCategory(p)) ==
      if p.isFavorite || p.category == "Favorite" then SystemYellow
      else if p.category == "User" then SystemRed
      else SystemBlue
  {
    MarkerColorRule(AnnotationCategory(p));
  }

  /** The annotation `updateAnnotations` builds for a POI it has no annotation for. */
  predicate Depicts(a: PoiAnnotation, p: Poi)
  {
    a.title == Some(p.name) && a.subtitle == Some(p.address) && a.coordinate == p.coordinate
    && a.category == AnnotationCategory(p)
  }

  /** The key of an annotation already on the view, computed through a temporary POI (title `?? ""`). */
  function AnnotationKeyOf(a: PoiAnnotation): AnnotationKey
  {
    AnnotationKey(a.coordinate.latitude, a.coordinate.longitude, a.title.GetOr(""))
  }

  lemma DepictedKey(a: PoiAnnotation, p: Poi)
    requires Depicts(a, p)
    ensures AnnotationKeyOf(a) == KeyFor(p)
  {
  }

  // ---- Callout selection ----

  function Abs(x: real): real
  {
    if x < 0.0 then -x else x
  }

  /** The tolerance of the callout lookup, in degrees. */
  const CalloutTolerance: real := 0.000001

  /** The callout's lookup: coordinates within the tolerance and the name equal to the title. */
  predicate CalloutMatch(p: Poi, a: PoiAnnotation)
  {
    && Abs(p.coordinate.latitude - a.coordinate.latitude) < CalloutTolerance
    && Abs(p.coordinate.longitude - a.coordinate.longitude) < CalloutTolerance
    && Some(p.name) == a.title
  }

  /**
   * The POI a callout tap selects: the first of `pois` matching the annotation, else a POI
   * freshly built from it with "Unknown" and "" standing in for a missing title and subtitle.
   */
  function CalloutSelection(pois: seq<Poi>, a: PoiAnnotation, newId: nat): (r: Poi)
    ensures (exists i :: 0 <= i < |pois| && CalloutMatch(pois[i], a)) ==>
      exists i :: 0 <= i < |pois| && CalloutMatch(pois[i], a) && r == pois[i]
        && forall j :: 0 <= j < i ==> !CalloutMatch(pois[j], a)
    ensures (forall i :: 0 <= i < |pois| ==> !CalloutMatch(pois[i], a)) ==>
      r == NewPoi(newId, a.title.GetOr("Unknown"), a.category, a.subtitle.GetOr(""), a.coordinate)
  {
    match FirstIndex((p: Poi) => CalloutMatch(p, a), pois)
    case Some(i) => pois[i]
    case None => NewPoi(newId, a.title.GetOr("Unknown"), a.category, a.subtitle.GetOr(""), a.coordinate)
  }

  // ---- Route overlay ----

  /** An overlay on the map; polylines are told apart by object identity, modelled as an id. */
  datatype Overlay = Polyline(polylineId: nat) | OtherOverlay(overlayId: nat)

  /** An `MKRoute`, of which only its polyline matters here. */
  datatype Route = Route(polyline: nat)

  function WithoutPolylines(overlays: seq<Overlay>): seq<Overlay>
  {
    Filter((o: Overlay) => !o.Polyline?, overlays)
  }

  /**
   * The overlays after `updateRoute`: no route removes every polyline; a route whose polyline is
   * not shown replaces all polylines with its own; a route already shown changes nothing.
   * Other overlays always stay.
   */
  function RoutedOverlays(overlays: seq<Overlay>, route: Option<Route>): (r: seq<Overlay>)
    ensures forall i :: 0 <= i < |overlays| && !overlays[i].Polyline? ==> overlays[i] in r
    ensures forall i :: 0 <= i < |r| ==> r[i] in overlays || (route.Some? && r[i] == Polyline(route.value.polyline))
    ensures route.None? ==> forall i :: 0 <= i < |r| ==> !r[i].Polyline?
    ensures route.Some? ==> Polyline(route.value.polyline) in r
    ensures route.Some? && Polyline(route.value.polyline) !in overlays ==>
      forall i :: 0 <= i < |r| && r[i].Polyline? ==> r[i] == Polyline(route.value.polyline)
    ensures route.Some? && Polyline(route.value.polyline) in overlays ==> r == overlays
  {
    FilterMembers((o: Overlay) => !o.Polyline?, overlays);
    match route
    case None => WithoutPolylines(overlays)
    case Some(rt) =>
      if Polyline(rt.polyline) in overlays then overlays
      else WithoutPolylines(overlays) + [Polyline(rt.polyline)]
  }

  // ---- The map view ----

  /** The parts of an `MKMapView` the wrapper writes. */
  class MapCanvas {
    var annotations: set<PoiAnnotation>
    var overlays: seq<Overlay>
    var region: Region
    var mapType: MapType

    /** `makeUIView`: an empty map at the bound region and map type. */
    constructor (region: Region, mapType: MapType)
      ensures annotations == {} && overlays == [] && this.region == region && this.mapType == mapType
    {
      annotations := {};
      overlays := [];
      this.region := region;
      this.mapType := mapType;
    }
  }

  /** The keys of the incoming POIs. */
  function Keys(pois: seq<Poi>): set<AnnotationKey>
  {
    set i | 0 <= i < |pois| :: KeyFor(pois[i])
  }

  /** The keys of the first `n` POIs. */
  function KeysBefore(pois: seq<Poi>, n: nat): set<AnnotationKey>
    requires n <= |pois|
  {
    set j | 0 <= j < n :: KeyFor(pois[j])
  }

  /** No earlier POI of the list has the same key as `pois[i]`. */
  predicate FirstOfKey(pois: seq<Poi>, i: nat)
    requires i < |pois|
  {
    forall j :: 0 <= j < i ==> KeyFor(pois[j]) != KeyFor(pois[i])
  }

  /** The annotations of the keys that are no longer incoming. */
  function Dropped(m: map<AnnotationKey, PoiAnnotation>, incoming: set<AnnotationKey>): set<PoiAnnotation>
  {
    set k | k in m && k !in incoming :: m[k]
  }

  /** The annotation the dictionary holds for each POI, in the POIs' order. */
  function Lookup(m: map<AnnotationKey, PoiAnnotation>, pois: seq<Poi>): (r: seq<PoiAnnotation>)
    requires forall i :: 0 <= i < |pois| ==> KeyFor(pois[i]) in m
    ensures |r| == |pois|
    ensures forall i :: 0 <= i < |pois| ==> r[i] == m[KeyFor(pois[i])]
  {
    if pois == [] then [] else [m[KeyFor(pois[0])]] + Lookup(m, pois[1..])
  }

  /** The keys of the annotations on the view. */
  function KeysShown(shown: set<PoiAnnotation>): set<AnnotationKey>
  {
    set a | a in shown :: AnnotationKeyOf(a)
  }

  /** The annotations among the first `n` of `anns` whose key is not in `existing`. */
  function Unshown(anns: seq<PoiAnnotation>, existing: set<AnnotationKey>, n: nat): set<PoiAnnotation>
    requires n <= |anns|
  {
    set j | 0 <= j < n && AnnotationKeyOf(anns[j]) !in existing :: anns[j]
  }

  class Coordinator {
    /** `parent.pois` as captured by `makeCoordinator`; `updateUIView` never replaces the parent. */
    const parentPois: seq<Poi>
    /** The view model the `region` and `selectedPOI` bindings write to. */
    const viewModel: MapViewModel
    var isUserDraggingMap: bool
    var annotationMap: map<AnnotationKey, PoiAnnotation>

    /** `makeCoordinator()` */
    constructor (parentPois: seq<Poi>, viewModel: MapViewModel)
      ensures this.parentPois == parentPois && this.viewModel == viewModel
      ensures !isUserDraggingMap && annotationMap == map[]
    {
      this.parentPois := parentPois;
      this.viewModel := viewModel;
      isUserDraggingMap := false;
      annotationMap := map[];
    }

    /** The view shows exactly one annotation per key of the dictionary, filed under its own key. */
    ghost predicate Shows(canvas: MapCanvas)
      reads this, canvas
    {
      && (forall k :: k in annotationMap ==> AnnotationKeyOf(annotationMap[k]) == k)
      && canvas.annotations == annotationMap.Values
    }

    /** `regionWillChangeAnimated`: a gesture that has begun or is changing sets the drag flag. */
    method RegionWillChange(gestureActive: bool)
      modifies this`isUserDraggingMap
      ensures isUserDraggingMap == (old(isUserDraggingMap) || gestureActive)
    {
      if gestureActive {
        isUserDraggingMap := true;
      }
    }

    /** `regionDidChangeAnimated`: the view's region reaches the binding only after a drag; the flag ends false. */
    method RegionDidChange(canvas: MapCanvas)
      modifies this`isUserDraggingMap, viewModel`region
      ensures !isUserDraggingMap
      ensures viewModel.region == if old(isUserDraggingMap) then canvas.region else old(viewModel.region)
    {
      if isUserDraggingMap {
        viewModel.region := canvas.region;
        isUserDraggingMap := false;
      }
    }

    /** `calloutAccessoryControlTapped`: the selection becomes the lookup's POI; a fallback POI draws an id. */
    method CalloutTapped(a: PoiAnnotation)
      modifies viewModel`selectedPOI, viewModel`nextId
      ensures viewModel.selectedPOI == Some(CalloutSelection(parentPois, a, old(viewModel.nextId)))
      ensures viewModel.nextId == old(viewModel.nextId)
        + if exists i :: 0 <= i < |parentPois| && CalloutMatch(parentPois[i], a) then 0 else 1
    {
      var selected := CalloutSelection(parentPois, a, viewModel.nextId);
      var i := FirstIndex((p: Poi) => CalloutMatch(p, a), parentPois);
      if i.None? {
        viewModel.nextId := viewModel.nextId + 1;
      }
      viewModel.selectedPOI := Some(selected);
    }
  }

  /** With the dictionary and view agreeing before, the view shows the new dictionary's annotations after. */
  lemma ReconciledViewShowsMap(
    m0: map<AnnotationKey, PoiAnnotation>, m2: map<AnnotationKey, PoiAnnotation>,
    pois: seq<Poi>, shown0: set<PoiAnnotation>, newAnnotations: seq<PoiAnnotation>)
    requires forall k :: k in m0 ==> AnnotationKeyOf(m0[k]) == k
    requires shown0 == m0.Values
    requires m2.Keys == Keys(pois)
    requires forall k :: k in m0 && k in m2 ==> m2[k] == m0[k]
    requires forall k :: k in m2 ==> AnnotationKeyOf(m2[k]) == k
    requires |newAnnotations| == |pois|
    requires forall j :: 0 <= j < |pois| ==> newAnnotations[j] == m2[KeyFor(pois[j])]
    ensures var kept := shown0 - Dropped(m0, Keys(pois));
      kept + Unshown(newAnnotations, KeysShown(kept), |newAnnotations|) == m2.Values
  {
    var incoming := Keys(pois);
    var kept := shown0 - Dropped(m0, incoming);
    var existing := KeysShown(kept);
    var added := Unshown(newAnnotations, existing, |newAnnotations|);
    assert existing <= m0.Keys by {
      forall key | key in existing ensures key in m0.Keys {
        var a :| a in kept && AnnotationKeyOf(a) == key;
        var k :| k in m0 && m0[k] == a;
      }
    }
    forall a | a in kept + added ensures a in m2.Values {
      if a in kept {
        var k :| k in m0 && m0[k] == a;
        assert k in incoming;
      } else {
        var j :| 0 <= j < |newAnnotations| && newAnnotations[j] == a;
      }
    }
    forall a | a in m2.Values ensures a in kept + added {
      var k :| k in m2 && m2[k] == a;
      var j :| 0 <= j < |pois| && KeyFor(pois[j]) == k;
      if k in m0 {
        assert a in shown0;
        assert a !in Dropped(m0, incoming);
      } else {
        assert newAnnotations[j] == a;
        assert AnnotationKeyOf(a) !in existing;
      }
    }
  }

  /** First phase of `updateAnnotations`: reuse the annotation of a known key, else build and file one. */
  method CollectAnnotations(pois: seq<Poi>, coordinator: Coordinator) returns (newAnnotations: seq<PoiAnnotation>)
    modifies coordinator`annotationMap
    ensures coordinator.annotationMap.Keys == old(coordinator.annotationMap).Keys + Keys(pois)
    ensures forall k :: k in old(coordinator.annotationMap) ==>
      coordinator.annotationMap[k] == old(coordinator.annotationMap)[k]
    ensures forall k :: k in coordinator.annotationMap && k !in old(coordinator.annotationMap) ==>
      fresh(coordinator.annotationMap[k]) && AnnotationKeyOf(coordinator.annotationMap[k]) == k
    ensures forall i :: 0 <= i < |pois| && KeyFor(pois[i]) !in old(coordinator.annotationMap) && FirstOfKey(pois, i) ==>
      Depicts(coordinator.annotationMap[KeyFor(pois[i])], pois[i])
    ensures |newAnnotations| == |pois|
    ensures forall i :: 0 <= i < |pois| ==> newAnnotations[i] == coordinator.annotationMap[KeyFor(pois[i])]
  {
    var m: map<AnnotationKey, PoiAnnotation> := coordinator.annotationMap;
    ghost var m0 := m;
    newAnnotations := [];
    for i := 0 to |pois|
      invariant Collected(m0, m, pois, i, newAnnotations)
      invariant forall k :: k in m && k !in m0 ==> fresh(m[k])
    {
      var poi := pois[i];
      var key := KeyFor(poi);
      var annotation: PoiAnnotation;
      if key in m {
        annotation := m[key];
        CollectReuse(m0, m, pois, i, newAnnotations);
      } else {
        annotation := new PoiAnnotation(poi.name, poi.address, poi.coordinate, AnnotationCategory(poi));
        CollectNew(m0, m, pois, i, newAnnotations, annotation);
        m := m[key := annotation];
      }
      newAnnotations := newAnnotations + [annotation];
    }
    assert KeysBefore(pois, |pois|) == Keys(pois);
    coordinator.annotationMap := m;
  }

  /** `m` holds the keys of `m0` and of the first `i` POIs, and no others. */
  ghost predicate Filed(m0: map<AnnotationKey, PoiAnnotation>, m: map<AnnotationKey, PoiAnnotation>, pois: seq<Poi>, i: nat)
    requires i <= |pois|
  {
    && m.Keys == m0.Keys + KeysBefore(pois, i)
    && (forall j :: 0 <= j < i ==> KeyFor(pois[j]) in m)
  }

  /** `m` keeps every entry of `m0`, and the entries it adds are filed under their own keys. */
  ghost predicate Extends(m0: map<AnnotationKey, PoiAnnotation>, m: map<AnnotationKey, PoiAnnotation>)
  {
    && (forall k :: k in m0 ==> k in m && m[k] == m0[k])
    && (forall k :: k in m && k !in m0 ==> AnnotationKeyOf(m[k]) == k)
  }

  /** Among the first `i` POIs, each first POI of a key new to `m0` is depicted by its entry. */
  ghost predicate FirstsDepicted(m0: map<AnnotationKey, PoiAnnotation>, m: map<AnnotationKey, PoiAnnotation>, pois: seq<Poi>, i: nat)
    requires i <= |pois| && forall j :: 0 <= j < i ==> KeyFor(pois[j]) in m
  {
    forall j :: 0 <= j < i && KeyFor(pois[j]) !in m0 && FirstOfKey(pois, j) ==> Depicts(m[KeyFor(pois[j])], pois[j])
  }

  /** `newAnnotations` lists the entry of each of the first `i` POIs. */
  ghost predicate Listed(m: map<AnnotationKey, PoiAnnotation>, pois: seq<Poi>, i: nat, newAnnotations: seq<PoiAnnotation>)
    requires i <= |pois| && forall j :: 0 <= j < i ==> KeyFor(pois[j]) in m
  {
    |newAnnotations| == i && forall j :: 0 <= j < i ==> newAnnotations[j] == m[KeyFor(pois[j])]
  }

  /** What the first phase has established after `i` POIs. */
  ghost predicate Collected(m0: map<AnnotationKey, PoiAnnotation>, m: map<AnnotationKey, PoiAnnotation>,
                            pois: seq<Poi>, i: nat, newAnnotations: seq<PoiAnnotation>)
    requires i <= |pois|
  {
    Filed(m0, m, pois, i) && Extends(m0, m) && FirstsDepicted(m0, m, pois, i) && Listed(m, pois, i, newAnnotations)
  }

  /** One POI of the first phase whose key is already filed: its annotation is reused. */
  lemma CollectReuse(m0: map<AnnotationKey, PoiAnnotation>, m: map<AnnotationKey, PoiAnnotation>,
                     pois: seq<Poi>, i: nat, newAnnotations: seq<PoiAnnotation>)
    requires i < |pois| && Collected(m0, m, pois, i, newAnnotations)
    requires KeyFor(pois[i]) in m
    ensures Collected(m0, m, pois, i + 1, newAnnotations + [m[KeyFor(pois[i])]])
  {
    FiledReuse(m0, m, pois, i);
    ReuseDepicts(m0, m, pois, i);
    ListedStep(m, pois, i, newAnnotations, m[KeyFor(pois[i])]);
  }

  /** One POI of the first phase with a new key: a new annotation depicting it is filed under the key. */
  lemma CollectNew(m0: map<AnnotationKey, PoiAnnotation>, m: map<AnnotationKey, PoiAnnotation>,
                   pois: seq<Poi>, i: nat, newAnnotations: seq<PoiAnnotation>, annotation: PoiAnnotation)
    requires i < |pois| && Collected(m0, m, pois, i, newAnnotations)
    requires KeyFor(pois[i]) !in m && Depicts(annotation, pois[i])
    ensures Collected(m0, m[KeyFor(pois[i]) := annotation], pois, i + 1, newAnnotations + [annotation])
  {
    var m' := m[KeyFor(pois[i]) := annotation];
    FiledNew(m0, m, pois, i, annotation);
    ExtendsNew(m0, m, pois[i], annotation);
    NewKeyDepicts(m0, m, pois, i, annotation);
    ListedStep(m', pois, i, newAnnotations, annotation);
  }

  lemma FiledReuse(m0: map<AnnotationKey, PoiAnnotation>, m: map<AnnotationKey, PoiAnnotation>, pois: seq<Poi>, i: nat)
    requires i < |pois| && Filed(m0, m, pois, i) && KeyFor(pois[i]) in m
    ensures Filed(m0, m, pois, i + 1)
  {
    KeysExtend(pois, i);
  }

  lemma FiledNew(m0: map<AnnotationKey, PoiAnnotation>, m: map<AnnotationKey, PoiAnnotation>, pois: seq<Poi>, i: nat,
                 annotation: PoiAnnotation)
    requires i < |pois| && Filed(m0, m, pois, i)
    ensures Filed(m0, m[KeyFor(pois[i]) := annotation], pois, i + 1)
  {
    KeysExtend(pois, i);
  }

  lemma ExtendsNew(m0: map<AnnotationKey, PoiAnnotation>, m: map<AnnotationKey, PoiAnnotation>, p: Poi, annotation: PoiAnnotation)
    requires Extends(m0, m) && KeyFor(p) !in m && Depicts(annotation, p)
    ensures Extends(m0, m[KeyFor(p) := annotation])
  {
    DepictedKey(annotation, p);
  }

  /** Reusing a key: the POI is not the first of its key, so nothing new must be depicted. */
  lemma ReuseDepicts(m0: map<AnnotationKey, PoiAnnotation>, m: map<AnnotationKey, PoiAnnotation>, pois: seq<Poi>, i: nat)
    requires i < |pois| && Filed(m0, m, pois, i) && KeyFor(pois[i]) in m
    requires forall j :: 0 <= j < i + 1 ==> KeyFor(pois[j]) in m
    requires FirstsDepicted(m0, m, pois, i)
    ensures FirstsDepicted(m0, m, pois, i + 1)
  {
    KeysExtend(pois, i);
  }

  /** Filing a new key keeps every first POI of a key depicted by its annotation. */
  lemma NewKeyDepicts(m0: map<AnnotationKey, PoiAnnotation>, m: map<AnnotationKey, PoiAnnotation>,
                      pois: seq<Poi>, i: nat, annotation: PoiAnnotation)
    requires i < |pois| && KeyFor(pois[i]) !in m && Depicts(annotation, pois[i])
    requires forall j :: 0 <= j < i ==> KeyFor(pois[j]) in m
    requires FirstsDepicted(m0, m, pois, i)
    ensures FirstsDepicted(m0, m[KeyFor(pois[i]) := annotation], pois, i + 1)
  {
    var m' := m[KeyFor(pois[i]) := annotation];
    forall j | 0 <= j < i + 1 && KeyFor(pois[j]) !in m0 && FirstOfKey(pois, j)
      ensures Depicts(m'[KeyFor(pois[j])], pois[j])
    {
      if j < i {
        assert m'[KeyFor(pois[j])] == m[KeyFor(pois[j])];
      }
    }
  }

  lemma ListedStep(m: map<AnnotationKey, PoiAnnotation>, pois: seq<Poi>, i: nat, newAnnotations: seq<PoiAnnotation>,
                   annotation: PoiAnnotation)
    requires i < |pois| && (forall j :: 0 <= j < i + 1 ==> KeyFor(pois[j]) in m)
    requires Listed(m, pois, i, newAnnotations) && m[KeyFor(pois[i])] == annotation
    ensures Listed(m, pois, i + 1, newAnnotations + [annotation])
  {
    var listed := newAnnotations + [annotation];
    forall j | 0 <= j < i ensures listed[j] == newAnnotations[j] {
    }
  }

  /** The keys of a longer prefix; a key already among them is not the first of its kind. */
  lemma KeysExtend(pois: seq<Poi>, i: nat)
    requires i < |pois|
    ensures KeysBefore(pois, i + 1) == KeysBefore(pois, i) + {KeyFor(pois[i])}
    ensures KeyFor(pois[i]) in KeysBefore(pois, i) ==> !FirstOfKey(pois, i)
  {
  }

  /**
   * Second phase: take each stale key's annotation off the view and out of the dictionary. Every
   * such key is still in the dictionary, so the source's `if let` always succeeds.
   */
  method RemoveStale(stale: set<AnnotationKey>, uiView: MapCanvas, coordinator: Coordinator)
    requires stale <= coordinator.annotationMap.Keys
    modifies uiView`annotations, coordinator`annotationMap
    ensures coordinator.annotationMap == old(coordinator.annotationMap) - stale
    ensures uiView.annotations == old(uiView.annotations) - (set k | k in stale :: old(coordinator.annotationMap)[k])
  {
    ghost var m1 := coordinator.annotationMap;
    ghost var shown := uiView.annotations;
    var keysToRemove := stale;
    ghost var done: set<AnnotationKey> := {};
    while keysToRemove != {}
      invariant keysToRemove == stale - done && done <= stale
      invariant coordinator.annotationMap == m1 - done
      invariant uiView.annotations == shown - (set k | k in done :: m1[k])
      decreases keysToRemove
    {
      var key :| key in keysToRemove;
      assert (set k | k in done + {key} :: m1[k]) == (set k | k in done :: m1[k]) + {m1[key]};
      uiView.annotations := uiView.annotations - {coordinator.annotationMap[key]};
      coordinator.annotationMap := coordinator.annotationMap - {key};
      keysToRemove := keysToRemove - {key};
      done := done + {key};
    }
    assert done == stale;
  }

  /** Third phase: put on the view each new annotation whose key the view does not show yet. */
  method AddUnshown(newAnnotations: seq<PoiAnnotation>, uiView: MapCanvas)
    modifies uiView`annotations
    ensures uiView.annotations ==
      old(uiView.annotations) + Unshown(newAnnotations, KeysShown(old(uiView.annotations)), |newAnnotations|)
  {
    var existingKeys := KeysShown(uiView.annotations);
    ghost var kept := uiView.annotations;
    for i := 0 to |newAnnotations|
      invariant uiView.annotations == kept + Unshown(newAnnotations, existingKeys, i)
    {
      var annotation := newAnnotations[i];
      assert Unshown(newAnnotations, existingKeys, i + 1) ==
        Unshown(newAnnotations, existingKeys, i) + (if AnnotationKeyOf(annotation) !in existingKeys then {annotation} else {});
      if AnnotationKeyOf(annotation) !in existingKeys {
        uiView.annotations := uiView.annotations + {annotation};
      }
    }
  }

  /**
   * `updateAnnotations(on:context:)`: reuse or build an annotation per incoming POI, drop the keys no
   * longer incoming (taking their annotations off the view), then add the annotations whose key the
   * view does not already show.
   */
  method UpdateAnnotations(pois: seq<Poi>, uiView: MapCanvas, coordinator: Coordinator)
    returns (newAnnotations: seq<PoiAnnotation>)
    modifies uiView`annotations, coordinator`annotationMap
    ensures coordinator.annotationMap.Keys == Keys(pois)
    ensures forall k :: k in old(coordinator.annotationMap) && k in Keys(pois) ==>
      coordinator.annotationMap[k] == old(coordinator.annotationMap)[k]
    ensures forall i :: 0 <= i < |pois| && KeyFor(pois[i]) !in old(coordinator.annotationMap) && FirstOfKey(pois, i) ==>
      fresh(coordinator.annotationMap[KeyFor(pois[i])]) && Depicts(coordinator.annotationMap[KeyFor(pois[i])], pois[i])
    ensures |newAnnotations| == |pois|
    ensures forall i :: 0 <= i < |pois| ==> newAnnotations[i] == coordinator.annotationMap[KeyFor(pois[i])]
    ensures var kept := old(uiView.annotations) - Dropped(old(coordinator.annotationMap), Keys(pois));
      uiView.annotations == kept + Unshown(newAnnotations, KeysShown(kept), |newAnnotations|)
    ensures old(coordinator.Shows(uiView)) ==> coordinator.Shows(uiView)
  {
    ghost var m0 := coordinator.annotationMap;
    ghost var shown0 := uiView.annotations;
    newAnnotations := CollectAnnotations(pois, coordinator);
    ghost var m1 := coordinator.annotationMap;
    var keysToRemove := coordinator.annotationMap.Keys - Keys(pois);
    assert keysToRemove == m0.Keys - Keys(pois);
    RemoveStale(keysToRemove, uiView, coordinator);
    assert (set k | k in keysToRemove :: m1[k]) == Dropped(m0, Keys(pois));
    AddUnshown(newAnnotations, uiView);
    if old(coordinator.Shows(uiView)) {
      ReconciledViewShowsMap(m0, coordinator.annotationMap, pois, shown0, newAnnotations);
    }
  }

  /** `updateRoute(on:)` */
  method UpdateRoute(route: Option<Route>, uiView: MapCanvas)
    modifies uiView`overlays
    ensures uiView.overlays == RoutedOverlays(old(uiView.overlays), route)
  {
    if route.Some? {
      if Polyline(route.value.polyline) !in uiView.overlays {
        uiView.overlays := WithoutPolylines(uiView.overlays) + [Polyline(route.value.polyline)];
      }
    } else {
      uiView.overlays := WithoutPolylines(uiView.overlays);
    }
  }

  /** How far apart two regions' centres may be before `syncRegion` moves the view. */
  const CenterThreshold: real := 0.0005

  /** `syncRegion`: unless the user is dragging, a view more than the threshold away takes the bound region. */
  method SyncRegion(region: Region, uiView: MapCanvas, coordinator: Coordinator)
    modifies uiView`region
    ensures uiView.region ==
      if !coordinator.isUserDraggingMap
        && (Abs(old(uiView.region).center.latitude - region.center.latitude) > CenterThreshold
            || Abs(old(uiView.region).center.longitude - region.center.longitude) > CenterThreshold)
      then region else old(uiView.region)
    ensures !coordinator.isUserDraggingMap ==>
      && Abs(uiView.region.center.latitude - region.center.latitude) <= CenterThreshold
      && Abs(uiView.region.center.longitude - region.center.longitude) <= CenterThreshold
  {
    var diffLat := Abs(uiView.region.center.latitude - region.center.latitude);
    var diffLon := Abs(uiView.region.center.longitude - region.center.longitude);
    if !coordinator.isUserDraggingMap && (diffLat > CenterThreshold || diffLon > CenterThreshold) {
      uiView.region := region;
    }
  }

  /**
   * `updateUIView(_:context:)`: region sync, annotations, map type and route, in that order.
   * Each phase's outcome holds of the final state.
   */
  method UpdateUIView(region: Region, pois: seq<Poi>, route: Option<Route>, mapType: MapType,
                      uiView: MapCanvas, coordinator: Coordinator)
    modifies uiView, coordinator`annotationMap
    // the region
    ensures uiView.region ==
      if !coordinator.isUserDraggingMap
        && (Abs(old(uiView.region).center.latitude - region.center.latitude) > CenterThreshold
            || Abs(old(uiView.region).center.longitude - region.center.longitude) > CenterThreshold)
      then region else old(uiView.region)
    ensures !coordinator.isUserDraggingMap ==>
      && Abs(uiView.region.center.latitude - region.center.latitude) <= CenterThreshold
      && Abs(uiView.region.center.longitude - region.center.longitude) <= CenterThreshold
    // the dictionary
    ensures coordinator.annotationMap.Keys == Keys(pois)
    ensures forall i :: 0 <= i < |pois| ==> KeyFor(pois[i]) in coordinator.annotationMap
    ensures forall k :: k in old(coordinator.annotationMap) && k in Keys(pois) ==>
      coordinator.annotationMap[k] == old(coordinator.annotationMap)[k]
    ensures forall i :: 0 <= i < |pois| && KeyFor(pois[i]) !in old(coordinator.annotationMap) && FirstOfKey(pois, i) ==>
      fresh(coordinator.annotationMap[KeyFor(pois[i])]) && Depicts(coordinator.annotationMap[KeyFor(pois[i])], pois[i])
    // the annotations on the view
    ensures var kept := old(uiView.annotations) - Dropped(old(coordinator.annotationMap), Keys(pois));
      uiView.annotations == kept + Unshown(Lookup(coordinator.annotationMap, pois), KeysShown(kept), |pois|)
    ensures old(coordinator.Shows(uiView)) ==> coordinator.Shows(uiView)
    // map type and route
    ensures uiView.mapType == mapType
    ensures uiView.overlays == RoutedOverlays(old(uiView.overlays), route)
  {
    SyncRegion(region, uiView, coordinator);
    var newAnnotations := UpdateAnnotations(pois, uiView, coordinator);
    assert newAnnotations == Lookup(coordinator.annotationMap, pois);
    uiView.mapType := mapType;
    UpdateRoute(route, uiView);
  }
}
