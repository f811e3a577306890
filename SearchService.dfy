/**
 * The conversion done by `POISearchService.search` (POIFinder/Services/POISearchService.swift)
 * once `MKLocalSearch` has answered: map items become POIs, or the error is passed on.
 */
module SearchService {
  import opened Wrappers
  import opened Sequences
  import opened Models

  /** The parts of an `MKMapItem` the conversion reads. */
  datatype MapItem = MapItem(
    name: Option<string>,
    pointOfInterestCategory: Option<string>,
    placemarkTitle: Option<string>,
    coordinate: Coordinate)

  /** What `MKLocalSearch.start` hands to its completion: an optional response and an optional error. */
  datatype SearchReply = SearchReply(mapItems: Option<seq<MapItem>>, error: Option<string>)

  const DefaultCategory := "Uncategorized"
  const DefaultAddress := "No address"

  predicate Named(item: MapItem)
  {
    item.name.Some?
  }

  function NamedItems(items: seq<MapItem>): seq<MapItem>
  {
    Filter(Named, items)
  }

  /** The POI built for one named item: `??` supplies the default category and address. */
  function ItemPoi(item: MapItem, newId: nat): Poi
    requires Named(item)
  {
    NewPoi(newId, item.name.value, item.pointOfInterestCategory.GetOr(DefaultCategory),
           item.placemarkTitle.GetOr(DefaultAddress), item.coordinate)
  }

  /**
   * `mapItems.compactMap { ... }`: unnamed items are dropped; the i-th surviving item becomes
   * the i-th POI, built with the fresh id `firstId + i`.
   */
  function ToPois(items: seq<MapItem>, firstId: nat): (r: seq<Poi>)
    ensures |r| == |NamedItems(items)| <= |items|
    ensures forall i :: 0 <= i < |r| ==> r[i] == ItemPoi(NamedItems(items)[i], firstId + i)
  {
    if items == [] then []
    else
      var rest := items[1..];
      assert NamedItems(items) == (if Named(items[0]) then [items[0]] else []) + NamedItems(rest);
      if !Named(items[0]) then ToPois(rest, firstId)
      else [ItemPoi(items[0], firstId)] + ToPois(rest, firstId + 1)
  }

  /** Field by field: the name is kept, missing category and address get their defaults. */
  lemma ConvertedFields(items: seq<MapItem>, firstId: nat, i: nat)
    requires i < |ToPois(items, firstId)|
    ensures var p, item := ToPois(items, firstId)[i], NamedItems(items)[i];
      && Some(p.name) == item.name
      && p.category == (if item.pointOfInterestCategory.Some? then item.pointOfInterestCategory.value else DefaultCategory)
      && p.address == (if item.placemarkTitle.Some? then item.placemarkTitle.value else DefaultAddress)
      && p.coordinate == item.coordinate
      && p.id == firstId + i
      && p.note == None && !p.isFavorite
  {
  }

  /** The completion's argument: failure on an error, no POIs without a response, else the conversion. */
  function Search(reply: SearchReply, firstId: nat): (r: Result<seq<Poi>, string>)
    ensures reply.error.Some? ==> r == Failure(reply.error.value)
    ensures reply.error.None? && reply.mapItems.None? ==> r == Success([])
    ensures reply.error.None? && reply.mapItems.Some? ==>
      r.Success? && r.value == ToPois(reply.mapItems.value, firstId)
  {
    if reply.error.Some? then Failure(reply.error.value)
    else if reply.mapItems.None? then Success([])
    else Success(ToPois(reply.mapItems.value, firstId))
  }

  /** When every item has a name, the conversion is one-to-one. */
  lemma AllNamedMapOneToOne(items: seq<MapItem>, firstId: nat)
    requires forall i :: 0 <= i < |items| ==> items[i].name.Some?
    ensures |ToPois(items, firstId)| == |items|
    ensures forall i :: 0 <= i < |items| ==> Some(ToPois(items, firstId)[i].name) == items[i].name
  {
    FilterAll(Named, items);
  }

  /** Every POI of one reply carries its own fresh id, at or above `firstId`. */
  lemma ConvertedIdsFresh(items: seq<MapItem>, firstId: nat)
    ensures DistinctIds(ToPois(items, firstId))
    ensures forall i :: 0 <= i < |ToPois(items, firstId)| ==> ToPois(items, firstId)[i].id >= firstId
  {
  }
}
