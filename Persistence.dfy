/**
 * `PersistenceService` (POIFinder/Services/PersistenceService.swift): the Core Data context holding
 * `FavoritePOI` objects, modelled as the sequence of stored records in fetch order.
 */
module Persistence {
  import opened Wrappers
  import opened Sequences
  import opened Models

  /** A `FavoritePOI` managed object; each attribute may be missing. Notes and the flag are not stored. */
  datatype FavoriteRecord = FavoriteRecord(
    name: Option<string>,
    category: Option<string>,
    address: Option<string>,
    latitude: Option<real>,
    longitude: Option<real>)

  /** The record `save(poi:)` writes. */
  function RecordOf(p: Poi): FavoriteRecord
  {
    FavoriteRecord(Some(p.name), Some(p.category), Some(p.address),
                   Some(p.coordinate.latitude), Some(p.coordinate.longitude))
  }

  /** All five `guard let`s of `fetchFavorites` succeed. */
  predicate Complete(r: FavoriteRecord)
  {
    r.name.Some? && r.category.Some? && r.address.Some? && r.latitude.Some? && r.longitude.Some?
  }

  function CompleteRecords(records: seq<FavoriteRecord>): seq<FavoriteRecord>
  {
    Filter(Complete, records)
  }

  /** The fresh POI built from a complete record. */
  function RecordPoi(r: FavoriteRecord, newId: nat): Poi
    requires Complete(r)
  {
    NewPoi(newId, r.name.value, r.category.value, r.address.value,
           Coordinate(r.latitude.value, r.longitude.value))
  }

  /**
   * `results.compactMap { ... }`: incomplete records are skipped; the i-th complete record
   * becomes the i-th POI, freshly built with id `firstId + i`.
   */
  function Hydrate(records: seq<FavoriteRecord>, firstId: nat): (r: seq<Poi>)
    ensures |r| == |CompleteRecords(records)| <= |records|
    ensures forall i :: 0 <= i < |r| ==> r[i] == RecordPoi(CompleteRecords(records)[i], firstId + i)
  {
    if records == [] then []
    else
      var rest := records[1..];
      assert CompleteRecords(records) == (if Complete(records[0]) then [records[0]] else []) + CompleteRecords(rest);
      if !Complete(records[0]) then Hydrate(rest, firstId)
      else [RecordPoi(records[0], firstId)] + Hydrate(rest, firstId + 1)
  }

  /** The records that `NSPredicate(format: "name == %@", name)` selects. */
  predicate NamedAs(name: string, r: FavoriteRecord)
  {
    r.name == Some(name)
  }

  /** The store after deleting `fetch(request).first`, if there is one. */
  function WithoutFirstNamed(records: seq<FavoriteRecord>, name: string): (r: seq<FavoriteRecord>)
    ensures (forall j :: 0 <= j < |records| ==> !NamedAs(name, records[j])) ==> r == records
    ensures (exists j :: 0 <= j < |records| && NamedAs(name, records[j])) ==>
      exists i :: 0 <= i < |records| && NamedAs(name, records[i])
        && (forall j :: 0 <= j < i ==> !NamedAs(name, records[j]))
        && r == records[..i] + records[i + 1..]
  {
    match FirstIndex((r: FavoriteRecord) => NamedAs(name, r), records)
    case None => records
    case Some(i) => records[..i] + records[i + 1..]
  }

  class PersistenceService {
    /** The `FavoritePOI` objects of the context, in the order a fetch returns them. */
    var records: seq<FavoriteRecord>

    constructor (stored: seq<FavoriteRecord>)
      ensures records == stored
    {
      records := stored;
    }

    /**
     * `save(poi:)`: always inserts one new object; it never looks for an existing one.
     * A failing `context.save()` is only logged and leaves the inserted object in the context.
     */
    method Save(poi: Poi)
      modifies this
      ensures records == old(records) + [RecordOf(poi)]
    {
      records := records + [RecordOf(poi)];
    }

    /** `fetchFavorites()`: a failed fetch yields no POIs; otherwise every complete record, freshly built. */
    function FetchFavorites(firstId: nat, fetchFailed: bool): (r: seq<Poi>)
      reads this
      ensures fetchFailed ==> r == []
      ensures !fetchFailed ==> r == Hydrate(records, firstId)
    {
      if fetchFailed then [] else Hydrate(records, firstId)
    }

    /**
     * `delete(poi:)`: removes the first record whose name equals `poi.name`, whatever its
     * coordinate; no match and a failed fetch are not errors and change nothing.
     */
    method Delete(poi: Poi, fetchFailed: bool)
      modifies this
      ensures records == if fetchFailed then old(records) else WithoutFirstNamed(old(records), poi.name)
    {
      if !fetchFailed {
        var i := FirstIndex((r: FavoriteRecord) => NamedAs(poi.name, r), records);
        if i.Some? {
          records := records[..i.value] + records[i.value + 1..];
        }
      }
    }
  }

  // ---- Properties of the store ----

  /** Saving a POI and fetching gives back its fields under a fresh id, after what was already there. */
  lemma {:induction false} SaveThenHydrate(records: seq<FavoriteRecord>, p: Poi, firstId: nat)
    ensures var before := Hydrate(records, firstId);
      Hydrate(records + [RecordOf(p)], firstId)
        == before + [NewPoi(firstId + |before|, p.name, p.category, p.address, p.coordinate)]
  {
    var rp := RecordOf(p);
    if records == [] {
      assert Hydrate([rp], firstId) == [RecordPoi(rp, firstId)] + Hydrate([], firstId + 1);
    } else {
      var all := records + [rp];
      assert all[0] == records[0] && all[1..] == records[1..] + [rp];
      if Complete(records[0]) {
        SaveThenHydrate(records[1..], p, firstId + 1);
      } else {
        SaveThenHydrate(records[1..], p, firstId);
      }
    }
  }

  /** Saving one POI grows the fetch by one: the old POIs keep their places and the new one comes last. */
  lemma SavedGoesLast(records: seq<FavoriteRecord>, p: Poi, firstId: nat)
    ensures var before := Hydrate(records, firstId);
      var after := Hydrate(records + [RecordOf(p)], firstId);
      && |after| == |before| + 1
      && after[..|before|] == before
      && after[|before|] == NewPoi(firstId + |before|, p.name, p.category, p.address, p.coordinate)
  {
    SaveThenHydrate(records, p, firstId);
  }

  /** Saving the same POI twice stores two records and fetches two distinct POIs with its name. */
  lemma SaveTwiceKeepsBoth(records: seq<FavoriteRecord>, p: Poi, firstId: nat)
    ensures var once := records + [RecordOf(p)];
      var twice := Hydrate(once + [RecordOf(p)], firstId);
      && |twice| == |Hydrate(records, firstId)| + 2
      && twice[|twice| - 1].name == twice[|twice| - 2].name == p.name
      && !Same(twice[|twice| - 1], twice[|twice| - 2])
  {
    var once := records + [RecordOf(p)];
    var n := |Hydrate(records, firstId)|;
    SavedGoesLast(records, p, firstId);
    SavedGoesLast(once, p, firstId);
    var h1, h2 := Hydrate(once, firstId), Hydrate(once + [RecordOf(p)], firstId);
    assert h2[n] == h1[n];
  }

  /** Fetched POIs are new values: none is `==` to a POI built before `firstId` was drawn. */
  lemma FetchedNeverSameAsEarlier(records: seq<FavoriteRecord>, firstId: nat, p: Poi)
    requires p.id < firstId
    ensures forall q :: q in Hydrate(records, firstId) ==> !Same(q, p)
  {
  }

  /** Only the record contents matter to `delete`: a namesake at another coordinate is removed first. */
  lemma DeleteMatchesNameOnly(a: Poi, b: Poi, rest: seq<FavoriteRecord>)
    requires a.name == b.name && a.coordinate != b.coordinate
    ensures WithoutFirstNamed([RecordOf(a), RecordOf(b)] + rest, b.name) == [RecordOf(b)] + rest
  {
    var rs := [RecordOf(a), RecordOf(b)] + rest;
    assert NamedAs(b.name, rs[0]);
    assert rs[1..] == [RecordOf(b)] + rest;
  }

  /** `delete` removes at most one record and never adds one. */
  lemma DeleteRemovesAtMostOne(records: seq<FavoriteRecord>, name: string)
    ensures var r := WithoutFirstNamed(records, name);
      |r| == |records| || |r| == |records| - 1
    ensures (exists j :: 0 <= j < |records| && NamedAs(name, records[j])) <==>
      |WithoutFirstNamed(records, name)| == |records| - 1
  {
  }
}
