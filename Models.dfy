/** The `POI` value of POIFinder/Models/POI.swift and its identity rules. */
module Models {
  import opened Wrappers
  import opened Sequences

  /** A `CLLocationCoordinate2D` in degrees; floating-point rounding is not modelled. */
  datatype Coordinate = Coordinate(latitude: real, longitude: real)

  /**
   * A point of interest. `id` stands for the `UUID()` drawn when the value is built;
   * `note` and `isFavorite` are the two mutable fields the view model writes.
   */
  datatype Poi = Poi(
    id: nat,
    name: string,
    category: string,
    address: string,
    coordinate: Coordinate,
    note: Option<string>,
    isFavorite: bool)

  /** The memberwise initialiser `POI(name:category:address:coordinate:)`, drawing the fresh id `newId`. */
  function NewPoi(newId: nat, name: string, category: string, address: string, coordinate: Coordinate): Poi
  {
    Poi(newId, name, category, address, coordinate, None, false)
  }

  /** The custom `==` of POI: identity only. */
  predicate Same(a: Poi, b: Poi)
  {
    a.id == b.id
  }

  /** `var copy = p; copy.note = n` */
  function WithNote(p: Poi, n: string): Poi
  {
    p.(note := Some(n))
  }

  /** `var copy = p; copy.isFavorite = true` */
  function AsFavorite(p: Poi): Poi
  {
    p.(isFavorite := true)
  }

  /** The ids present in a list of POIs. */
  function Ids(s: seq<Poi>): set<nat>
  {
    set i | 0 <= i < |s| :: s[i].id
  }

  /** `contains(where: { $0.id == id })` */
  predicate HasId(s: seq<Poi>, id: nat)
  {
    exists i :: 0 <= i < |s| && s[i].id == id
  }

  /** `firstIndex(where: { $0.id == id })` */
  function IndexOfId(s: seq<Poi>, id: nat): (r: Option<nat>)
    ensures r.None? <==> !HasId(s, id)
    ensures r.Some? ==> r.value < |s| && s[r.value].id == id
    ensures r.Some? ==> forall j :: 0 <= j < r.value ==> s[j].id != id
  {
    FirstIndex((q: Poi) => q.id == id, s)
  }

  /** No two entries share an id. */
  predicate DistinctIds(s: seq<Poi>)
  {
    forall i, j :: 0 <= i < j < |s| ==> s[i].id != s[j].id
  }

  lemma IdsAppend(a: seq<Poi>, b: seq<Poi>)
    ensures Ids(a + b) == Ids(a) + Ids(b)
  {
    var ab := a + b;
    forall id | id in Ids(ab) ensures id in Ids(a) + Ids(b) {
      var i :| 0 <= i < |ab| && ab[i].id == id;
      if i < |a| { assert a[i] == ab[i]; } else { assert b[i - |a|] == ab[i]; }
    }
    forall id | id in Ids(a) + Ids(b) ensures id in Ids(ab) {
      if id in Ids(a) {
        var i :| 0 <= i < |a| && a[i].id == id;
        assert ab[i] == a[i];
      } else {
        var i :| 0 <= i < |b| && b[i].id == id;
        assert ab[|a| + i] == b[i];
      }
    }
  }

  lemma HasIdIsMembership(s: seq<Poi>, id: nat)
    ensures HasId(s, id) <==> id in Ids(s)
  {
  }

  // ---- Identity properties ----

  /** `==` is decided by the id alone: name, category, address, coordinate, note and flag are ignored. */
  lemma SameIffSameId(a: Poi, b: Poi, name: string, category: string, address: string,
                      coordinate: Coordinate, note: Option<string>, isFavorite: bool)
    ensures Same(a, b) <==> a.id == b.id
    ensures Same(a, b) == Same(a.(name := name, category := category, address := address,
                                  coordinate := coordinate, note := note, isFavorite := isFavorite), b)
  {
  }

  /** Two constructions from identical fields, with distinct fresh ids, are not `==`. */
  lemma IndependentConstructionsDiffer(i: nat, j: nat, name: string, category: string, address: string, c: Coordinate)
    requires i != j
    ensures !Same(NewPoi(i, name, category, address, c), NewPoi(j, name, category, address, c))
    ensures NewPoi(i, name, category, address, c).name == NewPoi(j, name, category, address, c).name
  {
  }

  /** `==` is an equivalence, so a POI is found in any collection that holds it. */
  lemma SameIsEquivalence(a: Poi, b: Poi, c: Poi, s: seq<Poi>)
    ensures Same(a, a)
    ensures Same(a, b) ==> Same(b, a)
    ensures Same(a, b) && Same(b, c) ==> Same(a, c)
    ensures a in s ==> HasId(s, a.id)
  {
  }

  /** Copies that change only `note` or `isFavorite` keep the id and every `let` field. */
  lemma CopiesKeepIdentity(p: Poi, n: string)
    ensures Same(WithNote(p, n), p) && Same(AsFavorite(p), p)
    ensures WithNote(p, n).(note := p.note) == p
    ensures AsFavorite(p).(isFavorite := p.isFavorite) == p
    ensures WithNote(p, n).note == Some(n) && AsFavorite(p).isFavorite
  {
  }
}
