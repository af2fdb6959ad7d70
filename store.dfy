/**
 * The synchronous reducers of the application store (`src/store/useAppStore.ts`).
 * The store is one mutable object whose fields each action overwrites with a
 * value computed from the previous state; the computations are the pure
 * functions below, and the class methods install their results.
 */
module AppStore {
  import opened Js
  import opened Types
  import GeoJson

  type Id = string

  /** A `Date`, as milliseconds since the epoch. */
  type Time = int

  /** `FarmData`: the reducers only read `id`. */
  datatype Farm = Farm(id: Id, name: string, area: real)

  /** The store's `DrawnPolygon`. */
  datatype DrawnPolygon = DrawnPolygon(id: Id, geoJSON: GeoJson.Json, area: real)

  /** `PaddockDetailed` */
  datatype Paddock = Paddock(id: Id, name: string, geoJSON: GeoJson.Json, area: real,
                             cropType: string, irrigationType: string, createdAt: Time)

  /** `Parcel` */
  datatype Parcel = Parcel(id: Id, name: string, geoJSON: GeoJson.Json, area: real,
                           paddocks: seq<Paddock>, createdAt: Time)

  /** `PolygonHistoryEntry['type']` */
  datatype EntryKind = ParcelEntry | PaddockEntry

  /** `PolygonHistoryEntry`; optional properties are `Option`s. */
  datatype HistoryEntry = HistoryEntry(
    id: Id, kind: EntryKind, name: string, geoJSON: GeoJson.Json, area: real,
    createdAt: Time, createdBy: string, notes: Option<string>, parentId: Option<Id>,
    lastModified: Option<Time>, lastModifiedBy: Option<string>)

  /**
   * `Partial<PolygonHistoryEntry>`: `None` is a missing key. For optional
   * properties the key may be present with value `undefined`, hence the
   * nested options. `lastModified` is always overwritten, so it is left out.
   */
  datatype HistoryUpdate = HistoryUpdate(
    id: Option<Id>, kind: Option<EntryKind>, name: Option<string>, geoJSON: Option<GeoJson.Json>,
    area: Option<real>, createdAt: Option<Time>, createdBy: Option<string>,
    notes: Option<Option<string>>, parentId: Option<Option<Id>>, lastModifiedBy: Option<Option<string>>)

  /** The keys of `mapLayers`. */
  datatype MapLayer = RisksLayer | CropsLayer | IrrigationLayer | ElevationLayer

  /** `mapLayers` */
  datatype MapLayers = MapLayers(risks: bool, crops: bool, irrigation: bool, elevation: bool) {

    /** `mapLayers[layer]` */
    function Get(layer: MapLayer): bool {
      match layer
      case RisksLayer => risks
      case CropsLayer => crops
      case IrrigationLayer => irrigation
      case ElevationLayer => elevation
    }

    /** `{ ...mapLayers, [layer]: !mapLayers[layer] }` */
    function Flip(layer: MapLayer): (r: MapLayers)
      ensures r.Get(layer) == !Get(layer)
      ensures forall other: MapLayer :: other != layer ==> r.Get(other) == Get(other)
    {
      match layer
      case RisksLayer => this.(risks := !risks)
      case CropsLayer => this.(crops := !crops)
      case IrrigationLayer => this.(irrigation := !irrigation)
      case ElevationLayer => this.(elevation := !elevation)
    }
  }

  /** Flipping the same layer twice restores the layers. */
  lemma FlipTwice(layers: MapLayers, layer: MapLayer)
    ensures layers.Flip(layer).Flip(layer) == layers
  {
  }

  // ---------------------------------------------------------------------
  // List toggles: `xs.includes(x) ? xs.filter(y => y !== x) : [...xs, x]`
  // ---------------------------------------------------------------------

  function Other<T(==)>(x: T): T -> bool {
    (y: T) => y != x
  }

  function Toggled<T(==)>(xs: seq<T>, x: T): (r: seq<T>)
    ensures x in r <==> x !in xs
    ensures |r| <= |xs| + 1
  {
    if x in xs then Filter(xs, Other(x)) else xs + [x]
  }

  /**
   * A toggle flips the membership of `x` and nothing else: every other
   * value keeps its number of occurrences; an absent `x` is appended once,
   * a present one loses all its occurrences.
   */
  lemma ToggleFlipsMembership<T>(xs: seq<T>, x: T, y: T)
    ensures x in Toggled(xs, x) <==> x !in xs
    ensures y != x ==> multiset(Toggled(xs, x))[y] == multiset(xs)[y]
    ensures x !in xs ==> Toggled(xs, x) == xs + [x]
    ensures x in xs ==> |Toggled(xs, x)| == |xs| - multiset(xs)[x]
  {
    FilterCounts(xs, Other(x), y);
    FilterCounts(xs, Other(x), x);
    if x in xs {
      RemovalLength(xs, x);
    }
  }

  /** Removing every occurrence shortens the list by the number of occurrences. */
  lemma {:induction false} RemovalLength<T>(xs: seq<T>, x: T)
    ensures |Filter(xs, Other(x))| == |xs| - multiset(xs)[x]
  {
    if xs != [] {
      RemovalLength(xs[1..], x);
      assert xs == [xs[0]] + xs[1..];
    }
  }

  /** Removal keeps the other elements in their order. */
  lemma {:induction false} ToggleRemovalKeepsOrder<T>(a: seq<T>, x: T, b: seq<T>)
    requires x !in a && x !in b
    ensures Toggled(a + [x] + b, x) == a + b
  {
    var s := a + [x] + b;
    assert s[|a|] == x;
    forall k | 0 <= k < |a| ensures Other(x)(a[k]) {
      assert a[k] in a;
    }
    forall k | 0 <= k < |b| ensures Other(x)(b[k]) {
      assert b[k] in b;
    }
    FilterDropsOne(a, x, b, Other(x));
  }

  lemma FilterDropsOne<T>(a: seq<T>, x: T, b: seq<T>, keep: T -> bool)
    requires forall k :: 0 <= k < |a| ==> keep(a[k])
    requires forall k :: 0 <= k < |b| ==> keep(b[k])
    requires !keep(x)
    ensures Filter(a + [x] + b, keep) == a + b
  {
    var fa, fx, fb := Filter(a, keep), Filter([x], keep), Filter(b, keep);
    FilterAll(a, keep);
    FilterAll(b, keep);
    assert fx == [] by {
      assert fx == [] + Filter([x][1..], keep);
    }
    FilterAppend(a, [x], keep);
    assert Filter(a + [x], keep) == a;
    FilterAppend(a + [x], b, keep);
  }

  /** A toggle keeps a list free of repetitions. */
  lemma ToggleKeepsDistinct<T>(xs: seq<T>, x: T)
    requires Distinct(xs)
    ensures Distinct(Toggled(xs, x))
  {
    if x in xs {
      FilterDistinct(xs, Other(x));
    }
  }

  /** Toggling an absent value twice gives the list back. */
  lemma ToggleTwiceRestores<T>(xs: seq<T>, x: T)
    requires x !in xs
    ensures Toggled(Toggled(xs, x), x) == xs
  {
    assert xs + [x] == xs + [x] + [];
    ToggleRemovalKeepsOrder(xs, x, []);
  }

  // ---------------------------------------------------------------------
  // Removal by id: `xs.filter(x => x.id !== id)`
  // ---------------------------------------------------------------------

  function FarmId(f: Farm): Id { f.id }
  function DrawnPolygonId(p: DrawnPolygon): Id { p.id }
  function ParcelId(p: Parcel): Id { p.id }
  function PaddockId(p: Paddock): Id { p.id }
  function EntryId(e: HistoryEntry): Id { e.id }

  function HasOtherId<T>(idOf: T -> Id, id: Id): T -> bool {
    (x: T) => idOf(x) != id
  }

  /** The elements whose id differs from `id`, in order. */
  function WithoutId<T>(xs: seq<T>, idOf: T -> Id, id: Id): (r: seq<T>)
    ensures |r| <= |xs|
    ensures forall k :: 0 <= k < |r| ==> idOf(r[k]) != id && r[k] in xs
    ensures forall k :: 0 <= k < |xs| && idOf(xs[k]) != id ==> xs[k] in r
  {
    var r := Filter(xs, HasOtherId(idOf, id));
    assert forall k :: 0 <= k < |r| ==> HasOtherId(idOf, id)(r[k]);
    r
  }

  /** Removing an id from a concatenation removes it from each part, in order. */
  lemma WithoutIdAppend<T>(a: seq<T>, b: seq<T>, idOf: T -> Id, id: Id)
    ensures WithoutId(a + b, idOf, id) == WithoutId(a, idOf, id) + WithoutId(b, idOf, id)
  {
    FilterAppend(a, b, HasOtherId(idOf, id));
  }

  /**
   * The filter keeps the survivors in place: removing an id from a list with
   * one element singled out removes that element exactly when its id matches,
   * and filters the parts before and after it independently.
   */
  lemma WithoutIdKeepsOrder<T>(a: seq<T>, x: T, b: seq<T>, idOf: T -> Id, id: Id)
    ensures WithoutId(a + [x] + b, idOf, id)
         == WithoutId(a, idOf, id) + (if idOf(x) != id then [x] else []) + WithoutId(b, idOf, id)
  {
    WithoutIdAppend(a + [x], b, idOf, id);
    WithoutIdAppend(a, [x], idOf, id);
    WithoutIdSingleton(x, idOf, id);
  }

  /** A single element survives exactly when its id differs. */
  lemma WithoutIdSingleton<T>(x: T, idOf: T -> Id, id: Id)
    ensures WithoutId([x], idOf, id) == if idOf(x) != id then [x] else []
  {
    var keep := HasOtherId(idOf, id);
    assert [x][1..] == [];
    assert Filter([x], keep) == (if keep(x) then [x] else []) + Filter([], keep);
  }

  /** Every element with another id keeps its number of occurrences; the id's elements are all gone. */
  lemma WithoutIdCounts<T>(xs: seq<T>, idOf: T -> Id, id: Id, y: T)
    ensures multiset(WithoutId(xs, idOf, id))[y] == if idOf(y) != id then multiset(xs)[y] else 0
  {
    FilterCounts(xs, HasOtherId(idOf, id), y);
  }

  /** Removing an id nobody has changes nothing. */
  lemma WithoutAbsentId<T>(xs: seq<T>, idOf: T -> Id, id: Id)
    requires forall k :: 0 <= k < |xs| ==> idOf(xs[k]) != id
    ensures WithoutId(xs, idOf, id) == xs
  {
    FilterAll(xs, HasOtherId(idOf, id));
  }

  /** Appending an item whose id is new, then removing that id, gives the list back. */
  lemma AppendThenRemove<T>(xs: seq<T>, idOf: T -> Id, x: T)
    requires forall k :: 0 <= k < |xs| ==> idOf(xs[k]) != idOf(x)
    ensures WithoutId(xs + [x], idOf, idOf(x)) == xs
  {
    FilterAppend(xs, [x], HasOtherId(idOf, idOf(x)));
    FilterAll(xs, HasOtherId(idOf, idOf(x)));
    assert Filter([x], HasOtherId(idOf, idOf(x))) == [] + Filter([x][1..], HasOtherId(idOf, idOf(x)));
  }

  /** `selected?.id === id ? null : selected` */
  function ClearIfSelected<T>(selected: Option<T>, idOf: T -> Id, id: Id): (r: Option<T>)
    ensures r.Some? ==> r == selected && idOf(r.value) != id
    ensures selected.Some? && idOf(selected.value) != id ==> r == selected
  {
    if selected.Some? && idOf(selected.value) == id then None else selected
  }

  /** `selectedFarm?.id === farmId ? farms[0] || null : selectedFarm`, with the list before removal. */
  function SelectionAfterFarmRemoval(farms: seq<Farm>, selected: Option<Farm>, farmId: Id): (r: Option<Farm>)
    ensures r.Some? ==> r == selected || (|farms| > 0 && r.value == farms[0])
    ensures selected.None? ==> r.None?
  {
    if selected.Some? && selected.value.id == farmId then
      (if |farms| > 0 then Some(farms[0]) else None)
    else selected
  }

  /**
   * A selection with another id survives; a matching one is replaced by the
   * first farm of the list as it was before the removal, or cleared when
   * that list was empty.
   */
  lemma FarmRemovalSelection(farms: seq<Farm>, selected: Option<Farm>, farmId: Id)
    ensures var r := SelectionAfterFarmRemoval(farms, selected, farmId);
            && (selected.Some? && selected.value.id != farmId ==> r == selected)
            && (selected.Some? && selected.value.id == farmId ==>
                  (r.None? <==> farms == []) && (r.Some? ==> r.value == farms[0]))
            && (selected.None? ==> r.None?)
  {
  }

  /**
   * The new selection may be the very farm just removed: a single selected
   * farm, removed, stays selected while the list becomes empty.
   */
  lemma FarmRemovalMayKeepRemovedFarm(f: Farm)
    ensures WithoutId([f], FarmId, f.id) == []
    ensures SelectionAfterFarmRemoval([f], Some(f), f.id) == Some(f)
  {
    FilterNone([f], HasOtherId(FarmId, f.id));
  }

  // ---------------------------------------------------------------------
  // Parcels and paddocks
  // ---------------------------------------------------------------------

  /** `parcel.id === parcelId ? { ...parcel, paddocks: [...parcel.paddocks, paddock] } : parcel` per parcel */
  function WithPaddockAdded(parcels: seq<Parcel>, parcelId: Id, paddock: Paddock): (r: seq<Parcel>)
    ensures |r| == |parcels|
    ensures forall k :: 0 <= k < |r| ==> r[k].id == parcels[k].id && |r[k].paddocks| >= |parcels[k].paddocks|
  {
    seq(|parcels|, k requires 0 <= k < |parcels| =>
      if parcels[k].id == parcelId then parcels[k].(paddocks := parcels[k].paddocks + [paddock])
      else parcels[k])
  }

  /** `parcel.id === parcelId ? { ...parcel, paddocks: parcel.paddocks.filter(p => p.id !== paddockId) } : parcel` per parcel */
  function WithPaddockRemoved(parcels: seq<Parcel>, parcelId: Id, paddockId: Id): (r: seq<Parcel>)
    ensures |r| == |parcels|
    ensures forall k :: 0 <= k < |r| ==> r[k].id == parcels[k].id && |r[k].paddocks| <= |parcels[k].paddocks|
  {
    seq(|parcels|, k requires 0 <= k < |parcels| =>
      if parcels[k].id == parcelId then parcels[k].(paddocks := WithoutId(parcels[k].paddocks, PaddockId, paddockId))
      else parcels[k])
  }

  /**
   * Adding a paddock touches only the parcels with the id: they gain the
   * paddock at the end of their list and keep every other property; all
   * other parcels are untouched, and order and count are kept.
   */
  lemma PaddockAddedOnlyToMatchingParcels(parcels: seq<Parcel>, parcelId: Id, paddock: Paddock)
    ensures var r := WithPaddockAdded(parcels, parcelId, paddock);
            forall k :: 0 <= k < |parcels| ==>
              && r[k].id == parcels[k].id && r[k].name == parcels[k].name
              && r[k].geoJSON == parcels[k].geoJSON && r[k].area == parcels[k].area
              && r[k].createdAt == parcels[k].createdAt
              && r[k].paddocks == (if parcels[k].id == parcelId then parcels[k].paddocks + [paddock] else parcels[k].paddocks)
  {
  }

  /**
   * Removing a paddock touches only the parcels with the id: inside them no
   * paddock with that id remains and the others keep their order.
   */
  lemma PaddockRemovedOnlyFromMatchingParcels(parcels: seq<Parcel>, parcelId: Id, paddockId: Id)
    ensures var r := WithPaddockRemoved(parcels, parcelId, paddockId);
            forall k :: 0 <= k < |parcels| ==>
              && r[k].(paddocks := parcels[k].paddocks) == parcels[k]
              && (parcels[k].id != parcelId ==> r[k] == parcels[k])
              && (parcels[k].id == parcelId ==>
                    && r[k].paddocks == WithoutId(parcels[k].paddocks, PaddockId, paddockId)
                    && (forall m :: 0 <= m < |r[k].paddocks| ==> r[k].paddocks[m].id != paddockId)
                    && (forall m :: 0 <= m < |parcels[k].paddocks| && parcels[k].paddocks[m].id != paddockId ==>
                          parcels[k].paddocks[m] in r[k].paddocks))
  {
  }

  /** Adding a paddock with a fresh id and removing it again gives the parcels back. */
  lemma AddThenRemovePaddock(parcels: seq<Parcel>, parcelId: Id, paddock: Paddock)
    requires forall k, m :: 0 <= k < |parcels| && parcels[k].id == parcelId && 0 <= m < |parcels[k].paddocks| ==>
               parcels[k].paddocks[m].id != paddock.id
    ensures WithPaddockRemoved(WithPaddockAdded(parcels, parcelId, paddock), parcelId, paddock.id) == parcels
  {
    var added := WithPaddockAdded(parcels, parcelId, paddock);
    var back := WithPaddockRemoved(added, parcelId, paddock.id);
    forall k | 0 <= k < |parcels|
      ensures back[k] == parcels[k]
    {
      if parcels[k].id == parcelId {
        AppendThenRemove(parcels[k].paddocks, PaddockId, paddock);
      }
    }
  }

  // ---------------------------------------------------------------------
  // Polygon history
  // ---------------------------------------------------------------------

  /** A present key replaces the entry's value. */
  function Merge<T>(current: T, update: Option<T>): T {
    if update.Some? then update.value else current
  }

  /**
   * The spread `{ ...e, ...u }`, key by key: a key present in the update
   * takes the update's value, every other key keeps the entry's.
   */
  predicate Spread(e: HistoryEntry, u: HistoryUpdate, r: HistoryEntry) {
    && (if u.id.Some? then r.id == u.id.value else r.id == e.id)
    && (if u.kind.Some? then r.kind == u.kind.value else r.kind == e.kind)
    && (if u.name.Some? then r.name == u.name.value else r.name == e.name)
    && (if u.geoJSON.Some? then r.geoJSON == u.geoJSON.value else r.geoJSON == e.geoJSON)
    && (if u.area.Some? then r.area == u.area.value else r.area == e.area)
    && (if u.createdAt.Some? then r.createdAt == u.createdAt.value else r.createdAt == e.createdAt)
    && (if u.createdBy.Some? then r.createdBy == u.createdBy.value else r.createdBy == e.createdBy)
    && (if u.notes.Some? then r.notes == u.notes.value else r.notes == e.notes)
    && (if u.parentId.Some? then r.parentId == u.parentId.value else r.parentId == e.parentId)
    && (if u.lastModifiedBy.Some? then r.lastModifiedBy == u.lastModifiedBy.value
        else r.lastModifiedBy == e.lastModifiedBy)
  }

  /** `{ ...entry, ...updates, lastModified: now }` */
  function Apply(e: HistoryEntry, u: HistoryUpdate, now: Time): (r: HistoryEntry)
    ensures Spread(e, u, r)
    ensures r.lastModified == Some(now)
    ensures u == HistoryUpdate(None, None, None, None, None, None, None, None, None, None) ==>
              r == e.(lastModified := Some(now))
  {
    HistoryEntry(
      Merge(e.id, u.id), Merge(e.kind, u.kind), Merge(e.name, u.name), Merge(e.geoJSON, u.geoJSON),
      Merge(e.area, u.area), Merge(e.createdAt, u.createdAt), Merge(e.createdBy, u.createdBy),
      Merge(e.notes, u.notes), Merge(e.parentId, u.parentId), Some(now), Merge(e.lastModifiedBy, u.lastModifiedBy))
  }

  /** `polygonHistory.map(entry => entry.id === id ? { ...entry, ...updates, lastModified: now } : entry)` */
  function UpdatedHistory(history: seq<HistoryEntry>, id: Id, u: HistoryUpdate, now: Time): (r: seq<HistoryEntry>)
    ensures |r| == |history|
    ensures forall k :: 0 <= k < |r| && history[k].id != id ==> r[k] == history[k]
  {
    seq(|history|, k requires 0 <= k < |history| =>
      if history[k].id == id then Apply(history[k], u, now) else history[k])
  }

  /**
   * An update keeps the history's length and order: entries with another id
   * are untouched, entries with the id receive the update and the new
   * modification time, and their ids stay put unless the update sets `id`.
   */
  lemma UpdateTouchesOnlyMatchingEntries(history: seq<HistoryEntry>, id: Id, u: HistoryUpdate, now: Time)
    ensures var r := UpdatedHistory(history, id, u, now);
            forall k :: 0 <= k < |history| ==>
              && (history[k].id != id ==> r[k] == history[k])
              && (history[k].id == id ==>
                    && r[k].lastModified == Some(now)
                    && Spread(history[k], u, r[k]))
  {
  }

  /** `polygonHistory.find(e => e.id === id)` */
  function FindEntry(history: seq<HistoryEntry>, id: Id): (r: Option<HistoryEntry>)
    ensures r.None? <==> forall k :: 0 <= k < |history| ==> history[k].id != id
    ensures r.Some? ==> exists k :: 0 <= k < |history| && history[k] == r.value &&
                                    r.value.id == id && forall m :: 0 <= m < k ==> history[m].id != id
  {
    if history == [] then None
    else if history[0].id == id then Some(history[0])
    else
      var r := FindEntry(history[1..], id);
      if r.Some? then
        var k :| 0 <= k < |history[1..]| && history[1..][k] == r.value &&
                 r.value.id == id && forall m :: 0 <= m < k ==> history[1..][m].id != id;
        assert history[k + 1] == r.value;
        r
      else r
  }

  /** The cascade filter: neither the entry nor a child of it. */
  function Unrelated(id: Id): HistoryEntry -> bool {
    (e: HistoryEntry) => e.id != id && e.parentId != Some(id)
  }

  /** `parcel => ({ ...parcel, paddocks: parcel.paddocks.filter(p => p.id !== id) })` per parcel */
  function WithoutPaddockEverywhere(parcels: seq<Parcel>, id: Id): (r: seq<Parcel>)
    ensures |r| == |parcels|
  {
    seq(|parcels|, k requires 0 <= k < |parcels| =>
      parcels[k].(paddocks := WithoutId(parcels[k].paddocks, PaddockId, id)))
  }

  /** The new `polygonHistory` and `parcels` of `deleteFromHistory(id)`. */
  function DeletedFromHistory(history: seq<HistoryEntry>, parcels: seq<Parcel>, id: Id): (r: (seq<HistoryEntry>, seq<Parcel>))
    ensures |r.0| <= |history| && |r.1| <= |parcels|
    ensures forall k :: 0 <= k < |r.0| ==> r.0[k].id != id && r.0[k] in history
  {
    var entry := FindEntry(history, id);
    if entry.Some? && entry.value.kind == ParcelEntry then
      (Filter(history, Unrelated(id)), WithoutId(parcels, ParcelId, id))
    else
      (WithoutId(history, EntryId, id), WithoutPaddockEverywhere(parcels, id))
  }

  /**
   * Deleting a parcel's entry cascades: what remains of the history is
   * exactly the entries that neither have the id nor name it as parent,
   * and no parcel with the id is left.
   */
  lemma DeleteParcelCascades(history: seq<HistoryEntry>, parcels: seq<Parcel>, id: Id)
    requires FindEntry(history, id).Some? && FindEntry(history, id).value.kind == ParcelEntry
    ensures var (h, ps) := DeletedFromHistory(history, parcels, id);
            && (forall k :: 0 <= k < |h| ==> h[k] in history && h[k].id != id && h[k].parentId != Some(id))
            && (forall k :: 0 <= k < |history| && history[k].id != id && history[k].parentId != Some(id) ==> history[k] in h)
            && (forall k :: 0 <= k < |ps| ==> ps[k] in parcels && ps[k].id != id)
            && (forall k :: 0 <= k < |parcels| && parcels[k].id != id ==> parcels[k] in ps)
            && ps == WithoutId(parcels, ParcelId, id)
            && |h| < |history|
  {
    var h := Filter(history, Unrelated(id));
    assert forall k :: 0 <= k < |h| ==> Unrelated(id)(h[k]);
    var k :| 0 <= k < |history| && history[k] == FindEntry(history, id).value;
    FilterShrinks(history, Unrelated(id), k);
  }

  /**
   * Deleting any other id, including one with no entry, removes only the
   * entries with that id (children naming it as parent stay) and the
   * paddocks with that id inside every parcel; no parcel is removed.
   */
  lemma DeleteOtherKeepsParcels(history: seq<HistoryEntry>, parcels: seq<Parcel>, id: Id)
    requires FindEntry(history, id).None? || FindEntry(history, id).value.kind == PaddockEntry
    ensures var (h, ps) := DeletedFromHistory(history, parcels, id);
            && (forall k :: 0 <= k < |h| ==> h[k] in history && h[k].id != id)
            && (forall k :: 0 <= k < |history| && history[k].id != id ==> history[k] in h)
            && |ps| == |parcels|
            && (forall k :: 0 <= k < |ps| ==>
                  && ps[k].(paddocks := parcels[k].paddocks) == parcels[k]
                  && ps[k].paddocks == WithoutId(parcels[k].paddocks, PaddockId, id)
                  && (forall m :: 0 <= m < |ps[k].paddocks| ==> ps[k].paddocks[m].id != id)
                  && (forall m :: 0 <= m < |parcels[k].paddocks| && parcels[k].paddocks[m].id != id ==>
                        parcels[k].paddocks[m] in ps[k].paddocks))
  {
  }

  /** A parcel whose history entry is missing is not removed by deleting its id. */
  lemma DeleteWithoutEntryKeepsParcel(p: Parcel)
    requires p.paddocks == []
    ensures DeletedFromHistory([], [p], p.id) == ([], [p])
  {
    assert FindEntry([], p.id) == None;
    var ps := WithoutPaddockEverywhere([p], p.id);
    WithoutAbsentId(p.paddocks, PaddockId, p.id);
    assert ps[0] == p;
    assert ps == [p];
    assert WithoutId([], EntryId, p.id) == [];
  }

  // ---------------------------------------------------------------------
  // The store
  // ---------------------------------------------------------------------

  /** The store's state at one moment. */
  datatype State = State(
    farms: seq<Farm>, selectedFarm: Option<Farm>,
    activeRisks: seq<RiskType>, selectedCrops: seq<Id>, activeCropLayers: seq<CropType>,
    mapLayers: MapLayers,
    drawnPolygons: seq<DrawnPolygon>, selectedPolygon: Option<DrawnPolygon>,
    parcels: seq<Parcel>, selectedParcel: Option<Parcel>,
    polygonHistory: seq<HistoryEntry>)

  class Store {
    var farms: seq<Farm>
    var selectedFarm: Option<Farm>
    var activeRisks: seq<RiskType>
    var selectedCrops: seq<Id>
    var activeCropLayers: seq<CropType>
    var mapLayers: MapLayers
    var drawnPolygons: seq<DrawnPolygon>
    var selectedPolygon: Option<DrawnPolygon>
    var parcels: seq<Parcel>
    var selectedParcel: Option<Parcel>
    var polygonHistory: seq<HistoryEntry>

    function Snapshot(): State
      reads this
    {
      State(farms, selectedFarm, activeRisks, selectedCrops, activeCropLayers, mapLayers,
            drawnPolygons, selectedPolygon, parcels, selectedParcel, polygonHistory)
    }

    /** The toggled lists hold no value twice. */
    predicate TogglesDistinct()
      reads this
    {
      Distinct(activeRisks) && Distinct(selectedCrops) && Distinct(activeCropLayers)
    }

    /** The initial state: drought and flooding active, only the risk layer shown, everything else empty. */
    constructor ()
      ensures Snapshot() == State([], None, [Drought, Flooding], [], [],
                                  MapLayers(true, false, false, false), [], None, [], None, [])
      ensures TogglesDistinct()
    {
      farms := [];
      selectedFarm := None;
      activeRisks := [Drought, Flooding];
      selectedCrops := [];
      activeCropLayers := [];
      mapLayers := MapLayers(true, false, false, false);
      drawnPolygons := [];
      selectedPolygon := None;
      parcels := [];
      selectedParcel := None;
      polygonHistory := [];
    }

    /** `addFarm(farm)`: appended and selected. */
    method AddFarm(farm: Farm)
      modifies this
      ensures Snapshot() == old(Snapshot()).(farms := old(farms) + [farm], selectedFarm := Some(farm))
    {
      farms, selectedFarm := farms + [farm], Some(farm);
    }

    /** `removeFarm(farmId)` */
    method RemoveFarm(farmId: Id)
      modifies this
      ensures Snapshot() == old(Snapshot()).(
                farms := WithoutId(old(farms), FarmId, farmId),
                selectedFarm := SelectionAfterFarmRemoval(old(farms), old(selectedFarm), farmId))
    {
      farms, selectedFarm := WithoutId(farms, FarmId, farmId), SelectionAfterFarmRemoval(farms, selectedFarm, farmId);
    }

    /** `toggleRisk(risk)` */
    method ToggleRisk(risk: RiskType)
      modifies this
      ensures Snapshot() == old(Snapshot()).(activeRisks := Toggled(old(activeRisks), risk))
      ensures old(TogglesDistinct()) ==> TogglesDistinct()
    {
      if Distinct(activeRisks) {
        ToggleKeepsDistinct(activeRisks, risk);
      }
      activeRisks := Toggled(activeRisks, risk);
    }

    /** `toggleCrop(cropId)` */
    method ToggleCrop(cropId: Id)
      modifies this
      ensures Snapshot() == old(Snapshot()).(selectedCrops := Toggled(old(selectedCrops), cropId))
      ensures old(TogglesDistinct()) ==> TogglesDistinct()
    {
      if Distinct(selectedCrops) {
        ToggleKeepsDistinct(selectedCrops, cropId);
      }
      selectedCrops := Toggled(selectedCrops, cropId);
    }

    /** `toggleCropLayer(crop)` */
    method ToggleCropLayer(crop: CropType)
      modifies this
      ensures Snapshot() == old(Snapshot()).(activeCropLayers := Toggled(old(activeCropLayers), crop))
      ensures old(TogglesDistinct()) ==> TogglesDistinct()
    {
      if Distinct(activeCropLayers) {
        ToggleKeepsDistinct(activeCropLayers, crop);
      }
      activeCropLayers := Toggled(activeCropLayers, crop);
    }

    /** `toggleMapLayer(layer)` */
    method ToggleMapLayer(layer: MapLayer)
      modifies this
      ensures Snapshot() == old(Snapshot()).(mapLayers := old(mapLayers).Flip(layer))
      ensures mapLayers.Get(layer) == !old(mapLayers.Get(layer))
    {
      mapLayers := mapLayers.Flip(layer);
    }

    /** `addDrawnPolygon(polygon)`: appended and selected. */
    method AddDrawnPolygon(polygon: DrawnPolygon)
      modifies this
      ensures Snapshot() == old(Snapshot()).(drawnPolygons := old(drawnPolygons) + [polygon], selectedPolygon := Some(polygon))
    {
      drawnPolygons, selectedPolygon := drawnPolygons + [polygon], Some(polygon);
    }

    /** `removeDrawnPolygon(polygonId)` */
    method RemoveDrawnPolygon(polygonId: Id)
      modifies this
      ensures Snapshot() == old(Snapshot()).(
                drawnPolygons := WithoutId(old(drawnPolygons), DrawnPolygonId, polygonId),
                selectedPolygon := ClearIfSelected(old(selectedPolygon), DrawnPolygonId, polygonId))
    {
      drawnPolygons := WithoutId(drawnPolygons, DrawnPolygonId, polygonId);
      selectedPolygon := ClearIfSelected(selectedPolygon, DrawnPolygonId, polygonId);
    }

    /** `addParcel(parcel)`: appended; the selection is left alone. */
    method AddParcel(parcel: Parcel)
      modifies this
      ensures Snapshot() == old(Snapshot()).(parcels := old(parcels) + [parcel])
    {
      parcels := parcels + [parcel];
    }

    /** `addPaddockToParcel(parcelId, paddock)` */
    method AddPaddockToParcel(parcelId: Id, paddock: Paddock)
      modifies this
      ensures Snapshot() == old(Snapshot()).(parcels := WithPaddockAdded(old(parcels), parcelId, paddock))
    {
      parcels := WithPaddockAdded(parcels, parcelId, paddock);
    }

    /** `removeParcel(parcelId)` */
    method RemoveParcel(parcelId: Id)
      modifies this
      ensures Snapshot() == old(Snapshot()).(
                parcels := WithoutId(old(parcels), ParcelId, parcelId),
                selectedParcel := ClearIfSelected(old(selectedParcel), ParcelId, parcelId))
    {
      parcels := WithoutId(parcels, ParcelId, parcelId);
      selectedParcel := ClearIfSelected(selectedParcel, ParcelId, parcelId);
    }

    /** `removePaddockFromParcel(parcelId, paddockId)` */
    method RemovePaddockFromParcel(parcelId: Id, paddockId: Id)
      modifies this
      ensures Snapshot() == old(Snapshot()).(parcels := WithPaddockRemoved(old(parcels), parcelId, paddockId))
    {
      parcels := WithPaddockRemoved(parcels, parcelId, paddockId);
    }

    /** `addToHistory(entry)` */
    method AddToHistory(entry: HistoryEntry)
      modifies this
      ensures Snapshot() == old(Snapshot()).(polygonHistory := old(polygonHistory) + [entry])
    {
      polygonHistory := polygonHistory + [entry];
    }

    /** `updatePolygonInHistory(id, updates)`; `now` is the clock's `new Date()`. */
    method UpdatePolygonInHistory(id: Id, updates: HistoryUpdate, now: Time)
      modifies this
      ensures Snapshot() == old(Snapshot()).(polygonHistory := UpdatedHistory(old(polygonHistory), id, updates, now))
    {
      polygonHistory := UpdatedHistory(polygonHistory, id, updates, now);
    }

    /** `deleteFromHistory(id)` */
    method DeleteFromHistory(id: Id)
      modifies this
      ensures Snapshot() == old(Snapshot()).(
                polygonHistory := DeletedFromHistory(old(polygonHistory), old(parcels), id).0,
                parcels := DeletedFromHistory(old(polygonHistory), old(parcels), id).1)
    {
      var (h, ps) := DeletedFromHistory(polygonHistory, parcels, id);
      polygonHistory, parcels := h, ps;
    }
  }
}
