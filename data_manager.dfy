/** The sticky store: a list of stickies under one key, updated by upsert. */
module DataManager {
  import opened Wrappers
  import opened Failures
  import opened StickyModel

  const DefaultPosition: Point := Point(100.0, 100.0)
  const DefaultSize: Size := Size(300.0, 400.0)
  const DefaultTransparency: real := 0.5
  const DefaultColumns: seq<string> := ["title", "project", "age", "id"]

  // =====================================================================
  // The stored list

  /** The index of the first sticky with this id. */
  function FirstIndex(ss: seq<Sticky>, id: Uuid): (r: Option<nat>)
    ensures r.Some? ==> r.value < |ss| && ss[r.value].id == id
    ensures r.Some? ==> forall j | 0 <= j < r.value :: ss[j].id != id
    ensures r.None? <==> forall j | 0 <= j < |ss| :: ss[j].id != id
  {
    if ss == [] then None
    else if ss[0].id == id then Some(0)
    else match FirstIndex(ss[1..], id)
      case None => None
      case Some(i) => Some(i + 1)
  }

  /** `stickies.first(where: { $0.id == id })`. */
  function Lookup(ss: seq<Sticky>, id: Uuid): Option<Sticky> {
    match FirstIndex(ss, id)
    case None => None
    case Some(i) => Some(ss[i])
  }

  /** Replace the first sticky with the same id, or append. */
  function Upsert(ss: seq<Sticky>, s: Sticky): seq<Sticky> {
    match FirstIndex(ss, s.id)
    case Some(i) => ss[i := s]
    case None => ss + [s]
  }

  predicate UniqueIds(ss: seq<Sticky>) {
    forall i, j | 0 <= i < j < |ss| :: ss[i].id != ss[j].id
  }

  /** A found sticky carries the id asked for. */
  lemma LookupFinds(ss: seq<Sticky>, id: Uuid)
    ensures Lookup(ss, id).Some? <==> exists k | 0 <= k < |ss| :: ss[k].id == id
    ensures Lookup(ss, id).Some? ==> Lookup(ss, id).value.id == id && Lookup(ss, id).value in ss
  {
    if Lookup(ss, id).None? {
      assert forall j | 0 <= j < |ss| :: ss[j].id != id;
    }
  }

  /** FirstIndex is the one index holding the id with none before it. */
  lemma FirstIndexIs(ss: seq<Sticky>, id: Uuid, i: nat)
    requires i < |ss| && ss[i].id == id
    requires forall j | 0 <= j < i :: ss[j].id != id
    ensures FirstIndex(ss, id) == Some(i)
  {
  }

  /** An id already present is replaced in place: same length, the same
      elements everywhere but at its first index. An absent id is appended. */
  lemma UpsertShape(ss: seq<Sticky>, s: Sticky)
    ensures var r := Upsert(ss, s);
      if exists k | 0 <= k < |ss| :: ss[k].id == s.id then
        && |r| == |ss|
        && exists i | 0 <= i < |ss| :: ss[i].id == s.id && r == ss[i := s]
             && forall j | 0 <= j < i :: ss[j].id != s.id
      else r == ss + [s]
  {
    if exists k | 0 <= k < |ss| :: ss[k].id == s.id {
      var i := FirstIndex(ss, s.id).value;
      assert Upsert(ss, s) == ss[i := s];
    }
  }

  /** Get after put: the id just stored yields the stored sticky; every
      other id yields what it did before. */
  lemma LookupAfterUpsert(ss: seq<Sticky>, s: Sticky, id: Uuid)
    ensures Lookup(Upsert(ss, s), id) == if id == s.id then Some(s) else Lookup(ss, id)
  {
    var r := Upsert(ss, s);
    match FirstIndex(ss, s.id)
    case Some(i) =>
      if id == s.id {
        FirstIndexIs(r, id, i);
      } else {
        assert forall j | 0 <= j < |r| :: (r[j].id == id <==> ss[j].id == id);
        match FirstIndex(ss, id)
        case None =>
        case Some(m) =>
          FirstIndexIs(r, id, m);
      }
    case None =>
      if id == s.id {
        FirstIndexIs(r, id, |ss|);
      } else {
        match FirstIndex(ss, id)
        case None =>
          assert forall j | 0 <= j < |r| :: r[j].id != id;
        case Some(m) =>
          FirstIndexIs(r, id, m);
      }
  }

  /** Upsert never creates a duplicate id. */
  lemma UpsertKeepsIdsUnique(ss: seq<Sticky>, s: Sticky)
    requires UniqueIds(ss)
    ensures UniqueIds(Upsert(ss, s))
  {
    var r := Upsert(ss, s);
    match FirstIndex(ss, s.id)
    case Some(i) =>
      forall a, b | 0 <= a < b < |r| ensures r[a].id != r[b].id {
        assert r[a].id == ss[a].id && r[b].id == ss[b].id;
      }
    case None =>
      forall a, b | 0 <= a < b < |r| ensures r[a].id != r[b].id {
        if b == |ss| {
          assert r[a] == ss[a];
        }
      }
  }

  /** Storing the same sticky twice stores it once. */
  lemma UpsertIdempotent(ss: seq<Sticky>, s: Sticky)
    ensures Upsert(Upsert(ss, s), s) == Upsert(ss, s)
  {
    var r := Upsert(ss, s);
    match FirstIndex(ss, s.id)
    case Some(i) =>
      FirstIndexIs(r, s.id, i);
    case None =>
      FirstIndexIs(r, s.id, |ss|);
  }

  // =====================================================================
  // Building and changing one sticky

  /** The sticky `createSticky` builds for a generated id. */
  function NewSticky(id: Uuid, title: string, settings: Option<StickySettings>): (r: Sticky)
    ensures r.id == id && r.title == title
    ensures r.position == DefaultPosition && r.size == DefaultSize
  {
    Sticky(
      id, title, DefaultPosition, DefaultSize,
      if settings.Some? then settings.value.transparency.GetOr(DefaultTransparency) else DefaultTransparency,
      if settings.Some? then settings.value.alwaysOnTop.GetOr(true) else true,
      if settings.Some? then settings.value.filter else None,
      if settings.Some? then settings.value.sortBy else None,
      if settings.Some? then settings.value.sortOrder else None,
      if settings.Some? then settings.value.visibleColumns.GetOr(DefaultColumns) else DefaultColumns)
  }

  /** `updateStickySettings` on one sticky: transparency, alwaysOnTop and
      visibleColumns only when given; filter, sortBy and sortOrder always.
      Identity, title and geometry are kept. */
  function PatchSettings(s: Sticky, settings: StickySettings): (r: Sticky)
    ensures r.id == s.id && r.title == s.title && r.position == s.position && r.size == s.size
  {
    s.(transparency := settings.transparency.GetOr(s.transparency),
       alwaysOnTop := settings.alwaysOnTop.GetOr(s.alwaysOnTop),
       filter := settings.filter,
       sortBy := settings.sortBy,
       sortOrder := settings.sortOrder,
       visibleColumns := settings.visibleColumns.GetOr(s.visibleColumns))
  }

  /** The defaults of a new sticky. */
  function BlankSticky(id: Uuid, title: string): Sticky {
    Sticky(id, title, DefaultPosition, DefaultSize, DefaultTransparency, true, None, None, None, DefaultColumns)
  }

  /** Creating with settings equals creating with none and then applying the
      settings (or the empty patch). */
  lemma NewIsPatchedBlank(id: Uuid, title: string, settings: Option<StickySettings>)
    ensures NewSticky(id, title, settings) == PatchSettings(BlankSticky(id, title), settings.GetOr(NoSettings))
    ensures NewSticky(id, title, None) == BlankSticky(id, title)
  {
  }

  /** Applying a patch twice is applying it once. */
  lemma PatchIdempotent(s: Sticky, settings: StickySettings)
    ensures PatchSettings(PatchSettings(s, settings), settings) == PatchSettings(s, settings)
  {
  }

  /** Applying the empty patch keeps everything but clears the three
      filter/sort fields. */
  lemma EmptyPatchClears(s: Sticky)
    ensures PatchSettings(s, NoSettings) == s.(filter := None, sortBy := None, sortOrder := None)
  {
  }

  /** Storing a changed sticky under a present id: the list keeps its length
      and ids, the id now yields the changed sticky and every other id is
      unaffected. */
  lemma UpdatePresent(ss: seq<Sticky>, id: Uuid, changed: Sticky)
    requires Lookup(ss, id).Some? && changed.id == id
    ensures |Upsert(ss, changed)| == |ss|
    ensures forall j | 0 <= j < |ss| :: Upsert(ss, changed)[j].id == ss[j].id
    ensures Lookup(Upsert(ss, changed), id) == Some(changed)
    ensures forall other | other != id :: Lookup(Upsert(ss, changed), other) == Lookup(ss, other)
  {
    forall other | other != id ensures Lookup(Upsert(ss, changed), other) == Lookup(ss, other) {
      LookupAfterUpsert(ss, changed, other);
    }
    LookupAfterUpsert(ss, changed, id);
  }

  // =====================================================================
  // The store

  class DataManager {
    /** The list under the "stickies" key; None while nothing was saved. */
    var stored: Option<seq<Sticky>>

    /** A manager over the entry currently under the key. */
    constructor (stored: Option<seq<Sticky>>)
      ensures this.stored == stored
    {
      this.stored := stored;
    }

    /** The list `loadStickies` reads. */
    function Stickies(): seq<Sticky>
      reads this
    {
      stored.GetOr([])
    }

    method LoadStickies() returns (r: seq<Sticky>)
      ensures stored.None? ==> r == []
      ensures stored.Some? ==> r == stored.value
    {
      if stored.None? {
        return [];
      }
      r := stored.value;
    }

    method SaveSticky(sticky: Sticky)
      modifies this
      ensures stored == Some(Upsert(old(Stickies()), sticky))
      ensures UniqueIds(old(Stickies())) ==> UniqueIds(Stickies())
    {
      var stickies := LoadStickies();
      if UniqueIds(stickies) {
        UpsertKeepsIdsUnique(stickies, sticky);
      }
      var index := FirstIndex(stickies, sticky.id);
      if index.Some? {
        stickies := stickies[index.value := sticky];
      } else {
        stickies := stickies + [sticky];
      }
      stored := Some(stickies);
    }

    /** `createSticky`; the id is the one `UUID()` would have generated. */
    method CreateSticky(id: Uuid, title: string, settings: Option<StickySettings>) returns (r: Sticky)
      modifies this
      ensures r == NewSticky(id, title, settings)
      ensures stored == Some(Upsert(old(Stickies()), r))
      ensures Lookup(Stickies(), id) == Some(r)
      ensures (forall k | 0 <= k < |old(Stickies())| :: old(Stickies())[k].id != id) ==>
        Stickies() == old(Stickies()) + [r]
    {
      var transparency := DefaultTransparency;
      var alwaysOnTop := true;
      var columns := DefaultColumns;
      var filter, sortBy, sortOrder := None, None, None;
      if settings.Some? {
        transparency := settings.value.transparency.GetOr(DefaultTransparency);
        alwaysOnTop := settings.value.alwaysOnTop.GetOr(true);
        filter, sortBy, sortOrder := settings.value.filter, settings.value.sortBy, settings.value.sortOrder;
        columns := settings.value.visibleColumns.GetOr(DefaultColumns);
      }
      r := Sticky(id, title, DefaultPosition, DefaultSize, transparency, alwaysOnTop, filter, sortBy, sortOrder, columns);
      LookupAfterUpsert(Stickies(), r, id);
      SaveSticky(r);
    }

    method GetSticky(id: Uuid) returns (r: Result<Sticky, Error>)
      ensures Lookup(Stickies(), id).Some? ==> r == Success(Lookup(Stickies(), id).value)
      ensures Lookup(Stickies(), id).None? ==> r == Failure(StickyNotFound)
    {
      var stickies := LoadStickies();
      var found := Lookup(stickies, id);
      if found.None? {
        return Failure(StickyNotFound);
      }
      r := Success(found.value);
    }

    method UpdateStickyTransparency(id: Uuid, transparency: real) returns (r: Result<Sticky, Error>)
      modifies this
      ensures match Lookup(old(Stickies()), id)
        case None => r == Failure(StickyNotFound) && stored == old(stored)
        case Some(s) => (r == Success(s.(transparency := transparency))
          && stored == Some(Upsert(old(Stickies()), r.value)))
    {
      var found := GetSticky(id);
      if found.Failure? {
        return found;
      }
      var sticky := found.value;
      sticky := sticky.(transparency := transparency);
      SaveSticky(sticky);
      r := Success(sticky);
    }

    method UpdateStickyAlwaysOnTop(id: Uuid, alwaysOnTop: bool) returns (r: Result<Sticky, Error>)
      modifies this
      ensures match Lookup(old(Stickies()), id)
        case None => r == Failure(StickyNotFound) && stored == old(stored)
        case Some(s) => (r == Success(s.(alwaysOnTop := alwaysOnTop))
          && stored == Some(Upsert(old(Stickies()), r.value)))
    {
      var found := GetSticky(id);
      if found.Failure? {
        return found;
      }
      var sticky := found.value;
      sticky := sticky.(alwaysOnTop := alwaysOnTop);
      SaveSticky(sticky);
      r := Success(sticky);
    }

    method UpdateStickyWindowFrame(id: Uuid, position: Point, size: Size) returns (r: Result<Sticky, Error>)
      modifies this
      ensures match Lookup(old(Stickies()), id)
        case None => r == Failure(StickyNotFound) && stored == old(stored)
        case Some(s) => (r == Success(s.(position := position, size := size))
          && stored == Some(Upsert(old(Stickies()), r.value)))
    {
      var found := GetSticky(id);
      if found.Failure? {
        return found;
      }
      var sticky := found.value;
      sticky := sticky.(position := position);
      sticky := sticky.(size := size);
      SaveSticky(sticky);
      r := Success(sticky);
    }

    method UpdateStickySettings(id: Uuid, settings: StickySettings) returns (r: Result<Sticky, Error>)
      modifies this
      ensures match Lookup(old(Stickies()), id)
        case None => r == Failure(StickyNotFound) && stored == old(stored)
        case Some(s) => (r == Success(PatchSettings(s, settings))
          && stored == Some(Upsert(old(Stickies()), r.value)))
    {
      var found := GetSticky(id);
      if found.Failure? {
        return found;
      }
      var sticky := found.value;
      if settings.transparency.Some? {
        sticky := sticky.(transparency := settings.transparency.value);
      }
      if settings.alwaysOnTop.Some? {
        sticky := sticky.(alwaysOnTop := settings.alwaysOnTop.value);
      }
      sticky := sticky.(filter := settings.filter);
      sticky := sticky.(sortBy := settings.sortBy);
      sticky := sticky.(sortOrder := settings.sortOrder);
      if settings.visibleColumns.Some? {
        sticky := sticky.(visibleColumns := settings.visibleColumns.value);
      }
      SaveSticky(sticky);
      r := Success(sticky);
    }
  }
}
