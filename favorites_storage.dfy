/** The favorites store of `storage.ts`: one JSON list under a fixed key of the
    browser's `localStorage`, read, changed and written back by every operation,
    with a capacity of six and at most one entry per `fullName`.

    The storage slot is a field of `FavoritesStore`; `getFavorites` reads it and
    `saveFavorites` writes it and counts one `favorites-changed` event. The random id
    and the timestamp of a new entry are parameters. */
module FavoritesStorage {
  import opened Wrappers
  import opened WeatherSchemas

  /** `MAX_FAVORITES`. */
  const MaxFavorites: int := 6

  /** `FavoriteLocation`. */
  datatype Favorite = Favorite(
    id: string,
    fullName: string,
    displayName: string,
    alias: Option<string>,
    coordinates: Option<Coordinates>,
    createdAt: int)

  /** What `localStorage.getItem(FAVORITES_KEY)` holds: nothing (or the empty
      string), text that `JSON.parse` rejects, or a saved list. */
  datatype Slot = Missing | Unparsable | Saved(list: seq<Favorite>)

  predicate HasFullName(list: seq<Favorite>, fullName: string) {
    exists k | 0 <= k < |list| :: list[k].fullName == fullName
  }

  predicate HasId(list: seq<Favorite>, id: string) {
    exists k | 0 <= k < |list| :: list[k].id == id
  }

  predicate UniqueFullNames(list: seq<Favorite>) {
    forall i, j :: 0 <= i < j < |list| ==> list[i].fullName != list[j].fullName
  }

  predicate UniqueIds(list: seq<Favorite>) {
    forall i, j :: 0 <= i < j < |list| ==> list[i].id != list[j].id
  }

  /** The invariant the store keeps: within capacity, one entry per place. */
  predicate WellFormed(list: seq<Favorite>) {
    |list| <= MaxFavorites && UniqueFullNames(list)
  }

  // ----- the operations on the list, as functions -----

  /** The entry `addFavorite` creates, or `None` when the list is full or already
      holds the place. */
  function NewFavorite(list: seq<Favorite>, fullName: string, displayName: string,
                       coordinates: Option<Coordinates>, id: string, createdAt: int)
    : (r: Option<Favorite>)
    ensures r.None? <==> |list| >= MaxFavorites || HasFullName(list, fullName)
    ensures r.Some? ==> r.value == Favorite(id, fullName, displayName, None, coordinates, createdAt)
  {
    if |list| >= MaxFavorites then None
    else if HasFullName(list, fullName) then None
    else Some(Favorite(id, fullName, displayName, None, coordinates, createdAt))
  }

  /** `favorites.filter(f => f.id !== id)`. */
  function WithoutId(list: seq<Favorite>, id: string): (r: seq<Favorite>)
    ensures |r| <= |list|
    ensures !HasId(r, id)
    ensures forall x :: x in r <==> x in list && x.id != id
    ensures |r| == |list| <==> !HasId(list, id)
  {
    if list == [] then []
    else if list[0].id == id then WithoutId(list[1..], id)
    else
      var rest := WithoutId(list[1..], id);
      assert forall k :: 0 <= k < |rest| ==> ([list[0]] + rest)[k + 1] == rest[k];
      [list[0]] + rest
  }

  /** The filter keeps the order of the entries it keeps. */
  lemma {:induction false} WithoutIdKeepsOrder(a: seq<Favorite>, b: seq<Favorite>, id: string)
    ensures WithoutId(a + b, id) == WithoutId(a, id) + WithoutId(b, id)
  {
    if a != [] {
      assert (a + b)[0] == a[0] && (a + b)[1..] == a[1..] + b;
      WithoutIdKeepsOrder(a[1..], b, id);
    } else {
      assert a + b == b;
    }
  }

  /** `favorites.findIndex(f => f.id === id)`: the first position holding the id, or
      -1 when none does. */
  function FindIndex(list: seq<Favorite>, id: string): (r: int)
    ensures -1 <= r < |list|
    ensures r == -1 <==> !HasId(list, id)
    ensures r >= 0 ==> list[r].id == id && forall k :: 0 <= k < r ==> list[k].id != id
  {
    if list == [] then -1
    else if list[0].id == id then 0
    else
      var r := FindIndex(list[1..], id);
      assert forall k :: 0 <= k < |list| - 1 ==> list[1..][k] == list[k + 1];
      if r == -1 then -1 else r + 1
  }

  /** `favorites[index] = { ...favorites[index], alias }`. */
  function WithAlias(list: seq<Favorite>, index: int, alias: Option<string>): (r: seq<Favorite>)
    requires 0 <= index < |list|
    ensures |r| == |list| && r[index].alias == alias
    ensures r[index] == Favorite(list[index].id, list[index].fullName, list[index].displayName,
      alias, list[index].coordinates, list[index].createdAt)
    ensures forall k | 0 <= k < |list| && k != index :: r[k] == list[k]
  {
    list[index := list[index].(alias := alias)]
  }

  /** `favorites[index] = { ...favorites[index], coordinates }`. */
  function WithCoordinates(list: seq<Favorite>, index: int, coordinates: Coordinates): (r: seq<Favorite>)
    requires 0 <= index < |list|
    ensures |r| == |list| && r[index].coordinates == Some(coordinates)
    ensures r[index] == Favorite(list[index].id, list[index].fullName, list[index].displayName,
      list[index].alias, Some(coordinates), list[index].createdAt)
    ensures forall k | 0 <= k < |list| && k != index :: r[k] == list[k]
  {
    list[index := list[index].(coordinates := Some(coordinates))]
  }

  // ----- the invariant is kept -----

  /** Appending the entry `addFavorite` creates keeps the list well formed, and keeps
      ids unique when the new id is fresh. */
  lemma AddKeepsWellFormed(list: seq<Favorite>, fullName: string, displayName: string,
                           coordinates: Option<Coordinates>, id: string, createdAt: int)
    requires NewFavorite(list, fullName, displayName, coordinates, id, createdAt).Some?
    requires WellFormed(list)
    ensures var f := NewFavorite(list, fullName, displayName, coordinates, id, createdAt).value;
      WellFormed(list + [f]) && (UniqueIds(list) && !HasId(list, id) ==> UniqueIds(list + [f]))
  {
    var f := NewFavorite(list, fullName, displayName, coordinates, id, createdAt).value;
    var l := list + [f];
    forall i, j | 0 <= i < j < |l| ensures l[i].fullName != l[j].fullName {
      if j == |list| {
        assert l[i] == list[i];
      } else {
        assert l[i] == list[i] && l[j] == list[j];
      }
    }
    if UniqueIds(list) && !HasId(list, id) {
      forall i, j | 0 <= i < j < |l| ensures l[i].id != l[j].id {
        if j == |list| {
          assert l[i] == list[i];
        } else {
          assert l[i] == list[i] && l[j] == list[j];
        }
      }
    }
  }

  /** Removing entries keeps place names unique. */
  lemma {:induction false} RemoveKeepsUniqueFullNames(list: seq<Favorite>, id: string)
    requires UniqueFullNames(list)
    ensures UniqueFullNames(WithoutId(list, id))
  {
    if list != [] {
      var tail := list[1..];
      assert UniqueFullNames(tail) by {
        forall i, j | 0 <= i < j < |tail| ensures tail[i].fullName != tail[j].fullName {
          assert tail[i] == list[i + 1] && tail[j] == list[j + 1];
        }
      }
      RemoveKeepsUniqueFullNames(tail, id);
      var rest := WithoutId(tail, id);
      if list[0].id != id {
        var r := [list[0]] + rest;
        forall i, j | 0 <= i < j < |r| ensures r[i].fullName != r[j].fullName {
          if i == 0 {
            assert r[j] == rest[j - 1] && r[j] in tail;
            var m :| 0 <= m < |tail| && tail[m] == r[j];
            assert list[m + 1] == r[j];
          } else {
            assert r[i] == rest[i - 1] && r[j] == rest[j - 1];
          }
        }
      }
    }
  }

  /** Removing entries keeps ids unique. */
  lemma {:induction false} RemoveKeepsUniqueIds(list: seq<Favorite>, id: string)
    requires UniqueIds(list)
    ensures UniqueIds(WithoutId(list, id))
  {
    if list != [] {
      var tail := list[1..];
      assert UniqueIds(tail) by {
        forall i, j | 0 <= i < j < |tail| ensures tail[i].id != tail[j].id {
          assert tail[i] == list[i + 1] && tail[j] == list[j + 1];
        }
      }
      RemoveKeepsUniqueIds(tail, id);
      var rest := WithoutId(tail, id);
      if list[0].id != id {
        var r := [list[0]] + rest;
        forall i, j | 0 <= i < j < |r| ensures r[i].id != r[j].id {
          if i == 0 {
            assert r[j] == rest[j - 1] && r[j] in tail;
            var m :| 0 <= m < |tail| && tail[m] == r[j];
            assert list[m + 1] == r[j];
          } else {
            assert r[i] == rest[i - 1] && r[j] == rest[j - 1];
          }
        }
      }
    }
  }

  /** Removing entries keeps the list well formed. */
  lemma RemoveKeepsWellFormed(list: seq<Favorite>, id: string)
    requires WellFormed(list)
    ensures WellFormed(WithoutId(list, id))
  {
    RemoveKeepsUniqueFullNames(list, id);
  }
  /** Changing the alias or the coordinates of one entry changes only that field of
      that entry, so the list stays well formed. */
  lemma UpdateKeepsWellFormed(list: seq<Favorite>, index: int, alias: Option<string>, coordinates: Coordinates)
    requires 0 <= index < |list|
    ensures var a := WithAlias(list, index, alias);
      && |a| == |list| && a[index].alias == alias
      && a[index] == list[index].(alias := alias)
      && (forall k :: 0 <= k < |list| && k != index ==> a[k] == list[k])
      && (WellFormed(list) ==> WellFormed(a)) && (UniqueIds(list) ==> UniqueIds(a))
    ensures var c := WithCoordinates(list, index, coordinates);
      && |c| == |list| && c[index] == list[index].(coordinates := Some(coordinates))
      && (forall k :: 0 <= k < |list| && k != index ==> c[k] == list[k])
      && (WellFormed(list) ==> WellFormed(c)) && (UniqueIds(list) ==> UniqueIds(c))
  {
  }

  // ----- the store -----

  class FavoritesStore {
    /** `typeof window !== "undefined"`: outside a browser nothing is read or
        written. */
    const inBrowser: bool
    /** The `localStorage` entry under `FAVORITES_KEY`. */
    var slot: Slot
    /** How many `favorites-changed` events have been dispatched. */
    var events: nat

    constructor (inBrowser: bool, slot: Slot)
      ensures this.inBrowser == inBrowser && this.slot == slot && events == 0
    {
      this.inBrowser := inBrowser;
      this.slot := slot;
      events := 0;
    }

    /** `getFavorites()`: the saved list, or `[]` outside a browser, when nothing is
        stored, or when the stored text does not parse. */
    function Favorites(): (list: seq<Favorite>)
      reads this
      ensures !inBrowser || !slot.Saved? ==> list == []
      ensures inBrowser && slot.Saved? ==> list == slot.list
    {
      if inBrowser && slot.Saved? then slot.list else []
    }

    /** `canAddMoreFavorites()`. */
    function CanAddMore(): (r: bool)
      reads this
      ensures r <==> |Favorites()| < MaxFavorites
    {
      |Favorites()| < MaxFavorites
    }

    /** `saveFavorites(list)`: write, then announce the change. */
    method Save(list: seq<Favorite>)
      modifies this
      ensures inBrowser ==> slot == Saved(list) && Favorites() == list && events == old(events) + 1
      ensures !inBrowser ==> slot == old(slot) && events == old(events)
    {
      if !inBrowser {
        return;
      }
      slot := Saved(list);
      events := events + 1;
    }

    /** `addFavorite(fullName, displayName, coordinates)`, with `crypto.randomUUID()`
        as `id` (fresh) and `Date.now()` as `createdAt`. */
    method AddFavorite(fullName: string, displayName: string, coordinates: Option<Coordinates>,
                       id: string, createdAt: int)
      returns (r: Option<Favorite>)
      requires !HasId(Favorites(), id)
      modifies this
      ensures r == NewFavorite(old(Favorites()), fullName, displayName, coordinates, id, createdAt)
      ensures r.None? ==> slot == old(slot) && events == old(events)
      ensures r.Some? && inBrowser ==> Favorites() == old(Favorites()) + [r.value] && events == old(events) + 1
      ensures !inBrowser ==> slot == old(slot) && events == old(events)
    {
      var favorites := Favorites();
      if |favorites| >= MaxFavorites {
        return None;
      }
      if HasFullName(favorites, fullName) {
        return None;
      }
      var entry := Favorite(id, fullName, displayName, None, coordinates, createdAt);
      Save(favorites + [entry]);
      return Some(entry);
    }

    /** `removeFavorite(id)`: false with no write when no entry has the id; otherwise
        every entry with the id is dropped and the rest kept in order. */
    method RemoveFavorite(id: string) returns (ok: bool)
      modifies this
      ensures ok <==> HasId(old(Favorites()), id)
      ensures !ok ==> slot == old(slot) && events == old(events)
      ensures ok ==> inBrowser && Favorites() == WithoutId(old(Favorites()), id) && events == old(events) + 1
    {
      var favorites := Favorites();
      var filtered := WithoutId(favorites, id);
      if |filtered| == |favorites| {
        return false;
      }
      Save(filtered);
      return true;
    }

    /** `updateFavoriteAlias(id, alias)`: the alias is stored as given, on the first
        entry with the id; false with no write when there is none. */
    method UpdateFavoriteAlias(id: string, alias: Option<string>) returns (ok: bool)
      modifies this
      ensures ok <==> HasId(old(Favorites()), id)
      ensures !ok ==> slot == old(slot) && events == old(events)
      ensures ok ==> (inBrowser && events == old(events) + 1
        && Favorites() == WithAlias(old(Favorites()), FindIndex(old(Favorites()), id), alias))
    {
      var favorites := Favorites();
      var index := FindIndex(favorites, id);
      if index == -1 {
        return false;
      }
      favorites := favorites[index := favorites[index].(alias := alias)];
      Save(favorites);
      return true;
    }

    /** `updateFavoriteCoordinates(id, coordinates)`. */
    method UpdateFavoriteCoordinates(id: string, coordinates: Coordinates) returns (ok: bool)
      modifies this
      ensures ok <==> HasId(old(Favorites()), id)
      ensures !ok ==> slot == old(slot) && events == old(events)
      ensures ok ==> (inBrowser && events == old(events) + 1
        && Favorites() == WithCoordinates(old(Favorites()), FindIndex(old(Favorites()), id), coordinates))
    {
      var favorites := Favorites();
      var index := FindIndex(favorites, id);
      if index == -1 {
        return false;
      }
      favorites := favorites[index := favorites[index].(coordinates := Some(coordinates))];
      Save(favorites);
      return true;
    }
  }

  /** Six adds with distinct names fill an empty store; a seventh distinct name is
      refused and the list stays at six. */
  method SeventhFavoriteRefused(store: FavoritesStore, names: seq<string>, ids: seq<string>)
    returns (seventh: Option<Favorite>)
    requires store.inBrowser && store.slot == Missing
    requires |names| == 7 && |ids| == 7
    requires forall i, j :: 0 <= i < j < 7 ==> names[i] != names[j] && ids[i] != ids[j]
    modifies store
    ensures seventh.None?
    ensures |store.Favorites()| == MaxFavorites
  {
    var k := 0;
    while k < 6
      invariant 0 <= k <= 6
      invariant |store.Favorites()| == k && store.inBrowser
      invariant forall m :: 0 <= m < k ==> store.Favorites()[m].fullName == names[m] && store.Favorites()[m].id == ids[m]
    {
      assert !HasFullName(store.Favorites(), names[k]);
      assert !HasId(store.Favorites(), ids[k]);
      var r := store.AddFavorite(names[k], names[k], None, ids[k], 0);
      k := k + 1;
    }
    assert !HasId(store.Favorites(), ids[6]);
    seventh := store.AddFavorite(names[6], names[6], None, ids[6], 0);
  }
}
