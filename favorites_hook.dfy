/** `useFavorites`: a component's cached copy of the favorites list and of the
    capacity flag, re-read from the store after each successful change. */
module FavoritesHook {
  import opened Wrappers
  import opened WeatherSchemas
  import opened FavoritesStorage

  class FavoritesCache {
    const store: FavoritesStore
    /** The `favorites` state. */
    var favorites: seq<Favorite>
    /** The `canAddMore` state. */
    var canAddMore: bool

    /** The cache agrees with the store. */
    predicate Synced()
      reads this, store
    {
      favorites == store.Favorites() && canAddMore == store.CanAddMore()
    }

    /** The initial states: the stored list and the capacity flag in a browser,
        `[]` and `true` outside one. */
    constructor (store: FavoritesStore)
      ensures this.store == store
      ensures favorites == (if store.inBrowser then store.Favorites() else [])
      ensures canAddMore == (if store.inBrowser then store.CanAddMore() else true)
      ensures Synced()
    {
      this.store := store;
      favorites := if store.inBrowser then store.Favorites() else [];
      canAddMore := if store.inBrowser then store.CanAddMore() else true;
    }

    /** `refresh()`: re-read both states from the store. */
    method Refresh()
      modifies this
      ensures Synced()
    {
      favorites := store.Favorites();
      canAddMore := store.CanAddMore();
    }

    /** `addToFavorites`: true exactly when the store added the place; the cache is
        then refreshed, and left as it was otherwise. */
    method AddToFavorites(fullName: string, displayName: string, coordinates: Option<Coordinates>,
                          id: string, createdAt: int)
      returns (ok: bool)
      requires !HasId(store.Favorites(), id)
      modifies this, store
      ensures ok <==> NewFavorite(old(store.Favorites()), fullName, displayName, coordinates, id, createdAt).Some?
      ensures ok ==> Synced()
      ensures ok && store.inBrowser ==> (favorites
        == old(store.Favorites()) + [Favorite(id, fullName, displayName, None, coordinates, createdAt)])
      ensures !ok ==> (favorites == old(favorites) && canAddMore == old(canAddMore)
        && store.slot == old(store.slot) && store.events == old(store.events))
      ensures old(Synced()) ==> Synced()
    {
      var r := store.AddFavorite(fullName, displayName, coordinates, id, createdAt);
      if r.Some? {
        Refresh();
        return true;
      }
      return false;
    }

    /** `removeFromFavorites`. */
    method RemoveFromFavorites(id: string) returns (ok: bool)
      modifies this, store
      ensures ok <==> HasId(old(store.Favorites()), id)
      ensures ok ==> Synced() && favorites == WithoutId(old(store.Favorites()), id)
      ensures !ok ==> (favorites == old(favorites) && canAddMore == old(canAddMore)
        && store.slot == old(store.slot) && store.events == old(store.events))
      ensures old(Synced()) ==> Synced()
    {
      ok := store.RemoveFavorite(id);
      if ok {
        Refresh();
      }
    }

    /** `updateAlias`. */
    method UpdateAlias(id: string, alias: Option<string>) returns (ok: bool)
      modifies this, store
      ensures ok <==> HasId(old(store.Favorites()), id)
      ensures ok ==> (Synced()
        && favorites == WithAlias(old(store.Favorites()), FindIndex(old(store.Favorites()), id), alias))
      ensures !ok ==> (favorites == old(favorites) && canAddMore == old(canAddMore)
        && store.slot == old(store.slot) && store.events == old(store.events))
      ensures old(Synced()) ==> Synced()
    {
      ok := store.UpdateFavoriteAlias(id, alias);
      if ok {
        Refresh();
      }
    }

    /** `updateCoordinates`. */
    method UpdateCoordinates(id: string, coordinates: Coordinates) returns (ok: bool)
      modifies this, store
      ensures ok <==> HasId(old(store.Favorites()), id)
      ensures ok ==> (Synced()
        && favorites == WithCoordinates(old(store.Favorites()), FindIndex(old(store.Favorites()), id), coordinates))
      ensures !ok ==> (favorites == old(favorites) && canAddMore == old(canAddMore)
        && store.slot == old(store.slot) && store.events == old(store.events))
      ensures old(Synced()) ==> Synced()
    {
      ok := store.UpdateFavoriteCoordinates(id, coordinates);
      if ok {
        Refresh();
      }
    }
  }
}
