/** The favourite lists in local storage: the store reads the three lists
    when it starts, and `toggleFavorite` writes the list it changed back
    under that list's key. Storage is a map from key to the stored list;
    the JSON encoding is taken to round-trip. */
module Persistence {
  import opened Wrappers
  import opened NewsTypes
  import opened NewsSlice

  type Storage = map<string, seq<Article>>

  /** `loadFromStorage(key)`: the stored list, or the empty list when
      nothing is stored under the key. */
  function Load(st: Storage, key: string): (r: seq<Article>)
    ensures key !in st ==> r == []
    ensures key in st ==> r == st[key]
  {
    if key in st then st[key] else []
  }

  /** The store as it starts, with its favourites read from storage. */
  function Boot(st: Storage): (s: NewsState)
    ensures forall k :: FavoritesOf(s, k) == Load(st, StorageKey(k))
    ensures s.filters == InitialFilters && s.articles == [] && !s.isLoading
    ensures s.activeTab == Feed && !s.isMobileMenuOpen && !s.isSearchOpen && s.error == None
  {
    InitialState(Load(st, StorageKey(Authors)), Load(st, StorageKey(Categories)), Load(st, StorageKey(Sources)))
  }

  /** One dispatched action together with its effect on storage: only
      `toggleFavorite` writes, and it writes the new list of its kind. */
  function Step(s: NewsState, st: Storage, a: Action): (r: (NewsState, Storage))
    ensures r.0 == Reduce(s, a)
    ensures !a.ToggleFavorite? ==> r.1 == st
    ensures a.ToggleFavorite? ==>
              && StorageKey(a.kind) in r.1
              && r.1[StorageKey(a.kind)] == FavoritesOf(r.0, a.kind)
              && (forall key :: key != StorageKey(a.kind) ==> Load(r.1, key) == Load(st, key))
  {
    var next := Reduce(s, a);
    if a.ToggleFavorite? then (next, st[StorageKey(a.kind) := FavoritesOf(next, a.kind)])
    else (next, st)
  }

  /** A sequence of actions dispatched in order, with storage alongside. */
  function RunStored(s: NewsState, st: Storage, actions: seq<Action>): (NewsState, Storage)
    decreases |actions|
  {
    if actions == [] then (s, st)
    else
      var next := Step(s, st, actions[0]);
      RunStored(next.0, next.1, actions[1..])
  }

  /** Storage holds exactly the store's favourite lists. */
  predicate Mirrors(st: Storage, s: NewsState) {
    forall k :: Load(st, StorageKey(k)) == FavoritesOf(s, k)
  }

  // -------------------------------------------------------------- lemmas

  /** A freshly started store mirrors the storage it was read from. */
  lemma BootMirrors(st: Storage)
    ensures Mirrors(st, Boot(st))
  {
  }

  /** Every action keeps storage in step with the favourites. */
  lemma StepKeepsMirror(s: NewsState, st: Storage, a: Action)
    requires Mirrors(st, s)
    ensures Mirrors(Step(s, st, a).1, Step(s, st, a).0)
  {
    var r := Step(s, st, a);
    if a.ToggleFavorite? {
      forall k ensures Load(r.1, StorageKey(k)) == FavoritesOf(r.0, k) {
        if k != a.kind {
          StorageKeysDistinct(k, a.kind);
        }
      }
    }
  }

  /** After any run of actions, reloading the page (booting from the
      storage the run left) gives back exactly the favourites the store
      held, whatever happened to the rest of the state. */
  lemma {:induction false} ReloadRestoresFavorites(st: Storage, actions: seq<Action>)
    ensures var r := RunStored(Boot(st), st, actions);
            forall k :: FavoritesOf(Boot(r.1), k) == FavoritesOf(r.0, k)
  {
    BootMirrors(st);
    RunKeepsMirror(Boot(st), st, actions);
  }

  lemma {:induction false} RunKeepsMirror(s: NewsState, st: Storage, actions: seq<Action>)
    requires Mirrors(st, s)
    ensures Mirrors(RunStored(s, st, actions).1, RunStored(s, st, actions).0)
    ensures RunStored(s, st, actions).0 == Run(s, actions)
    decreases |actions|
  {
    if actions != [] {
      StepKeepsMirror(s, st, actions[0]);
      var next := Step(s, st, actions[0]);
      RunKeepsMirror(next.0, next.1, actions[1..]);
    }
  }
}
