/** `propertyKeys` and the query hooks built on it. A query key is a list; invalidating a key
    refetches every cached query whose key starts with it. */
module QueryKeys {
  import opened Common
  import opened QueryParams

  /** One element of a query key: a string, or the search parameters of a list query. */
  datatype KeyPart = KStr(s: string) | KFilters(filters: SearchParams)

  type Key = seq<KeyPart>

  /** `propertyKeys.all`. */
  const All: Key := [KStr("properties")]

  /** `propertyKeys.lists()`, `list(filters)`, `details()`, `detail(id)` and `search(query)`:
      each extends `all`. */
  function Lists(): Key {
    All + [KStr("list")]
  }

  function List(filters: SearchParams): Key {
    Lists() + [KFilters(filters)]
  }

  function Details(): Key {
    All + [KStr("detail")]
  }

  function Detail(id: string): Key {
    Details() + [KStr(id)]
  }

  function Search(query: string): Key {
    All + [KStr("search"), KStr(query)]
  }

  /** `invalidateQueries({ queryKey: prefix })` reaches the query with key `key`. */
  predicate Invalidates(prefix: Key, key: Key) {
    prefix <= key
  }

  /** The keys the factory builds. */
  ghost predicate FactoryKey(k: Key) {
    k == All || k == Lists() || k == Details()
    || (exists f :: k == List(f)) || (exists id :: k == Detail(id)) || (exists q :: k == Search(q))
  }

  /** Invalidating `all` reaches every key the factory builds. */
  lemma AllCoversEveryKey(k: Key)
    requires FactoryKey(k)
    ensures Invalidates(All, k)
  {
  }

  /** List, detail and search keys never reach one another: they differ in their second element. */
  lemma KeysDisjoint(f: SearchParams, id: string, q: string)
    ensures !Invalidates(Lists(), Detail(id)) && !Invalidates(Lists(), Search(q))
    ensures !Invalidates(Details(), List(f)) && !Invalidates(Details(), Search(q))
    ensures !Invalidates(List(f), Detail(id)) && !Invalidates(Detail(id), Search(q)) && !Invalidates(Search(q), List(f))
    ensures List(f)[1] != Detail(id)[1] && Detail(id)[1] != Search(q)[1] && Search(q)[1] != List(f)[1]
  {
    assert List(f)[1] == KStr("list") && Detail(id)[1] == KStr("detail") && Search(q)[1] == KStr("search");
  }

  /** Invalidating `lists()` reaches every list query and only list queries among the rest. */
  lemma ListsCoversLists(f: SearchParams, id: string, q: string)
    ensures Invalidates(Lists(), List(f))
    ensures !Invalidates(Lists(), Detail(id)) && !Invalidates(Lists(), Search(q))
  {
    KeysDisjoint(f, id, q);
  }

  /** Different ids, queries or filters give different keys, so their cache entries never collide. */
  lemma KeysInjective(a: string, b: string, f: SearchParams, g: SearchParams)
    ensures Detail(a) == Detail(b) ==> a == b
    ensures Search(a) == Search(b) ==> a == b
    ensures List(f) == List(g) ==> f == g
  {
    if Detail(a) == Detail(b) {
      assert Detail(a)[2] == KStr(a);
    }
    if Search(a) == Search(b) {
      assert Search(a)[2] == KStr(a);
    }
    if List(f) == List(g) {
      assert List(f)[2] == KFilters(f);
    }
  }

  // ---------------------------------------------------------------------------
  // Hooks

  /** The service call a query makes. */
  datatype Fetch = FetchList(filters: SearchParams) | FetchById(id: string) | FetchSearch(query: string)

  /** The options a hook passes to `useQuery`; times in milliseconds. */
  datatype QueryConfig = QueryConfig(key: Key, fetch: Fetch, enabled: bool, staleTime: nat, gcTime: nat)

  const FiveMinutes: nat := 5 * 60 * 1000

  /** `useProperties(filters)`: always enabled, fresh for 5 minutes, kept for 10. */
  function UseProperties(filters: SearchParams): (c: QueryConfig)
    ensures c.key == List(filters) && c.fetch == FetchList(filters) && c.enabled
    ensures c.staleTime == 300000 && c.gcTime == 600000
  {
    QueryConfig(List(filters), FetchList(filters), true, FiveMinutes, 2 * FiveMinutes)
  }

  /** `useProperty(id)`: enabled only for a non-empty id. */
  function UseProperty(id: string): (c: QueryConfig)
    ensures c.key == Detail(id) && c.fetch == FetchById(id)
    ensures c.enabled <==> |id| > 0
    ensures c.staleTime == 300000 && c.gcTime == 600000
  {
    QueryConfig(Detail(id), FetchById(id), id != "", FiveMinutes, 2 * FiveMinutes)
  }

  /** `usePropertySearch(query)`: enabled only for a non-empty query; fresh for 2 minutes, kept for 5. */
  function UsePropertySearch(query: string): (c: QueryConfig)
    ensures c.key == Search(query) && c.fetch == FetchSearch(query)
    ensures c.enabled <==> |query| > 0
    ensures c.staleTime == 120000 && c.gcTime == 300000
  {
    QueryConfig(Search(query), FetchSearch(query), query != "" && |query| > 0, 2 * 60 * 1000, FiveMinutes)
  }

  /** The key and call `usePrefetchProperties` prefetches for `filters`, fresh for 5 minutes. */
  function PrefetchProperties(filters: SearchParams): (r: (Key, Fetch, nat))
    ensures r.0 == UseProperties(filters).key && r.1 == UseProperties(filters).fetch
    ensures r.2 == UseProperties(filters).staleTime
  {
    (List(filters), FetchList(filters), FiveMinutes)
  }

  /** The key `useRefreshProperties` and a successful mutation invalidate. */
  const RefreshKey: Key := All

  /** A configuration some hook builds. */
  ghost predicate HookConfig(c: QueryConfig) {
    (exists f :: c == UseProperties(f)) || (exists id :: c == UseProperty(id)) || (exists q :: c == UsePropertySearch(q))
  }

  /** The service call a three-element key stands for, read back from the key alone. */
  function FetchOfKey(k: Key): Option<Fetch> {
    if |k| != 3 || k[0] != KStr("properties") then None
    else if k[1] == KStr("list") && k[2].KFilters? then Some(FetchList(k[2].filters))
    else if k[1] == KStr("detail") && k[2].KStr? then Some(FetchById(k[2].s))
    else if k[1] == KStr("search") && k[2].KStr? then Some(FetchSearch(k[2].s))
    else None
  }

  /** Every key the list, detail and search factories build reads back as its service call. */
  lemma KeyRoundTrip(f: SearchParams, id: string, q: string)
    ensures FetchOfKey(List(f)) == Some(FetchList(f))
    ensures FetchOfKey(Detail(id)) == Some(FetchById(id))
    ensures FetchOfKey(Search(q)) == Some(FetchSearch(q))
  {
    assert List(f)[1] == KStr("list") && List(f)[2] == KFilters(f);
    assert Detail(id)[1] == KStr("detail") && Detail(id)[2] == KStr(id);
    assert Search(q)[1] == KStr("search") && Search(q)[2] == KStr(q);
  }

  /** A hook's key reads back as the service call the hook makes. */
  lemma HookKeyDecodes(c: QueryConfig)
    requires HookConfig(c)
    ensures FetchOfKey(c.key) == Some(c.fetch)
  {
    if exists f :: c == UseProperties(f) {
      var f :| c == UseProperties(f);
      KeyRoundTrip(f, "", "");
    } else if exists id :: c == UseProperty(id) {
      var id :| c == UseProperty(id);
      KeyRoundTrip(NoParams, id, "");
    } else {
      var q :| c == UsePropertySearch(q);
      KeyRoundTrip(NoParams, "", q);
    }
  }

  /** Two hooks that share a key make the same service call, so a cached result is never
      served to a query that would have fetched something else. */
  lemma KeyDeterminesFetch(c: QueryConfig, d: QueryConfig)
    requires HookConfig(c) && HookConfig(d) && c.key == d.key
    ensures c.fetch == d.fetch
  {
    HookKeyDecodes(c);
    HookKeyDecodes(d);
  }

  /** Refreshing reaches every query the hooks build. */
  lemma RefreshCoversHooks(c: QueryConfig)
    requires HookConfig(c)
    ensures Invalidates(RefreshKey, c.key)
  {
  }
}
