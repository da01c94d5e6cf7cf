/**
 * The `useApi` hook (src/hooks/useApi.ts): a per-hook cache of GET answers
 * keyed by the caller's key (or the url) and the session token, entries that
 * are fresh for `cacheTime` milliseconds, and the `data`/`loading`/`error`
 * state the hook exposes.
 *
 * The clock and the network are parameters: `now` is `Date.now()` when the
 * cache is consulted, `answeredAt` is `Date.now()` when the answer is cached,
 * and the answer itself is a `Response`. Debouncing, the abort controller and
 * the effect that decides when to fetch are not part of this model.
 */
module UseApi {
  import opened Types

  const DefaultImmediate := true
  const DefaultCacheTime := 30000
  const DefaultDebounceTime := 300
  const FallbackError := "An error occurred"

  /** The options as passed; an absent option is `undefined`. */
  datatype Options = Options(immediate: Option<bool>, cacheTime: Option<int>, debounceTime: Option<int>, key: Option<string>)

  datatype Settings = Settings(immediate: bool, cacheTime: int, debounceTime: int, key: Option<string>)

  /** Destructuring with defaults: a default replaces only an absent option. */
  function Resolve(o: Options): (s: Settings)
    ensures o.immediate.None? ==> s.immediate == DefaultImmediate
    ensures o.cacheTime.None? ==> s.cacheTime == DefaultCacheTime
    ensures o.debounceTime.None? ==> s.debounceTime == DefaultDebounceTime
    ensures o.immediate.Some? ==> s.immediate == o.immediate.value
    ensures o.cacheTime.Some? ==> s.cacheTime == o.cacheTime.value
    ensures o.debounceTime.Some? ==> s.debounceTime == o.debounceTime.value
    ensures s.key == o.key
  {
    Settings(if o.immediate.Some? then o.immediate.value else DefaultImmediate,
             if o.cacheTime.Some? then o.cacheTime.value else DefaultCacheTime,
             if o.debounceTime.Some? then o.debounceTime.value else DefaultDebounceTime,
             o.key)
  }

  /** A token as a template literal prints it: a missing token prints as `null`. */
  function TokenText(token: Option<string>): string
  {
    if token.Some? then token.value else "null"
  }

  /** The cache key: the caller's key when it is a non-empty string, else the url, then `-` and the token. */
  function CacheKey(key: Option<string>, url: string, token: Option<string>): (k: string)
    ensures var prefix := if Present(key) then key.value else url;
      |k| == |prefix| + 1 + |TokenText(token)| && k[..|prefix|] == prefix && k[|prefix|] == '-'
      && k[|prefix| + 1..] == TokenText(token)
  {
    (if Present(key) then key.value else url) + "-" + TokenText(token)
  }

  /** Entries are per token: the same key or url under two different tokens never shares an entry. */
  lemma KeysSeparateTokens(key: Option<string>, url: string, a: string, b: string)
    requires a != b
    ensures CacheKey(key, url, Some(a)) != CacheKey(key, url, Some(b))
  {
  }

  /** With a key, the url plays no part: two urls under one key share their entry. */
  lemma KeyOverridesUrl(key: string, url1: string, url2: string, token: Option<string>)
    requires key != ""
    ensures CacheKey(Some(key), url1, token) == CacheKey(Some(key), url2, token)
  {
  }

  datatype Entry<T> = Entry(data: T, timestamp: int)

  /** `Date.now() - cached.timestamp < cacheTime`. */
  predicate Fresh<T>(e: Entry<T>, now: int, cacheTime: int)
  {
    now - e.timestamp < cacheTime
  }

  /** How the GET ended: with the answer's data, cancelled by the abort controller, or with an error. */
  datatype Response<T> =
    | Ok(result: T)
    | Cancelled
      // `message` is the error's message when it is an `Error`
    | Failed(message: Option<string>)

  /** The hook's state: its cache and what it exposes. */
  datatype HookState<T> = HookState(cache: map<string, Entry<T>>, data: Option<T>, loading: bool, error: Option<string>)

  /** The state of a hook that has not fetched yet. */
  function Initial<T>(): (s: HookState<T>)
    ensures s.cache == map[] && s.data.None? && !s.loading && s.error.None?
  {
    HookState(map[], None, false, None)
  }

  /** Whether `fetchData` answers from the cache: token and url are given and the entry is fresh. */
  predicate Hit<T>(s: HookState<T>, settings: Settings, url: string, token: Option<string>, now: int)
  {
    && Present(token) && url != ""
    && var k := CacheKey(settings.key, url, token);
    && k in s.cache && Fresh(s.cache[k], now, settings.cacheTime)
  }

  /**
   * `fetchData`: the new state, and whether a request went out. Nothing
   * happens without a token or a url; a fresh entry supplies the data and
   * touches nothing else; otherwise the GET is made, and its answer is cached
   * with the time it arrived and becomes the data, a cancellation leaves data
   * and cache alone, an error is reported, and loading ends false in all
   * three cases.
   */
  function Fetched<T>(s: HookState<T>, settings: Settings, url: string, token: Option<string>,
                      now: int, response: Response<T>, answeredAt: int): (r: (HookState<T>, bool))
    ensures !Present(token) || url == "" ==> r == (s, false)
    ensures Hit(s, settings, url, token, now) ==>
      !r.1 && r.0 == s.(data := Some(s.cache[CacheKey(settings.key, url, token)].data))
    ensures r.1 <==> Present(token) && url != "" && !Hit(s, settings, url, token, now)
    ensures r.1 ==> !r.0.loading
    ensures r.1 && response.Ok? ==>
      && r.0.cache == s.cache[CacheKey(settings.key, url, token) := Entry(response.result, answeredAt)]
      && r.0.data == Some(response.result) && r.0.error.None?
    ensures r.1 && response.Cancelled? ==> r.0.cache == s.cache && r.0.data == s.data && r.0.error.None?
    ensures r.1 && response.Failed? ==>
      && r.0.cache == s.cache && r.0.data == s.data
      && r.0.error == Some(if response.message.Some? then response.message.value else FallbackError)
  {
    if !Present(token) || url == "" then (s, false)
    else
      var k := CacheKey(settings.key, url, token);
      if k in s.cache && Fresh(s.cache[k], now, settings.cacheTime) then
        (s.(data := Some(s.cache[k].data)), false)
      else
        var pending := s.(loading := true, error := None);
        var settled := match response
          case Ok(result) => pending.(cache := pending.cache[k := Entry(result, answeredAt)], data := Some(result))
          case Cancelled => pending
          case Failed(message) => pending.(error := Some(if message.Some? then message.value else FallbackError));
        (settled.(loading := false), true)
  }

  /** `refetch`: the entry is dropped first, then `fetchData` runs. */
  function Refetched<T>(s: HookState<T>, settings: Settings, url: string, token: Option<string>,
                        now: int, response: Response<T>, answeredAt: int): (HookState<T>, bool)
  {
    var dropped := s.(cache := s.cache - {CacheKey(settings.key, url, token)});
    Fetched(dropped, settings, url, token, now, response, answeredAt)
  }

  /** `refetch` never answers from the cache: with a token and a url, the GET always goes out. */
  lemma {:induction false} RefetchAlwaysRequests<T>(s: HookState<T>, settings: Settings, url: string, token: Option<string>,
                                                    now: int, response: Response<T>, answeredAt: int)
    requires Present(token) && url != ""
    ensures Refetched(s, settings, url, token, now, response, answeredAt).1
  {
    var dropped := s.(cache := s.cache - {CacheKey(settings.key, url, token)});
    assert !Hit(dropped, settings, url, token, now);
  }

  /** `mutate`: the data is replaced and cached with the current time. */
  function Mutated<T>(s: HookState<T>, settings: Settings, url: string, token: Option<string>,
                      newData: T, now: int): (r: HookState<T>)
    ensures r.data == Some(newData) && r.loading == s.loading && r.error == s.error
    ensures CacheKey(settings.key, url, token) in r.cache
    ensures r.cache[CacheKey(settings.key, url, token)] == Entry(newData, now)
    ensures forall k :: k in s.cache && k != CacheKey(settings.key, url, token) ==> k in r.cache && r.cache[k] == s.cache[k]
  {
    s.(data := Some(newData), cache := s.cache[CacheKey(settings.key, url, token) := Entry(newData, now)])
  }

  /**
   * After `mutate`, a fetch of the same url and token inside `cacheTime`
   * makes no request and shows the mutated data.
   */
  lemma {:induction false} MutateThenFetchHits<T>(s: HookState<T>, settings: Settings, url: string, token: Option<string>,
                                                  newData: T, mutatedAt: int, now: int, response: Response<T>, answeredAt: int)
    requires Present(token) && url != "" && now - mutatedAt < settings.cacheTime
    ensures var after := Fetched(Mutated(s, settings, url, token, newData, mutatedAt), settings, url, token, now,
                                 response, answeredAt);
      !after.1 && after.0.data == Some(newData)
  {
    var m := Mutated(s, settings, url, token, newData, mutatedAt);
    assert Hit(m, settings, url, token, now);
  }

  /**
   * A successful fetch feeds the next one: a second fetch of the same url
   * and token inside `cacheTime` of the answer makes no request and shows
   * the same data.
   */
  lemma {:induction false} FetchThenFetchHits<T>(s: HookState<T>, settings: Settings, url: string, token: Option<string>,
                                                 now1: int, result: T, answeredAt: int,
                                                 now2: int, response: Response<T>, answeredAt2: int)
    requires Fetched(s, settings, url, token, now1, Ok(result), answeredAt).1
    requires now2 - answeredAt < settings.cacheTime
    ensures var first := Fetched(s, settings, url, token, now1, Ok(result), answeredAt).0;
      var second := Fetched(first, settings, url, token, now2, response, answeredAt2);
      !second.1 && second.0.data == Some(result)
  {
    var first := Fetched(s, settings, url, token, now1, Ok(result), answeredAt).0;
    assert Hit(first, settings, url, token, now2);
  }

  /** A failed or cancelled fetch leaves the cache as it was. */
  lemma {:induction false} OnlySuccessCaches<T>(s: HookState<T>, settings: Settings, url: string, token: Option<string>,
                                                now: int, response: Response<T>, answeredAt: int)
    requires !response.Ok?
    ensures Fetched(s, settings, url, token, now, response, answeredAt).0.cache == s.cache
  {
  }

  /** One hook instance: the url it was called with, its resolved options, and its state. */
  class ApiHook<T> {
    const url: string
    const settings: Settings
    var cache: map<string, Entry<T>>
    var data: Option<T>
    var loading: bool
    var error: Option<string>

    function State(): HookState<T>
      reads this
    {
      HookState(cache, data, loading, error)
    }

    constructor(url: string, options: Options)
      ensures this.url == url && settings == Resolve(options) && State() == Initial()
    {
      this.url := url;
      settings := Resolve(options);
      cache := map[];
      data := None;
      loading := false;
      error := None;
    }

    /** `fetchData()`; `requested` says whether the GET went out. */
    method FetchData(token: Option<string>, now: int, response: Response<T>, answeredAt: int) returns (requested: bool)
      modifies this
      ensures (State(), requested) == Fetched(old(State()), settings, url, token, now, response, answeredAt)
    {
      if !Present(token) || url == "" {
        return false;
      }
      var k := CacheKey(settings.key, url, token);
      if k in cache && now - cache[k].timestamp < settings.cacheTime {
        data := Some(cache[k].data);
        return false;
      }
      loading := true;
      error := None;
      match response {
        case Ok(result) =>
          cache := cache[k := Entry(result, answeredAt)];
          data := Some(result);
        case Cancelled =>
        case Failed(message) =>
          error := Some(if message.Some? then message.value else FallbackError);
      }
      loading := false;
      requested := true;
    }

    /** `refetch()`. */
    method Refetch(token: Option<string>, now: int, response: Response<T>, answeredAt: int) returns (requested: bool)
      modifies this
      ensures (State(), requested) == Refetched(old(State()), settings, url, token, now, response, answeredAt)
    {
      cache := cache - {CacheKey(settings.key, url, token)};
      requested := FetchData(token, now, response, answeredAt);
    }

    /** `mutate(newData)`. */
    method Mutate(token: Option<string>, newData: T, now: int)
      modifies this
      ensures State() == Mutated(old(State()), settings, url, token, newData, now)
    {
      data := Some(newData);
      cache := cache[CacheKey(settings.key, url, token) := Entry(newData, now)];
    }
  }
}
