/** The read-through result cache of candidatos/cache.py: cache files on disk
    keyed by job key, and the process-wide `_known` set of keys whose job has
    produced a value. */
module Cache {
  import opened Values
  import opened Keys

  /** What the wrapped fetch `fn()` does when called: returns a decoded JSON
      value or raises (an `HttpStatusError` from the response hook, an
      `AssertionError` from a shape check, ...). */
  datatype Fetch = Fetched(v: Value) | FetchRaised(e: Exc)

  /** The cache file of a key, relative to the project directory. */
  function CachePath(key: string): string
  {
    "_cache/" + key + ".json"
  }

  /** Distinct keys never share a cache file. */
  lemma CachePathInjective(k1: string, k2: string)
    requires CachePath(k1) == CachePath(k2)
    ensures k1 == k2
  {
    var p := CachePath(k1);
    assert k1 == p[7..|p| - 5];
    assert k2 == CachePath(k2)[7..|CachePath(k2)| - 5];
  }

  /** The cache as a value: decoded file contents by path, and `_known`. */
  datatype State = State(files: map<string, Value>, known: set<string>)

  /** `get_from_cache`. */
  function Lookup(st: State, key: string): Result<Value>
  {
    if CachePath(key) in st.files then Ok(st.files[CachePath(key)]) else Err(CacheNotFound)
  }

  /** One call: its outcome, whether it called `fn`, and the cache afterwards. */
  datatype Step = Step(outcome: Outcome, called: bool, after: State)

  /** `get_value(key, fn)`. A hit returns the cached value; a miss calls `fn`
      once and writes what it returns. When `fn` raises `HttpStatusError`, the
      handler logs it and falls through to the `cache_store` log line, which
      reads `pp` before any assignment and raises `UnboundLocalError`; any other
      exception of `fn` propagates. The key joins `_known` only when a value is
      returned. */
  function GetValueStep(st: State, key: string, fetch: Fetch): Step
  {
    match Lookup(st, key)
    case Ok(v) => Step(Returned(v), false, State(st.files, st.known + {key}))
    case Err(_) =>
      match fetch
      case Fetched(v) =>
        Step(Returned(v), true, State(st.files[CachePath(key) := v], st.known + {key}))
      case FetchRaised(e) =>
        Step(Raised(if e == HttpStatusError then UnboundLocalError else e), true, st)
  }

  /** `return_cache`, the function `cachejson` wraps around a fetch, once its
      key has been computed: like `get_value`, except that every exception of
      `fn` propagates unchanged. */
  function CachedCallStep(st: State, key: string, fetch: Fetch): Step
  {
    match Lookup(st, key)
    case Ok(v) => Step(Returned(v), false, State(st.files, st.known + {key}))
    case Err(_) =>
      match fetch
      case Fetched(v) =>
        Step(Returned(v), true, State(st.files[CachePath(key) := v], st.known + {key}))
      case FetchRaised(e) => Step(Raised(e), true, st)
  }

  /** Every key in `_known` has its cache file. */
  predicate KnownAreStored(st: State)
  {
    forall k :: k in st.known ==> CachePath(k) in st.files
  }

  /** `after` only adds to `before`: no file is removed or rewritten, no key
      leaves `_known`. */
  predicate Grows(before: State, after: State)
  {
    && before.known <= after.known
    && (forall p :: p in before.files ==> p in after.files && after.files[p] == before.files[p])
  }

  // ---------------------------------------------------------------------------
  // The three outcomes of `get_value`

  /** A hit returns the stored value, does not call `fn`, writes nothing and
      adds the key to `_known`. */
  lemma GetValueHit(st: State, key: string, fetch: Fetch)
    requires CachePath(key) in st.files
    ensures GetValueStep(st, key, fetch) ==
            Step(Returned(st.files[CachePath(key)]), false, State(st.files, st.known + {key}))
  {
  }

  /** A miss whose fetch succeeds stores exactly the fetched value under the
      key, returns it, and adds the key to `_known`; the stored value reads
      back unchanged. */
  lemma GetValueMissFetched(st: State, key: string, v: Value)
    requires CachePath(key) !in st.files
    ensures var s := GetValueStep(st, key, Fetched(v));
            && s.outcome == Returned(v) && s.called
            && s.after.files == st.files[CachePath(key) := v]
            && s.after.known == st.known + {key}
            && Lookup(s.after, key) == Ok(v)
  {
  }

  /** A miss whose fetch raises writes nothing and leaves `_known` alone; an
      `HttpStatusError` ends in `UnboundLocalError`, anything else propagates. */
  lemma GetValueMissRaised(st: State, key: string, e: Exc)
    requires CachePath(key) !in st.files
    ensures var s := GetValueStep(st, key, FetchRaised(e));
            && s.after == st
            && s.outcome == Raised(if e == HttpStatusError then UnboundLocalError else e)
  {
  }

  /** `get_value` never returns `None` for a failed fetch: it returns exactly
      when the key was cached or the fetch produced a value; the key then joins
      `_known`, and otherwise nothing changes. */
  lemma GetValueReturnsIffValue(st: State, key: string, fetch: Fetch)
    ensures var s := GetValueStep(st, key, fetch);
            && (s.outcome.Returned? <==> CachePath(key) in st.files || fetch.Fetched?)
            && (s.outcome.Returned? ==> s.after.known == st.known + {key})
            && (s.outcome.Raised? ==> s.after == st)
  {
  }

  /** `get_value` and `cachejson` differ only in what an `HttpStatusError`
      from the fetch turns into. */
  lemma WrappersAgree(st: State, key: string, fetch: Fetch)
    ensures fetch != FetchRaised(HttpStatusError) ==>
              GetValueStep(st, key, fetch) == CachedCallStep(st, key, fetch)
    ensures var g, c := GetValueStep(st, key, fetch), CachedCallStep(st, key, fetch);
            g.after == c.after && g.called == c.called
  {
  }

  /** Neither wrapper removes a file, rewrites one, or forgets a key. */
  lemma StepsGrow(st: State, key: string, fetch: Fetch)
    ensures Grows(st, GetValueStep(st, key, fetch).after)
    ensures Grows(st, CachedCallStep(st, key, fetch).after)
  {
  }

  /** Both wrappers keep every known key backed by a cache file. */
  lemma StepsKeepKnownStored(st: State, key: string, fetch: Fetch)
    requires KnownAreStored(st)
    ensures KnownAreStored(GetValueStep(st, key, fetch).after)
    ensures KnownAreStored(CachedCallStep(st, key, fetch).after)
  {
  }

  /** Once a call for a key has returned, every later call for it returns the
      same value without calling `fn` again, whatever `fn` would do. */
  lemma GetValueAtMostOnceFetch(st: State, key: string, f1: Fetch, f2: Fetch)
    requires GetValueStep(st, key, f1).outcome.Returned?
    ensures var s1 := GetValueStep(st, key, f1);
            var s2 := GetValueStep(s1.after, key, f2);
            && s2.outcome == s1.outcome && !s2.called && s2.after == s1.after
  {
  }

  /** The cache as the running process holds it. */
  class ResultCache {
    var files: map<string, Value>   // decoded contents of the files under `_cache/`
    var known: set<string>          // `_known`

    function Snapshot(): State
      reads this
    {
      State(files, known)
    }

    /** A fresh process: whatever files earlier runs left, nothing known yet. */
    constructor (existing: map<string, Value>)
      ensures files == existing && known == {}
    {
      files := existing;
      known := {};
    }

    /** `is_memory_cached`. */
    function IsMemoryCached(key: string): (r: bool)
      reads this
      ensures r <==> key in Snapshot().known
    {
      key in known
    }

    /** `get_from_cache`: the decoded file, or `CacheNotFound`. */
    function GetFromCache(key: string): (r: Result<Value>)
      reads this
      ensures r == Lookup(Snapshot(), key)
    {
      var p := CachePath(key);
      if p in files then Ok(files[p]) else Err(CacheNotFound)
    }

    /** `get_value(key, fn)`, with `fn`'s behaviour given by `fetch`; `called`
        says whether `fn` was invoked. */
    method GetValue(key: string, fetch: Fetch) returns (out: Outcome, called: bool)
      modifies this
      ensures Step(out, called, Snapshot()) == GetValueStep(old(Snapshot()), key, fetch)
    {
      called := false;
      var res: Value;
      var cached := GetFromCache(key);
      if cached.Ok? {
        res := cached.value;
      } else {
        // cache miss
        called := true;
        match fetch
        case FetchRaised(e) =>
          if e == HttpStatusError {
            // logged; the `cache_store` log line then reads the unassigned `pp`
            return Raised(UnboundLocalError), called;
          }
          return Raised(e), called;
        case Fetched(v) =>
          res := v;
          files := files[CachePath(key) := res];
      }
      // `good_result` holds on every path that reaches here
      known := known + {key};
      out := Returned(res);
    }

    /** `return_cache`: the function `cachejson(dataset, category, key_base)`
        puts around a fetch, called with `args` and `kwargs`. A key that cannot
        be built raises before the cache is consulted. */
    method CachedCall(dataset: string, category: string, keyBase: string,
                      args: seq<Arg>, kwargs: seq<Binding>, fetch: Fetch)
      returns (out: Outcome, called: bool)
      modifies this
      ensures var key := KeyOf(dataset, category, keyBase, args, kwargs);
              if key.Err? then out == Raised(key.error) && !called && Snapshot() == old(Snapshot())
              else Step(out, called, Snapshot()) == CachedCallStep(old(Snapshot()), key.value, fetch)
    {
      var k := GetKey(dataset, category, keyBase, args, kwargs);
      if k.Err? {
        return Raised(k.error), false;
      }
      var key := k.value;
      called := false;
      var res: Value;
      var cached := GetFromCache(key);
      if cached.Ok? {
        res := cached.value;
      } else {
        called := true;
        match fetch
        case FetchRaised(e) =>
          return Raised(e), called;
        case Fetched(v) =>
          res := v;
          files := files[CachePath(key) := res];
      }
      known := known + {key};
      out := Returned(res);
    }
  }
}
