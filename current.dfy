/** The crawler object of candidatos/current.py: a priority queue of jobs, the
    `env` read from the site's environment configuration, and the result
    cache the jobs read through. */
module Crawl {
  import opened Values
  import opened Keys
  import opened Cache
  import opened Jobs
  import opened Seeding

  /** What `load` leaves behind. */
  datatype Loaded = Loaded(outcome: Outcome, cache: State, env: Value, queue: seq<PrioritizedItem>)

  /** What `config(t)` fetches on a miss, for every type `t`, once `env` is
      set: `responses(t)` is what the site would answer. */
  function ConfigFetches(env: Value, responses: string -> Fetch): string -> Fetch
  {
    t => ConfigFetch(env, t, responses(t))
  }

  /** What the part of `load` after `_config_urls()` leaves: its outcome,
      the cache and the queue. */
  datatype Seeded = Seeded(outcome: Outcome, cache: State, queue: seq<PrioritizedItem>)

  /** The pool of `config(t)` calls over `types`, then `configs["config"]`,
      the `(proceso, tipo)` pairs drawn from it, and one `qput` per pair. An
      exception of any pool call leaves `load` once the pool has finished;
      the one raised is the first in submission order. */
  function PoolThenSeed(st: State, queue: seq<PrioritizedItem>, types: seq<string>, fetch: string -> Fetch): Seeded
  {
    var pool := ConfigPool(st, types, fetch);
    if pool.errors != [] then Seeded(Raised(pool.errors[0]), pool.after, queue)
    else if "config" !in pool.docs then Seeded(Raised(KeyError("config")), pool.after, queue)
    else
      match LoadPairs(pool.docs["config"])
      case Err(e) => Seeded(Raised(e), pool.after, queue)
      case Ok(pairs) => Seeded(Returned(Null), pool.after, queue + Enqueued(pool.after.known, SeedCalls(pairs)))
  }

  /** `load()`: read `env` from `environment-config`, build `_config_urls()`,
      then run the pool over its ten types and seed. `responses(t)` stands for
      the site's answer to type `t`. */
  function LoadSpec(st: State, env: Value, queue: seq<PrioritizedItem>,
                    envResponse: Fetch, responses: string -> Fetch): Loaded
  {
    var boot := CachedCallStep(st, ConfigCacheKey("environment-config"), envResponse);
    match boot.outcome
    case Raised(_) => Loaded(boot.outcome, boot.after, env, queue)
    case Returned(v) =>
      match Get(v, "env")
      case Err(e) => Loaded(Raised(e), boot.after, env, queue)
      case Ok(newEnv) =>
        match ConfigUrls(newEnv)
        case Err(e) => Loaded(Raised(e), boot.after, newEnv, queue)
        case Ok(_) =>
          var s := PoolThenSeed(boot.after, queue, ConfigOrder, ConfigFetches(newEnv, responses));
          Loaded(s.outcome, s.cache, newEnv, s.queue)
  }

  /** The pool and the seeding: when they raise, the queue is as it was;
      when they return, every type's document is cached and known, and the
      fresh seeding calls of the cached `config` document are queued. */
  lemma SeedAllOrNothing(st: State, queue: seq<PrioritizedItem>, types: seq<string>, fetch: string -> Fetch)
    ensures var s := PoolThenSeed(st, queue, types, fetch);
            && (s.outcome.Raised? ==> s.queue == queue)
            && (s.outcome.Returned? ==>
                  && s.outcome.value == Null
                  && (forall t :: t in types ==>
                        ConfigCacheKey(t) in s.cache.known && CachePath(ConfigCacheKey(t)) in s.cache.files)
                  && var doc := Lookup(s.cache, ConfigCacheKey("config"));
                     && doc.Ok? && LoadPairs(doc.value).Ok?
                     && s.queue == queue + Enqueued(s.cache.known, SeedCalls(LoadPairs(doc.value).value)))
  {
    ConfigPoolDocs(st, types, fetch);
  }

  /** `load` seeds all or nothing: when it raises, the queue is as it was;
      when it returns, every configuration document is cached and known, and
      it has queued exactly the fresh seeding calls of the cached `config`
      document. */
  lemma LoadSeedsAllOrNothing(st: State, env: Value, queue: seq<PrioritizedItem>,
                              envResponse: Fetch, responses: string -> Fetch)
    ensures var l := LoadSpec(st, env, queue, envResponse, responses);
            && (l.outcome.Raised? ==> l.queue == queue)
            && (l.outcome.Returned? ==>
                  && l.outcome.value == Null
                  && (forall t :: t in ConfigTypes ==>
                        ConfigCacheKey(t) in l.cache.known && CachePath(ConfigCacheKey(t)) in l.cache.files)
                  && var doc := Lookup(l.cache, ConfigCacheKey("config"));
                     && doc.Ok? && LoadPairs(doc.value).Ok?
                     && l.queue == queue + Enqueued(l.cache.known, SeedCalls(LoadPairs(doc.value).value)))
  {
    var boot := CachedCallStep(st, ConfigCacheKey("environment-config"), envResponse);
    if boot.outcome.Returned? && Get(boot.outcome.value, "env").Ok? {
      var newEnv := Get(boot.outcome.value, "env").value;
      if ConfigUrls(newEnv).Ok? {
        SeedAllOrNothing(boot.after, queue, ConfigOrder, ConfigFetches(newEnv, responses));
        ConfigOrderLists();
      }
    }
  }

  /** The pool and the seeding only add to the cache, keep every known key
      stored, and add only the keys of their types. */
  lemma SeedCacheEffects(st: State, queue: seq<PrioritizedItem>, types: seq<string>, fetch: string -> Fetch)
    ensures var s := PoolThenSeed(st, queue, types, fetch);
            && Grows(st, s.cache)
            && (KnownAreStored(st) ==> KnownAreStored(s.cache))
            && (forall k :: k in s.cache.known ==>
                  k in st.known || exists t :: t in types && k == ConfigCacheKey(t))
            && (forall path :: path in s.cache.files ==>
                  path in st.files || exists t :: t in types && path == CachePath(ConfigCacheKey(t)))
  {
    ConfigPoolGrows(st, types, fetch);
    ConfigPoolKeys(st, types, fetch);
  }

  /** `load` only adds to the cache and keeps every known key stored. */
  lemma LoadCacheGrows(st: State, env: Value, queue: seq<PrioritizedItem>,
                       envResponse: Fetch, responses: string -> Fetch)
    ensures var l := LoadSpec(st, env, queue, envResponse, responses);
            && Grows(st, l.cache)
            && (KnownAreStored(st) ==> KnownAreStored(l.cache))
  {
    var key := ConfigCacheKey("environment-config");
    var boot := CachedCallStep(st, key, envResponse);
    StepsGrow(st, key, envResponse);
    if KnownAreStored(st) {
      StepsKeepKnownStored(st, key, envResponse);
    }
    if boot.outcome.Returned? && Get(boot.outcome.value, "env").Ok? {
      var newEnv := Get(boot.outcome.value, "env").value;
      if ConfigUrls(newEnv).Ok? {
        SeedCacheEffects(boot.after, queue, ConfigOrder, ConfigFetches(newEnv, responses));
      }
    }
  }

  /** The keys `load` adds to `_known` are those of `environment-config` and
      of the ten configuration types. */
  lemma LoadKnownKeys(st: State, env: Value, queue: seq<PrioritizedItem>,
                      envResponse: Fetch, responses: string -> Fetch)
    ensures var l := LoadSpec(st, env, queue, envResponse, responses);
            forall k :: k in l.cache.known ==>
              k in st.known || k == ConfigCacheKey("environment-config")
              || exists t :: t in ConfigTypes && k == ConfigCacheKey(t)
  {
    var l := LoadSpec(st, env, queue, envResponse, responses);
    var key := ConfigCacheKey("environment-config");
    var boot := CachedCallStep(st, key, envResponse);
    assert boot.after.known <= st.known + {key};
    if boot.outcome.Returned? && Get(boot.outcome.value, "env").Ok?
       && ConfigUrls(Get(boot.outcome.value, "env").value).Ok? {
      var f := ConfigFetches(Get(boot.outcome.value, "env").value, responses);
      var sd := PoolThenSeed(boot.after, queue, ConfigOrder, f);
      assert l.cache == sd.cache;
      SeedCacheEffects(boot.after, queue, ConfigOrder, f);
      forall k | k in sd.cache.known && k !in boot.after.known
        ensures exists t :: t in ConfigTypes && k == ConfigCacheKey(t)
      {
        var t :| t in ConfigOrder && k == ConfigCacheKey(t);
        ConfigOrderLists();
      }
    } else {
      assert l.cache == boot.after;
    }
  }

  /** The files `load` writes are those of `environment-config` and of the
      ten configuration types. */
  lemma LoadWrittenFiles(st: State, env: Value, queue: seq<PrioritizedItem>,
                         envResponse: Fetch, responses: string -> Fetch)
    ensures var l := LoadSpec(st, env, queue, envResponse, responses);
            forall path :: path in l.cache.files ==>
              path in st.files || path == CachePath(ConfigCacheKey("environment-config"))
              || exists t :: t in ConfigTypes && path == CachePath(ConfigCacheKey(t))
  {
    var l := LoadSpec(st, env, queue, envResponse, responses);
    var key := ConfigCacheKey("environment-config");
    var boot := CachedCallStep(st, key, envResponse);
    assert boot.after.files.Keys <= st.files.Keys + {CachePath(key)};
    if boot.outcome.Returned? && Get(boot.outcome.value, "env").Ok?
       && ConfigUrls(Get(boot.outcome.value, "env").value).Ok? {
      var f := ConfigFetches(Get(boot.outcome.value, "env").value, responses);
      var sd := PoolThenSeed(boot.after, queue, ConfigOrder, f);
      assert l.cache == sd.cache;
      SeedCacheEffects(boot.after, queue, ConfigOrder, f);
      forall path | path in sd.cache.files && path !in boot.after.files
        ensures exists t :: t in ConfigTypes && path == CachePath(ConfigCacheKey(t))
      {
        var t :| t in ConfigOrder && path == CachePath(ConfigCacheKey(t));
        ConfigOrderLists();
      }
    } else {
      assert l.cache == boot.after;
    }
  }

  class Current {
    var queue: seq<PrioritizedItem>   // the `PriorityQueue`'s contents, in `put` order
    var env: Value
    const cache: ResultCache

    constructor (cache: ResultCache)
      ensures queue == [] && env == Obj([]) && this.cache == cache
    {
      queue := [];
      env := Obj([]);
      this.cache := cache;
    }

    /** `cache_key(meth, **kwargs)`: `get_key` on the kind's `cache_base`. */
    static method CacheKey(job: Job) returns (key: string)
      ensures key == JobKey(job)
      ensures var b := BaseOf(job); Prefix(b.dataset, b.category, b.keyBase) + "-" <= key
    {
      var b := BaseOf(job);
      CacheKeyIsGetKey(job);
      var r := GetKey(b.dataset, b.category, b.keyBase, [], KwargsOf(job));
      key := r.value;
    }

    /** `qput`: queue the job unless its key is already in `_known`. Only the
        queue can change. */
    method Qput(priority: int, job: Job)
      modifies this`queue
      ensures queue == old(queue) + Enqueued(cache.known, [(priority, job)])
    {
      var key := CacheKey(job);
      EnqueuedOne(cache.known, priority, job);
      if !cache.IsMemoryCached(key) {
        queue := queue + [PrioritizedItem(priority, job)];
      }
    }

    /** `config(config_type)`: the `cachejson`-wrapped fetch of one
        configuration document, keyed `current/config/<type>`. */
    method Config(configType: string, response: Fetch) returns (out: Outcome)
      modifies cache
      ensures var s := CachedCallStep(old(cache.Snapshot()), ConfigCacheKey(configType),
                                      ConfigFetch(env, configType, response));
              out == s.outcome && cache.Snapshot() == s.after
    {
      ConfigKey(configType);
      var called;
      out, called := cache.CachedCall("current", "config", "", ConfigArgs(configType), [],
                                      ConfigFetch(env, configType, response));
    }

    /** A run of `qput` calls, in order: the closing loop of `load`, and the
        consecutive `qput` lines in the fan-out loops' bodies. */
    method QputAll(calls: seq<(int, Job)>)
      modifies this`queue
      ensures queue == old(queue) + Enqueued(cache.known, calls)
    {
      var i := 0;
      while i < |calls|
        invariant 0 <= i <= |calls|
        invariant queue == old(queue) + Enqueued(cache.known, calls[..i])
      {
        Qput(calls[i].0, calls[i].1);
        EnqueuedStep(cache.known, calls, i);
        AppendAssoc(old(queue), Enqueued(cache.known, calls[..i]), Enqueued(cache.known, [calls[i]]));
        i := i + 1;
      }
      assert calls[..|calls|] == calls;
    }

    /** The thread pool of `load`: `config(t)` for every type of
        `_config_urls()`, in submission order, collecting the documents
        returned and the exceptions raised. */
    method RunConfigs(types: seq<string>, responses: string -> Fetch)
      returns (docs: map<string, Value>, errors: seq<Exc>)
      modifies cache
      ensures Pool(docs, errors, cache.Snapshot()) ==
              ConfigPool(old(cache.Snapshot()), types, ConfigFetches(env, responses))
    {
      docs, errors := map[], [];
      var i := 0;
      while i < |types|
        invariant 0 <= i <= |types|
        invariant Pool(docs, errors, cache.Snapshot()) ==
                  ConfigPool(old(cache.Snapshot()), types[..i], ConfigFetches(env, responses))
      {
        var t := types[i];
        assert types[..i + 1][..i] == types[..i];
        var out := Config(t, responses(t));
        match out {
          case Returned(v) => docs := docs[t := v];
          case Raised(e) => errors := errors + [e];
        }
        i := i + 1;
      }
      assert types[..|types|] == types;
    }

    /** `load()`; `responses(t)` stands for the site's answer to `config(t)`. */
    method Load(envResponse: Fetch, responses: string -> Fetch) returns (out: Outcome)
      modifies this, cache
      ensures Loaded(out, cache.Snapshot(), env, queue) ==
              LoadSpec(old(cache.Snapshot()), old(env), old(queue), envResponse, responses)
    {
      out := Config("environment-config", envResponse);
      if out.Raised? {
        return;
      }
      var e := Get(out.value, "env");
      if e.Err? {
        return Raised(e.error);
      }
      env := e.value;
      // the thread pool is fed from `_config_urls().keys()`
      var urls := ConfigUrls(env);
      if urls.Err? {
        return Raised(urls.error);
      }
      var docs, errors := RunConfigs(ConfigOrder, responses);
      if errors != [] {
        return Raised(errors[0]);
      }
      if "config" !in docs {
        return Raised(KeyError("config"));
      }
      var pairs := LoadPairs(docs["config"]);
      if pairs.Err? {
        return Raised(pairs.error);
      }
      QputAll(SeedCalls(pairs.value));
      out := Returned(Null);
    }

    /** `listas_regio_muni`: the lists of one process and election type; for
        each list, jobs for its plan and its expediente. */
    method ListasRegioMuni(idProcesoElectoral: Param, idTipoEleccion: Param, response: Fetch)
      returns (out: Outcome)
      modifies this`queue, cache
      ensures Run(out, cache.Snapshot(), queue) ==
              RunJob(Jobs.ListasRegioMuni(idProcesoElectoral, idTipoEleccion), old(cache.Snapshot()), old(queue), response)
    {
      var job := Jobs.ListasRegioMuni(idProcesoElectoral, idTipoEleccion);
      var key := CacheKey(job);
      var called;
      out, called := cache.GetValue(key, Shaped(job, response));
      if out.Raised? || out.value == Null {
        return;
      }
      var data := Get(out.value, "data");
      if data.Err? {
        return Raised(data.error);
      }
      var listas := Iterate(data.value);
      if listas.Err? {
        return Raised(listas.error);
      }
      var r := QputItems(ListasLoop(idProcesoElectoral), listas.value);
      if r.Err? {
        out := Raised(r.error);
      }
    }

    /** The fan-out loop of `listas_regio_muni` or `expediente_detalle`: for
        each item, its lookups and then its run of `qput` calls; the loop stops
        at the first item whose lookups raise, keeping what it queued before. */
    method QputItems(loop: Loop, xs: seq<Value>) returns (r: Result<bool>)
      modifies this`queue
      ensures var f := LoopCalls(loop, xs);
              && queue == old(queue) + Enqueued(cache.known, f.calls)
              && (r.Err? <==> f.Stopped?)
              && (f.Stopped? ==> r.error == f.error)
    {
      ghost var done: seq<(int, Job)> := [];
      var i := 0;
      while i < |xs|
        invariant 0 <= i <= |xs|
        invariant LoopCalls(loop, xs[..i]) == Finished(done)
        invariant queue == old(queue) + Enqueued(cache.known, done)
      {
        var cs := QputItem(loop, xs[i]);
        if cs.Err? {
          LoopStopsAt(loop, xs, i);
          return Err(cs.error);
        }
        LoopQueueStep(cache.known, loop, xs, i, done, cs.value, old(queue));
        done := done + cs.value;
        i := i + 1;
      }
      assert xs[..|xs|] == xs;
      r := Ok(true);
    }

    /** One pass of a fan-out loop's body: the item's lookups, then its run
        of `qput` calls; it returns the calls, or the exception a lookup
        raised before any of them. */
    method QputItem(loop: Loop, x: Value) returns (cs: Result<seq<(int, Job)>>)
      modifies this`queue
      ensures cs == ItemCalls(loop, x)
      ensures cs.Err? ==> queue == old(queue)
      ensures cs.Ok? ==> queue == old(queue) + Enqueued(cache.known, cs.value)
    {
      cs := ItemCalls(loop, x);
      if cs.Ok? {
        QputAll(cs.value);
      }
    }

    /** `expediente_detalle`: one expediente, shape-checked for `datoGeneral`;
        for each of its candidates, four candidate jobs. */
    method ExpedienteDetalle(expediente: Param, response: Fetch) returns (out: Outcome)
      modifies this`queue, cache
      ensures Run(out, cache.Snapshot(), queue) ==
              RunJob(Jobs.ExpedienteDetalle(expediente), old(cache.Snapshot()), old(queue), response)
    {
      var job := Jobs.ExpedienteDetalle(expediente);
      var key := CacheKey(job);
      var called;
      out, called := cache.GetValue(key, Shaped(job, response));
      if out.Raised? || out.value == Null {
        return;
      }
      var ec := Get(out.value, "expedienteCandidato");
      if ec.Err? {
        return Raised(ec.error);
      }
      var candidatos := Iterate(ec.value);
      if candidatos.Err? {
        return Raised(candidatos.error);
      }
      var r := QputItems(DetalleLoop, candidatos.value);
      if r.Err? {
        out := Raised(r.error);
      }
    }

    /** `candidato_hojavida`: one hoja de vida; its `datoGeneral` names the
        plan job to queue. */
    method CandidatoHojavida(idHojaVida: Param, response: Fetch) returns (out: Outcome)
      modifies this`queue, cache
      ensures Run(out, cache.Snapshot(), queue) ==
              RunJob(Jobs.CandidatoHojavida(idHojaVida), old(cache.Snapshot()), old(queue), response)
    {
      var job := Jobs.CandidatoHojavida(idHojaVida);
      var key := CacheKey(job);
      var called;
      out, called := cache.GetValue(key, Shaped(job, response));
      if out.Raised? || out.value == Null {
        return;
      }
      var calls := HojavidaCalls(out.value);
      if calls.Err? {
        return Raised(calls.error);
      }
      QputAll(calls.value);
    }

    /** The jobs that only read through the cache: `detalle_plan`,
        `candidato_plan`, `expediente_candidatos`, `expediente_hijo`,
        `expediente_directo`, `candidato_anotacion_marginal`,
        `candidato_expedientes_relacionados`, `candidato_requisito`. */
    method FetchOnly(job: Job, response: Fetch) returns (out: Outcome)
      requires !(job.ListasRegioMuni? || job.ExpedienteDetalle? || job.CandidatoHojavida?)
      modifies cache
      ensures Run(out, cache.Snapshot(), queue) == RunJob(job, old(cache.Snapshot()), queue, response)
    {
      var key := CacheKey(job);
      var called;
      out, called := cache.GetValue(key, Shaped(job, response));
    }

    /** `item.fun()`: run a queued job, with its HTTP exchange given by
        `response`. */
    method Call(job: Job, response: Fetch) returns (out: Outcome)
      modifies this`queue, cache
      ensures Run(out, cache.Snapshot(), queue) == RunJob(job, old(cache.Snapshot()), old(queue), response)
    {
      match job
      case ListasRegioMuni(p, t) =>
        out := ListasRegioMuni(p, t, response);
      case ExpedienteDetalle(e) =>
        out := ExpedienteDetalle(e, response);
      case CandidatoHojavida(h) =>
        out := CandidatoHojavida(h, response);
      case _ =>
        out := FetchOnly(job, response);
    }
  }
}
