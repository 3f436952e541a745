/** How `Current.load` seeds the crawl (candidatos/current.py): the
    configuration endpoints, the key each configuration is cached under, and
    the `listas_regio_muni` jobs drawn from the `config` document. */
module Seeding {
  import opened Values
  import opened Keys
  import opened Cache
  import opened Jobs

  /** `self.env[field]` used as the start of a URL: it must be a string. */
  function ApiPath(env: Value, field: string): (r: Result<string>)
    ensures r.Ok? <==> env.Obj? && HasKey(env.fields, field) && FieldValue(env.fields, field).Str?
    ensures r.Ok? ==> r.value == FieldValue(env.fields, field).s
    ensures r.Err? ==> r.error == (if !env.Obj? || HasKey(env.fields, field) then TypeError else KeyError(field))
  {
    match Get(env, field)
    case Err(e) => Err(e)
    case Ok(v) => if v.Str? then Ok(v.s) else Err(TypeError)
  }

  /** The configuration types `load` fetches besides `environment-config`. */
  const ConfigTypes: set<string> :=
    {"config", "organizacion-politica", "jurado-electoral", "tipo-eleccion",
     "experiencia-laboral", "cargo-eleccion", "expediente-dadiva",
     "grado-academico", "sentencia-declarada", "ubigeo-consulta"}

  /** The types served under `apiPath2`. */
  const Api2Types: set<string> :=
    {"organizacion-politica", "jurado-electoral", "tipo-eleccion", "cargo-eleccion", "sentencia-declarada"}

  /** The types served under `apiPath3`. */
  const Api3Types: set<string> :=
    {"experiencia-laboral", "expediente-dadiva", "grado-academico", "ubigeo-consulta"}

  /** `_config_urls()`: the dict literal reads `apiPath` first, `apiPath2`
      next and `apiPath3` last, so the first of them that is missing or not a
      string decides the exception. */
  function ConfigUrls(env: Value): Result<map<string, string>>
  {
    match ApiPath(env, "apiPath")
    case Err(e) => Err(e)
    case Ok(a1) =>
      match ApiPath(env, "apiPath2")
      case Err(e) => Err(e)
      case Ok(a2) =>
        match ApiPath(env, "apiPath3")
        case Err(e) => Err(e)
        case Ok(a3) => Ok(UrlMap(a1, a2, a3))
  }

  /** An endpoint of one of the site's services. */
  function Url(base: string, path: string): string
  {
    base + "/api/v1/" + path
  }

  /** The dict literal of `_config_urls()`, given the three API paths. */
  function UrlMap(a1: string, a2: string, a3: string): map<string, string>
  {
    map[
      "config" := Url(a1, "config"),
      "organizacion-politica" := Url(a2, "organizacion-politica"),
      "jurado-electoral" := Url(a2, "jurado-electoral"),
      "tipo-eleccion" := Url(a2, "tipo-eleccion"),
      "experiencia-laboral" := Url(a3, "experiencia-laboral"),
      "cargo-eleccion" := Url(a2, "cargo-eleccion"),
      "expediente-dadiva" := Url(a3, "expediente-dadiva"),
      "grado-academico" := Url(a3, "grado-academico"),
      "sentencia-declarada" := Url(a2, "sentencia-declarada"),
      "ubigeo-consulta" := Url(a3, "ubigeo/consulta")]
  }

  /** The three services split the types other than `config` between them. */
  lemma ConfigTypesByService()
    ensures ConfigTypes == {"config"} + Api2Types + Api3Types
    ensures Api2Types !! Api3Types && "config" !in Api2Types + Api3Types
  {
  }

  /** Which service each type's URL is under. */
  lemma UrlMapServices(a1: string, a2: string, a3: string)
    ensures var u := UrlMap(a1, a2, a3);
            && u.Keys == ConfigTypes
            && u["config"] == Url(a1, "config")
            && (forall t :: t in Api2Types ==> u[t] == Url(a2, t))
            && (forall t :: t in Api3Types && t != "ubigeo-consulta" ==> u[t] == Url(a3, t))
            && u["ubigeo-consulta"] == Url(a3, "ubigeo/consulta")
  {
  }

  /** `_config_urls()` succeeds exactly when the three API paths are strings;
      it then maps every configuration type to `/api/v1/<type>` under its
      service: `config` under `apiPath`, five types under `apiPath2`, four
      under `apiPath3`, `ubigeo-consulta` spelled `ubigeo/consulta`.
      Otherwise the first bad path raises. */
  lemma ConfigUrlsShape(env: Value)
    ensures ConfigUrls(env).Ok? <==>
              ApiPath(env, "apiPath").Ok? && ApiPath(env, "apiPath2").Ok? && ApiPath(env, "apiPath3").Ok?
    ensures ConfigTypes == {"config"} + Api2Types + Api3Types && Api2Types !! Api3Types
    ensures ConfigUrls(env).Ok? ==>
              var u := ConfigUrls(env).value;
              var a1, a2, a3 := ApiPath(env, "apiPath").value, ApiPath(env, "apiPath2").value,
                                ApiPath(env, "apiPath3").value;
              && u.Keys == ConfigTypes
              && u["config"] == Url(a1, "config")
              && (forall t :: t in Api2Types ==> u[t] == Url(a2, t))
              && (forall t :: t in Api3Types && t != "ubigeo-consulta" ==> u[t] == Url(a3, t))
              && u["ubigeo-consulta"] == Url(a3, "ubigeo/consulta")
    ensures ConfigUrls(env).Err? ==>
              ConfigUrls(env).error ==
                if ApiPath(env, "apiPath").Err? then ApiPath(env, "apiPath").error
                else if ApiPath(env, "apiPath2").Err? then ApiPath(env, "apiPath2").error
                else ApiPath(env, "apiPath3").error
  {
    if ConfigUrls(env).Ok? {
      UrlMapServices(ApiPath(env, "apiPath").value, ApiPath(env, "apiPath2").value, ApiPath(env, "apiPath3").value);
    }
  }

  /** What `config(config_type)` does on a cache miss: `environment-config`
      has a fixed URL; any other type looks its URL up in `_config_urls()`
      first, which raises for an unknown type or an incomplete `env`. */
  function ConfigFetch(env: Value, configType: string, response: Fetch): (r: Fetch)
    ensures configType == "environment-config" ==> r == response
    ensures configType != "environment-config" && ConfigUrls(env).Ok? ==>
              r == if configType in ConfigTypes then response else FetchRaised(KeyError(configType))
  {
    if configType == "environment-config" then response
    else
      match ConfigUrls(env)
      case Err(e) => FetchRaised(e)
      case Ok(urls) => if configType in urls then response else FetchRaised(KeyError(configType))
  }

  /** The arguments `cachejson` sees when `config` is called: `self`, then
      the configuration type. */
  function ConfigArgs(configType: string): seq<Arg>
  {
    [Object, Text(configType)]
  }

  /** `config` caches under `current/config/<type>`: `self` is skipped and the
      empty `key_base` takes no dash. */
  lemma {:induction false} ConfigKey(configType: string)
    ensures KeyOf("current", "config", "", ConfigArgs(configType), []) == Ok("current/config/" + configType)
  {
    var args := ConfigArgs(configType);
    assert PositionalPrefix(args, 1) == Ok([]);
    assert [] + [configType] == [configType];
    assert PositionalPrefix(args, 2) == Ok([configType]);
    assert PositionalPieces(args) == Ok([configType]);
    assert KeywordPieces([]) == [];
    assert [configType] + [] == [configType];
    assert Prefix("current", "config", "") == "current/config/";
    FirstPieceSeparator("current", "config", "", configType);
  }

  // ---------------------------------------------------------------------------
  // The pool of `config` calls in `load`

  /** `_config_urls().keys()`, in the order the dict literal lists them,
      which is the order the calls are submitted to the pool. */
  const ConfigOrder: seq<string> :=
    ["config", "organizacion-politica", "jurado-electoral", "tipo-eleccion",
     "experiencia-laboral", "cargo-eleccion", "expediente-dadiva",
     "grado-academico", "sentencia-declarada", "ubigeo-consulta"]

  /** The order lists every type once. */
  lemma ConfigOrderLists()
    ensures forall t :: t in ConfigOrder <==> t in ConfigTypes
    ensures forall i, j :: 0 <= i < j < |ConfigOrder| ==> ConfigOrder[i] != ConfigOrder[j]
  {
  }

  /** The cache key of `config(config_type)`. */
  function ConfigCacheKey(configType: string): string
  {
    "current/config/" + configType
  }

  /** What the pool of `config` calls leaves: the documents returned, by
      type; the exceptions raised, in submission order; and the cache. */
  datatype Pool = Pool(docs: map<string, Value>, errors: seq<Exc>, after: State)

  /** `config(t)` for each `t` of `types`, with `fetch(t)` as what its
      fetch does on a miss (`ConfigFetch` in `load`). Every call runs to its
      end whatever the others do: the pool's `with` block waits for all of
      them before an exception leaves it. */
  function ConfigPool(st: State, types: seq<string>, fetch: string -> Fetch): Pool
  {
    if types == [] then Pool(map[], [], st)
    else
      var p := ConfigPool(st, types[..|types| - 1], fetch);
      var t := types[|types| - 1];
      var s := CachedCallStep(p.after, ConfigCacheKey(t), fetch(t));
      match s.outcome
      case Returned(v) => Pool(p.docs[t := v], p.errors, s.after)
      case Raised(e) => Pool(p.docs, p.errors + [e], s.after)
  }

  /** The pool only adds to the cache, and keeps every known key stored. */
  lemma {:induction false} ConfigPoolGrows(st: State, types: seq<string>, fetch: string -> Fetch)
    ensures Grows(st, ConfigPool(st, types, fetch).after)
    ensures KnownAreStored(st) ==> KnownAreStored(ConfigPool(st, types, fetch).after)
  {
    if types != [] {
      var t := types[|types| - 1];
      ConfigPoolGrows(st, types[..|types| - 1], fetch);
      var p := ConfigPool(st, types[..|types| - 1], fetch);
      var f := fetch(t);
      StepsGrow(p.after, ConfigCacheKey(t), f);
      if KnownAreStored(st) {
        StepsKeepKnownStored(p.after, ConfigCacheKey(t), f);
      }
    }
  }

  /** The keys and files the pool adds are those of its types. */
  lemma {:induction false} ConfigPoolKeys(st: State, types: seq<string>, fetch: string -> Fetch)
    ensures var p := ConfigPool(st, types, fetch);
            && (forall k :: k in p.after.known ==>
                  k in st.known || exists t :: t in types && k == ConfigCacheKey(t))
            && (forall path :: path in p.after.files ==>
                  path in st.files || exists t :: t in types && path == CachePath(ConfigCacheKey(t)))
  {
    if types != [] {
      var init := types[..|types| - 1];
      ConfigPoolKeys(st, init, fetch);
      assert forall u :: u in init ==> u in types;
      assert types[|types| - 1] in types;
    }
  }

  /** Every document the pool returns is cached and known under its type's
      key; when nothing raised, every type has its document. */
  lemma {:induction false} ConfigPoolDocs(st: State, types: seq<string>, fetch: string -> Fetch)
    ensures var p := ConfigPool(st, types, fetch);
            && (forall t :: t in p.docs ==>
                  && t in types && ConfigCacheKey(t) in p.after.known
                  && Lookup(p.after, ConfigCacheKey(t)) == Ok(p.docs[t]))
            && (p.errors == [] ==> forall t :: t in types ==> t in p.docs)
  {
    if types != [] {
      var init := types[..|types| - 1];
      var t := types[|types| - 1];
      ConfigPoolDocs(st, init, fetch);
      var p := ConfigPool(st, init, fetch);
      var s := CachedCallStep(p.after, ConfigCacheKey(t), fetch(t));
      var q := ConfigPool(st, types, fetch);
      StepsGrow(p.after, ConfigCacheKey(t), fetch(t));
      assert forall u :: u in init ==> u in types;
      assert q.after == s.after;
      forall u | u in q.docs
        ensures && u in types && ConfigCacheKey(u) in q.after.known
                && Lookup(q.after, ConfigCacheKey(u)) == Ok(q.docs[u])
      {
        if u != t {
          assert u in p.docs && q.docs[u] == p.docs[u];
        }
      }
      if q.errors == [] {
        assert p.errors == [];
        assert t in q.docs;
      }
    }
  }

  // ---------------------------------------------------------------------------
  // Seeding

  /** `x["idTipoEleccion"]` for one non-`None` entry, as a set element. */
  function TipoOf(x: Value): Result<Param>
  {
    match Get(x, "idTipoEleccion")
    case Err(e) => Err(e)
    case Ok(v) => AsParam(v)
  }

  /** `t in ts` for a Python set: some element is `==` to `t`. */
  predicate PyIn(t: Param, ts: seq<Param>)
  {
    exists k :: 0 <= k < |ts| && PyEq(ts[k], t)
  }

  /** No two elements are `==` in Python's sense. */
  predicate PyDistinct(s: seq<Param>)
  {
    forall i, j :: 0 <= i < j < |s| ==> !PyEq(s[i], s[j])
  }

  /** The set comprehension over `tipoEleccion.values()`, skipping `None`,
      in order of first occurrence: a type `==` to one already collected
      (`True` after `1`, say) is not added again. */
  function TiposOf(xs: seq<Value>): Result<seq<Param>>
  {
    if xs == [] then Ok([])
    else
      match TiposOf(xs[..|xs| - 1])
      case Err(e) => Err(e)
      case Ok(ts) =>
        var x := xs[|xs| - 1];
        if x == Null then Ok(ts)
        else
          match TipoOf(x)
          case Err(e) => Err(e)
          case Ok(t) => Ok(if PyIn(t, ts) then ts else ts + [t])
  }

  /** No election type is listed twice, not even as `1` and `True`. */
  lemma {:induction false} TiposDistinct(xs: seq<Value>)
    requires TiposOf(xs).Ok?
    ensures PyDistinct(TiposOf(xs).value)
  {
    if xs != [] {
      TiposDistinct(xs[..|xs| - 1]);
    }
  }

  /** Every election type collected is the type of a non-`None` entry, and
      every non-`None` entry's type is `==` to one collected. */
  lemma {:induction false} TiposAreTheSet(xs: seq<Value>)
    requires TiposOf(xs).Ok?
    ensures forall t :: t in TiposOf(xs).value ==>
              exists i :: 0 <= i < |xs| && xs[i] != Null && TipoOf(xs[i]) == Ok(t)
    ensures forall i :: 0 <= i < |xs| && xs[i] != Null ==>
              TipoOf(xs[i]).Ok? && PyIn(TipoOf(xs[i]).value, TiposOf(xs).value)
  {
    if xs != [] {
      var n := |xs|;
      var init := xs[..n - 1];
      TiposAreTheSet(init);
      var ts := TiposOf(init).value;
      var all := TiposOf(xs).value;
      assert ts <= all;
      forall t | t in all
        ensures exists i :: 0 <= i < n && xs[i] != Null && TipoOf(xs[i]) == Ok(t)
      {
        if t in ts {
          var i :| 0 <= i < n - 1 && init[i] != Null && TipoOf(init[i]) == Ok(t);
          assert xs[i] == init[i];
        } else {
          assert TipoOf(xs[n - 1]) == Ok(t);
        }
      }
      forall i | 0 <= i < n && xs[i] != Null
        ensures TipoOf(xs[i]).Ok? && PyIn(TipoOf(xs[i]).value, all)
      {
        if i < n - 1 {
          assert init[i] == xs[i];
          var k :| 0 <= k < |ts| && PyEq(ts[k], TipoOf(init[i]).value);
          assert all[k] == ts[k];
        } else if PyIn(TipoOf(xs[i]).value, ts) {
          var k :| 0 <= k < |ts| && PyEq(ts[k], TipoOf(xs[i]).value);
          assert all[k] == ts[k];
        } else {
          assert all[|ts|] == TipoOf(xs[i]).value;
        }
      }
    }
  }

  /** One `proceso...` entry paired with each election type. */
  function PairsFor(p: Param, tipos: seq<Param>): (r: seq<(Param, Param)>)
    ensures |r| == |tipos|
    ensures forall j :: 0 <= j < |tipos| ==> r[j] == (p, tipos[j])
  {
    seq(|tipos|, j requires 0 <= j < |tipos| => (p, tipos[j]))
  }

  predicate IsProceso(field: (string, Value))
  {
    "proceso" <= field.0
  }

  /** The `elecciones_ids` comprehension: for each config entry, for each
      type, the pair when the entry's key starts with `proceso`; the entry's
      `idProcesoElectoral` is read only when there is a type to pair it with. */
  function ProcesoPairs(fields: seq<(string, Value)>, tipos: seq<Param>): Result<seq<(Param, Param)>>
  {
    if fields == [] then Ok([])
    else
      match ProcesoPairs(fields[..|fields| - 1], tipos)
      case Err(e) => Err(e)
      case Ok(ps) =>
        var f := fields[|fields| - 1];
        if IsProceso(f) && tipos != [] then
          match ProcesoId(f)
          case Err(e) => Err(e)
          case Ok(p) => Ok(ps + PairsFor(p, tipos))
        else Ok(ps)
  }

  function CountProceso(fields: seq<(string, Value)>): nat
  {
    if fields == [] then 0
    else CountProceso(fields[..|fields| - 1]) + (if IsProceso(fields[|fields| - 1]) then 1 else 0)
  }

  /** `val["idProcesoElectoral"]` for one `proceso...` entry. */
  function ProcesoId(f: (string, Value)): Result<Param>
  {
    match Get(f.1, "idProcesoElectoral")
    case Err(e) => Err(e)
    case Ok(v) => AsParam(v)
  }

  /** `elecciones_ids` has one pair per `proceso...` entry and type. */
  lemma {:induction false} PairsCount(fields: seq<(string, Value)>, tipos: seq<Param>)
    requires ProcesoPairs(fields, tipos).Ok?
    ensures |ProcesoPairs(fields, tipos).value| == CountProceso(fields) * |tipos|
  {
    if fields != [] {
      var n := |fields|;
      var init := fields[..n - 1];
      PairsCount(init, tipos);
      var c := CountProceso(init);
      if IsProceso(fields[n - 1]) && tipos != [] {
        assert CountProceso(fields) == c + 1;
        MulSucc(c, |tipos|);
      } else {
        assert ProcesoPairs(fields, tipos) == ProcesoPairs(init, tipos);
        assert CountProceso(fields) == c || tipos == [];
      }
    }
  }

  lemma MulSucc(c: nat, t: nat)
    ensures (c + 1) * t == c * t + t
  {
  }

  /** Every pair of `elecciones_ids` joins a `proceso...` entry's id with a
      type. */
  lemma {:induction false} PairsSound(fields: seq<(string, Value)>, tipos: seq<Param>)
    requires ProcesoPairs(fields, tipos).Ok?
    ensures forall pr :: pr in ProcesoPairs(fields, tipos).value ==>
              pr.1 in tipos &&
              exists i :: 0 <= i < |fields| && IsProceso(fields[i]) && ProcesoId(fields[i]) == Ok(pr.0)
  {
    if fields != [] {
      var n := |fields|;
      var init := fields[..n - 1];
      PairsSound(init, tipos);
      var ps := ProcesoPairs(init, tipos).value;
      var all := ProcesoPairs(fields, tipos).value;
      var f := fields[n - 1];
      forall pr | pr in all
        ensures pr.1 in tipos &&
                exists i :: 0 <= i < n && IsProceso(fields[i]) && ProcesoId(fields[i]) == Ok(pr.0)
      {
        if pr in ps {
          var i :| 0 <= i < n - 1 && IsProceso(init[i]) && ProcesoId(init[i]) == Ok(pr.0);
          assert fields[i] == init[i];
        } else {
          var p := ProcesoId(f).value;
          assert all == ps + PairsFor(p, tipos);
          var j :| 0 <= j < |tipos| && PairsFor(p, tipos)[j] == pr;
          assert fields[n - 1] == f;
        }
      }
    }
  }

  /** Every `proceso...` entry is paired with every type. */
  lemma {:induction false} PairsComplete(fields: seq<(string, Value)>, tipos: seq<Param>, i: int, j: int)
    requires ProcesoPairs(fields, tipos).Ok?
    requires 0 <= i < |fields| && IsProceso(fields[i]) && 0 <= j < |tipos|
    ensures ProcesoId(fields[i]).Ok?
    ensures (ProcesoId(fields[i]).value, tipos[j]) in ProcesoPairs(fields, tipos).value
  {
    var n := |fields|;
    var init := fields[..n - 1];
    var ps := ProcesoPairs(init, tipos).value;
    var all := ProcesoPairs(fields, tipos).value;
    if i < n - 1 {
      assert fields[i] == init[i];
      PairsComplete(init, tipos, i, j);
      assert ps <= all;
    } else {
      var p := ProcesoId(fields[i]).value;
      assert all == ps + PairsFor(p, tipos);
      assert all[|ps| + j] == (p, tipos[j]);
    }
  }

  /** The pairs `load` seeds from the `config` document. */
  function LoadPairs(config: Value): Result<seq<(Param, Param)>>
  {
    match Get(config, "tipoEleccion")
    case Err(e) => Err(e)
    case Ok(te) =>
      match DictValues(te)
      case Err(e) => Err(e)
      case Ok(xs) =>
        match TiposOf(xs)
        case Err(e) => Err(e)
        case Ok(tipos) => ProcesoPairs(config.fields, tipos)
  }

  /** The `qput` calls of the seeding loop: one priority-10
      `listas_regio_muni` per pair. */
  function SeedCalls(pairs: seq<(Param, Param)>): (r: seq<(int, Job)>)
    ensures |r| == |pairs|
  {
    seq(|pairs|, i requires 0 <= i < |pairs| => (10, ListasRegioMuni(pairs[i].0, pairs[i].1)))
  }

  /** The seeding calls are the pairs, each as a priority-10
      `listas_regio_muni` job. */
  lemma SeedCallsArePairs(pairs: seq<(Param, Param)>)
    ensures forall c :: c in SeedCalls(pairs) <==>
              c.0 == 10 && c.1.ListasRegioMuni? && (c.1.idProcesoElectoral, c.1.idTipoEleccion) in pairs
  {
    var calls := SeedCalls(pairs);
    forall c ensures c in calls <==>
                     c.0 == 10 && c.1.ListasRegioMuni? && (c.1.idProcesoElectoral, c.1.idTipoEleccion) in pairs
    {
      if c in calls {
        var k :| 0 <= k < |calls| && calls[k] == c;
        assert pairs[k] == (c.1.idProcesoElectoral, c.1.idTipoEleccion);
      }
      if c.0 == 10 && c.1.ListasRegioMuni? && (c.1.idProcesoElectoral, c.1.idTipoEleccion) in pairs {
        var k :| 0 <= k < |pairs| && pairs[k] == (c.1.idProcesoElectoral, c.1.idTipoEleccion);
        assert calls[k] == c;
      }
    }
  }

  /** The election types `load` pairs with, once `LoadPairs` has succeeded. */
  function LoadTipos(config: Value): seq<Param>
    requires LoadPairs(config).Ok?
  {
    TiposOf(DictValues(FieldValue(config.fields, "tipoEleccion")).value).value
  }

  /** Everything `load` queues is a priority-10 `listas_regio_muni` job whose
      key was not known, for a `proceso...` entry and a type of the
      `tipoEleccion` table; there are at most as many items as entries times
      types. */
  lemma LoadQueuesOnlySeeds(config: Value, known: set<string>)
    requires LoadPairs(config).Ok?
    ensures var queued := Enqueued(known, SeedCalls(LoadPairs(config).value));
            && |queued| <= CountProceso(config.fields) * |LoadTipos(config)|
            && forall it :: it in queued ==>
                 && it.priority == 10 && it.fun.ListasRegioMuni?
                 && it.fun.idTipoEleccion in LoadTipos(config)
                 && JobKey(it.fun) !in known
                 && exists i :: 0 <= i < |config.fields| && IsProceso(config.fields[i])
                                && ProcesoId(config.fields[i]) == Ok(it.fun.idProcesoElectoral)
  {
    var pairs := LoadPairs(config).value;
    assert ProcesoPairs(config.fields, LoadTipos(config)) == Ok(pairs);
    PairsCount(config.fields, LoadTipos(config));
    PairsSound(config.fields, LoadTipos(config));
    SeedCallsArePairs(pairs);
    EnqueuedExactly(known, SeedCalls(pairs));
  }

  /** `load` queues every pair of a `proceso...` entry and a type whose key is
      not yet known. */
  lemma LoadQueuesEveryFreshPair(config: Value, known: set<string>, i: int, j: int)
    requires LoadPairs(config).Ok?
    requires 0 <= i < |config.fields| && IsProceso(config.fields[i]) && 0 <= j < |LoadTipos(config)|
    ensures ProcesoId(config.fields[i]).Ok?
    ensures var job := ListasRegioMuni(ProcesoId(config.fields[i]).value, LoadTipos(config)[j]);
            JobKey(job) !in known ==>
              PrioritizedItem(10, job) in Enqueued(known, SeedCalls(LoadPairs(config).value))
  {
    var pairs := LoadPairs(config).value;
    assert ProcesoPairs(config.fields, LoadTipos(config)) == Ok(pairs);
    PairsComplete(config.fields, LoadTipos(config), i, j);
    var job := ListasRegioMuni(ProcesoId(config.fields[i]).value, LoadTipos(config)[j]);
    var k :| 0 <= k < |pairs| && pairs[k] == (job.idProcesoElectoral, job.idTipoEleccion);
    assert SeedCalls(pairs)[k] == (10, job);
    EnqueuedExactly(known, SeedCalls(pairs));
  }
}
