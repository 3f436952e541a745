# Crawler cache and job queue of the candidate-data scraper

This project models the core of a crawler for the Peruvian electoral
platform's candidate data. Two Python files make up that core.

- `candidatos/cache.py` is a JSON result cache. It stores one file per
  cache key under `_cache/`. It also keeps `_known`, an in-memory set of
  the keys whose value this run has already produced. `get_key` builds a
  key from a `(dataset, category, key_base)` triple plus the call's
  positional and keyword arguments. `get_value` and the `cachejson`
  decorator read through the cache.
- `candidatos/current.py` is the crawler object `Current`. `load` reads the
  site's environment configuration and the `config` document. It then
  queues one `listas_regio_muni` job per `(proceso electoral, tipo de
  elección)` pair. Each job fetches through `get_value` and then queues
  child jobs: lists lead to plans and expedientes, expedientes lead to
  candidates, and hojas de vida lead to plans. A job is put on the queue
  only when its key is not yet in `_known`.

The Dafny modules follow that structure:

- `Values` (`values.dfy`) holds the parsed JSON values and Python's
  exceptions as a datatype. It also holds dictionary indexing and
  iteration with their errors, and `str()` of keyword values.
- `Keys` (`keys.dfy`) holds `get_key` as a method with two loops,
  specified by the function `KeyOf`. It also defines the order of keyword
  names under `sorted`.
- `Cache` (`cache.dfy`) holds the cache. Its state is the files on disk,
  as a map from path to value, plus `_known`. `GetValueStep` and
  `CachedCallStep` specify one call of `get_value` or of a `cachejson`
  wrapper. The class `ResultCache` holds the two pieces of state as fields
  and implements both calls as methods.
- `Jobs` (`jobs.dfy`) holds the eleven job kinds, each with its
  `cache_base` and its keyword arguments, and `PrioritizedItem`. It also
  holds the response checks that the fetches assert, and the child jobs
  each response spawns. `RunJob` specifies one job's run: outcome, cache
  and queue.
- `Seeding` (`seeding.dfy`) holds `_config_urls`, the `config` job's key,
  and the seeding pairs that `load` derives from the `config` document.
- `Crawl` (`current.dfy`) holds the class `Current`. Its queue is a
  sequence of `PrioritizedItem` and its `env` is a JSON value. Each method
  is proved against `RunJob` or `LoadSpec`.

A fetch is not performed. Each operation takes the response as a `Fetch`
parameter: either a value or the exception the fetch raised.

## Model

| member | source | states |
|---|---|---|
| Keys.GetKey | candidatos/cache.py:96-110 | returns exactly `KeyOf`: the `dataset/category/key_base` prefix, then the positional pieces, then `name=value` for each keyword in sorted order, each piece preceded by `-` unless the key so far is empty or ends in `/`; a non-string positional argument raises `TypeError` |
| Keys.AppendPositional | candidatos/cache.py:100-105 | the first loop appends every positional argument except a non-scalar first one; it raises `TypeError` exactly when the pieces cannot be built |
| Keys.AppendKeywords | candidatos/cache.py:106-109 | the second loop appends `name=value` for each binding in the order given |
| Keys.AppendPiece | candidatos/cache.py:103-105 | one step of either loop: a dash only when the key is non-empty and does not end in `/`, then the piece |
| Keys.SortPermutes | candidatos/cache.py:106 | `sorted(kwargs.items())` is a permutation of the keyword arguments |
| Keys.SortSorts | candidatos/cache.py:106 | with distinct names, the sorted keywords are strictly increasing by name |
| Keys.StrictlySortedUnique | candidatos/cache.py:106 | two strictly sorted arrangements of the same bindings are equal, so the sort has one possible result |
| Keys.SortIgnoresCallOrder | candidatos/cache.py:106 | the sorted keywords do not depend on the order in which the caller passed them |
| Keys.KeyIgnoresKeywordOrder | candidatos/cache.py:96-110 | the cache key does not depend on the order of the keyword arguments |
| Keys.KeyStartsWithPrefix | candidatos/cache.py:99-110 | every key `get_key` builds starts with `dataset/category/key_base` |
| Keys.PositionalPiecesShape | candidatos/cache.py:100-105 | the positional part succeeds exactly when every kept argument is a string; then it is those strings in order; otherwise the error is `TypeError` |
| Keys.FirstPieceSeparator | candidatos/cache.py:103-105 | the first piece gets a dash exactly when `key_base` is non-empty and does not end in `/` |
| Keys.KeywordOnlyKey | candidatos/cache.py:96-110 | a single keyword after a plain `key_base` gives `prefix-name=value` |
| Keys.StrLtTransitive | candidatos/cache.py:106 | Python's string order, used by `sorted`, is transitive |
| Keys.StrLtTotal | candidatos/cache.py:106 | any two distinct names are ordered one way or the other |
| Cache.CachePathInjective | candidatos/cache.py:90-93 | distinct keys give distinct path strings `_cache/<key>.json` in the model |
| Cache.GetValueHit | candidatos/cache.py:46-50 | on a cache hit `get_value` returns the stored value, calls no fetch, leaves the files alone and adds the key to `_known` |
| Cache.GetValueMissFetched | candidatos/cache.py:51-68 | on a miss with a successful fetch it returns the value, writes it to the key's file and adds the key to `_known`; a later read finds that value |
| Cache.GetValueMissRaised | candidatos/cache.py:51-65 | on a miss whose fetch raises, nothing changes; an HTTP status error surfaces as `UnboundLocalError`, any other exception propagates |
| Cache.GetValueReturnsIffValue | candidatos/cache.py:46-68 | `get_value` returns exactly when the file exists or the fetch succeeds; a return adds the key to `_known`, a raise changes nothing |
| Cache.WrappersAgree | candidatos/cache.py:21-68 | `cachejson` and `get_value` agree except on an HTTP status error, and leave the same state either way |
| Cache.StepsGrow | candidatos/cache.py:21-68 | neither call removes a file or a known key, and neither overwrites an existing file |
| Cache.StepsKeepKnownStored | candidatos/cache.py:21-68 | every key in `_known` has a cache file, before and after either call |
| Cache.GetValueAtMostOnceFetch | candidatos/cache.py:46-68 | once `get_value` has returned for a key, calling it again fetches nothing and returns the same value |
| Cache.ResultCache.constructor | candidatos/cache.py:14 | the cache starts with the files already on disk and an empty `_known` |
| Cache.ResultCache.IsMemoryCached | candidatos/cache.py:71-72 | true exactly when the key is in `_known` |
| Cache.ResultCache.GetFromCache | candidatos/cache.py:82-87 | the stored value, or `CacheNotFound` when the key has no file |
| Cache.ResultCache.GetValue | candidatos/cache.py:46-68 | outcome, whether the fetch was called, and new state are those of `GetValueStep` |
| Cache.ResultCache.CachedCall | candidatos/cache.py:21-43 | builds the key first; a key error raises before any lookup; otherwise outcome, fetch call and new state are those of `CachedCallStep` |
| Jobs.SortedKwargsIsTheSort | candidatos/current.py:493-496 | for every job kind, `sorted` puts the keyword arguments in the stated order: `listas_regio_muni` keeps its call order, `expediente_candidatos` and `candidato_requisito` swap theirs, `candidato_plan` becomes organización, proceso, solicitud, tipo |
| Jobs.CacheKeyIsGetKey | candidatos/current.py:493-496 | the job's key is `get_key` on its `cache_base` and keyword arguments, never an error, and it starts with `current/category/key_base-` |
| Jobs.ItemOrderIgnoresJob | candidatos/current.py:11-14 | queue items compare by priority alone, so replacing either job changes no comparison; `<` is irreflexive, transitive and total up to `==`, and `==` is transitive |
| Jobs.EnqueuedExactly | candidatos/current.py:22-27 | a run of `qput` calls queues exactly the calls whose key is not in `_known`, with their priorities |
| Jobs.FreshJobQueuedTwice | candidatos/current.py:22-27 | `qput` does not add to `_known`, so the same fresh job put twice is queued twice |
| Jobs.PagesCheckAccepts | candidatos/current.py:416-418 | for integer fields, the `expediente_hijo` and `expediente_directo` check accepts exactly `count == 0 and totalPages == 0`, or `totalPages == 1` |
| Jobs.RejectedResponseNotCached | candidatos/current.py:357-455 | a response that fails its job's check is never written to the cache; on a miss, the job raises and nothing changes |
| Jobs.DetalleNeedsDatoGeneral | candidatos/current.py:365 | an `expediente_detalle` response is kept exactly when it has `datoGeneral` |
| Jobs.HojavidaShape | candidatos/current.py:97-106 | a hoja de vida spawns one `candidato_plan` job at priority 20, built from the four ids in `datoGeneral`, and raises when one is missing |
| Jobs.ListasItemShape | candidatos/current.py:210-223 | each list spawns, in order, the plan (30), detalle (40), directo (50), candidatos (60) and hijo (90) jobs of its plan and expediente |
| Jobs.DetalleItemShape | candidatos/current.py:370-390 | each candidate spawns, in order, hoja de vida (12), anotación marginal (14), expedientes relacionados (16) and requisito (18) jobs |
| Jobs.IntField | candidatos/current.py:372-374 | reads an integer field, and fails exactly when the value is not a dictionary, the key is missing or the field is not an integer |
| Jobs.LoopFinishes | candidatos/current.py:210-223 | a fan-out loop completes exactly when every element yields its calls |
| Jobs.LoopCallsPerElement | candidatos/current.py:371-390 | a completed loop makes exactly `width × elements` calls, each one from some element |
| Jobs.LoopStopsAtFirstError | candidatos/current.py:210-223 | a loop that raises does so at some element; the calls already made are those of the elements before it |
| Jobs.LoopStopsAt | candidatos/current.py:371-390 | when the elements before `i` succeed and element `i` fails, the loop raises that error with their calls |
| Jobs.RunOnlyAppendsFresh | candidatos/current.py:22-27 | a job only appends to the queue; everything it appends has a key not in `_known`; it never queues itself |
| Jobs.FailedFetchChangesNothing | candidatos/cache.py:51-65 | a job whose fetch raises on a miss raises and leaves the cache and the queue as they were |
| Jobs.CachedJobReplays | candidatos/cache.py:46-50 | a job whose key is cached runs the same whatever the network would answer |
| Seeding.ApiPath | candidatos/current.py:498-541 | reads one `apiPath` entry of `env`: `KeyError` when it is missing, `TypeError` when `env` is not a dictionary or the entry is not a string |
| Seeding.ConfigUrlsShape | candidatos/current.py:498-541 | `_config_urls` succeeds exactly when `apiPath`, `apiPath2` and `apiPath3` are all strings; it then maps `config` under `apiPath`, the five types of `Api2Types` under `apiPath2`, `experiencia-laboral`, `expediente-dadiva` and `grado-academico` under `apiPath3`, and `ubigeo-consulta` to `apiPath3` + `/api/v1/ubigeo/consulta`; otherwise it raises the error of the first bad entry in that order |
| Seeding.ConfigTypesByService | candidatos/current.py:498-541 | the ten config types are `config`, the five types served by `apiPath2` and the four served by `apiPath3`, with no type in two groups |
| Seeding.UrlMapServices | candidatos/current.py:498-541 | the URL map has exactly the ten config types as keys, each one under the base of its service |
| Seeding.ConfigOrderLists | candidatos/current.py:498-541 | the dictionary's key order lists each of the ten config types exactly once |
| Seeding.ConfigPoolGrows | candidatos/current.py:31-39 | the pool of `config` calls removes and overwrites nothing in the cache, and keeps every known key stored |
| Seeding.ConfigPoolKeys | candidatos/current.py:31-39 | the only keys and files the pool adds are `current/config/<t>` for its types `t` |
| Seeding.ConfigPoolDocs | candidatos/current.py:31-39 | every document the pool returns belongs to one of its types and is cached and known under that type's key; when no call raised, every type has its document |
| Seeding.ConfigFetch | candidatos/current.py:60-70 | `environment-config` is fetched from its fixed URL; any other type needs an entry in `_config_urls`, or raises `KeyError` |
| Seeding.ConfigKey | candidatos/current.py:60 | `config(config_type)` caches under `current/config/<config_type>` |
| Seeding.TiposDistinct | candidatos/current.py:40-44 | the election types collected by `load` form a Python set: no two of them are `==`, so `1` and `True` are never both kept |
| Seeding.TiposAreTheSet | candidatos/current.py:40-44 | every collected type is the `idTipoEleccion` of some non-null entry of `tipoEleccion`, and every non-null entry's `idTipoEleccion` is `==` to a collected type |
| Seeding.PairsFor | candidatos/current.py:45-50 | one `(proceso, tipo)` pair per election type |
| Seeding.PairsCount | candidatos/current.py:45-50 | there are `procesos × tipos` pairs |
| Seeding.PairsSound | candidatos/current.py:45-50 | every pair joins a collected type with the id of a `proceso…` entry |
| Seeding.PairsComplete | candidatos/current.py:45-50 | every `proceso…` entry is paired with every collected type |
| Seeding.SeedCallsArePairs | candidatos/current.py:51-57 | the seeding calls are exactly the `listas_regio_muni` jobs at priority 10 for the pairs |
| Seeding.LoadQueuesOnlySeeds | candidatos/current.py:40-57 | `load` queues at most `procesos × tipos` items, all of them fresh `listas_regio_muni` jobs for a proceso and a collected type |
| Seeding.LoadQueuesEveryFreshPair | candidatos/current.py:40-57 | every fresh `(proceso, tipo)` job is queued |
| Crawl.SeedAllOrNothing | candidatos/current.py:31-57 | after `_config_urls()`: when the pool or the seeding raises, the queue is unchanged; when they return, every type's document is cached and known, and exactly the fresh seeding calls of the cached `config` document are queued |
| Crawl.SeedCacheEffects | candidatos/current.py:31-39 | the pool and the seeding only add to the cache, keep every known key stored, and add only the keys and files of their types |
| Crawl.LoadSeedsAllOrNothing | candidatos/current.py:29-58 | `load` either raises with the queue unchanged, or returns `None` with all ten config documents cached and known, having queued exactly the fresh seeding calls of the cached `config` document |
| Crawl.LoadCacheGrows | candidatos/current.py:29-58 | `load` removes and overwrites nothing in the cache, and keeps every known key stored |
| Crawl.LoadKnownKeys | candidatos/current.py:29-58 | the only keys `load` adds to `_known` are those of `environment-config` and of the ten config types |
| Crawl.LoadWrittenFiles | candidatos/current.py:29-58 | the only files `load` writes are those of `environment-config` and of the ten config types |
| Crawl.Current.constructor | candidatos/current.py:17-20 | an empty queue and an empty `env` |
| Crawl.Current.CacheKey | candidatos/current.py:493-496 | the job's key, which starts with its `cache_base` prefix and a dash |
| Crawl.Current.Qput | candidatos/current.py:22-27 | appends the item exactly when the job's key is not in `_known` |
| Crawl.Current.QputAll | candidatos/current.py:51-57 | a run of `qput` calls appends exactly the fresh calls, in order |
| Crawl.Current.QputItem | candidatos/current.py:372-390 | one loop iteration: reads the element's fields, then queues its fresh calls; if a read raises, nothing is queued |
| Crawl.Current.QputItems | candidatos/current.py:210-223 | the fan-out loop queues the fresh calls of the elements it finished, and raises exactly when `LoopCalls` stops |
| Crawl.Current.Config | candidatos/current.py:60-70 | the `cachejson` call for `config(config_type)`, fetching from the URL that `env` gives |
| Crawl.Current.RunConfigs | candidatos/current.py:31-39 | runs `config(t)` for each type in order, collecting the documents and the exceptions, with the new cache that `ConfigPool` gives |
| Crawl.Current.Load | candidatos/current.py:29-58 | for every answer of the site, outcome, cache, `env` and queue are those of `LoadSpec`, whose properties the `Load…` lemmas state |
| Crawl.Current.ListasRegioMuni | candidatos/current.py:181-224 | outcome, cache and queue are those of `RunJob` for the job |
| Crawl.Current.ExpedienteDetalle | candidatos/current.py:357-391 | outcome, cache and queue are those of `RunJob` for the job |
| Crawl.Current.CandidatoHojavida | candidatos/current.py:85-107 | outcome, cache and queue are those of `RunJob` for the job |
| Crawl.Current.FetchOnly | candidatos/current.py:403-423 | a job kind without fan-out (such as `expediente_hijo`): only its checked `get_value`, with the queue untouched |
| Crawl.Current.Call | candidatos/current.py:22-27 | running the `partial(meth, **kwargs)` that `qput` queued has the effect `RunJob` gives for its kind |

## Left out

- The worker threads that take items off the queue and `queue.join()` are not modelled. Concurrent access to `_known` is not modelled.
- The `ThreadPoolExecutor` in `load` runs the ten `config` calls one after the other, in the key order of `_config_urls()`. The calls touch distinct keys, so the order changes only which exception surfaces.
- Crawl.LoadSpec: when several `config` calls raise, `as_completed` surfaces whichever finished first; the model raises the first in submission order.
- Files, HTTP and logging are not modelled. The disk is a map from cache path to value, and each fetch result is a `Fetch` parameter. JSON text, `json.dumps`, `ensure_ascii` and the `_cache/` directory creation are left out. `MAIN_DIR` is not part of this model.
- The queue is a sequence in insertion order. The heap order that `PriorityQueue` imposes is captured only through the item order `ItemLt`/`ItemEq`.
- `is_cached` (cache.py:75-79) is not used by the core, so it is not modelled.
- Seeding.TiposOf: Python's set iteration order is not modelled. The types are taken in first-occurrence order and deduplicated with Python's `==` (`PyEq`), where `True == 1`; float ids are not modelled.
- Jobs.IntField: `int(...)` accepts only fields that are already integers. The conversion of numeric strings and booleans is not modelled.
- Values.Render: `str()` is modelled for `None`, booleans, integers and strings. A float keyword value, and a list or dictionary as keyword value, are not modelled; the latter raises `TypeError` in the model.
- Keys.AppendPositional: a positional argument is either a string, another scalar, or an object. Python's `+=` of an int onto a string raises `TypeError`, and the model raises the same for every non-string scalar. The model does not tell floats from ints.
- Jobs.PyEqualsInt: Python's `True == 1` is honoured, but float equality with integers is not.
- Cache.CachePathInjective: pathlib's collapsing of `//` and `/./`, and the operating system's resolution of `..`, are not modelled. In the source, keys such as `…=a//b` and `…=a/b` share one file.
- `cmd.py`, `requests.py` and `logs.py` are not part of this model. `get_client` and the request bodies are not part of it either.
- Where the code and its description differ, the model follows the code:
  - `_known` is filled only when `get_value` or a `cachejson` wrapper returns, never by `qput`. Two `qput` calls of the same fresh job both queue it (`FreshJobQueuedTwice`).
  - An `httpx.HTTPStatusError` on a miss is swallowed in `get_value`, but the next statement reads `pp`, which is unbound on that path. The caller therefore sees `UnboundLocalError`, not `None`.
  - In `load`, the `is not None` filter tests the `tipoEleccion` entry itself, not its `idTipoEleccion`.
