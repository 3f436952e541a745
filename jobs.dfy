/** The crawl's jobs (candidatos/current.py): what each job kind is called
    with, where it caches, how queue items compare, which responses are
    accepted, and which child jobs a response spawns. */
module Jobs {
  import opened Values
  import opened Keys
  import opened Cache

  /** `partial(meth, **kwargs)`: a job kind of `Current` with its keyword
      arguments. */
  datatype Job =
    | ListasRegioMuni(idProcesoElectoral: Param, idTipoEleccion: Param)
    | DetallePlan(idPlanGobierno: Param)
    | CandidatoPlan(idProcesoElectoral: Param, idTipoEleccion: Param,
                    idOrganizacionPolitica: Param, idSolicitudLista: Param)
    | ExpedienteCandidatos(idProcesoElectoral: Param, expediente: Param)
    | ExpedienteDetalle(expediente: Param)
    | ExpedienteHijo(expediente: Param)
    | ExpedienteDirecto(expediente: Param)
    | CandidatoHojavida(idHojaVida: Param)
    | CandidatoAnotacionMarginal(idHojaVida: Param)
    | CandidatoExpedientesRelacionados(idHojaVida: Param)
    | CandidatoRequisito(idProcesoElectoral: Param, idCandidato: Param)

  /** The `(dataset, category, key_base)` attached to a job kind as `cache_base`. */
  datatype CacheBase = CacheBase(dataset: string, category: string, keyBase: string)

  function BaseOf(job: Job): CacheBase
  {
    match job
    case ListasRegioMuni(_, _) => CacheBase("current", "listas-regio-muni", "listas-regio-muni")
    case DetallePlan(_) => CacheBase("current", "candidatos-planes", "plan")
    case CandidatoPlan(_, _, _, _) => CacheBase("current", "candidatos-planes-para-candidato", "plan")
    case ExpedienteCandidatos(_, _) => CacheBase("current", "expedientes-candidatos", "candidatos")
    case ExpedienteDetalle(_) => CacheBase("current", "expedientes-detalles", "detalle")
    case ExpedienteHijo(_) => CacheBase("current", "expedientes-hijos", "hijo")
    case ExpedienteDirecto(_) => CacheBase("current", "expedientes-directos", "directo")
    case CandidatoHojavida(_) => CacheBase("current", "candidatos-hojavidas", "hojavida")
    case CandidatoAnotacionMarginal(_) =>
      CacheBase("current", "candidatos-anotaciones-marginales", "anotacion-marginal")
    case CandidatoExpedientesRelacionados(_) =>
      CacheBase("current", "candidatos-expedientes", "expedientes")
    case CandidatoRequisito(_, _) => CacheBase("current", "candidatos-requisitos", "requisito")
  }

  /** The keyword arguments of the job, named as in the source. */
  function KwargsOf(job: Job): seq<Binding>
  {
    match job
    case ListasRegioMuni(p, t) => [("id_proceso_electoral", p), ("id_tipo_eleccion", t)]
    case DetallePlan(p) => [("id_plan_gobierno", p)]
    case CandidatoPlan(p, t, o, s) =>
      [("id_proceso_electoral", p), ("id_tipo_eleccion", t),
       ("id_organizacion_politica", o), ("id_solicitud_lista", s)]
    case ExpedienteCandidatos(p, e) => [("id_proceso_electoral", p), ("expediente", e)]
    case ExpedienteDetalle(e) => [("expediente", e)]
    case ExpedienteHijo(e) => [("expediente", e)]
    case ExpedienteDirecto(e) => [("expediente", e)]
    case CandidatoHojavida(h) => [("id_hoja_vida", h)]
    case CandidatoAnotacionMarginal(h) => [("id_hoja_vida", h)]
    case CandidatoExpedientesRelacionados(h) => [("id_hoja_vida", h)]
    case CandidatoRequisito(p, c) => [("id_proceso_electoral", p), ("id_candidato", c)]
  }

  /** The keyword arguments in the order `sorted(kwargs.items())` puts them. */
  function SortedKwargs(job: Job): seq<Binding>
  {
    match job
    case ListasRegioMuni(p, t) => [("id_proceso_electoral", p), ("id_tipo_eleccion", t)]
    case DetallePlan(p) => [("id_plan_gobierno", p)]
    case CandidatoPlan(p, t, o, s) =>
      [("id_organizacion_politica", o), ("id_proceso_electoral", p),
       ("id_solicitud_lista", s), ("id_tipo_eleccion", t)]
    case ExpedienteCandidatos(p, e) => [("expediente", e), ("id_proceso_electoral", p)]
    case ExpedienteDetalle(e) => [("expediente", e)]
    case ExpedienteHijo(e) => [("expediente", e)]
    case ExpedienteDirecto(e) => [("expediente", e)]
    case CandidatoHojavida(h) => [("id_hoja_vida", h)]
    case CandidatoAnotacionMarginal(h) => [("id_hoja_vida", h)]
    case CandidatoExpedientesRelacionados(h) => [("id_hoja_vida", h)]
    case CandidatoRequisito(p, c) => [("id_candidato", c), ("id_proceso_electoral", p)]
  }

  /** The sort of a job's keyword arguments is `SortedKwargs`. */
  lemma SortedKwargsIsTheSort(job: Job)
    ensures SortBindings(KwargsOf(job)) == SortedKwargs(job)
  {
    match job
    case ListasRegioMuni(p, t) => ListasRegioMuniSorted(p, t);
    case CandidatoPlan(p, t, o, s) => CandidatoPlanSort(p, t, o, s);
    case ExpedienteCandidatos(p, e) => ExpedienteCandidatosSorted(p, e);
    case CandidatoRequisito(p, c) => CandidatoRequisitoSorted(p, c);
    case _ => SortOne(KwargsOf(job)[0]);
  }

  /** `id_proceso_electoral` already sorts before `id_tipo_eleccion`. */
  lemma ListasRegioMuniSorted(p: Param, t: Param)
    ensures var job := ListasRegioMuni(p, t); SortBindings(KwargsOf(job)) == SortedKwargs(job)
  {
    IdNames("tipo_eleccion", "proceso_electoral");
    SortTwo(("id_proceso_electoral", p), ("id_tipo_eleccion", t));
  }

  /** `expediente` sorts before `id_proceso_electoral`: the call order is
      swapped. */
  lemma ExpedienteCandidatosSorted(p: Param, e: Param)
    ensures var job := ExpedienteCandidatos(p, e); SortBindings(KwargsOf(job)) == SortedKwargs(job)
  {
    assert StrLt("expediente", "id_proceso_electoral");
    SortTwo(("id_proceso_electoral", p), ("expediente", e));
  }

  /** `id_candidato` sorts before `id_proceso_electoral`: the call order is
      swapped. */
  lemma CandidatoRequisitoSorted(p: Param, c: Param)
    ensures var job := CandidatoRequisito(p, c); SortBindings(KwargsOf(job)) == SortedKwargs(job)
  {
    IdNames("candidato", "proceso_electoral");
    SortTwo(("id_proceso_electoral", p), ("id_candidato", c));
  }

  /** A single binding is already sorted. */
  lemma SortOne(a: Binding)
    ensures SortBindings([a]) == [a]
  {
    assert [a][1..] == [];
  }

  /** Sorting two bindings swaps them exactly when the second name is below
      the first. */
  lemma SortTwo(a: Binding, b: Binding)
    ensures StrLt(b.0, a.0) ==> SortBindings([a, b]) == [b, a]
    ensures !StrLt(b.0, a.0) ==> SortBindings([a, b]) == [a, b]
  {
    assert [a, b][1..] == [b];
    SortOne(b);
    if StrLt(b.0, a.0) {
      assert [b][1..] == [];
      assert Insert(a, [b]) == [b] + [a];
    }
  }

  /** How the names of `candidato_plan`'s keyword arguments compare. */
  lemma CandidatoPlanNames()
    ensures !StrLt("id_solicitud_lista", "id_organizacion_politica")
    ensures StrLt("id_organizacion_politica", "id_tipo_eleccion")
    ensures StrLt("id_solicitud_lista", "id_tipo_eleccion")
    ensures StrLt("id_organizacion_politica", "id_proceso_electoral")
    ensures !StrLt("id_solicitud_lista", "id_proceso_electoral")
  {
    IdNames("organizacion_politica", "tipo_eleccion");
    IdNames("solicitud_lista", "tipo_eleccion");
    IdNames("organizacion_politica", "proceso_electoral");
    IdNames("solicitud_lista", "organizacion_politica");
    IdNames("solicitud_lista", "proceso_electoral");
  }

  /** Names that share the `id_` prefix compare as their remainders do. */
  lemma IdNames(a: string, b: string)
    ensures StrLt("id_" + a, "id_" + b) == StrLt(a, b)
  {
    var x, y := "id_" + a, "id_" + b;
    assert x[0] == y[0] && x[1] == y[1] && x[2] == y[2];
    assert StrLt(x, y) == StrLt(x[1..], y[1..]);
    assert StrLt(x[1..], y[1..]) == StrLt(x[2..], y[2..]) by {
      assert x[1..][1..] == x[2..] && y[1..][1..] == y[2..];
    }
    assert StrLt(x[2..], y[2..]) == StrLt(a, b) by {
      assert x[2..][1..] == a && y[2..][1..] == b;
    }
  }

  /** The four keyword arguments of `candidato_plan`, sorted one insertion at
      a time. */
  lemma CandidatoPlanSort(p: Param, t: Param, o: Param, s: Param)
    ensures SortBindings(KwargsOf(CandidatoPlan(p, t, o, s))) == SortedKwargs(CandidatoPlan(p, t, o, s))
  {
    CandidatoPlanNames();
    SortFour(("id_proceso_electoral", p), ("id_tipo_eleccion", t),
             ("id_organizacion_politica", o), ("id_solicitud_lista", s));
  }

  /** Sorting `[proc, tipo, org, sol]` when the names compare as those of
      `candidato_plan` do. */
  lemma SortFour(proc: Binding, tipo: Binding, org: Binding, sol: Binding)
    requires !StrLt(sol.0, org.0) && StrLt(org.0, tipo.0) && StrLt(sol.0, tipo.0)
    requires StrLt(org.0, proc.0) && !StrLt(sol.0, proc.0)
    ensures SortBindings([proc, tipo, org, sol]) == [org, proc, sol, tipo]
  {
    var kw := [proc, tipo, org, sol];
    assert SortBindings(kw[3..]) == [sol] by {
      assert kw[3..] == [sol];
    }
    assert SortBindings(kw[2..]) == [org, sol] by {
      assert kw[2..] == [org] + kw[3..];
    }
    assert SortBindings(kw[1..]) == [org, sol, tipo] by {
      assert kw[1..] == [tipo] + kw[2..];
      assert Insert(tipo, [sol]) == [sol, tipo];
    }
    assert Insert(proc, [sol, tipo]) == [proc, sol, tipo];
  }

  /** `Current.cache_key(meth, **kwargs)`. */
  function JobKey(job: Job): string
  {
    var b := BaseOf(job);
    AppendAll(Prefix(b.dataset, b.category, b.keyBase), Pieces(SortedKwargs(job)))
  }

  /** What every job kind's `cache_base` has in common: dataset `current` and
      a non-empty `key_base` not ending in `/`; and every job has keyword
      arguments. */
  lemma BaseFacts(job: Job)
    ensures BaseOf(job).dataset == "current"
    ensures var kb := BaseOf(job).keyBase; kb != "" && kb[|kb| - 1] != '/'
    ensures |KwargsOf(job)| > 0
  {
    match job
    case ListasRegioMuni(_, _) =>
    case DetallePlan(_) =>
    case CandidatoPlan(_, _, _, _) =>
    case ExpedienteCandidatos(_, _) =>
    case ExpedienteDetalle(_) =>
    case ExpedienteHijo(_) =>
    case ExpedienteDirecto(_) =>
    case CandidatoHojavida(_) =>
    case CandidatoAnotacionMarginal(_) =>
    case CandidatoExpedientesRelacionados(_) =>
    case CandidatoRequisito(_, _) =>
  }

  /** `cache_key` is `get_key` on the kind's `cache_base` with the keyword
      arguments only: it never raises, and every key starts with
      `current/category/key_base-`. */
  lemma CacheKeyIsGetKey(job: Job)
    ensures var b := BaseOf(job);
            && KeyOf(b.dataset, b.category, b.keyBase, [], KwargsOf(job)) == Ok(JobKey(job))
            && Prefix(b.dataset, b.category, b.keyBase) + "-" <= JobKey(job)
  {
    BaseFacts(job);
    SortedKwargsIsTheSort(job);
    SortedKeywordsOnlyKey(BaseOf(job), KwargsOf(job), SortedKwargs(job));
  }

  /** A call with keyword arguments only, to a `key_base` that needs a dash,
      never raises: its key is the prefix followed by the sorted keywords,
      and it starts with `dataset/category/key_base-`. */
  lemma SortedKeywordsOnlyKey(b: CacheBase, kwargs: seq<Binding>, sorted: seq<Binding>)
    requires b.keyBase != "" && b.keyBase[|b.keyBase| - 1] != '/'
    requires |kwargs| > 0 && SortBindings(kwargs) == sorted
    ensures var p := Prefix(b.dataset, b.category, b.keyBase);
            && KeyOf(b.dataset, b.category, b.keyBase, [], kwargs) == Ok(AppendAll(p, Pieces(sorted)))
            && p + "-" <= AppendAll(p, Pieces(sorted))
  {
    var p := Prefix(b.dataset, b.category, b.keyBase);
    var pieces := KeywordPieces(kwargs);
    assert KeyOf(b.dataset, b.category, b.keyBase, [], kwargs) == Ok(AppendAll(p, pieces)) by {
      assert PositionalPieces([]) == Ok([]);
      assert [] + pieces == pieces;
    }
    assert pieces == Pieces(sorted);
    assert p + "-" <= AppendAll(p, pieces) by {
      DashAfterBase(b.dataset, b.category, b.keyBase, pieces);
    }
  }

  // ---------------------------------------------------------------------------
  // Queue items

  /** `PrioritizedItem`: a dataclass ordered by `priority`; `fun` is declared
      with `compare=False`, so it takes part neither in ordering nor in `==`. */
  datatype PrioritizedItem = PrioritizedItem(priority: int, fun: Job)

  /** `a < b` on queue items. */
  predicate ItemLt(a: PrioritizedItem, b: PrioritizedItem)
  {
    a.priority < b.priority
  }

  /** `a == b` on queue items. */
  predicate ItemEq(a: PrioritizedItem, b: PrioritizedItem)
  {
    a.priority == b.priority
  }

  /** Comparison never looks at the job: items with the same priorities
      compare the same way whatever jobs they carry; exactly one of `<`, `==`,
      `>` holds, and `<` and `==` are transitive. */
  lemma ItemOrderIgnoresJob(a: PrioritizedItem, b: PrioritizedItem, c: PrioritizedItem, f: Job, g: Job)
    ensures ItemLt(a, b) == ItemLt(PrioritizedItem(a.priority, f), PrioritizedItem(b.priority, g))
    ensures ItemEq(a, b) == ItemEq(PrioritizedItem(a.priority, f), PrioritizedItem(b.priority, g))
    ensures ItemEq(PrioritizedItem(a.priority, f), PrioritizedItem(a.priority, g))
    ensures ItemLt(a, b) || ItemEq(a, b) || ItemLt(b, a)
    ensures !(ItemLt(a, b) && ItemEq(a, b)) && !(ItemLt(b, a) && ItemEq(a, b)) && !(ItemLt(a, b) && ItemLt(b, a))
    ensures ItemLt(a, b) && ItemLt(b, c) ==> ItemLt(a, c)
    ensures ItemEq(a, b) && ItemEq(b, c) ==> ItemEq(a, c)
  {
  }

  /** The items `qput` appends for a run of `(priority, job)` calls while
      `_known` is `known`: one per job whose key is not yet known, in order. */
  function Enqueued(known: set<string>, calls: seq<(int, Job)>): (r: seq<PrioritizedItem>)
    ensures |r| <= |calls|
    decreases |calls|, 1
  {
    if calls == [] then [] else EnqueuedFrom(known, calls)
  }

  function EnqueuedFrom(known: set<string>, calls: seq<(int, Job)>): (r: seq<PrioritizedItem>)
    requires calls != []
    ensures |r| <= |calls|
    decreases |calls|, 0
  {
    (if JobKey(calls[0].1) in known then [] else [PrioritizedItem(calls[0].0, calls[0].1)])
    + Enqueued(known, calls[1..])
  }

  lemma AppendAssoc<T>(a: seq<T>, b: seq<T>, c: seq<T>)
    ensures a + (b + c) == (a + b) + c
  {
  }

  lemma {:induction false} EnqueuedConcat(known: set<string>, a: seq<(int, Job)>, b: seq<(int, Job)>)
    ensures Enqueued(known, a + b) == Enqueued(known, a) + Enqueued(known, b)
  {
    if a != [] {
      var head := if JobKey(a[0].1) in known then [] else [PrioritizedItem(a[0].0, a[0].1)];
      assert (a + b)[0] == a[0];
      assert (a + b)[1..] == a[1..] + b;
      assert a + b != [];
      assert Enqueued(known, a + b) == head + Enqueued(known, a[1..] + b);
      EnqueuedConcat(known, a[1..], b);
      assert Enqueued(known, a) == head + Enqueued(known, a[1..]);
    } else {
      assert a + b == b;
    }
  }

  /** Extending a run of calls by the next one extends what it enqueues by
      what that call enqueues. */
  lemma EnqueuedStep(known: set<string>, calls: seq<(int, Job)>, i: nat)
    requires i < |calls|
    ensures Enqueued(known, calls[..i + 1]) == Enqueued(known, calls[..i]) + Enqueued(known, [calls[i]])
  {
    EnqueuedConcat(known, calls[..i], [calls[i]]);
    assert calls[..i + 1] == calls[..i] + [calls[i]];
  }

  /** One `qput`: nothing when the key is known, else exactly one item with
      the given priority and job. */
  lemma EnqueuedOne(known: set<string>, priority: int, job: Job)
    ensures JobKey(job) in known ==> Enqueued(known, [(priority, job)]) == []
    ensures JobKey(job) !in known ==> Enqueued(known, [(priority, job)]) == [PrioritizedItem(priority, job)]
  {
    assert [(priority, job)][1..] == [];
  }

  /** What `qput` lets through: every appended item is a call whose key was not
      known, with that call's priority and job, and every such call is
      appended. */
  lemma {:induction false} EnqueuedExactly(known: set<string>, calls: seq<(int, Job)>)
    ensures forall it :: it in Enqueued(known, calls) ==>
              JobKey(it.fun) !in known && (it.priority, it.fun) in calls
    ensures forall c :: c in calls && JobKey(c.1) !in known ==> PrioritizedItem(c.0, c.1) in Enqueued(known, calls)
  {
    if calls != [] {
      EnqueuedExactly(known, calls[1..]);
      assert calls == [calls[0]] + calls[1..];
    }
  }

  /** No key is marked known at enqueue time: the same fresh job put twice is
      queued twice. */
  lemma FreshJobQueuedTwice(known: set<string>, p: int, j: Job)
    requires JobKey(j) !in known
    ensures Enqueued(known, [(p, j), (p, j)]) == [PrioritizedItem(p, j), PrioritizedItem(p, j)]
  {
    assert [(p, j), (p, j)][1..] == [(p, j)];
    EnqueuedOne(known, p, j);
  }

  // ---------------------------------------------------------------------------
  // Shape checks

  /** Python's `v == n` for a JSON value and an int literal. */
  predicate PyEqualsInt(v: Value, n: int)
  {
    match v
    case Int(i) => i == n
    case Bool(b) => (if b then 1 else 0) == n
    case _ => false
  }

  /** `(int(data["count"]) == 0 and data["totalPages"] == 0) or
      data["totalPages"] == 1`, evaluated left to right with short circuits. */
  function PagesCheck(data: Value): Result<bool>
  {
    match Get(data, "count")
    case Err(e) => Err(e)
    case Ok(c) =>
      match AsInt(c)
      case Err(e) => Err(e)
      case Ok(count) =>
        match Get(data, "totalPages")
        case Err(e) => Err(e)
        case Ok(t) => Ok((count == 0 && PyEqualsInt(t, 0)) || PyEqualsInt(t, 1))
  }

  /** A listing response with integer `count` and `totalPages` is accepted iff
      it is empty with no pages, or has exactly one page. */
  lemma PagesCheckAccepts(data: Value, count: int, totalPages: int)
    requires data.Obj?
    requires HasKey(data.fields, "count") && FieldValue(data.fields, "count") == Int(count)
    requires HasKey(data.fields, "totalPages") && FieldValue(data.fields, "totalPages") == Int(totalPages)
    ensures PagesCheck(data) == Ok((count == 0 && totalPages == 0) || totalPages == 1)
  {
  }

  /** The `assert` a job's fetch applies to the decoded response, if any. */
  function ShapeCheck(job: Job, data: Value): Result<bool>
  {
    match job
    case ExpedienteDetalle(_) => Contains(data, "datoGeneral")
    case ExpedienteHijo(_) => PagesCheck(data)
    case ExpedienteDirecto(_) => PagesCheck(data)
    case _ => Ok(true)
  }

  /** The job's `_fn`: the HTTP response, then the shape check; a failed check
      raises `AssertionError`, a malformed response the error of the lookup. */
  function Shaped(job: Job, response: Fetch): (r: Fetch)
    ensures response.FetchRaised? ==> r == response
    ensures response.Fetched? ==>
              (r == response <==> ShapeCheck(job, response.v) == Ok(true))
  {
    match response
    case FetchRaised(_) => response
    case Fetched(data) =>
      match ShapeCheck(job, data)
      case Err(e) => FetchRaised(e)
      case Ok(ok) => if ok then response else FetchRaised(AssertionError)
  }

  /** A response that fails its job's shape check is never cached: the cache
      is left as it was, and the job raises. */
  lemma RejectedResponseNotCached(st: State, job: Job, data: Value)
    requires ShapeCheck(job, data) != Ok(true)
    ensures var s := GetValueStep(st, JobKey(job), Shaped(job, Fetched(data)));
            && s.after.files == st.files
            && (CachePath(JobKey(job)) !in st.files ==> s.outcome.Raised? && s.after == st)
  {
  }

  /** `expediente_detalle` accepts a dict response exactly when it has a
      `datoGeneral` field. */
  lemma DetalleNeedsDatoGeneral(e: Param, fields: seq<(string, Value)>)
    ensures Shaped(ExpedienteDetalle(e), Fetched(Obj(fields))) == Fetched(Obj(fields))
            <==> HasKey(fields, "datoGeneral")
  {
  }

  // ---------------------------------------------------------------------------
  // Fan-out

  /** One iteration of the loop in `listas_regio_muni`: the plan and the
      expediente are looked up first, then five calls follow. */
  function ListasItemCalls(idProcesoElectoral: Param, lista: Value): (r: Result<seq<(int, Job)>>)
    ensures r.Ok? ==> |r.value| == 5
  {
    match Get(lista, "idPlanGobierno")
    case Err(e) => Err(e)
    case Ok(planValue) =>
      match Get(lista, "txCodExpedienteExt")
      case Err(e) => Err(e)
      case Ok(expValue) =>
        match AsParam(planValue)
        case Err(e) => Err(e)
        case Ok(plan) =>
          match AsParam(expValue)
          case Err(e) => Err(e)
          case Ok(exp) =>
            Ok([(30, DetallePlan(plan)),
                (40, ExpedienteDetalle(exp)),
                (50, ExpedienteDirecto(exp)),
                (60, ExpedienteCandidatos(idProcesoElectoral, exp)),
                (90, ExpedienteHijo(exp))])
  }

  /** One iteration of the loop in `expediente_detalle`: three integer fields
      are read first, then four calls follow. */
  function DetalleItemCalls(x: Value): (r: Result<seq<(int, Job)>>)
    ensures r.Ok? ==> |r.value| == 4
  {
    match IntField(x, "idProcesoElectoral")
    case Err(e) => Err(e)
    case Ok(proceso) =>
      match IntField(x, "idCandidato")
      case Err(e) => Err(e)
      case Ok(candidato) =>
        match IntField(x, "idHojaVida")
        case Err(e) => Err(e)
        case Ok(hoja) =>
          Ok([(12, CandidatoHojavida(PInt(hoja))),
              (14, CandidatoAnotacionMarginal(PInt(hoja))),
              (16, CandidatoExpedientesRelacionados(PInt(hoja))),
              (18, CandidatoRequisito(PInt(proceso), PInt(candidato)))])
  }

  /** `int(v[k])` for a field that already holds an integer. */
  function IntField(v: Value, k: string): (r: Result<int>)
    ensures r.Ok? <==> v.Obj? && HasKey(v.fields, k) && FieldValue(v.fields, k).Int?
    ensures r.Ok? ==> r.value == FieldValue(v.fields, k).i
  {
    match Get(v, k)
    case Err(e) => Err(e)
    case Ok(x) => AsInt(x)
  }

  /** The single call of `candidato_hojavida`: `res["datoGeneral"]`, then its
      four ids read as integers in argument order. */
  function HojavidaCalls(res: Value): (r: Result<seq<(int, Job)>>)
    ensures r.Ok? ==> |r.value| == 1
  {
    match Get(res, "datoGeneral")
    case Err(e) => Err(e)
    case Ok(dg) =>
      match IntField(dg, "idProcesoElectoral")
      case Err(e) => Err(e)
      case Ok(proceso) =>
        match IntField(dg, "idTipoEleccion")
        case Err(e) => Err(e)
        case Ok(tipo) =>
          match IntField(dg, "idOrganizacionPolitica")
          case Err(e) => Err(e)
          case Ok(organizacion) =>
            match IntField(dg, "idSolicitudLista")
            case Err(e) => Err(e)
            case Ok(solicitud) =>
              Ok([(20, CandidatoPlan(PInt(proceso), PInt(tipo), PInt(organizacion), PInt(solicitud)))])
  }

  /** A hoja de vida spawns its plan job, at priority 20, exactly when its
      `datoGeneral` holds the four integer ids, and the job carries them. */
  lemma HojavidaShape(res: Value)
    ensures HojavidaCalls(res).Ok? <==>
              && res.Obj? && HasKey(res.fields, "datoGeneral")
              && var dg := FieldValue(res.fields, "datoGeneral");
                 && IntField(dg, "idProcesoElectoral").Ok? && IntField(dg, "idTipoEleccion").Ok?
                 && IntField(dg, "idOrganizacionPolitica").Ok? && IntField(dg, "idSolicitudLista").Ok?
    ensures HojavidaCalls(res).Ok? ==>
              var dg := FieldValue(res.fields, "datoGeneral");
              HojavidaCalls(res).value ==
                [(20, CandidatoPlan(PInt(FieldValue(dg.fields, "idProcesoElectoral").i),
                                    PInt(FieldValue(dg.fields, "idTipoEleccion").i),
                                    PInt(FieldValue(dg.fields, "idOrganizacionPolitica").i),
                                    PInt(FieldValue(dg.fields, "idSolicitudLista").i)))]
  {
  }

  /** A list entry spawns its five jobs exactly when it has both fields with
      scalar values; the plan job gets the plan, the other four share the
      expediente, and the candidates job also gets the process id. */
  lemma ListasItemShape(p: Param, x: Value)
    ensures ListasItemCalls(p, x).Ok? <==>
              && x.Obj? && HasKey(x.fields, "idPlanGobierno") && HasKey(x.fields, "txCodExpedienteExt")
              && AsParam(FieldValue(x.fields, "idPlanGobierno")).Ok?
              && AsParam(FieldValue(x.fields, "txCodExpedienteExt")).Ok?
    ensures ListasItemCalls(p, x).Ok? ==>
              var cs := ListasItemCalls(p, x).value;
              var plan := AsParam(FieldValue(x.fields, "idPlanGobierno")).value;
              var exp := AsParam(FieldValue(x.fields, "txCodExpedienteExt")).value;
              && [cs[0].0, cs[1].0, cs[2].0, cs[3].0, cs[4].0] == [30, 40, 50, 60, 90]
              && cs[0].1 == DetallePlan(plan)
              && cs[1].1 == ExpedienteDetalle(exp) && cs[2].1 == ExpedienteDirecto(exp)
              && cs[3].1 == ExpedienteCandidatos(p, exp) && cs[4].1 == ExpedienteHijo(exp)
  {
  }

  /** An `expedienteCandidato` entry spawns its four jobs exactly when its three
      ids are integers; three of them are keyed by the hoja de vida, the
      requirements job by process and candidate. */
  lemma DetalleItemShape(x: Value)
    ensures DetalleItemCalls(x).Ok? <==>
              && x.Obj?
              && HasKey(x.fields, "idProcesoElectoral") && FieldValue(x.fields, "idProcesoElectoral").Int?
              && HasKey(x.fields, "idCandidato") && FieldValue(x.fields, "idCandidato").Int?
              && HasKey(x.fields, "idHojaVida") && FieldValue(x.fields, "idHojaVida").Int?
    ensures DetalleItemCalls(x).Ok? ==>
              var cs := DetalleItemCalls(x).value;
              var h := PInt(FieldValue(x.fields, "idHojaVida").i);
              && [cs[0].0, cs[1].0, cs[2].0, cs[3].0] == [12, 14, 16, 18]
              && cs[0].1 == CandidatoHojavida(h) && cs[1].1 == CandidatoAnotacionMarginal(h)
              && cs[2].1 == CandidatoExpedientesRelacionados(h)
              && cs[3].1 == CandidatoRequisito(PInt(FieldValue(x.fields, "idProcesoElectoral").i),
                                               PInt(FieldValue(x.fields, "idCandidato").i))
  {
  }

  /** Which per-element rule a fan-out loop applies. */
  datatype Loop = ListasLoop(idProcesoElectoral: Param) | DetalleLoop

  function Width(l: Loop): nat
  {
    if l.ListasLoop? then 5 else 4
  }

  function ItemCalls(l: Loop, x: Value): (r: Result<seq<(int, Job)>>)
    ensures r.Ok? ==> |r.value| == Width(l)
  {
    match l
    case ListasLoop(p) => ListasItemCalls(p, x)
    case DetalleLoop => DetalleItemCalls(x)
  }

  /** The `qput` calls a fan-out loop makes, and the exception that stopped
      it if one did. */
  datatype FanOut = Finished(calls: seq<(int, Job)>) | Stopped(calls: seq<(int, Job)>, error: Exc)

  function LoopCalls(l: Loop, items: seq<Value>): FanOut
    decreases |items|, 1
  {
    if items == [] then Finished([]) else LoopLast(l, items)
  }

  /** The loop over a non-empty list: the loop over all but the last element,
      then the last element unless an exception already stopped it. */
  function LoopLast(l: Loop, items: seq<Value>): FanOut
    requires items != []
    decreases |items|, 0
  {
    var init := LoopCalls(l, items[..|items| - 1]);
    if init.Stopped? then init
    else
      match ItemCalls(l, items[|items| - 1])
      case Err(e) => Stopped(init.calls, e)
      case Ok(cs) => Finished(init.calls + cs)
  }

  /** A loop runs to the end exactly when every element is well formed. */
  lemma {:induction false} LoopFinishes(l: Loop, items: seq<Value>)
    ensures LoopCalls(l, items).Finished? <==> forall i :: 0 <= i < |items| ==> ItemCalls(l, items[i]).Ok?
  {
    if items != [] {
      var n := |items|;
      var init := items[..n - 1];
      LoopFinishes(l, init);
      assert LoopCalls(l, items).Finished? <==>
             LoopCalls(l, init).Finished? && ItemCalls(l, items[n - 1]).Ok?;
      assert forall i :: 0 <= i < n - 1 ==> init[i] == items[i];
    }
  }

  /** A finished loop makes `Width` calls per element, each one taken from the
      calls of some element. */
  lemma {:induction false} LoopCallsPerElement(l: Loop, items: seq<Value>)
    requires LoopCalls(l, items).Finished?
    ensures |LoopCalls(l, items).calls| == Width(l) * |items|
    ensures forall c :: c in LoopCalls(l, items).calls ==>
              exists i :: 0 <= i < |items| && ItemCalls(l, items[i]).Ok? && c in ItemCalls(l, items[i]).value
  {
    if items != [] {
      var n := |items|;
      var init := items[..n - 1];
      LoopCallsPerElement(l, init);
      var cs := ItemCalls(l, items[n - 1]).value;
      var r := LoopCalls(l, items);
      assert r.calls == LoopCalls(l, init).calls + cs;
      assert Width(l) * n == Width(l) * (n - 1) + Width(l);
      forall c | c in r.calls
        ensures exists i :: 0 <= i < n && ItemCalls(l, items[i]).Ok? && c in ItemCalls(l, items[i]).value
      {
        if c !in cs {
          var i :| 0 <= i < n - 1 && ItemCalls(l, init[i]).Ok? && c in ItemCalls(l, init[i]).value;
          assert init[i] == items[i];
        }
      }
    }
  }

  /** A loop stopped by an element's exception has made exactly the calls of
      the elements before it: those already queued stay queued. */
  lemma {:induction false} LoopStopsAtFirstError(l: Loop, items: seq<Value>)
    requires LoopCalls(l, items).Stopped?
    ensures exists i :: 0 <= i < |items|
              && ItemCalls(l, items[i]) == Err(LoopCalls(l, items).error)
              && LoopCalls(l, items[..i]) == Finished(LoopCalls(l, items).calls)
  {
    var n := |items|;
    var init := items[..n - 1];
    if LoopCalls(l, init).Stopped? {
      LoopStopsAtFirstError(l, init);
      var i :| 0 <= i < n - 1
              && ItemCalls(l, init[i]) == Err(LoopCalls(l, init).error)
              && LoopCalls(l, init[..i]) == Finished(LoopCalls(l, init).calls);
      assert init[..i] == items[..i];
    } else {
      assert items[..n - 1] == init;
    }
  }

  /** Where a loop stops: after the well-formed elements before the first
      malformed one. */
  lemma {:induction false} LoopStopsAt(l: Loop, items: seq<Value>, i: nat)
    requires i < |items|
    requires LoopCalls(l, items[..i]).Finished?
    requires ItemCalls(l, items[i]).Err?
    ensures LoopCalls(l, items) == Stopped(LoopCalls(l, items[..i]).calls, ItemCalls(l, items[i]).error)
  {
    var n := |items|;
    var init := items[..n - 1];
    if n == i + 1 {
      assert init == items[..i];
    } else {
      assert init[..i] == items[..i];
      LoopStopsAt(l, init, i);
      assert LoopCalls(l, items) == LoopCalls(l, init);
    }
  }

  /** A loop that got past element `i` has queued the calls before it and
      then that element's calls. */
  lemma LoopContinues(l: Loop, items: seq<Value>, i: nat)
    requires i < |items|
    requires LoopCalls(l, items[..i]).Finished?
    requires ItemCalls(l, items[i]).Ok?
    ensures LoopCalls(l, items[..i + 1]) ==
            Finished(LoopCalls(l, items[..i]).calls + ItemCalls(l, items[i]).value)
  {
    assert items[..i + 1][..i] == items[..i];
  }

  /** What the loop queues up to element `i` is what it queued before it
      followed by what that element queues. */
  lemma LoopQueueStep(known: set<string>, l: Loop, items: seq<Value>, i: nat,
                      done: seq<(int, Job)>, cs: seq<(int, Job)>, q: seq<PrioritizedItem>)
    requires i < |items|
    requires LoopCalls(l, items[..i]) == Finished(done)
    requires ItemCalls(l, items[i]) == Ok(cs)
    ensures LoopCalls(l, items[..i + 1]) == Finished(done + cs)
    ensures q + Enqueued(known, done) + Enqueued(known, cs) == q + Enqueued(known, done + cs)
  {
    LoopContinues(l, items, i);
    EnqueuedConcat(known, done, cs);
    AppendAssoc(q, Enqueued(known, done), Enqueued(known, cs));
  }

  // ---------------------------------------------------------------------------
  // Running a job

  /** The `qput` calls a job makes with the value its fetch returned: none for
      `None` or for a kind without fan-out, the loop over `res["data"]` or
      `res["expedienteCandidato"]`, or the plan of a hoja de vida. */
  function Spawned(job: Job, res: Value): FanOut
  {
    if res == Null then Finished([])
    else
      match job
      case ListasRegioMuni(p, _) =>
        (match Get(res, "data")
         case Err(e) => Stopped([], e)
         case Ok(data) =>
           match Iterate(data)
           case Err(e) => Stopped([], e)
           case Ok(items) => LoopCalls(ListasLoop(p), items))
      case ExpedienteDetalle(_) =>
        (match Get(res, "expedienteCandidato")
         case Err(e) => Stopped([], e)
         case Ok(ec) =>
           match Iterate(ec)
           case Err(e) => Stopped([], e)
           case Ok(items) => LoopCalls(DetalleLoop, items))
      case CandidatoHojavida(_) =>
        (match HojavidaCalls(res)
         case Err(e) => Stopped([], e)
         case Ok(cs) => Finished(cs))
      case _ => Finished([])
  }

  /** What running a job leaves behind: its outcome, the cache, the queue. */
  datatype Run = Run(outcome: Outcome, cache: State, queue: seq<PrioritizedItem>)

  /** `item.fun()` for a queued job: `get_value` on the job's key with its
      shape-checked fetch, then, when a value came back, the job's `qput`
      calls against the `_known` that `get_value` left; an exception in the
      fan-out leaves the calls made before it in the queue. */
  function RunJob(job: Job, st: State, queue: seq<PrioritizedItem>, response: Fetch): Run
  {
    var s := GetValueStep(st, JobKey(job), Shaped(job, response));
    match s.outcome
    case Raised(_) => Run(s.outcome, s.after, queue)
    case Returned(res) =>
      var f := Spawned(job, res);
      Run(if f.Finished? then s.outcome else Raised(f.error),
          s.after, queue + Enqueued(s.after.known, f.calls))
  }

  /** A job only appends to the queue, never an item whose key is known once
      its own value is in, and it never queues a job for itself: its own key
      has just become known. */
  lemma RunOnlyAppendsFresh(job: Job, st: State, queue: seq<PrioritizedItem>, response: Fetch)
    ensures var r := RunJob(job, st, queue, response);
            && queue <= r.queue
            && (forall it :: it in r.queue[|queue|..] ==> JobKey(it.fun) !in r.cache.known)
            && (r.queue != queue ==> JobKey(job) in r.cache.known)
            && (forall it :: it in r.queue[|queue|..] ==> it.fun != job)
  {
    var s := GetValueStep(st, JobKey(job), Shaped(job, response));
    var r := RunJob(job, st, queue, response);
    if s.outcome.Returned? {
      var f := Spawned(job, s.outcome.value);
      EnqueuedExactly(s.after.known, f.calls);
      assert r.queue[|queue|..] == Enqueued(s.after.known, f.calls);
    } else {
      assert r.queue[|queue|..] == [];
    }
  }

  /** A job whose fetch raises (or whose response fails its shape check, on a
      cache miss) queues nothing and caches nothing. */
  lemma FailedFetchChangesNothing(job: Job, st: State, queue: seq<PrioritizedItem>, response: Fetch)
    requires Lookup(st, JobKey(job)).Err?
    requires Shaped(job, response).FetchRaised?
    ensures RunJob(job, st, queue, response) == Run(RunJob(job, st, queue, response).outcome, st, queue)
    ensures RunJob(job, st, queue, response).outcome.Raised?
  {
  }

  /** A job that finds its value cached does not fetch, and spawns exactly
      what the cached value dictates. */
  lemma CachedJobReplays(job: Job, st: State, queue: seq<PrioritizedItem>, r1: Fetch, r2: Fetch)
    requires Lookup(st, JobKey(job)).Ok?
    ensures RunJob(job, st, queue, r1) == RunJob(job, st, queue, r2)
  {
  }
}
