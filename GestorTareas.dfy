/**
 * The task manager (`GestorTareas`): a map from the exact id string to the task,
 * updated in place by `CrearTarea`. `Crear` and `Buscar` are the specification
 * functions of the two operations that return a result; the lemmas relate them.
 */
module Gestion {
  import opened Wrappers
  import opened JavaLang
  import opened Prioridades
  import opened Tareas

  /** Every exception the manager lets escape (all `IllegalArgumentException` in the source). */
  datatype Error =
    | IdVacioAlCrear
    | IdDuplicado(id: string)
    | TareaInvalida(cause: ValidationError)
    | IdVacioAlBuscar

  /** The text of each exception. */
  function ErrorMessage(e: Error): (r: string)
    ensures |r| > 0
    ensures e.IdDuplicado? ==> |e.id| < |r| && r[|r| - |e.id|..] == e.id
    ensures e.TareaInvalida? ==> r == Message(e.cause)
  {
    match e
    case IdVacioAlCrear => "El ID de la tarea no puede ser nulo ni vacío para crearla."
    case IdDuplicado(id) => "Ya existe una tarea con el ID: " + id
    case TareaInvalida(cause) => Message(cause)
    case IdVacioAlBuscar => "El ID para buscar no puede ser nulo ni vacío."
  }

  /** The repository invariant: each key holds a constructed task whose id is that key. */
  predicate RepoInv(m: map<string, Tarea>) {
    KeysAreIds(m) && forall k :: k in m ==> TareaValida(m[k])
  }

  /** Each key is the id of the task stored under it. */
  predicate KeysAreIds(m: map<string, Tarea>) {
    forall k :: k in m ==> m[k].id == k
  }

  /**
   * What `crearTarea` returns, given the repository `m` before the call: a blank id
   * first, then a duplicate key, then whatever the `Tarea` constructor throws.
   */
  function Crear(m: map<string, Tarea>, id: Option<string>, titulo: Option<string>,
                 descripcion: Option<string>, prioridad: Option<Prioridad>,
                 fecha: Option<int>, today: int): (r: Result<Tarea, Error>)
    ensures (id.None? || IsBlank(id.value)) ==> r == Failure(IdVacioAlCrear)
    ensures id.Some? && !IsBlank(id.value) && id.value in m ==> r == Failure(IdDuplicado(id.value))
    ensures id.Some? && !IsBlank(id.value) && id.value !in m ==>
              match Validate(id, titulo, descripcion, prioridad, fecha, today)
              case Success(t) => r == Success(t)
              case Failure(e) => r == Failure(TareaInvalida(e))
    ensures r.Success? ==> id == Some(r.value.id) && r.value.id !in m
    ensures r.Success? ==> TareaValida(r.value) && today <= r.value.fechaVencimiento
  {
    if id.None? || Trim(id.value) == [] then Failure(IdVacioAlCrear)
    else if id.value in m then Failure(IdDuplicado(id.value))
    else
      match Validate(id, titulo, descripcion, prioridad, fecha, today)
      case Success(t) => Success(t)
      case Failure(e) => Failure(TareaInvalida(e))
  }

  /** What `buscarTareaPorId` returns: an error for a blank id, otherwise the stored task if any. */
  function Buscar(m: map<string, Tarea>, id: Option<string>): (r: Result<Option<Tarea>, Error>)
    ensures r.Failure? <==> id.None? || IsBlank(id.value)
    ensures r.Failure? ==> r.error == IdVacioAlBuscar
    ensures r == Success(None) <==> id.Some? && !IsBlank(id.value) && id.value !in m
    ensures forall t :: r == Success(Some(t)) <==> id.Some? && id.value in m && m[id.value] == t && !IsBlank(id.value)
  {
    if id.None? || Trim(id.value) == [] then Failure(IdVacioAlBuscar)
    else if id.value in m then Success(Some(m[id.value]))
    else Success(None)
  }

  class GestorTareas {
    /** `repositorioTareas`: the exact id string of each stored task, mapped to the task. */
    var repositorio: map<string, Tarea>

    ghost predicate Valid()
      reads this
    {
      RepoInv(repositorio)
    }

    /** A new manager holds no task. */
    constructor ()
      ensures Valid()
      ensures repositorio == map[]
    {
      repositorio := map[];
    }

    /**
     * `crearTarea`, run on the day `today`: on success the new task is stored under its
     * id and every other entry is untouched; on failure nothing changes.
     */
    method CrearTarea(id: Option<string>, titulo: Option<string>, descripcion: Option<string>,
                      prioridad: Option<Prioridad>, fecha: Option<int>, today: int)
      returns (r: Result<Tarea, Error>)
      requires Valid()
      modifies this
      ensures Valid()
      ensures r == Crear(old(repositorio), id, titulo, descripcion, prioridad, fecha, today)
      ensures r.Success? ==> repositorio == old(repositorio)[r.value.id := r.value]
      ensures r.Failure? ==> repositorio == old(repositorio)
    {
      if id.None? || Trim(id.value) == [] {
        return Failure(IdVacioAlCrear);
      }
      if id.value in repositorio {
        return Failure(IdDuplicado(id.value));
      }
      var nueva := Validate(id, titulo, descripcion, prioridad, fecha, today);
      if nueva.Failure? {
        return Failure(TareaInvalida(nueva.error));
      }
      repositorio := repositorio[nueva.value.id := nueva.value];
      r := Success(nueva.value);
    }

    /** `buscarTareaPorId`: a read-only lookup by the exact id string. */
    method BuscarTareaPorId(id: Option<string>) returns (r: Result<Option<Tarea>, Error>)
      ensures r == Buscar(repositorio, id)
    {
      if id.None? || Trim(id.value) == [] {
        return Failure(IdVacioAlBuscar);
      }
      if id.value in repositorio {
        r := Success(Some(repositorio[id.value]));
      } else {
        r := Success(None);
      }
    }

    /**
     * `obtenerTodasLasTareas`: a fresh list holding each stored task exactly once,
     * in an order the model leaves open (the map's iteration order).
     */
    method ObtenerTodasLasTareas() returns (r: seq<Tarea>)
      requires Valid()
      ensures |r| == |repositorio|
      ensures forall i :: 0 <= i < |r| ==> r[i].id in repositorio && repositorio[r[i].id] == r[i]
      ensures forall k :: k in repositorio ==> repositorio[k] in r
      ensures forall i, j :: 0 <= i < j < |r| ==> r[i] != r[j]
    {
      r := ValuesOf(repositorio);
    }
  }

  /** The values of `m` in some order, each exactly once (`new ArrayList<>(m.values())`). */
  method ValuesOf(m: map<string, Tarea>) returns (r: seq<Tarea>)
    requires KeysAreIds(m)
    ensures |r| == |m|
    ensures forall i :: 0 <= i < |r| ==> r[i].id in m && m[r[i].id] == r[i]
    ensures forall k :: k in m ==> m[k] in r
    ensures forall i, j :: 0 <= i < j < |r| ==> r[i] != r[j]
  {
    var pendientes := m.Keys;
    r := [];
    while pendientes != {}
      invariant pendientes <= m.Keys
      invariant |r| + |pendientes| == |m|
      invariant forall i :: 0 <= i < |r| ==> r[i].id in m && r[i].id !in pendientes && m[r[i].id] == r[i]
      invariant forall k :: k in m && k !in pendientes ==> m[k] in r
      invariant forall i, j :: 0 <= i < j < |r| ==> r[i] != r[j]
      decreases |pendientes|
    {
      var k :| k in pendientes;
      r := r + [m[k]];
      pendientes := pendientes - {k};
    }
  }

  /** When every check passes, creation succeeds with a task holding exactly the arguments. */
  lemma CrearSucceedsWhenValid(m: map<string, Tarea>, id: string, titulo: string, descripcion: string,
                               prioridad: Prioridad, fecha: int, today: int)
    requires ParseLong(Some(id)).Some? && id !in m
    requires !IsBlank(titulo) && !IsBlank(descripcion) && today <= fecha
    ensures Crear(m, Some(id), Some(titulo), Some(descripcion), Some(prioridad), Some(fecha), today)
            == Success(Tarea(id, titulo, descripcion, prioridad, fecha))
  {

  }

  /** With every other check passing, a due date before today is what creation reports. */
  lemma CrearRejectsPastDate(m: map<string, Tarea>, id: string, titulo: string, descripcion: string,
                             prioridad: Prioridad, fecha: int, today: int)
    requires ParseLong(Some(id)).Some? && id !in m
    requires !IsBlank(titulo) && !IsBlank(descripcion) && fecha < today
    ensures Crear(m, Some(id), Some(titulo), Some(descripcion), Some(prioridad), Some(fecha), today)
            == Failure(TareaInvalida(FechaAnterior))
  {

  }

  /** Storing a constructed task under its own id keeps the repository invariant. */
  lemma InsertPreservesInv(m: map<string, Tarea>, t: Tarea)
    requires RepoInv(m) && TareaValida(t)
    ensures RepoInv(m[t.id := t])
  {

  }

  /** A successful creation keeps the repository invariant and adds exactly one key. */
  lemma CrearPreservesInv(m: map<string, Tarea>, id: Option<string>, titulo: Option<string>,
                          descripcion: Option<string>, prioridad: Option<Prioridad>,
                          fecha: Option<int>, today: int, t: Tarea)
    requires RepoInv(m)
    requires Crear(m, id, titulo, descripcion, prioridad, fecha, today) == Success(t)
    ensures RepoInv(m[t.id := t])
    ensures |m[t.id := t]| == |m| + 1 && m[t.id := t].Keys == m.Keys + {t.id}
  {
    InsertPreservesInv(m, t);
  }

  /** Creating and then looking up the same id finds the task that was created. */
  lemma CrearThenBuscar(m: map<string, Tarea>, id: Option<string>, titulo: Option<string>,
                        descripcion: Option<string>, prioridad: Option<Prioridad>,
                        fecha: Option<int>, today: int)
    requires Crear(m, id, titulo, descripcion, prioridad, fecha, today).Success?
    ensures var t := Crear(m, id, titulo, descripcion, prioridad, fecha, today).value;
            Buscar(m[t.id := t], id) == Success(Some(t))
  {
  }

  /** Once an id is stored, creating it again fails whatever the other arguments are. */
  lemma CrearTwiceFails(m: map<string, Tarea>, id: Option<string>, titulo: Option<string>,
                        descripcion: Option<string>, prioridad: Option<Prioridad>,
                        fecha: Option<int>, today: int,
                        titulo2: Option<string>, descripcion2: Option<string>,
                        prioridad2: Option<Prioridad>, fecha2: Option<int>, today2: int)
    requires Crear(m, id, titulo, descripcion, prioridad, fecha, today).Success?
    ensures var t := Crear(m, id, titulo, descripcion, prioridad, fecha, today).value;
            Crear(m[t.id := t], id, titulo2, descripcion2, prioridad2, fecha2, today2)
              == Failure(IdDuplicado(t.id))
  {
  }
}
