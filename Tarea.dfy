/**
 * The task entity (`Tarea`). Its Java constructor is a chain of guards that
 * either throws `IllegalArgumentException` or assigns five fields that never
 * change afterwards, so a task is a value and the constructor is `Validate`.
 * Dates are day numbers; the current date is the parameter `today`.
 */
module Tareas {
  import opened Wrappers
  import opened JavaLang
  import opened Prioridades

  datatype Tarea = Tarea(
    id: string,
    titulo: string,
    descripcion: string,
    prioridad: Prioridad,
    fechaVencimiento: int)

  /** The reasons the constructor throws, one per guard. */
  datatype ValidationError =
    | IdVacio
    | IdNoNumerico
    | TituloVacio
    | DescripcionVacia
    | PrioridadNula
    | FechaNula
    | FechaAnterior

  /** The text of the exception each guard throws. */
  function Message(e: ValidationError): (r: string)
    ensures |r| > 0
  {
    match e
    case IdVacio => "El ID de la tarea no puede ser nulo ni vacío."
    case IdNoNumerico => "El ID de la tarea debe ser un valor numérico."
    case TituloVacio => "El título de la tarea no puede ser nulo ni vacío."
    case DescripcionVacia => "La descripción de la tarea no puede ser nula ni vacía."
    case PrioridadNula => "La prioridad de la tarea no puede ser nula."
    case FechaNula => "La fecha de vencimiento de la tarea no puede ser nula."
    case FechaAnterior => "La fecha de vencimiento no puede ser anterior a la fecha actual."
  }

  /** The position of a guard in the constructor's chain. */
  function Rank(e: ValidationError): nat {
    match e
    case IdVacio => 0
    case IdNoNumerico => 1
    case TituloVacio => 2
    case DescripcionVacia => 3
    case PrioridadNula => 4
    case FechaNula => 5
    case FechaAnterior => 6
  }

  /** Whether the guard behind `e`, taken on its own, rejects the arguments. */
  predicate Fails(e: ValidationError, id: Option<string>, titulo: Option<string>,
                  descripcion: Option<string>, prioridad: Option<Prioridad>,
                  fecha: Option<int>, today: int)
  {
    match e
    case IdVacio => id.None? || IsBlank(id.value)
    case IdNoNumerico => ParseLong(id).None?
    case TituloVacio => titulo.None? || IsBlank(titulo.value)
    case DescripcionVacia => descripcion.None? || IsBlank(descripcion.value)
    case PrioridadNula => prioridad.None?
    case FechaNula => fecha.None?
    case FechaAnterior => fecha.Some? && fecha.value < today
  }

  /** What every constructed task satisfies, whatever the date is now. */
  predicate TareaValida(t: Tarea) {
    && !IsBlank(t.id)
    && ParseLong(Some(t.id)).Some?
    && !IsBlank(t.titulo)
    && !IsBlank(t.descripcion)
  }

  /**
   * The constructor `new Tarea(id, titulo, descripcion, prioridad, fechaVencimiento)`
   * run on the day `today`. It fails with the first guard, in chain order, that
   * rejects its arguments; otherwise the task holds the arguments unchanged.
   * (The first two clauses together say: success exactly when no guard fails.)
   */
  function Validate(id: Option<string>, titulo: Option<string>, descripcion: Option<string>,
                    prioridad: Option<Prioridad>, fecha: Option<int>, today: int)
    : (r: Result<Tarea, ValidationError>)
    ensures r.Failure? ==> Fails(r.error, id, titulo, descripcion, prioridad, fecha, today)
    ensures r.Success? ==> forall e :: !Fails(e, id, titulo, descripcion, prioridad, fecha, today)
    ensures r.Failure? ==> forall e :: Rank(e) < Rank(r.error) ==>
                             !Fails(e, id, titulo, descripcion, prioridad, fecha, today)
    ensures r.Success? ==> && id == Some(r.value.id)
                           && titulo == Some(r.value.titulo)
                           && descripcion == Some(r.value.descripcion)
                           && prioridad == Some(r.value.prioridad)
                           && fecha == Some(r.value.fechaVencimiento)
    ensures r.Success? ==> TareaValida(r.value) && today <= r.value.fechaVencimiento
  {
    if id.None? || Trim(id.value) == [] then Failure(IdVacio)
    else if ParseLong(id).None? then Failure(IdNoNumerico)
    else if titulo.None? || Trim(titulo.value) == [] then Failure(TituloVacio)
    else if descripcion.None? || Trim(descripcion.value) == [] then Failure(DescripcionVacia)
    else if prioridad.None? then Failure(PrioridadNula)
    else if fecha.None? then Failure(FechaNula)
    else if fecha.value < today then Failure(FechaAnterior)
    else Success(Tarea(id.value, titulo.value, descripcion.value, prioridad.value, fecha.value))
  }

  /** A blank id is never numeric either, so the first two guards overlap only in their message. */
  lemma BlankIdIsNotNumeric(id: Option<string>)
    requires id.None? || IsBlank(id.value)
    ensures ParseLong(id).None?
  {

  }

  /** Arguments that pass every guard build the task holding exactly those arguments. */
  lemma ValidateAccepts(id: string, titulo: string, descripcion: string, prioridad: Prioridad,
                        fecha: int, today: int)
    requires ParseLong(Some(id)).Some? && !IsBlank(titulo) && !IsBlank(descripcion) && today <= fecha
    ensures Validate(Some(id), Some(titulo), Some(descripcion), Some(prioridad), Some(fecha), today)
            == Success(Tarea(id, titulo, descripcion, prioridad, fecha))
  {

  }

  /** Arguments that pass every guard but the last are rejected for a due date before today. */
  lemma ValidateRejectsPastDate(id: string, titulo: string, descripcion: string, prioridad: Prioridad,
                                fecha: int, today: int)
    requires ParseLong(Some(id)).Some? && !IsBlank(titulo) && !IsBlank(descripcion) && fecha < today
    ensures Validate(Some(id), Some(titulo), Some(descripcion), Some(prioridad), Some(fecha), today)
            == Failure(FechaAnterior)
  {

  }

  /** A due date equal to today is accepted; the day before is rejected with its own error. */
  lemma DueDateBoundary(id: string, titulo: string, descripcion: string, prioridad: Prioridad, today: int)
    requires ParseLong(Some(id)).Some? && !IsBlank(titulo) && !IsBlank(descripcion)
    ensures Validate(Some(id), Some(titulo), Some(descripcion), Some(prioridad), Some(today), today).Success?
    ensures Validate(Some(id), Some(titulo), Some(descripcion), Some(prioridad), Some(today - 1), today)
            == Failure(FechaAnterior)
  {

  }

  /** Distinct guards throw distinct messages, so the message tells which guard failed. */
  lemma MessagesDistinct(a: ValidationError, b: ValidationError)
    requires a != b
    ensures Message(a) != Message(b)
  {
  }

  /** `equals(Object o)`: `null` is unequal; otherwise the ids alone decide. */
  predicate Equals(t: Tarea, o: Option<Tarea>)
    ensures Equals(t, o) ==> o.Some? && HashCode(t) == HashCode(o.value)
    ensures o == Some(t) ==> Equals(t, o)
  {
    o.Some? && t.id == o.value.id
  }

  /** `hashCode()`, that is `Objects.hash(id)` = 31 * 1 + `id.hashCode()` in `int` arithmetic. */
  function HashCode(t: Tarea): (r: int)
    ensures -0x8000_0000 <= r < 0x8000_0000
    ensures (r - (31 + StringHash(t.id))) % TwoTo32 == 0
  {
    WrapInt(31 + StringHash(t.id))
  }

  /** `Objects.hash("100")` is 31 + `"100".hashCode()` = 31 + 48625. */
  lemma HashCodeExample(t: Tarea)
    requires t.id == "100"
    ensures HashCode(t) == 48656
  {
    StringHashExample();
  }

  /** Equality is by id only, and it is an equivalence that `null` never satisfies. */
  lemma EqualsIsIdEquivalence(a: Tarea, b: Tarea, c: Tarea)
    ensures Equals(a, Some(b)) <==> a.id == b.id
    ensures !Equals(a, None)
    ensures Equals(a, Some(a))
    ensures Equals(a, Some(b)) ==> Equals(b, Some(a))
    ensures Equals(a, Some(b)) && Equals(b, Some(c)) ==> Equals(a, Some(c))
  {
  }

  /** Tasks that are equal have equal hash codes. */
  lemma EqualsAgreesWithHashCode(a: Tarea, b: Tarea)
    requires Equals(a, Some(b))
    ensures HashCode(a) == HashCode(b)
  {
  }
}
