/**
 * Client code: the first checks of the repository's unit tests, each written
 * against the manager's contracts alone. Day numbers are relative to `hoy`.
 */
module Escenarios {
  import opened Wrappers
  import opened JavaLang
  import opened Prioridades
  import opened Tareas
  import opened Gestion

  /** A valid creation returns a task carrying the given id. */
  method CrearConDatosValidos(hoy: int)
  {
    var gestor := new GestorTareas();
    ShortDigitsParse("12345");
    NotBlankByFirst("Implementar API");
    NotBlankByFirst("Endpoints");
    CrearSucceedsWhenValid(map[], "12345", "Implementar API", "Endpoints", Alta, hoy + 1, hoy);
    var creada := gestor.CrearTarea(Some("12345"), Some("Implementar API"), Some("Endpoints"), Some(Alta), Some(hoy + 1), hoy);
    assert creada.Success? && creada.value.id == "12345";
    assert gestor.repositorio == map["12345" := creada.value];
  }

  /** A non-numeric id is rejected and nothing is stored. */
  method CrearConIdNoNumerico(hoy: int)
  {
    var gestor := new GestorTareas();
    NotBlankByFirst("abc");
    ParseLongRejects();
    var r := gestor.CrearTarea(Some("abc"), Some("Título"), Some("Desc"), Some(Media), Some(hoy + 1), hoy);
    assert r == Failure(TareaInvalida(IdNoNumerico));
    assert gestor.repositorio == map[];
  }

  /** A due date the day before today is rejected and nothing is stored. */
  method CrearConFechaAnterior(hoy: int)
  {
    var gestor := new GestorTareas();
    ShortDigitsParse("67890");
    NotBlankByFirst("Tarea Urgente");
    NotBlankByFirst("Desc");
    CrearRejectsPastDate(map[], "67890", "Tarea Urgente", "Desc", Alta, hoy - 1, hoy);
    var r := gestor.CrearTarea(Some("67890"), Some("Tarea Urgente"), Some("Desc"), Some(Alta), Some(hoy - 1), hoy);
    assert r == Failure(TareaInvalida(FechaAnterior));
    assert gestor.repositorio == map[];
  }

  /** A second creation under an existing id fails and the first task stays. */
  method CrearConIdDuplicado(hoy: int)
  {
    var gestor := new GestorTareas();
    ShortDigitsParse("111");
    NotBlankByFirst("111");
    NotBlankByFirst("Tarea Inicial");
    NotBlankByFirst("Desc");
    CrearSucceedsWhenValid(map[], "111", "Tarea Inicial", "Desc", Media, hoy + 1, hoy);
    var primera := gestor.CrearTarea(Some("111"), Some("Tarea Inicial"), Some("Desc"), Some(Media), Some(hoy + 1), hoy);
    assert primera.Success?;
    var segunda := gestor.CrearTarea(Some("111"), Some("Otra Tarea"), Some("Desc"), Some(Baja), Some(hoy + 2), hoy);
    assert segunda == Failure(IdDuplicado("111"));
    assert gestor.repositorio == map["111" := primera.value];
  }

  /** Lookups of a stored id, an unknown id and a blank id. */
  method BuscarPorId(hoy: int)
  {
    var gestor := new GestorTareas();
    ShortDigitsParse("100");
    NotBlankByFirst("100");
    NotBlankByFirst("999");
    NotBlankByFirst("Tarea Hoy Alta");
    NotBlankByFirst("Desc Hoy");
    CrearSucceedsWhenValid(map[], "100", "Tarea Hoy Alta", "Desc Hoy", Alta, hoy, hoy);
    var creada := gestor.CrearTarea(Some("100"), Some("Tarea Hoy Alta"), Some("Desc Hoy"), Some(Alta), Some(hoy), hoy);
    assert creada.Success?;
    var encontrada := gestor.BuscarTareaPorId(Some("100"));
    assert encontrada == Success(Some(creada.value)) && creada.value.id == "100";
    var ausente := gestor.BuscarTareaPorId(Some("999"));
    assert ausente == Success(None);
    var vacia := gestor.BuscarTareaPorId(Some("  "));
    assert vacia == Failure(IdVacioAlBuscar);
  }

  /** The listing of a repository holding one task is that task alone. */
  method ListarTodas(hoy: int)
  {
    var gestor := new GestorTareas();
    ShortDigitsParse("100");
    NotBlankByFirst("Tarea Hoy Alta");
    NotBlankByFirst("Desc Hoy");
    CrearSucceedsWhenValid(map[], "100", "Tarea Hoy Alta", "Desc Hoy", Alta, hoy, hoy);
    var creada := gestor.CrearTarea(Some("100"), Some("Tarea Hoy Alta"), Some("Desc Hoy"), Some(Alta), Some(hoy), hoy);
    var todas := gestor.ObtenerTodasLasTareas();
    assert todas == [creada.value];
  }
}
