# Task manager: validated tasks in an in-memory repository

This project models the core of a small Java task tracker (`com.equipo3.tareas`)
and proves properties of the model in Dafny.

The core has two parts.

- **The task entity `Tarea`.** Its constructor checks seven guards in a fixed
  order and throws `IllegalArgumentException` at the first one that fails:
  1. the id is null or blank;
  2. the id is not a Java `long`;
  3. the title is null or blank;
  4. the description is null or blank;
  5. the priority is null;
  6. the due date is null;
  7. the due date is before today.

  If every guard passes, the constructor stores its five arguments unchanged. No
  field changes afterwards. Two tasks are equal, and hash alike, when their ids
  are equal.
- **The manager `GestorTareas`.** It holds a `HashMap<String, Tarea>` keyed by the
  exact id string. `crearTarea` rejects a blank id, then an id that is already a
  key, then hands over to the `Tarea` constructor. It inserts the task only when
  all of these pass. `buscarTareaPorId` is a lookup. `obtenerTodasLasTareas`
  copies every stored task into a new list.

How the Java maps to Dafny:

- `Wrappers.dfy`: `Option` stands for a nullable reference, and `Result` for a
  call that returns a value or throws.
- `JavaLang.dfy`: the JDK calls the core depends on.
  - `String.trim()` and its emptiness test, as `Trim` and `IsBlank`.
  - `Long.parseLong`, as `ParseLong`: an optional sign, at least one ASCII digit,
    and a value in [-2^63, 2^63-1]. A null argument fails too.
  - `String.hashCode`, with its 32-bit wrap-around written out.
- `Prioridad.dfy`: the enum `Prioridad` (`alta`, `media`, `baja`) as the
  datatype `Prioridad`.
- `Tarea.dfy`: the task as an immutable datatype.
  - The constructor becomes the pure function `Validate`, which returns
    `Result<Tarea, ValidationError>`.
  - Each getter is the field of the same name.
  - `equals` and `hashCode` become `Equals` and `HashCode`.
  - `LocalDate.now()` becomes the parameter `today`, and dates are integer day
    numbers. Only the `isBefore` comparison is used, so no calendar arithmetic
    is needed.
- `GestorTareas.dfy`: the manager as the class `GestorTareas`.
  - It has one field, `repositorio: map<string, Tarea>`, and the invariant
    `RepoInv`: each key holds a validated task whose id is that key.
  - `CrearTarea` modifies the field.
  - `BuscarTareaPorId` and `ObtenerTodasLasTareas` only read it.
  - `Crear` and `Buscar` are the pure specifications of the two operations that
    return a result. The lemmas relate them to each other.
- `Escenarios.dfy`: client methods that adapt the creation and lookup checks of
  `GestorTareasTest.java:41-76`, using only the manager's contracts. Each one
  starts from an empty manager rather than from the five tasks that `setUp`
  creates (`GestorTareasTest.java:31-35`). `ListarTodas`, the lookup of the
  absent id `"999"` and the lookup of a blank id are additions with no
  counterpart in that test file.

Choices the Java code settles:

- A task has no status field. `Tarea.java` and `GestorTareas.java` define no
  status, no status transitions and no listing by priority or due window, so
  the model has none of them.
- "Numeric" means "parses as a signed 64-bit `long`", because the guard calls
  `Long.parseLong` (`Tarea.java:35`).
- The exception messages are the Spanish texts of `Tarea.java` and
  `GestorTareas.java` (`Message`, `ErrorMessage`).
- A priority outside the three values cannot happen: a Java enum argument is
  either one of its constants or `null`.

## Model

| member | source | states |
|---|---|---|
| `JavaLang.Trim` | proyecto-tareas/src/main/java/com/equipo3/tareas/Tarea.java:31 | `trim()` is empty exactly when every character is at most U+0020; a non-empty result starts and ends above U+0020 |
| `JavaLang.ParseLong` | proyecto-tareas/src/main/java/com/equipo3/tareas/Tarea.java:34-38 | any value `Long.parseLong` accepts lies in [-2^63, 2^63-1] |
| `JavaLang.ParsedHasNoSpace` | proyecto-tareas/src/main/java/com/equipo3/tareas/Tarea.java:34-38 | a string that parses has no character at most U+0020, so an untrimmed id such as `" 12"` is rejected |
| `JavaLang.ParseLongToString` | proyecto-tareas/src/main/java/com/equipo3/tareas/Tarea.java:34-38 | every 64-bit value, written in canonical decimal form, parses back to itself |
| `JavaLang.ShortDigitsParse` | proyecto-tareas/src/main/java/com/equipo3/tareas/Tarea.java:34-38 | any string of 1 to 18 ASCII digits parses, to the value of its digits |
| `JavaLang.ParseLongNonCanonical` | proyecto-tareas/src/main/java/com/equipo3/tareas/Tarea.java:35 | `"+1"`, `"007"` and `"-0"` parse, to 1, 7 and 0 |
| `JavaLang.ParseLongRejects` | proyecto-tareas/src/main/java/com/equipo3/tareas/Tarea.java:35 | `" 12"`, `"12 "`, `""`, `"-"`, `"abc"` and null do not parse |
| `JavaLang.ParseLongOutOfRange` | proyecto-tareas/src/main/java/com/equipo3/tareas/Tarea.java:34-38 | a decimal integer outside [-2^63, 2^63-1], written in canonical form, does not parse |
| `JavaLang.ParseLongBoundary` | proyecto-tareas/src/main/java/com/equipo3/tareas/Tarea.java:34-38 | the canonical decimal forms of 2^63-1 and -2^63 parse to themselves; those of 2^63 and -2^63-1 do not parse |
| `JavaLang.StringHash` | proyecto-tareas/src/main/java/com/equipo3/tareas/Tarea.java:107 | `String.hashCode` is a Java `int` in [-2^31, 2^31-1], and the empty string hashes to 0 |
| `JavaLang.StringHashExample` | proyecto-tareas/src/main/java/com/equipo3/tareas/Tarea.java:107 | `"100".hashCode()` is 48625, the 31-based polynomial of its characters |
| `Tareas.Message` | proyecto-tareas/src/main/java/com/equipo3/tareas/Tarea.java:32-55 | every guard throws a non-empty message |
| `Tareas.MessagesDistinct` | proyecto-tareas/src/main/java/com/equipo3/tareas/Tarea.java:32-55 | the seven guards throw seven different messages |
| `Tareas.Validate` | proyecto-tareas/src/main/java/com/equipo3/tareas/Tarea.java:29-63 | a failure names a guard that rejects the arguments, and every earlier guard in the chain accepts them. Success means no guard fails. On success the task's fields are the arguments, unmodified and untrimmed, and the task is valid with a due date not before today |
| `Tareas.BlankIdIsNotNumeric` | proyecto-tareas/src/main/java/com/equipo3/tareas/Tarea.java:31-38 | a null or blank id would also fail the numeric guard, so the order of the first two guards decides only which message is thrown |
| `Tareas.ValidateAccepts` | proyecto-tareas/src/main/java/com/equipo3/tareas/Tarea.java:58-84 | arguments that pass every guard build the task holding exactly those arguments, so each getter (a field of the datatype `Tarea`) returns its argument unchanged |
| `Tareas.ValidateRejectsPastDate` | proyecto-tareas/src/main/java/com/equipo3/tareas/Tarea.java:54-56 | when every other guard passes, a due date before today is rejected, with the past-date error |
| `Tareas.DueDateBoundary` | proyecto-tareas/src/main/java/com/equipo3/tareas/Tarea.java:54-56 | a due date equal to today is accepted, and the day before is rejected |
| `Tareas.EqualsIsIdEquivalence` | proyecto-tareas/src/main/java/com/equipo3/tareas/Tarea.java:97-103 | two tasks are equal exactly when their ids are equal, whatever their other fields; null is never equal; equality is reflexive, symmetric and transitive |
| `Tareas.EqualsAgreesWithHashCode` | proyecto-tareas/src/main/java/com/equipo3/tareas/Tarea.java:97-108 | equal tasks have equal `Objects.hash(id)` |
| `Tareas.Equals` | proyecto-tareas/src/main/java/com/equipo3/tareas/Tarea.java:97-103 | an equal argument is non-null and hashes like the task (the `equals`/`hashCode` contract); a task equals itself |
| `Tareas.HashCode` | proyecto-tareas/src/main/java/com/equipo3/tareas/Tarea.java:105-108 | the hash is a Java `int`, congruent modulo 2^32 to 31 + `id.hashCode()` |
| `Tareas.HashCodeExample` | proyecto-tareas/src/main/java/com/equipo3/tareas/Tarea.java:105-108 | a task with id `"100"` hashes to 48656 = 31 + 48625 |
| `Gestion.ErrorMessage` | proyecto-tareas/src/main/java/com/equipo3/tareas/GestorTareas.java:43-66 | every manager error has a non-empty message; the duplicate message ends with the offending id; a constructor error keeps the message of the constructor |
| `Gestion.Crear` | proyecto-tareas/src/main/java/com/equipo3/tareas/GestorTareas.java:39-53 | a blank id fails first, whatever the map holds. A key already present fails next, whatever the other fields are. Otherwise the result is the constructor's result, with its error wrapped. A created task has the given id, was not a key before, and is valid |
| `Gestion.Buscar` | proyecto-tareas/src/main/java/com/equipo3/tareas/GestorTareas.java:62-70 | fails exactly for a null or blank id. Otherwise the result is `Some(m[id])` when the exact string is a key, and `None` when it is not |
| `Gestion.GestorTareas.constructor` | proyecto-tareas/src/main/java/com/equipo3/tareas/GestorTareas.java:22-24 | a new manager has an empty repository that satisfies the invariant |
| `Gestion.GestorTareas.CrearTarea` | proyecto-tareas/src/main/java/com/equipo3/tareas/GestorTareas.java:39-53 | returns what `Crear` gives on the old map. On success the new map is the old map plus `id ↦ t`, with every other entry unchanged. On any failure the map is unchanged. The invariant is kept |
| `Gestion.GestorTareas.BuscarTareaPorId` | proyecto-tareas/src/main/java/com/equipo3/tareas/GestorTareas.java:62-70 | returns what `Buscar` gives on the current map, and changes nothing |
| `Gestion.GestorTareas.ObtenerTodasLasTareas` | proyecto-tareas/src/main/java/com/equipo3/tareas/GestorTareas.java:77-79 | the list holds every stored task, and only stored tasks, each exactly once; its length is the number of keys |
| `Gestion.ValuesOf` | proyecto-tareas/src/main/java/com/equipo3/tareas/GestorTareas.java:78 | copying the values of a map whose keys are their tasks' ids yields each value once, in some order |
| `Gestion.CrearSucceedsWhenValid` | proyecto-tareas/src/main/java/com/equipo3/tareas/GestorTareas.java:49-52 | a fresh, numeric id with a non-blank title and description and a due date not before today is always created, holding exactly the arguments |
| `Gestion.CrearRejectsPastDate` | proyecto-tareas/src/main/java/com/equipo3/tareas/GestorTareas.java:49 | when every other check passes, a due date before today makes creation fail with the constructor's past-date error |
| `Gestion.InsertPreservesInv` | proyecto-tareas/src/main/java/com/equipo3/tareas/GestorTareas.java:50 | storing a valid task under its own id keeps the repository invariant |
| `Gestion.CrearPreservesInv` | proyecto-tareas/src/main/java/com/equipo3/tareas/GestorTareas.java:45-50 | a successful creation keeps the invariant and adds exactly one new key |
| `Gestion.CrearThenBuscar` | proyecto-tareas/src/main/java/com/equipo3/tareas/GestorTareas.java:49-69 | after a successful creation, looking up the same id returns the task just created |
| `Gestion.CrearTwiceFails` | proyecto-tareas/src/main/java/com/equipo3/tareas/GestorTareas.java:45-50 | once an id is stored, creating it again fails with the duplicate error, whatever the other arguments and the date are |

## Left out

- `App.java` is not part of this model. It is the console menu: reading input,
  printing, timing with `System.nanoTime`, and re-prompting.
- The `System.out.println` confirmation in `crearTarea` (`GestorTareas.java:51`)
  and `Tarea.toString` are left out. Both are presentation only.
- `LocalDate.now()` is replaced by the parameter `today`. A stored task was
  checked against the `today` of its own creation call. So the repository
  invariant `RepoInv` does not repeat the due-date check: later calls may pass a
  later day.
- The status workflow (`EstadoTarea`, `getEstado`, `actualizarEstadoTarea`) and
  the listing queries (`listarTareasPorPrioridad`, `listarTareasProximasAVencer`)
  are left out. Only the test file calls them. `Tarea.java` and
  `GestorTareas.java` define none of them.
- `JavaLang.ParseLong`: accepts only ASCII digits. Java's `Character.digit` also
  accepts other Unicode decimal digits.
- `JavaLang.StringHash`: hashes one Dafny `char` per step. Java hashes UTF-16
  code units, so the two differ for characters above U+FFFF. `Trim` and
  `IsBlank` are not affected, because surrogate code units are above U+0020.
- `Gestion.GestorTareas.ObtenerTodasLasTareas`: leaves the order of the result
  open. `HashMap` iteration order is unspecified. The returned `ArrayList` is a
  fresh list, so aliasing does not come up.
- `Tareas.Equals` compares a task with a task or null. The `getClass()` test
  against objects of other classes and the `this == o` shortcut have no
  counterpart, because tasks are values here.
