/** The priority of a task (the Java enum `Prioridad`). */
module Prioridades {

  datatype Prioridad = Alta | Media | Baja
}
