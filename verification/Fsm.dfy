/** The finite state machine that every runnable carries.

The transition table belongs to a library that is not part of this model, so it
is a parameter: a set of legal edges about which only the edges that the
repository itself relies on are assumed (`ShownEdges`).
*/
module Fsm {
  datatype Status = New | Booting | Running | Reloading | Stopping | Stopped | Error | Unknown

  type Table = set<(Status, Status)>

  /** The edges the repository's own code and comments show to be legal or illegal. */
  ghost predicate ShownEdges(table: Table) {
    && (New, Booting) in table && (Booting, Running) in table
    && (Running, Reloading) in table && (Reloading, Running) in table
    && (Running, Stopping) in table && (Stopping, Stopped) in table
    && (Reloading, Stopped) !in table
    && (Error, Running) !in table
    && (Error, Reloading) !in table
  }

  /** Transition: an illegal edge is refused and leaves the status alone. */
  function Transition(table: Table, current: Status, target: Status): Status {
    if (current, target) in table then target else current
  }

  /** TransitionIfCurrentState: refused unless the machine is in `from`. */
  function TransitionIf(table: Table, current: Status, from: Status, target: Status): Status {
    if current == from then Transition(table, current, target) else current
  }
}
