/** The event record shared by the bus, the sinks and the watch endpoint. */
module EventTypes {
  datatype Option<+T> = None | Some(value: T)

  /** Times are integers (nanoseconds since some origin); a duration is a difference of two times. */
  datatype Event = Event(
    id: string,
    time: int,
    component: string,
    category: string,
    resource: string,
    action: string,
    outcome: string,
    severity: string,
    task: string,
    missionId: int,
    objectiveId: string,
    detail: string,
    attrs: map<string, string>)

  predicate IsTerminalAction(action: string) {
    action == "lifecycle.completed" || action == "lifecycle.failed" || action == "lifecycle.stopped"
  }

  /** Event ids are UUIDs generated at emit time: no two positions of a history share one. */
  ghost predicate UniqueIds(h: seq<Event>) {
    forall i, j :: 0 <= i < j < |h| ==> h[i].id != h[j].id
  }
}
