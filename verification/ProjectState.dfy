// The state object of one project's pipeline: four stages, each changed in place.
module ProjectStates {
  import opened Prelude

  datatype Status = Pending | Running | AwaitingConfirmation | Confirmed | Error

  datatype StageName = Requirement | Design | Task | Pm

  // The stages that `can_start_stage` and `advance_to_next_stage` know about.
  const GUARDED_STAGES: seq<StageName> := [Requirement, Design]

  // One stage as it is dumped into a snapshot or a database row.
  datatype StageRow = StageRow(
    status: Status,
    subStage: Option<string>,
    startedAt: Option<string>,
    completedAt: Option<string>,
    documentPath: Option<string>,
    errorMessage: Option<string>)

  const FRESH_STAGE := StageRow(Pending, None, None, None, None, None)

  // The keyword arguments of `set_stage_status`; None stands for an argument not passed.
  datatype Extras = Extras(subStage: Option<string>, documentPath: Option<string>, errorMessage: Option<string>)

  const NO_EXTRAS := Extras(None, None, None)

  // A dumped project state: what is cached, stored and carried by a waiting request.
  datatype Snapshot = Snapshot(
    requirement: StageRow,
    design: StageRow,
    task: StageRow,
    pm: StageRow,
    currentStage: StageName,
    sessionId: Option<string>)
  {
    function Stage(name: StageName): StageRow {
      match name
      case Requirement => requirement
      case Design => design
      case Task => task
      case Pm => pm
    }

    function WithStage(name: StageName, row: StageRow): Snapshot {
      match name
      case Requirement => this.(requirement := row)
      case Design => this.(design := row)
      case Task => this.(task := row)
      case Pm => this.(pm := row)
    }

    function SetStatus(name: StageName, status: Status, now: string, extras: Extras): Snapshot {
      WithStage(name, RowAfter(Stage(name), status, now, extras))
    }
  }

  function FreshSnapshot(sessionId: Option<string>): Snapshot {
    Snapshot(FRESH_STAGE, FRESH_STAGE, FRESH_STAGE, FRESH_STAGE, Requirement, sessionId)
  }

  // An absent or empty timestamp counts as not started.
  predicate Blank(time: Option<string>) {
    time.None? || time.value == ""
  }

  function Override(passed: Option<string>, current: Option<string>): Option<string> {
    if passed.Some? then passed else current
  }

  function RowAfter(row: StageRow, status: Status, now: string, extras: Extras): StageRow {
    StageRow(
      status,
      Override(extras.subStage, row.subStage),
      if status == Running && Blank(row.startedAt) then Some(now) else row.startedAt,
      if status == Confirmed || status == Error then Some(now) else row.completedAt,
      Override(extras.documentPath, row.documentPath),
      Override(extras.errorMessage, row.errorMessage))
  }

  // The clock starts at the first running and stops at every end; of the other fields those
  // that are passed change.
  predicate RowMoves(row: StageRow, row': StageRow, status: Status, now: string, extras: Extras) {
    && (status == Running && Blank(row.startedAt) ==> row'.startedAt == Some(now))
    && (status != Running || !Blank(row.startedAt) ==> row'.startedAt == row.startedAt)
    && (status == Confirmed || status == Error ==> row'.completedAt == Some(now))
    && (status != Confirmed && status != Error ==> row'.completedAt == row.completedAt)
    && (if extras.subStage.Some? then row'.subStage == extras.subStage else row'.subStage == row.subStage)
    && (if extras.documentPath.Some? then row'.documentPath == extras.documentPath else row'.documentPath == row.documentPath)
    && (if extras.errorMessage.Some? then row'.errorMessage == extras.errorMessage else row'.errorMessage == row.errorMessage)
  }

  // A status change is confined to its own stage, never restarts the clock of a started
  // stage, and leaves the fields whose keyword was not passed as they were.
  lemma SetStatusIsLocal(s: Snapshot, name: StageName, status: Status, now: string, extras: Extras, other: StageName)
    ensures var t := s.SetStatus(name, status, now, extras);
            && t.Stage(name).status == status
            && (other != name ==> t.Stage(other) == s.Stage(other))
            && t.currentStage == s.currentStage && t.sessionId == s.sessionId
            && RowMoves(s.Stage(name), t.Stage(name), status, now, extras)
  {
    match name {
      case Requirement => case Design => case Task => case Pm =>
    }
    match other {
      case Requirement => case Design => case Task => case Pm =>
    }
  }

  // `STAGES.index` raises for a stage outside the guarded ones.
  datatype StartCheck = CanStart | Blocked | UnknownStage

  function CanStartStage(s: Snapshot, name: StageName): StartCheck {
    if name == Requirement then CanStart
    else if name == Design then
      if s.requirement.status == Confirmed then CanStart else Blocked
    else UnknownStage
  }

  class StageState {
    var status: Status
    var subStage: Option<string>
    var startedAt: Option<string>
    var completedAt: Option<string>
    var documentPath: Option<string>
    var errorMessage: Option<string>

    constructor ()
      ensures Row() == FRESH_STAGE
    {
      status, subStage, startedAt, completedAt, documentPath, errorMessage := Pending, None, None, None, None, None;
    }

    constructor Load(row: StageRow)
      ensures Row() == row
    {
      status, subStage, startedAt := row.status, row.subStage, row.startedAt;
      completedAt, documentPath, errorMessage := row.completedAt, row.documentPath, row.errorMessage;
    }

    function Row(): StageRow
      reads this
    {
      StageRow(status, subStage, startedAt, completedAt, documentPath, errorMessage)
    }
  }

  class ProjectState {
    const requirement: StageState
    const design: StageState
    const task: StageState
    const pm: StageState
    var currentStage: StageName
    var sessionId: Option<string>

    ghost predicate Valid() {
      requirement != design && requirement != task && requirement != pm
      && design != task && design != pm && task != pm
    }

    constructor (sessionId: Option<string>)
      ensures Valid() && View() == FreshSnapshot(sessionId)
      ensures fresh(requirement) && fresh(design) && fresh(task) && fresh(pm)
    {
      requirement := new StageState();
      design := new StageState();
      task := new StageState();
      pm := new StageState();
      currentStage := Requirement;
      this.sessionId := sessionId;
    }

    // Rebuilds the object from a loaded snapshot.
    constructor Load(s: Snapshot)
      ensures Valid() && View() == s
      ensures fresh(requirement) && fresh(design) && fresh(task) && fresh(pm)
    {
      requirement := new StageState.Load(s.requirement);
      design := new StageState.Load(s.design);
      task := new StageState.Load(s.task);
      pm := new StageState.Load(s.pm);
      currentStage := s.currentStage;
      sessionId := s.sessionId;
    }

    function View(): Snapshot
      reads this, requirement, design, task, pm
    {
      Snapshot(requirement.Row(), design.Row(), task.Row(), pm.Row(), currentStage, sessionId)
    }

    function GetStage(name: StageName): StageState {
      match name
      case Requirement => requirement
      case Design => design
      case Task => task
      case Pm => pm
    }

    method SetStageStatus(name: StageName, status: Status, now: string, extras: Extras)
      requires Valid()
      modifies GetStage(name)
      ensures View() == old(View()).SetStatus(name, status, now, extras)
    {
      var stage := GetStage(name);
      stage.status := status;
      if status == Running && Blank(stage.startedAt) {
        stage.startedAt := Some(now);
      }
      if status == Confirmed || status == Error {
        stage.completedAt := Some(now);
      }
      if extras.subStage.Some? { stage.subStage := extras.subStage; }
      if extras.documentPath.Some? { stage.documentPath := extras.documentPath; }
      if extras.errorMessage.Some? { stage.errorMessage := extras.errorMessage; }
    }

    // Moves from requirement to design; the last guarded stage stays; any other stage raises.
    method AdvanceToNextStage() returns (raised: bool, next: Option<StageName>)
      modifies this
      ensures raised == (old(currentStage) !in GUARDED_STAGES)
      ensures next == if old(currentStage) == Requirement then Some(Design) else None
      ensures currentStage == if old(currentStage) == Requirement then Design else old(currentStage)
      ensures sessionId == old(sessionId)
    {
      raised, next := currentStage !in GUARDED_STAGES, None;
      if currentStage == Requirement {
        currentStage := Design;
        next := Some(Design);
      }
    }
  }
}
