// The pipeline orchestrator: every request loads a snapshot of the project, waits on a
// model, and later saves the snapshot whole, so requests overwrite one another's view.
module Pipeline {
  import opened Prelude
  import opened ProjectStates

  // ---- What a handler does to the snapshot it holds ----

  // `start_stage` after its guard passed: an already running stage is left alone.
  function Started(s: Snapshot, name: StageName, now: string): Snapshot {
    if s.Stage(name).status == Running then s
    else s.SetStatus(name, Running, now, NO_EXTRAS).(currentStage := name)
  }

  datatype ConfirmResult = NotConfirmable | Raised | Accepted(snapshot: Snapshot)

  // `confirm_stage`: only a running or awaiting stage; advancing raises outside STAGES.
  function ConfirmedStage(s: Snapshot, name: StageName, now: string): ConfirmResult {
    if s.Stage(name).status != Running && s.Stage(name).status != AwaitingConfirmation then NotConfirmable
    else if s.currentStage !in GUARDED_STAGES then Raised
    else
      var t := s.SetStatus(name, Confirmed, now, NO_EXTRAS);
      Accepted(if s.currentStage == Requirement then t.(currentStage := Design) else t)
  }

  function RowsOf(s: Snapshot): map<StageName, StageRow> {
    map[Requirement := s.requirement, Design := s.design, Task := s.task, Pm := s.pm]
  }

  function RowOr(rows: map<StageName, StageRow>, name: StageName): StageRow {
    if name in rows then rows[name] else FRESH_STAGE
  }

  // What a restore depends on besides the rows: the current stage comes from the order in
  // which the database returns them, and its date columns keep times only so precisely.
  datatype Readback = Readback(current: StageName, times: Option<string> -> Option<string>)

  const EXACT := Readback(Requirement, (time: Option<string>) => time)

  function WithTimes(row: StageRow, back: Readback): StageRow {
    row.(startedAt := back.times(row.startedAt), completedAt := back.times(row.completedAt))
  }

  // A restore from the database: stage rows where present, defaults elsewhere.
  function Restored(rows: map<StageName, StageRow>, back: Readback): Snapshot {
    Snapshot(
      WithTimes(RowOr(rows, Requirement), back),
      WithTimes(RowOr(rows, Design), back),
      WithTimes(RowOr(rows, Task), back),
      WithTimes(RowOr(rows, Pm), back),
      back.current,
      None)
  }

  // Saving a snapshot and restoring it brings back every field of every stage, its times as
  // the date columns keep them.
  lemma RestoreUndoesSave(s: Snapshot, back: Readback, name: StageName)
    ensures Restored(RowsOf(s), back).Stage(name) == WithTimes(s.Stage(name), back)
    ensures back.times == EXACT.times ==> Restored(RowsOf(s), back).Stage(name) == s.Stage(name)
  {
    match name {
      case Requirement => case Design => case Task => case Pm =>
    }
  }

  // What a load sees: the cache, else the database.
  function Loaded(cache: Option<Snapshot>, rows: map<StageName, StageRow>, hasProject: bool, back: Readback): Option<Snapshot> {
    if cache.Some? then cache
    else if hasProject then Some(Restored(rows, back))
    else None
  }

  // The store once an operation on it has returned.
  datatype Stored = Stored(ok: bool, cache: Option<Snapshot>, rows: map<StageName, StageRow>)

  function AfterInit(loaded: Option<Snapshot>, rows: map<StageName, StageRow>, sessionId: Option<string>): Stored {
    if loaded.Some? then Stored(true, loaded, rows)
    else Stored(true, Some(FreshSnapshot(sessionId)), RowsOf(FreshSnapshot(sessionId)))
  }

  function AfterStart(loaded: Option<Snapshot>, rows: map<StageName, StageRow>, name: StageName, now: string): Stored {
    if loaded.None? || CanStartStage(loaded.value, name) != CanStart then Stored(false, loaded, rows)
    else
      var started := Started(loaded.value, name, now);
      Stored(true, Some(started), if loaded.value.Stage(name).status == Running then rows else RowsOf(started))
  }

  function AfterConfirm(loaded: Option<Snapshot>, rows: map<StageName, StageRow>, name: StageName, now: string): Stored {
    if loaded.None? || !ConfirmedStage(loaded.value, name, now).Accepted? then Stored(false, loaded, rows)
    else
      var confirmed := ConfirmedStage(loaded.value, name, now).snapshot;
      Stored(true, Some(confirmed), RowsOf(confirmed))
  }

  datatype Outcome = Good | Poor | Bad

  // What comes of generating the plan: a document at `text`, no document, or an error `text`.
  function PlannedPm(s: Snapshot, outcome: Outcome, text: string, now: string): Option<Snapshot> {
    if s.requirement.status != Confirmed then None
    else
      match outcome
      case Good => Some(s.SetStatus(Pm, Confirmed, now, Extras(None, Some(text), None)))
      case Poor => None
      case Bad => Some(s.SetStatus(Pm, Error, now, Extras(None, None, Some(text))))
  }

  function AfterPm(loaded: Option<Snapshot>, rows: map<StageName, StageRow>, outcome: Outcome, text: string, now: string): Stored {
    if loaded.None? || PlannedPm(loaded.value, outcome, text, now).None? then Stored(false, loaded, rows)
    else
      var planned := PlannedPm(loaded.value, outcome, text, now).value;
      Stored(outcome == Good, Some(planned), RowsOf(planned))
  }

  // ---- The orchestrator running undisturbed ----

  class PipelineOrchestrator {
    var cache: Option<Snapshot>
    var rows: map<StageName, StageRow>
    var hasProject: bool

    // The snapshot the next load would see.
    function Loadable(back: Readback): Option<Snapshot>
      reads this
    {
      Loaded(cache, rows, hasProject, back)
    }

    method GetProject(back: Readback) returns (state: Option<ProjectState>)
      modifies this
      ensures state.Some? == old(Loadable(back)).Some?
      ensures state.Some? ==>
        (&& fresh(state.value) && state.value.Valid()
         && fresh(state.value.requirement) && fresh(state.value.design) && fresh(state.value.task) && fresh(state.value.pm)
         && Some(state.value.View()) == old(Loadable(back)))
      ensures cache == old(Loadable(back)) && rows == old(rows) && hasProject == old(hasProject)
    {
      if cache.None? && hasProject {
        cache := Some(Restored(rows, back));
      }
      if cache.Some? {
        var loaded := new ProjectState.Load(cache.value);
        state := Some(loaded);
      } else {
        state := None;
      }
    }

    method SaveProject(state: ProjectState)
      modifies this
      ensures cache == Some(state.View()) && rows == RowsOf(state.View()) && hasProject == old(hasProject)
    {
      cache := Some(state.View());
      rows := RowsOf(state.View());
    }

    method InitProject(back: Readback, sessionId: Option<string>) returns (state: ProjectState)
      modifies this
      ensures fresh(state) && state.Valid()
      ensures Stored(true, Some(state.View()), rows) == AfterInit(old(Loadable(back)), old(rows), sessionId)
      ensures cache == Some(state.View()) && hasProject == old(hasProject)
    {
      var existing := GetProject(back);
      if existing.Some? {
        return existing.value;
      }
      state := new ProjectState(sessionId);
      SaveProject(state);
    }

    method StartStage(name: StageName, back: Readback, now: string) returns (ok: bool)
      modifies this
      ensures Stored(ok, cache, rows) == AfterStart(old(Loadable(back)), old(rows), name, now)
      ensures hasProject == old(hasProject)
    {
      ok := false;
      var state := GetProject(back);
      if state.Some? {
        var held := state.value;
        var check := CanStartStage(held.View(), name);
        if check == CanStart {
          ok := true;
          if held.GetStage(name).status != Running {
            held.SetStageStatus(name, Running, now, NO_EXTRAS);
            held.currentStage := name;
            SaveProject(held);
          }
        }
      }
    }

    method ConfirmStage(name: StageName, back: Readback, now: string) returns (ok: bool)
      modifies this
      ensures Stored(ok, cache, rows) == AfterConfirm(old(Loadable(back)), old(rows), name, now)
      ensures hasProject == old(hasProject)
    {
      ok := false;
      var state := GetProject(back);
      if state.Some? {
        var held := state.value;
        var status := held.GetStage(name).status;
        if status == Running || status == AwaitingConfirmation {
          held.SetStageStatus(name, Confirmed, now, NO_EXTRAS);
          var raised, next := held.AdvanceToNextStage();
          if !raised {
            SaveProject(held);
            ok := true;
          }
        }
      }
    }

    // `outcome` and `text` stand for what the plan's agent does with the documents.
    method GeneratePm(back: Readback, outcome: Outcome, text: string, now: string) returns (ok: bool)
      modifies this
      ensures Stored(ok, cache, rows) == AfterPm(old(Loadable(back)), old(rows), outcome, text, now)
      ensures hasProject == old(hasProject)
    {
      ok := false;
      var state := GetProject(back);
      if state.Some? {
        var held := state.value;
        if held.GetStage(Requirement).status == Confirmed && outcome != Poor {
          if outcome == Bad {
            held.SetStageStatus(Pm, Error, now, Extras(None, None, Some(text)));
          } else {
            held.SetStageStatus(Pm, Confirmed, now, Extras(None, Some(text), None));
          }
          SaveProject(held);
          ok := outcome == Good;
        }
      }
    }
  }

  // ---- Interleaved requests as a state machine over single reads and writes ----

  // Where a request is in its handler; what it will do with the snapshot it next holds.
  datatype Handler =
    | InitOnly                            // POST /pipeline/start
    | StartChat(sessionId: string)        // POST /requirement/start, before its first save
    | StartChatRunning                    // ... after it, waiting on the model
    | Chat                                // POST /requirement/{id}/message
    | ConfirmPrd                          // POST /requirement/{id}/confirm
    | Decompose                           // POST /requirement/{id}/decompose
    | DecomposeMarked
    | EarsResult(background: bool)        // the split's outcome, in a task or in the stream route
    | EarsRunning(background: bool)
    | EarsConfirmed(background: bool)
    | EarsFailure                         // the background task's exception branch
    | TriggerPm                           // spawned once the split is confirmed
    | StartStage(name: StageName)
    | Generating(name: StageName)
    | ConfirmStage(name: StageName)
    | GeneratePm
    | Ending

  // The read or write the request performs next, with the snapshot it carries.
  datatype Phase =
    | ReadCache
    | ReadDb
    | Refill(s: Snapshot)
    | Have(s: Snapshot)
    | Missing
    | WriteCache(s: Snapshot)
    | WriteDb(s: Snapshot)
    | Wrote(s: Snapshot)
    | Finished

  datatype Request = Request(handler: Handler, phase: Phase)

  datatype World = World(
    cache: Option<Snapshot>,
    rows: map<StageName, StageRow>,
    hasProject: bool,
    requests: map<nat, Request>,
    nextId: nat)

  const INITIAL_WORLD := World(None, map[], false, map[], 0)

  // Everything the environment decides in one step: whether the read, write or model call
  // fails, whether a failed write took effect all the same, and what the model answered.
  datatype Choice = Choice(
    fails: bool,
    landed: bool,
    outcome: Outcome,
    text: string,
    back: Readback,
    now: string)

  datatype Action =
    | Arrive(handler: Handler)
    | Advance(id: nat, choice: Choice)
    | ExpireCache
    | CreateProject

  // Handlers a caller can start; the others are reached from these.
  predicate Entry(h: Handler) {
    h.InitOnly? || h.StartChat? || h.Chat? || h.ConfirmPrd? || h.Decompose? || h == EarsResult(false)
    || h.StartStage? || h.ConfirmStage? || h.GeneratePm?
  }

  function OnFailure(h: Handler): Request {
    if (h.EarsResult? || h.EarsRunning? || h.EarsConfirmed?) && h.background
    then Request(EarsFailure, ReadCache)
    else Request(h, Finished)
  }

  function WithSub(subStage: string): Extras {
    Extras(Some(subStage), None, None)
  }

  function OnHave(h: Handler, s: Snapshot, c: Choice): Request {
    match h
    case StartChat(_) =>
      Request(StartChatRunning, WriteCache(s.SetStatus(Requirement, Running, c.now, WithSub("clarifying"))))
    case Chat =>
      Request(Ending, WriteCache(s.SetStatus(Requirement, Running, c.now, WithSub(c.text))))
    case ConfirmPrd =>
      Request(Ending, WriteCache(s.SetStatus(Requirement, Confirmed, c.now, Extras(Some("prd_confirmed"), Some(c.text), None))))
    case Decompose =>
      Request(DecomposeMarked, WriteCache(s.SetStatus(Requirement, Running, c.now, WithSub("ears_decomposing"))))
    case EarsResult(bg) =>
      if c.outcome == Good
      then Request(EarsConfirmed(bg), WriteCache(s.SetStatus(Requirement, Confirmed, c.now, Extras(Some("tasks_ready"), Some(c.text), None))))
      else Request(EarsRunning(bg), WriteCache(s.SetStatus(Requirement, Running, c.now, WithSub(c.text))))
    case EarsFailure =>
      Request(Ending, WriteCache(s.SetStatus(Requirement, Error, c.now, Extras(None, None, Some(c.text)))))
    case TriggerPm =>
      Request(Ending, WriteCache(s.SetStatus(Pm, Confirmed, c.now, Extras(None, Some(c.text), None))))
    case StartStage(name) =>
      if CanStartStage(s, name) != CanStart then Request(h, Finished)
      else if s.Stage(name).status == Running then Request(Generating(name), Wrote(s))
      else Request(Generating(name), WriteCache(Started(s, name, c.now)))
    case ConfirmStage(name) =>
      var r := ConfirmedStage(s, name, c.now);
      if r.Accepted? then Request(Ending, WriteCache(r.snapshot)) else Request(h, Finished)
    case GeneratePm =>
      var planned := PlannedPm(s, c.outcome, c.text, c.now);
      if planned.Some? then Request(Ending, WriteCache(planned.value)) else Request(h, Finished)
    case _ => Request(h, Finished)
  }

  // Only initialisation reacts to a project that is not there: it saves a fresh state.
  function OnMissing(h: Handler): Request {
    match h
    case InitOnly => Request(Ending, WriteCache(FreshSnapshot(None)))
    case StartChat(sid) => Request(StartChat(sid), WriteCache(FreshSnapshot(Some(sid))))
    case _ => Request(h, Finished)
  }

  function OnWrote(h: Handler, s: Snapshot, c: Choice): Request {
    match h
    case StartChat(_) => OnHave(h, s, c)
    case StartChatRunning =>
      Request(Ending, WriteCache(s.SetStatus(Requirement, Running, c.now, WithSub(c.text))))
    case Generating(name) =>
      (match c.outcome
       case Good => Request(Ending, WriteCache(s.SetStatus(name, AwaitingConfirmation, c.now, Extras(None, Some(c.text), None))))
       case Poor => Request(Ending, WriteCache(s.SetStatus(name, Running, c.now, NO_EXTRAS)))
       case Bad => Request(Ending, WriteCache(s)))
    case _ => Request(h, Finished)
  }

  // The task a request leaves behind once its save has returned.
  function Spawned(h: Handler): Option<Handler> {
    match h
    case DecomposeMarked => Some(EarsResult(true))
    case EarsConfirmed(_) => Some(TriggerPm)
    case _ => None
  }

  function Put(w: World, id: nat, q: Request): World {
    w.(requests := w.requests[id := q])
  }

  function Launch(w: World, h: Handler): World {
    w.(requests := w.requests[w.nextId := Request(h, ReadCache)], nextId := w.nextId + 1)
  }

  function AdvanceRequest(w: World, id: nat, q: Request, c: Choice): World {
    match q.phase
    case ReadCache =>
      if c.fails then Put(w, id, OnFailure(q.handler))
      else if w.cache.Some? then Put(w, id, q.(phase := Have(w.cache.value)))
      else Put(w, id, q.(phase := ReadDb))
    case ReadDb =>
      if c.fails || !w.hasProject then Put(w, id, q.(phase := Missing))
      else Put(w, id, q.(phase := Refill(Restored(w.rows, c.back))))
    case Refill(s) =>
      if c.fails
      then Put(w.(cache := if c.landed then Some(s) else w.cache), id, q.(phase := Missing))
      else Put(w.(cache := Some(s)), id, q.(phase := Have(s)))
    case Have(s) =>
      Put(w, id, if c.fails then OnFailure(q.handler) else OnHave(q.handler, s, c))
    case Missing => Put(w, id, OnMissing(q.handler))
    case WriteCache(s) =>
      if c.fails
      then Put(w.(cache := if c.landed then Some(s) else w.cache), id, OnFailure(q.handler))
      else Put(w.(cache := Some(s)), id, q.(phase := WriteDb(s)))
    case WriteDb(s) =>
      Put(w.(rows := if c.fails && !c.landed then w.rows else RowsOf(s)), id, q.(phase := Wrote(s)))
    case Wrote(s) =>
      if c.fails then Put(w, id, OnFailure(q.handler))
      else
        var moved := Put(w, id, OnWrote(q.handler, s, c));
        if Spawned(q.handler).Some? then Launch(moved, Spawned(q.handler).value) else moved
    case Finished => w
  }

  function Step(w: World, a: Action): World {
    match a
    case Arrive(h) => if Entry(h) then Launch(w, h) else w
    case Advance(id, c) => if id in w.requests then AdvanceRequest(w, id, w.requests[id], c) else w
    case ExpireCache => w.(cache := None)
    case CreateProject => w.(hasProject := true)
  }

  // The world after every action of a schedule, from the empty world.
  function Run(acts: seq<Action>): World {
    if acts == [] then INITIAL_WORLD
    else Step(Run(acts[..|acts| - 1]), acts[|acts| - 1])
  }

  // ---- What the theorems speak about ----

  ghost predicate Carries(q: Request, s: Snapshot) {
    match q.phase
    case Refill(t) => t == s
    case Have(t) => t == s
    case WriteCache(t) => t == s
    case WriteDb(t) => t == s
    case Wrote(t) => t == s
    case _ => false
  }

  // A snapshot anyone could see: cached, restorable from the database, or held by a request.
  ghost predicate Visible(w: World, s: Snapshot) {
    || w.cache == Some(s)
    || (exists back: Readback :: s == Restored(w.rows, back))
    || (exists id :: id in w.requests && Carries(w.requests[id], s))
  }

  // `s` was in the cache at some moment of the schedule's first `upTo` actions.
  ghost predicate RequirementConfirmedAt(acts: seq<Action>, i: nat) {
    i <= |acts| && Run(acts[..i]).cache.Some? && Run(acts[..i]).cache.value.requirement.status == Confirmed
  }

  ghost predicate DesignRunningAt(acts: seq<Action>, i: nat) {
    i <= |acts| && Run(acts[..i]).cache.Some? && Run(acts[..i]).cache.value.design.status == Running
  }

  // ---- The invariant ----

  // What has been cached so far: requirement confirmed, design running after that.
  datatype Seen = Seen(requirement: bool, design: bool)

  predicate CacheConfirmed(w: World) {
    w.cache.Some? && w.cache.value.requirement.status == Confirmed
  }

  predicate CacheDesigning(w: World) {
    w.cache.Some? && w.cache.value.design.status == Running
  }

  function Look(seen: Seen, w: World): Seen {
    Seen(seen.requirement || CacheConfirmed(w), seen.design || CacheDesigning(w))
  }

  predicate Downstream(s: Snapshot) {
    s.design.status != Pending || s.pm.status != Pending
  }

  // Holds of what is stored and of what was loaded from the store.
  predicate Settled(s: Snapshot, seen: Seen) {
    && (s.requirement.status == Confirmed || Downstream(s) ==> seen.requirement)
    && (s.design.status != Pending ==> seen.design)
    && s.task.status == Pending
  }

  // Holds of what is about to be stored.
  predicate Proposed(s: Snapshot, seen: Seen) {
    && (Downstream(s) ==> seen.requirement)
    && (s.design.status != Pending ==> seen.design || s.design.status == Running)
    && s.task.status == Pending
  }

  predicate RequestOk(q: Request, seen: Seen) {
    && (q.handler == TriggerPm ==> seen.requirement)
    && (q.handler.Generating? ==> q.handler.name == Requirement || (q.handler.name == Design && seen.requirement))
    && (match q.phase
        case Refill(s) => Settled(s, seen)
        case Have(s) => Settled(s, seen)
        case WriteCache(s) =>
          && Proposed(s, seen)
          && (q.handler.EarsConfirmed? ==> s.requirement.status == Confirmed)
          && (q.handler.Generating? && q.handler.name == Design ==> s.design.status == Running)
        case WriteDb(s) =>
          && Settled(s, seen)
          && (q.handler.EarsConfirmed? ==> seen.requirement)
          && (q.handler.Generating? && q.handler.name == Design ==> seen.design)
        case Wrote(s) =>
          && Settled(s, seen)
          && (q.handler.EarsConfirmed? ==> seen.requirement)
          && (q.handler.Generating? && q.handler.name == Design ==> seen.design)
        case _ => true)
  }

  predicate RowsOk(rows: map<StageName, StageRow>, seen: Seen) {
    Settled(Restored(rows, EXACT), seen)
  }

  ghost predicate Inv(w: World, seen: Seen) {
    && (w.cache.Some? ==> Settled(w.cache.value, seen))
    && RowsOk(w.rows, seen)
    && (forall id :: id in w.requests ==> RequestOk(w.requests[id], seen))
  }

  lemma OnHaveKeeps(h: Handler, s: Snapshot, c: Choice, seen: Seen)
    requires RequestOk(Request(h, Have(s)), seen)
    ensures RequestOk(OnHave(h, s, c), seen)
  {
  }

  lemma OnWroteKeeps(h: Handler, s: Snapshot, c: Choice, seen: Seen)
    requires RequestOk(Request(h, Wrote(s)), seen)
    ensures RequestOk(OnWrote(h, s, c), seen)
  {
  }

  lemma RestoredSettles(rows: map<StageName, StageRow>, back: Readback, seen: Seen)
    requires RowsOk(rows, seen)
    ensures Settled(Restored(rows, back), seen)
  {
  }

  predicate AtLeast(more: Seen, seen: Seen) {
    (seen.requirement ==> more.requirement) && (seen.design ==> more.design)
  }

  lemma SeeingMoreKeeps(q: Request, seen: Seen, more: Seen)
    requires RequestOk(q, seen) && AtLeast(more, seen)
    ensures RequestOk(q, more)
  {
  }

  // Replacing one request, with what it wrote, leaves the others as they were.
  lemma PutKeeps(w: World, seen: Seen, w': World, id: nat, q: Request, seen': Seen)
    requires Inv(w, seen) && AtLeast(seen', seen)
    requires w'.requests == w.requests[id := q] && RequestOk(q, seen')
    requires w'.cache.Some? ==> Settled(w'.cache.value, seen')
    requires RowsOk(w'.rows, seen')
    ensures Inv(w', seen')
  {
    forall j | j in w'.requests ensures RequestOk(w'.requests[j], seen') {
      if j != id { SeeingMoreKeeps(w.requests[j], seen, seen'); }
    }
  }

  lemma LaunchKeeps(w: World, h: Handler, seen: Seen)
    requires Inv(w, seen) && (h == TriggerPm ==> seen.requirement) && !h.Generating?
    ensures Inv(Launch(w, h), seen)
  {
    PutKeeps(w, seen, Launch(w, h), w.nextId, Request(h, ReadCache), seen);
  }

  // A step that neither reads nor writes the store.
  lemma LocalStepKeeps(w: World, id: nat, q: Request, seen: Seen)
    requires Inv(w, seen) && RequestOk(q, seen)
    ensures Inv(Put(w, id, q), seen) && Inv(Put(w, id, q), Look(seen, Put(w, id, q)))
  {
    PutKeeps(w, seen, Put(w, id, q), id, q, seen);
    var w' := Put(w, id, q);
    SeeingMoreKeeps(q, seen, Look(seen, w'));
    PutKeeps(w, seen, w', id, q, Look(seen, w'));
  }

  // A proposed snapshot reaching the cache is settled by that very fact.
  lemma CachingKeeps(w: World, id: nat, s: Snapshot, q: Request, seen: Seen)
    requires Inv(w, seen) && Proposed(s, seen)
    requires var w' := Put(w.(cache := Some(s)), id, q); RequestOk(q, Look(seen, w'))
    ensures var w' := Put(w.(cache := Some(s)), id, q); Inv(w', Look(seen, w'))
  {
    var w' := Put(w.(cache := Some(s)), id, q);
    RestoredSettles(w.rows, EXACT, seen);
    PutKeeps(w, seen, w', id, q, Look(seen, w'));
  }

  lemma WroteKeeps(w: World, id: nat, s: Snapshot, c: Choice, seen: Seen)
    requires Inv(w, seen) && id in w.requests && w.requests[id].phase == Wrote(s) && !c.fails
    ensures var w' := AdvanceRequest(w, id, w.requests[id], c); Inv(w', Look(seen, w'))
  {
    var q := w.requests[id];
    OnWroteKeeps(q.handler, s, c, seen);
    LocalStepKeeps(w, id, OnWrote(q.handler, s, c), seen);
    var moved := Put(w, id, OnWrote(q.handler, s, c));
    var spawned := Spawned(q.handler);
    if spawned.Some? {
      LaunchKeeps(moved, spawned.value, Look(seen, moved));
    }
  }

  // A cache write that succeeds, or fails with or without effect.
  lemma StoreSnapshotKeeps(w: World, id: nat, s: Snapshot, c: Choice, q: Request, seen: Seen)
    requires Inv(w, seen) && Proposed(s, seen)
    requires var w' := Put(w.(cache := Some(s)), id, q); !c.fails ==> RequestOk(q, Look(seen, w'))
    requires c.fails ==> RequestOk(q, seen)
    ensures var w' := Put(w.(cache := if !c.fails || c.landed then Some(s) else w.cache), id, q); Inv(w', Look(seen, w'))
  {
    if !c.fails || c.landed {
      var w' := Put(w.(cache := Some(s)), id, q);
      if c.fails { SeeingMoreKeeps(q, seen, Look(seen, w')); }
      CachingKeeps(w, id, s, q, seen);
    } else {
      LocalStepKeeps(w, id, q, seen);
      assert w.(cache := w.cache) == w;
    }
  }

  // The phases that only read, or only decide.
  lemma ReadingKeeps(w: World, id: nat, c: Choice, seen: Seen)
    requires Inv(w, seen) && id in w.requests
    requires var p := w.requests[id].phase; p.ReadCache? || p.ReadDb? || p.Have? || p.Missing?
    ensures var w' := AdvanceRequest(w, id, w.requests[id], c); Inv(w', Look(seen, w'))
  {
    var q := w.requests[id];
    RestoredSettles(w.rows, c.back, seen);
    if q.phase.Have? { OnHaveKeeps(q.handler, q.phase.s, c, seen); }
    var next := match q.phase
      case ReadCache => if c.fails then OnFailure(q.handler) else if w.cache.Some? then q.(phase := Have(w.cache.value)) else q.(phase := ReadDb)
      case ReadDb => if c.fails || !w.hasProject then q.(phase := Missing) else q.(phase := Refill(Restored(w.rows, c.back)))
      case Have(s) => if c.fails then OnFailure(q.handler) else OnHave(q.handler, s, c)
      case _ => OnMissing(q.handler);
    LocalStepKeeps(w, id, next, seen);
  }

  lemma DbWriteKeeps(w: World, id: nat, s: Snapshot, c: Choice, seen: Seen)
    requires Inv(w, seen) && id in w.requests && w.requests[id].phase == WriteDb(s)
    ensures var w' := AdvanceRequest(w, id, w.requests[id], c); Inv(w', Look(seen, w'))
  {
    var q := w.requests[id];
    var w' := AdvanceRequest(w, id, q, c);
    SeeingMoreKeeps(q, seen, Look(seen, w'));
    PutKeeps(w, seen, w', id, q.(phase := Wrote(s)), Look(seen, w'));
  }

  lemma AdvanceKeeps(w: World, id: nat, c: Choice, seen: Seen)
    requires Inv(w, seen) && id in w.requests
    ensures var w' := AdvanceRequest(w, id, w.requests[id], c); Inv(w', Look(seen, w'))
  {
    var q := w.requests[id];
    match q.phase {
      case Refill(s) =>
        StoreSnapshotKeeps(w, id, s, c, if c.fails then q.(phase := Missing) else q.(phase := Have(s)), seen);
      case WriteCache(s) =>
        StoreSnapshotKeeps(w, id, s, c, if c.fails then OnFailure(q.handler) else q.(phase := WriteDb(s)), seen);
      case WriteDb(s) => DbWriteKeeps(w, id, s, c, seen);
      case Wrote(s) =>
        if c.fails { LocalStepKeeps(w, id, OnFailure(q.handler), seen); } else { WroteKeeps(w, id, s, c, seen); }
      case Finished =>
        LocalStepKeeps(w, id, q, seen);
        assert Put(w, id, q) == w;
      case _ => ReadingKeeps(w, id, c, seen);
    }
  }

  ghost function SeenBy(acts: seq<Action>): Seen {
    if acts == [] then Look(Seen(false, false), INITIAL_WORLD)
    else Look(SeenBy(acts[..|acts| - 1]), Run(acts))
  }

  // Every reachable world satisfies the invariant, whatever the schedule.
  lemma {:induction false} RunKeepsInv(acts: seq<Action>)
    ensures Inv(Run(acts), SeenBy(acts))
  {
    if acts != [] {
      var before := acts[..|acts| - 1];
      RunKeepsInv(before);
      match acts[|acts| - 1] {
        case Advance(id, c) =>
          if id in Run(before).requests { AdvanceKeeps(Run(before), id, c, SeenBy(before)); }
        case _ =>
      }
    }
  }

  // ---- From the invariant to the order of stages ----

  lemma {:induction false} SeenMeansCached(acts: seq<Action>)
    ensures SeenBy(acts).requirement ==> exists i: nat :: RequirementConfirmedAt(acts, i)
    ensures SeenBy(acts).design ==> exists j: nat :: DesignRunningAt(acts, j)
  {
    assert acts[..|acts|] == acts;
    if CacheConfirmed(Run(acts)) { assert RequirementConfirmedAt(acts, |acts|); }
    if CacheDesigning(Run(acts)) { assert DesignRunningAt(acts, |acts|); }
    if acts != [] {
      var before := acts[..|acts| - 1];
      SeenMeansCached(before);
      forall i: nat | i <= |before| ensures before[..i] == acts[..i] {}
      if i: nat :| RequirementConfirmedAt(before, i) { assert RequirementConfirmedAt(acts, i); }
      if j: nat :| DesignRunningAt(before, j) { assert DesignRunningAt(acts, j); }
    }
  }

  lemma VisibleIsProposed(acts: seq<Action>, s: Snapshot)
    requires Visible(Run(acts), s)
    ensures Proposed(s, SeenBy(acts))
  {
    RunKeepsInv(acts);
    var w := Run(acts);
    if w.cache != Some(s) {
      if back: Readback :| s == Restored(w.rows, back) {
        RestoredSettles(w.rows, back, SeenBy(acts));
      }
    }
  }

  // The stage guard over every schedule: wherever design or pm shows as begun, the
  // requirement stage was stored as confirmed at some earlier moment of the run.
  lemma RequirementComesFirst(acts: seq<Action>, s: Snapshot)
    requires Visible(Run(acts), s) && Downstream(s)
    ensures exists i: nat :: RequirementConfirmedAt(acts, i)
  {
    VisibleIsProposed(acts, s);
    SeenMeansCached(acts);
  }

  // A design past its running state was stored as running, after requirement was confirmed.
  lemma DesignFollowsItsOrder(acts: seq<Action>, s: Snapshot)
    requires Visible(Run(acts), s) && s.design.status != Pending && s.design.status != Running
    ensures exists i: nat, j: nat :: i <= j && RequirementConfirmedAt(acts, i) && DesignRunningAt(acts, j)
  {
    VisibleIsProposed(acts, s);
    SeenMeansCached(acts);
    var j: nat :| DesignRunningAt(acts, j);
    var upTo := acts[..j];
    RequirementComesFirst(upTo, Run(upTo).cache.value);
    var i: nat :| RequirementConfirmedAt(upTo, i);
    assert upTo[..i] == acts[..i];
    assert RequirementConfirmedAt(acts, i);
  }

  // `start_stage` knows no task stage, so the routes for it never move it.
  lemma TaskNeverStarts(acts: seq<Action>, s: Snapshot)
    requires Visible(Run(acts), s)
    ensures s.task.status == Pending
  {
    VisibleIsProposed(acts, s);
  }

  // ---- What the guard does not promise ----

  // A chat turn holding a snapshot stores it whole: every stage but requirement goes back to
  // what the snapshot showed, whatever was stored meanwhile.
  lemma StaleSaveWins(w: World, id: nat, s: Snapshot, c: Choice, d: Choice, name: StageName)
    requires id in w.requests && w.requests[id] == Request(Chat, Have(s)) && !c.fails && !d.fails
    ensures var w' := Step(Step(w, Advance(id, c)), Advance(id, d));
            && w'.cache.Some?
            && w'.cache.value.requirement.status == Running
            && (name != Requirement ==> w'.cache.value.Stage(name) == s.Stage(name))
  {
    SetStatusIsLocal(s, Requirement, Running, c.now, WithSub(c.text), name);
    SetStatusIsLocal(s, Requirement, Running, c.now, WithSub(c.text), Requirement);
  }

  const CALM := Choice(false, true, Good, "", EXACT, "t")

  function Tick(id: nat): Action {
    Advance(id, CALM)
  }

  // Confirm the requirement, let a chat turn load, start the design, let the chat turn save.
  const ERASING_SCHEDULE: seq<Action> :=
    [CreateProject, Arrive(ConfirmPrd), Tick(0), Tick(0), Tick(0), Tick(0), Tick(0),
     Arrive(Chat), Tick(1), Arrive(StartStage(Design)), Tick(2), Tick(2), Tick(2), Tick(1), Tick(1)]

  // The order is about the past only: a running design can be stored and then vanish, with
  // requirement reopened, because the chat turn loaded before the design was started.
  lemma StaleSaveErasesDesign()
    ensures DesignRunningAt(ERASING_SCHEDULE, 13)
    ensures var w := Run(ERASING_SCHEDULE);
            w.cache.Some? && w.cache.value.design.status == Pending && w.cache.value.requirement.status == Running
  {
    var confirmed := FreshSnapshot(None).SetStatus(Requirement, Confirmed, "t", Extras(Some("prd_confirmed"), Some(""), None));
    var w0 := Step(Step(INITIAL_WORLD, CreateProject), Arrive(ConfirmPrd));
    var w1 := Step(Step(Step(Step(Step(w0, Tick(0)), Tick(0)), Tick(0)), Tick(0)), Tick(0));
    assert w1.cache == Some(confirmed) && w1.nextId == 1;
    var w2 := Step(Step(w1, Arrive(Chat)), Tick(1));
    assert w2.requests[1] == Request(Chat, Have(confirmed));
    var w3 := Step(Step(Step(Step(w2, Arrive(StartStage(Design))), Tick(2)), Tick(2)), Tick(2));
    assert w3.requests[1] == Request(Chat, Have(confirmed));
    assert w3.cache.Some? && w3.cache.value.design.status == Running;
    var w4 := Step(Step(w3, Tick(1)), Tick(1));
    assert w4.cache.Some? && w4.cache.value.design.status == Pending;
    UnfoldErasing();
  }

  lemma UnfoldErasing()
    ensures var w1 := Step(Step(Step(Step(Step(Step(Step(INITIAL_WORLD, CreateProject), Arrive(ConfirmPrd)), Tick(0)), Tick(0)), Tick(0)), Tick(0)), Tick(0));
            var w3 := Step(Step(Step(Step(Step(Step(w1, Arrive(Chat)), Tick(1)), Arrive(StartStage(Design))), Tick(2)), Tick(2)), Tick(2));
            Run(ERASING_SCHEDULE[..13]) == w3 && Run(ERASING_SCHEDULE) == Step(Step(w3, Tick(1)), Tick(1))
  {
    var a := ERASING_SCHEDULE;
    forall n | 0 < n <= 15 ensures Run(a[..n]) == Step(Run(a[..n - 1]), a[n - 1]) {
      assert a[..n][..n - 1] == a[..n - 1];
    }
    assert a[..0] == [] && a[..15] == a;
    assert Run(a[..1]) == Step(Run(a[..0]), a[0]);
    assert Run(a[..2]) == Step(Run(a[..1]), a[1]);
    assert Run(a[..3]) == Step(Run(a[..2]), a[2]);
    assert Run(a[..4]) == Step(Run(a[..3]), a[3]);
    assert Run(a[..5]) == Step(Run(a[..4]), a[4]);
    assert Run(a[..6]) == Step(Run(a[..5]), a[5]);
    assert Run(a[..7]) == Step(Run(a[..6]), a[6]);
    assert Run(a[..8]) == Step(Run(a[..7]), a[7]);
    assert Run(a[..9]) == Step(Run(a[..8]), a[8]);
    assert Run(a[..10]) == Step(Run(a[..9]), a[9]);
    assert Run(a[..11]) == Step(Run(a[..10]), a[10]);
    assert Run(a[..12]) == Step(Run(a[..11]), a[11]);
    assert Run(a[..13]) == Step(Run(a[..12]), a[12]);
    assert Run(a[..14]) == Step(Run(a[..13]), a[13]);
    assert Run(a[..15]) == Step(Run(a[..14]), a[14]);
  }
}
