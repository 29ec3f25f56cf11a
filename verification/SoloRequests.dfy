// A request that nobody disturbs does what the orchestrator's method does.
module SoloRequests {
  import opened Prelude
  import opened ProjectStates
  import opened Pipeline

  // Advances one request until its save, if it makes one, has returned.
  function Alone(w: World, id: nat, c: Choice, fuel: nat): World
    decreases fuel
  {
    if fuel == 0 || id !in w.requests || w.requests[id].phase.Wrote? || w.requests[id].phase.Finished? then w
    else Alone(Step(w, Advance(id, c)), id, c, fuel - 1)
  }

  // The longest way: cache, database, refill, decision, cache, database.
  function Solo(w: World, h: Handler, c: Choice): World {
    Alone(Launch(w, h), w.nextId, c, 6)
  }

  // So a handler begins that a caller may start, by arriving.
  lemma EntryLaunches(w: World, h: Handler)
    ensures Entry(h) <==> Step(w, Arrive(h)) == Launch(w, h)
  {
    if !Entry(h) { assert Launch(w, h).nextId == w.nextId + 1; }
  }

  function LoadedBy(w: World, c: Choice): Option<Snapshot> {
    Loaded(w.cache, w.rows, w.hasProject, c.back)
  }

  function Holding(w: World, h: Handler, c: Choice): World {
    var loaded := LoadedBy(w, c);
    Launch(w, h).(
      cache := loaded,
      requests := w.requests[w.nextId := Request(h, if loaded.Some? then Have(loaded.value) else Missing)])
  }

  // Loading takes one step to three of the six.
  function FuelLeft(w: World): nat {
    if w.cache.Some? then 5 else if w.hasProject then 3 else 4
  }

  lemma SoloLoads(w: World, h: Handler, c: Choice)
    requires !c.fails
    ensures Solo(w, h, c) == Alone(Holding(w, h, c), w.nextId, c, FuelLeft(w))
  {
    if w.cache.Some? {
      AloneMoves(Launch(w, h), w.nextId, c, 6, Holding(w, h, c));
    } else {
      SoloMisses(w, h, c);
    }
  }

  lemma SoloMisses(w: World, h: Handler, c: Choice)
    requires !c.fails && w.cache.None?
    ensures Solo(w, h, c) == Alone(Holding(w, h, c), w.nextId, c, FuelLeft(w))
  {
    var id, w0 := w.nextId, Launch(w, h);
    var w1 := Put(w0, id, Request(h, ReadDb));
    AloneMoves(w0, id, c, 6, w1);
    if w.hasProject {
      SoloRestores(w, w1, h, c);
    } else {
      AloneMoves(w1, id, c, 5, Holding(w, h, c));
    }
  }

  lemma SoloRestores(w: World, w1: World, h: Handler, c: Choice)
    requires !c.fails && w.cache.None? && w.hasProject
    requires w1 == Put(Launch(w, h), w.nextId, Request(h, ReadDb))
    ensures Alone(w1, w.nextId, c, 5) == Alone(Holding(w, h, c), w.nextId, c, 3)
  {
    var s := Restored(w.rows, c.back);
    var w2 := Put(w1, w.nextId, Request(h, Refill(s)));
    AloneMoves(w1, w.nextId, c, 5, w2);
    RefilledIsHeld(w, w2, h, c);
    AloneMoves(w2, w.nextId, c, 4, Holding(w, h, c));
  }

  lemma RefilledIsHeld(w: World, w2: World, h: Handler, c: Choice)
    requires !c.fails && w.cache.None? && w.hasProject
    requires w2 == Put(Put(Launch(w, h), w.nextId, Request(h, ReadDb)), w.nextId, Request(h, Refill(Restored(w.rows, c.back))))
    ensures AdvanceRequest(w2, w.nextId, w2.requests[w.nextId], c) == Holding(w, h, c)
  {
    var s := Restored(w.rows, c.back);
    assert w2.requests[w.nextId] == Request(h, Refill(s));
    assert w2.requests[w.nextId := Request(h, Have(s))] == w.requests[w.nextId := Request(h, Have(s))];
  }

  lemma AloneMoves(w: World, id: nat, c: Choice, fuel: nat, next: World)
    requires id in w.requests && !w.requests[id].phase.Wrote? && !w.requests[id].phase.Finished? && fuel > 0
    requires next == AdvanceRequest(w, id, w.requests[id], c)
    ensures Alone(w, id, c, fuel) == Alone(next, id, c, fuel - 1)
  {
  }

  // Once decided, a save takes two steps and stops there.
  lemma AloneSaves(w: World, id: nat, h: Handler, s: Snapshot, c: Choice, fuel: nat)
    requires id in w.requests && w.requests[id] == Request(h, WriteCache(s)) && !c.fails && fuel >= 2
    ensures Alone(w, id, c, fuel)
         == w.(cache := Some(s), rows := RowsOf(s), requests := w.requests[id := Request(h, Wrote(s))])
  {
    var w1 := Put(w.(cache := Some(s)), id, Request(h, WriteDb(s)));
    var w2 := Put(w1.(rows := RowsOf(s)), id, Request(h, Wrote(s)));
    AloneMoves(w, id, c, fuel, w1);
    AloneMoves(w1, id, c, fuel - 1, w2);
    assert w2.requests == w.requests[id := Request(h, Wrote(s))];
  }

  // The snapshot is stored, and the request has returned from storing it.
  predicate Saves(w: World, id: nat, h: Handler, s: Snapshot) {
    w.cache == Some(s) && w.rows == RowsOf(s) && id in w.requests && w.requests[id] == Request(h, Wrote(s))
  }

  // What the request makes of the snapshot it loaded, or of finding none.
  function Decision(w: World, h: Handler, c: Choice): Request {
    if LoadedBy(w, c).Some? then OnHave(h, LoadedBy(w, c).value, c) else OnMissing(h)
  }

  // The decision and the save it may call for, from the world that holds the snapshot.
  lemma AloneDecides(w: World, h: Handler, c: Choice, fuel: nat)
    requires !c.fails && fuel >= 3
    requires var p := Decision(w, h, c).phase; p.WriteCache? || p.Wrote? || p.Finished?
    ensures var q, w' := Decision(w, h, c), Alone(Holding(w, h, c), w.nextId, c, fuel);
            if q.phase.WriteCache? then Saves(w', w.nextId, q.handler, q.phase.s)
            else w'.cache == LoadedBy(w, c) && w'.rows == w.rows && w.nextId in w'.requests && w'.requests[w.nextId] == q
  {
    var q, id, held := Decision(w, h, c), w.nextId, Holding(w, h, c);
    var next := Put(held, id, q);
    AloneMoves(held, id, c, fuel, next);
    if q.phase.WriteCache? { AloneSaves(next, id, q.handler, q.phase.s, c, fuel - 1); }
  }

  lemma SoloDecides(w: World, h: Handler, c: Choice)
    requires !c.fails
    requires var p := Decision(w, h, c).phase; p.WriteCache? || p.Wrote? || p.Finished?
    ensures var q, w' := Decision(w, h, c), Solo(w, h, c);
            if q.phase.WriteCache? then Saves(w', w.nextId, q.handler, q.phase.s)
            else w'.cache == LoadedBy(w, c) && w'.rows == w.rows && w.nextId in w'.requests && w'.requests[w.nextId] == q
  {
    SoloLoads(w, h, c);
    AloneDecides(w, h, c, FuelLeft(w));
  }

  predicate Leaves(w: World, after: Stored) {
    w.cache == after.cache && w.rows == after.rows
  }

  // For any world, each of these operations leaves, run alone as a request, the very store
  // its method promises, whatever other requests are waiting.
  lemma SoloStarts(w: World, c: Choice, name: StageName)
    requires !c.fails
    ensures Leaves(Solo(w, StartStage(name), c), AfterStart(LoadedBy(w, c), w.rows, name, c.now))
  {
    SoloDecides(w, StartStage(name), c);
  }

  lemma SoloConfirms(w: World, c: Choice, name: StageName)
    requires !c.fails
    ensures Leaves(Solo(w, ConfirmStage(name), c), AfterConfirm(LoadedBy(w, c), w.rows, name, c.now))
  {
    SoloDecides(w, ConfirmStage(name), c);
  }

  lemma SoloInitialises(w: World, c: Choice)
    requires !c.fails
    ensures Leaves(Solo(w, InitOnly, c), AfterInit(LoadedBy(w, c), w.rows, None))
  {
    SoloDecides(w, InitOnly, c);
  }

  lemma SoloPlans(w: World, c: Choice)
    requires !c.fails
    ensures Leaves(Solo(w, GeneratePm, c), AfterPm(LoadedBy(w, c), w.rows, c.outcome, c.text, c.now))
  {
    SoloDecides(w, GeneratePm, c);
  }

  // ---- What each handler does to the stage it is about ----

  // Every other stage, the current stage and the session are as they were.
  predicate OnlyStage(s: Snapshot, t: Snapshot, name: StageName) {
    && (name != Requirement ==> t.requirement == s.requirement) && (name != Design ==> t.design == s.design)
    && (name != Task ==> t.task == s.task) && (name != Pm ==> t.pm == s.pm)
    && t.currentStage == s.currentStage && t.sessionId == s.sessionId
  }

  // The stage's own fields afterwards; None for a field that stays.
  predicate Shows(s: StageRow, t: StageRow, status: Status, subStage: Option<string>, path: Option<string>, error: Option<string>) {
    && t.status == status
    && t.subStage == (if subStage.Some? then subStage else s.subStage)
    && t.documentPath == (if path.Some? then path else s.documentPath)
    && t.errorMessage == (if error.Some? then error else s.errorMessage)
  }

  predicate Updates(w: World, s: Snapshot, name: StageName, status: Status, subStage: Option<string>, path: Option<string>, error: Option<string>) {
    && w.cache.Some? && w.rows == RowsOf(w.cache.value)
    && OnlyStage(s, w.cache.value, name) && Shows(s.Stage(name), w.cache.value.Stage(name), status, subStage, path, error)
  }

  // The handlers of a project that is there, and what each leaves stored, alone. A chat turn:
  lemma SoloChats(w: World, c: Choice)
    requires !c.fails && LoadedBy(w, c).Some?
    ensures Updates(Solo(w, Chat, c), LoadedBy(w, c).value, Requirement, Running, Some(c.text), None, None)
  {
    SoloDecides(w, Chat, c);
  }

  // The confirmation of the requirement document:
  lemma SoloConfirmsPrd(w: World, c: Choice)
    requires !c.fails && LoadedBy(w, c).Some?
    ensures Updates(Solo(w, ConfirmPrd, c), LoadedBy(w, c).value, Requirement, Confirmed, Some("prd_confirmed"), Some(c.text), None)
  {
    SoloDecides(w, ConfirmPrd, c);
  }

  // The start of its decomposition:
  lemma SoloDecomposes(w: World, c: Choice)
    requires !c.fails && LoadedBy(w, c).Some?
    ensures Updates(Solo(w, Decompose, c), LoadedBy(w, c).value, Requirement, Running, Some("ears_decomposing"), None, None)
  {
    SoloDecides(w, Decompose, c);
  }

  // A decomposition that failed in the background:
  lemma SoloFails(w: World, c: Choice)
    requires !c.fails && LoadedBy(w, c).Some?
    ensures Updates(Solo(w, EarsFailure, c), LoadedBy(w, c).value, Requirement, Error, None, None, Some(c.text))
  {
    SoloDecides(w, EarsFailure, c);
  }

  // The plan that a confirmed decomposition brings about:
  lemma SoloTriggersPm(w: World, c: Choice)
    requires !c.fails && LoadedBy(w, c).Some?
    ensures Updates(Solo(w, TriggerPm, c), LoadedBy(w, c).value, Pm, Confirmed, None, Some(c.text), None)
  {
    SoloDecides(w, TriggerPm, c);
  }

  // The split confirms the requirement if it came to tasks, and keeps it running if not.
  lemma SoloSplits(w: World, c: Choice, background: bool)
    requires !c.fails && LoadedBy(w, c).Some?
    ensures var s, w' := LoadedBy(w, c).value, Solo(w, EarsResult(background), c);
            if c.outcome == Good then Updates(w', s, Requirement, Confirmed, Some("tasks_ready"), Some(c.text), None)
            else Updates(w', s, Requirement, Running, Some(c.text), None, None)
  {
    SoloDecides(w, EarsResult(background), c);
  }

  // None of these does anything about a project that is not there.
  lemma SoloFindsNothing(w: World, c: Choice, h: Handler)
    requires !c.fails && LoadedBy(w, c).None? && !h.InitOnly? && !h.StartChat?
    ensures Solo(w, h, c).cache == None && Solo(w, h, c).rows == w.rows
  {
    SoloDecides(w, h, c);
  }

  // ---- Past the first save ----

  // The request resumes after a save, and goes on until its next save has returned.
  function Resumed(w: World, id: nat, d: Choice): World {
    Alone(Step(w, Advance(id, d)), id, d, 2)
  }

  lemma ResumedSaves(w: World, id: nat, h: Handler, s: Snapshot, d: Choice)
    requires Saves(w, id, h, s) && !d.fails && Spawned(h).None? && OnWrote(h, s, d).phase.WriteCache?
    ensures var q := OnWrote(h, s, d); Saves(Resumed(w, id, d), id, q.handler, q.phase.s)
  {
    var q := OnWrote(h, s, d);
    AloneSaves(Put(w, id, q), id, q.handler, q.phase.s, d, 2);
  }

  // A generation that was accepted: with a document its stage awaits confirmation at that
  // path, without one it stays running, and the stream that got none saves what it held.
  lemma SoloGenerates(w: World, c: Choice, d: Choice, name: StageName)
    requires !c.fails && !d.fails && LoadedBy(w, c).Some? && CanStartStage(LoadedBy(w, c).value, name) == CanStart
    requires LoadedBy(w, c).value.Stage(name).status != Running
    ensures var w1 := Solo(w, StartStage(name), c);
            var s, w2 := Started(LoadedBy(w, c).value, name, c.now), Resumed(w1, w.nextId, d);
            && Saves(w1, w.nextId, Generating(name), s) && s.Stage(name).status == Running && s.currentStage == name
            && (match d.outcome
                case Good => Updates(w2, s, name, AwaitingConfirmation, None, Some(d.text), None)
                case Poor => Updates(w2, s, name, Running, None, None, None)
                case Bad => w2.cache == Some(s) && w2.rows == RowsOf(s))
  {
    SoloDecides(w, StartStage(name), c);
    GenerationSaves(Solo(w, StartStage(name), c), w.nextId, name, Started(LoadedBy(w, c).value, name, c.now), d);
  }

  lemma GenerationSaves(w: World, id: nat, name: StageName, s: Snapshot, d: Choice)
    requires Saves(w, id, Generating(name), s) && !d.fails
    ensures var w' := Resumed(w, id, d);
            match d.outcome
            case Good => Updates(w', s, name, AwaitingConfirmation, None, Some(d.text), None)
            case Poor => Updates(w', s, name, Running, None, None, None)
            case Bad => w'.cache == Some(s) && w'.rows == RowsOf(s)
  {
    ResumedSaves(w, id, Generating(name), s, d);
  }

  // A generation that raises leaves the store as it was.
  lemma RaisedGenerationStores(w: World, id: nat, name: StageName, s: Snapshot, d: Choice)
    requires Saves(w, id, Generating(name), s) && d.fails
    ensures Resumed(w, id, d).cache == w.cache && Resumed(w, id, d).rows == w.rows
  {
  }

  // A stage already running is generated for without a first save, from what was loaded.
  lemma SoloRegenerates(w: World, c: Choice, name: StageName)
    requires !c.fails && LoadedBy(w, c).Some? && CanStartStage(LoadedBy(w, c).value, name) == CanStart
    requires LoadedBy(w, c).value.Stage(name).status == Running
    ensures var w1 := Solo(w, StartStage(name), c);
            && w1.cache == LoadedBy(w, c) && w1.rows == w.rows && w.nextId in w1.requests
            && w1.requests[w.nextId] == Request(Generating(name), Wrote(LoadedBy(w, c).value))
  {
    SoloDecides(w, StartStage(name), c);
  }

  // The first chat: the stage is stored as clarifying, and after the model as it came out.
  lemma SoloOpens(w: World, c: Choice, d: Choice, sid: string)
    requires !c.fails && !d.fails && LoadedBy(w, c).Some?
    ensures var s, w1 := LoadedBy(w, c).value, Solo(w, StartChat(sid), c);
            && Updates(w1, s, Requirement, Running, Some("clarifying"), None, None)
            && Updates(Resumed(w1, w.nextId, d), s, Requirement, Running, Some(d.text), None, None)
  {
    SoloDecides(w, StartChat(sid), c);
    var w1 := Solo(w, StartChat(sid), c);
    ResumedSaves(w1, w.nextId, StartChatRunning, w1.cache.value, d);
  }

  // The first chat of a project without state stores a fresh one before that.
  lemma SoloCreates(w: World, c: Choice, d: Choice, sid: string)
    requires !c.fails && !d.fails && LoadedBy(w, c).None?
    ensures var s, w1 := FreshSnapshot(Some(sid)), Solo(w, StartChat(sid), c);
            && Saves(w1, w.nextId, StartChat(sid), s)
            && Updates(Resumed(w1, w.nextId, d), s, Requirement, Running, Some("clarifying"), None, None)
  {
    SoloDecides(w, StartChat(sid), c);
    ResumedSaves(Solo(w, StartChat(sid), c), w.nextId, StartChat(sid), FreshSnapshot(Some(sid)), d);
  }

  // A decomposition leaves its task behind, and a confirmed split the plan's.
  lemma SplitSpawns(w: World, id: nat, h: Handler, s: Snapshot, d: Choice)
    requires Saves(w, id, h, s) && !d.fails && id < w.nextId && (h == DecomposeMarked || h.EarsConfirmed?)
    ensures var w' := Step(w, Advance(id, d));
            && w.nextId in w'.requests && w'.nextId == w.nextId + 1
            && w'.requests[w.nextId] == Request(if h == DecomposeMarked then EarsResult(true) else TriggerPm, ReadCache)
            && w'.requests[id].phase == Finished && w'.cache == w.cache && w'.rows == w.rows
  {
  }

  // ---- The operations themselves ----

  // A stage may be started if it is the requirement, or the design of a confirmed
  // requirement; it is then running and current, and no other stage changes.
  lemma StartTold(s: Snapshot, name: StageName, now: string)
    ensures CanStartStage(s, name) == CanStart <==> name == Requirement || (name == Design && s.requirement.status == Confirmed)
    ensures CanStartStage(s, name) == Blocked <==> name == Design && s.requirement.status != Confirmed
    ensures var t := Started(s, name, now);
            if s.Stage(name).status == Running then t == s
            else t.Stage(name).status == Running && t.currentStage == name && OnlyStage(s, t.(currentStage := s.currentStage), name)
  {
  }

  // A stage may be confirmed while it runs or waits, if the current stage can advance: from
  // the requirement to the design, and the design stays.
  lemma ConfirmTold(s: Snapshot, name: StageName, now: string)
    ensures var r := ConfirmedStage(s, name, now);
            && (r.Accepted? <==> (s.Stage(name).status == Running || s.Stage(name).status == AwaitingConfirmation)
                                 && (s.currentStage == Requirement || s.currentStage == Design))
            && (r.Accepted? ==> r.snapshot.Stage(name).status == Confirmed && r.snapshot.currentStage == Design
                                && OnlyStage(s, r.snapshot.(currentStage := s.currentStage), name))
  {
  }

  // What the operations leave, by cases: refused, nothing but the load; accepted, the new
  // snapshot in cache and rows.
  lemma OperationsTold(loaded: Option<Snapshot>, rows: map<StageName, StageRow>, name: StageName, c: Choice)
    ensures var r := AfterStart(loaded, rows, name, c.now);
            && (r.ok <==> loaded.Some? && CanStartStage(loaded.value, name) == CanStart)
            && (!r.ok ==> (r.cache, r.rows) == (loaded, rows))
            && (r.ok ==> r.cache == Some(Started(loaded.value, name, c.now))
                         && r.rows == if r.cache == loaded && loaded.value.Stage(name).status == Running then rows else RowsOf(r.cache.value))
    ensures var r := AfterConfirm(loaded, rows, name, c.now);
            && (r.ok <==> loaded.Some? && ConfirmedStage(loaded.value, name, c.now).Accepted?)
            && (!r.ok ==> (r.cache, r.rows) == (loaded, rows))
            && (r.ok ==> r.cache == Some(ConfirmedStage(loaded.value, name, c.now).snapshot) && r.rows == RowsOf(r.cache.value))
    ensures var r := AfterInit(loaded, rows, None);
            if loaded.Some? then (r.cache, r.rows) == (loaded, rows)
            else r.cache == Some(FreshSnapshot(None)) && r.rows == RowsOf(FreshSnapshot(None))
  {
  }

  // The plan: only for a confirmed requirement; a document confirms it, an error marks it,
  // and without either nothing is stored.
  lemma PlanTold(loaded: Option<Snapshot>, rows: map<StageName, StageRow>, c: Choice)
    ensures var r := AfterPm(loaded, rows, c.outcome, c.text, c.now);
            if loaded.None? || loaded.value.requirement.status != Confirmed || c.outcome == Poor
            then !r.ok && (r.cache, r.rows) == (loaded, rows)
            else && r.cache.Some? && r.rows == RowsOf(r.cache.value) && OnlyStage(loaded.value, r.cache.value, Pm)
                 && (r.ok <==> c.outcome == Good)
                 && (if c.outcome == Good then Shows(loaded.value.pm, r.cache.value.pm, Confirmed, None, Some(c.text), None)
                     else Shows(loaded.value.pm, r.cache.value.pm, Error, None, None, Some(c.text)))
  {
  }
}
