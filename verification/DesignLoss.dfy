// When a design that was begun can be lost: which worlds allow it, and which never will.
module DesignLoss {
  import opened Prelude
  import opened ProjectStates
  import opened Pipeline

  // The snapshot knows nothing of a begun design.
  predicate Behind(s: Snapshot) {
    s.design.status == Pending
  }

  predicate Lost(w: World) {
    w.cache.Some? && Behind(w.cache.value)
  }

  predicate Creates(h: Handler) {
    h.InitOnly? || h.StartChat?
  }

  // ---- Which requests may still store a snapshot that is behind ----

  // With such a snapshot loaded, the handler may go on to save it.
  predicate MaySaveLoaded(h: Handler, s: Snapshot) {
    match h
    case StartChat(_) => true
    case Chat => true
    case ConfirmPrd => true
    case Decompose => true
    case EarsResult(_) => true
    case EarsFailure => true
    case TriggerPm => true
    case StartStage(name) => name == Requirement
    case ConfirmStage(name) => ConfirmedStage(s, name, "").Accepted?
    case GeneratePm => s.requirement.status == Confirmed
    case _ => false
  }

  // Its first save done, the handler has another one to make.
  predicate SavesTwice(h: Handler) {
    h.StartChat? || h.StartChatRunning? || h.Generating?
  }

  predicate MayErase(q: Request) {
    match q.phase
    case Refill(s) => Behind(s)
    case Have(s) => Behind(s) && MaySaveLoaded(q.handler, s)
    case Missing => Creates(q.handler)
    case WriteCache(s) => Behind(s)
    case WriteDb(s) => Behind(s)
    case Wrote(s) => Behind(s) && SavesTwice(q.handler)
    case _ => false
  }

  // The project is there, cache and rows know of the design, and no request threatens it.
  ghost predicate Secure(w: World) {
    && w.hasProject
    && !Lost(w)
    && RowOr(w.rows, Design).status != Pending
    && (forall id :: id in w.requests ==> !MayErase(w.requests[id]))
  }

  // A request that creates projects fails to read the database, and takes that for absence.
  predicate LosesRead(w: World, a: Action) {
    && a.Advance? && a.choice.fails && a.id in w.requests
    && Creates(w.requests[a.id].handler)
    && (w.requests[a.id].phase.ReadDb? || w.requests[a.id].phase.Refill?)
  }

  // ---- A single step ----

  // A cached design vanishes in one step exactly by a write or a refill that takes effect
  // with a snapshot that is behind.
  lemma OneStepLoses(w: World, a: Action)
    requires w.cache.Some? && !Lost(w)
    ensures Lost(Step(w, a)) <==>
            && a.Advance? && a.id in w.requests
            && (a.choice.fails ==> a.choice.landed)
            && (var p := w.requests[a.id].phase; (p.WriteCache? || p.Refill?) && Behind(p.s))
  {
  }

  lemma StaysHarmless(h: Handler, s: Snapshot, c: Choice)
    requires !MayErase(Request(h, Have(s)))
    ensures !MayErase(OnHave(h, s, c))
  {
  }

  lemma StaysHarmlessAfterSave(h: Handler, s: Snapshot, c: Choice)
    requires !MayErase(Request(h, Wrote(s)))
    ensures !MayErase(OnWrote(h, s, c))
  {
    if h.StartChat? { StaysHarmless(h, s, c); }
  }

  lemma ChangedRequestKeeps(w: World, w': World, id: nat, q: Request)
    requires Secure(w) && !MayErase(q) && w'.requests == w.requests[id := q] && w'.hasProject
    requires !Lost(w') && RowOr(w'.rows, Design).status != Pending
    ensures Secure(w')
  {
  }

  lemma HarmlessAdvance(w: World, id: nat, c: Choice)
    requires Secure(w) && id in w.requests && !LosesRead(w, Advance(id, c))
    requires !w.requests[id].phase.Wrote?
    ensures Secure(Step(w, Advance(id, c)))
  {
    var q, w' := w.requests[id], Step(w, Advance(id, c));
    if q.phase.Have? { StaysHarmless(q.handler, q.phase.s, c); }
    if q.phase.Finished? {
      assert w' == w;
    } else {
      assert w'.requests == w.requests[id := w'.requests[id]];
      assert !MayErase(w'.requests[id]);
      ChangedRequestKeeps(w, w', id, w'.requests[id]);
    }
  }

  lemma HarmlessAfterSave(w: World, id: nat, c: Choice)
    requires Secure(w) && id in w.requests && w.requests[id].phase.Wrote?
    ensures Secure(Step(w, Advance(id, c)))
  {
    var q := w.requests[id];
    var next := if c.fails then OnFailure(q.handler) else OnWrote(q.handler, q.phase.s, c);
    StaysHarmlessAfterSave(q.handler, q.phase.s, c);
    var moved := Put(w, id, next);
    ChangedRequestKeeps(w, moved, id, next);
    if !c.fails && Spawned(q.handler).Some? {
      var h := Spawned(q.handler).value;
      ChangedRequestKeeps(moved, Launch(moved, h), moved.nextId, Request(h, ReadCache));
    }
  }

  lemma SecureStep(w: World, a: Action)
    requires Secure(w) && !LosesRead(w, a)
    ensures Secure(Step(w, a))
  {
    match a {
      case Arrive(h) =>
        if Entry(h) { ChangedRequestKeeps(w, Launch(w, h), w.nextId, Request(h, ReadCache)); }
      case Advance(id, c) =>
        if id in w.requests {
          if w.requests[id].phase.Wrote? { HarmlessAfterSave(w, id, c); } else { HarmlessAdvance(w, id, c); }
        }
      case _ =>
    }
  }

  // ---- Whole schedules ----

  function RunFrom(w: World, acts: seq<Action>): World
    decreases |acts|
  {
    if acts == [] then w else RunFrom(Step(w, acts[0]), acts[1..])
  }

  // No such read fails.
  predicate Reliable(w: World, acts: seq<Action>)
    decreases |acts|
  {
    acts == [] || (!LosesRead(w, acts[0]) && Reliable(Step(w, acts[0]), acts[1..]))
  }

  lemma {:induction false} RunContinues(acts: seq<Action>, more: seq<Action>)
    ensures Run(acts + more) == RunFrom(Run(acts), more)
    decreases |more|
  {
    if more == [] {
      assert acts + more == acts;
    } else {
      var next := acts + [more[0]];
      assert next + more[1..] == acts + more && next[..|acts|] == acts;
      RunContinues(next, more[1..]);
    }
  }

  lemma {:induction false} SecureForever(w: World, more: seq<Action>)
    requires Secure(w) && Reliable(w, more)
    ensures Secure(RunFrom(w, more))
    decreases |more|
  {
    if more != [] {
      SecureStep(w, more[0]);
      SecureForever(Step(w, more[0]), more[1..]);
    }
  }

  // ---- Every other world has a schedule that loses the design ----

  ghost predicate Losable(w: World) {
    exists more :: Reliable(w, more) && Lost(RunFrom(w, more))
  }

  lemma LostAlready(w: World)
    requires Lost(w)
    ensures Losable(w)
  {
    assert Reliable(w, []) && Lost(RunFrom(w, []));
  }

  lemma Sooner(w: World, a: Action)
    requires !LosesRead(w, a) && Losable(Step(w, a))
    ensures Losable(w)
  {
    var more :| Reliable(Step(w, a), more) && Lost(RunFrom(Step(w, a), more));
    assert ([a] + more)[1..] == more;
    assert Reliable(w, [a] + more) && Lost(RunFrom(w, [a] + more));
  }

  lemma TickSooner(w: World, id: nat, c: Choice, w': World)
    requires id in w.requests && !c.fails && w' == AdvanceRequest(w, id, w.requests[id], c) && Losable(w')
    ensures Losable(w)
  {
    Sooner(w, Advance(id, c));
  }

  lemma WritingLoses(w: World, id: nat)
    requires id in w.requests
    requires var p := w.requests[id].phase; (p.WriteCache? || p.Refill?) && Behind(p.s)
    ensures Losable(w)
  {
    var w' := Step(w, Tick(id));
    LostAlready(w');
    Sooner(w, Tick(id));
  }

  // A newcomer to an empty cache, past its first read.
  lemma NewcomerReads(w: World, h: Handler)
    requires Entry(h) && Losable(Put(Launch(w.(cache := None), h), w.nextId, Request(h, ReadDb)))
    ensures Losable(w)
  {
    var w1 := Step(w, ExpireCache);
    var w2 := Step(w1, Arrive(h));
    TickSooner(w2, w.nextId, CALM, Put(w2, w.nextId, Request(h, ReadDb)));
    Sooner(w1, Arrive(h));
    Sooner(w, ExpireCache);
  }

  lemma RowsBehindLose(w: World)
    requires w.hasProject && RowOr(w.rows, Design).status == Pending
    ensures Losable(w)
  {
    var w1 := Put(Launch(w.(cache := None), Chat), w.nextId, Request(Chat, ReadDb));
    var w2 := Put(w1, w.nextId, Request(Chat, Refill(Restored(w.rows, EXACT))));
    WritingLoses(w2, w.nextId);
    TickSooner(w1, w.nextId, CALM, w2);
    NewcomerReads(w, Chat);
  }

  lemma MissingLoses(w: World, id: nat)
    requires id in w.requests && w.requests[id].phase.Missing? && Creates(w.requests[id].handler)
    ensures Losable(w)
  {
    var w' := Step(w, Tick(id));
    WritingLoses(w', id);
    Sooner(w, Tick(id));
  }

  lemma NoProjectLoses(w: World)
    requires !w.hasProject
    ensures Losable(w)
  {
    var w1 := Put(Launch(w.(cache := None), InitOnly), w.nextId, Request(InitOnly, ReadDb));
    var w2 := Put(w1, w.nextId, Request(InitOnly, Missing));
    MissingLoses(w2, w.nextId);
    TickSooner(w1, w.nextId, CALM, w2);
    NewcomerReads(w, InitOnly);
  }

  const CALM_BAD := CALM.(outcome := Bad)

  lemma SecondSaveLoses(w: World, id: nat)
    requires id in w.requests && w.requests[id].phase.Wrote? && MayErase(w.requests[id])
    ensures Losable(w)
  {
    var q := w.requests[id];
    var next := OnWrote(q.handler, q.phase.s, CALM_BAD);
    assert next.phase.WriteCache? && Behind(next.phase.s) && Spawned(q.handler).None?;
    WritingLoses(Put(w, id, next), id);
    TickSooner(w, id, CALM_BAD, Put(w, id, next));
  }

  lemma LoadedLoses(w: World, id: nat)
    requires id in w.requests && w.requests[id].phase.Have? && MayErase(w.requests[id])
    ensures Losable(w)
  {
    var q := w.requests[id];
    var next := OnHave(q.handler, q.phase.s, CALM);
    var w' := Put(w, id, next);
    assert MayErase(next) && (next.phase.WriteCache? || next.phase.Wrote?);
    if next.phase.WriteCache? { WritingLoses(w', id); } else { SecondSaveLoses(w', id); }
    TickSooner(w, id, CALM, w');
  }

  lemma DbWriteLoses(w: World, id: nat)
    requires w.hasProject && id in w.requests && w.requests[id].phase.WriteDb? && MayErase(w.requests[id])
    ensures Losable(w)
  {
    var w' := Step(w, Tick(id));
    RowsBehindLose(w');
    Sooner(w, Tick(id));
  }

  lemma ThreatLoses(w: World, id: nat)
    requires w.hasProject && id in w.requests && MayErase(w.requests[id])
    ensures Losable(w)
  {
    match w.requests[id].phase {
      case Have(_) => LoadedLoses(w, id);
      case Missing => MissingLoses(w, id);
      case WriteDb(_) => DbWriteLoses(w, id);
      case Wrote(_) => SecondSaveLoses(w, id);
      case _ => WritingLoses(w, id);
    }
  }

  lemma InsecureLoses(w: World)
    requires !Secure(w)
    ensures Losable(w)
  {
    if Lost(w) {
      LostAlready(w);
    } else if !w.hasProject {
      NoProjectLoses(w);
    } else if RowOr(w.rows, Design).status == Pending {
      RowsBehindLose(w);
    } else {
      var id :| id in w.requests && MayErase(w.requests[id]);
      ThreatLoses(w, id);
    }
  }

  // The exact condition, for every run so far: no continuation whose reads are reliable
  // takes the design out of the cache, if and only if the world reached is secure.
  lemma DesignIsKeptExactlyWhen(acts: seq<Action>)
    ensures (forall more :: Reliable(Run(acts), more) ==> !Lost(Run(acts + more))) <==> Secure(Run(acts))
  {
    var w := Run(acts);
    if Secure(w) {
      forall more | Reliable(w, more) ensures !Lost(Run(acts + more)) {
        SecureForever(w, more);
        RunContinues(acts, more);
      }
    } else {
      InsecureLoses(w);
      var more :| Reliable(w, more) && Lost(RunFrom(w, more));
      RunContinues(acts, more);
    }
  }

  // ---- A read that fails ----

  const FAILING := CALM.(fails := true)

  // The cache expires, the project is initialised again, and the database cannot be read.
  function FailedRead(id: nat): seq<Action> {
    [ExpireCache, Arrive(InitOnly), Tick(id), Advance(id, FAILING), Tick(id), Tick(id), Tick(id)]
  }

  // Without reliable reads no world is safe: from any world, however secure, one failed
  // read makes initialisation store a fresh state over cache and rows.
  lemma FailedReadErasesAll(w: World)
    ensures var w' := RunFrom(w, FailedRead(w.nextId));
            w'.cache == Some(FreshSnapshot(None)) && w'.rows == RowsOf(FreshSnapshot(None))
  {
    var id, acts := w.nextId, FailedRead(w.nextId);
    var w2 := Step(Step(w, ExpireCache), Arrive(InitOnly));
    var w3 := Put(w2, id, Request(InitOnly, ReadDb));
    var w4 := Put(w3, id, Request(InitOnly, Missing));
    var w5 := Put(w4, id, Request(Ending, WriteCache(FreshSnapshot(None))));
    FreshLands(w5, id);
    OneMore(w4, Tick(id), [Tick(id), Tick(id)]);
    OneMore(w3, Advance(id, FAILING), [Tick(id), Tick(id), Tick(id)]);
    OneMore(w2, Tick(id), [Advance(id, FAILING), Tick(id), Tick(id), Tick(id)]);
    OneMore(Step(w, ExpireCache), Arrive(InitOnly), [Tick(id), Advance(id, FAILING), Tick(id), Tick(id), Tick(id)]);
    OneMore(w, ExpireCache, acts[1..]);
  }

  lemma FreshLands(w: World, id: nat)
    requires id in w.requests && w.requests[id] == Request(Ending, WriteCache(FreshSnapshot(None)))
    ensures var w' := RunFrom(w, [Tick(id), Tick(id)]);
            w'.cache == Some(FreshSnapshot(None)) && w'.rows == RowsOf(FreshSnapshot(None))
  {
    var w1 := Put(w.(cache := Some(FreshSnapshot(None))), id, Request(Ending, WriteDb(FreshSnapshot(None))));
    OneMore(w1, Tick(id), []);
    OneMore(w, Tick(id), [Tick(id)]);
  }

  lemma OneMore(w: World, a: Action, rest: seq<Action>)
    ensures RunFrom(w, [a] + rest) == RunFrom(Step(w, a), rest)
  {
    assert ([a] + rest)[1..] == rest;
  }
}
