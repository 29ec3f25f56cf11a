// What it takes for a design to show as confirmed.
module DesignConfirmation {
  import opened Prelude
  import opened ProjectStates
  import opened Pipeline
  import opened DesignLoss

  const CONFIRMING := ConfirmStage(Design)

  predicate Confirmable(s: Snapshot) {
    s.design.status == Running || s.design.status == AwaitingConfirmation
  }

  // In this step a request to confirm the design, holding a design that was begun, decides.
  predicate DecidesNow(w: World, a: Action) {
    && a.Advance? && !a.choice.fails && a.id in w.requests
    && w.requests[a.id].handler == CONFIRMING
    && w.requests[a.id].phase.Have? && Confirmable(w.requests[a.id].phase.s)
  }

  ghost predicate ArrivedAt(acts: seq<Action>, i: nat) {
    i < |acts| && acts[i] == Arrive(CONFIRMING)
  }

  ghost predicate DecidedAt(acts: seq<Action>, k: nat) {
    k < |acts| && DecidesNow(Run(acts[..k]), acts[k])
  }

  // ---- The invariant ----

  predicate ShowsConfirmed(q: Request) {
    match q.phase
    case Refill(s) => s.design.status == Confirmed
    case Have(s) => s.design.status == Confirmed
    case WriteCache(s) => s.design.status == Confirmed
    case WriteDb(s) => s.design.status == Confirmed
    case Wrote(s) => s.design.status == Confirmed
    case _ => false
  }

  predicate RequestKnows(q: Request, arrived: bool, decided: bool) {
    (q.handler == CONFIRMING ==> arrived) && (ShowsConfirmed(q) ==> decided)
  }

  ghost predicate Knows(w: World, arrived: bool, decided: bool) {
    && (w.cache.Some? && w.cache.value.design.status == Confirmed ==> decided)
    && (RowOr(w.rows, Design).status == Confirmed ==> decided)
    && (forall id :: id in w.requests ==> RequestKnows(w.requests[id], arrived, decided))
  }

  lemma HaveKnows(h: Handler, s: Snapshot, c: Choice, arrived: bool, decided: bool)
    requires RequestKnows(Request(h, Have(s)), arrived, decided)
    ensures RequestKnows(OnHave(h, s, c), arrived, decided || (h == CONFIRMING && Confirmable(s)))
  {
  }

  lemma WroteKnows(h: Handler, s: Snapshot, c: Choice, arrived: bool, decided: bool)
    requires RequestKnows(Request(h, Wrote(s)), arrived, decided)
    ensures RequestKnows(OnWrote(h, s, c), arrived, decided)
  {
  }

  lemma PutKnows(w: World, w': World, id: nat, q: Request, arrived: bool, decided: bool, arrived': bool, decided': bool)
    requires Knows(w, arrived, decided) && (arrived ==> arrived') && (decided ==> decided')
    requires w'.requests == w.requests[id := q] && RequestKnows(q, arrived', decided')
    requires w'.cache.Some? && w'.cache.value.design.status == Confirmed ==> decided'
    requires RowOr(w'.rows, Design).status == Confirmed ==> decided'
    ensures Knows(w', arrived', decided')
  {
  }

  lemma DecisionKnows(w: World, id: nat, c: Choice, arrived: bool, decided: bool)
    requires Knows(w, arrived, decided) && id in w.requests && w.requests[id].phase.Have?
    ensures Knows(Step(w, Advance(id, c)), arrived, decided || DecidesNow(w, Advance(id, c)))
  {
    var q := w.requests[id];
    var next := if c.fails then OnFailure(q.handler) else OnHave(q.handler, q.phase.s, c);
    HaveKnows(q.handler, q.phase.s, c, arrived, decided);
    PutKnows(w, Put(w, id, next), id, next, arrived, decided, arrived, decided || DecidesNow(w, Advance(id, c)));
  }

  lemma ReadingKnows(w: World, id: nat, c: Choice, arrived: bool, decided: bool)
    requires Knows(w, arrived, decided) && id in w.requests
    requires var p := w.requests[id].phase; p.ReadCache? || p.ReadDb? || p.Missing?
    ensures Knows(Step(w, Advance(id, c)), arrived, decided)
  {
    var q := w.requests[id];
    assert RequestKnows(q, arrived, decided);
    var next := match q.phase
      case ReadCache => if c.fails then OnFailure(q.handler) else if w.cache.Some? then q.(phase := Have(w.cache.value)) else q.(phase := ReadDb)
      case ReadDb => if c.fails || !w.hasProject then q.(phase := Missing) else q.(phase := Refill(Restored(w.rows, c.back)))
      case _ => OnMissing(q.handler);
    PutKnows(w, Put(w, id, next), id, next, arrived, decided, arrived, decided);
  }

  lemma WritingKnows(w: World, id: nat, c: Choice, arrived: bool, decided: bool)
    requires Knows(w, arrived, decided) && id in w.requests
    requires var p := w.requests[id].phase; p.Refill? || p.WriteCache? || p.WriteDb? || p.Finished?
    ensures Knows(Step(w, Advance(id, c)), arrived, decided)
  {
    var q, w' := w.requests[id], Step(w, Advance(id, c));
    assert RequestKnows(q, arrived, decided);
    if q.phase.Finished? {
      assert w' == w;
    } else {
      assert w'.requests == w.requests[id := w'.requests[id]];
      PutKnows(w, w', id, w'.requests[id], arrived, decided, arrived, decided);
    }
  }

  lemma AfterSaveKnows(w: World, id: nat, c: Choice, arrived: bool, decided: bool)
    requires Knows(w, arrived, decided) && id in w.requests && w.requests[id].phase.Wrote?
    ensures Knows(Step(w, Advance(id, c)), arrived, decided)
  {
    var q := w.requests[id];
    var next := if c.fails then OnFailure(q.handler) else OnWrote(q.handler, q.phase.s, c);
    WroteKnows(q.handler, q.phase.s, c, arrived, decided);
    var moved := Put(w, id, next);
    PutKnows(w, moved, id, next, arrived, decided, arrived, decided);
    if !c.fails && Spawned(q.handler).Some? {
      var h := Spawned(q.handler).value;
      PutKnows(moved, Launch(moved, h), moved.nextId, Request(h, ReadCache), arrived, decided, arrived, decided);
    }
  }

  lemma StepKnows(w: World, a: Action, arrived: bool, decided: bool)
    requires Knows(w, arrived, decided)
    ensures Knows(Step(w, a), arrived || a == Arrive(CONFIRMING), decided || DecidesNow(w, a))
  {
    match a {
      case Arrive(h) =>
        if Entry(h) {
          PutKnows(w, Launch(w, h), w.nextId, Request(h, ReadCache), arrived, decided, arrived || h == CONFIRMING, decided);
        } else {
          PutWeaker(w, arrived, decided, arrived || h == CONFIRMING, decided);
        }
      case Advance(id, c) =>
        if id in w.requests {
          match w.requests[id].phase {
            case Wrote(_) => AfterSaveKnows(w, id, c, arrived, decided);
            case Have(_) => DecisionKnows(w, id, c, arrived, decided);
            case ReadCache => ReadingKnows(w, id, c, arrived, decided);
            case ReadDb => ReadingKnows(w, id, c, arrived, decided);
            case Missing => ReadingKnows(w, id, c, arrived, decided);
            case _ => WritingKnows(w, id, c, arrived, decided);
          }
        }
      case _ =>
    }
  }

  lemma PutWeaker(w: World, arrived: bool, decided: bool, arrived': bool, decided': bool)
    requires Knows(w, arrived, decided) && (arrived ==> arrived') && (decided ==> decided')
    ensures Knows(w, arrived', decided')
  {
  }

  ghost predicate Arrived(acts: seq<Action>) {
    exists i: nat :: ArrivedAt(acts, i)
  }

  ghost predicate Decided(acts: seq<Action>) {
    exists k: nat :: DecidedAt(acts, k)
  }

  lemma EarlierCounts(acts: seq<Action>)
    requires acts != []
    ensures var front, a := acts[..|acts| - 1], acts[|acts| - 1];
            && (Arrived(front) || a == Arrive(CONFIRMING) ==> Arrived(acts))
            && (Decided(front) || DecidesNow(Run(front), a) ==> Decided(acts))
  {
    var front, n := acts[..|acts| - 1], |acts| - 1;
    if i: nat :| ArrivedAt(front, i) { assert ArrivedAt(acts, i); }
    if acts[n] == Arrive(CONFIRMING) { assert ArrivedAt(acts, n); }
    if k: nat :| DecidedAt(front, k) {
      assert front[..k] == acts[..k];
      assert DecidedAt(acts, k);
    }
    if DecidesNow(Run(front), acts[n]) { assert DecidedAt(acts, n); }
  }

  lemma {:induction false} RunKnows(acts: seq<Action>)
    ensures Knows(Run(acts), Arrived(acts), Decided(acts))
  {
    if acts != [] {
      var front, a := acts[..|acts| - 1], acts[|acts| - 1];
      RunKnows(front);
      StepKnows(Run(front), a, Arrived(front), Decided(front));
      EarlierCounts(acts);
      PutWeaker(Run(acts), Arrived(front) || a == Arrive(CONFIRMING), Decided(front) || DecidesNow(Run(front), a), Arrived(acts), Decided(acts));
    }
  }

  // Over every schedule: where a design shows as confirmed, a request to confirm it arrived,
  // and decided on a design that was begun, which had been stored as running by then.
  lemma ConfirmedOnRequest(acts: seq<Action>, s: Snapshot)
    requires Visible(Run(acts), s) && s.design.status == Confirmed
    ensures exists i: nat, j: nat, k: nat :: i < k && j <= k && ArrivedAt(acts, i) && DesignRunningAt(acts, j) && DecidedAt(acts, k)
  {
    RunKnows(acts);
    VisibleIsKnown(acts, s);
    var k: nat :| DecidedAt(acts, k);
    var upTo := acts[..k];
    var held := Run(upTo).requests[acts[k].id].phase.s;
    RunKnows(upTo);
    RunKeepsInv(upTo);
    assert RequestKnows(Run(upTo).requests[acts[k].id], Arrived(upTo), Decided(upTo));
    assert RequestOk(Run(upTo).requests[acts[k].id], SeenBy(upTo));
    assert held.design.status != Pending;
    SeenMeansCached(upTo);
    var i: nat :| ArrivedAt(upTo, i);
    var j: nat :| DesignRunningAt(upTo, j);
    assert upTo[..j] == acts[..j];
    assert ArrivedAt(acts, i) && DesignRunningAt(acts, j);
  }

  lemma VisibleIsKnown(acts: seq<Action>, s: Snapshot)
    requires Knows(Run(acts), Arrived(acts), Decided(acts)) && Visible(Run(acts), s) && s.design.status == Confirmed
    ensures Decided(acts)
  {
    var w := Run(acts);
    if id :| id in w.requests && Carries(w.requests[id], s) {
      assert RequestKnows(w.requests[id], Arrived(acts), Decided(acts));
    }
  }

  // ---- The request may come before the design ----

  // Confirm the requirement, ask to confirm the design, then start it; the confirmation,
  // loading only now, is decided on a design that it came before.
  const EARLY_REQUEST: seq<Action> :=
    [CreateProject, Arrive(ConfirmPrd), Tick(0), Tick(0), Tick(0), Tick(0), Tick(0),
     Arrive(CONFIRMING), Arrive(StartStage(Design)), Tick(2), Tick(2), Tick(2), Tick(1), Tick(1), Tick(1)]

  lemma RunAll(acts: seq<Action>)
    ensures Run(acts) == RunFrom(INITIAL_WORLD, acts)
  {
    RunContinues([], acts);
    assert [] + acts == acts;
  }

  lemma Two(w: World, a: Action, b: Action, rest: seq<Action>)
    ensures RunFrom(w, [a, b] + rest) == RunFrom(Step(Step(w, a), b), rest)
  {
    OneMore(w, a, [b] + rest);
    OneMore(Step(w, a), b, rest);
    assert [a] + ([b] + rest) == [a, b] + rest;
  }

  lemma Three(w: World, a: Action, b: Action, c: Action, rest: seq<Action>)
    ensures RunFrom(w, [a, b, c] + rest) == RunFrom(Step(Step(Step(w, a), b), c), rest)
  {
    OneMore(w, a, [b, c] + rest);
    Two(Step(w, a), b, c, rest);
    assert [a] + ([b, c] + rest) == [a, b, c] + rest;
  }

  const CONFIRMED_FIRST := FreshSnapshot(None).SetStatus(Requirement, Confirmed, "t", Extras(Some("prd_confirmed"), Some(""), None))

  // The request stands at the eighth place, and up to then no design was even begun.
  lemma RequestMayComeFirst()
    ensures ArrivedAt(EARLY_REQUEST, 7)
    ensures Run(EARLY_REQUEST[..8]).cache == Some(CONFIRMED_FIRST) && RowOr(Run(EARLY_REQUEST[..8]).rows, Design).status == Pending
    ensures var w := Run(EARLY_REQUEST); w.cache.Some? && w.cache.value.design.status == Confirmed
  {
    var t0, t1, t2 := Tick(0), Tick(1), Tick(2);
    var first, later := EARLY_REQUEST[..8], [Arrive(StartStage(Design)), t2, t2, t2, t1, t1, t1];
    assert EARLY_REQUEST == first + later;
    RunContinues(first, later);
    FirstEight();
    LastSeven(Run(first));
  }

  lemma FirstEight()
    ensures var w := Run(EARLY_REQUEST[..8]);
            && w.cache == Some(CONFIRMED_FIRST) && w.rows == map[] && w.nextId == 2
            && 1 in w.requests && w.requests[1] == Request(CONFIRMING, ReadCache)
  {
    var t := Tick(0);
    RunAll(EARLY_REQUEST[..8]);
    var w0 := Step(Step(Step(INITIAL_WORLD, CreateProject), Arrive(ConfirmPrd)), t);
    var w1 := Step(Step(Step(w0, t), t), t);
    var w2 := Step(Step(w1, t), Arrive(CONFIRMING));
    Three(INITIAL_WORLD, CreateProject, Arrive(ConfirmPrd), t, [t, t, t] + ([t, Arrive(CONFIRMING)] + []));
    Three(w0, t, t, t, [t, Arrive(CONFIRMING)] + []);
    Two(w1, t, Arrive(CONFIRMING), []);
    assert EARLY_REQUEST[..8] == [CreateProject, Arrive(ConfirmPrd), t] + ([t, t, t] + ([t, Arrive(CONFIRMING)] + []));
    assert w0.requests[0] == Request(ConfirmPrd, ReadDb);
    assert w1.requests[0] == Request(Ending, WriteCache(CONFIRMED_FIRST));
  }

  lemma LastSeven(w: World)
    requires w.cache == Some(CONFIRMED_FIRST) && w.nextId == 2 && 1 in w.requests && w.requests[1] == Request(CONFIRMING, ReadCache)
    ensures var w' := RunFrom(w, [Arrive(StartStage(Design)), Tick(2), Tick(2), Tick(2), Tick(1), Tick(1), Tick(1)]);
            w'.cache.Some? && w'.cache.value.design.status == Confirmed
  {
    var t1, t2 := Tick(1), Tick(2);
    var w1 := Step(Step(w, Arrive(StartStage(Design))), t2);
    var w2 := Step(Step(w1, t2), t2);
    Two(w, Arrive(StartStage(Design)), t2, [t2, t2] + ([t1, t1, t1] + []));
    Two(w1, t2, t2, [t1, t1, t1] + []);
    assert [Arrive(StartStage(Design)), t2, t2, t2, t1, t1, t1] == [Arrive(StartStage(Design)), t2] + ([t2, t2] + ([t1, t1, t1] + []));
    assert w2.cache == Some(Started(CONFIRMED_FIRST, Design, "t")) && w2.requests[1] == Request(CONFIRMING, ReadCache);
    LastThree(w2);
  }

  lemma LastThree(w: World)
    requires w.cache == Some(Started(CONFIRMED_FIRST, Design, "t")) && 1 in w.requests && w.requests[1] == Request(CONFIRMING, ReadCache)
    ensures var w' := RunFrom(w, [Tick(1), Tick(1), Tick(1)] + []);
            w'.cache.Some? && w'.cache.value.design.status == Confirmed
  {
    var t1 := Tick(1);
    Three(w, t1, t1, t1, []);
    var w1 := Step(w, t1);
    assert w1.requests[1] == Request(CONFIRMING, Have(Started(CONFIRMED_FIRST, Design, "t")));
  }
}
