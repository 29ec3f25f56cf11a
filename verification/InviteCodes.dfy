// Consuming an invite code inside a caller's transaction, under a lock on the code's row.
module InviteCodes {
  import opened Prelude

  datatype Row = Row(maxUses: int, usedCount: int, disabled: bool, expiresAt: Option<int>, codePlain: Option<string>)

  datatype Refusal = Invalid | Exhausted

  // The checks in their order.
  function Check(row: Row, now: int): Option<Refusal> {
    if row.disabled then Some(Invalid)
    else if row.expiresAt.Some? && now > row.expiresAt.value then Some(Invalid)
    else if row.usedCount >= row.maxUses then Some(Exhausted)
    else None
  }

  // After the moment it expires at, if it has one.
  predicate Expired(row: Row, now: int) {
    row.expiresAt.Some? && row.expiresAt.value < now
  }

  predicate Usable(row: Row, now: int) {
    !row.disabled && !Expired(row, now) && row.usedCount < row.maxUses
  }

  // A code passes when it can be used; of the two refusals, exhaustion is the last resort.
  lemma CheckTold(row: Row, now: int)
    ensures Check(row, now).None? <==> Usable(row, now)
    ensures Check(row, now) == Some(Invalid) <==> row.disabled || Expired(row, now)
  {
  }

  // One consumption uses the code up.
  function UsedUp(row: Row): Row {
    row.(usedCount := row.maxUses, codePlain := None)
  }

  // A used-up code is refused for good, whatever its limit.
  lemma UsedUpIsRefused(row: Row, now: int)
    ensures Check(UsedUp(row), now).Some?
  {
  }

  // ---- The call on the transaction's own view of the table ----

  class InviteTx {
    var rows: map<string, Row>

    constructor (rows: map<string, Row>)
      ensures this.rows == rows
    {
      this.rows := rows;
    }

    method ConsumeWithTx(plain: string, hash: string -> string, now: int) returns (refused: Option<Refusal>, consumed: Option<Row>)
      modifies this
      ensures refused == Some(Invalid) <==>
                hash(plain) !in old(rows) || old(rows)[hash(plain)].disabled || Expired(old(rows)[hash(plain)], now)
      ensures refused.None? <==> hash(plain) in old(rows) && Usable(old(rows)[hash(plain)], now)
      ensures refused.Some? ==> consumed == None && rows == old(rows)
      ensures refused.None? ==>
                && consumed == Some(old(rows)[hash(plain)].(usedCount := old(rows)[hash(plain)].maxUses, codePlain := None))
                && rows == old(rows)[hash(plain) := consumed.value]
    {
      var h := hash(plain);
      consumed := None;
      if h !in rows {
        return Some(Invalid), None;
      }
      var ic := rows[h];
      if ic.disabled {
        return Some(Invalid), None;
      }
      if ic.expiresAt.Some? && now > ic.expiresAt.value {
        return Some(Invalid), None;
      }
      if ic.usedCount >= ic.maxUses {
        return Some(Exhausted), None;
      }
      ic := ic.(usedCount := ic.maxUses);
      ic := ic.(codePlain := None);
      rows := rows[h := ic];
      refused, consumed := None, Some(ic);
    }
  }

  // ---- Interleaved transactions ----

  // Where a transaction stands; from Locked on it holds the lock on its code's row.
  datatype Tx =
    | Locked(code: string, read: Row)
    | Passed(code: string, read: Row)
    | Updated(code: string, pending: Row)
    | Failed(code: string, refusal: Refusal)
    | Missed
    | Committed(code: string)
    | RolledBack

  // `rows` is the committed table, `locks` says which transaction holds each row.
  datatype World = World(rows: map<string, Row>, locks: map<string, nat>, txs: map<nat, Tx>)

  datatype Action =
    | LockRow(tx: nat, code: string)
    | CheckRow(tx: nat, now: int)
    | UpdateRow(tx: nat)
    | Commit(tx: nat)
    | Rollback(tx: nat)

  function Move(w: World, tx: nat, t: Tx): World {
    w.(txs := w.txs[tx := t])
  }

  function Release(w: World, code: string): World {
    w.(locks := map c | c in w.locks && c != code :: w.locks[c])
  }

  predicate HoldsLock(t: Tx) {
    t.Locked? || t.Passed? || t.Updated? || t.Failed?
  }

  // A step that is not possible, such as locking a row that another holds, changes nothing.
  function Step(w: World, a: Action): World {
    match a
    case LockRow(tx, code) =>
      if tx in w.txs then w
      else if code !in w.rows then Move(w, tx, Missed)
      else if code in w.locks then w
      else Move(w.(locks := w.locks[code := tx]), tx, Locked(code, w.rows[code]))
    case CheckRow(tx, now) =>
      if tx in w.txs && w.txs[tx].Locked? then
        var t := w.txs[tx];
        var refused := Check(t.read, now);
        Move(w, tx, if refused.Some? then Failed(t.code, refused.value) else Passed(t.code, t.read))
      else w
    case UpdateRow(tx) =>
      if tx in w.txs && w.txs[tx].Passed?
      then Move(w, tx, Updated(w.txs[tx].code, UsedUp(w.txs[tx].read)))
      else w
    case Commit(tx) =>
      if tx in w.txs && w.txs[tx].Updated? then
        var t := w.txs[tx];
        Move(Release(w.(rows := w.rows[t.code := t.pending]), t.code), tx, Committed(t.code))
      else w
    case Rollback(tx) =>
      if tx in w.txs && HoldsLock(w.txs[tx]) then Move(Release(w, w.txs[tx].code), tx, RolledBack)
      else w
  }

  function Run(rows: map<string, Row>, acts: seq<Action>): World {
    if acts == [] then World(rows, map[], map[])
    else Step(Run(rows, acts[..|acts| - 1]), acts[|acts| - 1])
  }

  ghost predicate Consumed(w: World, code: string) {
    exists tx :: tx in w.txs && w.txs[tx] == Committed(code)
  }

  ghost predicate TxOk(w: World, tx: nat)
    requires tx in w.txs
  {
    var t := w.txs[tx];
    && (HoldsLock(t) ==> t.code in w.locks && w.locks[t.code] == tx && t.code in w.rows)
    && (t.Locked? ==> t.read == w.rows[t.code])
    && (t.Passed? ==> t.read == w.rows[t.code] && t.read.usedCount < t.read.maxUses)
    && (t.Updated? ==> t.pending == UsedUp(w.rows[t.code]) && w.rows[t.code].usedCount < w.rows[t.code].maxUses)
    && (t.Committed? ==> t.code in w.rows && w.rows[t.code].usedCount >= w.rows[t.code].maxUses)
  }

  ghost predicate Inv(rows: map<string, Row>, w: World) {
    && (forall tx :: tx in w.txs ==> TxOk(w, tx))
    && (forall code :: code in w.locks ==>
          w.locks[code] in w.txs && HoldsLock(w.txs[w.locks[code]]) && w.txs[w.locks[code]].code == code)
    && w.rows.Keys == rows.Keys
    && (forall code :: code in rows ==> w.rows[code] == if Consumed(w, code) then UsedUp(rows[code]) else rows[code])
    && (forall t, u :: t in w.txs && u in w.txs && w.txs[t].Committed? && w.txs[u].Committed? && w.txs[t].code == w.txs[u].code ==> t == u)
  }

  // A step that neither commits nor touches the rows.
  lemma UncommittedKeeps(rows: map<string, Row>, w: World, tx: nat, t: Tx, w': World)
    requires Inv(rows, w) && !t.Committed? && (tx in w.txs ==> !w.txs[tx].Committed?)
    requires w'.rows == w.rows && w'.txs == w.txs[tx := t] && TxOk(w', tx)
    requires forall u :: u in w.txs && u != tx ==> TxOk(w', u)
    requires forall code :: code in w'.locks ==>
      w'.locks[code] in w'.txs && HoldsLock(w'.txs[w'.locks[code]]) && w'.txs[w'.locks[code]].code == code
    ensures Inv(rows, w')
  {
    forall code ensures Consumed(w', code) <==> Consumed(w, code) {
      if Consumed(w, code) {
        var u :| u in w.txs && w.txs[u] == Committed(code);
        assert w'.txs[u] == Committed(code);
      }
    }
  }

  lemma LockKeeps(rows: map<string, Row>, w: World, tx: nat, code: string)
    requires Inv(rows, w)
    ensures Inv(rows, Step(w, LockRow(tx, code)))
  {
    var w' := Step(w, LockRow(tx, code));
    if w' != w {
      forall u | u in w.txs ensures TxOk(w', u) { assert TxOk(w, u); }
      UncommittedKeeps(rows, w, tx, w'.txs[tx], w');
    }
  }

  // Check and update: the transaction moves on under its own lock.
  lemma MoveKeeps(rows: map<string, Row>, w: World, a: Action)
    requires Inv(rows, w) && (a.CheckRow? || a.UpdateRow?)
    ensures Inv(rows, Step(w, a))
  {
    var w' := Step(w, a);
    if w' != w {
      assert TxOk(w, a.tx);
      forall u | u in w.txs && u != a.tx ensures TxOk(w', u) { assert TxOk(w, u); }
      UncommittedKeeps(rows, w, a.tx, w'.txs[a.tx], w');
    }
  }

  lemma RollbackKeeps(rows: map<string, Row>, w: World, tx: nat)
    requires Inv(rows, w)
    ensures Inv(rows, Step(w, Rollback(tx)))
  {
    var w' := Step(w, Rollback(tx));
    if w' != w {
      assert TxOk(w, tx);
      forall u | u in w.txs && u != tx ensures TxOk(w', u) { assert TxOk(w, u); }
      UncommittedKeeps(rows, w, tx, w'.txs[tx], w');
    }
  }

  lemma CommitKeeps(rows: map<string, Row>, w: World, tx: nat)
    requires Inv(rows, w)
    ensures Inv(rows, Step(w, Commit(tx)))
  {
    var w' := Step(w, Commit(tx));
    if w' != w {
      assert TxOk(w, tx);
      var done := w.txs[tx].code;
      NotConsumedYet(rows, w, tx);
      assert w'.txs[tx] == Committed(done);
      forall u | u in w'.txs ensures TxOk(w', u) { if u != tx { assert TxOk(w, u); } }
      forall code ensures Consumed(w', code) <==> Consumed(w, code) || code == done {
        if u :| u in w.txs && w.txs[u] == Committed(code) { assert w'.txs[u] == Committed(code); }
      }
    }
  }

  // While a transaction is about to consume a code, no committed one has.
  lemma NotConsumedYet(rows: map<string, Row>, w: World, tx: nat)
    requires Inv(rows, w) && tx in w.txs && w.txs[tx].Updated?
    ensures forall u :: u in w.txs && w.txs[u].Committed? ==> w.txs[u].code != w.txs[tx].code
    ensures !Consumed(w, w.txs[tx].code)
  {
    assert TxOk(w, tx);
    forall u | u in w.txs && w.txs[u].Committed? ensures w.txs[u].code != w.txs[tx].code { assert TxOk(w, u); }
  }

  lemma {:induction false} RunKeepsInv(rows: map<string, Row>, acts: seq<Action>)
    ensures Inv(rows, Run(rows, acts))
  {
    if acts != [] {
      RunKeepsInv(rows, acts[..|acts| - 1]);
      var w := Run(rows, acts[..|acts| - 1]);
      match acts[|acts| - 1] {
        case LockRow(tx, code) => LockKeeps(rows, w, tx, code);
        case CheckRow(tx, now) => MoveKeeps(rows, w, CheckRow(tx, now));
        case UpdateRow(tx) => MoveKeeps(rows, w, UpdateRow(tx));
        case Commit(tx) => CommitKeeps(rows, w, tx);
        case Rollback(tx) => RollbackKeeps(rows, w, tx);
      }
    }
  }

  // However transactions interleave, and whatever its limit, a code is consumed by at most
  // one committed transaction.
  lemma ConsumedAtMostOnce(rows: map<string, Row>, acts: seq<Action>, t: nat, u: nat, code: string)
    requires var w := Run(rows, acts); t in w.txs && u in w.txs && w.txs[t] == Committed(code) && w.txs[u] == Committed(code)
    ensures t == u
  {
    RunKeepsInv(rows, acts);
  }

  // A code's row is used up exactly once a transaction consumed it; attempts that failed,
  // rolled back or are still open leave it as it was.
  lemma RowTellsWhetherConsumed(rows: map<string, Row>, acts: seq<Action>, code: string)
    requires code in rows
    ensures var w := Run(rows, acts);
            && code in w.rows
            && w.rows[code] == if Consumed(w, code) then rows[code].(usedCount := rows[code].maxUses, codePlain := None) else rows[code]
  {
    RunKeepsInv(rows, acts);
  }

  // From any reachable world a new transaction on an unlocked code succeeds exactly when the
  // row passes the checks and nobody has consumed it yet.
  lemma NextAttempt(rows: map<string, Row>, acts: seq<Action>, tx: nat, code: string, now: int)
    requires var w := Run(rows, acts); tx !in w.txs && code in rows && code !in w.locks
    ensures var w := Run(rows, acts);
            var w' := Step(Step(Step(Step(w, LockRow(tx, code)), CheckRow(tx, now)), UpdateRow(tx)), Commit(tx));
            w'.txs[tx] == Committed(code) <==> Usable(rows[code], now) && !Consumed(w, code)
  {
    RunKeepsInv(rows, acts);
    var w := Run(rows, acts);
    UsedUpIsRefused(rows[code], now);
    var w1 := Step(w, LockRow(tx, code));
    assert w1.txs[tx] == Locked(code, w.rows[code]);
  }
}
