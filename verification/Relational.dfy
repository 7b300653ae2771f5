/**
 Tables under unique keys and referential constraints: accepted inserts, updates and deletes with
 CASCADE, SET NULL, RESTRICT and NO ACTION (section 11.8 of ISO/IEC 9075-2, MATCH SIMPLE).

 A schema says, for one row, which unique keys the row holds and which keys it references under
 each ON DELETE action. A key with a NULL part is never held and never referenced.
 */
module Relational {
  import opened Tables

  datatype Schema = Schema(
    fits: (Pk, Row) -> bool,           // the row is of this table and meets every CHECK
    holds: (Pk, Row) -> set<Key>,      // unique keys
    target: Key -> bool,               // keys some foreign key names
    cascades: Row -> set<Key>,
    nulls: Row -> set<Key>,
    restricts: Row -> set<Key>,        // RESTRICT and NO ACTION
    nullify: (Row, set<Key>) -> Row)   // SET NULL of the references to lost keys

  function References(s: Schema, row: Row): set<Key> {
    s.cascades(row) + s.nulls(row) + s.restricts(row)
  }

  /** What the referential actions need of a schema. */
  ghost predicate Lawful(s: Schema) {
    && (forall row, k :: k in References(s, row) ==> s.target(k))
    && (forall row :: s.restricts(row) != {} ==> s.cascades(row) == {})
    && (forall row :: s.nullify(row, {}) == row)
    && (forall row, a, b :: s.nullify(s.nullify(row, a), b) == s.nullify(row, a + b))
    && (forall row, lost :: SameButNulled(s, row, s.nullify(row, lost), lost))
    && (forall pk, row, lost :: FitsAsBefore(s, pk, row, s.nullify(row, lost)))
  }

  ghost predicate SameButNulled(s: Schema, row: Row, after: Row, lost: set<Key>) {
    && s.cascades(after) == s.cascades(row)
    && s.restricts(after) == s.restricts(row)
    && s.nulls(after) == s.nulls(row) - lost
  }

  ghost predicate FitsAsBefore(s: Schema, pk: Pk, row: Row, after: Row) {
    && (s.fits(pk, row) ==> s.fits(pk, after))
    && s.holds(pk, after) <= s.holds(pk, row)
    && Offers(s, pk, after) == Offers(s, pk, row)
  }

  /** The held keys that other rows may reference. */
  function Offers(s: Schema, pk: Pk, row: Row): set<Key> {
    set k | k in s.holds(pk, row) && s.target(k)
  }

  // ---- consistent databases -------------------------------------------------------------

  predicate Provided(s: Schema, db: Db, k: Key) {
    exists q :: q in db && k in s.holds(q, db[q])
  }

  predicate NoClash(s: Schema, p: Pk, prow: Row, q: Pk, qrow: Row) {
    s.holds(p, prow) !! s.holds(q, qrow)
  }

  ghost predicate Consistent(s: Schema, db: Db) {
    && (forall p :: p in db ==> s.fits(p, db[p]))
    && (forall p, k :: p in db && k in References(s, db[p]) ==> Provided(s, db, k))
    && (forall p, q :: p in db && q in db && p != q ==> NoClash(s, p, db[p], q, db[q]))
  }

  // ---- inserts and updates --------------------------------------------------------------

  /** The checks an insert makes: of the new row only. */
  predicate Insertable(s: Schema, db: Db, pk: Pk, row: Row) {
    pk !in db && Storable(s, db, pk, row)
  }

  predicate Storable(s: Schema, db: Db, pk: Pk, row: Row) {
    && s.fits(pk, row)
    && (forall k :: k in References(s, row) ==> Provided(s, db[pk := row], k))
    && (forall q :: q in db && q != pk ==> NoClash(s, pk, row, q, db[q]))
  }

  predicate StillReferenced(s: Schema, db: Db, pk: Pk, k: Key) {
    exists q :: q in db && q != pk && k in References(s, db[q])
  }

  /** An update also may not take away a key another row still references (ON UPDATE NO ACTION). */
  predicate Updatable(s: Schema, db: Db, pk: Pk, row: Row) {
    && pk in db && Storable(s, db, pk, row)
    && (forall k :: k in s.holds(pk, db[pk]) && k !in s.holds(pk, row) ==> !StillReferenced(s, db, pk, k))
  }

  lemma StillProvided(s: Schema, db: Db, pk: Pk, row: Row, k: Key)
    requires Provided(s, db, k)
    requires pk in db && k in s.holds(pk, db[pk]) ==> k in s.holds(pk, row)
    ensures Provided(s, db[pk := row], k)
  {
    var q :| q in db && k in s.holds(q, db[q]);
    assert k in s.holds(q, db[pk := row][q]);
  }

  /** The local checks of an insert accept exactly the rows that leave the database consistent. */
  lemma InsertExactly(s: Schema, db: Db, pk: Pk, row: Row)
    requires Consistent(s, db) && pk !in db
    ensures Insertable(s, db, pk, row) <==> Consistent(s, db[pk := row])
  {
    var after := db[pk := row];
    if Insertable(s, db, pk, row) {
      forall p, k | p in after && k in References(s, after[p]) ensures Provided(s, after, k) {
        if p != pk { StillProvided(s, db, pk, row, k); }
      }
    }
    if Consistent(s, after) {
      forall q | q in db ensures NoClash(s, pk, row, q, db[q]) {
        assert NoClash(s, pk, after[pk], q, after[q]);
      }
      assert after[pk] == row;
    }
  }

  /** Likewise for an update: uniqueness makes the test on the dropped keys sufficient and necessary. */
  lemma UpdateExactly(s: Schema, db: Db, pk: Pk, row: Row)
    requires Consistent(s, db) && pk in db
    ensures Updatable(s, db, pk, row) <==> Consistent(s, db[pk := row])
  {
    var after := db[pk := row];
    if Updatable(s, db, pk, row) {
      forall p, k | p in after && k in References(s, after[p]) ensures Provided(s, after, k) {
        if p != pk {
          assert k in References(s, db[p]);
          StillProvided(s, db, pk, row, k);
        }
      }
    }
    if Consistent(s, after) {
      assert after[pk] == row;
      forall q | q in db && q != pk ensures NoClash(s, pk, row, q, db[q]) {
        assert NoClash(s, pk, after[pk], q, after[q]);
      }
      forall k | k in s.holds(pk, db[pk]) && k !in s.holds(pk, row) ensures !StillReferenced(s, db, pk, k) {
        DroppedKeyIsUnreferenced(s, db, pk, row, k);
      }
    }
  }

  lemma DroppedKeyIsUnreferenced(s: Schema, db: Db, pk: Pk, row: Row, k: Key)
    requires Consistent(s, db) && pk in db && Consistent(s, db[pk := row])
    requires k in s.holds(pk, db[pk]) && k !in s.holds(pk, row)
    ensures !StillReferenced(s, db, pk, k)
  {
    var after := db[pk := row];
    forall p | p in after ensures k !in s.holds(p, after[p]) {
      if p != pk { assert NoClash(s, pk, db[pk], p, db[p]); }
    }
    assert !Provided(s, after, k);
    forall q | q in db && q != pk ensures k !in References(s, db[q]) {
      assert after[q] == db[q];
    }
  }

  // ---- deletes --------------------------------------------------------------------------

  /** Deleting p deletes q too. */
  predicate Drags(s: Schema, db: Db, p: Pk, q: Pk)
    requires p in db && q in db
  {
    exists k :: k in s.cascades(db[q]) && k in Offers(s, p, db[p])
  }

  predicate Blocks(s: Schema, db: Db, p: Pk, q: Pk)
    requires p in db && q in db
  {
    exists k :: k in s.restricts(db[q]) && k in Offers(s, p, db[p])
  }

  function Children(s: Schema, db: Db, gone: set<Pk>): set<Pk>
    requires gone <= db.Keys
  {
    set q | q in db.Keys && exists p :: p in gone && Drags(s, db, p, q)
  }

  ghost predicate IsClosed(s: Schema, db: Db, gone: set<Pk>) {
    forall p, q :: p in gone && p in db && q in db && Drags(s, db, p, q) ==> q in gone
  }

  /** Every row the cascade reaches from a set of rows. */
  ghost function Doomed(s: Schema, db: Db, gone: set<Pk>): (all: set<Pk>)
    requires gone <= db.Keys
    ensures gone <= all <= db.Keys
    ensures IsClosed(s, db, all)
    decreases db.Keys - gone
  {
    var more := gone + Children(s, db, gone);
    if more == gone then gone else Doomed(s, db, more)
  }

  /** The cascade reaches nothing it does not have to: it is the least closed set. */
  lemma {:induction false} DoomedIsLeast(s: Schema, db: Db, gone: set<Pk>, closed: set<Pk>)
    requires gone <= db.Keys && gone <= closed && IsClosed(s, db, closed)
    ensures Doomed(s, db, gone) <= closed
    decreases db.Keys - gone
  {
    var more := gone + Children(s, db, gone);
    if more != gone {
      DoomedIsLeast(s, db, more, closed);
    }
  }

  function Lost(s: Schema, db: Db, gone: set<Pk>): set<Key> {
    set p, k | p in gone && p in db && k in Offers(s, p, db[p]) :: k
  }

  /** What is left after exactly these rows went, with SET NULL applied. */
  function Without(s: Schema, db: Db, gone: set<Pk>): Db {
    map q | q in db.Keys - gone :: s.nullify(db[q], Lost(s, db, gone))
  }

  ghost function Deleted(s: Schema, db: Db, pk: Pk): Db
    requires pk in db
  {
    Without(s, db, Doomed(s, db, {pk}))
  }

  /** No surviving row restricts the deletion of a doomed one. */
  ghost predicate Deletable(s: Schema, db: Db, pk: Pk) {
    && pk in db
    && forall p, q :: p in Doomed(s, db, {pk}) && q in db.Keys - Doomed(s, db, {pk}) ==> !Blocks(s, db, p, q)
  }

  lemma SurvivorReferencesSurvivor(s: Schema, db: Db, gone: set<Pk>, q: Pk, k: Key)
    requires Lawful(s) && Consistent(s, db) && gone <= db.Keys && IsClosed(s, db, gone)
    requires forall p, r :: p in gone && r in db.Keys - gone ==> !Blocks(s, db, p, r)
    requires q in db.Keys - gone && k in References(s, s.nullify(db[q], Lost(s, db, gone)))
    ensures Provided(s, Without(s, db, gone), k)
  {
    var lost := Lost(s, db, gone);
    assert SameButNulled(s, db[q], s.nullify(db[q], lost), lost);
    assert k in References(s, db[q]);
    assert Provided(s, db, k);
    var p :| p in db && k in s.holds(p, db[p]);
    assert s.target(k);
    assert k in Offers(s, p, db[p]);
    assert p in gone ==> k in lost;
    assert k in s.cascades(db[q]) ==> Drags(s, db, p, q);
    assert k in s.restricts(db[q]) ==> Blocks(s, db, p, q);
    assert p !in gone;
    assert FitsAsBefore(s, p, db[p], s.nullify(db[p], lost));
    assert k in Offers(s, p, s.nullify(db[p], lost));
    assert k in s.holds(p, Without(s, db, gone)[p]);
  }

  lemma RemovingClosedSetKeepsConsistency(s: Schema, db: Db, gone: set<Pk>)
    requires Lawful(s) && Consistent(s, db) && gone <= db.Keys && IsClosed(s, db, gone)
    requires forall p, r :: p in gone && r in db.Keys - gone ==> !Blocks(s, db, p, r)
    ensures Consistent(s, Without(s, db, gone))
  {
    var after, lost := Without(s, db, gone), Lost(s, db, gone);
    forall q, k | q in after && k in References(s, after[q]) ensures Provided(s, after, k) {
      SurvivorReferencesSurvivor(s, db, gone, q, k);
    }
    forall q | q in after ensures s.fits(q, after[q]) {
      assert FitsAsBefore(s, q, db[q], s.nullify(db[q], lost));
    }
    forall p, q | p in after && q in after && p != q ensures NoClash(s, p, after[p], q, after[q]) {
      assert NoClash(s, p, db[p], q, db[q]);
      assert FitsAsBefore(s, p, db[p], s.nullify(db[p], lost));
      assert FitsAsBefore(s, q, db[q], s.nullify(db[q], lost));
    }
  }

  /** A delete is refused exactly when what it would leave behind is inconsistent. */
  lemma DeleteExactly(s: Schema, db: Db, pk: Pk)
    requires Lawful(s) && Consistent(s, db) && pk in db
    ensures Deletable(s, db, pk) <==> Consistent(s, Deleted(s, db, pk))
  {
    var gone := Doomed(s, db, {pk});
    if Deletable(s, db, pk) {
      RemovingClosedSetKeepsConsistency(s, db, gone);
    } else {
      var p, q :| p in gone && q in db.Keys - gone && Blocks(s, db, p, q);
      BlockedDeleteDangles(s, db, gone, p, q);
    }
  }

  lemma BlockedDeleteDangles(s: Schema, db: Db, gone: set<Pk>, p: Pk, q: Pk)
    requires Lawful(s) && Consistent(s, db)
    requires p in gone && p in db && q in db.Keys - gone && Blocks(s, db, p, q)
    ensures !Consistent(s, Without(s, db, gone))
  {
    var after, lost := Without(s, db, gone), Lost(s, db, gone);
    var k :| k in s.restricts(db[q]) && k in Offers(s, p, db[p]);
    assert SameButNulled(s, db[q], s.nullify(db[q], lost), lost);
    assert k in References(s, after[q]);
    forall r | r in after ensures k !in s.holds(r, after[r]) {
      assert NoClash(s, p, db[p], r, db[r]);
      assert FitsAsBefore(s, r, db[r], s.nullify(db[r], lost));
    }
    assert !Provided(s, after, k);
  }

  // ---- the same statements, row by row --------------------------------------------------

  /** Only the deleted row itself can be doomed and restrict: a restricting row is never dragged. */
  lemma RestrictingRowSurvives(s: Schema, db: Db, pk: Pk, q: Pk)
    requires Lawful(s) && pk in db && q in db && q != pk && s.restricts(db[q]) != {}
    ensures q !in Doomed(s, db, {pk})
  {
    var dragged := set r | r in db.Keys && (r == pk || s.cascades(db[r]) != {});
    assert IsClosed(s, db, dragged);
    DoomedIsLeast(s, db, {pk}, dragged);
  }

  lemma WithoutOneMore(s: Schema, db: Db, gone: set<Pk>, p: Pk)
    requires Lawful(s) && p in db && p !in gone
    ensures var rows := Without(s, db, gone);
      Without(s, db, gone + {p}) == map q | q in rows.Keys - {p} :: s.nullify(rows[q], Offers(s, p, rows[p]))
  {
    var rows, lost := Without(s, db, gone), Lost(s, db, gone);
    assert FitsAsBefore(s, p, db[p], s.nullify(db[p], lost));
    assert Lost(s, db, gone + {p}) == lost + Offers(s, p, db[p]);
    assert rows.Keys - {p} == db.Keys - (gone + {p});
  }

  /** Nulling a reference changes neither what a row drags or blocks nor what drags or blocks it. */
  lemma WithoutDragsAlike(s: Schema, db: Db, gone: set<Pk>, p: Pk, q: Pk)
    requires Lawful(s) && p in db.Keys - gone && q in db.Keys - gone
    ensures Drags(s, Without(s, db, gone), p, q) == Drags(s, db, p, q)
    ensures Blocks(s, Without(s, db, gone), p, q) == Blocks(s, db, p, q)
  {
    var lost := Lost(s, db, gone);
    assert FitsAsBefore(s, p, db[p], s.nullify(db[p], lost));
    assert SameButNulled(s, db[q], s.nullify(db[q], lost), lost);
    assert Offers(s, p, Without(s, db, gone)[p]) == Offers(s, p, db[p]);
  }

  /** A cascade in progress: gone rows are deleted, pending rows are still to be. */
  ghost predicate Sweeping(s: Schema, db: Db, pk: Pk, gone: set<Pk>, pending: set<Pk>) {
    && pk in db && gone !! pending && gone + pending <= Doomed(s, db, {pk})
    && (pk in gone || (gone == {} && pending == {pk}))
    && (forall p, q :: p in gone && q in db && Drags(s, db, p, q) ==> q in gone + pending)
    && (forall p, q :: p in gone && q in db.Keys - gone ==> !Blocks(s, db, p, q))
  }

  function Dragged(s: Schema, rows: Db, p: Pk): set<Pk>
    requires p in rows
  {
    set q | q in rows.Keys && q != p && Drags(s, rows, p, q)
  }

  predicate IsBlocked(s: Schema, rows: Db, p: Pk)
    requires p in rows
  {
    exists q :: q in rows && q != p && Blocks(s, rows, p, q)
  }

  lemma SweepStarts(s: Schema, db: Db, pk: Pk)
    requires Lawful(s) && pk in db
    ensures Sweeping(s, db, pk, {}, {pk}) && Without(s, db, {}) == db
  {
    assert Lost(s, db, {}) == {};
  }

  lemma SweepGoesOn(s: Schema, db: Db, pk: Pk, gone: set<Pk>, pending: set<Pk>, p: Pk)
    requires Lawful(s) && Sweeping(s, db, pk, gone, pending) && p in pending
    requires p in Without(s, db, gone) && !IsBlocked(s, Without(s, db, gone), p)
    ensures Sweeping(s, db, pk, gone + {p}, pending - {p} + Dragged(s, Without(s, db, gone), p))
  {
    var rows := Without(s, db, gone);
    forall q | q in db.Keys - gone
      ensures Drags(s, rows, p, q) == Drags(s, db, p, q) && Blocks(s, rows, p, q) == Blocks(s, db, p, q)
    {
      WithoutDragsAlike(s, db, gone, p, q);
    }
  }

  lemma SweepBlocked(s: Schema, db: Db, pk: Pk, gone: set<Pk>, pending: set<Pk>, p: Pk)
    requires Lawful(s) && Sweeping(s, db, pk, gone, pending) && p in pending
    requires p in Without(s, db, gone) && IsBlocked(s, Without(s, db, gone), p)
    ensures !Deletable(s, db, pk)
  {
    var rows := Without(s, db, gone);
    var q :| q in rows && q != p && Blocks(s, rows, p, q);
    WithoutDragsAlike(s, db, gone, p, q);
    RestrictingRowSurvives(s, db, pk, q);
  }

  lemma SweepEnds(s: Schema, db: Db, pk: Pk, gone: set<Pk>)
    requires Lawful(s) && Sweeping(s, db, pk, gone, {})
    ensures gone == Doomed(s, db, {pk}) && Deletable(s, db, pk)
  {
    DoomedIsLeast(s, db, {pk}, gone);
  }

  // ---- statements -----------------------------------------------------------------------

  datatype Statement = InsertRow(pk: Pk, row: Row) | UpdateRow(pk: Pk, row: Row) | DeleteRow(pk: Pk)

  /** A refused statement changes nothing. */
  ghost function Execute(s: Schema, db: Db, stmt: Statement): Db
  {
    match stmt
    case InsertRow(pk, row) => if Insertable(s, db, pk, row) then db[pk := row] else db
    case UpdateRow(pk, row) => if Updatable(s, db, pk, row) then db[pk := row] else db
    case DeleteRow(pk) => if Deletable(s, db, pk) then Deleted(s, db, pk) else db
  }

  class Database {
    const schema: Schema
    var rows: Db

    constructor (schema: Schema)
      ensures this.schema == schema && rows == map[]
    {
      this.schema := schema;
      rows := map[];
    }

    method Insert(pk: Pk, row: Row) returns (ok: bool)
      requires Consistent(schema, rows)
      modifies this
      ensures ok <==> pk !in old(rows) && Consistent(schema, old(rows)[pk := row])
      ensures rows == Execute(schema, old(rows), InsertRow(pk, row))
      ensures rows == if ok then old(rows)[pk := row] else old(rows)
    {
      ok := Insertable(schema, rows, pk, row);
      if pk !in rows { InsertExactly(schema, rows, pk, row); }
      if ok { rows := rows[pk := row]; }
    }

    method Update(pk: Pk, row: Row) returns (ok: bool)
      requires Consistent(schema, rows)
      modifies this
      ensures ok <==> pk in old(rows) && Consistent(schema, old(rows)[pk := row])
      ensures rows == Execute(schema, old(rows), UpdateRow(pk, row))
      ensures rows == if ok then old(rows)[pk := row] else old(rows)
    {
      ok := Updatable(schema, rows, pk, row);
      if pk in rows { UpdateExactly(schema, rows, pk, row); }
      if ok { rows := rows[pk := row]; }
    }

    /**
     Deletes one pending row at a time, in no particular order: its referencing rows are nulled or
     become pending, and a restricting row rolls everything back. The outcome does not depend on
     the order, diamonds included.
     */
    method Delete(pk: Pk) returns (ok: bool)
      requires Lawful(schema) && Consistent(schema, rows)
      modifies this
      ensures ok <==> pk in old(rows) && Deletable(schema, old(rows), pk)
      ensures rows == Execute(schema, old(rows), DeleteRow(pk))
      ensures rows == if ok then Deleted(schema, old(rows), pk) else old(rows)
    {
      if pk !in rows { return false; }
      var before := rows;
      var pending, gone := {pk}, {};
      SweepStarts(schema, before, pk);
      while pending != {}
        invariant Sweeping(schema, before, pk, gone, pending)
        invariant rows == Without(schema, before, gone)
        decreases before.Keys - gone
      {
        var p :| p in pending;
        if IsBlocked(schema, rows, p) {
          SweepBlocked(schema, before, pk, gone, pending, p);
          rows := before;
          return false;
        }
        SweepGoesOn(schema, before, pk, gone, pending, p);
        WithoutOneMore(schema, before, gone, p);
        pending := pending - {p} + Dragged(schema, rows, p);
        var lost := Offers(schema, p, rows[p]);
        rows := map q | q in rows.Keys - {p} :: schema.nullify(rows[q], lost);
        gone := gone + {p};
      }
      SweepEnds(schema, before, pk, gone);
      return true;
    }
  }

  // ---- whole histories ------------------------------------------------------------------

  ghost function ExecuteAll(s: Schema, db: Db, stmts: seq<Statement>): Db
    decreases |stmts|
  {
    if stmts == [] then db else ExecuteAll(s, Execute(s, db, stmts[0]), stmts[1..])
  }

  /** A history is its first statements followed by its last. */
  lemma {:induction false} HistoryGoesOn(s: Schema, db: Db, stmts: seq<Statement>, stmt: Statement)
    ensures ExecuteAll(s, db, stmts + [stmt]) == Execute(s, ExecuteAll(s, db, stmts), stmt)
    ensures ExecuteAll(s, db, []) == db
    decreases |stmts|
  {
    if stmts == [] {
      assert ExecuteAll(s, db, [stmt]) == ExecuteAll(s, Execute(s, db, stmt), []);
    } else {
      assert (stmts + [stmt])[1..] == stmts[1..] + [stmt];
      HistoryGoesOn(s, Execute(s, db, stmts[0]), stmts[1..], stmt);
    }
  }

  lemma {:induction false} HistoriesStayConsistent(s: Schema, db: Db, stmts: seq<Statement>)
    requires Lawful(s) && Consistent(s, db)
    ensures Consistent(s, ExecuteAll(s, db, stmts))
    decreases |stmts|
  {
    if stmts != [] {
      match stmts[0] {
        case InsertRow(pk, row) => if pk !in db { InsertExactly(s, db, pk, row); }
        case UpdateRow(pk, row) => if pk in db { UpdateExactly(s, db, pk, row); }
        case DeleteRow(pk) => if pk in db { DeleteExactly(s, db, pk); }
      }
      HistoriesStayConsistent(s, Execute(s, db, stmts[0]), stmts[1..]);
    }
  }
}
