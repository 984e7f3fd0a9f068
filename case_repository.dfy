/** `CaseRepositoryImpl` (app/infrastructure/database/repositories/case_repository_impl.py):
    a support case as a row of `support_cases`, written through the
    transaction's connection when it has one and through the pool otherwise. */
module CaseRepository {
  import opened Primitives
  import opened Errors
  import opened ValueObjects
  import opened Entities
  import opened Storage

  /** The nine values `save` binds, enums by their string value. */
  function CaseToRow(h: CaseHeader): (row: CaseRow)
    ensures CaseFromRow(row) == Success(h)
  {
    CaseRow(h.id, h.title, h.description, h.caseType.Value(), h.priority.Value(),
            h.status.Value(), h.createdBy, h.createdAt, h.updatedAt)
  }

  /** `_map_to_entity` on the scalar columns: the enum constructors run in
      argument order, type, priority, then status, and the first unknown
      value raises. */
  function CaseFromRow(row: CaseRow): (r: Result<CaseHeader, Error>)
    ensures ParseCaseType(row.caseType).None? ==> r == Failure(UnknownEnumValue(row.caseType))
    ensures ParseCaseType(row.caseType).Some? && ParsePriority(row.priority).None? ==>
              r == Failure(UnknownEnumValue(row.priority))
    ensures ParseCaseType(row.caseType).Some? && ParsePriority(row.priority).Some?
            && ParseStatus(row.status).None? ==>
              r == Failure(UnknownEnumValue(row.status))
    ensures r.Success? <==>
              ParseCaseType(row.caseType).Some? && ParsePriority(row.priority).Some?
              && ParseStatus(row.status).Some?
    ensures r.Success? ==>
              && r.value.id == row.id && r.value.title == row.title
              && r.value.description == row.description
              && r.value.caseType.Value() == row.caseType
              && r.value.priority.Value() == row.priority
              && r.value.status.Value() == row.status
              && r.value.createdBy == row.createdBy
              && r.value.createdAt == row.createdAt && r.value.updatedAt == row.updatedAt
  {
    match ParseCaseType(row.caseType)
    case None => Failure(UnknownEnumValue(row.caseType))
    case Some(t) =>
      match ParsePriority(row.priority)
      case None => Failure(UnknownEnumValue(row.priority))
      case Some(p) =>
        match ParseStatus(row.status)
        case None => Failure(UnknownEnumValue(row.status))
        case Some(s) =>
          Success(CaseHeader(row.id, row.title, row.description, t, p, s, row.createdBy,
                             row.createdAt, row.updatedAt))
  }

  /** A row the mapping accepts is exactly the row of the case it yields. */
  lemma RowRoundTrip(row: CaseRow)
    requires CaseFromRow(row).Success?
    ensures CaseToRow(CaseFromRow(row).value) == row
  {
  }

  /** `SELECT … WHERE id = $1`, `fetchrow`: the first row with that id. */
  function FindCase(rows: seq<CaseRow>, id: Uuid): (r: Option<CaseRow>)
    ensures r.None? <==> id !in CaseIds(rows)
    ensures r.Some? ==> r.value in rows && r.value.id == id
  {
    if |rows| == 0 then None
    else if rows[0].id == id then Some(rows[0])
    else
      assert CaseIds(rows) == {rows[0].id} + CaseIds(rows[1..]) by {
        forall x | x in CaseIds(rows) ensures x in {rows[0].id} + CaseIds(rows[1..]) {
          var k :| 0 <= k < |rows| && rows[k].id == x;
          if k > 0 { assert rows[1..][k - 1].id == x; }
        }
      }
      FindCase(rows[1..], id)
  }

  /** Appending a row with a new id adds exactly that id. */
  lemma CaseIdsAppend(rows: seq<CaseRow>, row: CaseRow)
    ensures CaseIds(rows + [row]) == CaseIds(rows) + {row.id}
  {
    forall x | x in CaseIds(rows) ensures x in CaseIds(rows + [row]) {
      var k :| 0 <= k < |rows| && rows[k].id == x;
      assert (rows + [row])[k].id == x;
    }
    assert (rows + [row])[|rows|].id == row.id;
  }

  /** A case saved beside rows without its id is found again by its id, and
      maps back to the same case. */
  lemma {:induction false} SavedCaseIsFound(rows: seq<CaseRow>, h: CaseHeader)
    requires h.id !in CaseIds(rows)
    ensures FindCase(rows + [CaseToRow(h)], h.id) == Some(CaseToRow(h))
    ensures CaseFromRow(FindCase(rows + [CaseToRow(h)], h.id).value) == Success(h)
  {
    if |rows| > 0 {
      assert rows[0].id != h.id;
      assert (rows + [CaseToRow(h)])[1..] == rows[1..] + [CaseToRow(h)];
      assert CaseIds(rows[1..]) <= CaseIds(rows) by {
        forall x | x in CaseIds(rows[1..]) ensures x in CaseIds(rows) {
          var k :| 0 <= k < |rows[1..]| && rows[1..][k].id == x;
          assert rows[k + 1].id == x;
        }
      }
      SavedCaseIsFound(rows[1..], h);
    }
  }

  class CaseRepositoryImpl {
    const db: Pool
    const connection: Option<ConnId>

    constructor (db: Pool, connection: Option<ConnId>)
      ensures this.db == db && this.connection == connection
    {
      this.db := db;
      this.connection := connection;
    }

    /** The rows a statement of this repository sees. */
    function Visible(): Tables
      reads db, db.store
    {
      db.store.Visible(connection)
    }

    /** `save`: one INSERT, never an update, so an id already present is a
        unique violation. The pool route needs a pool. */
    method Save(c: SupportCase) returns (r: Outcome<Error>)
      requires db.Valid()
      modifies db.store
      ensures db.Valid()
      ensures connection.None? && !db.initialized ==>
                r == Fail(PoolNotInitialized) && unchanged(db.store)
      ensures connection.Some? || db.initialized ==>
                && db.store.log == old(db.store.log) + [InsertCase(CaseToRow(c.Header()))]
                && (c.id in CaseIds(old(Visible()).cases) ==>
                      r == Fail(UniqueViolation) && db.store.committed == old(db.store.committed)
                      && db.store.pending == old(db.store.pending))
                && (c.id !in CaseIds(old(Visible()).cases) ==>
                      r == Pass && Visible() == Append(old(Visible()), Tables([CaseToRow(c.Header())], [])))
      ensures db.store.pending.Keys == old(db.store.pending.Keys)
      ensures forall k :: k in db.store.pending && Some(k) != connection ==>
                db.store.pending[k] == old(db.store.pending[k])
      ensures connection.Some? && connection.value in old(db.store.pending) ==>
                db.store.committed == old(db.store.committed)
      ensures connection.Some? && connection.value in old(db.store.pending) && r == Pass ==>
                db.store.pending[connection.value] ==
                  Append(old(db.store.pending[connection.value]), Tables([CaseToRow(c.Header())], []))
    {
      if connection.None? && !db.initialized {
        return Fail(PoolNotInitialized);
      }
      r := db.store.InsertCaseRow(connection, CaseToRow(c.Header()));
    }

    /** `get_by_id`: `None` when no row has the id; otherwise the case the
        row maps to, as a new object without queries. */
    method GetById(id: Uuid) returns (r: Result<Option<SupportCase>, Error>)
      requires db.Valid()
      ensures connection.None? && !db.initialized ==> r == Failure(PoolNotInitialized)
      ensures connection.Some? || db.initialized ==>
                match FindCase(Visible().cases, id)
                case None => r == Success(None)
                case Some(row) =>
                  match CaseFromRow(row)
                  case Failure(e) => r == Failure(e)
                  case Success(h) => r.Success? && r.value.Some? && fresh(r.value.value)
                                     && r.value.value.Header() == h && r.value.value.queries == []
    {
      if connection.None? && !db.initialized {
        return Failure(PoolNotInitialized);
      }
      var row := FindCase(Visible().cases, id);
      if row.None? {
        return Success(None);
      }
      var m := MapToEntity(row.value);
      match m
      case Failure(e) => r := Failure(e);
      case Success(c) => r := Success(Some(c));
    }

    /** `_map_to_entity`: a new case object holding the row's values. */
    method MapToEntity(row: CaseRow) returns (r: Result<SupportCase, Error>)
      ensures match CaseFromRow(row)
              case Failure(e) => r == Failure(e)
              case Success(h) => r.Success? && fresh(r.value) && r.value.Header() == h
                                 && r.value.queries == []
    {
      match CaseFromRow(row)
      case Failure(e) => r := Failure(e);
      case Success(h) =>
        var c := new SupportCase(h, []);
        r := Success(c);
    }
  }
}
