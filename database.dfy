/**
 * The local SQLite metadata store: the `engines` table (auto-increment `id`,
 * UNIQUE `engine_id`) and the `documents` table (auto-increment `id`, no
 * uniqueness). Every call runs in one connection that commits on success and
 * rolls back on an exception, so a call either applies completely or leaves
 * the tables as they were; the `fault` parameter of a writing call says
 * whether the database raised an error the call does not handle.
 */
module Database {
  import opened Errors

  datatype EngineRow = EngineRow(id: nat, engineId: string, engineName: string, dataStoreId: string, createdAt: int)

  datatype DocumentRow = DocumentRow(
    id: nat, engineId: string, dataStoreId: string, filename: string,
    gcsUri: string, fileSize: int, contentType: string, uploadedAt: int)

  /** The schema's constraints on `engines`, with `lastId` the table's autoincrement counter. */
  ghost predicate EnginesValid(rows: seq<EngineRow>, lastId: nat)
  {
    && (forall i, j :: 0 <= i < j < |rows| ==> rows[i].engineId != rows[j].engineId)
    && (forall i, j :: 0 <= i < j < |rows| ==> rows[i].id < rows[j].id)
    && (forall i :: 0 <= i < |rows| ==> 1 <= rows[i].id <= lastId)
  }

  ghost predicate DocumentsValid(rows: seq<DocumentRow>, lastId: nat)
  {
    && (forall i, j :: 0 <= i < j < |rows| ==> rows[i].id < rows[j].id)
    && (forall i :: 0 <= i < |rows| ==> 1 <= rows[i].id <= lastId)
  }

  /** `SELECT ... FROM engines WHERE engine_id = ?` */
  function FindEngine(rows: seq<EngineRow>, engineId: string): (r: Option<EngineRow>)
    ensures r.Some? ==> r.value in rows && r.value.engineId == engineId
    ensures r.None? ==> forall i :: 0 <= i < |rows| ==> rows[i].engineId != engineId
  {
    if rows == [] then None
    else if rows[0].engineId == engineId then Some(rows[0])
    else FindEngine(rows[1..], engineId)
  }

  /** Looking a key up after appending a row: an earlier row wins, then the new one. */
  lemma {:induction false} FindEngineAppend(rows: seq<EngineRow>, row: EngineRow, engineId: string)
    ensures FindEngine(rows + [row], engineId) ==
              if FindEngine(rows, engineId).Some? then FindEngine(rows, engineId)
              else if row.engineId == engineId then Some(row) else None
  {
    if rows != [] {
      assert (rows + [row])[1..] == rows[1..] + [row];
      FindEngineAppend(rows[1..], row, engineId);
    }
  }

  /** The `engines` table after one `save_engine_to_db`, its counter, and the id returned. */
  datatype EngineSave = EngineSave(rows: seq<EngineRow>, lastId: nat, rowId: nat)

  /**
   * `INSERT INTO engines` with its `IntegrityError` handler: a new `engine_id`
   * gets the next id; a known one returns its row's id and changes nothing.
   */
  function InsertEngine(rows: seq<EngineRow>, lastId: nat, engineId: string, engineName: string,
                        dataStoreId: string, now: int): (r: EngineSave)
    requires EnginesValid(rows, lastId)
    ensures EnginesValid(r.rows, r.lastId)
    ensures FindEngine(rows, engineId).Some? ==>
              r == EngineSave(rows, lastId, FindEngine(rows, engineId).value.id)
    ensures FindEngine(rows, engineId).None? ==>
              && r.rows == rows + [EngineRow(r.rowId, engineId, engineName, dataStoreId, now)]
              && r.rowId == lastId + 1
              && r.lastId == r.rowId
              && forall i :: 0 <= i < |rows| ==> rows[i].id < r.rowId
    // afterwards the engine is on record, under the id returned
    ensures FindEngine(r.rows, engineId).Some? && FindEngine(r.rows, engineId).value.id == r.rowId
  {
    match FindEngine(rows, engineId)
    case Some(row) => EngineSave(rows, lastId, row.id)
    case None =>
      var id := lastId + 1;
      FindEngineAppend(rows, EngineRow(id, engineId, engineName, dataStoreId, now), engineId);
      EngineSave(rows + [EngineRow(id, engineId, engineName, dataStoreId, now)], id, id)
  }

  /**
   * Saving an `engine_id` a second time, whatever name or data store it comes
   * with, returns the first save's id and keeps the first save's row.
   */
  lemma SaveEngineIdempotent(rows: seq<EngineRow>, lastId: nat, engineId: string, name1: string,
                             ds1: string, now1: int, name2: string, ds2: string, now2: int)
    requires EnginesValid(rows, lastId)
    ensures var first := InsertEngine(rows, lastId, engineId, name1, ds1, now1);
            var second := InsertEngine(first.rows, first.lastId, engineId, name2, ds2, now2);
            second == EngineSave(first.rows, first.lastId, first.rowId)
  {
    var first := InsertEngine(rows, lastId, engineId, name1, ds1, now1);
    if FindEngine(rows, engineId).None? {
      var row := first.rows[|rows|];
      var found := FindEngine(first.rows, engineId);
      assert found.Some?;
      assert found.value == row by {
        var k :| 0 <= k < |first.rows| && first.rows[k] == found.value;
        assert k == |rows|;
      }
    }
  }

  /** Two engines may share one data store: `data_store_id` is not a key. */
  lemma SharedDataStoreAllowed(rows: seq<EngineRow>, lastId: nat, e1: string, e2: string, ds: string, now: int)
    requires EnginesValid(rows, lastId)
    requires FindEngine(rows, e1).None? && FindEngine(rows, e2).None? && e1 != e2
    ensures var first := InsertEngine(rows, lastId, e1, e1, ds, now);
            var second := InsertEngine(first.rows, first.lastId, e2, e2, ds, now);
            && |second.rows| == |rows| + 2
            && second.rows[|rows|].dataStoreId == ds == second.rows[|rows| + 1].dataStoreId
  {
    var first := InsertEngine(rows, lastId, e1, e1, ds, now);
    assert FindEngine(first.rows, e2).None? by {
      forall i | 0 <= i < |first.rows| ensures first.rows[i].engineId != e2 {
        if i < |rows| { assert first.rows[i] == rows[i]; }
      }
    }
  }

  /** `INSERT INTO documents`: always a new row with the next id, even for a known `gcs_uri`. */
  function AppendDocument(rows: seq<DocumentRow>, lastId: nat, engineId: string, dataStoreId: string,
                          filename: string, gcsUri: string, fileSize: int, contentType: string,
                          now: int): (r: (seq<DocumentRow>, nat))
    requires DocumentsValid(rows, lastId)
    ensures DocumentsValid(r.0, r.1)
    ensures r.1 == lastId + 1
    ensures r.0 == rows + [DocumentRow(r.1, engineId, dataStoreId, filename, gcsUri, fileSize, contentType, now)]
  {
    var id := lastId + 1;
    (rows + [DocumentRow(id, engineId, dataStoreId, filename, gcsUri, fileSize, contentType, now)], id)
  }

  // ---- ORDER BY created_at DESC ----

  ghost predicate NewestFirst(rows: seq<EngineRow>)
  {
    forall i, j :: 0 <= i < j < |rows| ==> rows[i].createdAt >= rows[j].createdAt
  }

  function InsertNewestFirst(row: EngineRow, rows: seq<EngineRow>): (r: seq<EngineRow>)
    requires NewestFirst(rows)
    ensures NewestFirst(r)
    ensures multiset(r) == multiset(rows) + multiset{row}
    ensures |r| == |rows| + 1
    ensures r != [] && (r[0] == row || (rows != [] && r[0] == rows[0]))
  {
    if rows == [] || row.createdAt >= rows[0].createdAt then [row] + rows
    else
      var rest := InsertNewestFirst(row, rows[1..]);
      assert rows == [rows[0]] + rows[1..];
      [rows[0]] + rest
  }

  /** The rows ordered by non-increasing `created_at` (SQLite leaves the order of ties open). */
  function SortNewestFirst(rows: seq<EngineRow>): (r: seq<EngineRow>)
    ensures NewestFirst(r)
    ensures multiset(r) == multiset(rows)
  {
    if rows == [] then []
    else
      assert rows == [rows[0]] + rows[1..];
      InsertNewestFirst(rows[0], SortNewestFirst(rows[1..]))
  }

  class MetadataStore {
    var engines: seq<EngineRow>
    var documents: seq<DocumentRow>
    var engineSeq: nat      // the `sqlite_sequence` entry of `engines`
    var documentSeq: nat    // the `sqlite_sequence` entry of `documents`

    ghost predicate Valid()
      reads this
    {
      EnginesValid(engines, engineSeq) && DocumentsValid(documents, documentSeq)
    }

    /** `init_database` on a new database file: both tables exist and are empty. */
    constructor ()
      ensures Valid()
      ensures engines == [] && documents == [] && engineSeq == 0 && documentSeq == 0
    {
      engines, documents, engineSeq, documentSeq := [], [], 0, 0;
    }

    /** `save_engine_to_db` */
    method SaveEngine(engineId: string, engineName: string, dataStoreId: string, now: int, fault: bool)
      returns (r: Result<nat>)
      requires Valid()
      modifies this
      ensures Valid()
      ensures documents == old(documents) && documentSeq == old(documentSeq)
      ensures fault ==> r == Raised(DbError) && engines == old(engines) && engineSeq == old(engineSeq)
      ensures !fault ==>
                var s := InsertEngine(old(engines), old(engineSeq), engineId, engineName, dataStoreId, now);
                r == Returned(s.rowId) && engines == s.rows && engineSeq == s.lastId
    {
      if fault {
        r := Raised(DbError);
      } else {
        var s := InsertEngine(engines, engineSeq, engineId, engineName, dataStoreId, now);
        engines, engineSeq := s.rows, s.lastId;
        r := Returned(s.rowId);
      }
    }

    /** `get_engine_from_db`: the row with that `engine_id`, or `None`. */
    function GetEngine(engineId: string): (r: Option<EngineRow>)
      reads this
      requires Valid()
      ensures r.Some? <==> exists i :: 0 <= i < |engines| && engines[i].engineId == engineId
      ensures r.Some? ==> r.value.engineId == engineId &&
                          forall i :: 0 <= i < |engines| && engines[i].engineId == engineId ==> engines[i] == r.value
    {
      FindEngine(engines, engineId)
    }

    /** `get_all_engines_from_db`: every engine, newest first. */
    function GetAllEngines(): (r: seq<EngineRow>)
      reads this
      ensures NewestFirst(r)
      ensures multiset(r) == multiset(engines)
    {
      SortNewestFirst(engines)
    }

    /** `save_document_to_db` */
    method SaveDocument(engineId: string, dataStoreId: string, filename: string, gcsUri: string,
                        fileSize: int, contentType: string, now: int, fault: bool)
      returns (r: Result<nat>)
      requires Valid()
      modifies this
      ensures Valid()
      ensures engines == old(engines) && engineSeq == old(engineSeq)
      ensures fault ==> r == Raised(DbError) && documents == old(documents) && documentSeq == old(documentSeq)
      ensures !fault ==>
                && r == Returned(old(documentSeq) + 1)
                && documentSeq == old(documentSeq) + 1
                && documents == old(documents) +
                     [DocumentRow(documentSeq, engineId, dataStoreId, filename, gcsUri, fileSize, contentType, now)]
    {
      if fault {
        r := Raised(DbError);
      } else {
        var t := AppendDocument(documents, documentSeq, engineId, dataStoreId, filename, gcsUri,
                                fileSize, contentType, now);
        documents, documentSeq := t.0, t.1;
        r := Returned(t.1);
      }
    }
  }
}
