/**
 * Engine creation (`_create_enterprise_engine_logic`) and engine lookup
 * (`get_engines_details`). The two `uuid.uuid4()` values the creation draws
 * are parameters, already rendered with `str`.
 */
module CreateEngine {
  import opened Text
  import opened Errors
  import opened Remote
  import opened Database
  import opened DatastoreService

  // ---- ids ----

  /** The characters an engine id is made of once sanitised: `[a-z0-9-]`. */
  predicate IsIdChar(c: char)
  {
    'a' <= c <= 'z' || IsDigit(c) || c == '-'
  }

  /** What `.isalnum() or c == '-'` keeps. */
  predicate Kept(c: char)
  {
    IsAlnum(c) || c == '-'
  }

  /** `''.join(c for c in s if c.isalnum() or c == '-')` */
  function KeepIdChars(s: string): (r: string)
    ensures |r| <= |s|
    ensures forall i :: 0 <= i < |r| ==> Kept(r[i]) && r[i] in s
    ensures (forall i :: 0 <= i < |s| ==> Kept(s[i])) ==> r == s
    // one character is kept or dropped; with `KeepIdCharsAppend` this fixes every result
    ensures |s| == 1 ==> r == (if Kept(s[0]) then s else [])
  {
    if s == [] then []
    else (if Kept(s[0]) then [s[0]] else []) + KeepIdChars(s[1..])
  }

  /** `engine_name.lower().replace(" ", "-").replace("_", "-")`, then only the kept characters. */
  function SanitizeEngineName(engineName: string): (r: string)
    ensures forall i :: 0 <= i < |r| ==> IsIdChar(r[i])
    ensures |r| <= |engineName|
  {
    var lowered := Lower(engineName);
    var dashed := ReplaceChar(ReplaceChar(lowered, ' ', '-'), '_', '-');
    assert forall i :: 0 <= i < |dashed| ==> !IsUpper(dashed[i]);
    KeepIdChars(dashed)
  }

  lemma {:induction false} LowerOfLower(s: string)
    requires forall i :: 0 <= i < |s| ==> !IsUpper(s[i])
    ensures Lower(s) == s
  {
    assert forall i :: 0 <= i < |s| ==> Lower(s)[i] == s[i];
  }

  /** A name already made of id characters comes through sanitising unchanged. */
  lemma {:induction false} SanitizeKeepsIdChars(s: string)
    requires forall i :: 0 <= i < |s| ==> IsIdChar(s[i])
    ensures SanitizeEngineName(s) == s
  {
    LowerOfLower(s);
    var dashed := ReplaceChar(ReplaceChar(s, ' ', '-'), '_', '-');
    assert dashed == s by {
      forall i | 0 <= i < |s| ensures dashed[i] == s[i] {
        assert s[i] != ' ' && s[i] != '_';
      }
    }
  }

  /** Sanitising twice is sanitising once. */
  lemma SanitizeIdempotent(engineName: string)
    ensures SanitizeEngineName(SanitizeEngineName(engineName)) == SanitizeEngineName(engineName)
  {
    SanitizeKeepsIdChars(SanitizeEngineName(engineName));
  }

  lemma {:induction false} KeepIdCharsAppend(a: string, b: string)
    ensures KeepIdChars(a + b) == KeepIdChars(a) + KeepIdChars(b)
  {
    if a == [] {
      assert a + b == b;
    } else {
      assert (a + b)[0] == a[0] && (a + b)[1..] == a[1..] + b;
      KeepIdCharsAppend(a[1..], b);
      var head := if Kept(a[0]) then [a[0]] else [];
      assert KeepIdChars(a + b) == head + (KeepIdChars(a[1..]) + KeepIdChars(b));
    }
  }

  /** Sanitising works character by character: it distributes over concatenation. */
  lemma SanitizeAppend(a: string, b: string)
    ensures SanitizeEngineName(a + b) == SanitizeEngineName(a) + SanitizeEngineName(b)
  {
    var da := ReplaceChar(ReplaceChar(Lower(a), ' ', '-'), '_', '-');
    var db := ReplaceChar(ReplaceChar(Lower(b), ' ', '-'), '_', '-');
    assert ReplaceChar(ReplaceChar(Lower(a + b), ' ', '-'), '_', '-') == da + db;
    KeepIdCharsAppend(da, db);
  }

  /** Spaces and underscores turn into dashes; letters are lowered; other punctuation disappears. */
  lemma SanitizeChar(c: char)
    ensures c == ' ' || c == '_' ==> SanitizeEngineName([c]) == "-"
    ensures IsUpper(c) ==> SanitizeEngineName([c]) == [LowerChar(c)]
    ensures IsIdChar(c) ==> SanitizeEngineName([c]) == [c]
    ensures !IsAlnum(c) && c !in " _-" ==> SanitizeEngineName([c]) == ""
  {
    var d := ReplaceChar(ReplaceChar(Lower([c]), ' ', '-'), '_', '-');
    assert d == [if c == ' ' || c == '_' then '-' else LowerChar(c)];
    assert KeepIdChars(d) == (if Kept(d[0]) then [d[0]] else []) + KeepIdChars([]);
  }

  /** `str(uuid.uuid4())`: 32 lower-case hex digits in groups of 8-4-4-4-12. */
  predicate IsUuidText(u: string)
  {
    && |u| == 36
    && (forall i :: 0 <= i < |u| ==>
          if i in {8, 13, 18, 23} then u[i] == '-' else IsDigit(u[i]) || 'a' <= u[i] <= 'f')
  }

  /** `f"{engine_id_base}-{str(uuid.uuid4())[:8]}"` */
  function EngineId(engineName: string, uuidText: string): (r: string)
    ensures StartsWith(r, SanitizeEngineName(engineName) + "-")
    ensures |uuidText| >= 8 ==> |r| == |SanitizeEngineName(engineName)| + 9
    // the suffix is the first 8 characters of the uuid text
    ensures |uuidText| >= 8 ==> r[|SanitizeEngineName(engineName)| + 1..] == uuidText[..8]
  {
    SanitizeEngineName(engineName) + "-" + Take(uuidText, 8)
  }

  /** `f"ds-{str(uuid.uuid4())}"` */
  function DataStoreId(uuidText: string): (r: string)
    ensures StartsWith(r, "ds-") && r[3..] == uuidText
  {
    "ds-" + uuidText
  }

  /** The generated engine id is itself a sanitised name: sanitising it again changes nothing. */
  lemma EngineIdIsSanitized(engineName: string, uuidText: string)
    requires IsUuidText(uuidText)
    ensures forall i :: 0 <= i < |EngineId(engineName, uuidText)| ==> IsIdChar(EngineId(engineName, uuidText)[i])
    ensures SanitizeEngineName(EngineId(engineName, uuidText)) == EngineId(engineName, uuidText)
  {
    var base := SanitizeEngineName(engineName);
    var id := EngineId(engineName, uuidText);
    forall i | 0 <= i < |id| ensures IsIdChar(id[i]) {
      if i > |base| {
        assert id[i] == uuidText[i - |base| - 1];
      }
    }
    SanitizeKeepsIdChars(id);
  }

  /** Two names that sanitise alike still get different engine ids when their uuid prefixes differ. */
  lemma EngineIdsDifferByUuid(name1: string, name2: string, u1: string, u2: string)
    requires |u1| >= 8 && |u2| >= 8
    requires SanitizeEngineName(name1) == SanitizeEngineName(name2) && u1[..8] != u2[..8]
    ensures EngineId(name1, u1) != EngineId(name2, u2)
  {
    var n := |SanitizeEngineName(name1)| + 1;
    assert EngineId(name1, u1)[n..] == u1[..8];
    assert EngineId(name2, u2)[n..] == u2[..8];
  }

  // ---- _create_enterprise_engine_logic ----

  /** The `"result"` part of the returned dictionary, and its `"status_code"`. */
  datatype EngineCreation = EngineCreation(
    statusCode: nat,
    engineId: string,
    engineName: string,
    dataStoreId: string,
    solutionType: string,
    message: string)

  /**
   * One run of the remote side: whether the engine client can be built, the
   * data store step's replies, the reply of `create_engine` with
   * `operation.result`, that of `get_engine` after AlreadyExists, and
   * whether the database raises in `init_database`/`save_engine_to_db`.
   */
  datatype EngineReplies = EngineReplies(
    clientOk: bool,
    dataStore: DataStoreReplies,
    create: Reply<EngineResource>,
    fetch: Reply<EngineResource>,
    dbFault: bool)

  function StatusText(s: StoreStatus): string
  {
    match s
    case Existing => "existing"
    case Created => "created"
  }

  /** The data store step succeeded, so `create_engine` is called. */
  predicate ReachesCreate(dataStoreId: string, rp: EngineReplies)
  {
    rp.clientOk && DataStoreOutcome(dataStoreId, rp.dataStore).Returned?
  }

  /** `save_engine_to_db` is called: after a created engine, or after one fetched following AlreadyExists. */
  predicate ReachesSave(dataStoreId: string, rp: EngineReplies)
  {
    ReachesCreate(dataStoreId, rp) && (rp.create.Ok? || (rp.create == Fail(AlreadyExists) && rp.fetch.Ok?))
  }

  /** What `_create_enterprise_engine_logic` returns or raises. */
  function CreateEngineOutcome(engineName: string, uuid1: string, uuid2: string, rp: EngineReplies): (r: Result<EngineCreation>)
    // the client is built before anything else
    ensures !rp.clientOk ==> r == Raised(RuntimeError("Failed to create EngineServiceClient", None))
    // every data store failure is wrapped once more
    ensures rp.clientOk && DataStoreOutcome(DataStoreId(uuid2), rp.dataStore).Raised? ==>
              r == Raised(RuntimeError("Data store creation failed",
                                       Some(DataStoreOutcome(DataStoreId(uuid2), rp.dataStore).failure)))
    // success: the generated ids, 201 for a new engine and 200 for an existing one
    ensures r.Returned? ==> && r.value.engineId == EngineId(engineName, uuid1)
                            && r.value.dataStoreId == DataStoreId(uuid2)
                            && (r.value.statusCode == HTTP_201_CREATED <==> rp.create.Ok?)
                            && (r.value.statusCode == HTTP_200_OK <==> !rp.create.Ok?)
    ensures r.Returned? <==> ReachesSave(DataStoreId(uuid2), rp) && !rp.dbFault
    // names and solution type come from the engine the API returned
    ensures r.Returned? && rp.create.Ok? ==>
              r.value.engineName == rp.create.value.displayName && r.value.solutionType == rp.create.value.solutionType
    ensures r.Returned? && !rp.create.Ok? ==>
              r.value.engineName == rp.fetch.value.displayName && r.value.solutionType == rp.fetch.value.solutionType
    // a database error after the engine exists escapes unwrapped
    ensures ReachesSave(DataStoreId(uuid2), rp) && rp.dbFault ==> r == Raised(DbError)
    // other create errors are re-raised as they are
    ensures ReachesCreate(DataStoreId(uuid2), rp) && rp.create.Fail? && rp.create.error != AlreadyExists ==>
              r == Raised(Remote(rp.create.error))
    ensures ReachesCreate(DataStoreId(uuid2), rp) && rp.create == Fail(AlreadyExists) && rp.fetch.Fail? ==>
              r == if rp.fetch.error == NotFound
                   then Raised(RuntimeError("Engine '" + EngineId(engineName, uuid1) +
                                            "' was not found immediately after an 'AlreadyExists' error.", None))
                   else Raised(Remote(rp.fetch.error))
  {
    if !rp.clientOk then Raised(RuntimeError("Failed to create EngineServiceClient", None))
    else
      var engineId := EngineId(engineName, uuid1);
      var dataStoreId := DataStoreId(uuid2);
      match DataStoreOutcome(dataStoreId, rp.dataStore)
      case Raised(f) => Raised(RuntimeError("Data store creation failed", Some(f)))
      case Returned(ds) => EngineStepOutcome(engineId, ds, rp)
  }

  /** Step 2 of `_create_enterprise_engine_logic`, once the data store `ds` is there. */
  function EngineStepOutcome(engineId: string, ds: DataStoreResult, rp: EngineReplies): Result<EngineCreation>
  {
    match rp.create
    case Ok(response) =>
      if rp.dbFault then Raised(DbError)
      else Returned(EngineCreation(HTTP_201_CREATED, engineId, response.displayName, ds.dataStoreId,
                                   response.solutionType,
                                   "Engine '" + engineId + "' created successfully with " +
                                   StatusText(ds.status) + " data store '" + ds.dataStoreId + "'."))
    case Fail(AlreadyExists) =>
      (match rp.fetch
       case Ok(existing) =>
         if rp.dbFault then Raised(DbError)
         else Returned(EngineCreation(HTTP_200_OK, engineId, existing.displayName, ds.dataStoreId,
                                      existing.solutionType, "Engine '" + engineId + "' already exists."))
       case Fail(NotFound) =>
         Raised(RuntimeError("Engine '" + engineId + "' was not found immediately after an 'AlreadyExists' error.", None))
       case Fail(e) => Raised(Remote(e)))
    case Fail(e) => Raised(Remote(e))
  }

  /** The state-changing requests of one run, in order. */
  function CreateEngineRequests(engineName: string, uuid1: string, uuid2: string, rp: EngineReplies): seq<Request>
  {
    if !rp.clientOk then []
    else DataStoreRequests(DataStoreId(uuid2), rp.dataStore) +
         (if ReachesCreate(DataStoreId(uuid2), rp)
          then [CreateEngineRequest(EngineId(engineName, uuid1), DataStoreId(uuid2), engineName)] else [])
  }

  /**
   * A returned engine is both on record in the database and asked for
   * remotely; an engine request is only made once its data store exists.
   */
  lemma ReturnedEngineWasRequested(engineName: string, uuid1: string, uuid2: string, rp: EngineReplies)
    requires CreateEngineOutcome(engineName, uuid1, uuid2, rp).Returned?
    ensures CreateEngineRequest(EngineId(engineName, uuid1), DataStoreId(uuid2), engineName)
              in CreateEngineRequests(engineName, uuid1, uuid2, rp)
    ensures DataStoreOutcome(DataStoreId(uuid2), rp.dataStore).Returned?
  {
  }

  /** `_create_enterprise_engine_logic` against the remote services and the metadata store. */
  method CreateEnterpriseEngine(cloud: Services, db: MetadataStore, projectId: string, location: string,
                                engineName: string,
                                uuid1: string, uuid2: string, now: int, rp: EngineReplies)
    returns (r: Result<EngineCreation>)
    requires db.Valid()
    modifies cloud, db
    ensures db.Valid()
    ensures r == CreateEngineOutcome(engineName, uuid1, uuid2, rp)
    ensures cloud.requests == old(cloud.requests) + CreateEngineRequests(engineName, uuid1, uuid2, rp)
    ensures cloud.engines ==
              if ReachesCreate(DataStoreId(uuid2), rp) && rp.create.Ok?
              then old(cloud.engines)[EngineId(engineName, uuid1) := rp.create.value] else old(cloud.engines)
    // the data store step adds its store only by a successful create
    ensures cloud.dataStores ==
              if rp.clientOk && IssuesCreate(rp.dataStore) && rp.dataStore.create.Ok?
              then old(cloud.dataStores) + {DataStoreId(uuid2)} else old(cloud.dataStores)
    ensures cloud.buckets == old(cloud.buckets) && cloud.blobs == old(cloud.blobs)
    // the database changes only through a successful save of the generated ids
    ensures db.documents == old(db.documents) && db.documentSeq == old(db.documentSeq)
    ensures r.Returned? ==>
              var s := InsertEngine(old(db.engines), old(db.engineSeq), EngineId(engineName, uuid1), engineName,
                                    DataStoreId(uuid2), now);
              db.engines == s.rows && db.engineSeq == s.lastId
    ensures r.Raised? ==> db.engines == old(db.engines) && db.engineSeq == old(db.engineSeq)
    // a returned engine can be looked up by its id afterwards
    ensures r.Returned? ==> FindEngine(db.engines, r.value.engineId).Some?
  {
    if !rp.clientOk {
      return Raised(RuntimeError("Failed to create EngineServiceClient", None));
    }
    var engineId := EngineId(engineName, uuid1);
    var dataStoreId := DataStoreId(uuid2);

    // step 1: create or get the data store
    var dsResult := CreateDataStore(cloud, projectId, location, dataStoreId, rp.dataStore);
    if dsResult.Raised? {
      return Raised(RuntimeError("Data store creation failed", Some(dsResult.failure)));
    }

    // step 2: create the engine linked to the data store
    r := CreateAndSaveEngine(cloud, db, engineId, engineName, dsResult.value, now, rp);
  }

  /** Step 2 of `_create_enterprise_engine_logic`: create the engine, or fetch it after AlreadyExists, and save it. */
  method CreateAndSaveEngine(cloud: Services, db: MetadataStore, engineId: string, engineName: string,
                             ds: DataStoreResult, now: int, rp: EngineReplies)
    returns (r: Result<EngineCreation>)
    requires db.Valid()
    modifies cloud, db
    ensures db.Valid()
    ensures r == EngineStepOutcome(engineId, ds, rp)
    ensures cloud.requests == old(cloud.requests) + [CreateEngineRequest(engineId, ds.dataStoreId, engineName)]
    ensures cloud.engines == if rp.create.Ok? then old(cloud.engines)[engineId := rp.create.value] else old(cloud.engines)
    ensures cloud.dataStores == old(cloud.dataStores)
    ensures cloud.buckets == old(cloud.buckets) && cloud.blobs == old(cloud.blobs)
    ensures db.documents == old(db.documents) && db.documentSeq == old(db.documentSeq)
    ensures r.Returned? ==>
              var s := InsertEngine(old(db.engines), old(db.engineSeq), engineId, engineName, ds.dataStoreId, now);
              db.engines == s.rows && db.engineSeq == s.lastId
    ensures r.Raised? ==> db.engines == old(db.engines) && db.engineSeq == old(db.engineSeq)
  {
    cloud.SubmitCreateEngine(engineId, ds.dataStoreId, engineName, rp.create);
    match rp.create {
      case Ok(response) =>
        var saved := db.SaveEngine(engineId, engineName, ds.dataStoreId, now, rp.dbFault);
        if saved.Raised? {
          return Raised(saved.failure);
        }
        r := Returned(EngineCreation(HTTP_201_CREATED, engineId, response.displayName, ds.dataStoreId,
                                     response.solutionType,
                                     "Engine '" + engineId + "' created successfully with " +
                                     StatusText(ds.status) + " data store '" + ds.dataStoreId + "'."));
      case Fail(AlreadyExists) =>
        match rp.fetch {
          case Ok(existing) =>
            var saved := db.SaveEngine(engineId, engineName, ds.dataStoreId, now, rp.dbFault);
            if saved.Raised? {
              return Raised(saved.failure);
            }
            r := Returned(EngineCreation(HTTP_200_OK, engineId, existing.displayName, ds.dataStoreId,
                                         existing.solutionType, "Engine '" + engineId + "' already exists."));
          case Fail(NotFound) =>
            r := Raised(RuntimeError("Engine '" + engineId +
                                     "' was not found immediately after an 'AlreadyExists' error.", None));
          case Fail(e) =>
            r := Raised(Remote(e));
        }
      case Fail(e) =>
        r := Raised(Remote(e));
    }
  }

  // ---- get_engines_details ----

  /** The `"gcp_info"` part of the reply. */
  datatype GcpInfo = GcpInfo(
    engineId: string,
    engineName: string,
    dataStoreIds: seq<string>,
    solutionType: string,
    createTime: Option<string>)

  datatype EngineDetails = EngineDetails(databaseInfo: EngineRow, gcpInfo: Option<GcpInfo>, warning: Option<string>)

  /**
   * `get_engines_details`: `dbFault` says whether reading the database raises,
   * `clientOk` whether the client can be built, `fetch` is the reply of `get_engine`.
   */
  function GetEnginesDetails(db: MetadataStore, engineId: string, dbFault: bool, clientOk: bool,
                             fetch: Reply<EngineResource>): (r: Result<EngineDetails>)
    reads db
    requires db.Valid()
    // every failure leaves as an HTTP error: 404 exactly when the database has no such engine
    ensures r.Raised? ==> r.failure.HttpError?
    ensures r.Raised? && r.failure.status == HTTP_404_NOT_FOUND <==> !dbFault && db.GetEngine(engineId).None?
    ensures r.Raised? ==> r.failure.status in {HTTP_404_NOT_FOUND, HTTP_500_INTERNAL_SERVER_ERROR}
    ensures r.Returned? <==> !dbFault && db.GetEngine(engineId).Some? && clientOk && (fetch.Ok? || fetch == Fail(NotFound))
    // the database row is reported as stored
    ensures r.Returned? ==> r.value.databaseInfo == db.GetEngine(engineId).value
    // the remote part is present exactly when the API found the engine; otherwise a warning says so
    ensures r.Returned? ==> (r.value.gcpInfo.Some? <==> fetch.Ok?) && (r.value.warning.Some? <==> fetch.Fail?)
    ensures r.Returned? && fetch.Ok? ==>
              r.value.gcpInfo == Some(GcpInfo(engineId, fetch.value.displayName, fetch.value.dataStoreIds,
                                              fetch.value.solutionType, fetch.value.createTime))
  {
    if dbFault then Raised(HttpError(HTTP_500_INTERNAL_SERVER_ERROR, "Failed to retrieve engine. Error: ", Some(DbError)))
    else match db.GetEngine(engineId)
      case None =>
        Raised(HttpError(HTTP_404_NOT_FOUND, "Engine '" + engineId + "' not found in database.", None))
      case Some(row) =>
        if !clientOk then
          Raised(HttpError(HTTP_500_INTERNAL_SERVER_ERROR, "Failed to retrieve engine. Error: ", None))
        else match fetch
          case Ok(engine) =>
            Returned(EngineDetails(row, Some(GcpInfo(engineId, engine.displayName, engine.dataStoreIds,
                                                     engine.solutionType, engine.createTime)), None))
          case Fail(NotFound) =>
            Returned(EngineDetails(row, None, Some("Engine found in database but not in GCP")))
          case Fail(e) =>
            Raised(HttpError(HTTP_500_INTERNAL_SERVER_ERROR, "Failed to retrieve engine. Error: ", Some(Remote(e))))
  }

  /**
   * Saving a new engine and then asking `get_engines_details` for it: no 404,
   * and the details report the row just saved, under its new row id.
   */
  lemma SavedEngineHasDetails(db: MetadataStore, rows: seq<EngineRow>, lastId: nat, engineId: string,
                              engineName: string, dataStoreId: string, now: int,
                              clientOk: bool, fetch: Reply<EngineResource>)
    requires db.Valid() && EnginesValid(rows, lastId) && FindEngine(rows, engineId).None?
    requires db.engines == InsertEngine(rows, lastId, engineId, engineName, dataStoreId, now).rows
    ensures var d := GetEnginesDetails(db, engineId, false, clientOk, fetch);
            && (d.Raised? ==> d.failure.status == HTTP_500_INTERNAL_SERVER_ERROR)
            && (d.Returned? ==>
                  d.value.databaseInfo ==
                    EngineRow(InsertEngine(rows, lastId, engineId, engineName, dataStoreId, now).rowId,
                              engineId, engineName, dataStoreId, now))
  {
    var saved := InsertEngine(rows, lastId, engineId, engineName, dataStoreId, now);
    var row := EngineRow(saved.rowId, engineId, engineName, dataStoreId, now);
    assert db.engines[|rows|] == row;
    assert db.GetEngine(engineId).Some?;
  }
}
