/**
 * `_create_data_store`: get-or-create of a Discovery Engine data store, with
 * the race in which the store appears between the existence check and the
 * create call.
 */
module DatastoreService {
  import opened Errors
  import opened Remote

  datatype StoreStatus = Existing | Created

  datatype DataStoreResult = DataStoreResult(status: StoreStatus, dataStoreId: string)

  /**
   * What the remote side does during one call: whether the client can be
   * built, and the replies of `get_data_store`, of `create_data_store` (with
   * `operation.result`) and of the second `get_data_store` after a race.
   */
  datatype DataStoreReplies = DataStoreReplies(clientOk: bool, lookup: Reply<()>, create: Reply<()>, refetch: Reply<()>)

  /** The call reaches `create_data_store` exactly when the lookup raised NotFound. */
  predicate IssuesCreate(rp: DataStoreReplies)
  {
    rp.clientOk && rp.lookup == Fail(NotFound)
  }

  /** What `_create_data_store` returns or raises. */
  function DataStoreOutcome(dataStoreId: string, rp: DataStoreReplies): (r: Result<DataStoreResult>)
    // whatever path succeeds, the id handed back is the id asked for
    ensures r.Returned? ==> r.value.dataStoreId == dataStoreId
    // an existing store is reused
    ensures rp.clientOk && rp.lookup.Ok? ==> r == Returned(DataStoreResult(Existing, dataStoreId))
    // "created" is reported exactly when a create was issued and succeeded
    ensures (r.Returned? && r.value.status == Created) <==> (IssuesCreate(rp) && rp.create.Ok?)
    // a lookup error other than NotFound propagates unwrapped
    ensures rp.clientOk && rp.lookup.Fail? && rp.lookup.error != NotFound ==> r == Raised(Remote(rp.lookup.error))
    // the race: AlreadyExists on create is answered by fetching the store again
    ensures IssuesCreate(rp) && rp.create == Fail(AlreadyExists) ==>
              r == if rp.refetch.Ok? then Returned(DataStoreResult(Existing, dataStoreId))
                   else Raised(Remote(rp.refetch.error))
    // any other create error becomes a RuntimeError quoting it
    ensures IssuesCreate(rp) && rp.create.Fail? && rp.create.error != AlreadyExists ==>
              r == Raised(RuntimeError("Failed to create data store", Some(Remote(rp.create.error))))
    ensures !rp.clientOk ==> r.Raised? && r.failure.RuntimeError?
  {
    if !rp.clientOk then Raised(RuntimeError("Failed to create DataStoreServiceClient", None))
    else match rp.lookup
      case Ok(_) => Returned(DataStoreResult(Existing, dataStoreId))
      case Fail(e) =>
        if e != NotFound then Raised(Remote(e))
        else match rp.create
          case Ok(_) => Returned(DataStoreResult(Created, dataStoreId))
          case Fail(AlreadyExists) =>
            if rp.refetch.Ok? then Returned(DataStoreResult(Existing, dataStoreId))
            else Raised(Remote(rp.refetch.error))
          case Fail(e2) => Raised(RuntimeError("Failed to create data store", Some(Remote(e2))))
  }

  /** A returned result means the store exists: it was found, fetched, or its creation succeeded. */
  lemma ReturnedMeansStoreSeen(dataStoreId: string, rp: DataStoreReplies)
    requires DataStoreOutcome(dataStoreId, rp).Returned?
    ensures rp.clientOk
    ensures rp.lookup.Ok? || rp.create.Ok? || (rp.create == Fail(AlreadyExists) && rp.refetch.Ok?)
  {
  }

  /** The state-changing requests one call issues: the create, when it is reached. */
  function DataStoreRequests(dataStoreId: string, rp: DataStoreReplies): seq<Request>
  {
    if IssuesCreate(rp) then [CreateDataStoreRequest(dataStoreId)] else []
  }

  /** `_create_data_store` */
  method CreateDataStore(cloud: Services, projectId: string, location: string, dataStoreId: string,
                         rp: DataStoreReplies) returns (r: Result<DataStoreResult>)
    modifies cloud
    ensures r == DataStoreOutcome(dataStoreId, rp)
    ensures cloud.requests == old(cloud.requests) + DataStoreRequests(dataStoreId, rp)
    ensures cloud.dataStores == if IssuesCreate(rp) && rp.create.Ok? then old(cloud.dataStores) + {dataStoreId}
                                else old(cloud.dataStores)
    ensures cloud.engines == old(cloud.engines) && cloud.buckets == old(cloud.buckets)
    ensures cloud.blobs == old(cloud.blobs)
  {
    if !rp.clientOk {
      return Raised(RuntimeError("Failed to create DataStoreServiceClient", None));
    }
    // check whether the data store already exists
    if rp.lookup.Ok? {
      return Returned(DataStoreResult(Existing, dataStoreId));
    } else if rp.lookup.error != NotFound {
      return Raised(Remote(rp.lookup.error));
    }
    cloud.SubmitCreateDataStore(dataStoreId, rp.create);
    if rp.create.Ok? {
      r := Returned(DataStoreResult(Created, dataStoreId));
    } else if rp.create.error == AlreadyExists {
      // created concurrently between the check and the create
      if rp.refetch.Ok? {
        r := Returned(DataStoreResult(Existing, dataStoreId));
      } else {
        r := Raised(Remote(rp.refetch.error));
      }
    } else {
      r := Raised(RuntimeError("Failed to create data store", Some(Remote(rp.create.error))));
    }
  }
}
