/**
 * The remote services (Discovery Engine data stores, engines, imports and
 * search; Cloud Storage buckets and objects) as abstract state. What a call
 * returns or raises is a parameter of the call (`Errors.Reply`); the state
 * records what this service has made exist, and `requests` logs, in order,
 * every state-changing request it has issued, whatever the reply was. Reads
 * (get_data_store, get_engine, get_bucket, search) change nothing and are not
 * logged.
 */
module Remote {
  import opened Errors

  type Bytes = seq<bv8>

  /** An engine resource as the Discovery Engine API returns it. */
  datatype EngineResource = EngineResource(
    displayName: string,
    dataStoreIds: seq<string>,
    solutionType: string,
    createTime: Option<string>)   // already rendered with isoformat()

  /** The metadata of a finished import operation, and the operation's own name. */
  datatype ImportMetadata = ImportMetadata(successCount: nat, failureCount: nat, operationName: string)

  datatype Request =
    | CreateDataStoreRequest(dataStoreId: string)
    | CreateEngineRequest(engineId: string, dataStoreId: string, displayName: string)
    | CreateBucketRequest(bucketName: string, location: string)
    | UploadRequest(bucketName: string, blobName: string)
    | ImportRequest(dataStoreId: string, gcsUri: string)

  // ---- the shape of a search reply (discoveryengine SearchResponse) ----

  /** One entry of `extractive_answers` or `extractive_segments`; a missing key is `None`. */
  datatype Extract = Extract(pageNumber: Option<string>, content: Option<string>)

  /** `document.derived_struct_data`; a missing key is `None`. */
  datatype DerivedData = DerivedData(
    title: Option<string>,
    link: Option<string>,
    extractiveAnswers: Option<seq<Extract>>,
    extractiveSegments: Option<seq<Extract>>)

  /** One search result: the document's resource name, its derived data and the snippet texts read from `result.snippets`. */
  datatype SearchHit = SearchHit(documentName: string, data: DerivedData, snippets: seq<string>)

  datatype ApiCitation = ApiCitation(startIndex: int, endIndex: int)

  /** `summary_with_metadata`: the documents of its references, and its citation metadata if set. */
  datatype SummaryMetadata = SummaryMetadata(references: seq<string>, citations: Option<seq<ApiCitation>>)

  datatype Summary = Summary(summaryText: string, withMetadata: Option<SummaryMetadata>)

  /** One page of a search pager: its summary if set, and its results. */
  datatype SearchPage = SearchPage(summary: Option<Summary>, results: seq<SearchHit>)

  class Services {
    var dataStores: set<string>
    var engines: map<string, EngineResource>
    var buckets: map<string, string>              // bucket name -> location
    var blobs: map<(string, string), Bytes>       // (bucket name, blob name) -> content
    var requests: seq<Request>

    constructor ()
      ensures dataStores == {} && engines == map[] && buckets == map[] && blobs == map[]
      ensures requests == []
    {
      dataStores, engines, buckets, blobs, requests := {}, map[], map[], map[], [];
    }

    /** `create_data_store` followed by `operation.result`: only a success creates the store. */
    method SubmitCreateDataStore(dataStoreId: string, reply: Reply<()>)
      modifies this
      ensures requests == old(requests) + [CreateDataStoreRequest(dataStoreId)]
      ensures dataStores == if reply.Ok? then old(dataStores) + {dataStoreId} else old(dataStores)
      ensures engines == old(engines) && buckets == old(buckets) && blobs == old(blobs)
    {
      requests := requests + [CreateDataStoreRequest(dataStoreId)];
      if reply.Ok? {
        dataStores := dataStores + {dataStoreId};
      }
    }

    /** `create_engine` followed by `operation.result`; a success yields the engine resource. */
    method SubmitCreateEngine(engineId: string, dataStoreId: string, displayName: string, reply: Reply<EngineResource>)
      modifies this
      ensures requests == old(requests) + [CreateEngineRequest(engineId, dataStoreId, displayName)]
      ensures engines == if reply.Ok? then old(engines)[engineId := reply.value] else old(engines)
      ensures dataStores == old(dataStores) && buckets == old(buckets) && blobs == old(blobs)
    {
      requests := requests + [CreateEngineRequest(engineId, dataStoreId, displayName)];
      if reply.Ok? {
        engines := engines[engineId := reply.value];
      }
    }

    /** `create_bucket(bucket, location=...)` */
    method SubmitCreateBucket(bucketName: string, location: string, reply: Reply<()>)
      modifies this
      ensures requests == old(requests) + [CreateBucketRequest(bucketName, location)]
      ensures buckets == if reply.Ok? then old(buckets)[bucketName := location] else old(buckets)
      ensures dataStores == old(dataStores) && engines == old(engines) && blobs == old(blobs)
    {
      requests := requests + [CreateBucketRequest(bucketName, location)];
      if reply.Ok? {
        buckets := buckets[bucketName := location];
      }
    }

    /** `blob.upload_from_string(content)`: a success stores (or replaces) the object. */
    method SubmitUpload(bucketName: string, blobName: string, content: Bytes, reply: Reply<()>)
      modifies this
      ensures requests == old(requests) + [UploadRequest(bucketName, blobName)]
      ensures blobs == if reply.Ok? then old(blobs)[(bucketName, blobName) := content] else old(blobs)
      ensures dataStores == old(dataStores) && engines == old(engines) && buckets == old(buckets)
    {
      requests := requests + [UploadRequest(bucketName, blobName)];
      if reply.Ok? {
        blobs := blobs[(bucketName, blobName) := content];
      }
    }

    /** `import_documents` followed by `operation.result`; its effect on the search index is not modelled. */
    method SubmitImport(dataStoreId: string, gcsUri: string)
      modifies this
      ensures requests == old(requests) + [ImportRequest(dataStoreId, gcsUri)]
      ensures dataStores == old(dataStores) && engines == old(engines)
      ensures buckets == old(buckets) && blobs == old(blobs)
    {
      requests := requests + [ImportRequest(dataStoreId, gcsUri)];
    }
  }
}
