/**
 * Document ingestion: bucket, upload, import, in that order
 * (`ingestion`), and the import step itself (`_ingest_document_from_gcs`).
 * Every failure leaves `ingestion` as an HTTP error; a later step runs only
 * after the earlier ones succeeded.
 */
module IngestionService {
  import opened Text
  import opened Errors
  import opened Remote
  import opened GcsService

  /** The dictionary `_ingest_document_from_gcs` returns. */
  datatype ImportResult = ImportResult(successCount: nat, failureCount: nat, operationName: Option<string>)

  /** `operation.operation.name if metadata.failure_count > 0 else None` */
  function OperationNameFor(failureCount: nat, operationName: string): (r: Option<string>)
    ensures r.Some? <==> failureCount > 0
    ensures r.Some? ==> r.value == operationName
  {
    if failureCount > 0 then Some(operationName) else None
  }

  /** What `_ingest_document_from_gcs` returns or raises, given the reply of the import operation. */
  function ImportOutcome(reply: Reply<ImportMetadata>): (r: Result<ImportResult>)
    ensures r.Returned? <==> reply.Ok?
    ensures r.Returned? ==> && r.value.successCount == reply.value.successCount
                            && r.value.failureCount == reply.value.failureCount
                            && (r.value.operationName.Some? <==> reply.value.failureCount > 0)
    ensures reply.Fail? ==> r == Raised(RuntimeError("Document ingestion failed", Some(Remote(reply.error))))
  {
    match reply
    case Ok(m) => Returned(ImportResult(m.successCount, m.failureCount, OperationNameFor(m.failureCount, m.operationName)))
    case Fail(e) => Raised(RuntimeError("Document ingestion failed", Some(Remote(e))))
  }

  /** `_ingest_document_from_gcs`; the 30-second wait for indexing is left out. */
  method IngestDocumentFromGcs(cloud: Services, projectId: string, location: string, dataStoreId: string,
                               gcsUri: string, reply: Reply<ImportMetadata>) returns (r: Result<ImportResult>)
    modifies cloud
    ensures r == ImportOutcome(reply)
    ensures cloud.requests == old(cloud.requests) + [ImportRequest(dataStoreId, gcsUri)]
    ensures cloud.dataStores == old(cloud.dataStores) && cloud.engines == old(cloud.engines)
    ensures cloud.buckets == old(cloud.buckets) && cloud.blobs == old(cloud.blobs)
  {
    cloud.SubmitImport(dataStoreId, gcsUri);
    match reply {
      case Ok(metadata) =>
        r := Returned(ImportResult(metadata.successCount, metadata.failureCount,
                                   OperationNameFor(metadata.failureCount, metadata.operationName)));
      case Fail(e) =>
        r := Raised(RuntimeError("Document ingestion failed", Some(Remote(e))));
    }
  }

  /** FastAPI's `UploadFile`: its `filename` may be missing; `content` is what `read()` returns. */
  datatype UploadFile = UploadFile(filename: Option<string>, content: Bytes)

  /** `f"{file.filename}"`: a missing file name renders as `None`. */
  function FilenameText(filename: Option<string>): string
  {
    match filename
    case Some(name) => name
    case None => "None"
  }

  /** `IngestResponse` of the final schema. */
  datatype IngestResponse = IngestResponse(
    successCount: nat,
    failureCount: nat,
    bucketName: string,
    gcsUri: string,
    operationName: Option<string>,
    message: string)

  /** The replies of the three steps. */
  datatype IngestionReplies = IngestionReplies(bucket: BucketReplies, upload: Reply<()>, importReply: Reply<ImportMetadata>)

  function SuccessMessage(filename: string, successCount: nat, failureCount: nat): string
  {
    "Document '" + filename + "' ingested successfully. Success: " + NatToString(successCount) +
    ", Failed: " + NatToString(failureCount)
  }

  /** The upload runs: the bucket step succeeded and the file is not empty. */
  predicate ReachesUpload(engineId: string, dataStoreId: string, file: UploadFile, rp: IngestionReplies)
  {
    BucketOutcome(engineId, dataStoreId, rp.bucket).Returned? && |file.content| > 0
  }

  /** The import runs: the upload succeeded too. */
  predicate ReachesImport(engineId: string, dataStoreId: string, file: UploadFile, rp: IngestionReplies)
  {
    ReachesUpload(engineId, dataStoreId, file, rp) && rp.upload.Ok?
  }

  /** What `ingestion` returns or raises; `timestamp` is the upload's `int(time.time())`. */
  function IngestionOutcome(engineId: string, dataStoreId: string, file: UploadFile, timestamp: nat,
                            rp: IngestionReplies): (r: Result<IngestResponse>)
    // the endpoint sees only HTTP errors
    ensures r.Raised? ==> r.failure.HttpError?
    // 400 exactly for an empty file that got past the bucket step
    ensures r.Raised? && r.failure.status == HTTP_400_BAD_REQUEST <==>
              BucketOutcome(engineId, dataStoreId, rp.bucket).Returned? && |file.content| == 0
    ensures r.Raised? ==> r.failure.status in {HTTP_400_BAD_REQUEST, HTTP_500_INTERNAL_SERVER_ERROR}
    ensures r.Returned? <==> ReachesImport(engineId, dataStoreId, file, rp) && rp.importReply.Ok?
    // the reply names the bucket and the object that were written, and the import's counts
    ensures r.Returned? ==>
              && r.value.bucketName == BucketName(engineId, dataStoreId)
              && r.value.gcsUri == GcsUri(r.value.bucketName, BlobName(timestamp, FilenameText(file.filename)))
              && r.value.successCount == rp.importReply.value.successCount
              && r.value.failureCount == rp.importReply.value.failureCount
              && (r.value.operationName.Some? <==> r.value.failureCount > 0)
              && EndsWith(r.value.message, NatToString(r.value.failureCount))
    // which step failed is kept as the cause
    ensures BucketOutcome(engineId, dataStoreId, rp.bucket).Raised? ==>
              r == Raised(HttpError(HTTP_500_INTERNAL_SERVER_ERROR, "Failed to create/access GCS bucket: ",
                                    Some(BucketOutcome(engineId, dataStoreId, rp.bucket).failure)))
    ensures ReachesUpload(engineId, dataStoreId, file, rp) && rp.upload.Fail? ==>
              r.Raised? && r.failure.detail == "Failed to upload file to GCS: "
    ensures ReachesImport(engineId, dataStoreId, file, rp) && rp.importReply.Fail? ==>
              r.Raised? && r.failure.detail == "Failed to ingest document: "
  {
    match BucketOutcome(engineId, dataStoreId, rp.bucket)
    case Raised(f) => Raised(HttpError(HTTP_500_INTERNAL_SERVER_ERROR, "Failed to create/access GCS bucket: ", Some(f)))
    case Returned(bucketName) => UploadImportOutcome(bucketName, file, timestamp, rp)
  }

  /** Steps 2 and 3 of `ingestion`, once the bucket is there. */
  function UploadImportOutcome(bucketName: string, file: UploadFile, timestamp: nat, rp: IngestionReplies)
    : Result<IngestResponse>
  {
    if |file.content| == 0 then Raised(HttpError(HTTP_400_BAD_REQUEST, "File is empty", None))
    else
      var filename := FilenameText(file.filename);
      match UploadOutcome(bucketName, timestamp, filename, rp.upload)
      case Raised(f) => Raised(HttpError(HTTP_500_INTERNAL_SERVER_ERROR, "Failed to upload file to GCS: ", Some(f)))
      case Returned(gcsUri) =>
        match ImportOutcome(rp.importReply)
        case Raised(f) => Raised(HttpError(HTTP_500_INTERNAL_SERVER_ERROR, "Failed to ingest document: ", Some(f)))
        case Returned(result) =>
          Returned(IngestResponse(result.successCount, result.failureCount, bucketName, gcsUri, result.operationName,
                                  SuccessMessage(filename, result.successCount, result.failureCount)))
  }

  /** The state-changing requests of one `ingestion` call, in order. */
  function IngestionRequests(engineId: string, dataStoreId: string, location: string, file: UploadFile,
                             timestamp: nat, rp: IngestionReplies): seq<Request>
  {
    var bucketName := BucketName(engineId, dataStoreId);
    var blobName := BlobName(timestamp, FilenameText(file.filename));
    (if IssuesBucketCreate(rp.bucket) then [CreateBucketRequest(bucketName, BucketLocation(location))] else []) +
    (if ReachesUpload(engineId, dataStoreId, file, rp) then [UploadRequest(bucketName, blobName)] else []) +
    (if ReachesImport(engineId, dataStoreId, file, rp) then [ImportRequest(dataStoreId, GcsUri(bucketName, blobName))] else [])
  }

  /**
   * An import is only ever requested for the object uploaded just before it,
   * and an upload only for a non-empty file.
   */
  lemma ImportFollowsUpload(engineId: string, dataStoreId: string, location: string, file: UploadFile,
                            timestamp: nat, rp: IngestionReplies, k: nat)
    requires k < |IngestionRequests(engineId, dataStoreId, location, file, timestamp, rp)|
    requires IngestionRequests(engineId, dataStoreId, location, file, timestamp, rp)[k].ImportRequest?
    ensures k >= 1 && rp.upload.Ok? && |file.content| > 0
    ensures var reqs := IngestionRequests(engineId, dataStoreId, location, file, timestamp, rp);
            reqs[k - 1].UploadRequest? &&
            reqs[k].gcsUri == GcsUri(reqs[k - 1].bucketName, reqs[k - 1].blobName) &&
            reqs[k].dataStoreId == dataStoreId
  {
  }

  /** `ingestion` */
  method Ingestion(cloud: Services, projectId: string, location: string, engineId: string,
                   dataStoreId: string, file: UploadFile, timestamp: nat, rp: IngestionReplies)
    returns (r: Result<IngestResponse>)
    modifies cloud
    ensures r == IngestionOutcome(engineId, dataStoreId, file, timestamp, rp)
    ensures cloud.requests == old(cloud.requests) + IngestionRequests(engineId, dataStoreId, location, file, timestamp, rp)
    ensures cloud.dataStores == old(cloud.dataStores) && cloud.engines == old(cloud.engines)
    ensures cloud.buckets ==
              if IssuesBucketCreate(rp.bucket) && rp.bucket.create.Ok?
              then old(cloud.buckets)[BucketName(engineId, dataStoreId) := BucketLocation(location)]
              else old(cloud.buckets)
    ensures cloud.blobs ==
              if ReachesImport(engineId, dataStoreId, file, rp)
              then old(cloud.blobs)[(BucketName(engineId, dataStoreId), BlobName(timestamp, FilenameText(file.filename)))
                                    := file.content]
              else old(cloud.blobs)
  {
    // step 1: get or create the bucket
    var bucketResult := GetOrCreateBucket(cloud, engineId, dataStoreId, projectId, location, rp.bucket);
    if bucketResult.Raised? {
      return Raised(HttpError(HTTP_500_INTERNAL_SERVER_ERROR, "Failed to create/access GCS bucket: ",
                              Some(bucketResult.failure)));
    }
    var bucketName := bucketResult.value;

    r := UploadAndImport(cloud, projectId, location, dataStoreId, bucketName, file, timestamp, rp);
  }

  /** Steps 2 and 3 of `ingestion`: read and upload the file, then import it. */
  method UploadAndImport(cloud: Services, projectId: string, location: string, dataStoreId: string,
                         bucketName: string, file: UploadFile, timestamp: nat, rp: IngestionReplies)
    returns (r: Result<IngestResponse>)
    modifies cloud
    ensures r == UploadImportOutcome(bucketName, file, timestamp, rp)
    ensures cloud.requests == old(cloud.requests) +
              (if |file.content| > 0 then [UploadRequest(bucketName, BlobName(timestamp, FilenameText(file.filename)))] else []) +
              (if |file.content| > 0 && rp.upload.Ok?
               then [ImportRequest(dataStoreId, GcsUri(bucketName, BlobName(timestamp, FilenameText(file.filename))))]
               else [])
    ensures cloud.dataStores == old(cloud.dataStores) && cloud.engines == old(cloud.engines)
    ensures cloud.buckets == old(cloud.buckets)
    ensures cloud.blobs ==
              if |file.content| > 0 && rp.upload.Ok?
              then old(cloud.blobs)[(bucketName, BlobName(timestamp, FilenameText(file.filename))) := file.content]
              else old(cloud.blobs)
  {
    // step 2: read and upload the file
    var fileContent := file.content;
    if |fileContent| == 0 {
      return Raised(HttpError(HTTP_400_BAD_REQUEST, "File is empty", None));
    }
    var filename := FilenameText(file.filename);
    var uploadResult := UploadFileToGcs(cloud, projectId, bucketName, fileContent, filename, timestamp, rp.upload);
    if uploadResult.Raised? {
      return Raised(HttpError(HTTP_500_INTERNAL_SERVER_ERROR, "Failed to upload file to GCS: ",
                              Some(uploadResult.failure)));
    }
    var gcsUri := uploadResult.value;

    // step 3: import the document into the data store
    var ingestResult := IngestDocumentFromGcs(cloud, projectId, location, dataStoreId, gcsUri, rp.importReply);
    if ingestResult.Raised? {
      return Raised(HttpError(HTTP_500_INTERNAL_SERVER_ERROR, "Failed to ingest document: ",
                              Some(ingestResult.failure)));
    }
    var result := ingestResult.value;
    r := Returned(IngestResponse(result.successCount, result.failureCount, bucketName, gcsUri, result.operationName,
                                 SuccessMessage(filename, result.successCount, result.failureCount)));
  }
}
