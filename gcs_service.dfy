/**
 * Cloud Storage side of ingestion: the per-engine bucket's name and location,
 * `_get_or_create_bucket`, and `_upload_file_to_gcs` with its blob name and
 * `gs://` URI.
 */
module GcsService {
  import opened Text
  import opened Errors
  import opened Remote

  /** Cloud Storage's limit on the length of a bucket name. */
  const MaxBucketNameLength: nat := 63

  /** `f"{engine_id}-{data_store_id}".lower().replace("_", "-")`, before the cut to 63 characters. */
  function FullBucketName(engineId: string, dataStoreId: string): string
  {
    ReplaceChar(Lower(engineId + "-" + dataStoreId), '_', '-')
  }

  /** The bucket name derived from an engine and its data store. */
  function BucketName(engineId: string, dataStoreId: string): (r: string)
    ensures |r| <= MaxBucketNameLength
    ensures |r| <= |FullBucketName(engineId, dataStoreId)| && r == FullBucketName(engineId, dataStoreId)[..|r|]
    ensures |r| == if |engineId| + 1 + |dataStoreId| <= MaxBucketNameLength
                   then |engineId| + 1 + |dataStoreId| else MaxBucketNameLength
    ensures forall i :: 0 <= i < |r| ==> !IsUpper(r[i]) && r[i] != '_'
  {
    Take(FullBucketName(engineId, dataStoreId), MaxBucketNameLength)
  }

  /** A short enough name is not cut, so the whole data store id shows in it. */
  lemma BucketNameUncut(engineId: string, dataStoreId: string)
    requires |engineId| + 1 + |dataStoreId| <= MaxBucketNameLength
    ensures BucketName(engineId, dataStoreId) == FullBucketName(engineId, dataStoreId)
    ensures exists k :: 0 <= k <= |BucketName(engineId, dataStoreId)| - |dataStoreId| &&
                        BucketName(engineId, dataStoreId)[k..] == ReplaceChar(Lower(dataStoreId), '_', '-')
  {
    var full := FullBucketName(engineId, dataStoreId);
    var k := |engineId| + 1;
    assert full[k..] == ReplaceChar(Lower(dataStoreId), '_', '-');
  }

  /**
   * An engine id of 63 characters or more fills the whole bucket name: every
   * data store of that engine id maps to the same bucket.
   */
  lemma BucketNameIgnoresDataStoreOfLongEngineId(engineId: string, ds1: string, ds2: string)
    requires |engineId| >= MaxBucketNameLength
    ensures BucketName(engineId, ds1) == BucketName(engineId, ds2)
  {
    var a, b := FullBucketName(engineId, ds1), FullBucketName(engineId, ds2);
    forall i | 0 <= i < MaxBucketNameLength ensures a[i] == b[i] {
      assert (engineId + "-" + ds1)[i] == engineId[i] == (engineId + "-" + ds2)[i];
    }
    assert a[..MaxBucketNameLength] == b[..MaxBucketNameLength];
  }

  /** `"us"` for the location `"global"`, otherwise `location.lower()`. */
  function BucketLocation(location: string): (r: string)
    ensures location == "global" ==> r == "us"
    ensures location != "global" ==> r == Lower(location)
  {
    if location == "global" then "us" else Lower(location)
  }

  /** The comparison with `"global"` is case-sensitive: `"GLOBAL"` becomes `"global"`, not `"us"`. */
  lemma BucketLocationCaseSensitive()
    ensures BucketLocation("GLOBAL") == "global"
  {
    assert Lower("GLOBAL") == "global" by {
      var s := Lower("GLOBAL");
      assert s[0] == 'g' && s[1] == 'l' && s[2] == 'o' && s[3] == 'b' && s[4] == 'a' && s[5] == 'l';
    }
  }

  /** The replies of `get_bucket` and, after NotFound, of `create_bucket`. */
  datatype BucketReplies = BucketReplies(lookup: Reply<()>, create: Reply<()>)

  predicate IssuesBucketCreate(rp: BucketReplies)
  {
    rp.lookup == Fail(NotFound)
  }

  /** What `_get_or_create_bucket` returns or raises. */
  function BucketOutcome(engineId: string, dataStoreId: string, rp: BucketReplies): (r: Result<string>)
    // both the reuse path and the create path return the derived name
    ensures r.Returned? ==> r.value == BucketName(engineId, dataStoreId)
    ensures r.Returned? <==> rp.lookup.Ok? || (IssuesBucketCreate(rp) && rp.create.Ok?)
    // a lookup error other than NotFound becomes a RuntimeError
    ensures rp.lookup.Fail? && rp.lookup.error != NotFound ==>
              r == Raised(RuntimeError("Failed to get or create bucket", Some(Remote(rp.lookup.error))))
    // a create error is raised inside the NotFound handler, so it escapes unwrapped
    ensures IssuesBucketCreate(rp) && rp.create.Fail? ==> r == Raised(Remote(rp.create.error))
  {
    var name := BucketName(engineId, dataStoreId);
    match rp.lookup
    case Ok(_) => Returned(name)
    case Fail(NotFound) => if rp.create.Ok? then Returned(name) else Raised(Remote(rp.create.error))
    case Fail(e) => Raised(RuntimeError("Failed to get or create bucket", Some(Remote(e))))
  }

  /** `_get_or_create_bucket` */
  method GetOrCreateBucket(cloud: Services, engineId: string, dataStoreId: string, projectId: string,
                           location: string, rp: BucketReplies) returns (r: Result<string>)
    modifies cloud
    ensures r == BucketOutcome(engineId, dataStoreId, rp)
    ensures cloud.requests == old(cloud.requests) +
              (if IssuesBucketCreate(rp)
               then [CreateBucketRequest(BucketName(engineId, dataStoreId), BucketLocation(location))] else [])
    ensures cloud.buckets ==
              if IssuesBucketCreate(rp) && rp.create.Ok?
              then old(cloud.buckets)[BucketName(engineId, dataStoreId) := BucketLocation(location)]
              else old(cloud.buckets)
    ensures cloud.dataStores == old(cloud.dataStores) && cloud.engines == old(cloud.engines)
    ensures cloud.blobs == old(cloud.blobs)
  {
    var bucketName := BucketName(engineId, dataStoreId);
    if rp.lookup.Ok? {
      // the bucket exists: reuse it
      return Returned(bucketName);
    }
    if rp.lookup.error != NotFound {
      return Raised(RuntimeError("Failed to get or create bucket", Some(Remote(rp.lookup.error))));
    }
    var bucketLocation := BucketLocation(location);
    cloud.SubmitCreateBucket(bucketName, bucketLocation, rp.create);
    if rp.create.Ok? {
      r := Returned(bucketName);
    } else {
      r := Raised(Remote(rp.create.error));
    }
  }

  // ---- blob names and URIs ----

  /** `f"documents/{timestamp}_{filename}"` */
  function BlobName(timestamp: nat, filename: string): string
  {
    "documents/" + NatToString(timestamp) + "_" + filename
  }

  /** `f"gs://{bucket_name}/{blob_name}"` */
  function GcsUri(bucketName: string, blobName: string): string
  {
    "gs://" + bucketName + "/" + blobName
  }

  /** Reads the upload time and the original file name back out of a blob name. */
  function ParseBlobName(blobName: string): Option<(nat, string)>
  {
    if !StartsWith(blobName, "documents/") then None
    else match SplitAtFirst(blobName[10..], '_')
      case Uncut => None
      case Cut(digits, filename) =>
        if digits != [] && AllDigits(digits) then Some((DigitsValue(digits), filename)) else None
  }

  /** Splits a `gs://bucket/blob` URI into its bucket and blob names. */
  function ParseGcsUri(uri: string): Option<(string, string)>
  {
    if !StartsWith(uri, "gs://") then None
    else match SplitAtFirst(uri[5..], '/')
      case Uncut => None
      case Cut(bucket, blob) => Some((bucket, blob))
  }

  lemma {:induction false} BlobNameRoundTrip(timestamp: nat, filename: string)
    ensures ParseBlobName(BlobName(timestamp, filename)) == Some((timestamp, filename))
  {
    var digits := NatToString(timestamp);
    var b := BlobName(timestamp, filename);
    assert b[..10] == "documents/";
    assert b[10..] == digits + ['_'] + filename;
    assert '_' !in digits by {
      forall i | 0 <= i < |digits| ensures digits[i] != '_' {
        assert IsDigit(digits[i]);
      }
    }
    SplitAtFirstOf(digits, '_', filename);
    DigitsValueOfNatToString(timestamp);
  }

  lemma {:induction false} GcsUriRoundTrip(bucketName: string, blobName: string)
    requires '/' !in bucketName
    ensures ParseGcsUri(GcsUri(bucketName, blobName)) == Some((bucketName, blobName))
  {
    var u := GcsUri(bucketName, blobName);
    assert u[..5] == "gs://";
    assert u[5..] == bucketName + ['/'] + blobName;
    SplitAtFirstOf(bucketName, '/', blobName);
  }

  /**
   * The URI of an upload determines its bucket, its upload time and its file
   * name: uploads that differ in any of them never share a URI.
   */
  lemma UploadUriInjective(b1: string, t1: nat, f1: string, b2: string, t2: nat, f2: string)
    requires '/' !in b1 && '/' !in b2
    requires GcsUri(b1, BlobName(t1, f1)) == GcsUri(b2, BlobName(t2, f2))
    ensures b1 == b2 && t1 == t2 && f1 == f2
  {
    GcsUriRoundTrip(b1, BlobName(t1, f1));
    GcsUriRoundTrip(b2, BlobName(t2, f2));
    BlobNameRoundTrip(t1, f1);
    BlobNameRoundTrip(t2, f2);
  }

  /** What `_upload_file_to_gcs` returns or raises. */
  function UploadOutcome(bucketName: string, timestamp: nat, filename: string, reply: Reply<()>): (r: Result<string>)
    ensures r.Returned? <==> reply.Ok?
    ensures reply.Fail? ==> r == Raised(RuntimeError("Failed to upload file to GCS", Some(Remote(reply.error))))
  {
    if reply.Fail? then Raised(RuntimeError("Failed to upload file to GCS", Some(Remote(reply.error))))
    else Returned(GcsUri(bucketName, BlobName(timestamp, filename)))
  }

  /** The URI a successful upload returns names the bucket and the blob written. */
  lemma UploadUriParsesBack(bucketName: string, timestamp: nat, filename: string, reply: Reply<()>)
    requires '/' !in bucketName && reply.Ok?
    ensures ParseGcsUri(UploadOutcome(bucketName, timestamp, filename, reply).value) ==
              Some((bucketName, BlobName(timestamp, filename)))
  {
    GcsUriRoundTrip(bucketName, BlobName(timestamp, filename));
  }

  /** `_upload_file_to_gcs`, with `int(time.time())` passed in as `timestamp`. */
  method UploadFileToGcs(cloud: Services, projectId: string, bucketName: string, content: Bytes,
                         filename: string, timestamp: nat, reply: Reply<()>) returns (r: Result<string>)
    modifies cloud
    ensures r == UploadOutcome(bucketName, timestamp, filename, reply)
    ensures cloud.requests == old(cloud.requests) + [UploadRequest(bucketName, BlobName(timestamp, filename))]
    ensures cloud.blobs == if reply.Ok? then old(cloud.blobs)[(bucketName, BlobName(timestamp, filename)) := content]
                           else old(cloud.blobs)
    ensures cloud.dataStores == old(cloud.dataStores) && cloud.engines == old(cloud.engines)
    ensures cloud.buckets == old(cloud.buckets)
  {
    var blobName := BlobName(timestamp, filename);
    cloud.SubmitUpload(bucketName, blobName, content, reply);
    if reply.Ok? {
      r := Returned(GcsUri(bucketName, blobName));
    } else {
      r := Raised(RuntimeError("Failed to upload file to GCS", Some(Remote(reply.error))));
    }
  }
}
