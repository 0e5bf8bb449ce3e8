/**
 * The `/ingest-document` endpoint: it checks the upload's file name and
 * extension, then hands the upload to `ingestion`.
 */
module IngestDocument {
  import opened Text
  import opened Errors
  import opened Remote
  import opened GcsService
  import opened IngestionService

  /**
   * `os.path.splitext(p)[1]` on POSIX: the text from the last `.` of the last
   * path component, unless everything before that dot in the component is dots.
   */
  function Ext(p: string): (r: string)
    ensures r == [] || (r[0] == '.' && EndsWith(p, r) && '/' !in r && '.' !in r[1..])
  {
    var sep := LastIndex(p, '/');
    var dot := LastIndex(p, '.');
    if dot > sep && exists k :: sep + 1 <= k < dot && p[k] != '.' then p[dot..] else []
  }

  const AllowedExtensions: set<string> := {".pdf", ".docx", ".doc", ".txt", ".html", ".htm", ".md"}

  /** The checks before `ingestion` runs; the lowered extension when the file is accepted. */
  function ValidateUpload(filename: Option<string>): (r: Result<string>)
    // a missing or empty name is refused first
    ensures filename.None? || filename == Some("") ==>
              r == Raised(HttpError(HTTP_400_BAD_REQUEST, "No file provided", None))
    // otherwise the decision is the lowered last suffix alone
    ensures filename.Some? && filename.value != "" ==>
              (r.Returned? <==> Lower(Ext(filename.value)) in AllowedExtensions)
    ensures r.Returned? ==> filename.Some? && r.value == Lower(Ext(filename.value)) && r.value in AllowedExtensions
    ensures r.Raised? ==> r.failure.HttpError? && r.failure.status == HTTP_400_BAD_REQUEST
  {
    match filename
    case None => Raised(HttpError(HTTP_400_BAD_REQUEST, "No file provided", None))
    case Some(name) =>
      if name == "" then Raised(HttpError(HTTP_400_BAD_REQUEST, "No file provided", None))
      else
        var fileExt := Lower(Ext(name));
        if fileExt !in AllowedExtensions
        then Raised(HttpError(HTTP_400_BAD_REQUEST, "Unsupported file type: " + fileExt + ". Allowed: ", None))
        else Returned(fileExt)
  }

  /** An accepted name ends in its extension, in whatever case the client wrote it. */
  lemma AcceptedNameEndsWithExtension(name: string)
    requires ValidateUpload(Some(name)).Returned?
    ensures EndsWith(Lower(name), ValidateUpload(Some(name)).value)
    ensures |ValidateUpload(Some(name)).value| >= 3
  {
    var e := Ext(name);
    var v := ValidateUpload(Some(name)).value;
    assert v == Lower(e) && v in AllowedExtensions;
    assert name[|name| - |e|..] == e;
    LowerSuffix(name, |name| - |e|);
    AllowedExtensionLength(v);
  }

  lemma AllowedExtensionLength(x: string)
    requires x in AllowedExtensions
    ensures 3 <= |x| <= 5 && x[0] == '.'
  {
  }

  // ---- extensions are compared without regard to case ----

  lemma LastIndexUnique(s: string, c: char, r: int)
    requires -1 <= r < |s|
    requires r >= 0 ==> s[r] == c
    requires forall k :: r < k < |s| ==> s[k] != c
    ensures LastIndex(s, c) == r
  {
  }

  /** Lowering leaves `/` and `.` where they are. */
  lemma LastIndexLower(s: string, c: char)
    requires c == '/' || c == '.'
    ensures LastIndex(Lower(s), c) == LastIndex(s, c)
  {
    var q := LastIndex(s, c);
    forall k | 0 <= k < |s| ensures (Lower(s)[k] == c) <==> (s[k] == c) {
      assert Lower(s)[k] == LowerChar(s[k]);
    }
    LastIndexUnique(Lower(s), c, q);
  }

  /** Lowering keeps every `.` where it is and adds none. */
  lemma DotsUnderLower(p: string, lo: int, hi: int)
    requires 0 <= lo && hi <= |p|
    ensures (exists k :: lo <= k < hi && Lower(p)[k] != '.') <==> (exists k :: lo <= k < hi && p[k] != '.')
  {
    forall k | lo <= k < hi ensures (Lower(p)[k] != '.') <==> (p[k] != '.') {
      assert Lower(p)[k] == LowerChar(p[k]);
    }
  }

  lemma ExtLower(p: string)
    ensures Ext(Lower(p)) == Lower(Ext(p))
  {
    LastIndexLower(p, '/');
    LastIndexLower(p, '.');
    var sep, dot := LastIndex(p, '/'), LastIndex(p, '.');
    if dot > sep {
      DotsUnderLower(p, sep + 1, dot);
    }
    if Ext(p) != [] {
      LowerSuffix(p, dot);
    } else {
      assert Lower(Ext(p)) == [];
    }
  }

  /** Whether a name is accepted does not depend on the case of its letters. */
  lemma ValidateIgnoresCase(name: string)
    ensures ValidateUpload(Some(Lower(name))).Returned? <==> ValidateUpload(Some(name)).Returned?
  {
    ExtLower(name);
    assert Lower(Lower(name)) == Lower(name);
    assert Lower(Ext(Lower(name))) == Lower(Lower(Ext(name)));
    assert Lower(Lower(Ext(name))) == Lower(Ext(name));
  }

  lemma LastIndexAppend(a: string, b: string, c: char)
    requires c !in b
    ensures LastIndex(a + b, c) == LastIndex(a, c)
  {
    var r := LastIndex(a, c);
    forall k | r < k < |a + b| ensures (a + b)[k] != c {
      if k >= |a| {
        assert (a + b)[k] == b[k - |a|];
      } else {
        assert (a + b)[k] == a[k];
      }
    }
    if r >= 0 {
      assert (a + b)[r] == a[r];
    }
    LastIndexUnique(a + b, c, r);
  }

  /**
   * In any path, a last component made of a stem with some character other
   * than a dot, then `.` and a dot-free `x`, has the extension `.x`.
   */
  lemma ExtOfPath(dir: string, stem: string, x: string)
    requires '/' !in stem && '/' !in x && '.' !in x
    requires exists k :: 0 <= k < |stem| && stem[k] != '.'
    ensures Ext(dir + stem + "." + x) == "." + x
  {
    var p := dir + stem + "." + x;
    var dot := |dir| + |stem|;
    assert p == (dir + stem + ".") + x;
    LastIndexAppend(dir + stem + ".", x, '.');
    LastIndexUnique(dir + stem + ".", '.', dot);
    assert p == dir + (stem + "." + x);
    assert '/' !in stem + "." + x;
    LastIndexAppend(dir, stem + "." + x, '/');
    var sep := LastIndex(dir, '/');
    var k :| 0 <= k < |stem| && stem[k] != '.';
    assert p[|dir| + k] == stem[k];
    assert sep + 1 <= |dir| + k < dot;
    assert p[dot..] == "." + x;
  }

  /**
   * The converse: when everything in the last component before its last dot
   * is a dot (`..pdf`, `d/.pdf`), there is no extension.
   */
  lemma ExtOfDotsOnlyStem(dir: string, dots: string, x: string)
    requires dir == [] || dir[|dir| - 1] == '/'
    requires forall k :: 0 <= k < |dots| ==> dots[k] == '.'
    requires '/' !in x && '.' !in x
    ensures Ext(dir + dots + "." + x) == ""
  {
    var p := dir + dots + "." + x;
    var dot := |dir| + |dots|;
    assert p == (dir + dots + ".") + x;
    LastIndexAppend(dir + dots + ".", x, '.');
    LastIndexUnique(dir + dots + ".", '.', dot);
    assert p == dir + (dots + "." + x);
    assert '/' !in dots + "." + x;
    LastIndexAppend(dir, dots + "." + x, '/');
    LastIndexUnique(dir, '/', |dir| - 1);
    forall k | |dir| <= k < dot ensures p[k] == '.' {
      assert p[k] == dots[k - |dir|];
    }
  }

  /** A name without any dot has no extension. */
  lemma ExtWithoutDot(p: string)
    requires '.' !in p
    ensures Ext(p) == ""
  {
  }

  /** An upper-case extension is accepted, and reported in lower case. */
  lemma UpperCaseExtensionAccepted()
    ensures ValidateUpload(Some("report.PDF")) == Returned(".pdf")
  {
    assert "report"[0] != '.';
    ExtOfPath("", "report", "PDF");
    assert "" + "report" + "." + "PDF" == "report.PDF";
    assert Lower(".PDF") == ".pdf";
  }

  /** Only the last suffix counts. */
  lemma ExtOfDoubleSuffix()
    ensures Ext("a.tar.pdf") == ".pdf"
  {
    LastIndexUnique("a.tar.pdf", '/', -1);
    LastIndexUnique("a.tar.pdf", '.', 5);
    assert "a.tar.pdf"[0] != '.';
    assert "a.tar.pdf"[5..] == ".pdf";
  }

  /** A leading dot does not start a suffix: `.pdf` has none and is refused. */
  lemma ExtOfHiddenFile()
    ensures Ext(".pdf") == ""
  {
    LastIndexUnique(".pdf", '/', -1);
    LastIndexUnique(".pdf", '.', 0);
  }

  /** A dot in a directory name is not a suffix of the file. */
  lemma ExtOfDottedDirectory()
    ensures Ext("d.pdf/x") == ""
  {
    LastIndexUnique("d.pdf/x", '/', 5);
    LastIndexUnique("d.pdf/x", '.', 1);
  }

  /** Errors other than HTTP errors become a 500; HTTP errors pass through. */
  function AsHttpFailure(f: Failure): (g: Failure)
    ensures g.HttpError?
    ensures f.HttpError? ==> g == f
  {
    if f.HttpError? then f
    else HttpError(HTTP_500_INTERNAL_SERVER_ERROR, "Unexpected error during document ingestion: ", Some(f))
  }

  /** What `ingest_document_endpoint` returns or raises. */
  function EndpointOutcome(engineId: string, dataStoreId: string, file: UploadFile, timestamp: nat,
                           rp: IngestionReplies): (r: Result<IngestResponse>)
    ensures ValidateUpload(file.filename).Raised? ==> r == Raised(ValidateUpload(file.filename).failure)
    ensures ValidateUpload(file.filename).Returned? ==> r == IngestionOutcome(engineId, dataStoreId, file, timestamp, rp)
    ensures r.Raised? ==> r.failure.HttpError?
  {
    match ValidateUpload(file.filename)
    case Raised(f) => Raised(f)
    case Returned(_) =>
      match IngestionOutcome(engineId, dataStoreId, file, timestamp, rp)
      case Returned(response) => Returned(response)
      case Raised(f) => Raised(AsHttpFailure(f))
  }

  /** `ingest_document_endpoint` */
  method IngestDocumentEndpoint(cloud: Services, projectId: string, location: string, dataStoreId: string,
                                engineId: string, file: UploadFile, timestamp: nat, rp: IngestionReplies)
    returns (r: Result<IngestResponse>)
    modifies cloud
    ensures r == EndpointOutcome(engineId, dataStoreId, file, timestamp, rp)
    // a refused upload never reaches the remote services
    ensures ValidateUpload(file.filename).Raised? ==> cloud.requests == old(cloud.requests)
    ensures ValidateUpload(file.filename).Returned? ==>
              cloud.requests == old(cloud.requests) +
                                IngestionRequests(engineId, dataStoreId, location, file, timestamp, rp)
    ensures cloud.dataStores == old(cloud.dataStores) && cloud.engines == old(cloud.engines)
    ensures ValidateUpload(file.filename).Raised? ==> cloud.buckets == old(cloud.buckets) && cloud.blobs == old(cloud.blobs)
    // an accepted upload changes buckets and blobs as `ingestion` does
    ensures ValidateUpload(file.filename).Returned? ==>
              cloud.buckets ==
                if IssuesBucketCreate(rp.bucket) && rp.bucket.create.Ok?
                then old(cloud.buckets)[BucketName(engineId, dataStoreId) := BucketLocation(location)]
                else old(cloud.buckets)
    ensures ValidateUpload(file.filename).Returned? ==>
              cloud.blobs ==
                if ReachesImport(engineId, dataStoreId, file, rp)
                then old(cloud.blobs)[(BucketName(engineId, dataStoreId), BlobName(timestamp, FilenameText(file.filename)))
                                      := file.content]
                else old(cloud.blobs)
  {
    var checked := ValidateUpload(file.filename);
    if checked.Raised? {
      return Raised(checked.failure);
    }
    var result := Ingestion(cloud, projectId, location, engineId, dataStoreId, file, timestamp, rp);
    match result {
      case Returned(response) => r := Returned(response);
      case Raised(f) => r := Raised(AsHttpFailure(f));
    }
  }
}
