/**
 * Search reply shaping (`load_search_response`) and the stand-alone import
 * helper `ingest_documents_service`.
 */
module SearchService {
  import opened Errors
  import opened Remote
  import opened IngestionService

  datatype Citation = Citation(startIndex: int, endIndex: int, source: string)

  datatype ExtractiveAnswer = ExtractiveAnswer(pageNumber: string, content: string)

  datatype SearchResult = SearchResult(title: string, uri: string, extractiveAnswers: seq<ExtractiveAnswer>)

  datatype QueryResponse = QueryResponse(summary: string, results: seq<SearchResult>, citations: seq<Citation>)

  // ---- what the reply should contain ----

  /** Every hit of every page, in page order: iterating the pager itself. */
  function HitsOf(pages: seq<SearchPage>): seq<SearchHit>
  {
    if pages == [] then [] else HitsOf(pages[..|pages| - 1]) + pages[|pages| - 1].results
  }

  /** The summary of the first page, when there is a first page and it has one. */
  function FirstSummary(pages: seq<SearchPage>): Option<Summary>
  {
    if pages == [] then None else pages[0].summary
  }

  /** The API citations of the first page's summary, when present. */
  function ApiCitationsOf(pages: seq<SearchPage>): seq<ApiCitation>
  {
    match FirstSummary(pages)
    case Some(Summary(_, Some(SummaryMetadata(_, Some(cs))))) => cs
    case _ => []
  }

  /** The document of the first reference, or `""` when there is none. */
  function CitationSource(pages: seq<SearchPage>): string
  {
    match FirstSummary(pages)
    case Some(Summary(_, Some(meta))) => if meta.references != [] then meta.references[0] else ""
    case _ => ""
  }

  function ToAnswer(e: Extract): ExtractiveAnswer
  {
    ExtractiveAnswer(e.pageNumber.GetOr(""), e.content.GetOr(""))
  }

  function AnswersOf(extracts: Option<seq<Extract>>): seq<ExtractiveAnswer>
  {
    match extracts
    case None => []
    case Some(xs) => seq(|xs|, k requires 0 <= k < |xs| => ToAnswer(xs[k]))
  }

  /** One hit as a `SearchResult`: the title falls back to the document's name, the link to `""`. */
  function ResultOf(hit: SearchHit): SearchResult
  {
    SearchResult(hit.data.title.GetOr(hit.documentName), hit.data.link.GetOr(""), AnswersOf(hit.data.extractiveAnswers))
  }

  function ResultsOf(hits: seq<SearchHit>): seq<SearchResult>
  {
    seq(|hits|, k requires 0 <= k < |hits| => ResultOf(hits[k]))
  }

  /** The extractive segments are read but never reach the reply. */
  lemma ResultIgnoresSegments(hit: SearchHit, segments: Option<seq<Extract>>)
    ensures ResultOf(hit) == ResultOf(hit.(data := hit.data.(extractiveSegments := segments)))
  {
  }

  /** Results are listed across all pages, page after page. */
  lemma {:induction false} HitsOfAppend(pages: seq<SearchPage>, more: seq<SearchPage>)
    ensures HitsOf(pages + more) == HitsOf(pages) + HitsOf(more)
    decreases |more|
  {
    var all := pages + more;
    if more == [] {
      assert all == pages;
    } else {
      var init := more[..|more| - 1];
      assert all[..|all| - 1] == pages + init;
      assert all[|all| - 1] == more[|more| - 1];
      HitsOfAppend(pages, init);
    }
  }

  lemma HitsOfStep(pages: seq<SearchPage>, p: nat)
    requires p < |pages|
    ensures HitsOf(pages[..p + 1]) == HitsOf(pages[..p]) + pages[p].results
  {
    assert pages[..p + 1][..p] == pages[..p];
  }

  /** `load_search_response` */
  method LoadSearchResponse(pages: seq<SearchPage>) returns (resp: QueryResponse)
    // the summary text is the first page's, or empty
    ensures resp.summary == if FirstSummary(pages).Some? then FirstSummary(pages).value.summaryText else ""
    // one citation per API citation, same span, all attributed to the first reference
    ensures |resp.citations| == |ApiCitationsOf(pages)|
    ensures forall i :: 0 <= i < |resp.citations| ==>
              && resp.citations[i].startIndex == ApiCitationsOf(pages)[i].startIndex
              && resp.citations[i].endIndex == ApiCitationsOf(pages)[i].endIndex
              && resp.citations[i].source == CitationSource(pages)
    // one result per hit, across all pages, in order
    ensures |resp.results| == |HitsOf(pages)|
    ensures forall i :: 0 <= i < |resp.results| ==> resp.results[i] == ResultOf(HitsOf(pages)[i])
  {
    var results: seq<SearchResult> := [];
    var citations: seq<Citation> := [];
    var summaryText := "";

    var firstResponse := if pages == [] then None else Some(pages[0]);
    if firstResponse.Some? && firstResponse.value.summary.Some? {
      var summary := firstResponse.value.summary.value;
      summaryText := summary.summaryText;
      if summary.withMetadata.Some? {
        var summaryMeta := summary.withMetadata.value;
        var sourceDocuments := summaryMeta.references;
        if summaryMeta.citations.Some? {
          var apiCitations := summaryMeta.citations.value;
          var k := 0;
          while k < |apiCitations|
            invariant 0 <= k <= |apiCitations|
            invariant |citations| == k
            invariant forall i :: 0 <= i < k ==>
                        citations[i] == Citation(apiCitations[i].startIndex, apiCitations[i].endIndex,
                                                 CitationSource(pages))
          {
            var sourceId := if sourceDocuments != [] then sourceDocuments[0] else "";
            citations := citations + [Citation(apiCitations[k].startIndex, apiCitations[k].endIndex, sourceId)];
            k := k + 1;
          }
        }
      }
    }

    // every result of every page
    var p := 0;
    while p < |pages|
      invariant 0 <= p <= |pages|
      invariant results == ResultsOf(HitsOf(pages[..p]))
    {
      var pageResults := PageResults(pages[p].results);
      ResultsAppend(HitsOf(pages[..p]), pages[p].results);
      HitsOfStep(pages, p);
      results := results + pageResults;
      p := p + 1;
    }
    assert pages[..p] == pages;
    resp := QueryResponse(summaryText, results, citations);
  }

  lemma ResultsAppend(a: seq<SearchHit>, b: seq<SearchHit>)
    ensures ResultsOf(a + b) == ResultsOf(a) + ResultsOf(b)
  {
    assert forall i :: 0 <= i < |a| ==> (a + b)[i] == a[i];
    assert forall i :: |a| <= i < |a| + |b| ==> (a + b)[i] == b[i - |a|];
  }

  lemma ResultsStep(hits: seq<SearchHit>, j: nat)
    requires j < |hits|
    ensures ResultsOf(hits[..j + 1]) == ResultsOf(hits[..j]) + [ResultOf(hits[j])]
  {
    assert hits[..j + 1] == hits[..j] + [hits[j]];
    ResultsAppend(hits[..j], [hits[j]]);
  }

  /** The results of one page, in order. */
  method PageResults(hits: seq<SearchHit>) returns (results: seq<SearchResult>)
    ensures results == ResultsOf(hits)
  {
    results := [];
    var j := 0;
    while j < |hits|
      invariant 0 <= j <= |hits|
      invariant results == ResultsOf(hits[..j])
    {
      var result := ResultFor(hits[j]);
      ResultsStep(hits, j);
      results := results + [result];
      j := j + 1;
    }
    assert hits[..j] == hits;
  }

  /** The body of the loop over the results: one hit as a `SearchResult`. */
  method ResultFor(result: SearchHit) returns (res: SearchResult)
    ensures res == ResultOf(result)
  {
    var docData := result.data;

    var extractiveAnswers: seq<ExtractiveAnswer> := [];
    if docData.extractiveAnswers.Some? {
      var answers := docData.extractiveAnswers.value;
      var a := 0;
      while a < |answers|
        invariant 0 <= a <= |answers|
        invariant extractiveAnswers == seq(a, k requires 0 <= k < a => ToAnswer(answers[k]))
      {
        extractiveAnswers := extractiveAnswers +
          [ExtractiveAnswer(answers[a].pageNumber.GetOr(""), answers[a].content.GetOr(""))];
        a := a + 1;
      }
    }

    var extractiveSegments: seq<ExtractiveAnswer> := [];
    if docData.extractiveSegments.Some? {
      var segments := docData.extractiveSegments.value;
      var s := 0;
      while s < |segments|
        invariant 0 <= s <= |segments|
        invariant extractiveSegments == seq(s, k requires 0 <= k < s => ToAnswer(segments[k]))
      {
        extractiveSegments := extractiveSegments +
          [ExtractiveAnswer(segments[s].pageNumber.GetOr(""), segments[s].content.GetOr(""))];
        s := s + 1;
      }
    }

    res := SearchResult(docData.title.GetOr(result.documentName), docData.link.GetOr(""), extractiveAnswers);
  }

  // ---- ingest_documents_service ----

  /** `IngestResponse` as first declared: the counts and the operation name. */
  datatype CountsResponse = CountsResponse(successCount: nat, failureCount: nat, operationName: Option<string>)

  /** The fields the final `IngestResponse` requires that `ingest_documents_service` does not pass. */
  const MissingIngestFields: seq<string> := ["bucket_name", "gcs_uri", "message"]

  /**
   * `ingest_documents_service` as written: it passes only the counts and the
   * operation name to `IngestResponse`, whose final declaration also requires
   * `bucket_name`, `gcs_uri` and `message`, so after a successful import the
   * constructor raises a validation error. Import errors propagate unwrapped.
   */
  function IngestDocumentsServiceAsWritten(reply: Reply<ImportMetadata>): (r: Result<CountsResponse>)
    ensures r.Raised?
    ensures reply.Ok? ==> r == Raised(ValidationError(MissingIngestFields))
    ensures reply.Fail? ==> r == Raised(Remote(reply.error))
  {
    match reply
    case Ok(_) => Raised(ValidationError(MissingIngestFields))
    case Fail(e) => Raised(Remote(e))
  }

  /** Even a fully successful import gives the caller no response. */
  lemma AsWrittenLosesSuccessfulImport()
    ensures IngestDocumentsServiceAsWritten(Ok(ImportMetadata(1, 0, "operations/import-1"))) ==
              Raised(ValidationError(["bucket_name", "gcs_uri", "message"]))
  {
  }

  /** `ingest_documents_service` as evidently intended: the counts, with the operation name only after failures. */
  function IngestDocumentsService(reply: Reply<ImportMetadata>): (r: Result<CountsResponse>)
    ensures r.Returned? <==> reply.Ok?
    ensures r.Returned? ==> && r.value.successCount == reply.value.successCount
                            && r.value.failureCount == reply.value.failureCount
                            && (r.value.operationName.Some? <==> reply.value.failureCount > 0)
                            && (r.value.operationName.Some? ==> r.value.operationName.value == reply.value.operationName)
    ensures reply.Fail? ==> r == Raised(Remote(reply.error))
  {
    match reply
    case Ok(m) => Returned(CountsResponse(m.successCount, m.failureCount, OperationNameFor(m.failureCount, m.operationName)))
    case Fail(e) => Raised(Remote(e))
  }

  /** The corrected helper reports the same counts as the import step of `ingestion`. */
  lemma IngestDocumentsServiceAgreesWithImport(reply: Reply<ImportMetadata>)
    ensures IngestDocumentsService(reply).Returned? <==> ImportOutcome(reply).Returned?
    ensures IngestDocumentsService(reply).Returned? ==>
              var c, i := IngestDocumentsService(reply).value, ImportOutcome(reply).value;
              c.successCount == i.successCount && c.failureCount == i.failureCount && c.operationName == i.operationName
  {
  }
}
