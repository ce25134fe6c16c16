/**
 * Request orchestration (the handlers and upstream functions of
 * src/main.rs).
 *
 * The remote NCBI service is an oracle from a URL to either a response
 * body or the text of a transport error; decoding an esearch body into
 * its identifier list is an oracle from a body to either the list or the
 * text of a decoding error. Each upstream operation reports its result
 * together with the URLs it requested, in order.
 */
module Gateway {
  import opened Wrappers
  import opened Errors
  import opened Api
  import opened RateLimit

  /** `fetch_api_response`: a URL's body, or the text of the error that fetching it raised. */
  type Remote = string -> Result<string, string>
  /** Decoding an esearch body into its identifier list, or the decoder's error text. */
  type IdListParser = string -> Result<seq<string>, string>

  /** An upstream operation's outcome (error as text) and the URLs it requested, in order. */
  datatype Traced<T> = Traced(result: Result<T, string>, requested: seq<string>)

  /** The JSON object `fetch_details` answers with: both bodies, verbatim. */
  datatype Details = Details(genbank: string, fasta: string)

  const OrganismField: string := "Organism"
  const AuthorField: string := "Author"
  const GenBankFormat: string := "gb"
  const FastaFormat: string := "fasta"

  /**
   * The common body of `search_by_genus` and `search_by_author`: one
   * esearch request, then decoding of its body. The query is sent as it
   * is, the empty query included.
   */
  function Search(query: string, field: string, remote: Remote, parse: IdListParser): (o: Traced<seq<string>>)
    ensures o.requested == [EsearchUrl(query, field)]
    ensures remote(EsearchUrl(query, field)).Err? ==> o.result == Err(remote(EsearchUrl(query, field)).error)
    ensures remote(EsearchUrl(query, field)).Ok? ==> o.result == parse(remote(EsearchUrl(query, field)).value)
  {
    var url := EsearchUrl(query, field);
    match remote(url)
    case Err(e) => Traced(Err(e), [url])
    case Ok(body) => Traced(parse(body), [url])
  }

  /** `search_by_genus`: search the Organism field. */
  function SearchByGenus(query: string, remote: Remote, parse: IdListParser): (o: Traced<seq<string>>)
    ensures o.requested == [EsearchUrl(query, "Organism")]
    ensures o.result.Ok? <==>
      remote(EsearchUrl(query, "Organism")).Ok? && parse(remote(EsearchUrl(query, "Organism")).value).Ok?
    ensures remote(EsearchUrl(query, "Organism")).Err? ==> o.result == Err(remote(EsearchUrl(query, "Organism")).error)
    ensures remote(EsearchUrl(query, "Organism")).Ok? ==> o.result == parse(remote(EsearchUrl(query, "Organism")).value)
  {
    Search(query, OrganismField, remote, parse)
  }

  /** `search_by_author`: search the Author field. */
  function SearchByAuthor(query: string, remote: Remote, parse: IdListParser): (o: Traced<seq<string>>)
    ensures o.requested == [EsearchUrl(query, "Author")]
    ensures o.result.Ok? <==>
      remote(EsearchUrl(query, "Author")).Ok? && parse(remote(EsearchUrl(query, "Author")).value).Ok?
    ensures remote(EsearchUrl(query, "Author")).Err? ==> o.result == Err(remote(EsearchUrl(query, "Author")).error)
    ensures remote(EsearchUrl(query, "Author")).Ok? ==> o.result == parse(remote(EsearchUrl(query, "Author")).value)
  {
    Search(query, AuthorField, remote, parse)
  }

  /**
   * `fetch_details`: fetch the GenBank record, then the FASTA record, of
   * one identifier. The first failure ends the operation, so the FASTA
   * request is made only after the GenBank one succeeded.
   */
  function FetchDetails(id: string, remote: Remote): (o: Traced<Details>)
    ensures 1 <= |o.requested| <= 2
    ensures o.requested[0] == EfetchUrl(id, "gb")
    ensures |o.requested| == 2 <==> remote(EfetchUrl(id, "gb")).Ok?
    ensures |o.requested| == 2 ==> o.requested[1] == EfetchUrl(id, "fasta")
  {
    var genbankUrl := EfetchUrl(id, GenBankFormat);
    match remote(genbankUrl)
    case Err(e) => Traced(Err(e), [genbankUrl])
    case Ok(genbank) =>
      var fastaUrl := EfetchUrl(id, FastaFormat);
      match remote(fastaUrl)
      case Err(e) => Traced(Err(e), [genbankUrl, fastaUrl])
      case Ok(fasta) => Traced(Ok(Details(genbank, fasta)), [genbankUrl, fastaUrl])
  }

  /**
   * All or nothing: the fetch succeeds exactly when both requests do, its
   * result is then the two bodies unchanged, and otherwise it fails with
   * the error of the first request that failed.
   */
  lemma FetchDetailsAllOrNothing(id: string, remote: Remote)
    ensures FetchDetails(id, remote).result.Ok?
        <==> remote(EfetchUrl(id, "gb")).Ok? && remote(EfetchUrl(id, "fasta")).Ok?
    ensures FetchDetails(id, remote).result.Ok? ==>
      FetchDetails(id, remote).result.value
        == Details(remote(EfetchUrl(id, "gb")).value, remote(EfetchUrl(id, "fasta")).value)
    ensures remote(EfetchUrl(id, "gb")).Err? ==>
      FetchDetails(id, remote).result == Err(remote(EfetchUrl(id, "gb")).error)
    ensures remote(EfetchUrl(id, "gb")).Ok? && remote(EfetchUrl(id, "fasta")).Err? ==>
      FetchDetails(id, remote).result == Err(remote(EfetchUrl(id, "fasta")).error)
  {
  }

  /** An empty query or identifier is not rejected: the request is made all the same. */
  lemma EmptyInputIsForwarded(remote: Remote, parse: IdListParser)
    ensures SearchByGenus("", remote, parse).requested == [EsearchUrl("", "Organism")]
    ensures SearchByAuthor("", remote, parse).requested == [EsearchUrl("", "Author")]
    ensures FetchDetails("", remote).requested[0] == EfetchUrl("", "gb")
  {
  }

  /** The `map_err` of the handlers: an upstream error becomes `NcbiApiError` with its text. */
  function ToApiError<T>(r: Result<T, string>): (a: Result<T, ApiError>)
    ensures a.Ok? <==> r.Ok?
    ensures a.Ok? ==> a.value == r.value
    ensures a.Err? ==> a.error == NcbiApiError(r.error)
  {
    match r
    case Ok(v) => Ok(v)
    case Err(e) => Err(NcbiApiError(e))
  }

  /**
   * What a handler answers given the limiter's verdict and the upstream
   * operation it runs once admitted: a refusal answers
   * `RateLimitExceeded` with no upstream request made; an admission runs
   * the operation and maps its error to `NcbiApiError`.
   */
  predicate Guarded<T(==)>(verdict: Result<(), ApiError>, work: Traced<T>, r: Result<T, ApiError>, requested: seq<string>)
  {
    if verdict.Err? then r == Err(RateLimitExceeded) && requested == []
    else r == ToApiError(work.result) && requested == work.requested
  }

  /** `search_by_genus_handler`. */
  method SearchByGenusHandler(limiter: RateLimiter, peer: Option<string>, now: nat, query: string,
                              remote: Remote, parse: IdListParser)
    returns (r: Result<seq<string>, ApiError>, requested: seq<string>)
    requires limiter.Valid()
    modifies limiter
    ensures limiter.Valid()
    ensures limiter.store == Admission(old(limiter.store), ClientIdentity(peer), now).1
    ensures Guarded(Admission(old(limiter.store), ClientIdentity(peer), now).0,
                    SearchByGenus(query, remote, parse), r, requested)
    ensures r.Err? ==> r.error.NcbiApiError? || r.error.RateLimitExceeded?
  {
    var verdict := limiter.Admit(peer, now);
    if verdict.Err? {
      return Err(verdict.error), [];
    }
    var ids := SearchByGenus(query, remote, parse);
    r, requested := ToApiError(ids.result), ids.requested;
  }

  /** `search_by_author_handler`. */
  method SearchByAuthorHandler(limiter: RateLimiter, peer: Option<string>, now: nat, query: string,
                               remote: Remote, parse: IdListParser)
    returns (r: Result<seq<string>, ApiError>, requested: seq<string>)
    requires limiter.Valid()
    modifies limiter
    ensures limiter.Valid()
    ensures limiter.store == Admission(old(limiter.store), ClientIdentity(peer), now).1
    ensures Guarded(Admission(old(limiter.store), ClientIdentity(peer), now).0,
                    SearchByAuthor(query, remote, parse), r, requested)
    ensures r.Err? ==> r.error.NcbiApiError? || r.error.RateLimitExceeded?
  {
    var verdict := limiter.Admit(peer, now);
    if verdict.Err? {
      return Err(verdict.error), [];
    }
    var ids := SearchByAuthor(query, remote, parse);
    r, requested := ToApiError(ids.result), ids.requested;
  }

  /** `fetch_details_handler`. */
  method FetchDetailsHandler(limiter: RateLimiter, peer: Option<string>, now: nat, id: string, remote: Remote)
    returns (r: Result<Details, ApiError>, requested: seq<string>)
    requires limiter.Valid()
    modifies limiter
    ensures limiter.Valid()
    ensures limiter.store == Admission(old(limiter.store), ClientIdentity(peer), now).1
    ensures Guarded(Admission(old(limiter.store), ClientIdentity(peer), now).0,
                    FetchDetails(id, remote), r, requested)
    ensures r.Err? ==> r.error.NcbiApiError? || r.error.RateLimitExceeded?
  {
    var verdict := limiter.Admit(peer, now);
    if verdict.Err? {
      return Err(verdict.error), [];
    }
    var details := FetchDetails(id, remote);
    r, requested := ToApiError(details.result), details.requested;
  }

  /**
   * What a client of the details endpoint sees when the limiter refuses
   * or an upstream request fails: 429 "Rate limit exceeded", or 400 with
   * the upstream error text as the whole body.
   */
  lemma FetchDetailsFailureResponse(verdict: Result<(), ApiError>, id: string, remote: Remote,
                                    r: Result<Details, ApiError>, requested: seq<string>)
    requires verdict.Err? ==> verdict.error == RateLimitExceeded
    requires Guarded(verdict, FetchDetails(id, remote), r, requested)
    requires r.Err?
    ensures verdict.Err? ==> ErrorResponse(r.error) == Response(429, "Rate limit exceeded") && requested == []
    ensures verdict.Ok? && remote(EfetchUrl(id, "gb")).Err? ==>
      ErrorResponse(r.error) == Response(400, remote(EfetchUrl(id, "gb")).error) && |requested| == 1
    ensures verdict.Ok? && remote(EfetchUrl(id, "gb")).Ok? ==>
      ErrorResponse(r.error) == Response(400, remote(EfetchUrl(id, "fasta")).error) && |requested| == 2
  {
  }
}
