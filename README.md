# flora_genetics gateway — a Dafny model

This project models the core of a small HTTP gateway written in Rust. The
gateway takes three kinds of request: search nucleotide records by genus,
search them by author, and fetch one record's details. It answers them by
calling the NCBI E-utilities service. Each client gets a fixed-window rate
limit.

The model covers four parts:

- **Rate limiter** (`ratelimit.dfy`, module `RateLimit`). This is the
  gateway's only state: a table from client identity to
  `(window start, count)`.
  - The class `RateLimiter` holds the table as a `map` field. Its method
    `Admit` updates the table in place. `Admit` is proved against the pure
    step function `Admission`.
  - Lemmas about `Admission` state the admission, reset, refusal and
    isolation rules.
  - `Run` replays a serialised sequence of calls. Lemmas about `Run` state
    that a window admits at most ten requests, that a fresh burst admits
    exactly `min(n, 10)`, and that identities are isolated from each other.
- **Orchestration** (`gateway.dfy`, module `Gateway`).
  - The two searches and the detail fetch are pure functions over an
    abstract remote service. Each one records the URLs it requests.
  - The three HTTP handlers are methods. Each runs the limiter first, then
    the upstream work, and maps upstream errors to `NcbiApiError`.
- **Errors** (`errors.dfy`, module `Errors`). This holds the four-variant
  `ApiError`, its display text, and its mapping to an HTTP status and body.
- **URL builders and command line** (`api.dfy` as `Api`, `cli.dfy` as
  `CommandLine`). These are the two E-utilities URL templates and
  `Cli::new`. `CommandLine.New` takes the argument vector as a parameter.

`wrappers.dfy` defines `Option` and `Result`.

Modelling choices:
- The wall clock is a parameter `now`: a whole number of nanoseconds.
  `Duration` compares at nanosecond resolution, so the window is
  `60 * 10^9`.
- A clock that has gone backwards reads as zero elapsed time, as
  `elapsed().unwrap_or(0)` does.
- The global `Mutex` makes each limiter call atomic. Each call is
  therefore one `Admission` step, and concurrent requests form a sequence
  of steps in some order (`Run`).

Behaviours of the code worth stating plainly:
- No empty query or identifier is rejected. `InvalidInput` is never
  constructed (`Gateway.EmptyInputIsForwarded`, and the handlers' last
  `ensures`).
- `fetch_details` requests the GenBank record first and then the FASTA
  record, in sequence, not concurrently. The FASTA request is never made
  when the GenBank request fails.
- A request exactly 60 seconds after the window began is still inside the
  window. Only a strictly longer gap resets it
  (`RateLimit.SixtySecondsIsInsideWindow`).
- A client is identified by the IP of its peer address, without the port,
  so every connection from one host shares one bucket.

## Model

| member | source | states |
|---|---|---|
| `Errors.Display` | src/errors.rs:4-16 | an upstream error displays as "NCBI API request failed: " followed by its message, an invalid input as "Invalid input: " followed by its message; the other two display fixed texts |
| `Errors.ErrorResponse` | src/errors.rs:19-28 | every variant is mapped; the status is 400, 429 or 500; 400 exactly for the two message variants, 429 exactly for RateLimitExceeded, 500 exactly for InternalError; the 400 body is the bare message; the fixed bodies are "Rate limit exceeded" and "Internal server error" |
| `Errors.BodyIsDisplayWithoutPrefix` | src/errors.rs:6-25 | the rendered body is the display text with the variant's prefix removed, so a 400 body never equals the display text |
| `Errors.DisplayIsInjective` | src/errors.rs:6-16 | two errors that display the same text are the same error |
| `Errors.ResponseConflatesUpstreamAndInput` | src/errors.rs:22-23 | an upstream error and an invalid input carrying the same message render identical responses |
| `Api.EsearchUrl` | src/api.rs:6-11 | the esearch URL starts with the esearch endpoint on nuccore (`.../eutils/esearch.fcgi?db=nuccore&term=`) and ends with "&retmode=json"; its length is 90 plus the argument lengths; the query, then "[", the field and "]" appear verbatim at fixed offsets, which fixes every character |
| `Api.EfetchUrl` | src/api.rs:14-19 | the efetch URL starts with the efetch endpoint on nuccore (`.../eutils/efetch.fcgi?db=nuccore&id=`) and ends with "&retmode=json"; its length is 94 plus the argument lengths; the id, "&rettype=" and the format appear verbatim at fixed offsets, which fixes every character |
| `Api.EsearchIsAmbiguous` | src/api.rs:7-10 | with no escaping, the query "a[b" with field "c" and the query "a" with field "b[c" build the same URL |
| `Api.EfetchDeterminesArguments` | src/api.rs:14-19 | given formats of equal length, equal efetch URLs have equal ids and formats |
| `Api.FetchFormatsUseDistinctUrls` | src/main.rs:89-93 | the GenBank and FASTA requests for one id go to different URLs |
| `CommandLine.New` | src/cli.rs:9-18 | the result is an error exactly when fewer than three arguments are given, and the error is the fixed usage text; otherwise the search type is the second argument and the query the third |
| `CommandLine.OnlySecondAndThirdMatter` | src/cli.rs:14-17 | the program name and any arguments after the third do not change the result |
| `CommandLine.SearchTypeIsUnchecked` | src/cli.rs:14-17 | any search type is accepted, not only "genus" or "author" |
| `RateLimit.ClientIdentity` | src/main.rs:23-26 | a request is counted under the IP of its peer address (port dropped), or under the shared identity "unknown" when no peer address is available |
| `RateLimit.Elapsed` | src/main.rs:32 | elapsed time is `now - start`, or zero when the clock has gone backwards |
| `RateLimit.Admission` | src/main.rs:28-46 | the only refusal is RateLimitExceeded, and a refusal leaves the table unchanged; the caller's identity is in the table afterwards; no other identity's entry changes; a window start changes only by a reset to `(now, 1)`; all counts stay between 1 and 10 |
| `RateLimit.UnseenIdentityAdmitted` | src/main.rs:30-43 | an identity not in the table is admitted and its entry becomes `(now, 1)` |
| `RateLimit.ExpiredWindowResets` | src/main.rs:34-37 | more than 60 s after the window began, the request is admitted and the entry reset to `(now, 1)`, whatever the old count |
| `RateLimit.SixtySecondsIsInsideWindow` | src/main.rs:34 | exactly 60 s after the window began, a full window still refuses |
| `RateLimit.FullWindowRefuses` | src/main.rs:38-40 | inside the window with a count of 10 or more, the request is refused and the table is unchanged |
| `RateLimit.OpenWindowCounts` | src/main.rs:41-43 | inside the window with a count under 10, the request is admitted, the count rises by one and the window start is kept |
| `RateLimit.BackwardsClockIsInsideWindow` | src/main.rs:32 | when the clock reads earlier than the window start, admission depends only on the count |
| `RateLimit.RateLimiter.constructor` | src/main.rs:17-19 | the limiter starts with an empty table |
| `RateLimit.RateLimiter.Admit` | src/main.rs:22-47 | the verdict and the new table are those of `Admission` for the request's identity; the 1..10 count invariant is kept |
| `RateLimit.Run` | src/main.rs:28-44 | a sequence of calls yields one verdict per call, every refusal is RateLimitExceeded, and every count stays between 1 and 10 |
| `RateLimit.RunInsideWindow` | src/main.rs:34-43 | for calls from one identity inside its window, call i is admitted exactly when `count + i < 10`; the number admitted is `min(n, 10 - count)`; the entry ends at `min(10, count + n)` with the same window start |
| `RateLimit.FreshBurstAdmitsCeiling` | src/main.rs:28-43 | n calls from a new identity inside one window admit exactly `min(n, 10)` and refuse the rest (fifty calls: ten admitted, forty refused) |
| `RateLimit.IdentitiesAreIsolated` | src/main.rs:28-44 | the verdicts an identity receives, and its final entry, are the same with or without other identities' calls interleaved |
| `Gateway.Search` | src/main.rs:71-84 | one esearch request for the query and field; a transport error is returned as is; otherwise the decoded body is the result |
| `Gateway.SearchByGenus` | src/main.rs:71-76 | requests only the esearch URL for the Organism field; succeeds exactly when the request and the decoding both succeed; on success the result is the decoded id list; a transport error is returned with its text, a decoding error with the decoder's text |
| `Gateway.SearchByAuthor` | src/main.rs:79-84 | requests only the esearch URL for the Author field; succeeds exactly when the request and the decoding both succeed; on success the result is the decoded id list; a transport error is returned with its text, a decoding error with the decoder's text |
| `Gateway.FetchDetails` | src/main.rs:87-102 | the GenBank URL is requested first; the FASTA URL is requested second, and only when the GenBank request succeeded |
| `Gateway.FetchDetailsAllOrNothing` | src/main.rs:87-101 | the fetch succeeds exactly when both requests succeed, with both bodies unchanged; otherwise it fails with the first failing request's error and returns no partial result |
| `Gateway.EmptyInputIsForwarded` | src/main.rs:71-94 | an empty query or id is still sent upstream |
| `Gateway.ToApiError` | src/main.rs:52 | successes pass through unchanged; an upstream error text becomes `NcbiApiError` with that text |
| `Gateway.SearchByGenusHandler` | src/main.rs:50-54 | the limiter runs first; a refusal answers RateLimitExceeded with no upstream request; otherwise the genus search runs and its error becomes NcbiApiError; no other error arises |
| `Gateway.SearchByAuthorHandler` | src/main.rs:57-61 | the same, for the author search |
| `Gateway.FetchDetailsHandler` | src/main.rs:64-68 | the same, for the detail fetch |
| `Gateway.FetchDetailsFailureResponse` | src/main.rs:64-68 | a refused details request renders 429 "Rate limit exceeded" with no upstream request; a failed GenBank or FASTA request renders 400 whose body is that request's error text |

## Left out

- Actix server setup, routing, binding and logging (src/main.rs:104-119). This is framework plumbing.
- The success response (`HttpResponse::Ok().json(...)`, status 200 with a JSON body) is not modelled. The handlers return the value that would be serialised.
- `fetch_api_response` (src/api.rs:22-26) performs network I/O. It is the `Gateway.Remote` oracle, a fixed function from URL to body or error text. Each operation requests a given URL at most once, so nothing depends on repeated calls returning different answers. `reqwest::get` fails only on transport errors: an upstream 4xx or 5xx answer comes back as a successful body, and the model, like the code, passes it on as a success.
- JSON decoding of esearch bodies with serde (src/main.rs:74, 82) and the structs of src/models.rs are represented by the `Gateway.IdListParser` oracle. `Box<dyn Error>::to_string` is represented by the error texts the two oracles return.
- `Mutex`, `lazy_static` and async/await. Each `Admit` is atomic, each handler runs sequentially, and lock poisoning (`lock().unwrap()`) is not modelled.
- `SystemTime::now()` is read up to three times within one source call. The model uses one clock reading per call.
- `env::args()` collection (src/cli.rs:10). The argument sequence is a parameter.
- The 32-bit width of the stored count (`u32`) is not modelled. No wrap-around can happen, because a count never exceeds 10 (`WellFormed`).
