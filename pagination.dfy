/**
 * The pagination engine of the ConceptNet client (`PaginationHandler`).
 *
 * A ConceptNet page is a JSON-LD dict with an `@id`, a list of items under
 * its "paginated property" (`edges` unless the view names another) and an
 * optional `view` dict holding `@id`, `nextPage`, `previousPage` and
 * `paginatedProperty`.  The handler validates the first page, walks the
 * chain of `nextPage` links, fetches the pages it found, and merges them
 * into one document; a streaming variant follows the chain page by page.
 *
 * HTTP is an oracle: the reply to a request depends on the URL and on how
 * many requests the run has made before it, so a page can fail and then
 * succeed on a retry.  Sleeps are recorded, in milliseconds, not taken.
 */
module Pagination {
  import opened JsonValues
  import opened Strings
  import opened Errors

  // ---------------------------------------------------------------------
  // The network
  // ---------------------------------------------------------------------

  /** What one `client.get(url)` followed by `raise_for_status()` and
    * `response.json()` produces. */
  datatype Reply =
    | Page(doc: Json)          // a success status and a body that decodes as JSON
    | Status(code: int)        // raise_for_status raised HTTPStatusError
    | Timeout                  // httpx.ConnectTimeout or httpx.ReadTimeout
    | Failure(reason: string)  // any other exception, `str(e)` being the reason

  /** The reply to a request for `url` that is the n-th request of the run. */
  type Answer = (Json, nat) -> Reply

  /** What a run did to the outside world: the URLs it requested, in order,
    * and the sleeps it took, in milliseconds. */
  datatype Log = Log(requests: seq<Json>, sleeps: seq<int>)

  /** The HTTP client and the event loop's clock, as seen by the handler. */
  class Transport {
    const answer: Answer
    var log: Log

    constructor (answer: Answer)
      ensures this.answer == answer && log == Log([], [])
    {
      this.answer := answer;
      log := Log([], []);
    }

    /** One GET request. */
    method Get(url: Json) returns (r: Reply)
      modifies this
      ensures r == answer(url, |old(log.requests)|)
      ensures log == old(log).(requests := old(log.requests) + [url])
    {
      r := answer(url, |log.requests|);
      log := log.(requests := log.requests + [url]);
    }

    /** `await asyncio.sleep(ms / 1000)`. */
    method Sleep(ms: int)
      modifies this
      ensures log == old(log).(sleeps := old(log.sleeps) + [ms])
    {
      log := log.(sleeps := log.sleeps + [ms]);
    }
  }

  // ---------------------------------------------------------------------
  // Configuration and pagination metadata
  // ---------------------------------------------------------------------

  /** The handler's settings; the request timeout and the memory warning
    * threshold play no part in what the model computes. */
  datatype Config = Config(maxConcurrent: int, maxPages: Option<int>, delayMs: int, maxRetries: int)

  /** max_concurrent_requests=3, max_pages=None, inter_request_delay=0.1 s,
    * max_retries_per_page=2. */
  const DefaultConfig := Config(3, None, 100, 2)

  /** `self.max_pages` is truthy: None and 0 both mean "no bound". */
  predicate Bounded(cfg: Config)
  {
    cfg.maxPages.Some? && cfg.maxPages.value != 0
  }

  /** The metadata `detect_pagination_info` derives from one page. */
  datatype PaginationInfo = PaginationInfo(
    currentPageId: Json,
    nextPageUrl: Json,
    previousPageUrl: Json,
    paginatedProperty: Json,
    hasPagination: bool,
    estimatedTotalPages: Option<int>,
    currentPageSize: nat)

  /** `response.get('view', {})` for a dict `response`. */
  function ViewOf(response: Json): Json
  {
    FieldOr(response, "view", Obj(map[]))
  }

  /** `view.get('paginatedProperty', 'edges')` for a dict `view`. */
  function PropertyName(view: Json): Json
  {
    FieldOr(view, "paginatedProperty", Str("edges"))
  }

  /** `response.get(pp, [])`: TypeError for a non-dict response or an
    * unhashable key; a dict's keys are strings, so no other key is found. */
  function PropertyValue(response: Json, pp: Json): Result<Json>
  {
    if !response.Obj? || !Hashable(pp) then Err(TypeErr)
    else if pp.Str? then Ok(FieldOr(response, pp.s, Arr([])))
    else Ok(Arr([]))
  }

  /** `len(response.get(pp, []))`. */
  function PageSize(response: Json, pp: Json): Result<nat>
  {
    match PropertyValue(response, pp)
    case Err(e) => Err(e)
    case Ok(v) =>
      match Len(v)
      case Some(n) => Ok(n)
      case None => Err(TypeErr)
  }

  // ---------------------------------------------------------------------
  // The query string of a page URL (urlparse + parse_qs)
  // ---------------------------------------------------------------------

  /** The characters urlsplit strips from the front of a URL. */
  predicate IsC0OrSpace(c: char)
  {
    c as int <= 0x20
  }

  /** The characters urlsplit deletes anywhere in a URL. */
  predicate IsKeptInUrl(c: char)
  {
    c != '\t' && c != '\r' && c != '\n'
  }

  /** The query component urlsplit finds: after stripping, the text after
    * the first `?` of what precedes the first `#`.  The scheme and the
    * network location never hold a `?` or a `#`, so they need not be
    * split off first. */
  function UrlQuery(url: string): string
  {
    var cleaned := Filter(LStripBy(url, IsC0OrSpace), IsKeptInUrl);
    var beforeFragment := Split(cleaned, '#')[0];
    var pieces := Split(beforeFragment, '?');
    if |pieces| == 1 then "" else Join(pieces[1..], '?')
  }

  /** One `&`-separated piece as parse_qsl reads it: a piece without `=`
    * or with an empty value is dropped; `+` reads as a space and
    * percent-escapes are decoded, in the name and in the value. */
  function QueryPair(piece: string): Option<(string, string)>
  {
    var nv := Split(piece, '=');
    if |nv| == 1 then None
    else
      var value := Join(nv[1..], '=');
      if value == "" then None
      else Some((Unquote(ReplaceChar(nv[0], '+', ' ')), Unquote(ReplaceChar(value, '+', ' '))))
  }

  /** `parse_qs(query)[key][0]`: the value of the first piece named `key`. */
  function QueryValue(pieces: seq<string>, key: string): Option<string>
  {
    if pieces == [] then None
    else
      var pair := QueryPair(pieces[0]);
      if pair.Some? && pair.value.0 == key then Some(pair.value.1)
      else QueryValue(pieces[1..], key)
  }

  /** `int(parse_qs(query).get(key, [default])[0])`; None where `int()`
    * raises ValueError. */
  function QueryInt(query: string, key: string, default: int): Option<int>
  {
    match QueryValue(Split(query, '&'), key)
    case None => Some(default)
    case Some(text) => ParseInt(text)
  }

  /** The offset and limit that `estimate_total_pages` reads from a page
    * URL, defaulting to 0 and 20. */
  function OffsetLimit(url: string): Option<(int, int)>
  {
    var query := UrlQuery(url);
    var offset := QueryInt(query, "offset", 0);
    var limit := QueryInt(query, "limit", 20);
    if offset.Some? && limit.Some? then Some((offset.value, limit.value)) else None
  }

  // ---------------------------------------------------------------------
  // Inspecting one page
  // ---------------------------------------------------------------------

  /** estimate_total_pages: the page number `offset // limit + 1` when the
    * view's `@id` carries an offset and a limit and the page holds fewer
    * items than the limit (the page is the last one); None when the
    * number cannot be told.  ValueError from `int()` reads as None; the
    * TypeError of a non-dict response or view, or of a non-string `@id`,
    * escapes. */
  function EstimateTotalPages(response: Json): (r: Result<Option<int>>)
    ensures r.Ok? ==> response.Obj? && ViewOf(response).Obj?
    ensures r.Ok? && r.value.Some? ==>
      var id := FieldOr(ViewOf(response), "@id", Str(""));
      && id.Str? && id.s != ""
      && OffsetLimit(id.s).Some?
      && var (offset, limit) := OffsetLimit(id.s).value;
      && PageSize(response, PropertyName(ViewOf(response))).Ok?
      && 0 <= PageSize(response, PropertyName(ViewOf(response))).value < limit
      && r.value.value == offset / limit + 1
    ensures response.Obj? && ViewOf(response).Obj? ==>
      var id := FieldOr(ViewOf(response), "@id", Str(""));
      id.Str? && id.s != "" && OffsetLimit(id.s).Some? ==>
        var (offset, limit) := OffsetLimit(id.s).value;
        var size := PageSize(response, PropertyName(ViewOf(response)));
        size.Ok? && size.value < limit ==> r == Ok(Some(offset / limit + 1))
    ensures response.Obj? && ViewOf(response).Obj? && !Truthy(FieldOr(ViewOf(response), "@id", Str(""))) ==>
      r == Ok(None)
    ensures response.Obj? && ViewOf(response).Obj? ==>
      var id := FieldOr(ViewOf(response), "@id", Str(""));
      id.Str? && id.s != "" ==>
        && (OffsetLimit(id.s).None? ==> r == Ok(None))
        && (OffsetLimit(id.s).Some? ==>
              var size := PageSize(response, PropertyName(ViewOf(response)));
              && (size.Err? ==> r == Err(size.error))
              && (size.Ok? && size.value >= OffsetLimit(id.s).value.1 ==> r == Ok(None)))
  {
    if !response.Obj? then Err(TypeErr)
    else
      var view := ViewOf(response);
      if !view.Obj? then Err(TypeErr)
      else
        var id := FieldOr(view, "@id", Str(""));
        if !Truthy(id) then Ok(None)
        else if !id.Str? then Err(TypeErr)
        else
          match OffsetLimit(id.s)
          case None => Ok(None)
          case Some((offset, limit)) =>
            match PageSize(response, PropertyName(view))
            case Err(e) => Err(e)
            case Ok(size) => if size < limit then Ok(Some(offset / limit + 1)) else Ok(None)
  }

  /** detect_pagination_info.  A page whose view is missing or empty (any
    * falsy view) is not paginated; otherwise it is paginated exactly when
    * it links to a next or a previous page. */
  function DetectPaginationInfo(response: Json): (r: Result<PaginationInfo>)
    ensures !response.Obj? ==> r == Err(TypeErr)
    ensures r.Err? ==> r.error == TypeErr
    ensures response.Obj? && !Truthy(ViewOf(response)) ==>
      r == Ok(PaginationInfo(FieldOr(response, "@id", Str("")), Null, Null, Str("edges"), false, None, 0))
    ensures r.Ok? ==>
      (r.value.hasPagination <==> Truthy(r.value.nextPageUrl) || Truthy(r.value.previousPageUrl))
    ensures r.Ok? && Truthy(ViewOf(response)) ==>
      var view := ViewOf(response);
      && view.Obj?
      && r.value.currentPageId == FieldOr(view, "@id", FieldOr(response, "@id", Str("")))
      && r.value.nextPageUrl == Field(view, "nextPage")
      && r.value.previousPageUrl == Field(view, "previousPage")
      && r.value.paginatedProperty == PropertyName(view)
      && EstimateTotalPages(response) == Ok(r.value.estimatedTotalPages)
      && PageSize(response, PropertyName(view)) == Ok(r.value.currentPageSize)
  {
    if !response.Obj? then Err(TypeErr)
    else
      var view := ViewOf(response);
      if !Truthy(view) then
        Ok(PaginationInfo(FieldOr(response, "@id", Str("")), Null, Null, Str("edges"), false, None, 0))
      else if !view.Obj? then Err(TypeErr)
      else
        var next := Field(view, "nextPage");
        var previous := Field(view, "previousPage");
        var pp := PropertyName(view);
        match EstimateTotalPages(response)
        case Err(e) => Err(e)
        case Ok(estimate) =>
          match PageSize(response, pp)
          case Err(e) => Err(e)
          case Ok(size) =>
            Ok(PaginationInfo(FieldOr(view, "@id", FieldOr(response, "@id", Str(""))), next, previous, pp,
                              Truthy(Or(next, previous)), estimate, size))
  }

  /** extract_next_page_url: the view's `nextPage` when it is truthy, else
    * None (JSON null); any failure reading it also gives None. */
  function ExtractNextPageUrl(response: Json): (r: Json)
    ensures r == Null || Truthy(r)
    ensures r != Null <==> response.Obj? && ViewOf(response).Obj? && Truthy(Field(ViewOf(response), "nextPage"))
    ensures r != Null ==> r == ViewOf(response).fields["nextPage"]
  {
    if !response.Obj? then Null
    else
      var view := ViewOf(response);
      if !view.Obj? then Null
      else
        var next := Field(view, "nextPage");
        if Truthy(next) then next else Null
  }

  /** The page shape validate_pagination_structure accepts: a dict with an
    * `@id` key whose `view`, unless missing or null, is a dict naming a
    * paginated property that the page holds as a list. */
  predicate WellFormed(response: Json)
  {
    && response.Obj?
    && "@id" in response.fields
    && (Field(response, "view") != Null ==>
          var view := response.fields["view"];
          && view.Obj?
          && "paginatedProperty" in view.fields
          && var pp := view.fields["paginatedProperty"];
          && pp.Str?
          && pp.s in response.fields
          && response.fields[pp.s].Arr?)
  }

  /** validate_pagination_structure: True for a well-formed page; otherwise
    * a PaginationError naming the first violated rule, except that an
    * unhashable paginated property makes the membership test itself raise
    * TypeError. */
  function ValidatePaginationStructure(response: Json): (r: Result<bool>)
    ensures r.Ok? <==> WellFormed(response)
    ensures r.Ok? ==> r.value
    ensures r.Err? ==> r.error == TypeErr || (r.error.Pagination? && r.error.partial == [])
    ensures r == Err(TypeErr) <==>
      (&& response.Obj? && "@id" in response.fields && Field(response, "view") != Null
       && response.fields["view"].Obj? && "paginatedProperty" in response.fields["view"].fields
       && !Hashable(response.fields["view"].fields["paginatedProperty"]))
  {
    if !response.Obj? then Err(Pagination("Response must be a dictionary", []))
    else if "@id" !in response.fields then Err(Pagination("Response missing required '@id' field", []))
    else
      var view := Field(response, "view");
      if view == Null then Ok(true)
      else if !view.Obj? then Err(Pagination("'view' field must be a dictionary", []))
      else if "paginatedProperty" !in view.fields then Err(Pagination("'view' missing 'paginatedProperty' field", []))
      else
        var pp := view.fields["paginatedProperty"];
        if !Hashable(pp) then Err(TypeErr)
        else if !pp.Str? || pp.s !in response.fields then
          Err(Pagination("Response missing paginated property '" + Text(pp) + "'", []))
        else if !response.fields[pp.s].Arr? then
          Err(Pagination("Paginated property '" + Text(pp) + "' must be a list", []))
        else Ok(true)
  }

  /** On a well-formed page whose view `@id`, if any, is a string,
    * detection cannot fail, and a paginated page names a string property
    * that it holds as a list of `currentPageSize` items. */
  lemma DetectOnWellFormed(response: Json)
    requires WellFormed(response)
    requires FieldOr(ViewOf(response), "@id", Str("")).Str? || !Truthy(FieldOr(ViewOf(response), "@id", Str("")))
    ensures DetectPaginationInfo(response).Ok?
    ensures var info := DetectPaginationInfo(response).value;
      info.hasPagination ==>
        && info.paginatedProperty.Str?
        && info.paginatedProperty.s in response.fields
        && response.fields[info.paginatedProperty.s].Arr?
        && info.currentPageSize == |response.fields[info.paginatedProperty.s].items|
  {
    var view := ViewOf(response);
    if Truthy(view) {
      assert Field(response, "view") == view;
      assert PageSize(response, PropertyName(view)).Ok?;
    }
  }

  // ---------------------------------------------------------------------
  // Fetching one page with retries (_fetch_page_with_retry)
  // ---------------------------------------------------------------------

  /** What a fetch produced and the log after it. */
  datatype Fetched = Fetched(result: Result<Json>, log: Log)

  /** The `page_info` text of log and error messages. */
  function PageLabel(index: Option<int>): string
  {
    match index
    case None => "page"
    case Some(i) => "page " + IntToString(i + 1)
  }

  function Pow2(n: nat): (r: nat)
    ensures r >= 1
  {
    if n == 0 then 1 else 2 * Pow2(n - 1)
  }

  /** The wait after failed attempt `attempt`: `2 ** attempt` seconds. */
  function Backoff(attempt: nat): int
  {
    1000 * Pow2(attempt)
  }

  /** The waits after `count` consecutive failed attempts from `from` on. */
  function Backoffs(from: nat, count: nat): (r: seq<int>)
    decreases count
    ensures |r| == count
    ensures forall k :: 0 <= k < count ==> r[k] == Backoff(from + k)
  {
    if count == 0 then [] else [Backoff(from)] + Backoffs(from + 1, count - 1)
  }

  /** The messages of the ConceptNetAPIError the attempt loop raises. */
  function RetriesNote(maxRetries: int): string
  {
    " after " + IntToString(maxRetries) + " retries"
  }

  function HttpMessage(code: int, pageInfo: string, retries: string): string
  {
    "HTTP " + IntToString(code) + " for " + pageInfo + retries
  }

  function TimeoutMessage(pageInfo: string, retries: string): string
  {
    "Timeout for " + pageInfo + retries
  }

  function FailureMessage(pageInfo: string, retries: string, reason: string): string
  {
    "Failed to fetch " + pageInfo + retries + ": " + reason
  }

  function UnexpectedMessage(pageInfo: string): string
  {
    "Unexpected error fetching " + pageInfo
  }

  /** The attempt loop from attempt `attempt` on.  A page ends it at once;
    * statuses 404 and 429 raise ConceptNetAPIError at once; any other
    * status, a timeout or another error sleeps `2 ** attempt` seconds and
    * tries again, until the attempt numbered `maxRetries` fails too.  With
    * a negative `maxRetries` no attempt is made at all. */
  function RetryFrom(answer: Answer, url: Json, pageInfo: string, attempt: nat, maxRetries: int, log: Log): (f: Fetched)
    decreases if attempt < maxRetries then maxRetries - attempt else 0
    ensures |log.requests| <= |f.log.requests| && f.log.requests[..|log.requests|] == log.requests
    ensures attempt > maxRetries ==> f.log == log && f.result.Err?
    ensures f.result.Err? ==> f.result.error.Api?
  {
    if attempt > maxRetries then Fetched(Err(Api(UnexpectedMessage(pageInfo), None)), log)
    else
      var reply := answer(url, |log.requests|);
      var sent := log.(requests := log.requests + [url]);
      var retries := RetriesNote(maxRetries);
      var slept := sent.(sleeps := sent.sleeps + [Backoff(attempt)]);
      match reply
      case Page(doc) => Fetched(Ok(doc), sent)
      case Status(code) =>
        if code == 404 || code == 429 then
          Fetched(Err(Api(HttpMessage(code, pageInfo, ""), Some(code))), sent)
        else if attempt < maxRetries then RetryFrom(answer, url, pageInfo, attempt + 1, maxRetries, slept)
        else Fetched(Err(Api(HttpMessage(code, pageInfo, retries), Some(code))), sent)
      case Timeout =>
        if attempt < maxRetries then RetryFrom(answer, url, pageInfo, attempt + 1, maxRetries, slept)
        else Fetched(Err(Api(TimeoutMessage(pageInfo, retries), None)), sent)
      case Failure(reason) =>
        if attempt < maxRetries then RetryFrom(answer, url, pageInfo, attempt + 1, maxRetries, slept)
        else Fetched(Err(Api(FailureMessage(pageInfo, retries, reason), None)), sent)
  }

  /** One attempt either ends the loop with the request it made, or sleeps
    * and hands over to the next attempt. */
  lemma RetryStep(answer: Answer, url: Json, pageInfo: string, attempt: nat, maxRetries: int, log: Log)
    requires attempt <= maxRetries
    ensures var f := RetryFrom(answer, url, pageInfo, attempt, maxRetries, log);
      var sent := log.(requests := log.requests + [url]);
      var slept := sent.(sleeps := sent.sleeps + [Backoff(attempt)]);
      || (f.log == sent && (f.result.Ok? ==> answer(url, |log.requests|) == Page(f.result.value)))
      || (attempt < maxRetries && f == RetryFrom(answer, url, pageInfo, attempt + 1, maxRetries, slept))
  {
  }

  /** The attempt loop requests only `url`, at least once and at most
    * `maxRetries - attempt + 1` times. */
  lemma {:induction false} RetryRequests(answer: Answer, url: Json, pageInfo: string, attempt: nat, maxRetries: int, log: Log)
    ensures var f := RetryFrom(answer, url, pageInfo, attempt, maxRetries, log);
      && (forall i :: |log.requests| <= i < |f.log.requests| ==> f.log.requests[i] == url)
      && (attempt <= maxRetries ==> |log.requests| < |f.log.requests| <= |log.requests| + (maxRetries - attempt) + 1)
    decreases if attempt < maxRetries then maxRetries - attempt else 0
  {
    if attempt <= maxRetries {
      RetryStep(answer, url, pageInfo, attempt, maxRetries, log);
      if attempt < maxRetries {
        var sent := log.(requests := log.requests + [url]);
        var slept := sent.(sleeps := sent.sleeps + [Backoff(attempt)]);
        RetryRequests(answer, url, pageInfo, attempt + 1, maxRetries, slept);
      }
    }
  }

  /** After each failed attempt k but the last, the loop sleeps `2 ** k`
    * seconds, and at no other time. */
  lemma {:induction false} RetrySleeps(answer: Answer, url: Json, pageInfo: string, attempt: nat, maxRetries: int, log: Log)
    requires attempt <= maxRetries
    ensures var f := RetryFrom(answer, url, pageInfo, attempt, maxRetries, log);
      |log.requests| < |f.log.requests| &&
      f.log.sleeps == log.sleeps + Backoffs(attempt, |f.log.requests| - |log.requests| - 1)
    decreases maxRetries - attempt
  {
    RetryStep(answer, url, pageInfo, attempt, maxRetries, log);
    var f := RetryFrom(answer, url, pageInfo, attempt, maxRetries, log);
    var sent := log.(requests := log.requests + [url]);
    var slept := sent.(sleeps := sent.sleeps + [Backoff(attempt)]);
    if f.log != sent {
      RetrySleeps(answer, url, pageInfo, attempt + 1, maxRetries, slept);
      var n := |f.log.requests| - |slept.requests| - 1;
      assert Backoffs(attempt, n + 1) == [Backoff(attempt)] + Backoffs(attempt + 1, n);
    }
  }

  /** A page comes from the last request the loop made. */
  lemma {:induction false} RetrySuccess(answer: Answer, url: Json, pageInfo: string, attempt: nat, maxRetries: int, log: Log)
    ensures var f := RetryFrom(answer, url, pageInfo, attempt, maxRetries, log);
      f.result.Ok? ==> |f.log.requests| > |log.requests| && answer(url, |f.log.requests| - 1) == Page(f.result.value)
    decreases if attempt < maxRetries then maxRetries - attempt else 0
  {
    if attempt <= maxRetries {
      RetryStep(answer, url, pageInfo, attempt, maxRetries, log);
      if attempt < maxRetries {
        var sent := log.(requests := log.requests + [url]);
        var slept := sent.(sleeps := sent.sleeps + [Backoff(attempt)]);
        RetrySuccess(answer, url, pageInfo, attempt + 1, maxRetries, slept);
      }
    }
  }

  /** Statuses 404 and 429 end the loop after one request, raising an error
    * that carries the status. */
  lemma RetryStops(answer: Answer, url: Json, pageInfo: string, attempt: nat, maxRetries: int, log: Log)
    requires attempt <= maxRetries
    requires answer(url, |log.requests|).Status? && answer(url, |log.requests|).code in {404, 429}
    ensures var f := RetryFrom(answer, url, pageInfo, attempt, maxRetries, log);
      && f.result.Err?
      && f.result.error.status == Some(answer(url, |log.requests|).code)
      && f.log == log.(requests := log.requests + [url])
  {
  }

  // ---------------------------------------------------------------------
  // Discovering the chain of page URLs (the first loop of get_all_pages)
  // ---------------------------------------------------------------------

  /** The URLs a discovery walk collected and the log after it. */
  datatype Discovery = Discovery(urls: seq<Json>, log: Log)

  /** The loop condition `current_url and (not self.max_pages or
    * page_count < self.max_pages)`, where the page count is one more than
    * the number of URLs collected (the first page is already held). */
  predicate KeepWalking(cfg: Config, current: Json, collected: nat)
  {
    Truthy(current) && (!Bounded(cfg) || collected + 1 < cfg.maxPages.value)
  }

  /** The discovery walk from `current` with `urls` collected: append the
    * URL, stop at 10 URLs, otherwise fetch the page to read its next link;
    * a failed fetch, a missing link or a link already collected ends the
    * walk.  The first page's own URL is never among those compared. */
  function DiscoverFrom(answer: Answer, cfg: Config, current: Json, urls: seq<Json>, log: Log): (d: Discovery)
    requires |urls| < 10
    decreases 10 - |urls|
    ensures |urls| <= |d.urls| <= 10 && d.urls[..|urls|] == urls
    ensures |d.urls| > |urls| <==> KeepWalking(cfg, current, |urls|)
    ensures |d.urls| > |urls| ==> d.urls[|urls|] == current
    ensures Bounded(cfg) && |d.urls| > |urls| ==> |d.urls| < cfg.maxPages.value
    ensures NoDuplicates(urls) && current !in urls ==> NoDuplicates(d.urls)
    ensures forall i :: |urls| <= i < |d.urls| ==> Truthy(d.urls[i])
    ensures |log.requests| <= |d.log.requests| && d.log.requests[..|log.requests|] == log.requests
  {
    if !KeepWalking(cfg, current, |urls|) then Discovery(urls, log)
    else
      var found := urls + [current];
      if |found| >= 10 then Discovery(found, log)
      else
        var peek := RetryFrom(answer, current, "page", 0, cfg.maxRetries, log);
        if peek.result.Err? then Discovery(found, peek.log)
        else
          var next := ExtractNextPageUrl(peek.result.value);
          if next in found then Discovery(found, peek.log)
          else DiscoverFrom(answer, cfg, next, found, peek.log)
  }

  /** A page that cannot be fetched after its retries ends the walk
    * silently: its URL stays collected, and nothing after it. */
  lemma DiscoveryStopsOnFailure(answer: Answer, cfg: Config, current: Json, urls: seq<Json>, log: Log)
    requires |urls| + 1 < 10 && KeepWalking(cfg, current, |urls|)
    requires RetryFrom(answer, current, "page", 0, cfg.maxRetries, log).result.Err?
    ensures DiscoverFrom(answer, cfg, current, urls, log)
         == Discovery(urls + [current], RetryFrom(answer, current, "page", 0, cfg.maxRetries, log).log)
  {
  }

  /** On a chain A -> B -> A the walk from A's next link collects B and
    * then A itself, whose next link B is already collected: the walk ends,
    * and the first page A is fetched again as a later page. */
  lemma DiscoveryStopsOnCycle(answer: Answer, cfg: Config, a: Json, b: Json, pageA: Json, pageB: Json, log: Log)
    requires !Bounded(cfg) && cfg.maxRetries >= 0
    requires Truthy(a) && Truthy(b) && a != b
    requires forall n :: answer(a, n) == Page(pageA)
    requires forall n :: answer(b, n) == Page(pageB)
    requires ExtractNextPageUrl(pageB) == a && ExtractNextPageUrl(pageA) == b
    ensures DiscoverFrom(answer, cfg, b, [], log).urls == [b, a]
  {
    var first := RetryFrom(answer, b, "page", 0, cfg.maxRetries, log);
    assert first.result == Ok(pageB);
    assert DiscoverFrom(answer, cfg, b, [], log) == DiscoverFrom(answer, cfg, a, [b], first.log);
    var second := RetryFrom(answer, a, "page", 0, cfg.maxRetries, first.log);
    assert second.result == Ok(pageA);
    assert b in [b, a];
    assert DiscoverFrom(answer, cfg, a, [b], first.log) == Discovery([b, a], second.log);
  }

  // ---------------------------------------------------------------------
  // Fetching the discovered pages (fetch_pages_parallel)
  // ---------------------------------------------------------------------

  /** The outcome of every task, in URL order, and the log after them. */
  datatype Gathered = Gathered(results: seq<Result<Json>>, log: Log)

  /** One task (_fetch_page_with_semaphore): the pacing delay, then the
    * fetch of page `index + 1` with retries. */
  function FetchPaced(answer: Answer, cfg: Config, url: Json, index: nat, log: Log): Fetched
  {
    var paced := if cfg.delayMs > 0 then log.(sleeps := log.sleeps + [cfg.delayMs]) else log;
    RetryFrom(answer, url, PageLabel(Some(index)), 0, cfg.maxRetries, paced)
  }

  /** `asyncio.gather(*tasks, return_exceptions=True)`: one outcome per URL,
    * in the order of the URLs, the tasks taken one after another. */
  function GatherFrom(answer: Answer, cfg: Config, urls: seq<Json>, acc: Gathered): (g: Gathered)
    requires |acc.results| <= |urls|
    decreases |urls| - |acc.results|
    ensures |g.results| == |urls| && g.results[..|acc.results|] == acc.results
  {
    if |acc.results| == |urls| then acc
    else
      var f := FetchPaced(answer, cfg, urls[|acc.results|], |acc.results|, acc.log);
      var next := Gathered(acc.results + [f.result], f.log);
      assert next.results[..|acc.results|] == acc.results;
      GatherFrom(answer, cfg, urls, next)
  }

  /** The pages of the successful outcomes, in order. */
  function Successes(results: seq<Result<Json>>): (pages: seq<Json>)
    ensures |pages| <= |results|
  {
    if results == [] then []
    else
      var last := results[|results| - 1];
      Successes(results[..|results| - 1]) + (if last.Ok? then [last.value] else [])
  }

  /** The number of failed outcomes. */
  function FailureCount(results: seq<Result<Json>>): nat
  {
    if results == [] then 0
    else FailureCount(results[..|results| - 1]) + (if results[|results| - 1].Err? then 1 else 0)
  }

  /** Every outcome is either a success or a failure. */
  lemma {:induction false} SuccessesAndFailures(results: seq<Result<Json>>)
    ensures |Successes(results)| + FailureCount(results) == |results|
  {
    if results != [] {
      SuccessesAndFailures(results[..|results| - 1]);
    }
  }

  /** The successful page of outcome `i` sits in the result after the
    * successes of the outcomes before it: no success is lost or moved. */
  lemma {:induction false} SuccessAt(results: seq<Result<Json>>, i: nat)
    requires i < |results| && results[i].Ok?
    ensures |Successes(results[..i])| < |Successes(results)|
    ensures Successes(results)[|Successes(results[..i])|] == results[i].value
    decreases |results|
  {
    var init := results[..|results| - 1];
    if i == |results| - 1 {
      assert results[..i] == init;
    } else {
      assert init[..i] == results[..i];
      SuccessAt(init, i);
    }
  }

  /** Every outcome is a failure. */
  predicate AllFailed(results: seq<Result<Json>>)
  {
    forall i :: 0 <= i < |results| ==> results[i].Err?
  }

  /** When every fetch fails there are no partial results. */
  lemma {:induction false} NoSuccesses(results: seq<Result<Json>>)
    requires AllFailed(results)
    ensures Successes(results) == []
    ensures FailureCount(results) == |results|
  {
    if results != [] {
      NoSuccesses(results[..|results| - 1]);
    }
  }

  /** What fetch_pages_parallel returned or raised, and the log after it. */
  datatype Bulk = Bulk(result: Result<seq<Json>>, log: Log)

  /** fetch_pages_parallel: the successful pages in URL order, unless fewer
    * than half the URLs succeeded, which raises a PaginationError carrying
    * exactly those pages (exactly half is enough). */
  function FetchAll(answer: Answer, cfg: Config, urls: seq<Json>, log: Log): (b: Bulk)
    ensures urls == [] ==> b == Bulk(Ok([]), log)
    ensures urls != [] ==>
      var g := GatherFrom(answer, cfg, urls, Gathered([], log));
      var pages := Successes(g.results);
      && b.log == g.log
      && (b.result.Ok? <==> 2 * |pages| >= |urls|)
      && (b.result.Ok? ==> b.result.value == pages && |pages| >= 1)
      && (b.result.Err? ==> b.result.error.Pagination? && b.result.error.partial == pages)
  {
    if urls == [] then Bulk(Ok([]), log)
    else
      var g := GatherFrom(answer, cfg, urls, Gathered([], log));
      var pages := Successes(g.results);
      if 2 * |pages| < |urls| then
        var failed := FailureCount(g.results);
        Bulk(Err(Pagination("Too many pages failed to fetch (" + NatToString(failed) + "/" + NatToString(|urls|) + ")", pages)), g.log)
      else Bulk(Ok(pages), g.log)
  }

  // ---------------------------------------------------------------------
  // Merging pages (merge_paginated_results)
  // ---------------------------------------------------------------------

  /** `response.get(pp, [])` as `list.extend` iterates it. */
  function PageItems(response: Json, pp: string): Result<seq<Json>>
  {
    if !response.Obj? then Err(TypeErr)
    else
      match Items(FieldOr(response, pp, Arr([])))
      case Some(items) => Ok(items)
      case None => Err(TypeErr)
  }

  /** The items of the later pages, concatenated in page order; the first
    * page that cannot be read decides the error. */
  function ConcatItems(pages: seq<Json>, pp: string): Result<seq<Json>>
  {
    if pages == [] then Ok([])
    else
      match PageItems(pages[0], pp)
      case Err(e) => Err(e)
      case Ok(first) =>
        match ConcatItems(pages[1..], pp)
        case Err(e) => Err(e)
        case Ok(rest) => Ok(first + rest)
  }

  /** Reading two runs of pages one after the other. */
  lemma {:induction false} ConcatItemsAppend(a: seq<Json>, b: seq<Json>, pp: string)
    ensures ConcatItems(a + b, pp) ==
      match ConcatItems(a, pp)
      case Err(e) => Err(e)
      case Ok(x) =>
        match ConcatItems(b, pp)
        case Err(e) => Err(e)
        case Ok(y) => Ok(x + y)
  {
    if a == [] {
      assert a + b == b;
      var right := ConcatItems(b, pp);
      if right.Ok? {
        assert [] + right.value == right.value;
      }
    } else {
      assert (a + b)[0] == a[0];
      assert (a + b)[1..] == a[1..] + b;
      ConcatItemsAppend(a[1..], b, pp);
      var head := PageItems(a[0], pp);
      var tail := ConcatItems(a[1..], pp);
      var right := ConcatItems(b, pp);
      if head.Ok? && tail.Ok? && right.Ok? {
        assert head.value + (tail.value + right.value) == (head.value + tail.value) + right.value;
      }
    }
  }

  /** The message of the PaginationError that wraps a failure inside the merge. */
  function MergeFailure(e: Raised): Raised
  {
    Pagination("Failed to merge responses: " + ExceptionText(e), [])
  }

  /** The merge of at least two pages: the first page, its `view` removed,
    * with its paginated list extended by every later page's list.  Page
    * keys are strings, so a paginated property that is not a string is
    * reported as a TypeError. */
  function MergeRest(first: Json, rest: seq<Json>): Result<Json>
  {
    match DetectPaginationInfo(first)
    case Err(e) => Err(e)
    case Ok(info) =>
      var pp := info.paginatedProperty;
      if !pp.Str? then Err(TypeErr)
      else
        var merged := FieldOr(first, pp.s, Arr([]));
        if !merged.Arr? then Err(TypeErr)
        else
          match ConcatItems(rest, pp.s)
          case Err(e) => Err(e)
          case Ok(more) => Ok(Obj(first.fields[pp.s := Arr(merged.items + more)] - {"view"}))
  }

  /** merge_paginated_results: an empty list raises, a single page comes
    * back unchanged (its `view` included), and a longer list merges into a
    * document that has no `view`. */
  function Merged(responses: seq<Json>): (r: Result<Json>)
    ensures responses == [] ==> r == Err(Pagination("No responses provided for merging", []))
    ensures |responses| == 1 ==> r == Ok(responses[0])
    ensures |responses| >= 2 && r.Ok? ==> r.value.Obj? && "view" !in r.value.fields
    ensures r.Err? ==> r.error.Pagination? && r.error.partial == []
  {
    if responses == [] then Err(Pagination("No responses provided for merging", []))
    else if |responses| == 1 then Ok(responses[0])
    else
      match MergeRest(responses[0], responses[1..])
      case Err(e) => Err(MergeFailure(e))
      case Ok(m) => Ok(m)
  }

  /** A page holds a list (or nothing) under `pp`. */
  predicate HoldsList(page: Json, pp: string)
  {
    page.Obj? && FieldOr(page, pp, Arr([])).Arr?
  }

  /** Every page's list under `pp`, concatenated in page order. */
  function AllItems(pages: seq<Json>, pp: string): seq<Json>
    requires forall i :: 0 <= i < |pages| ==> HoldsList(pages[i], pp)
  {
    if pages == [] then []
    else
      assert HoldsList(pages[0], pp);
      FieldOr(pages[0], pp, Arr([])).items + AllItems(pages[1..], pp)
  }

  lemma {:induction false} ConcatItemsOfLists(pages: seq<Json>, pp: string)
    requires forall i :: 0 <= i < |pages| ==> HoldsList(pages[i], pp)
    ensures ConcatItems(pages, pp) == Ok(AllItems(pages, pp))
  {
    if pages != [] {
      ConcatItemsOfLists(pages[1..], pp);
    }
  }

  /** For pages P1..Pn (n >= 2) that hold lists L1..Ln under the first
    * page's paginated property, the merge is P1 without its `view` and
    * with L1 ++ ... ++ Ln under that property; every other key of P1 is
    * kept as it was. */
  lemma MergeConcatenates(pages: seq<Json>, pp: string)
    requires |pages| >= 2
    requires DetectPaginationInfo(pages[0]).Ok? && DetectPaginationInfo(pages[0]).value.paginatedProperty == Str(pp)
    requires forall i :: 0 <= i < |pages| ==> HoldsList(pages[i], pp)
    ensures Merged(pages) == Ok(Obj(pages[0].fields[pp := Arr(AllItems(pages, pp))] - {"view"}))
  {
    ConcatItemsOfLists(pages[1..], pp);
    assert AllItems(pages, pp) == FieldOr(pages[0], pp, Arr([])).items + AllItems(pages[1..], pp);
  }

  // ---------------------------------------------------------------------
  // The whole run (get_all_pages)
  // ---------------------------------------------------------------------

  /** The handler of get_all_pages: PaginationError and ConceptNetAPIError
    * pass through, anything else becomes a PaginationError. */
  function RaisedByGetAll(e: Raised): Raised
  {
    if e.Pagination? || e.Api? then e else Pagination("Pagination failed: " + ExceptionText(e), [])
  }

  /** What get_all_pages returned or raised, and the log after it. */
  datatype Run = Run(result: Result<Json>, log: Log)

  /** get_all_pages: validate the first page, return it as it is when it is
    * not paginated or no further URL is found, otherwise fetch the
    * discovered pages and merge them after it. */
  function AllPages(answer: Answer, cfg: Config, seed: Json, log: Log): Run
  {
    match ValidatePaginationStructure(seed)
    case Err(e) => Run(Err(RaisedByGetAll(e)), log)
    case Ok(_) =>
      match DetectPaginationInfo(seed)
      case Err(e) => Run(Err(RaisedByGetAll(e)), log)
      case Ok(info) =>
        if !info.hasPagination then Run(Ok(seed), log)
        else CollectDiscovered(answer, cfg, seed, DiscoverFrom(answer, cfg, info.nextPageUrl, [], log))
  }

  /** The rest of get_all_pages once the walk has found `d.urls`: the
    * first page alone when there are none, else the bulk fetch of the
    * URLs (cut to `max_pages - 1` under a bound) merged after it. */
  function CollectDiscovered(answer: Answer, cfg: Config, seed: Json, d: Discovery): (run: Run)
    requires Bounded(cfg) && d.urls != [] ==> |d.urls| < cfg.maxPages.value
    ensures run.result.Ok? ==> run.result.value == seed || (run.result.value.Obj? && "view" !in run.result.value.fields)
    ensures run.result.Err? ==> run.result.error.Pagination?
  {
    if d.urls == [] then Run(Ok(seed), d.log)
    else
      var urls := if Bounded(cfg) then SliceTo(d.urls, cfg.maxPages.value - 1) else d.urls;
      assert urls == d.urls;
      var b := FetchAll(answer, cfg, urls, d.log);
      match b.result
      case Err(e) => Run(Err(RaisedByGetAll(e)), b.log)
      case Ok(pages) =>
        assert |[seed] + pages| >= 2;
        match Merged([seed] + pages)
        case Err(e) => Run(Err(RaisedByGetAll(e)), b.log)
        case Ok(merged) => Run(Ok(merged), b.log)
  }

  /** A malformed first page is rejected with a PaginationError before any
    * request; a well-formed page that is not paginated comes back as it
    * is, again without a request. */
  lemma AllPagesWithoutRequests(answer: Answer, cfg: Config, seed: Json, log: Log)
    ensures !WellFormed(seed) ==>
      var run := AllPages(answer, cfg, seed, log);
      run.result.Err? && run.result.error.Pagination? && run.log == log
    ensures WellFormed(seed) && DetectPaginationInfo(seed).Ok? && !DetectPaginationInfo(seed).value.hasPagination ==>
      AllPages(answer, cfg, seed, log) == Run(Ok(seed), log)
  {
    var v := ValidatePaginationStructure(seed);
    if v.Err? {
      assert v.error.Pagination? || v.error == TypeErr;
    }
  }

  /** get_all_pages either raises a PaginationError or returns the first
    * page unchanged or a merged document without pagination metadata. */
  lemma AllPagesOutcome(answer: Answer, cfg: Config, seed: Json, log: Log)
    ensures var run := AllPages(answer, cfg, seed, log);
      && (run.result.Ok? ==> run.result.value == seed || (run.result.value.Obj? && "view" !in run.result.value.fields))
      && (run.result.Err? ==> run.result.error.Pagination?)
  {
    var v := ValidatePaginationStructure(seed);
    if v.Err? {
      assert v.error.Pagination? || v.error == TypeErr;
      assert AllPages(answer, cfg, seed, log) == Run(Err(RaisedByGetAll(v.error)), log);
    } else {
      var detected := DetectPaginationInfo(seed);
      if detected.Err? {
        assert AllPages(answer, cfg, seed, log) == Run(Err(RaisedByGetAll(detected.error)), log);
      } else if detected.value.hasPagination {
        var d := DiscoverFrom(answer, cfg, detected.value.nextPageUrl, [], log);
        assert AllPages(answer, cfg, seed, log) == CollectDiscovered(answer, cfg, seed, d);
      }
    }
  }

  /** The URL list handed to the bulk fetch starts with the first page's
    * next link, has no repeats, at most 10 entries and, under a bound,
    * at most `max_pages - 1`: cutting it to `max_pages - 1` changes nothing. */
  lemma DiscoveredUrls(answer: Answer, cfg: Config, seedNext: Json, log: Log)
    ensures var urls := DiscoverFrom(answer, cfg, seedNext, [], log).urls;
      && |urls| <= 10
      && NoDuplicates(urls)
      && (urls != [] <==> KeepWalking(cfg, seedNext, 0))
      && (urls != [] ==> urls[0] == seedNext)
      && (Bounded(cfg) && urls != [] ==> |urls| <= cfg.maxPages.value - 1 && SliceTo(urls, cfg.maxPages.value - 1) == urls)
  {
    var urls := DiscoverFrom(answer, cfg, seedNext, [], log).urls;
    assert NoDuplicates<Json>([]);
  }

  // ---------------------------------------------------------------------
  // Streaming (stream_all_pages)
  // ---------------------------------------------------------------------

  /** The items yielded so far, the page count reached, and the log. */
  datatype Streamed = Streamed(items: seq<Json>, pages: nat, log: Log)

  /** One fetch of the stream: page `index` at `url`, from the log so far. */
  type PageFetch = (Json, nat, Log) -> Fetched

  /** The stream's fetch: `_fetch_page_with_retry` with the page's number. */
  function PageFetcher(answer: Answer, cfg: Config): PageFetch
  {
    (url: Json, index: nat, log: Log) => RetryFrom(answer, url, PageLabel(Some(index)), 0, cfg.maxRetries, log)
  }

  /** `fetch` gives what the retry loop gives for every URL, page number
    * and log. */
  ghost predicate FetchesWithRetry(fetch: PageFetch, answer: Answer, cfg: Config)
  {
    forall url, index: nat, log {:trigger RetryFrom(answer, url, PageLabel(Some(index)), 0, cfg.maxRetries, log)} ::
      fetch(url, index, log) == RetryFrom(answer, url, PageLabel(Some(index)), 0, cfg.maxRetries, log)
  }

  /** The streaming loop from `current`, with `count` pages seen and
    * `items` yielded, each page fetched by `fetch`.  The loop has no cycle
    * guard; `fuel` is the number of further pages the consumer lets it
    * fetch.  A fetch that fails, a page that is not a dict or a property
    * that cannot be iterated ends the stream silently.  Every page is read
    * under the first page's property `pp`. */
  function StreamFrom(fetch: PageFetch, cfg: Config, pp: Json, current: Json, count: nat, fuel: nat,
                      items: seq<Json>, log: Log): Streamed
    decreases fuel
  {
    if fuel == 0 || !(Truthy(current) && (!Bounded(cfg) || count < cfg.maxPages.value)) then Streamed(items, count, log)
    else
      var f := fetch(current, count, log);
      if f.result.Err? then Streamed(items, count, f.log)
      else
        match PropertyValue(f.result.value, pp)
        case Err(_) => Streamed(items, count, f.log)
        case Ok(v) =>
          match Items(v)
          case None => Streamed(items, count, f.log)
          case Some(more) =>
            StreamFrom(fetch, cfg, pp, ExtractNextPageUrl(f.result.value), count + 1, fuel - 1, items + more, f.log)
  }

  /** The stream only adds: the items yielded before stay at the front. */
  lemma {:induction false} StreamExtends(fetch: PageFetch, cfg: Config, pp: Json, current: Json, count: nat, fuel: nat,
                                         items: seq<Json>, log: Log)
    ensures var s := StreamFrom(fetch, cfg, pp, current, count, fuel, items, log);
      |items| <= |s.items| && s.items[..|items|] == items
    decreases fuel
  {
    if fuel > 0 && Truthy(current) && (!Bounded(cfg) || count < cfg.maxPages.value) {
      var f := fetch(current, count, log);
      if f.result.Ok? && PropertyValue(f.result.value, pp).Ok? && Items(PropertyValue(f.result.value, pp).value).Some? {
        var more := Items(PropertyValue(f.result.value, pp).value).value;
        StreamExtends(fetch, cfg, pp, ExtractNextPageUrl(f.result.value), count + 1, fuel - 1, items + more, f.log);
        assert (items + more)[..|items|] == items;
      }
    }
  }

  /** The stream counts at most one page per pull and, when `max_pages` is
    * set, stops once it has counted that many. */
  lemma {:induction false} StreamPages(fetch: PageFetch, cfg: Config, pp: Json, current: Json, count: nat, fuel: nat,
                                       items: seq<Json>, log: Log)
    ensures var s := StreamFrom(fetch, cfg, pp, current, count, fuel, items, log);
      && count <= s.pages <= count + fuel
      && (Bounded(cfg) && s.pages > count ==> s.pages <= cfg.maxPages.value)
    decreases fuel
  {
    if fuel > 0 && Truthy(current) && (!Bounded(cfg) || count < cfg.maxPages.value) {
      var f := fetch(current, count, log);
      if f.result.Ok? && PropertyValue(f.result.value, pp).Ok? && Items(PropertyValue(f.result.value, pp).value).Some? {
        var more := Items(PropertyValue(f.result.value, pp).value).value;
        StreamPages(fetch, cfg, pp, ExtractNextPageUrl(f.result.value), count + 1, fuel - 1, items + more, f.log);
      }
    }
  }

  /** A fetch that fails after its retries ends the stream silently: the
    * items and page count stay as they were. */
  lemma StreamStopsOnFailure(fetch: PageFetch, cfg: Config, pp: Json, current: Json, count: nat, fuel: nat,
                             items: seq<Json>, log: Log)
    requires fuel > 0 && Truthy(current) && (!Bounded(cfg) || count < cfg.maxPages.value)
    requires fetch(current, count, log).result.Err?
    ensures StreamFrom(fetch, cfg, pp, current, count, fuel, items, log) == Streamed(items, count, fetch(current, count, log).log)
  {
  }

  /** A fetched page whose property can be read and iterated has its items
    * yielded, and the stream moves on to the page it links to. */
  lemma StreamContinues(fetch: PageFetch, cfg: Config, pp: Json, current: Json, count: nat, fuel: nat,
                        items: seq<Json>, log: Log, page: Json, more: seq<Json>,
                        next: Json, nextCount: nat, nextFuel: nat, nextItems: seq<Json>, nextLog: Log)
    requires fuel > 0 && Truthy(current) && (!Bounded(cfg) || count < cfg.maxPages.value)
    requires fetch(current, count, log) == Fetched(Ok(page), nextLog)
    requires PropertyValue(page, pp).Ok? && Items(PropertyValue(page, pp).value) == Some(more)
    requires next == ExtractNextPageUrl(page) && nextCount == count + 1 && nextFuel == fuel - 1 && nextItems == items + more
    ensures StreamFrom(fetch, cfg, pp, current, count, fuel, items, log)
         == StreamFrom(fetch, cfg, pp, next, nextCount, nextFuel, nextItems, nextLog)
  {
  }

  /** A fetched page whose property cannot be read or iterated ends the
    * stream silently. */
  lemma StreamEndsOnPage(fetch: PageFetch, cfg: Config, pp: Json, current: Json, count: nat, fuel: nat,
                         items: seq<Json>, log: Log, page: Json)
    requires fuel > 0 && Truthy(current) && (!Bounded(cfg) || count < cfg.maxPages.value)
    requires fetch(current, count, log).result == Ok(page)
    requires PropertyValue(page, pp).Err? || Items(PropertyValue(page, pp).value).None?
    ensures StreamFrom(fetch, cfg, pp, current, count, fuel, items, log) == Streamed(items, count, fetch(current, count, log).log)
  {
  }

  /** A page that links to itself is fetched again and again: the stream
    * spends all the fuel it is given, where the discovery walk stops. */
  lemma {:induction false} StreamFollowsCycle(answer: Answer, cfg: Config, pp: Json, url: Json, page: Json,
                                              count: nat, fuel: nat, items: seq<Json>, log: Log)
    requires !Bounded(cfg) && cfg.maxRetries >= 0
    requires Truthy(url) && forall n :: answer(url, n) == Page(page)
    requires ExtractNextPageUrl(page) == url
    requires PropertyValue(page, pp).Ok? && Items(PropertyValue(page, pp).value).Some?
    ensures StreamFrom(PageFetcher(answer, cfg), cfg, pp, url, count, fuel, items, log).pages == count + fuel
    decreases fuel
  {
    if fuel > 0 {
      var f := RetryFrom(answer, url, PageLabel(Some(count)), 0, cfg.maxRetries, log);
      assert f.result == Ok(page);
      assert PageFetcher(answer, cfg)(url, count, log) == f;
      var more := Items(PropertyValue(page, pp).value).value;
      StreamFollowsCycle(answer, cfg, pp, url, page, count + 1, fuel - 1, items + more, f.log);
    }
  }

  /** The handler of stream_all_pages: a PaginationError passes through,
    * anything else becomes one. */
  function RaisedByStream(e: Raised): Raised
  {
    if e.Pagination? then e else Pagination("Streaming pagination failed: " + ExceptionText(e), [])
  }

  /** The items stream_all_pages yields, or what it raises before yielding
    * any, and the log after it. */
  datatype StreamRun = StreamRun(result: Result<seq<Json>>, log: Log)

  /** stream_all_pages: the first page's items, then, when it is paginated,
    * the items of each page down the chain; at most `max_pages` pages in
    * all when a bound is set. */
  function StreamAll(answer: Answer, cfg: Config, seed: Json, fuel: nat, log: Log): StreamRun
  {
    match ValidatePaginationStructure(seed)
    case Err(e) => StreamRun(Err(RaisedByStream(e)), log)
    case Ok(_) =>
      match DetectPaginationInfo(seed)
      case Err(e) => StreamRun(Err(RaisedByStream(e)), log)
      case Ok(info) =>
        match PropertyValue(seed, info.paginatedProperty)
        case Err(e) => StreamRun(Err(RaisedByStream(e)), log)
        case Ok(v) =>
          match Items(v)
          case None => StreamRun(Err(RaisedByStream(TypeErr)), log)
          case Some(first) =>
            if !info.hasPagination then StreamRun(Ok(first), log)
            else
              var s := StreamFrom(PageFetcher(answer, cfg), cfg, info.paginatedProperty, info.nextPageUrl, 1, fuel, first, log);
              StreamRun(Ok(s.items), s.log)
  }

  /** stream_all_pages raises only a PaginationError, and only before it
    * yields anything or makes a request (a malformed first page always
    * raises); once it runs, the first page's items come first. */
  lemma StreamAllOutcome(answer: Answer, cfg: Config, seed: Json, fuel: nat, log: Log)
    ensures var s := StreamAll(answer, cfg, seed, fuel, log);
      && (!WellFormed(seed) ==> s.result.Err?)
      && (s.result.Err? ==> s.result.error.Pagination? && s.log == log)
      && (s.result.Ok? ==>
            && DetectPaginationInfo(seed).Ok?
            && var pp := DetectPaginationInfo(seed).value.paginatedProperty;
            && PropertyValue(seed, pp).Ok? && Items(PropertyValue(seed, pp).value).Some?
            && var first := Items(PropertyValue(seed, pp).value).value;
            && |first| <= |s.result.value| && s.result.value[..|first|] == first)
  {
    if ValidatePaginationStructure(seed).Ok? && DetectPaginationInfo(seed).Ok? {
      var info := DetectPaginationInfo(seed).value;
      var v := PropertyValue(seed, info.paginatedProperty);
      if v.Ok? && Items(v.value).Some? && info.hasPagination {
        StreamExtends(PageFetcher(answer, cfg), cfg, info.paginatedProperty, info.nextPageUrl, 1, fuel, Items(v.value).value, log);
      }
    }
  }

  // ---------------------------------------------------------------------
  // Worked runs
  // ---------------------------------------------------------------------

  /** No URL ever answers with a page. */
  ghost predicate NeverPages(answer: Answer)
  {
    forall u, n :: !answer(u, n).Page?
  }

  /** Under NeverPages a paced fetch fails. */
  lemma PacedFails(answer: Answer, cfg: Config, url: Json, index: nat, log: Log)
    requires NeverPages(answer)
    ensures FetchPaced(answer, cfg, url, index, log).result.Err?
  {
    var paced := if cfg.delayMs > 0 then log.(sleeps := log.sleeps + [cfg.delayMs]) else log;
    RetrySuccess(answer, url, PageLabel(Some(index)), 0, cfg.maxRetries, paced);
  }

  /** One step of the gather: the next outcome is the next paced fetch. */
  lemma GatherStep(answer: Answer, cfg: Config, urls: seq<Json>, acc: Gathered)
    requires |acc.results| < |urls|
    ensures var f := FetchPaced(answer, cfg, urls[|acc.results|], |acc.results|, acc.log);
      GatherFrom(answer, cfg, urls, acc) == GatherFrom(answer, cfg, urls, Gathered(acc.results + [f.result], f.log))
  {
  }

  /** Pages whose URLs never answer with a page all fail. */
  lemma {:induction false} GatherAllFail(answer: Answer, cfg: Config, urls: seq<Json>, acc: Gathered)
    requires |acc.results| <= |urls|
    requires NeverPages(answer)
    requires AllFailed(acc.results)
    ensures AllFailed(GatherFrom(answer, cfg, urls, acc).results)
    decreases |urls| - |acc.results|
  {
    if |acc.results| < |urls| {
      var f := FetchPaced(answer, cfg, urls[|acc.results|], |acc.results|, acc.log);
      PacedFails(answer, cfg, urls[|acc.results|], |acc.results|, acc.log);
      var next := Gathered(acc.results + [f.result], f.log);
      assert AllFailed(next.results);
      GatherAllFail(answer, cfg, urls, next);
      GatherStep(answer, cfg, urls, acc);
    }
  }

  /** When no URL ever answers with a page, the bulk fetch of n >= 1 URLs
    * raises "Too many pages failed to fetch (n/n)" with no partial results. */
  lemma FetchAllFails(answer: Answer, cfg: Config, urls: seq<Json>, log: Log)
    requires urls != []
    requires NeverPages(answer)
    ensures FetchAll(answer, cfg, urls, log).result ==
      Err(Pagination("Too many pages failed to fetch (" + NatToString(|urls|) + "/" + NatToString(|urls|) + ")", []))
  {
    var g := GatherFrom(answer, cfg, urls, Gathered([], log));
    GatherAllFail(answer, cfg, urls, Gathered([], log));
    NoSuccesses(g.results);
    var b := FetchAll(answer, cfg, urls, log);
    assert b.result.Err? && b.result.error.partial == [];
    assert b.result.error.message == "Too many pages failed to fetch (" + NatToString(|urls|) + "/" + NatToString(|urls|) + ")";
  }

  // ---------------------------------------------------------------------
  // The handler
  // ---------------------------------------------------------------------

  /** PaginationHandler: its settings, and the operations that talk to
    * the network, each proved to do what its specification above says. */
  class PaginationHandler {
    const config: Config

    constructor (config: Config)
      ensures this.config == config
    {
      this.config := config;
    }

    /** _fetch_page_with_retry. */
    method FetchPageWithRetry(net: Transport, url: Json, index: Option<int>) returns (r: Result<Json>)
      modifies net
      ensures Fetched(r, net.log) == RetryFrom(net.answer, url, PageLabel(index), 0, config.maxRetries, old(net.log))
    {
      var pageInfo := PageLabel(index);
      var retries := RetriesNote(config.maxRetries);
      var attempt: nat := 0;
      while attempt <= config.maxRetries
        invariant RetryFrom(net.answer, url, pageInfo, attempt, config.maxRetries, net.log)
               == RetryFrom(net.answer, url, pageInfo, 0, config.maxRetries, old(net.log))
        decreases config.maxRetries - attempt
      {
        var reply := net.Get(url);
        match reply {
          case Page(doc) =>
            return Ok(doc);
          case Status(code) =>
            if code == 404 || code == 429 {
              return Err(Api(HttpMessage(code, pageInfo, ""), Some(code)));
            }
            if attempt >= config.maxRetries {
              return Err(Api(HttpMessage(code, pageInfo, retries), Some(code)));
            }
          case Timeout =>
            if attempt >= config.maxRetries {
              return Err(Api(TimeoutMessage(pageInfo, retries), None));
            }
          case Failure(reason) =>
            if attempt >= config.maxRetries {
              return Err(Api(FailureMessage(pageInfo, retries, reason), None));
            }
        }
        net.Sleep(Backoff(attempt));
        attempt := attempt + 1;
      }
      return Err(Api(UnexpectedMessage(pageInfo), None));
    }

    /** fetch_pages_parallel, with the tasks taken in URL order. */
    method FetchPagesParallel(net: Transport, urls: seq<Json>) returns (r: Result<seq<Json>>)
      modifies net
      ensures Bulk(r, net.log) == FetchAll(net.answer, config, urls, old(net.log))
    {
      if urls == [] {
        return Ok([]);
      }
      ghost var gathered := GatherFrom(net.answer, config, urls, Gathered([], net.log));
      var results: seq<Result<Json>> := [];
      while |results| < |urls|
        invariant |results| <= |urls|
        invariant GatherFrom(net.answer, config, urls, Gathered(results, net.log)) == gathered
        decreases |urls| - |results|
      {
        var i := |results|;
        if config.delayMs > 0 {
          net.Sleep(config.delayMs);
        }
        var page := FetchPageWithRetry(net, urls[i], Some(i));
        results := results + [page];
      }
      var responses: seq<Json> := [];
      var failed: nat := 0;
      var i := 0;
      while i < |results|
        invariant i <= |results|
        invariant responses == Successes(results[..i])
        invariant failed == FailureCount(results[..i])
      {
        assert results[..i + 1][..i] == results[..i];
        if results[i].Err? {
          failed := failed + 1;
        } else {
          responses := responses + [results[i].value];
        }
        i := i + 1;
      }
      assert results[..i] == results;
      if 2 * |responses| < |urls| {
        return Err(Pagination("Too many pages failed to fetch (" + NatToString(failed) + "/" + NatToString(|urls|) + ")",
                              responses));
      }
      return Ok(responses);
    }

    /** merge_paginated_results. */
    method MergePaginatedResults(responses: seq<Json>) returns (r: Result<Json>)
      ensures r == Merged(responses)
    {
      if |responses| == 0 {
        return Err(Pagination("No responses provided for merging", []));
      }
      if |responses| == 1 {
        return Ok(responses[0]);
      }
      var first := responses[0];
      var info := DetectPaginationInfo(first);
      if info.Err? {
        return Err(MergeFailure(info.error));
      }
      var pp := info.value.paginatedProperty;
      if !pp.Str? {
        return Err(MergeFailure(TypeErr));
      }
      var merged := FieldOr(first, pp.s, Arr([]));
      if !merged.Arr? {
        return Err(MergeFailure(TypeErr));
      }
      var more := ConcatPageItems(responses[1..], pp.s);
      if more.Err? {
        return Err(MergeFailure(more.error));
      }
      var mergedItems := merged.items + more.value;
      return Ok(Obj(first.fields[pp.s := Arr(mergedItems)] - {"view"}));
    }

    /** The extending loop of merge_paginated_results over the later pages:
      * their lists in page order, or the first page's failure. */
    method ConcatPageItems(pages: seq<Json>, pp: string) returns (r: Result<seq<Json>>)
      ensures r == ConcatItems(pages, pp)
    {
      var acc: seq<Json> := [];
      var i := 0;
      assert pages[..0] == [];
      while i < |pages|
        invariant 0 <= i <= |pages|
        invariant ConcatItems(pages[..i], pp) == Ok(acc)
      {
        var items := PageItems(pages[i], pp);
        if items.Err? {
          ConcatItemsAppend(pages[..i], pages[i..], pp);
          assert pages[..i] + pages[i..] == pages;
          assert pages[i..][0] == pages[i];
          return Err(items.error);
        }
        ConcatItemsAppend(pages[..i], [pages[i]], pp);
        assert pages[..i + 1] == pages[..i] + [pages[i]];
        assert [pages[i]][1..] == [];
        assert ConcatItems([pages[i]], pp) == Ok(items.value + []);
        assert items.value + [] == items.value;
        acc := acc + items.value;
        i := i + 1;
      }
      assert pages[..i] == pages;
      return Ok(acc);
    }

    /** get_all_pages. */
    method GetAllPages(net: Transport, seed: Json) returns (r: Result<Json>)
      modifies net
      ensures Run(r, net.log) == AllPages(net.answer, config, seed, old(net.log))
    {
      var valid := ValidatePaginationStructure(seed);
      if valid.Err? {
        return Err(RaisedByGetAll(valid.error));
      }
      var detected := DetectPaginationInfo(seed);
      if detected.Err? {
        return Err(RaisedByGetAll(detected.error));
      }
      var info := detected.value;
      if !info.hasPagination {
        return Ok(seed);
      }
      ghost var discovery := DiscoverFrom(net.answer, config, info.nextPageUrl, [], net.log);
      var pageUrls: seq<Json> := [];
      var currentUrl := info.nextPageUrl;
      var pageCount := 1;
      while Truthy(currentUrl) && (!Bounded(config) || pageCount < config.maxPages.value)
        invariant pageCount == |pageUrls| + 1 && |pageUrls| < 10
        invariant DiscoverFrom(net.answer, config, currentUrl, pageUrls, net.log) == discovery
        decreases 10 - |pageUrls|
      {
        pageUrls := pageUrls + [currentUrl];
        pageCount := pageCount + 1;
        if |pageUrls| >= 10 {
          assert discovery == Discovery(pageUrls, net.log);
          break;
        }
        var peek := FetchPageWithRetry(net, currentUrl, None);
        if peek.Err? {
          assert discovery == Discovery(pageUrls, net.log);
          break;
        }
        currentUrl := ExtractNextPageUrl(peek.value);
        if currentUrl in pageUrls {
          assert discovery == Discovery(pageUrls, net.log);
          break;
        }
      }
      assert discovery == Discovery(pageUrls, net.log);
      assert AllPages(net.answer, config, seed, old(net.log)) == CollectDiscovered(net.answer, config, seed, discovery);
      if pageUrls == [] {
        return Ok(seed);
      }
      if Bounded(config) {
        pageUrls := SliceTo(pageUrls, config.maxPages.value - 1);
      }
      var pages := FetchPagesParallel(net, pageUrls);
      if pages.Err? {
        return Err(RaisedByGetAll(pages.error));
      }
      var merged := MergePaginatedResults([seed] + pages.value);
      if merged.Err? {
        return Err(RaisedByGetAll(merged.error));
      }
      return Ok(merged.value);
    }

    /** stream_all_pages, the consumer pulling at most `fuel` further pages. */
    method StreamAllPages(net: Transport, seed: Json, fuel: nat) returns (r: Result<seq<Json>>)
      modifies net
      ensures StreamRun(r, net.log) == StreamAll(net.answer, config, seed, fuel, old(net.log))
    {
      var valid := ValidatePaginationStructure(seed);
      if valid.Err? {
        return Err(RaisedByStream(valid.error));
      }
      var detected := DetectPaginationInfo(seed);
      if detected.Err? {
        return Err(RaisedByStream(detected.error));
      }
      var info := detected.value;
      var pp := info.paginatedProperty;
      var value := PropertyValue(seed, pp);
      if value.Err? {
        return Err(RaisedByStream(value.error));
      }
      var first := Items(value.value);
      if first.None? {
        return Err(RaisedByStream(TypeErr));
      }
      var yielded := first.value;
      if !info.hasPagination {
        return Ok(yielded);
      }
      yielded := StreamChain(net, PageFetcher(net.answer, config), pp, info.nextPageUrl, yielded, fuel);
      return Ok(yielded);
    }

    /** One turn of the cursor loop: fetch the page at `current`; a failed
      * fetch, a page that is not a dict or a property that cannot be
      * iterated stops the loop, otherwise the page's items are yielded and
      * its next link is followed. */
    method PullPage(net: Transport, ghost fetch: PageFetch, pp: Json, current: Json, count: nat, pulls: nat,
                    yielded: seq<Json>) returns (stop: bool, next: Json, grown: seq<Json>)
      requires FetchesWithRetry(fetch, net.answer, config)
      requires pulls > 0 && Truthy(current) && (!Bounded(config) || count < config.maxPages.value)
      modifies net
      ensures stop ==> (StreamFrom(fetch, config, pp, current, count, pulls, yielded, old(net.log))
                        == Streamed(yielded, count, net.log))
      ensures !stop ==> (StreamFrom(fetch, config, pp, current, count, pulls, yielded, old(net.log))
                         == StreamFrom(fetch, config, pp, next, count + 1, pulls - 1, grown, net.log))
    {
      ghost var before := net.log;
      stop, next, grown := true, current, yielded;
      var response := FetchPageWithRetry(net, current, Some(count));
      assert fetch(current, count, before) == Fetched(response, net.log);
      if response.Err? {
        StreamStopsOnFailure(fetch, config, pp, current, count, pulls, yielded, before);
        return;
      }
      var items := PropertyValue(response.value, pp);
      if items.Err? {
        StreamEndsOnPage(fetch, config, pp, current, count, pulls, yielded, before, response.value);
        return;
      }
      var more := Items(items.value);
      if more.None? {
        StreamEndsOnPage(fetch, config, pp, current, count, pulls, yielded, before, response.value);
        return;
      }
      stop, next, grown := false, ExtractNextPageUrl(response.value), yielded + more.value;
      StreamContinues(fetch, config, pp, current, count, pulls, yielded, before, response.value, more.value,
                      next, count + 1, pulls - 1, grown, net.log);
    }

    /** The cursor loop of stream_all_pages, from the first page's link
      * with that page counted and its items yielded, each page fetched as
      * `fetch` says. */
    method StreamChain(net: Transport, ghost fetch: PageFetch, pp: Json, start: Json, first: seq<Json>, fuel: nat)
      returns (yielded: seq<Json>)
      requires FetchesWithRetry(fetch, net.answer, config)
      modifies net
      ensures var s := StreamFrom(fetch, config, pp, start, 1, fuel, first, old(net.log));
        yielded == s.items && net.log == s.log
    {
      yielded := first;
      ghost var streamed := StreamFrom(fetch, config, pp, start, 1, fuel, yielded, net.log);
      var currentUrl := start;
      var pageCount: nat := 1;
      var pulls := fuel;
      while pulls > 0 && Truthy(currentUrl) && (!Bounded(config) || pageCount < config.maxPages.value)
        invariant StreamFrom(fetch, config, pp, currentUrl, pageCount, pulls, yielded, net.log) == streamed
        decreases pulls
      {
        var stop, next, grown := PullPage(net, fetch, pp, currentUrl, pageCount, pulls, yielded);
        if stop {
          break;
        }
        currentUrl, pageCount, pulls, yielded := next, pageCount + 1, pulls - 1, grown;
      }
      assert streamed.items == yielded && streamed.log == net.log;
    }
  }
}
