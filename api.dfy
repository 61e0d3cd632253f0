/**
 * The request logic of the two API routes (backend/src/routes/api.js):
 * `POST /scrape` validates the body and turns each URL into one queue job;
 * `GET /media` turns the query string into the options of the paginated
 * search and the pagination block of the reply. Express, the queue and the
 * database are outside the model: whether `addBulk` throws is a parameter, and
 * the row count the search returns is a parameter. Query parameters are taken
 * as already parsed to integers.
 */
module Api {
  import opened Wrappers
  import opened Media

  // ---------------------------------------------------------------------------
  // POST /scrape

  /** The `urls` field of the body as the handler's three checks see it. */
  datatype UrlsField<U> =
    | Falsy              // missing, null, false, 0 or ''
    | NotArray           // present but not an array
    | Array(elements: seq<U>)

  /** `{name: 'scrape', data: {url}}`; the elements are passed on without inspection. */
  datatype Job<U> = Job(name: string, url: U)

  datatype ScrapeReply =
    | BadRequest(error: string)
    | Queued(message: string, count: nat)
    | QueueError(error: string)

  /** The status, the JSON body, and the jobs handed to `scrapeQueue.addBulk` (none if it was not called). */
  datatype ScrapeResponse<U> = ScrapeResponse(status: int, reply: ScrapeReply, submitted: seq<Job<U>>)

  /** `urls.map(url => ({name: 'scrape', data: {url}}))`. */
  function ScrapeJobs<U>(urls: seq<U>): (jobs: seq<Job<U>>)
    ensures |jobs| == |urls|
    ensures forall i :: 0 <= i < |urls| ==> jobs[i] == Job("scrape", urls[i])
  {
    if urls == [] then []
    else ScrapeJobs(urls[..|urls| - 1]) + [Job("scrape", urls[|urls| - 1])]
  }

  /** The URL each job will scrape, job by job. */
  function JobUrls<U>(jobs: seq<Job<U>>): seq<U> {
    if jobs == [] then [] else JobUrls(jobs[..|jobs| - 1]) + [jobs[|jobs| - 1].url]
  }

  /** Every URL becomes exactly one job, in input order: reading the jobs back gives the URLs. */
  lemma {:induction false} JobsRoundTrip<U>(urls: seq<U>)
    ensures JobUrls(ScrapeJobs(urls)) == urls
    decreases |urls|
  {
    if urls != [] {
      var init := urls[..|urls| - 1];
      JobsRoundTrip(init);
      var jobs := ScrapeJobs(urls);
      assert jobs[..|jobs| - 1] == ScrapeJobs(init);
      assert init + [urls[|urls| - 1]] == urls;
    }
  }

  /** The `POST /scrape` handler. */
  function HandleScrape<U>(urls: UrlsField<U>, addBulkSucceeds: bool): (r: ScrapeResponse<U>)
    ensures r.status == 400 <==> !(urls.Array? && urls.elements != [])
    ensures r.status == 400 ==> r.reply == BadRequest("urls array is required") && r.submitted == []
    ensures r.status != 400 ==> urls.Array? && r.submitted == ScrapeJobs(urls.elements)
    ensures r.status == 202 <==> urls.Array? && urls.elements != [] && addBulkSucceeds
    ensures r.status == 202 ==>
      r.reply == Queued("Scraping jobs queued", |urls.elements|) && r.reply.count == |r.submitted|
    ensures r.status == 500 <==> urls.Array? && urls.elements != [] && !addBulkSucceeds
    ensures r.status == 500 ==> r.reply == QueueError("Failed to queue jobs")
  {
    if !urls.Array? || |urls.elements| == 0 then
      ScrapeResponse(400, BadRequest("urls array is required"), [])
    else
      var jobs := ScrapeJobs(urls.elements);
      if addBulkSucceeds then
        ScrapeResponse(202, Queued("Scraping jobs queued", |urls.elements|), jobs)
      else
        ScrapeResponse(500, QueueError("Failed to queue jobs"), jobs)
  }

  // ---------------------------------------------------------------------------
  // GET /media

  /** The query string: each parameter absent, or present (page and limit already parsed). */
  datatype MediaQuery = MediaQuery(page: Option<int>, limit: Option<int>, kind: Option<string>, search: Option<string>)

  const DefaultPage: int := 1
  const DefaultLimit: int := 20

  /** The `type` values that become a filter. */
  const AllowedTypes: seq<string> := ["image", "video"]

  function RequestedPage(q: MediaQuery): int {
    if q.page.Some? then q.page.value else DefaultPage
  }

  function RequestedLimit(q: MediaQuery): int {
    if q.limit.Some? then q.limit.value else DefaultLimit
  }

  /** The first row of page `page` when pages hold `limit` rows. */
  function Offset(page: int, limit: int): int {
    (page - 1) * limit
  }

  /** `Math.ceil(count / limit)`: the fewest pages of `limit` rows that hold `count` rows. */
  function TotalPages(count: nat, limit: int): (n: nat)
    requires limit > 0
    ensures (n - 1) * limit < count <= n * limit
  {
    var n := (count + limit - 1) / limit;
    var rest := (count + limit - 1) % limit;
    assert n * limit + rest == count + limit - 1;
    n
  }

  /** The columns the search looks in. */
  datatype Column = UrlColumn | AltTextColumn | SourceUrlColumn

  /** `{[column]: {[Op.iLike]: pattern}}`. */
  datatype Condition = ILike(column: Column, pattern: string)

  /** `where`: an optional `type` equality and an optional `[Op.or]` list of conditions. */
  datatype Where = Where(kind: Option<MediaType>, anyOf: Option<seq<Condition>>)

  /** The options passed to `findAndCountAll`, newest rows first. */
  datatype FindOptions = FindOptions(where: Where, limit: int, offset: int)

  /** The `pagination` block of the reply. */
  datatype PageInfo = PageInfo(total: nat, page: int, limit: int, totalPages: nat)

  /**
   * The first half of the `GET /media` handler: defaults, the offset, and the
   * `where` object built by conditional assignments.
   */
  method PlanMediaQuery(q: MediaQuery) returns (opts: FindOptions)
    ensures opts.limit == (if q.limit.Some? then q.limit.value else 20)
    ensures opts.offset == Offset(if q.page.Some? then q.page.value else 1, opts.limit)
    ensures opts.where.kind.Some? <==> q.kind.Some? && q.kind.value in AllowedTypes
    ensures opts.where.kind.Some? ==> TypeName(opts.where.kind.value) == q.kind.value
    ensures opts.where.anyOf.Some? <==> q.search.Some? && q.search.value != ""
    ensures opts.where.anyOf.Some? ==>
      var pattern := "%" + q.search.value + "%";
      opts.where.anyOf.value ==
        [ILike(UrlColumn, pattern), ILike(AltTextColumn, pattern), ILike(SourceUrlColumn, pattern)]
  {
    var page := RequestedPage(q);
    var limit := RequestedLimit(q);
    var offset := (page - 1) * limit;
    var where := Where(None, None);

    if q.kind.Some? && q.kind.value in AllowedTypes {
      where := where.(kind := Some(if q.kind.value == "image" then Image else Video));
    }

    if q.search.Some? && q.search.value != "" {
      var pattern := "%" + q.search.value + "%";
      where := where.(anyOf := Some([ILike(UrlColumn, pattern), ILike(AltTextColumn, pattern),
                                   ILike(SourceUrlColumn, pattern)]));
    }

    opts := FindOptions(where, limit, offset);
  }

  /** The second half: the `pagination` block, given the total `count` of matching rows. */
  function MediaPageInfo(q: MediaQuery, count: nat): (info: PageInfo)
    requires RequestedLimit(q) > 0
    ensures info.total == count
    ensures info.page == RequestedPage(q) && info.limit == RequestedLimit(q)
    ensures (info.totalPages - 1) * info.limit < count <= info.totalPages * info.limit
  {
    PageInfo(count, RequestedPage(q), RequestedLimit(q), TotalPages(count, RequestedLimit(q)))
  }

  /**
   * Offsets and the page count agree: every matching row lies on exactly the
   * page row / limit + 1, which is one of the pages 1..totalPages.
   */
  lemma PagesCoverRows(count: nat, limit: int, row: int)
    requires limit > 0 && 0 <= row < count
    ensures var page := row / limit + 1;
      && 1 <= page <= TotalPages(count, limit)
      && Offset(page, limit) <= row < Offset(page, limit) + limit
  {
    var q, r := row / limit, row % limit;
    var n := TotalPages(count, limit);
    assert q * limit + r == row && 0 <= r < limit;
    assert 0 <= q by {
      if q < 0 {
        MulBelow(q, 0, limit);
      }
    }
    assert q * limit < n * limit;
    MulBelow(q, n, limit);
    assert Offset(q + 1, limit) == q * limit;
  }

  lemma MulBelow(a: int, b: int, c: int)
    requires c > 0
    ensures a < b <==> a * c < b * c
  {
    if a < b {
      assert b * c == a * c + (b - a) * c;
    } else {
      assert a * c == b * c + (a - b) * c;
    }
  }
}
