# media-scraper, modelled in Dafny

media-scraper accepts lists of web-page URLs over an HTTP API. It queues one
scrape job per URL. A queue worker downloads each page and extracts its image
and video references. It stores them in a `media` table: it flushes its buffer
when 50 rows have built up, and every 5 seconds.
A React gallery pages through the stored rows.

This project models the four pieces of logic that decide what happens to the
data. It proves properties of each one.

- `scraper.dfy` (module `Scraper`) covers the extraction rules of the scraper
  service (`backend/src/services/scraper.js`).
  - The parsed page is the list, in document order, of the elements the three
    selectors visit: `img`, `video`, a `source` inside a `video`, and `iframe`.
    Each attribute is either absent or a string.
  - The three `.each` passes are three loops that push onto the local `media`
    list. They are proved against the `Scan`/`Extract` functions.
  - The properties proved about `Extract` are:
    - membership, rule by rule;
    - images come before videos;
    - the output is no longer than the page;
    - a source's length is counted in UTF-16 code units, as JavaScript's
      `length` counts it;
    - two worked pages.
- `worker.dfy` (module `Worker`) covers the worker's module-level `mediaBuffer`
  and its job handler (`backend/src/queue/worker.js`).
  - The buffer is a field of the class `WorkerState`.
  - The table's `bulkCreate` is a method of the class `MediaTable`. It either
    stores the whole batch or throws; the database decides which.
  - Ghost logs record every batch offered to the table, every batch it stored,
    the rows the table holds, and every row the worker pushed.
  - The object invariant is conservation: the stored rows followed by the
    buffered rows are exactly the pushed rows.
  - The handler's loop is proved against the predicate `Buffered`. It states
    what one job's buffering does to the buffer and the table: which rows were
    pushed, which batches were offered and which were stored. It also states
    that a job starting below 50 buffered rows offers the consecutive 50-row
    chunks of its rows. The number of chunks is the quotient by 50, and the
    rows left in the buffer are the remainder.
- `pagination.dfy` (module `Pagination`) covers the gallery's page window
  (`frontend/src/components/Pagination.jsx`). It computes which page buttons
  show, when each ellipsis shows, and where the four navigation buttons lead.
- `api.dfy` (module `Api`) covers the two API routes
  (`backend/src/routes/api.js`).
  - `POST /scrape` validates the body and builds one job per URL.
  - `GET /media` builds the search options and the `pagination` block of the
    reply.
- `media.dfy` holds the persisted row (`backend/src/models/Media.js`).
- `wrappers.dfy` holds `Option` and `Result`.

Some calls are outside the model and become parameters:
- the HTTP fetch and the HTML parse: a `Fetch` value, either the page or the
  error message;
- the WHATWG URL parser: a function `resolve` that yields the resolved `href`,
  or `None` where `new URL` throws;
- whether `addBulk` throws: a boolean;
- the row count `findAndCountAll` returns: a number.

## Model

| member | source | states |
|---|---|---|
| `Scraper.IsValidUrl` | backend/src/services/scraper.js:67-72 | A source is valid exactly when its JavaScript `length` (UTF-16 code units, `Utf16Length`) is at least 5 and it does not start with `data:`. The empty source is therefore invalid, and the base URL plays no part |
| `Scraper.Utf16LengthBounds` | backend/src/services/scraper.js:68 | A string's UTF-16 length lies between its number of code points and twice that: characters outside the Basic Multilingual Plane count as two units |
| `Scraper.AstralCharactersCountTwice` | backend/src/services/scraper.js:68 | Two emoji followed by one letter make a valid source: three code points, but five UTF-16 units |
| `Scraper.Contains` | backend/src/services/scraper.js:50 | `String.prototype.includes`, defined by recursion on the string; its meaning is stated by `ContainsOccurs` |
| `Scraper.NormalizeUrl` | backend/src/services/scraper.js:75-81 | The result is the resolver's `href` when resolution succeeds, and the source unchanged when the URL constructor throws |
| `Scraper.ContainsOccurs` | backend/src/services/scraper.js:50 | The recursive `includes` holds exactly when the part occurs in the string at some index |
| `Scraper.Emit` | backend/src/services/scraper.js:20-57 | The record one pass pushes for one element, if any: the `.each` callback of that pass's selector. Its rules are stated, pass by pass, by `ImagesEmitted`, `VideosEmitted`, `IframesEmitted` and `ScanKinds` |
| `Scraper.Extract` | backend/src/services/scraper.js:19-57 | The list `scrapeUrl` returns: the three passes' records concatenated. `ExtractMedia` is proved to compute it; `ExtractOrder` and `ExtractLength` state its order and size |
| `Scraper.ExtractMedia` | backend/src/services/scraper.js:7-57 | The three passes over the page leave in `media` exactly `Extract(page)`: the image records, then the video records, then the player-frame records |
| `Scraper.PushImages` | backend/src/services/scraper.js:20-31 | The `img` loop appends to the list exactly the image records of the page, in document order |
| `Scraper.PushVideos` | backend/src/services/scraper.js:34-44 | The `video source, video` loop appends exactly the video records of the page, in document order |
| `Scraper.PushFrames` | backend/src/services/scraper.js:47-57 | The `iframe` loop appends exactly the player-frame records of the page, in document order |
| `Scraper.ScrapeUrl` | backend/src/services/scraper.js:6-64 | A fetched page yields the whole extracted list. A fetch or parse error yields only the error `Failed to scrape <url>: <message>`, never a partial list |
| `Scraper.ScanStep` | backend/src/services/scraper.js:20-57 | One more element of the page adds what that element emits, after the records of the elements before it |
| `Scraper.ScanLast` | backend/src/services/scraper.js:20-57 | A nonempty page yields the records of all but its last element, followed by what the last element emits |
| `Scraper.ScanSingle` | backend/src/services/scraper.js:20-57 | A one-element page yields exactly what that element emits |
| `Scraper.ScanAppend` | backend/src/services/scraper.js:20-57 | Each pass keeps document order: scanning two parts of a page yields the first part's records followed by the second part's |
| `Scraper.ScanMembers` | backend/src/services/scraper.js:20-57 | A record is in a pass's output exactly when some element of the page emits it under that pass |
| `Scraper.ScanKinds` | backend/src/services/scraper.js:20-57 | Every record of the image pass has type image, and every record of the video and frame passes has type video |
| `Scraper.ImagesEmitted` | backend/src/services/scraper.js:20-31 | An image record is in the output exactly when some `img` has a valid `src` (or else `data-src`). The record's URL is that source normalised, and its alt is the `alt` attribute or '' |
| `Scraper.VideosEmitted` | backend/src/services/scraper.js:34-44 | A video record from this pass is in the output exactly when some `video` or `video source` has a valid `src`. The record's URL is the normalised `src`, and its alt is '' |
| `Scraper.IframesEmitted` | backend/src/services/scraper.js:47-57 | A frame record is in the output exactly when some `iframe`'s `src` mentions youtube.com, vimeo.com or player. Its URL is that literal `src`, and an iframe without `src` never matches |
| `Scraper.ExtractOrder` | backend/src/services/scraper.js:19-57 | In the returned list no image record follows a video record |
| `Scraper.ExtractLength` | backend/src/services/scraper.js:19-57 | Each element yields at most one record, so the list is no longer than the page |
| `Scraper.ScanLengths` | backend/src/services/scraper.js:19-57 | The three passes together yield at most one record per element of the page |
| `Scraper.DataFrameEmitted` | backend/src/services/scraper.js:47-57 | An iframe whose `src` is a `data:` URI mentioning "player" is returned as a video record with that raw `src`: the frame rule skips the validity check and the normalisation |
| `Scraper.VimeoFrameEmitted` | backend/src/services/scraper.js:47-57 | An iframe whose `src` is a Vimeo URL is emitted, with that literal URL, by the frame pass and by no other pass |
| `Scraper.ScanThree` | backend/src/services/scraper.js:20-57 | A three-element page yields what its elements emit, in page order |
| `Scraper.ExampleImagesEmitted` | backend/src/services/scraper.js:20-31 | An `img` with an absolute `src` and an `img` with only a relative `data-src` each yield one image record from the image pass, with the resolved URL and the alt text, and nothing from the other passes |
| `Scraper.TwoImagesAndAFrame` | backend/src/services/scraper.js:20-57 | A page with an absolute image, an image that has only a relative `data-src`, and a Vimeo frame yields exactly three records: both images normalised and in page order, then the literal frame URL |
| `Worker.ToRecord` | backend/src/queue/worker.js:33-38 | The pushed row keeps the item's type and URL, takes the job URL as its source, and has alt text null exactly when the item's alt is empty |
| `Worker.ToRecords` | backend/src/queue/worker.js:32-38 | A job pushes one row per item, in item order, each row built by `ToRecord` |
| `Worker.AllFullAt` | backend/src/queue/worker.js:40-43 | In a list of batches that are all full, every batch holds at least 50 rows |
| `Worker.FlushedInChunksAt` | backend/src/queue/worker.js:32-44 | When the batches are the chunks of a row list, batch k is exactly rows 50k up to 50(k + 1), so it holds 50 rows |
| `Worker.PushChunked` | backend/src/queue/worker.js:33-41 | Pushing one row while the buffer stays below 50 keeps the buffer equal to the rows after the last chunk |
| `Worker.FlushChunked` | backend/src/queue/worker.js:33-43 | The row that brings the buffer to 50 completes the next 50-row chunk, and an emptied buffer starts the one after |
| `Worker.ChunkedAll` | backend/src/queue/worker.js:32-44 | Once all rows are pushed, the number of chunks is the row count divided by 50, and the buffer holds the remainder |
| `Worker.BufferingStart` | backend/src/queue/worker.js:32 | Before the loop nothing is pushed or offered, and the buffer is as the job found it |
| `Worker.BufferingPush` | backend/src/queue/worker.js:33-43 | One more row either joins a buffer still below 50, or makes the buffer full. A full buffer is offered, and it is then either stored and cleared or refused, which ends the loop as a failure |
| `Worker.BufferingEnd` | backend/src/queue/worker.js:32-47 | A loop that pushed every row with every flush stored is a successful buffering; one stopped by a refused flush is a failed one |
| `Worker.FlattenPush` | backend/src/queue/worker.js:12 | Storing one more batch adds exactly its rows, after the rows already stored |
| `Worker.MediaTable.BulkCreate` | backend/src/queue/worker.js:12 | Each call is logged as an attempt. The call either stores the whole batch, adding its rows after those the table holds, or stores nothing |
| `Worker.WorkerState.Append` | backend/src/queue/worker.js:33-38 | Pushing a row appends it to the buffer and keeps conservation |
| `Worker.WorkerState.FlushBuffer` | backend/src/queue/worker.js:10-16 | An empty buffer makes no call. Otherwise the whole buffer is offered as one batch. On success the buffer is stored and cleared, and every pushed row is stored. On failure the buffer and the table are unchanged. Conservation holds either way |
| `Worker.WorkerState.PushRecord` | backend/src/queue/worker.js:33-43 | One turn of the loop: the row is pushed. If the buffer then holds 50 rows or more, it is offered as one batch and is either stored and cleared, or refused and left as it was. Below 50 nothing is offered |
| `Worker.WorkerState.BufferItems` | backend/src/queue/worker.js:32-44 | The logs only grow, and the new part satisfies `Buffered`. Every table call carries at least 50 rows. On success every item's row is pushed in order, every batch offered was stored, and the buffer ends below 50 rows. At the first failed flush the loop stops: a nonempty prefix of the job's rows has been pushed, the batches before the failed one were stored, and the buffer still holds what the failed call was offered. When the buffer started below 50 rows, the batches offered are exactly the consecutive 50-row chunks of the old buffer followed by the job's rows. On success there are (old + new rows) / 50 of them, and the buffer keeps the remainder |
| `Worker.WorkerState.ProcessJob` | backend/src/queue/worker.js:23-52 | A scrape error fails the job with the scraper's message and changes nothing. Otherwise the job's buffering of the extracted items satisfies `Buffered`, exactly as in `BufferItems`, with success meaning the job succeeded. A successful job reports `found` = the number of items. A failed flush fails the job. Conservation holds in all cases |
| `Worker.WorkerState.constructor` | backend/src/queue/worker.js:7 | The worker starts with an empty buffer and an empty table |
| `Pagination.Range` | frontend/src/components/Pagination.jsx:14-16 | The list holds hi - lo + 1 pages (none if hi < lo), the k-th being lo + k |
| `Pagination.RangeMembers` | frontend/src/components/Pagination.jsx:14-16 | A page is in the range exactly when it lies between its two ends |
| `Pagination.Clamp` | frontend/src/components/Pagination.jsx:7-12 | The clamped value lies in the interval; it equals the input inside it, and the nearer end outside it |
| `Pagination.WindowFits` | frontend/src/components/Pagination.jsx:7-12 | With more than one page the window lies inside 1..totalPages, and a current page inside the range lies inside the window |
| `Pagination.SourceWindow` | frontend/src/components/Pagination.jsx:7-12 | The component's two steps (a first guess two pages before the current one, moved back when it runs past the last page) compute exactly the clamped window |
| `Pagination.NavControls` | frontend/src/components/Pagination.jsx:20-58 | The targets of the first, previous, next and last buttons (1, current - 1, current + 1, totalPages) and their `disabled` conditions; `ControlsLeadToOtherPages` states what they mean |
| `Pagination.ControlsLeadToOtherPages` | frontend/src/components/Pagination.jsx:20-58 | On a page inside the range, each of first, previous, next and last is disabled exactly when its target is the current page or lies outside 1..totalPages |
| `Pagination.Render` | frontend/src/components/Pagination.jsx:1-58 | Nothing renders exactly when there is at most one page. Otherwise the buttons are the min(5, totalPages) consecutive pages of the window that starts two before the current page and is shifted to fit inside 1..totalPages. The current page is among them, each ellipsis shows exactly when page 1 (or the last page) has no button, and the navigation buttons are the four of `NavControls` |
| `Api.ScrapeJobs` | backend/src/routes/api.js:18-21 | One `scrape` job per URL, in input order, carrying that URL |
| `Api.JobsRoundTrip` | backend/src/routes/api.js:18-21 | Reading the URLs back out of the jobs gives exactly the submitted list |
| `Api.HandleScrape` | backend/src/routes/api.js:9-33 | Status 400 "urls array is required" exactly when `urls` is missing, is not an array or is empty, and then no job is submitted. Otherwise one job per URL is submitted. The status is 202 with the URL count when `addBulk` succeeds, and 500 "Failed to queue jobs" when it throws |
| `Api.RequestedPage` | backend/src/routes/api.js:38-43 | The `page` parameter, 1 when it is absent; `PlanMediaQuery` and `MediaPageInfo` state its use |
| `Api.RequestedLimit` | backend/src/routes/api.js:38-43 | The `limit` parameter, 20 when it is absent; `PlanMediaQuery` and `MediaPageInfo` state its use |
| `Api.Offset` | backend/src/routes/api.js:45 | The first row of a page: (page - 1) * limit. `PagesCoverRows` states that pages of this offset and the page count cover the matching rows |
| `Api.TotalPages` | backend/src/routes/api.js:75 | The page count is the least n with count <= n * limit |
| `Api.PlanMediaQuery` | backend/src/routes/api.js:38-67 | The limit defaults to 20 and the page to 1, with offset (page - 1) * limit. There is a type filter exactly when `type` is `image` or `video`, and it is that type. There is a search disjunction exactly when `search` is nonempty: case-insensitive `%search%` on url, alt text and source URL |
| `Api.MediaPageInfo` | backend/src/routes/api.js:69-76 | The block reports the count, the requested page and limit, and the least page count that holds the count |
| `Api.PagesCoverRows` | backend/src/routes/api.js:45-75 | Every matching row lies on page row / limit + 1, within that page's offset window, and that page is one of 1..totalPages |

## Left out

- The HTTP request (axios, its 10-second timeout, its User-Agent header) and the cheerio parse are left out. They are I/O, reduced to a `Fetch` value: the page's element list or the error message.
- WHATWG URL resolution is a parameter. The model does not say what `new URL(src, base)` returns, only that `normalizeUrl` falls back to `src` when it throws.
- The model takes the selected elements as given, a list in document order. It does not model nesting: a `source` outside a `video` is simply not in the list.
- The BullMQ queue, its Redis connection, its retry and backoff policy, and the `completed`/`failed` logging are left out as external services. A job retried after a failed mid-job flush pushes its rows again; the model covers one attempt.
- Concurrency between the job handler and the 5-second `setInterval` flush is left out. The model takes each flush as atomic, and the timer is `FlushBuffer`, called by the environment. In the code, `mediaBuffer = []` runs after the `await` (worker.js:12-14). Rows pushed while a timer flush is in flight are therefore dropped without being stored. A threshold flush that overlaps a timer flush can store rows twice. Conservation holds only in this sequential model. With concurrency 1 (worker.js:54) jobs do not overlap one another.
- Worker.WorkerState.BufferItems: the 50-row chunking, the chunk count and the remainder are stated only for a job that finds fewer than 50 rows in the buffer. A fuller buffer arises only after an earlier failed flush. Its first flush then offers the whole buffer plus one row, and for that case the model states only that every batch holds at least 50 rows.
- Worker.WorkerState.ProcessJob: the same limit as `BufferItems` applies to the chunking it states.
- Worker.MediaTable.BulkCreate: the database table, Sequelize, `id` and `created_at` are left out. Only the all-or-nothing outcome of `bulkCreate` is modelled.
- Express, JSON bodies and `parseInt` are left out. Query parameters arrive already parsed to integers: `parseInt`'s `NaN` and the parsing of strings such as `"2abc"` are not modelled.
- Api.MediaPageInfo: requires a positive limit. A negative or `NaN` limit never reaches `Math.ceil`. `findAndCountAll` runs first with the same `LIMIT` (api.js:62-67), the database rejects it, and the route answers 500 (api.js:78-81). Only limit 0 reaches api.js:75. There `count / 0` is `Infinity`, or `NaN` when the count is 0, and JSON encodes either as `null`. The model does not represent that reply.
- Api.TotalPages: is exact integer ceiling. `Math.ceil(count / limit)` in floating point agrees for all counts below 2^53.
- `findAndCountAll` itself is left out: ILIKE matching, the row order `created_at DESC`, and the `data` rows of the reply. The count is a parameter, and the model stops at the options passed to the query.
- The `500 Failed to fetch media` path of `GET /media` is left out. It arises only from a database error, such as the rejection of a negative limit, and the model has no database.
- The rendering of the pagination bar is left out: markup, the `active` class of the current page's button, and the click handlers, which only call `onPageChange(target)`.
- The remaining frontend components and the load-test scripts are not part of this model.

## Behaviour of the code worth knowing

- Iframe sources are pushed raw. They are neither checked by `isValidUrl` nor
  normalised; see `Scraper.DataFrameEmitted`.
- A failed flush inside a job fails the job, because `flushBuffer` rethrows into
  the handler's `catch`. A failed flush from the timer is an unhandled
  rejection.
- A failed flush leaves the buffer as it was. There is no swap of the buffer
  before the write, and no merge-back after it.
- There is no shutdown flush.
