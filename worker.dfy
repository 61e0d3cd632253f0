/**
 * The queue worker's batching buffer and job handler
 * (backend/src/queue/worker.js).
 *
 * The module-level `mediaBuffer` becomes a field of `WorkerState`; the Media
 * table's `bulkCreate` becomes a method of `MediaTable` that either stores the
 * whole batch or throws, the choice being the database's. Ghost logs record
 * every batch offered to the table, every batch it stored and every record the
 * worker ever pushed, so that conservation (`stored ++ buffer == pushed`) is
 * the object invariant.
 */
module Worker {
  import opened Wrappers
  import opened Media
  import Scraper

  /** A flush is attempted once the buffer holds this many records. */
  const BATCH_SIZE: nat := 50

  /** The row pushed for one extracted item: `{type, url, sourceUrl: job url, altText: alt || null}`. */
  function ToRecord(item: Scraper.MediaItem, jobUrl: string): (r: MediaRecord)
    ensures r.kind == item.kind && r.url == item.url && r.sourceUrl == jobUrl
    ensures r.altText.None? <==> item.alt == ""
    ensures r.altText.Some? ==> r.altText.value == item.alt
  {
    MediaRecord(item.kind, item.url, jobUrl, if item.alt != "" then Some(item.alt) else None)
  }

  /** The rows a job pushes, in extraction order. */
  function ToRecords(items: seq<Scraper.MediaItem>, jobUrl: string): (records: seq<MediaRecord>)
    ensures |records| == |items|
    ensures forall k :: 0 <= k < |items| ==> records[k] == ToRecord(items[k], jobUrl)
  {
    if items == [] then []
    else ToRecords(items[..|items| - 1], jobUrl) + [ToRecord(items[|items| - 1], jobUrl)]
  }

  /** The rows of a sequence of batches, batch after batch. */
  function Flatten(batches: seq<seq<MediaRecord>>): seq<MediaRecord> {
    if batches == [] then []
    else Flatten(batches[..|batches| - 1]) + batches[|batches| - 1]
  }

  /** Storing one more batch adds exactly its rows, after the rows stored before. */
  lemma FlattenPush(batches: seq<seq<MediaRecord>>, batch: seq<MediaRecord>)
    ensures Flatten(batches + [batch]) == Flatten(batches) + batch
  {
    assert (batches + [batch])[..|batches|] == batches;
  }

  /** Every batch holds at least BATCH_SIZE rows. */
  predicate AllFull(offered: seq<seq<MediaRecord>>)
    decreases |offered|
  {
    offered != [] ==> AllFull(offered[..|offered| - 1]) && |offered[|offered| - 1]| >= BATCH_SIZE
  }

  lemma {:induction false} AllFullAt(offered: seq<seq<MediaRecord>>)
    requires AllFull(offered)
    ensures forall k :: 0 <= k < |offered| ==> |offered[k]| >= BATCH_SIZE
    decreases |offered|
  {
    if offered != [] {
      var init := offered[..|offered| - 1];
      AllFullAt(init);
      assert forall k :: 0 <= k < |init| ==> offered[k] == init[k];
    }
  }

  /**
   * `offered` are the consecutive BATCH_SIZE-row chunks at the front of `rows`:
   * the batches a buffer flushed at every BATCH_SIZE rows hands to the table.
   */
  predicate FlushedInChunks(offered: seq<seq<MediaRecord>>, rows: seq<MediaRecord>)
    decreases |offered|
  {
    offered != [] ==>
      && FlushedInChunks(offered[..|offered| - 1], rows)
      && BATCH_SIZE * |offered| <= |rows|
      && offered[|offered| - 1] == rows[BATCH_SIZE * (|offered| - 1)..BATCH_SIZE * |offered|]
  }

  /** Chunk k is rows k * BATCH_SIZE up to (k + 1) * BATCH_SIZE, each of them BATCH_SIZE rows. */
  lemma {:induction false} FlushedInChunksAt(offered: seq<seq<MediaRecord>>, rows: seq<MediaRecord>)
    requires FlushedInChunks(offered, rows)
    ensures BATCH_SIZE * |offered| <= |rows|
    ensures forall k :: 0 <= k < |offered| ==>
      offered[k] == rows[BATCH_SIZE * k..BATCH_SIZE * (k + 1)] && |offered[k]| == BATCH_SIZE
    decreases |offered|
  {
    if offered != [] {
      var init := offered[..|offered| - 1];
      FlushedInChunksAt(init, rows);
      assert forall k :: 0 <= k < |init| ==> offered[k] == init[k];
    }
  }

  /**
   * The state of a job's buffering that started below BATCH_SIZE rows, after
   * `pushed` of the job's `rows` (buffered rows first): the table was offered
   * the chunks before the buffer, and the buffer holds the rest, fewer than
   * BATCH_SIZE rows.
   */
  predicate Chunked(offered: seq<seq<MediaRecord>>, rows: seq<MediaRecord>, buffer: seq<MediaRecord>, pushed: int) {
    && FlushedInChunks(offered, rows)
    && BATCH_SIZE * |offered| <= pushed <= |rows|
    && buffer == rows[BATCH_SIZE * |offered|..pushed]
    && |buffer| < BATCH_SIZE
  }

  /** Pushing one more row below the threshold keeps the chunking. */
  lemma PushChunked(offered: seq<seq<MediaRecord>>, rows: seq<MediaRecord>, buffer: seq<MediaRecord>, pushed: int)
    requires Chunked(offered, rows, buffer, pushed) && pushed < |rows| && |buffer| + 1 < BATCH_SIZE
    ensures Chunked(offered, rows, buffer + [rows[pushed]], pushed + 1)
  {
    assert rows[BATCH_SIZE * |offered|..pushed + 1] == rows[BATCH_SIZE * |offered|..pushed] + [rows[pushed]];
  }

  /** The row that brings the buffer to BATCH_SIZE completes the next chunk. */
  lemma FlushChunked(offered: seq<seq<MediaRecord>>, rows: seq<MediaRecord>, buffer: seq<MediaRecord>, pushed: int)
    requires Chunked(offered, rows, buffer, pushed) && pushed < |rows| && |buffer| + 1 == BATCH_SIZE
    ensures FlushedInChunks(offered + [buffer + [rows[pushed]]], rows)
    ensures Chunked(offered + [buffer + [rows[pushed]]], rows, [], pushed + 1)
  {
    var full := buffer + [rows[pushed]];
    assert full == rows[BATCH_SIZE * |offered|..pushed + 1];
    assert (offered + [full])[..|offered|] == offered;
  }

  /** When all rows are pushed, the chunks and the buffer split the rows by BATCH_SIZE. */
  lemma ChunkedAll(offered: seq<seq<MediaRecord>>, rows: seq<MediaRecord>, buffer: seq<MediaRecord>)
    requires Chunked(offered, rows, buffer, |rows|)
    ensures |offered| == |rows| / BATCH_SIZE && |buffer| == |rows| % BATCH_SIZE
  {
    assert |rows| == BATCH_SIZE * |offered| + |buffer|;
  }

  /**
   * What buffering a job's `records` onto a buffer that held `start` did:
   * `added` are the rows pushed, `buffer` what the buffer holds afterwards,
   * `offered` the batches handed to the table and `stored` those it kept.
   * On success every record was pushed, every batch offered was stored and the
   * buffer is left below BATCH_SIZE rows; on failure the rows up to the failed
   * flush were pushed, every batch before the last was stored and the last,
   * still in the buffer, was refused. Every batch offered holds BATCH_SIZE rows
   * or more; when the buffer started below BATCH_SIZE they are exactly the
   * consecutive BATCH_SIZE-row chunks of `start + records`, and on success
   * their number and the rows left over are the quotient and the remainder of
   * the row count by BATCH_SIZE.
   */
  predicate Buffered(start: seq<MediaRecord>, records: seq<MediaRecord>, added: seq<MediaRecord>,
                     buffer: seq<MediaRecord>, offered: seq<seq<MediaRecord>>, stored: seq<seq<MediaRecord>>, ok: bool)
  {
    && AllFull(offered)
    && (ok ==> added == records && stored == offered && (records != [] ==> |buffer| < BATCH_SIZE))
    && (!ok ==>
          && 0 < |added| <= |records| && added == records[..|added|]
          && |buffer| >= BATCH_SIZE && offered != [] && offered[|offered| - 1] == buffer
          && stored == offered[..|offered| - 1])
    && (|start| < BATCH_SIZE ==> FlushedInChunks(offered, start + records))
    && (|start| < BATCH_SIZE && ok ==>
          && |offered| == (|start| + |records|) / BATCH_SIZE
          && |buffer| == (|start| + |records|) % BATCH_SIZE)
  }

  /**
   * The handler's loop after the first `pushed` records, every flush so far
   * having succeeded: `buffer` is what the buffer holds and `offered` the
   * batches handed to the table.
   */
  predicate Buffering(start: seq<MediaRecord>, records: seq<MediaRecord>, pushed: int,
                      buffer: seq<MediaRecord>, offered: seq<seq<MediaRecord>>)
  {
    && 0 <= pushed <= |records|
    && AllFull(offered)
    && (pushed == 0 ==> buffer == start && offered == [])
    && (pushed > 0 ==> |buffer| < BATCH_SIZE)
    && (|start| < BATCH_SIZE ==> Chunked(offered, start + records, buffer, |start| + pushed))
  }

  /** Before the loop nothing is pushed and nothing offered. */
  lemma BufferingStart(start: seq<MediaRecord>, records: seq<MediaRecord>)
    ensures Buffering(start, records, 0, start, [])
  {
    assert (start + records)[..|start|] == start;
  }

  /**
   * The handler's loop after `pushed` records: while every flush has succeeded
   * it is still buffering, and once a flush was refused the buffering failed.
   */
  predicate LoopState(start: seq<MediaRecord>, records: seq<MediaRecord>, pushed: int, buffer: seq<MediaRecord>,
                      offered: seq<seq<MediaRecord>>, kept: seq<seq<MediaRecord>>, ok: bool)
  {
    && 0 <= pushed <= |records|
    && (ok ==> Buffering(start, records, pushed, buffer, offered) && kept == offered)
    && (!ok ==> Buffered(start, records, records[..pushed], buffer, offered, kept, false))
  }

  /**
   * One more record pushed: below BATCH_SIZE it just joins the buffer; at
   * BATCH_SIZE the full buffer is offered, and the loop either goes on with an
   * empty buffer or, if the table refuses it, ends as a failed buffering.
   */
  lemma BufferingPush(start: seq<MediaRecord>, records: seq<MediaRecord>, pushed: int,
                      buffer: seq<MediaRecord>, offered: seq<seq<MediaRecord>>, ok: bool)
    requires Buffering(start, records, pushed, buffer, offered) && pushed < |records|
    requires |buffer + [records[pushed]]| < BATCH_SIZE ==> ok
    ensures var full := buffer + [records[pushed]];
      if |full| >= BATCH_SIZE then
        LoopState(start, records, pushed + 1, if ok then [] else full, offered + [full],
                  if ok then offered + [full] else offered, ok)
      else
        LoopState(start, records, pushed + 1, full, offered, offered, true)
  {
    var rows := start + records;
    var full := buffer + [records[pushed]];
    if |start| < BATCH_SIZE {
      assert rows[|start| + pushed] == records[pushed];
      if |full| >= BATCH_SIZE {
        FlushChunked(offered, rows, buffer, |start| + pushed);
      } else {
        PushChunked(offered, rows, buffer, |start| + pushed);
      }
    }
    if |full| >= BATCH_SIZE {
      assert (offered + [full])[..|offered|] == offered;
    }
  }

  /**
   * Where the loop ends: with every record pushed and every flush stored the
   * buffering succeeded; a refused flush has already made it a failure.
   */
  lemma BufferingEnd(start: seq<MediaRecord>, records: seq<MediaRecord>, pushed: int, buffer: seq<MediaRecord>,
                     offered: seq<seq<MediaRecord>>, kept: seq<seq<MediaRecord>>, ok: bool)
    requires LoopState(start, records, pushed, buffer, offered, kept, ok)
    requires ok ==> pushed == |records|
    ensures Buffered(start, records, records[..pushed], buffer, offered, kept, ok)
  {
    if ok {
      assert records[..pushed] == records;
      if |start| < BATCH_SIZE {
        ChunkedAll(offered, start + records, buffer);
      }
    }
  }

  /** What a job reports on success: `{found: mediaItems.length}`. */
  datatype JobSummary = JobSummary(found: nat)

  /** Why a job failed: the scraper's error, or the error `bulkCreate` threw during a flush. */
  datatype JobError = ScrapeFailed(message: string) | SaveFailed

  /** The `media` table as seen by `bulkCreate`: each call stores the whole batch or nothing. */
  class MediaTable {
    /** Every batch passed to `bulkCreate`, in call order. */
    ghost var attempts: seq<seq<MediaRecord>>
    /** The batches the calls stored. */
    ghost var batches: seq<seq<MediaRecord>>
    /** The rows the table holds, in insertion order. */
    ghost var stored: seq<MediaRecord>

    /** The table holds exactly the rows of the stored batches. */
    ghost predicate Valid()
      reads this
    {
      stored == Flatten(batches)
    }

    constructor ()
      ensures Valid()
      ensures attempts == [] && batches == [] && stored == []
    {
      attempts := [];
      batches := [];
      stored := [];
    }

    /** `models.Media.bulkCreate(records)`: returns false where the call throws. */
    method BulkCreate(records: seq<MediaRecord>) returns (ok: bool)
      requires Valid()
      modifies this
      ensures Valid()
      ensures attempts == old(attempts) + [records]
      ensures batches == if ok then old(batches) + [records] else old(batches)
      ensures stored == if ok then old(stored) + records else old(stored)
    {
      ok :| true;
      attempts := attempts + [records];
      if ok {
        FlattenPush(batches, records);
        batches := batches + [records];
        stored := stored + records;
      }
    }
  }

  class WorkerState {
    const table: MediaTable
    /** `mediaBuffer`: rows pushed and not yet stored, oldest first. */
    var mediaBuffer: seq<MediaRecord>
    /** Every row ever pushed onto `mediaBuffer`, in push order. */
    ghost var appended: seq<MediaRecord>

    /** Conservation: the stored rows followed by the buffered rows are exactly the pushed rows. */
    ghost predicate Valid()
      reads this, table
    {
      table.Valid() && table.stored + mediaBuffer == appended
    }

    constructor ()
      ensures Valid() && fresh(table)
      ensures mediaBuffer == [] && appended == []
      ensures table.attempts == [] && table.batches == [] && table.stored == []
    {
      table := new MediaTable();
      mediaBuffer := [];
      appended := [];
    }

    /** `mediaBuffer.push(record)`. */
    method Append(record: MediaRecord)
      requires Valid()
      modifies this
      ensures Valid()
      ensures mediaBuffer == old(mediaBuffer) + [record]
      ensures appended == old(appended) + [record]
    {
      mediaBuffer := mediaBuffer + [record];
      appended := appended + [record];
    }

    /**
     * `flushBuffer()`, also what the periodic timer runs. An empty buffer makes
     * no call; otherwise the buffer is offered as one batch and cleared only if
     * the table stored it. Returns false where the call throws.
     */
    method FlushBuffer() returns (ok: bool)
      requires Valid()
      modifies this, table
      ensures Valid() && appended == old(appended)
      ensures old(mediaBuffer) == [] ==>
        ok && mediaBuffer == [] && table.attempts == old(table.attempts) && table.batches == old(table.batches)
      ensures old(mediaBuffer) != [] ==> table.attempts == old(table.attempts) + [old(mediaBuffer)]
      ensures ok ==> mediaBuffer == [] && table.stored == appended
      ensures ok && old(mediaBuffer) != [] ==> table.batches == old(table.batches) + [old(mediaBuffer)]
      ensures !ok ==> mediaBuffer == old(mediaBuffer) && table.batches == old(table.batches)
    {
      ok := true;
      if |mediaBuffer| > 0 {
        ok := table.BulkCreate(mediaBuffer);
        if ok {
          mediaBuffer := [];
        }
      }
    }

    /**
     * The job handler: scrape the job's URL, push one row per extracted item,
     * flushing whenever the buffer reaches BATCH_SIZE, and report how many
     * items were found. A scrape error or a failed flush fails the job; rows
     * pushed before a failed flush stay in the buffer.
     */
    method ProcessJob(url: string, fetch: Scraper.Fetch, resolve: Scraper.Resolver)
      returns (r: Result<JobSummary, JobError>)
      requires Valid()
      modifies this, table
      ensures Valid()
      ensures fetch.FetchFailed? ==>
        && r == Failure(ScrapeFailed("Failed to scrape " + url + ": " + fetch.message))
        && mediaBuffer == old(mediaBuffer) && appended == old(appended)
        && table.attempts == old(table.attempts) && table.batches == old(table.batches)
      ensures fetch.Fetched? ==> r.Success? || r == Failure(SaveFailed)
      ensures fetch.Fetched? ==>
        && old(appended) <= appended
        && old(table.attempts) <= table.attempts && old(table.batches) <= table.batches
        && Buffered(old(mediaBuffer), ToRecords(Scraper.Extract(fetch.page, url, resolve), url),
                    appended[|old(appended)|..], mediaBuffer,
                    table.attempts[|old(table.attempts)|..], table.batches[|old(table.batches)|..], r.Success?)
      ensures r.Success? ==> fetch.Fetched? && r.value.found == |Scraper.Extract(fetch.page, url, resolve)|
    {
      var scraped := Scraper.ScrapeUrl(url, fetch, resolve);
      if scraped.Failure? {
        return Failure(ScrapeFailed(scraped.error));
      }
      var mediaItems := scraped.value;
      assert fetch.Fetched? && mediaItems == Scraper.Extract(fetch.page, url, resolve);
      var ok := BufferItems(url, mediaItems);
      if !ok {
        return Failure(SaveFailed);
      }
      return Success(JobSummary(|mediaItems|));
    }

    /**
     * One turn of the handler's loop: push the row, and flush if the buffer now
     * holds BATCH_SIZE rows or more. Returns false where that flush throws.
     */
    method PushRecord(record: MediaRecord) returns (ok: bool)
      requires Valid()
      modifies this, table
      ensures Valid()
      ensures appended == old(appended) + [record]
      ensures var full := old(mediaBuffer) + [record];
        if |full| >= BATCH_SIZE then
          && table.attempts == old(table.attempts) + [full]
          && (ok ==> mediaBuffer == [] && table.batches == old(table.batches) + [full])
          && (!ok ==> mediaBuffer == full && table.batches == old(table.batches))
        else
          ok && mediaBuffer == full && table.attempts == old(table.attempts) && table.batches == old(table.batches)
    {
      Append(record);
      ok := true;
      if |mediaBuffer| >= BATCH_SIZE {
        ok := FlushBuffer();
      }
    }

    /**
     * The handler's `for` loop: push the row of each item in turn and flush as
     * soon as the buffer holds BATCH_SIZE rows. Returns false at the first
     * flush that throws, leaving the rows pushed so far in the buffer.
     */
    method BufferItems(url: string, mediaItems: seq<Scraper.MediaItem>) returns (ok: bool)
      requires Valid()
      modifies this, table
      ensures Valid()
      ensures old(appended) <= appended
      ensures old(table.attempts) <= table.attempts && old(table.batches) <= table.batches
      ensures Buffered(old(mediaBuffer), ToRecords(mediaItems, url), appended[|old(appended)|..], mediaBuffer,
                       table.attempts[|old(table.attempts)|..], table.batches[|old(table.batches)|..], ok)
    {
      ghost var start := mediaBuffer;
      ghost var records := ToRecords(mediaItems, url);
      ghost var offered: seq<seq<MediaRecord>> := [];
      ghost var kept: seq<seq<MediaRecord>> := [];
      BufferingStart(start, records);
      ok := true;
      var i := 0;
      while i < |mediaItems| && ok
        invariant Valid()
        invariant 0 <= i <= |mediaItems|
        invariant LoopState(start, records, i, mediaBuffer, offered, kept, ok)
        invariant appended == old(appended) + records[..i]
        invariant table.attempts == old(table.attempts) + offered
        invariant table.batches == old(table.batches) + kept
      {
        var item := mediaItems[i];
        ghost var buffer := mediaBuffer;
        ghost var full := buffer + [records[i]];
        ok := PushRecord(ToRecord(item, url));
        BufferingPush(start, records, i, buffer, offered, ok);
        assert records[..i + 1] == records[..i] + [records[i]];
        if |full| >= BATCH_SIZE {
          kept := if ok then offered + [full] else offered;
          offered := offered + [full];
        }
        i := i + 1;
      }
      BufferingEnd(start, records, i, mediaBuffer, offered, kept, ok);
      assert appended[|old(appended)|..] == records[..i];
      assert table.attempts[|old(table.attempts)|..] == offered;
      assert table.batches[|old(table.batches)|..] == kept;
    }
  }
}
