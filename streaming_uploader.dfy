/**
 * `StreamingUploader`: bytes handed to `UploadPart` are cut into chunks of
 * exactly `chunkSize` bytes, each queued with the next part number; a single
 * worker takes the queue in order, uploads each chunk and records
 * `{PartNumber, ETag}` when the upload succeeds; `CompleteUpload` either puts
 * the buffer as the whole object (when no part was recorded) or queues the
 * leftover as a last part, waits for the queue to drain, stops the worker and
 * completes the multipart upload with the recorded parts sorted by number.
 *
 * The worker thread is modelled sequentially: `WorkerStep` is one turn of its
 * loop, and the environment may run it between any two calls, as the thread
 * may run at any time. Joining the queue runs worker steps until the queue
 * is empty.
 */
module StreamingUpload {
  import opened Wrappers
  import opened S3
  import opened Chunking
  import opened Parts
  import opened ContentTypes

  /** The chunk size used when none is given: 5 MiB, the smallest part S3 accepts. */
  const DefaultChunkSize: Size := 5242880

  /**
   * How a call ends: it returns, it raises an error from the store, or it
   * never returns (it joins a queue that no running worker will empty).
   */
  datatype Status = Returned | Raised | Blocked

  class StreamingUploader {
    const client: Client
    const bucket: string
    const key: string
    const chunkSize: Size
    /** What the standard library's guess by file extension answers for `key`. */
    const guessedType: Option<string>

    /** The `BytesIO` buffer: its contents and its cursor. */
    var buffer: seq<byte>
    var pos: nat
    var uploadId: Option<string>
    /** The `{PartNumber, ETag}` entries the worker has recorded, in the order it recorded them. */
    var parts: seq<CompletedPart>
    /** The number the next chunk cut by `UploadPart` gets. */
    var partNumber: int
    /** The upload queue, head first. */
    var queue: seq<QueueItem>
    /** Whether the worker thread is still in its loop. */
    var workerRunning: bool

    /** Every byte passed to `UploadPart`, in order. */
    ghost var received: seq<byte>
    /** Every item ever put on the queue, in order. */
    ghost var enqueued: seq<QueueItem>
    /** What the worker got for each item it has taken, in order (`None` for a failed upload and for the stop signal). */
    ghost var results: seq<Option<string>>

    /**
     * The bookkeeping: the queue is what has been put and not yet taken, the
     * recorded parts are the successful uploads among the items taken, and
     * the worker runs until it has taken a stop signal.
     */
    ghost predicate Consistent()
      reads this
    {
      Bookkeeping(buffer, pos, enqueued, results, queue, parts, workerRunning)
    }

    /** In every state between calls, a running worker has no stop signal waiting for it. */
    ghost predicate Valid()
      reads this
    {
      Consistent() && (workerRunning ==> Sentinel !in queue)
    }

    /**
     * Until `CompleteUpload` is called, the state is determined by the bytes
     * received: the chunks cut from them were queued, numbered 1, 2, ..., and
     * the buffer holds the rest, with the cursor at its end.
     */
    ghost predicate Streaming()
      reads this
    {
      Valid() && Determined(received, chunkSize, enqueued, buffer, pos, partNumber)
    }

    /** A new uploader, its worker started and waiting on the empty queue; chunks are 5 MiB unless told otherwise. */
    constructor (client: Client, bucket: string, key: string, guessedType: Option<string>,
                 chunkSize: Size := DefaultChunkSize)
      ensures this.client == client && this.bucket == bucket && this.key == key
      ensures this.chunkSize == chunkSize && this.guessedType == guessedType
      ensures buffer == [] && pos == 0 && uploadId == None && parts == [] && partNumber == 1
      ensures queue == [] && workerRunning
      ensures received == [] && Streaming()
    {
      this.client := client;
      this.bucket := bucket;
      this.key := key;
      this.chunkSize := chunkSize;
      this.guessedType := guessedType;
      buffer, pos := [], 0;
      uploadId := None;
      parts := [];
      partNumber := 1;
      queue := [];
      workerRunning := true;
      received, enqueued, results := [], [], [];
    }

    /** The content type the object is created or put with. */
    function ContentType(): (r: string)
      ensures r != ""
    {
      ContentTypeFor(key, guessedType)
    }

    /**
     * Starts the multipart upload and keeps the `UploadId` the store grants;
     * when the store refuses, the error propagates and nothing changes.
     */
    method StartUpload() returns (status: Status)
      requires Valid()
      modifies this, client
      ensures Valid()
      ensures client.log == old(client.log) + [Call.CreateMultipartUpload(bucket, key, ContentType())]
      ensures var reply := client.createReply(client.log);
        && status == (if reply.Some? then Returned else Raised)
        && uploadId == (if reply.Some? then reply else old(uploadId))
      ensures buffer == old(buffer) && pos == old(pos) && parts == old(parts) && partNumber == old(partNumber)
      ensures queue == old(queue) && workerRunning == old(workerRunning)
      ensures received == old(received) && enqueued == old(enqueued) && results == old(results)
    {
      var reply := client.CreateMultipartUpload(bucket, key, ContentType());
      if reply.Some? {
        uploadId := reply;
        status := Returned;
      } else {
        status := Raised;
      }
    }

    /**
     * Writes `data` at the cursor, then cuts the chunks that are ready
     * (`CutChunks`).
     */
    method UploadPart(data: seq<byte>)
      requires Valid()
      modifies this
      ensures Valid()
      ensures var w := Write(old(buffer), old(pos), data);
        if old(pos) + |data| < chunkSize then
          && buffer == w && pos == old(pos) + |data|
          && queue == old(queue) && enqueued == old(enqueued) && partNumber == old(partNumber)
        else
          && buffer == Rest(w, chunkSize) && pos == |buffer|
          && queue == old(queue) + Items(Chunks(w, chunkSize), old(partNumber))
          && enqueued == old(enqueued) + Items(Chunks(w, chunkSize), old(partNumber))
          && partNumber == old(partNumber) + |Chunks(w, chunkSize)|
      ensures pos < chunkSize
      ensures uploadId == old(uploadId) && parts == old(parts) && workerRunning == old(workerRunning)
      ensures received == old(received) + data && results == old(results)
      ensures old(Streaming()) ==> Streaming()
      ensures old(pos) == |old(buffer)| ==> |queue| - |old(queue)| == (|old(buffer)| + |data|) / chunkSize
    {
      buffer := Write(buffer, pos, data);
      pos := pos + |data|;
      received := received + data;
      CutChunks();
      if old(Streaming()) {
        StreamingStep(old(received), data, chunkSize, old(enqueued), old(buffer), old(pos), old(partNumber),
                      enqueued, buffer, pos, partNumber);
      }
      if old(pos) == |old(buffer)| {
        CutCount(old(buffer), data, chunkSize);
      }
    }

    /**
     * The cutting loop of `upload_part`: while the cursor is at least a chunk
     * from the start, queue the first `chunkSize` bytes under the next part
     * number and keep the rest, with the cursor at its end.
     */
    method CutChunks()
      requires Valid()
      modifies this
      ensures Valid()
      ensures if old(pos) < chunkSize then
          buffer == old(buffer) && pos == old(pos) && queue == old(queue) && enqueued == old(enqueued)
          && partNumber == old(partNumber)
        else
          && buffer == Rest(old(buffer), chunkSize) && pos == |buffer|
          && queue == old(queue) + Items(Chunks(old(buffer), chunkSize), old(partNumber))
          && enqueued == old(enqueued) + Items(Chunks(old(buffer), chunkSize), old(partNumber))
          && partNumber == old(partNumber) + |Chunks(old(buffer), chunkSize)|
      ensures pos < chunkSize
      ensures uploadId == old(uploadId) && parts == old(parts) && workerRunning == old(workerRunning)
      ensures received == old(received) && results == old(results)
    {
      ghost var cut: seq<seq<byte>> := [];
      ghost var b0, p0, q0, e0, n0 := buffer, pos, queue, enqueued, partNumber;
      ghost var r0, parts0, w0, u0, rec0 := results, parts, workerRunning, uploadId, received;
      while pos >= chunkSize
        invariant pos <= |buffer|
        invariant cut + Chunks(buffer, chunkSize) == Chunks(b0, chunkSize)
        invariant Rest(buffer, chunkSize) == Rest(b0, chunkSize)
        invariant cut == [] ==> buffer == b0 && pos == p0
        invariant cut != [] ==> pos == |buffer|
        invariant p0 < chunkSize ==> cut == []
        invariant queue == q0 + Items(cut, n0)
        invariant enqueued == e0 + Items(cut, n0)
        invariant partNumber == n0 + |cut|
        invariant results == r0 && parts == parts0 && workerRunning == w0
        invariant uploadId == u0 && received == rec0
        decreases |buffer|
      {
        var chunk, remaining := buffer[..chunkSize], buffer[chunkSize..];
        CutStep(buffer, cut, b0, chunkSize);
        Enqueue(q0, queue, cut, chunk, n0);
        Enqueue(e0, enqueued, cut, chunk, n0);
        queue := queue + [Part(chunk, partNumber)];
        enqueued := enqueued + [Part(chunk, partNumber)];
        cut := cut + [chunk];
        partNumber := partNumber + 1;
        buffer := remaining;
        pos := |remaining|;
      }
      if cut != [] {
        ShortIsUncut(buffer, chunkSize);
        assert cut + [] == cut;
      }
      ValidAfterQueueing(e0, Items(cut, n0), r0, q0, parts, workerRunning);
      ItemsAreParts(cut, old(partNumber));
    }

    /**
     * One turn of the worker loop: take the head of the queue; stop on the
     * stop signal; otherwise upload the chunk and record `{PartNumber, ETag}`
     * if the upload returned one. Either way the item is done. A worker that
     * has stopped, or that finds the queue empty, does nothing.
     */
    method WorkerStep()
      requires Consistent()
      modifies this, client
      ensures Consistent()
      ensures old(Valid()) ==> Valid()
      ensures buffer == old(buffer) && pos == old(pos) && uploadId == old(uploadId) && partNumber == old(partNumber)
      ensures received == old(received) && enqueued == old(enqueued)
      ensures !old(workerRunning) || old(queue) == [] ==>
        && queue == old(queue) && results == old(results) && parts == old(parts)
        && workerRunning == old(workerRunning) && client.log == old(client.log)
      ensures old(workerRunning) && old(queue) != [] && old(queue)[0].Sentinel? ==>
        && queue == old(queue)[1..] && !workerRunning
        && results == old(results) + [None] && parts == old(parts) && client.log == old(client.log)
      ensures old(workerRunning) && old(queue) != [] && old(queue)[0].Part? ==>
        var item := old(queue)[0];
        var etag := client.partReply(client.log);
        && queue == old(queue)[1..] && workerRunning
        && client.log == old(client.log) + [Call.UploadPart(bucket, key, item.partNum, uploadId, item.chunk)]
        && results == old(results) + [etag]
        && parts == old(parts) + if etag.Some? then [CompletedPart(item.partNum, etag.value)] else []
    {
      if !workerRunning || queue == [] {
        return;
      }
      var item := queue[0];
      if item.Sentinel? {
        TakeStep(buffer, pos, enqueued, results, queue, parts, None);
        queue := queue[1..];
        results := results + [None];
        workerRunning := false;
      } else {
        var etag := client.UploadPart(bucket, key, item.partNum, uploadId, item.chunk);
        TakeStep(buffer, pos, enqueued, results, queue, parts, etag);
        queue := queue[1..];
        results := results + [etag];
        if etag.Some? {
          parts := parts + [CompletedPart(item.partNum, etag.value)];
        }
      }
    }

    /** The small-object path: put what the buffer holds as the whole object. */
    method PutBuffer() returns (status: Status)
      requires Valid()
      modifies this, client
      ensures Valid()
      ensures client.log == old(client.log) + [Call.PutObject(bucket, key, old(buffer), ContentType())]
      ensures status == if client.putReply(client.log) then Returned else Raised
      ensures pos == 0
      ensures buffer == old(buffer) && uploadId == old(uploadId) && parts == old(parts) && partNumber == old(partNumber)
      ensures queue == old(queue) && workerRunning == old(workerRunning)
      ensures received == old(received) && enqueued == old(enqueued) && results == old(results)
    {
      pos := 0;
      var ok := client.PutObject(bucket, key, buffer, ContentType());
      status := if ok then Returned else Raised;
    }

    /**
     * `upload_queue.join()`: wait until every item put on the queue is done.
     * With the worker running, it takes and uploads everything queued; with
     * the worker stopped and items left, the wait never ends.
     */
    method Drain() returns (drained: bool)
      requires Valid()
      modifies this, client
      ensures Valid()
      ensures drained == (old(workerRunning) || old(queue) == [])
      ensures drained ==> queue == [] && |results| == |enqueued| && workerRunning == old(workerRunning)
      ensures drained ==> client.log == old(client.log) + UploadCalls(bucket, key, uploadId, old(queue))
      ensures drained ==> results == old(results) + UploadReplies(client.partReply, old(client.log), bucket, key, uploadId, old(queue))
      ensures !drained ==> queue == old(queue) && results == old(results) && client.log == old(client.log)
      ensures buffer == old(buffer) && pos == old(pos) && uploadId == old(uploadId) && partNumber == old(partNumber)
      ensures received == old(received) && enqueued == old(enqueued)
    {
      if !workerRunning {
        return queue == [];
      }
      ghost var done: seq<QueueItem> := [];
      while queue != []
        invariant Valid() && workerRunning
        invariant buffer == old(buffer) && pos == old(pos) && uploadId == old(uploadId) && partNumber == old(partNumber)
        invariant received == old(received) && enqueued == old(enqueued)
        invariant old(queue) == done + queue
        invariant client.log == old(client.log) + UploadCalls(bucket, key, uploadId, done)
        invariant results == old(results) + UploadReplies(client.partReply, old(client.log), bucket, key, uploadId, done)
        decreases |queue|
      {
        Shift(old(queue), done, queue);
        ghost var item := queue[0];
        TakeNext(old(client.log), old(results), done);
        done := done + [item];
      }
      drained := true;
      assert done == old(queue);
    }

    /**
     * One turn of the worker during the join: the head of the queue is a
     * chunk, and its request and reply extend those of the items `done`
     * before it, counted from the log `log0` and the replies `results0`.
     */
    method TakeNext(ghost log0: seq<Call>, ghost results0: seq<Option<string>>, ghost done: seq<QueueItem>)
      requires Valid() && workerRunning && queue != []
      requires client.log == log0 + UploadCalls(bucket, key, uploadId, done)
      requires results == results0 + UploadReplies(client.partReply, log0, bucket, key, uploadId, done)
      modifies this, client
      ensures Valid() && workerRunning && queue == old(queue)[1..]
      ensures client.log == log0 + UploadCalls(bucket, key, uploadId, done + [old(queue)[0]])
      ensures results == results0 + UploadReplies(client.partReply, log0, bucket, key, uploadId, done + [old(queue)[0]])
      ensures buffer == old(buffer) && pos == old(pos) && uploadId == old(uploadId) && partNumber == old(partNumber)
      ensures received == old(received) && enqueued == old(enqueued)
    {
      ghost var item, log, res := queue[0], client.log, results;
      assert item.Part?;
      WorkerStep();
      DrainAccount(client.partReply, log0, results0, bucket, key, uploadId, done, item, log, res, client.log, results);
    }

    /** Put the stop signal on the empty queue and wait for the worker to take it and exit. */
    method StopWorker()
      requires Valid() && queue == []
      modifies this, client
      ensures Valid() && !workerRunning
      ensures enqueued == old(enqueued) + [Sentinel]
      ensures queue == if old(workerRunning) then [] else [Sentinel]
      ensures results == old(results) + if old(workerRunning) then [None] else []
      ensures client.log == old(client.log) && parts == old(parts)
      ensures buffer == old(buffer) && pos == old(pos) && uploadId == old(uploadId) && partNumber == old(partNumber)
      ensures received == old(received)
    {
      ghost var k := |results|;
      assert enqueued[k..] == [];
      queue := queue + [Sentinel];
      enqueued := enqueued + [Sentinel];
      assert enqueued[..k] == old(enqueued)[..k] && enqueued[k..] == queue;
      if workerRunning {
        WorkerStep();
      }
    }

    /**
     * The multipart path: queue the leftover (`QueueLeftover`), wait for the
     * queue to drain, stop the worker, complete with the recorded parts
     * sorted by part number.
     */
    method FinishMultipart() returns (status: Status)
      requires Valid()
      modifies this, client
      ensures Valid()
      ensures var last := Leftover(old(buffer), old(pos), old(partNumber));
        && (status == Blocked <==> !old(workerRunning) && old(queue) + last != [])
        && (status == Blocked ==> enqueued == old(enqueued) + last && client.log == old(client.log))
        && (status != Blocked ==>
              && enqueued == old(enqueued) + last + [Sentinel] && !workerRunning
              && (old(workerRunning) ==> queue == [] && |results| == |enqueued|)
              && client.log == old(client.log) + UploadCalls(bucket, key, uploadId, old(queue) + last)
                   + [Call.CompleteMultipartUpload(bucket, key, uploadId, SortByPartNumber(parts))]
              && results == old(results)
                   + UploadReplies(client.partReply, old(client.log), bucket, key, uploadId, old(queue) + last)
                   + (if old(workerRunning) then [None] else [])
              && status == if client.completeReply(client.log) then Returned else Raised)
      ensures pos == 0
      ensures buffer == old(buffer) && uploadId == old(uploadId) && partNumber == old(partNumber)
      ensures received == old(received)
    {
      QueueLeftover();
      var drained := Drain();
      if !drained {
        return Blocked;
      }
      StopWorker();
      var ok := client.CompleteMultipartUpload(bucket, key, uploadId, SortByPartNumber(parts));
      status := if ok then Returned else Raised;
    }

    /** Queue what the buffer holds as the last part, under the current part number, if the cursor is past its start. */
    method QueueLeftover()
      requires Valid()
      modifies this
      ensures Valid()
      ensures queue == old(queue) + Leftover(old(buffer), old(pos), old(partNumber))
      ensures enqueued == old(enqueued) + Leftover(old(buffer), old(pos), old(partNumber))
      ensures pos == 0
      ensures buffer == old(buffer) && uploadId == old(uploadId) && partNumber == old(partNumber)
      ensures received == old(received) && results == old(results) && parts == old(parts)
      ensures workerRunning == old(workerRunning)
    {
      if pos > 0 {
        pos := 0;
        var last := [Part(buffer, partNumber)];
        assert enqueued[|results|..] + last == (enqueued + last)[|results|..];
        assert (enqueued + last)[..|results|] == enqueued[..|results|];
        queue := queue + last;
        enqueued := enqueued + last;
      }
    }

    /**
     * `complete_upload` as written: the small-object path is taken when the
     * worker has recorded no part yet, which is not the same as no chunk
     * having been queued. From a streaming state the put then carries only
     * the bytes received after the last queued chunk.
     */
    method CompleteUpload() returns (status: Status)
      requires Valid()
      modifies this, client
      ensures Valid()
      ensures pos == 0
      ensures buffer == old(buffer) && uploadId == old(uploadId) && partNumber == old(partNumber)
      ensures received == old(received)
      ensures old(|parts|) == 0 ==>
        && client.log == old(client.log) + [Call.PutObject(bucket, key, old(buffer), ContentType())]
        && status == (if client.putReply(client.log) then Returned else Raised)
        && queue == old(queue) && enqueued == old(enqueued) && results == old(results)
      ensures old(|parts|) != 0 ==>
        var last := Leftover(old(buffer), old(pos), old(partNumber));
        && (status == Blocked <==> !old(workerRunning) && old(queue) + last != [])
        && (status != Blocked ==>
              && enqueued == old(enqueued) + last + [Sentinel] && !workerRunning
              && client.log == old(client.log) + UploadCalls(bucket, key, uploadId, old(queue) + last)
                   + [Call.CompleteMultipartUpload(bucket, key, uploadId, SortByPartNumber(parts))]
              && results == old(results)
                   + UploadReplies(client.partReply, old(client.log), bucket, key, uploadId, old(queue) + last)
                   + (if old(workerRunning) then [None] else [])
              && status == if client.completeReply(client.log) then Returned else Raised)
      ensures old(Streaming()) && old(|parts|) == 0 ==>
        received == PartBytes(enqueued) + old(buffer)
      ensures old(Streaming()) && old(|parts|) != 0 ==>
        && status != Blocked && queue == []
        && enqueued == Items(SessionChunks(received, chunkSize), 1) + [Sentinel]
        && PartBytes(enqueued) == received
        && client.log[|client.log| - 1] == Call.CompleteMultipartUpload(bucket, key, uploadId, parts)
        && ListsSuccessfulParts(parts, results, |SessionChunks(received, chunkSize)|)
    {
      if old(Streaming()) {
        StreamingRunning(enqueued, results, workerRunning, received, chunkSize);
      }
      if |parts| == 0 {
        status := PutBuffer();
        if old(Streaming()) {
          StreamingBytes(received, chunkSize, enqueued, buffer, old(pos), partNumber);
        }
      } else {
        status := FinishMultipart();
        if old(Streaming()) {
          StreamingSession(received, chunkSize, old(enqueued), buffer, old(pos), partNumber, enqueued);
          CompletedParts(received, chunkSize, buffer, pos, enqueued, results, parts, workerRunning);
        }
      }
    }

    /**
     * `complete_upload` corrected: the small-object path is taken only when
     * no chunk was ever queued, so from a streaming state every byte
     * received is put, or queued as a numbered part, on either path; a part
     * whose upload failed is still missing from the completion list.
     */
    method CompleteUploadCorrected() returns (status: Status)
      requires Valid()
      modifies this, client
      ensures Valid()
      ensures pos == 0
      ensures buffer == old(buffer) && uploadId == old(uploadId) && partNumber == old(partNumber)
      ensures received == old(received)
      ensures old(partNumber) == 1 ==>
        && client.log == old(client.log) + [Call.PutObject(bucket, key, old(buffer), ContentType())]
        && status == (if client.putReply(client.log) then Returned else Raised)
        && queue == old(queue) && enqueued == old(enqueued) && results == old(results)
      ensures old(partNumber) != 1 ==>
        var last := Leftover(old(buffer), old(pos), old(partNumber));
        && (status == Blocked <==> !old(workerRunning) && old(queue) + last != [])
        && (status != Blocked ==>
              && enqueued == old(enqueued) + last + [Sentinel] && !workerRunning
              && client.log == old(client.log) + UploadCalls(bucket, key, uploadId, old(queue) + last)
                   + [Call.CompleteMultipartUpload(bucket, key, uploadId, SortByPartNumber(parts))]
              && results == old(results)
                   + UploadReplies(client.partReply, old(client.log), bucket, key, uploadId, old(queue) + last)
                   + (if old(workerRunning) then [None] else [])
              && status == if client.completeReply(client.log) then Returned else Raised)
      ensures old(Streaming()) && old(partNumber) == 1 ==> old(buffer) == received
      ensures old(Streaming()) && old(partNumber) != 1 ==>
        && status != Blocked && queue == []
        && enqueued == Items(SessionChunks(received, chunkSize), 1) + [Sentinel]
        && PartBytes(enqueued) == received
        && client.log[|client.log| - 1] == Call.CompleteMultipartUpload(bucket, key, uploadId, parts)
        && ListsSuccessfulParts(parts, results, |SessionChunks(received, chunkSize)|)
    {
      if old(Streaming()) {
        StreamingRunning(enqueued, results, workerRunning, received, chunkSize);
      }
      if partNumber == 1 {
        status := PutBuffer();
        if old(Streaming()) {
          StreamingBytes(received, chunkSize, enqueued, buffer, old(pos), partNumber);
          assert PartBytes([]) == [];
        }
      } else {
        status := FinishMultipart();
        if old(Streaming()) {
          StreamingSession(received, chunkSize, old(enqueued), buffer, old(pos), partNumber, enqueued);
          CompletedParts(received, chunkSize, buffer, pos, enqueued, results, parts, workerRunning);
        }
      }
    }
  }

  /**
   * What the completion request of a session of `n` parts lists, where
   * `results[i]` is what the upload of part `i + 1` returned: exactly the
   * parts whose upload returned an ETag, in strictly ascending order, and
   * parts 1, 2, ..., n in that order when every upload succeeded.
   */
  ghost predicate ListsSuccessfulParts(parts: seq<CompletedPart>, results: seq<Option<string>>, n: nat)
  {
    && n < |results|
    && StrictlyAscending(parts)
    && (forall p :: p in parts <==> 1 <= p.partNumber <= n && results[p.partNumber - 1] == Some(p.etag))
    && ((forall i :: 0 <= i < n ==> results[i].Some?) ==>
          |parts| == n && forall i :: 0 <= i < n ==> parts[i] == CompletedPart(i + 1, results[i].value))
  }

  /**
   * Once the worker has taken every item of a whole session, the parts it
   * recorded are already sorted, and they are the successful uploads.
   */
  lemma CompletedParts(received: seq<byte>, size: Size, buffer: seq<byte>, pos: nat, enqueued: seq<QueueItem>,
                       results: seq<Option<string>>, parts: seq<CompletedPart>, running: bool)
    requires Bookkeeping(buffer, pos, enqueued, results, [], parts, running)
    requires enqueued == Items(SessionChunks(received, size), 1) + [Sentinel]
    ensures SortByPartNumber(parts) == parts
    ensures ListsSuccessfulParts(parts, results, |SessionChunks(received, size)|)
  {
    var cs := SessionChunks(received, size);
    assert |results| == |enqueued|;
    assert enqueued[..|results|] == enqueued;
    CompletionList(cs, results);
  }

  /** The last part `complete_upload` queues: the whole buffer, when the cursor is past its start. */
  function Leftover(buffer: seq<byte>, pos: nat, partNumber: int): seq<QueueItem>
  {
    if pos > 0 then [Part(buffer, partNumber)] else []
  }

  /** The log and the replies after one more upload by the worker, in terms of the items drained so far. */
  lemma DrainAccount(reply: seq<Call> -> Option<string>, log0: seq<Call>, results0: seq<Option<string>>,
                     bucket: string, key: string, uploadId: Option<string>, done: seq<QueueItem>, item: QueueItem,
                     log: seq<Call>, results: seq<Option<string>>, log': seq<Call>, results': seq<Option<string>>)
    requires item.Part?
    requires log == log0 + UploadCalls(bucket, key, uploadId, done)
    requires results == results0 + UploadReplies(reply, log0, bucket, key, uploadId, done)
    requires log' == log + [Call.UploadPart(bucket, key, item.partNum, uploadId, item.chunk)]
    requires results' == results + [reply(log')]
    ensures log' == log0 + UploadCalls(bucket, key, uploadId, done + [item])
    ensures results' == results0 + UploadReplies(reply, log0, bucket, key, uploadId, done + [item])
  {
    UploadCallsAppend(bucket, key, uploadId, done, [item]);
    UploadRepliesAppend(reply, log0, bucket, key, uploadId, done, item);
    assert UploadCalls(bucket, key, uploadId, [item]) == [Call.UploadPart(bucket, key, item.partNum, uploadId, item.chunk)];
  }

  lemma Shift(all: seq<QueueItem>, done: seq<QueueItem>, rest: seq<QueueItem>)
    requires all == done + rest && rest != []
    ensures all == (done + [rest[0]]) + rest[1..]
  {
    assert rest == [rest[0]] + rest[1..];
  }

  /**
   * The worker's bookkeeping: the queue is what has been put and not yet
   * taken, the recorded parts are the successful uploads among the items
   * taken, and the worker runs until it has taken a stop signal.
   */
  ghost predicate Bookkeeping(buffer: seq<byte>, pos: nat, enqueued: seq<QueueItem>, results: seq<Option<string>>,
                              queue: seq<QueueItem>, parts: seq<CompletedPart>, running: bool)
  {
    && pos <= |buffer|
    && |results| <= |enqueued|
    && queue == enqueued[|results|..]
    && parts == Recorded(enqueued[..|results|], results)
    && running == (Sentinel !in enqueued[..|results|])
  }

  /**
   * A running worker taking the head of a non-empty queue, with outcome `x`,
   * keeps the bookkeeping; it stops exactly when the head is the stop signal.
   */
  lemma TakeStep(buffer: seq<byte>, pos: nat, enqueued: seq<QueueItem>, results: seq<Option<string>>,
                 queue: seq<QueueItem>, parts: seq<CompletedPart>, x: Option<string>)
    requires Bookkeeping(buffer, pos, enqueued, results, queue, parts, true) && queue != []
    ensures var item := queue[0];
      Bookkeeping(buffer, pos, enqueued, results + [x], queue[1..],
                  parts + (if item.Part? && x.Some? then [CompletedPart(item.partNum, x.value)] else []),
                  item.Part?)
    ensures Sentinel !in queue ==> Sentinel !in queue[1..]
  {
    TakeOne(enqueued, |results|);
    TakeRecorded(enqueued, results, parts, x);
  }

  /** The worker taking the item after the `|results|` it has taken already: the queue and the stop-signal test. */
  lemma TakeOne(e: seq<QueueItem>, k: nat)
    requires k < |e|
    ensures e[k + 1..] == e[k..][1..] && (Sentinel !in e[k..] ==> Sentinel !in e[k + 1..])
    ensures Sentinel !in e[..k + 1] <==> Sentinel !in e[..k] && e[k] != Sentinel
  {
    assert e[..k + 1] == e[..k] + [e[k]];
    assert e[k + 1..] == e[k..][1..];
    TailKeepsOut(e[k..]);
  }

  /** The worker taking the item after the `|results|` it has taken already, with outcome `x`: the parts recorded. */
  lemma TakeRecorded(e: seq<QueueItem>, results: seq<Option<string>>, parts: seq<CompletedPart>, x: Option<string>)
    requires |results| < |e| && parts == Recorded(e[..|results|], results)
    ensures var k := |results|;
      Recorded(e[..k + 1], results + [x])
        == parts + (if e[k].Part? && x.Some? then [CompletedPart(e[k].partNum, x.value)] else [])
  {
    var k := |results|;
    assert e[..k + 1][..k] == e[..k];
    RecordedStep(e[..k + 1], results, x);
  }

  lemma TailKeepsOut(s: seq<QueueItem>)
    requires s != []
    ensures Sentinel !in s ==> Sentinel !in s[1..]
  {
    assert s == [s[0]] + s[1..];
  }

  lemma RecordedStep(items: seq<QueueItem>, results: seq<Option<string>>, x: Option<string>)
    requires |items| == |results| + 1
    ensures var k := |results|;
      Recorded(items, results + [x])
        == Recorded(items[..k], results) + (if items[k].Part? && x.Some? then [CompletedPart(items[k].partNum, x.value)] else [])
  {
    assert (results + [x])[..|results|] == results;
  }

  lemma QueueGrows(e: seq<QueueItem>, added: seq<QueueItem>, k: nat)
    requires k <= |e|
    ensures (e + added)[..k] == e[..k] && (e + added)[k..] == e[k..] + added
  {
  }

  /** One turn of the cutting loop keeps "the chunks cut so far, then the chunks still in the buffer" fixed. */
  lemma CutStep(buffer: seq<byte>, cut: seq<seq<byte>>, original: seq<byte>, size: Size)
    requires |buffer| >= size
    requires cut + Chunks(buffer, size) == Chunks(original, size) && Rest(buffer, size) == Rest(original, size)
    ensures (cut + [buffer[..size]]) + Chunks(buffer[size..], size) == Chunks(original, size)
    ensures Rest(buffer[size..], size) == Rest(original, size)
  {
    var c, tail := buffer[..size], Chunks(buffer[size..], size);
    CutOne(buffer, size);
    Regroup(cut, c, tail);
  }

  /** Queueing the next chunk cut extends the queue by its item, numbered after those cut before. */
  lemma Enqueue(q0: seq<QueueItem>, q: seq<QueueItem>, cut: seq<seq<byte>>, c: seq<byte>, first: int)
    requires q == q0 + Items(cut, first)
    ensures q + [Part(c, first + |cut|)] == q0 + Items(cut + [c], first)
  {
    ItemsAppend(cut, [c], first);
    ItemsOne(c, first + |cut|);
  }

  lemma CutOne(s: seq<byte>, size: Size)
    requires |s| >= size
    ensures Chunks(s, size) == [s[..size]] + Chunks(s[size..], size)
    ensures Rest(s, size) == Rest(s[size..], size)
  {
  }

  lemma Regroup(a: seq<seq<byte>>, c: seq<byte>, b: seq<seq<byte>>)
    ensures (a + [c]) + b == a + ([c] + b)
  {
  }

  lemma ItemsOne(c: seq<byte>, n: int)
    ensures Items([c], n) == [Part(c, n)]
  {
  }

  /** Putting chunks on the queue keeps the worker's bookkeeping. */
  lemma ValidAfterQueueing(e: seq<QueueItem>, added: seq<QueueItem>, results: seq<Option<string>>,
                           queue: seq<QueueItem>, parts: seq<CompletedPart>, running: bool)
    requires |results| <= |e| && queue == e[|results|..]
    requires parts == Recorded(e[..|results|], results) && running == (Sentinel !in e[..|results|])
    ensures var e' := e + added;
      && |results| <= |e'| && queue + added == e'[|results|..]
      && parts == Recorded(e'[..|results|], results) && running == (Sentinel !in e'[..|results|])
  {
    QueueGrows(e, added, |results|);
  }

  lemma ItemsAreParts(cs: seq<seq<byte>>, first: int)
    ensures Sentinel !in Items(cs, first)
  {
  }

  /**
   * The state determined by the bytes received: the chunks cut from them
   * were queued, numbered 1, 2, ..., and the buffer holds the rest, with the
   * cursor at its end.
   */
  ghost predicate Determined(received: seq<byte>, size: Size, enqueued: seq<QueueItem>,
                             buffer: seq<byte>, pos: nat, partNumber: int)
  {
    && enqueued == Items(Chunks(received, size), 1)
    && buffer == Rest(received, size)
    && pos == |buffer|
    && partNumber == |enqueued| + 1
  }

  /**
   * One `UploadPart` call from a determined state, writing `data` and
   * cutting, leads to the state determined by the bytes received with
   * `data`, having queued `(|buffer| + |data|) / size` chunks.
   */
  lemma StreamingStep(received: seq<byte>, data: seq<byte>, size: Size,
                      enqueued: seq<QueueItem>, buffer: seq<byte>, pos: nat, partNumber: int,
                      enqueued': seq<QueueItem>, buffer': seq<byte>, pos': nat, partNumber': int)
    requires Determined(received, size, enqueued, buffer, pos, partNumber)
    requires var w := Write(buffer, pos, data);
      if pos + |data| < size then
        buffer' == w && pos' == pos + |data| && enqueued' == enqueued && partNumber' == partNumber
      else
        && buffer' == Rest(w, size) && pos' == |buffer'|
        && enqueued' == enqueued + Items(Chunks(w, size), partNumber)
        && partNumber' == partNumber + |Chunks(w, size)|
    ensures Determined(received + data, size, enqueued', buffer', pos', partNumber')
  {
    var rest := Rest(received, size);
    assert Write(buffer, pos, data) == rest + data;
    ChunksAppend(received, data, size);
    ItemsAppend(Chunks(received, size), Chunks(rest + data, size), 1);
    if pos + |data| < size {
      assert Chunks(rest + data, size) == [] && Rest(rest + data, size) == rest + data;
      assert Items([], |enqueued| + 1) == [];
    }
  }

  /** Writing `data` at the end of `buffer` and cutting queues `(|buffer| + |data|) / size` chunks. */
  lemma CutCount(buffer: seq<byte>, data: seq<byte>, size: Size)
    ensures Write(buffer, |buffer|, data) == buffer + data
    ensures (if |buffer| + |data| < size then 0 else |Chunks(buffer + data, size)|) == (|buffer| + |data|) / size
  {
    ChunkCount(buffer + data, size);
  }

  /** In a determined state no stop signal has been queued, so the worker is still running. */
  lemma StreamingRunning(enqueued: seq<QueueItem>, results: seq<Option<string>>, running: bool,
                         received: seq<byte>, size: Size)
    requires |results| <= |enqueued| && running == (Sentinel !in enqueued[..|results|])
    requires enqueued == Items(Chunks(received, size), 1)
    ensures running
  {
    ItemsAreParts(Chunks(received, size), 1);
    assert enqueued == enqueued[..|results|] + enqueued[|results|..];
  }

  /** In a determined state, the queued chunks and then the buffer are every byte received. */
  lemma StreamingBytes(received: seq<byte>, size: Size, enqueued: seq<QueueItem>,
                       buffer: seq<byte>, pos: nat, partNumber: int)
    requires Determined(received, size, enqueued, buffer, pos, partNumber)
    ensures received == PartBytes(enqueued) + buffer
  {
    ChunksThenRest(received, size);
    ItemsBytes(Chunks(received, size), 1);
  }

  /**
   * Completing from a determined state queues exactly the session's chunks,
   * numbered from 1, then the stop signal, and they carry every byte received.
   */
  lemma StreamingSession(received: seq<byte>, size: Size, enqueued: seq<QueueItem>,
                         buffer: seq<byte>, pos: nat, partNumber: int, after: seq<QueueItem>)
    requires Determined(received, size, enqueued, buffer, pos, partNumber)
    requires after == enqueued + Leftover(buffer, pos, partNumber) + [Sentinel]
    ensures after == Items(SessionChunks(received, size), 1) + [Sentinel]
    ensures PartBytes(after) == received
  {
    var cs, rest := Chunks(received, size), Rest(received, size);
    var last := if rest == [] then [] else [rest];
    ItemsAppend(cs, last, 1);
    assert Items(last, |cs| + 1) == Leftover(buffer, pos, partNumber);
    SessionChunksCover(received, size);
    ItemsBytes(SessionChunks(received, size), 1);
    PartBytesAppend(Items(SessionChunks(received, size), 1), [Sentinel]);
    assert PartBytes([Sentinel]) == [];
  }
}
