/**
 * Whole sessions run against a store that grants every request: the
 * `UploadId` "upload-1", the `ETag` "etag" for every part. The chunk size is
 * 10 bytes, and the standard library guesses `video/mp4` for the key.
 */
module Scenarios {
  import opened Wrappers
  import opened S3
  import opened Chunking
  import opened Parts
  import opened StreamingUpload

  const Bucket := "recordings"
  const Key := "meeting.mp4"
  const Mp4 := "video/mp4"
  const TenBytes: Size := 10

  /** A store that accepts everything. */
  method AcceptingClient() returns (c: Client)
    ensures fresh(c) && c.log == []
    ensures forall l :: c.createReply(l) == Some("upload-1")
    ensures forall l :: c.partReply(l) == Some("etag")
    ensures forall l :: c.completeReply(l) && c.putReply(l)
  {
    c := new Client(_ => Some("upload-1"), _ => Some("etag"), _ => true, _ => true);
  }

  /** An uploader built without a chunk size cuts 5 MiB parts. */
  method DefaultSized() returns (u: StreamingUploader)
    ensures fresh(u) && u.chunkSize == 5242880 && u.Streaming()
  {
    var c := AcceptingClient();
    u := new StreamingUploader(c, Bucket, Key, None);
  }

  /** A started session on a fresh uploader: the worker runs and the `UploadId` is held. */
  method Started() returns (c: Client, u: StreamingUploader)
    ensures fresh(c) && fresh(u) && u.client == c
    ensures forall l :: c.partReply(l) == Some("etag")
    ensures forall l :: c.completeReply(l) && c.putReply(l)
    ensures u.bucket == Bucket && u.key == Key && u.chunkSize == TenBytes && u.ContentType() == Mp4
    ensures c.log == [Call.CreateMultipartUpload(Bucket, Key, Mp4)]
    ensures u.uploadId == Some("upload-1") && u.received == [] && u.Streaming()
    ensures u.buffer == [] && u.pos == 0 && u.parts == [] && u.queue == [] && u.workerRunning
  {
    c := AcceptingClient();
    u := new StreamingUploader(c, Bucket, Key, Some(Mp4), TenBytes);
    var status := u.StartUpload();
  }

  /**
   * A started session after one `UploadPart(d)` of less than two chunks, the
   * worker not having run: a full chunk, if any, waits on the queue as part 1
   * and the buffer holds the rest.
   */
  method Written(d: seq<byte>) returns (c: Client, u: StreamingUploader)
    requires |d| < 20
    ensures fresh(c) && fresh(u) && u.client == c && u.Valid()
    ensures forall l :: c.partReply(l) == Some("etag")
    ensures forall l :: c.completeReply(l) && c.putReply(l)
    ensures u.bucket == Bucket && u.key == Key && u.chunkSize == TenBytes && u.ContentType() == Mp4
    ensures c.log == [Call.CreateMultipartUpload(Bucket, Key, Mp4)]
    ensures u.parts == [] && u.workerRunning && u.received == d && u.Streaming()
    ensures u.results == [] && u.enqueued == u.queue && u.partNumber == if |d| >= 10 then 2 else 1
    ensures |d| < 10 ==> u.buffer == d && u.queue == []
    ensures |d| >= 10 ==> u.buffer == d[10..] && u.queue == [Part(d[..10], 1)]
  {
    c, u := Started();
    CutOnce(d);
    u.UploadPart(d);
  }

  /** The same state as `Written`, seen as the put path needs it: no part recorded yet, what the buffer holds. */
  method WrittenBeforeWorker(d: seq<byte>) returns (c: Client, u: StreamingUploader)
    requires |d| < 20
    ensures fresh(c) && fresh(u) && u.client == c && u.Valid() && u.parts == []
    ensures forall l :: c.putReply(l)
    ensures u.bucket == Bucket && u.key == Key && u.ContentType() == Mp4
    ensures c.log == [Call.CreateMultipartUpload(Bucket, Key, Mp4)]
    ensures u.buffer == if |d| < 10 then d else d[10..]
  {
    c, u := Written(d);
  }

  /** Less than a chunk in all: the object is put in one request, no part is uploaded. */
  method SmallObject(d: seq<byte>) returns (log: seq<Call>, status: Status)
    requires |d| < 10
    ensures log == [Call.CreateMultipartUpload(Bucket, Key, Mp4), Call.PutObject(Bucket, Key, d, Mp4)]
    ensures status == Returned
  {
    var c, u := WrittenBeforeWorker(d);
    status := CompleteWithNoParts(c, u);
    log := c.log;
  }

  /**
   * Thirteen bytes in one call and completion before the worker has taken
   * the chunk: `complete_upload` as written sees no recorded part and puts
   * only the three bytes left in the buffer. The first ten stay queued for
   * the worker, which may still upload them, but to a multipart upload
   * that is never completed: they are never part of the object.
   */
  method EarlyCompletionLosesChunk(d: seq<byte>) returns (log: seq<Call>, status: Status)
    requires |d| == 13
    ensures log == [Call.CreateMultipartUpload(Bucket, Key, Mp4), Call.PutObject(Bucket, Key, d[10..], Mp4)]
    ensures d[10..] != d
    ensures status == Returned
  {
    var c, u := WrittenBeforeWorker(d);
    status := CompleteWithNoParts(c, u);
    log := c.log;
    TailIsShorter(d);
  }

  lemma TailIsShorter(d: seq<byte>)
    requires |d| == 13
    ensures d[10..] != d
  {
    assert |d[10..]| == 3;
  }

  /** `complete_upload` with no part recorded yet, against a store that accepts the put: one put of the buffer. */
  method CompleteWithNoParts(c: Client, u: StreamingUploader) returns (status: Status)
    requires u.Valid() && u.client == c && u.parts == []
    requires forall l :: c.putReply(l)
    modifies u, c
    ensures c.log == old(c.log) + [Call.PutObject(u.bucket, u.key, old(u.buffer), u.ContentType())]
    ensures status == Returned
  {
    status := u.CompleteUpload();
  }

  /** What the first `UploadPart(d)` of a session cuts, for less than two chunks. */
  lemma CutOnce(d: seq<byte>)
    requires |d| < 20
    ensures Write([], 0, d) == d
    ensures |d| < 10 ==> Chunks(d, TenBytes) == [] && Rest(d, TenBytes) == d && Items([], 1) == []
    ensures |d| >= 10 ==>
      Chunks(d, TenBytes) == [d[..10]] && Rest(d, TenBytes) == d[10..] && Items([d[..10]], 1) == [Part(d[..10], 1)]
  {
    if |d| >= 10 {
      assert Chunks(d[10..], TenBytes) == [] && Rest(d[10..], TenBytes) == d[10..];
      assert Chunks(d, TenBytes) == [d[..10]] + Chunks(d[10..], TenBytes);
      ItemsOne(d[..10], 1);
    }
  }
}
