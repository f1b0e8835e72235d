# StreamingUploader, modelled in Dafny

The bot controller writes a meeting recording to S3-compatible object
storage while the recording is still being produced. `StreamingUploader`
takes the bytes as they arrive and buffers them. It cuts them into chunks
of exactly `chunk_size` bytes and numbers each chunk as the next part of a
multipart upload. Each chunk goes on a queue, and one background worker
thread uploads the queued chunks in order. For every successful upload the
worker records a `{PartNumber, ETag}` pair.

`complete_upload` takes one of two paths:

- If no part has been recorded, it puts the buffer as the whole object.
- Otherwise it queues what is left in the buffer as the last part. It then
  waits for the queue to drain, stops the worker and completes the
  multipart upload with the recorded parts sorted by part number.

The project has these modules:

- `S3`: the four store operations the uploader calls. The `Client` class
  appends every request to a log. What the store answers is a function of
  that log, fixed when the client is built.
- `Chunking`: the part buffer. `Write` is a `BytesIO` write at the cursor.
  `Chunks` and `Rest` describe the cutting loop. `SessionChunks` is every
  part a multipart session uploads.
- `Parts`: the queue items, the `{PartNumber, ETag}` list the worker
  builds (`Recorded`), the sort by part number, and the requests and
  replies of a run of uploads.
- `ContentTypes`: the content type chosen for the key.
- `StreamingUpload`: the class `StreamingUploader`, with the buffer
  contents and cursor, the upload id, the recorded parts, the next part
  number, the queue and whether the worker is still running. It also has
  three ghost histories:
  - `received`: every byte passed in;
  - `enqueued`: every item ever queued;
  - `results`: what the worker got for each item it has taken.
- `Scenarios`: whole sessions against a store that accepts everything,
  including the one that shows the finding below.

The worker thread is modelled sequentially. `WorkerStep` is one turn of its
loop, and a caller may run it between any two operations. Joining the queue
is `Drain`, which runs worker steps until the queue is empty. A join that
would wait forever, because items are queued and no worker is running,
ends with the status `Blocked`.

Each class method is proved against the state it leaves behind. That state
is described by specification functions, and lemmas about those functions
give the properties the source promises:

- the chunks cut are exactly `chunk_size` long and there are
  `(length) / chunk_size` of them;
- no byte is lost or reordered;
- cutting does not depend on how the stream was split across calls;
- parts are recorded in ascending order, and exactly for the uploads that
  returned an ETag;
- the sort changes nothing;
- on the multipart path a session uploads every byte received, numbered
  1, 2, ….

## Model

| member | source | states |
|---|---|---|
| S3.Client.CreateMultipartUpload | bots/bot_controller/streaming_uploader.py:125-129 | the request is logged with bucket, key and content type; the upload id is the store's answer, `None` when it raises |
| S3.Client.UploadPart | bots/bot_controller/streaming_uploader.py:52-58 | the request is logged with part number, upload id and body; the ETag is the store's answer, `None` when it raises |
| S3.Client.CompleteMultipartUpload | bots/bot_controller/streaming_uploader.py:116-121 | the request is logged with the parts list; success is the store's answer |
| S3.Client.PutObject | bots/bot_controller/streaming_uploader.py:100 | the request is logged with body and content type; success is the store's answer |
| StreamingUpload.StreamingUploader.constructor | bots/bot_controller/streaming_uploader.py:13-42 | the chunk size given, 5 MiB by default; an empty buffer with the cursor at 0, no upload id, no parts, part number 1, an empty queue and a running worker; the state is the one determined by no bytes |
| StreamingUpload.StreamingUploader.ContentType | bots/bot_controller/streaming_uploader.py:83-93 | the content type is never empty |
| StreamingUpload.StreamingUploader.StartUpload | bots/bot_controller/streaming_uploader.py:123-130 | one create request with the key's content type; the upload id granted is kept; when the store raises, the error propagates and the state is unchanged |
| StreamingUpload.StreamingUploader.UploadPart | bots/bot_controller/streaming_uploader.py:66-81 | the buffer becomes the write of `data` at the cursor. Below a chunk, nothing is queued. Otherwise the chunks of that write are queued with consecutive numbers from the current part number, and the remainder stays with the cursor at its end. The cursor ends below `chunk_size`. From a state determined by the bytes received, the new state is determined by those bytes plus `data` |
| StreamingUpload.StreamingUploader.CutChunks | bots/bot_controller/streaming_uploader.py:70-81 | the loop runs while the cursor is at least a chunk in; it queues `Chunks(buffer)` numbered from the part number, leaves `Rest(buffer)` with the cursor at its end, and advances the part number by the count |
| StreamingUpload.StreamingUploader.WorkerStep | bots/bot_controller/streaming_uploader.py:44-64 | a stopped worker or an empty queue changes nothing. The stop signal is taken and the worker exits without a request. A chunk is taken and uploaded with its number and the upload id; `{PartNumber, ETag}` is appended exactly when the upload returned an ETag; the item is done either way. The bookkeeping is kept |
| StreamingUpload.StreamingUploader.PutBuffer | bots/bot_controller/streaming_uploader.py:97-102 | one put of the whole buffer with the content type; cursor at 0; nothing else changes; a raised error propagates |
| StreamingUpload.StreamingUploader.Drain | bots/bot_controller/streaming_uploader.py:111 | the join returns exactly when the worker runs or the queue is empty. Then the queue is empty, every queued item was uploaded in order (the log gains `UploadCalls` of the old queue) and the worker got `UploadReplies`. Otherwise nothing changes (it never returns) |
| StreamingUpload.StreamingUploader.TakeNext | bots/bot_controller/streaming_uploader.py:111 | one worker turn during the join: the head chunk is taken, and its request and reply extend those of the items taken before it |
| StreamingUpload.StreamingUploader.StopWorker | bots/bot_controller/streaming_uploader.py:112-113 | the stop signal is queued. A running worker takes it and exits, with no request; a dead worker leaves it queued. Afterwards no worker runs |
| StreamingUpload.StreamingUploader.QueueLeftover | bots/bot_controller/streaming_uploader.py:104-108 | when the cursor is past 0, the whole buffer is queued under the current part number (not incremented); cursor at 0 |
| StreamingUpload.StreamingUploader.FinishMultipart | bots/bot_controller/streaming_uploader.py:104-121 | it is `Blocked` exactly when no worker runs and something is queued. Otherwise: every queued item and the leftover are uploaded in order, the stop signal is queued, and one complete request follows with the recorded parts sorted by part number; the status is the store's answer |
| StreamingUpload.StreamingUploader.CompleteUpload | bots/bot_controller/streaming_uploader.py:95-121 | as written: with no recorded part, it takes the put path with the buffer only. From a streaming state, the bytes received are then the queued chunks followed by the buffer, so queued chunks are not in the object. With recorded parts, it takes the multipart path; from a streaming state it never blocks, and the parts queued are exactly `SessionChunks(received)` numbered from 1, carrying every byte received. The last request then completes with exactly the parts whose upload returned an ETag, in strictly ascending order, and with parts 1..n in order when every upload succeeded |
| StreamingUpload.StreamingUploader.CompleteUploadCorrected | bots/bot_controller/streaming_uploader.py:95-121 | the put path only when no chunk was ever queued; from a streaming state the put body is every byte received. The multipart path queues `SessionChunks(received)` numbered from 1 and cannot block, and it completes with exactly the successful parts, strictly ascending, 1..n when all succeeded |
| StreamingUpload.CompletedParts | bots/bot_controller/streaming_uploader.py:116-121 | once the worker has taken a whole session, the recorded parts are already sorted, and they are exactly the successful uploads, strictly ascending, parts 1..n in order when all succeeded |
| StreamingUpload.TakeStep | bots/bot_controller/streaming_uploader.py:46-64 | a running worker taking the head with outcome `x` keeps the bookkeeping: the queue is the untaken suffix, the parts are `Recorded` of the taken prefix, and the worker stops exactly on the stop signal |
| StreamingUpload.StreamingStep | bots/bot_controller/streaming_uploader.py:66-81 | one `upload_part` from the state determined by `received` leads to the state determined by `received + data` |
| StreamingUpload.CutCount | bots/bot_controller/streaming_uploader.py:70-76 | writing at the end and cutting queues `(|buffer| + |data|) / chunk_size` chunks |
| StreamingUpload.StreamingRunning | bots/bot_controller/streaming_uploader.py:49-50 | before completion no stop signal has been queued, so the worker is still running |
| StreamingUpload.StreamingBytes | bots/bot_controller/streaming_uploader.py:97-99 | in a streaming state the queued chunks followed by the buffer are exactly the bytes received |
| StreamingUpload.StreamingSession | bots/bot_controller/streaming_uploader.py:104-112 | completing from a streaming state queues `SessionChunks(received)` numbered from 1 and then the stop signal, and these carry exactly the bytes received |
| StreamingUpload.DrainAccount | bots/bot_controller/streaming_uploader.py:111 | one more upload during the join extends the requests and replies by those of the item taken |
| StreamingUpload.ValidAfterQueueing | bots/bot_controller/streaming_uploader.py:75 | putting items on the queue keeps the worker's bookkeeping |
| StreamingUpload.CutStep | bots/bot_controller/streaming_uploader.py:71-81 | one turn of the cutting loop keeps "chunks cut so far, then the chunks and remainder of the buffer" equal to the cut of the original buffer |
| StreamingUpload.Enqueue | bots/bot_controller/streaming_uploader.py:75-76 | queueing the next chunk under the incremented part number extends the queue by the next numbered item |
| Chunking.Write | bots/bot_controller/streaming_uploader.py:67 | a write at the cursor keeps the bytes before it, overwrites with `data`, keeps what follows, and grows the buffer only past its end; at the end it appends |
| Chunking.ChunksThenRest | bots/bot_controller/streaming_uploader.py:70-81 | the chunks, then the remainder, give back the buffer |
| Chunking.ChunksExact | bots/bot_controller/streaming_uploader.py:72 | every chunk is exactly `chunk_size` bytes |
| Chunking.RestShort | bots/bot_controller/streaming_uploader.py:70 | the remainder is shorter than a chunk |
| Chunking.ChunkCount | bots/bot_controller/streaming_uploader.py:70-76 | the number of chunks is the length divided by `chunk_size` |
| Chunking.RestLength | bots/bot_controller/streaming_uploader.py:79-81 | the remainder's length is the length modulo `chunk_size` |
| Chunking.ChunksAppend | bots/bot_controller/streaming_uploader.py:66-81 | cutting `a` and then the remainder plus `b` gives the same chunks and remainder as cutting `a + b` |
| Chunking.ShortIsUncut | bots/bot_controller/streaming_uploader.py:70 | a buffer shorter than a chunk is not cut |
| Chunking.SessionChunksCover | bots/bot_controller/streaming_uploader.py:104-108 | a session's parts concatenate to the stream; each is non-empty and at most a chunk; there is one more than the full chunks exactly when `chunk_size` does not divide the length |
| Parts.ItemsAppend | bots/bot_controller/streaming_uploader.py:75-76 | numbering chunks in two batches equals numbering them together |
| Parts.ItemsBytes | bots/bot_controller/streaming_uploader.py:75 | the queued items carry exactly the bytes of their chunks |
| Parts.RecordedExactly | bots/bot_controller/streaming_uploader.py:52-60 | a pair is recorded exactly when some taken chunk with that number was uploaded and returned that ETag |
| Parts.RecordedAscending | bots/bot_controller/streaming_uploader.py:48-60 | taken in queue order, parts are recorded with strictly increasing numbers |
| Parts.AllRecorded | bots/bot_controller/streaming_uploader.py:52-60 | when every upload succeeds, every chunk is recorded, in order, under its queued number |
| Parts.Insert | bots/bot_controller/streaming_uploader.py:120 | inserting into a sorted list keeps it sorted and adds exactly that element |
| Parts.SortByPartNumber | bots/bot_controller/streaming_uploader.py:120 | the result is sorted by part number and is a permutation of the input |
| Parts.SortKeepsSorted | bots/bot_controller/streaming_uploader.py:120 | sorting a list already in order leaves it unchanged |
| Parts.UploadCallsAppend | bots/bot_controller/streaming_uploader.py:52-58 | the requests for two runs of items are those of the first then those of the second |
| Parts.UploadRepliesAppend | bots/bot_controller/streaming_uploader.py:52-64 | the replies for one more item are the earlier replies followed by the reply given the requests so far |
| Parts.DropSentinel | bots/bot_controller/streaming_uploader.py:49-50 | taking the stop signal records nothing |
| Parts.CompletionList | bots/bot_controller/streaming_uploader.py:116-121 | the list sent to complete a full session is unchanged by the sort and strictly ascending. A part is listed exactly when its upload returned an ETag. When all succeed, the list is parts 1..n in order |
| ContentTypes.Lower | bots/bot_controller/streaming_uploader.py:89 | same length; each character is lower-cased |
| ContentTypes.ContentTypeFor | bots/bot_controller/streaming_uploader.py:83-93 | a non-empty guess is returned as it is; otherwise one of `video/mp4`, `video/webm`, `application/octet-stream`; never empty |
| ContentTypes.ContentTypeIgnoresCase | bots/bot_controller/streaming_uploader.py:89-92 | the choice does not depend on the key's case |
| ContentTypes.Mp4Fallback | bots/bot_controller/streaming_uploader.py:87-90 | with no guess (`None` or an empty string), a key ending in `.mp4` in any case is sent as `video/mp4` |
| ContentTypes.WebmFallback | bots/bot_controller/streaming_uploader.py:87-92 | with no guess, a key ending in `.webm` in any case is sent as `video/webm` |
| ContentTypes.OctetStreamFallback | bots/bot_controller/streaming_uploader.py:87-93 | with no guess and neither extension in any case, the object is sent as `application/octet-stream` |
| Scenarios.Started | bots/bot_controller/streaming_uploader.py:123-130 | a fresh uploader after `start_upload` holds the granted upload id, with one create request logged |
| Scenarios.Written | bots/bot_controller/streaming_uploader.py:66-81 | after one write of under two chunks, a full chunk waits on the queue as part 1 and the buffer holds the rest; the next part number is 2 when a chunk was cut and 1 otherwise, and the session can go on streaming |
| Scenarios.SmallObject | bots/bot_controller/streaming_uploader.py:97-102 | less than a chunk in all: a create, then one put of exactly those bytes |
| Scenarios.EarlyCompletionLosesChunk | bots/bot_controller/streaming_uploader.py:97-99 | 13 bytes with 10-byte chunks, completed before the worker runs: the whole log is a create and a put of only the last 3 bytes, so the first 10 are not in the object |
| Scenarios.CompleteWithNoParts | bots/bot_controller/streaming_uploader.py:97-102 | with no part recorded and a store that accepts the put, `complete_upload` makes exactly one put of the buffer and returns |
| Scenarios.DefaultSized | bots/bot_controller/streaming_uploader.py:13 | an uploader built without a chunk size cuts 5 MiB (5242880-byte) parts |

## Left out

- The client set-up from environment variables (endpoint, credentials, region, path-style addressing; lines 14-30) is not modelled. The client is a constructor argument.
- `chunk_size` defaults to 5 MiB (line 13), as the constructor's `chunkSize` does (`DefaultChunkSize`). The standard library's guess comes before it among the constructor's parameters, so that a call can leave the chunk size out.
- Threads and `Queue` are modelled sequentially. Interleaving is represented by calling `WorkerStep` between operations. Races on `parts`, for example appends during the `len` test at line 97, are not modelled.
- `Drain`: a join that would wait forever is reported as `Blocked` and leaves the state as it was.
- `StopWorker`: `thread.join()` on a finished thread returns at once, and that is all that is modelled.
- `mimetypes.guess_type` (line 86) is the constructor parameter `guessedType`. The standard library's table is not modelled.
- `ContentTypes.Lower`: `str.lower()` is modelled for ASCII letters only.
- Logging (lines 62 and 101) is not modelled.
- Every exception from the store is modelled as a `None` or `false` answer:
  - in the worker it is swallowed and the item is done (line 61-64);
  - elsewhere it propagates, and the call ends with `Raised`.
- The store's own behaviour is not modelled. It is an arbitrary function of the requests made, so nothing is proved about what the resulting object contains beyond the requests sent.
- `upload_id` is set only by `start_upload` (lines 123-130); parts uploaded before it carry upload id `None`.
- Line 96's comment reads "If we never started a multipart upload (len(self.parts) == 0)". It takes an empty `parts` list to mean that no multipart upload is under way. Chunks can be queued, or even uploaded and failed, while `parts` is still empty. See Findings.
- `chunkSize` is positive (the type `Size`). With 0 or less, `upload_part`'s loop (line 70) never ends.
- `Parts.SortByPartNumber`: stability of `sorted` among equal part numbers is not stated. The worker records strictly ascending part numbers (`Parts.RecordedAscending`), so the lists sorted here have no ties.
- Misuse after completion, such as a second `complete_upload` or an `upload_part` once the worker has stopped, follows the same contracts. Nothing further is proved about it: `Streaming()` no longer holds.
- `bots/bot_controller/s3_file_uploader.py` and `bots/bot_controller/local_file_uploader.py` are not part of this model. They are thread wrappers around a single store or filesystem call.
- Django settings are not part of this model.

## Findings

| source | as written | input that shows it | evidently intended | confidence | as-written member | corrected member |
|---|---|---|---|---|---|---|
| bots/bot_controller/streaming_uploader.py:97-99 | the put path is chosen when `len(self.parts) == 0`, meaning no part recorded by the worker yet, and it puts only the buffer | chunk size 10, 13 bytes in one `upload_part`, `complete_upload` before the worker has taken part 1: the object is the last 3 bytes; the first 10 stay queued and may still be uploaded by the worker, but only to a multipart upload that is never completed, so they are never part of the object | take the put path only when no chunk was ever queued (`part_number == 1`); otherwise complete the multipart upload | not executed | Scenarios.EarlyCompletionLosesChunk | StreamingUpload.StreamingUploader.CompleteUploadCorrected |
