/**
 * The object-store client the uploader drives, seen only at its interface:
 * the four boto3 S3 operations the uploader calls. The store itself is not
 * modelled; every call is appended to a log, and what the store answers is
 * an arbitrary function of the calls made so far, fixed when the client is
 * built. An answer of `None` (or `false`) stands for the call raising.
 */
module S3 {
  import opened Wrappers

  newtype byte = b: int | 0 <= b < 256

  /** One `{"PartNumber": ..., "ETag": ...}` entry recorded by the worker. */
  datatype CompletedPart = CompletedPart(partNumber: int, etag: string)

  /** One request sent to the store, with the arguments the uploader passes. */
  datatype Call =
    | CreateMultipartUpload(bucket: string, key: string, contentType: string)
    | UploadPart(bucket: string, key: string, partNumber: int, uploadId: Option<string>, body: seq<byte>)
    | CompleteMultipartUpload(bucket: string, key: string, uploadId: Option<string>, parts: seq<CompletedPart>)
    | PutObject(bucket: string, key: string, body: seq<byte>, contentType: string)

  class Client {
    /** Every request made so far, oldest first. */
    var log: seq<Call>

    /** The `UploadId` granted, given the log ending with the request; `None` if it raises. */
    const createReply: seq<Call> -> Option<string>
    /** The `ETag` returned, given the log ending with the request; `None` if it raises. */
    const partReply: seq<Call> -> Option<string>
    /** Whether completing succeeds, given the log ending with the request. */
    const completeReply: seq<Call> -> bool
    /** Whether the single-shot put succeeds, given the log ending with the request. */
    const putReply: seq<Call> -> bool

    constructor (createReply: seq<Call> -> Option<string>, partReply: seq<Call> -> Option<string>,
                 completeReply: seq<Call> -> bool, putReply: seq<Call> -> bool)
      ensures log == []
      ensures this.createReply == createReply && this.partReply == partReply
      ensures this.completeReply == completeReply && this.putReply == putReply
    {
      log := [];
      this.createReply := createReply;
      this.partReply := partReply;
      this.completeReply := completeReply;
      this.putReply := putReply;
    }

    method CreateMultipartUpload(bucket: string, key: string, contentType: string) returns (uploadId: Option<string>)
      modifies this
      ensures log == old(log) + [Call.CreateMultipartUpload(bucket, key, contentType)]
      ensures uploadId == createReply(log)
    {
      log := log + [Call.CreateMultipartUpload(bucket, key, contentType)];
      uploadId := createReply(log);
    }

    method UploadPart(bucket: string, key: string, partNumber: int, uploadId: Option<string>, body: seq<byte>)
      returns (etag: Option<string>)
      modifies this
      ensures log == old(log) + [Call.UploadPart(bucket, key, partNumber, uploadId, body)]
      ensures etag == partReply(log)
    {
      log := log + [Call.UploadPart(bucket, key, partNumber, uploadId, body)];
      etag := partReply(log);
    }

    method CompleteMultipartUpload(bucket: string, key: string, uploadId: Option<string>, parts: seq<CompletedPart>)
      returns (ok: bool)
      modifies this
      ensures log == old(log) + [Call.CompleteMultipartUpload(bucket, key, uploadId, parts)]
      ensures ok == completeReply(log)
    {
      log := log + [Call.CompleteMultipartUpload(bucket, key, uploadId, parts)];
      ok := completeReply(log);
    }

    method PutObject(bucket: string, key: string, body: seq<byte>, contentType: string) returns (ok: bool)
      modifies this
      ensures log == old(log) + [Call.PutObject(bucket, key, body, contentType)]
      ensures ok == putReply(log)
    {
      log := log + [Call.PutObject(bucket, key, body, contentType)];
      ok := putReply(log);
    }
  }
}
