/**
 * The upload queue's items, the `{PartNumber, ETag}` list the worker builds
 * from them, and the sort `complete_upload` applies before completing.
 */
module Parts {
  import opened Wrappers
  import opened S3
  import opened Chunking

  /** An entry of the upload queue: a chunk with its part number, or the `(None, None)` stop signal. */
  datatype QueueItem = Part(chunk: seq<byte>, partNum: int) | Sentinel

  /** Queue items for the chunks `cs`, numbered one by one from `first`. */
  function Items(cs: seq<seq<byte>>, first: int): seq<QueueItem>
  {
    seq(|cs|, i requires 0 <= i < |cs| => Part(cs[i], first + i))
  }

  lemma ItemsAppend(a: seq<seq<byte>>, b: seq<seq<byte>>, first: int)
    ensures Items(a + b, first) == Items(a, first) + Items(b, first + |a|)
  {
    var l, r := Items(a + b, first), Items(a, first) + Items(b, first + |a|);
    assert |l| == |r|;
    forall i | 0 <= i < |l| ensures l[i] == r[i] {
      if i >= |a| {
        assert (a + b)[i] == b[i - |a|];
      }
    }
  }

  /** The bytes of the chunks in `items`, in queue order. */
  function PartBytes(items: seq<QueueItem>): seq<byte>
  {
    if items == [] then []
    else (if items[0].Part? then items[0].chunk else []) + PartBytes(items[1..])
  }

  /** The queue items carry exactly the bytes of the chunks they were made from. */
  lemma {:induction false} ItemsBytes(cs: seq<seq<byte>>, first: int)
    ensures PartBytes(Items(cs, first)) == Flatten(cs)
    decreases |cs|
  {
    if cs != [] {
      assert Items(cs, first)[1..] == Items(cs[1..], first + 1);
      ItemsBytes(cs[1..], first + 1);
    }
  }

  lemma PartBytesAppend(a: seq<QueueItem>, b: seq<QueueItem>)
    ensures PartBytes(a + b) == PartBytes(a) + PartBytes(b)
  {
    if a == [] {
      assert a + b == b;
    } else {
      assert (a + b)[1..] == a[1..] + b;
      PartBytesAppend(a[1..], b);
    }
  }

  /**
   * The `{PartNumber, ETag}` list the worker has built after taking `items`,
   * where `results[i]` is what the upload of `items[i]` returned (`None` when
   * it raised, and for the stop signal, which is not uploaded).
   */
  function Recorded(items: seq<QueueItem>, results: seq<Option<string>>): seq<CompletedPart>
    requires |items| == |results|
    decreases |items|
  {
    if items == [] then []
    else
      var n := |items| - 1;
      Recorded(items[..n], results[..n]) +
        if items[n].Part? && results[n].Some? then [CompletedPart(items[n].partNum, results[n].value)] else []
  }

  /** A part is recorded exactly when some queued chunk with its number was uploaded and returned its ETag. */
  lemma {:induction false} RecordedExactly(items: seq<QueueItem>, results: seq<Option<string>>)
    requires |items| == |results|
    ensures forall p :: p in Recorded(items, results) <==>
      exists i :: 0 <= i < |items| && items[i].Part? && items[i].partNum == p.partNumber && results[i] == Some(p.etag)
    decreases |items|
  {
    if items != [] {
      var n := |items| - 1;
      RecordedExactly(items[..n], results[..n]);
      forall p | p in Recorded(items, results)
        ensures exists i :: 0 <= i < |items| && items[i].Part? && items[i].partNum == p.partNumber && results[i] == Some(p.etag)
      {
        if p !in Recorded(items[..n], results[..n]) {
          assert items[n].Part? && items[n].partNum == p.partNumber && results[n] == Some(p.etag);
        } else {
          var i :| 0 <= i < n && items[..n][i].Part? && items[..n][i].partNum == p.partNumber && results[..n][i] == Some(p.etag);
          assert items[i] == items[..n][i] && results[i] == results[..n][i];
        }
      }
      forall p: CompletedPart | exists i :: 0 <= i < |items| && items[i].Part? && items[i].partNum == p.partNumber && results[i] == Some(p.etag)
        ensures p in Recorded(items, results)
      {
        var i :| 0 <= i < |items| && items[i].Part? && items[i].partNum == p.partNumber && results[i] == Some(p.etag);
        if i < n {
          assert items[..n][i] == items[i] && results[..n][i] == results[i];
        }
      }
    }
  }

  /** Part numbers of the chunks in `items` strictly increase along the queue. */
  ghost predicate NumbersIncrease(items: seq<QueueItem>)
  {
    forall i, j :: 0 <= i < j < |items| && items[i].Part? && items[j].Part? ==> items[i].partNum < items[j].partNum
  }

  ghost predicate StrictlyAscending(ps: seq<CompletedPart>)
  {
    forall i, j :: 0 <= i < j < |ps| ==> ps[i].partNumber < ps[j].partNumber
  }

  /** The single worker takes the queue in order, so it records parts in queue order. */
  lemma {:induction false} RecordedAscending(items: seq<QueueItem>, results: seq<Option<string>>)
    requires |items| == |results| && NumbersIncrease(items)
    ensures StrictlyAscending(Recorded(items, results))
    decreases |items|
  {
    if items != [] {
      var n := |items| - 1;
      var prefix := Recorded(items[..n], results[..n]);
      assert NumbersIncrease(items[..n]);
      RecordedAscending(items[..n], results[..n]);
      if items[n].Part? && results[n].Some? {
        RecordedExactly(items[..n], results[..n]);
        forall k | 0 <= k < |prefix| ensures prefix[k].partNumber < items[n].partNum {
          assert prefix[k] in prefix;
          var i :| 0 <= i < n && items[..n][i].Part? && items[..n][i].partNum == prefix[k].partNumber
            && results[..n][i] == Some(prefix[k].etag);
          assert items[i] == items[..n][i];
        }
      }
    }
  }

  /** When every upload succeeds, the worker records every chunk, numbered as it was queued. */
  lemma {:induction false} AllRecorded(cs: seq<seq<byte>>, first: int, results: seq<Option<string>>)
    requires |results| == |cs|
    requires forall i :: 0 <= i < |cs| ==> results[i].Some?
    ensures var r := Recorded(Items(cs, first), results);
      |r| == |cs| && forall i :: 0 <= i < |cs| ==> r[i] == CompletedPart(first + i, results[i].value)
    decreases |cs|
  {
    if cs != [] {
      var n := |cs| - 1;
      assert Items(cs, first)[..n] == Items(cs[..n], first);
      AllRecorded(cs[..n], first, results[..n]);
    }
  }

  ghost predicate SortedByNumber(ps: seq<CompletedPart>)
  {
    forall i, j :: 0 <= i < j < |ps| ==> ps[i].partNumber <= ps[j].partNumber
  }

  /** Puts `p` in place, ahead of the parts with the same number. */
  function Insert(p: CompletedPart, ps: seq<CompletedPart>): (r: seq<CompletedPart>)
    requires SortedByNumber(ps)
    ensures SortedByNumber(r)
    ensures multiset(r) == multiset(ps) + multiset{p}
    ensures |r| == |ps| + 1
    ensures r[0] == p || (ps != [] && r[0] == ps[0])
  {
    if ps == [] || p.partNumber <= ps[0].partNumber then [p] + ps
    else
      assert ps == [ps[0]] + ps[1..];
      [ps[0]] + Insert(p, ps[1..])
  }

  /** Python's `sorted(parts, key=lambda x: x["PartNumber"])`: ordered by part number, a permutation of its input. */
  function SortByPartNumber(ps: seq<CompletedPart>): (r: seq<CompletedPart>)
    ensures SortedByNumber(r)
    ensures multiset(r) == multiset(ps)
  {
    if ps == [] then []
    else
      assert ps == [ps[0]] + ps[1..];
      Insert(ps[0], SortByPartNumber(ps[1..]))
  }

  /** Sorting a list that is already in order leaves it as it is. */
  lemma {:induction false} SortKeepsSorted(ps: seq<CompletedPart>)
    requires SortedByNumber(ps)
    ensures SortByPartNumber(ps) == ps
  {
    if ps != [] {
      assert SortedByNumber(ps[1..]);
      SortKeepsSorted(ps[1..]);
      assert ps == [ps[0]] + ps[1..];
    }
  }

  /** The upload requests the worker makes for `items`, in queue order (the stop signal makes none). */
  function UploadCalls(bucket: string, key: string, uploadId: Option<string>, items: seq<QueueItem>): seq<Call>
  {
    if items == [] then []
    else
      (if items[0].Part? then [Call.UploadPart(bucket, key, items[0].partNum, uploadId, items[0].chunk)] else []) +
        UploadCalls(bucket, key, uploadId, items[1..])
  }

  lemma UploadCallsAppend(bucket: string, key: string, uploadId: Option<string>, a: seq<QueueItem>, b: seq<QueueItem>)
    ensures UploadCalls(bucket, key, uploadId, a + b) == UploadCalls(bucket, key, uploadId, a) + UploadCalls(bucket, key, uploadId, b)
  {
    if a == [] {
      assert a + b == b;
    } else {
      assert (a + b)[1..] == a[1..] + b;
      UploadCallsAppend(bucket, key, uploadId, a[1..], b);
    }
  }

  /**
   * What the worker gets back uploading `items` one by one, when the store
   * answers each upload with `reply` applied to the requests so far and
   * `log` has been sent before the first (`None` for the stop signal).
   */
  function UploadReplies(reply: seq<Call> -> Option<string>, log: seq<Call>,
                         bucket: string, key: string, uploadId: Option<string>, items: seq<QueueItem>): seq<Option<string>>
    decreases |items|
  {
    if items == [] then []
    else if items[0].Sentinel? then [None] + UploadReplies(reply, log, bucket, key, uploadId, items[1..])
    else
      var log' := log + [Call.UploadPart(bucket, key, items[0].partNum, uploadId, items[0].chunk)];
      [reply(log')] + UploadReplies(reply, log', bucket, key, uploadId, items[1..])
  }

  lemma {:induction false} UploadRepliesAppend(reply: seq<Call> -> Option<string>, log: seq<Call>,
                                               bucket: string, key: string, uploadId: Option<string>,
                                               items: seq<QueueItem>, x: QueueItem)
    ensures UploadReplies(reply, log, bucket, key, uploadId, items + [x])
      == UploadReplies(reply, log, bucket, key, uploadId, items)
         + UploadReplies(reply, log + UploadCalls(bucket, key, uploadId, items), bucket, key, uploadId, [x])
    decreases |items|
  {
    if items == [] {
      assert items + [x] == [x];
      assert log + UploadCalls(bucket, key, uploadId, items) == log;
    } else {
      SnocTail(items, x);
      var log' := if items[0].Sentinel? then log
                  else log + [Call.UploadPart(bucket, key, items[0].partNum, uploadId, items[0].chunk)];
      UploadCallsCons(bucket, key, uploadId, log, items);
      UploadRepliesAppend(reply, log', bucket, key, uploadId, items[1..], x);
    }
  }

  lemma SnocTail(items: seq<QueueItem>, x: QueueItem)
    requires items != []
    ensures (items + [x])[0] == items[0] && (items + [x])[1..] == items[1..] + [x]
  {
  }

  /** The requests for `items`, after `log`, are those for its first item and then those for the others. */
  lemma UploadCallsCons(bucket: string, key: string, uploadId: Option<string>, log: seq<Call>, items: seq<QueueItem>)
    requires items != []
    ensures var log' := if items[0].Sentinel? then log
                        else log + [Call.UploadPart(bucket, key, items[0].partNum, uploadId, items[0].chunk)];
      log + UploadCalls(bucket, key, uploadId, items) == log' + UploadCalls(bucket, key, uploadId, items[1..])
  {
    var rest := UploadCalls(bucket, key, uploadId, items[1..]);
    if items[0].Sentinel? {
      assert UploadCalls(bucket, key, uploadId, items) == [] + rest;
      assert [] + rest == rest;
    } else {
      var c := Call.UploadPart(bucket, key, items[0].partNum, uploadId, items[0].chunk);
      assert UploadCalls(bucket, key, uploadId, items) == [c] + rest;
      assert log + ([c] + rest) == (log + [c]) + rest;
    }
  }

  /**
   * The list `complete_upload` sends when the queue held the chunks `cs`,
   * numbered from 1, then the stop signal: the sort changes nothing, part
   * numbers strictly increase, a part is listed exactly when its upload
   * returned an ETag (a failed part is silently missing), and when every
   * upload succeeded the list is parts 1, 2, ..., |cs| in that order.
   */
  lemma CompletionList(cs: seq<seq<byte>>, results: seq<Option<string>>)
    requires |results| == |cs| + 1
    ensures var r := Recorded(Items(cs, 1) + [Sentinel], results);
      && SortByPartNumber(r) == r
      && StrictlyAscending(r)
      && (forall p :: p in r <==> 1 <= p.partNumber <= |cs| && results[p.partNumber - 1] == Some(p.etag))
      && ((forall i :: 0 <= i < |cs| ==> results[i].Some?) ==>
            |r| == |cs| && forall i :: 0 <= i < |cs| ==> r[i] == CompletedPart(i + 1, results[i].value))
  {
    var rs := results[..|cs|];
    var r := Recorded(Items(cs, 1) + [Sentinel], results);
    DropSentinel(Items(cs, 1), results);
    assert r == Recorded(Items(cs, 1), rs);
    CompletionOrdered(cs, rs);
    CompletionMembers(cs, rs);
    assert forall i :: 0 <= i < |cs| ==> rs[i] == results[i];
    if forall i :: 0 <= i < |cs| ==> results[i].Some? {
      AllRecorded(cs, 1, rs);
    }
  }

  lemma DropSentinel(items: seq<QueueItem>, results: seq<Option<string>>)
    requires |results| == |items| + 1
    ensures Recorded(items + [Sentinel], results) == Recorded(items, results[..|items|])
  {
    assert (items + [Sentinel])[..|items|] == items;
  }

  lemma CompletionOrdered(cs: seq<seq<byte>>, results: seq<Option<string>>)
    requires |results| == |cs|
    ensures var r := Recorded(Items(cs, 1), results); SortByPartNumber(r) == r && StrictlyAscending(r)
  {
    RecordedAscending(Items(cs, 1), results);
    SortKeepsSorted(Recorded(Items(cs, 1), results));
  }

  lemma CompletionMembers(cs: seq<seq<byte>>, results: seq<Option<string>>)
    requires |results| == |cs|
    ensures forall p :: p in Recorded(Items(cs, 1), results) <==>
      1 <= p.partNumber <= |cs| && results[p.partNumber - 1] == Some(p.etag)
  {
    var items := Items(cs, 1);
    RecordedExactly(items, results);
    forall p: CompletedPart
      ensures p in Recorded(items, results) <==> 1 <= p.partNumber <= |cs| && results[p.partNumber - 1] == Some(p.etag)
    {
      if 1 <= p.partNumber <= |cs| && results[p.partNumber - 1] == Some(p.etag) {
        var i := p.partNumber - 1;
        assert items[i].Part? && items[i].partNum == p.partNumber && results[i] == Some(p.etag);
      }
    }
  }
}
