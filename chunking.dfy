/**
 * The part buffer: how `upload_part` cuts the bytes it holds into chunks of
 * exactly `chunk_size` bytes, and what a `BytesIO.write` at the cursor does.
 */
module Chunking {

  /** A chunk size the cutting loop can make progress with. */
  type Size = n: int | n > 0 witness 1

  /** The chunks of exactly `size` elements the cutting loop takes off the front of `s`, in order. */
  function Chunks<T>(s: seq<T>, size: Size): seq<seq<T>>
    decreases |s|
  {
    if |s| < size then [] else [s[..size]] + Chunks(s[size..], size)
  }

  /** What the cutting loop leaves in the buffer. */
  function Rest<T>(s: seq<T>, size: Size): seq<T>
    decreases |s|
  {
    if |s| < size then s else Rest(s[size..], size)
  }

  function Flatten<T>(ss: seq<seq<T>>): seq<T>
  {
    if ss == [] then [] else ss[0] + Flatten(ss[1..])
  }

  /**
   * The contents of a `BytesIO` holding `buf` after writing `data` at cursor `pos`:
   * the bytes before the cursor stay, `data` overwrites what follows and the
   * buffer grows if `data` runs past its end.
   */
  function Write<T>(buf: seq<T>, pos: nat, data: seq<T>): (r: seq<T>)
    requires pos <= |buf|
    ensures |r| == if pos + |data| <= |buf| then |buf| else pos + |data|
    ensures r[..pos] == buf[..pos] && r[pos..pos + |data|] == data
    ensures forall i :: pos + |data| <= i < |buf| ==> r[i] == buf[i]
    ensures pos == |buf| ==> r == buf + data
  {
    buf[..pos] + data + if pos + |data| < |buf| then buf[pos + |data|..] else []
  }

  lemma FlattenAppend<T>(a: seq<seq<T>>, b: seq<seq<T>>)
    ensures Flatten(a + b) == Flatten(a) + Flatten(b)
  {
    if a != [] {
      assert (a + b)[1..] == a[1..] + b;
      FlattenAppend(a[1..], b);
      calc {
        Flatten(a + b);
        a[0] + Flatten(a[1..] + b);
        a[0] + (Flatten(a[1..]) + Flatten(b));
        Flatten(a) + Flatten(b);
      }
    } else {
      assert a + b == b;
    }
  }

  /** No element is lost or reordered: the chunks, then the remainder, give back `s`. */
  lemma {:induction false} ChunksThenRest<T>(s: seq<T>, size: Size)
    ensures Flatten(Chunks(s, size)) + Rest(s, size) == s
    decreases |s|
  {
    if |s| >= size {
      ChunksThenRest(s[size..], size);
      assert Chunks(s, size)[1..] == Chunks(s[size..], size);
      calc {
        Flatten(Chunks(s, size)) + Rest(s, size);
        s[..size] + Flatten(Chunks(s[size..], size)) + Rest(s[size..], size);
        s[..size] + s[size..];
        s;
      }
    }
  }

  /** Every chunk is exactly `size` long. */
  lemma {:induction false} ChunksExact<T>(s: seq<T>, size: Size)
    ensures forall c :: c in Chunks(s, size) ==> |c| == size
    decreases |s|
  {
    if |s| >= size {
      ChunksExact(s[size..], size);
    }
  }

  /** The remainder is strictly shorter than a chunk. */
  lemma {:induction false} RestShort<T>(s: seq<T>, size: Size)
    ensures |Rest(s, size)| < size
    decreases |s|
  {
    if |s| >= size {
      RestShort(s[size..], size);
    }
  }

  /** The loop cuts `|s| / size` chunks (integer division). */
  lemma {:induction false} ChunkCount<T>(s: seq<T>, size: Size)
    ensures |Chunks(s, size)| == |s| / size
    decreases |s|
  {
    if |s| >= size {
      ChunkCount(s[size..], size);
      DivStep(|s|, size);
    }
  }

  /** The remainder is what integer division leaves over. */
  lemma {:induction false} RestLength<T>(s: seq<T>, size: Size)
    ensures |Rest(s, size)| == |s| % size
    decreases |s|
  {
    if |s| >= size {
      RestLength(s[size..], size);
      ModStep(|s|, size);
    }
  }

  lemma DivStep(n: int, size: Size)
    requires n >= size
    ensures (n - size) / size + 1 == n / size
  {
    var q, r := (n - size) / size, (n - size) % size;
    assert n == (q + 1) * size + r && 0 <= r < size;
    DivUnique(n, size, q + 1, r);
  }

  lemma ModStep(n: int, size: Size)
    requires n >= size
    ensures (n - size) % size == n % size
  {
    var q, r := (n - size) / size, (n - size) % size;
    assert n == (q + 1) * size + r && 0 <= r < size;
    DivUnique(n, size, q + 1, r);
  }

  /** Euclidean division has one quotient. */
  lemma DivUnique(n: int, size: Size, q: int, r: int)
    requires n == q * size + r && 0 <= r < size
    ensures n / size == q
  {
    var q', r' := n / size, n % size;
    assert (q - q') * size == r' - r;
    if q > q' {
      MulAtLeast(q - q', size);
    } else if q < q' {
      MulAtLeast(q' - q, size);
    }
  }

  lemma MulAtLeast(k: int, size: Size)
    requires k >= 1
    ensures k * size >= size
  {
  }

  /**
   * Cutting is independent of how the stream arrives: cutting `a` and then
   * what is left of `a` followed by `b` gives the same chunks and the same
   * remainder as cutting `a + b` at once.
   */
  lemma {:induction false} ChunksAppend<T>(a: seq<T>, b: seq<T>, size: Size)
    ensures Chunks(a + b, size) == Chunks(a, size) + Chunks(Rest(a, size) + b, size)
    ensures Rest(a + b, size) == Rest(Rest(a, size) + b, size)
    decreases |a|
  {
    if |a| >= size {
      assert (a + b)[..size] == a[..size];
      assert (a + b)[size..] == a[size..] + b;
      ChunksAppend(a[size..], b, size);
    }
  }

  /** A buffer shorter than a chunk is not cut at all. */
  lemma ShortIsUncut<T>(s: seq<T>, size: Size)
    requires |s| < size
    ensures Chunks(s, size) == [] && Rest(s, size) == s
  {
  }

  /**
   * The chunks a multipart session uploads for the stream `s`: the full
   * chunks cut while streaming, then what was left, if anything.
   */
  function SessionChunks<T>(s: seq<T>, size: Size): seq<seq<T>>
  {
    Chunks(s, size) + if Rest(s, size) == [] then [] else [Rest(s, size)]
  }

  /**
   * A multipart session covers the stream exactly, with `N` full chunks and
   * one shorter, non-empty last chunk exactly when `size` does not divide
   * the stream's length.
   */
  lemma SessionChunksCover<T>(s: seq<T>, size: Size)
    ensures Flatten(SessionChunks(s, size)) == s
    ensures forall c :: c in SessionChunks(s, size) ==> 0 < |c| <= size
    ensures |SessionChunks(s, size)| == |s| / size + if |s| % size == 0 then 0 else 1
  {
    var cs, rest := Chunks(s, size), Rest(s, size);
    ChunksThenRest(s, size);
    ChunksExact(s, size);
    RestShort(s, size);
    RestLength(s, size);
    ChunkCount(s, size);
    if rest != [] {
      FlattenAppend(cs, [rest]);
      assert Flatten([rest]) == rest + Flatten([]);
    } else {
      assert cs + [] == cs;
    }
  }
}
