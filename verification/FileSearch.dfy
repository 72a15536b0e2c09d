// The chunked substring search file_contains (pliego-assets, adaptive.rs).
module FileSearch {
  import opened Prelude

  // needle occurs in the bytes at position at.
  predicate OccursAt(bytes: Bytes, needle: Bytes, at: nat) {
    at + |needle| <= |bytes| && bytes[at..at + |needle|] == needle
  }

  predicate Contains(bytes: Bytes, needle: Bytes) {
    exists at: nat | at <= |bytes| :: OccursAt(bytes, needle, at)
  }

  // The windows of the buffer, compared one by one.
  method SearchBuffer(buffer: Bytes, needle: Bytes) returns (found: bool)
    ensures found <==> Contains(buffer, needle)
  {
    var at := 0;
    while at + |needle| <= |buffer|
      invariant forall k: nat :: k < at ==> !OccursAt(buffer, needle, k)
    {
      if buffer[at..at + |needle|] == needle {
        assert OccursAt(buffer, needle, at);
        return true;
      }
      at := at + 1;
    }
    found := false;
  }

  // An occurrence in consumed + chunk either lies in consumed or within the kept tail and the chunk.
  lemma TailSuffices(consumed: Bytes, kept: nat, chunk: Bytes, needle: Bytes)
    requires needle != [] && kept <= |consumed|
    requires kept == |needle| - 1 || kept == |consumed|
    requires !Contains(consumed, needle)
    ensures Contains(consumed + chunk, needle) <==> Contains(consumed[|consumed| - kept..] + chunk, needle)
  {
    var whole := consumed + chunk;
    var cut := |consumed| - kept;
    var window := consumed[cut..] + chunk;
    assert whole[cut..] == window;
    if Contains(whole, needle) {
      var at: nat :| at <= |whole| && OccursAt(whole, needle, at);
      if at < cut {
        assert consumed[at..at + |needle|] == whole[at..at + |needle|];
        assert OccursAt(consumed, needle, at);
      }
      assert window[at - cut..at - cut + |needle|] == whole[at..at + |needle|];
      assert OccursAt(window, needle, at - cut);
    }
    if Contains(window, needle) {
      var at: nat :| at <= |window| && OccursAt(window, needle, at);
      assert whole[cut + at..cut + at + |needle|] == window[at..at + |needle|];
      assert OccursAt(whole, needle, cut + at);
    }
  }

  lemma NotInPrefix(a: Bytes, b: Bytes, needle: Bytes)
    ensures Contains(a, needle) ==> Contains(a + b, needle)
  {
    if Contains(a, needle) {
      var at: nat :| at <= |a| && OccursAt(a, needle, at);
      assert (a + b)[at..at + |needle|] == a[at..at + |needle|];
      assert OccursAt(a + b, needle, at);
    }
  }

  // The end of the file that is kept between two reads: at most needle length minus one bytes.
  function Tail(bytes: Bytes, needle: Bytes): (tail: Bytes)
    requires needle != []
    ensures |tail| <= |bytes| && tail == bytes[|bytes| - |tail|..]
    ensures |tail| == |needle| - 1 || (|tail| == |bytes| && |tail| < |needle|)
  {
    bytes[|bytes| - (if |needle| - 1 <= |bytes| then |needle| - 1 else |bytes|)..]
  }

  // Only the tail matters for the next tail.
  lemma TailOfTail(consumed: Bytes, chunk: Bytes, needle: Bytes)
    requires needle != []
    ensures Tail(Tail(consumed, needle) + chunk, needle) == Tail(consumed + chunk, needle)
  {
    var cut := |consumed| - |Tail(consumed, needle)|;
    assert (consumed + chunk)[cut..] == Tail(consumed, needle) + chunk;
  }

  // What the first n reads return.
  function Read(chunks: seq<Bytes>, n: nat): Bytes
    requires n <= |chunks|
  {
    if n == 0 then [] else Read(chunks, n - 1) + chunks[n - 1]
  }

  // What is found early is in the file.
  lemma {:induction false} FoundEarly(chunks: seq<Bytes>, n: nat, m: nat, needle: Bytes)
    requires n <= m <= |chunks| && Contains(Read(chunks, n), needle)
    ensures Contains(Read(chunks, m), needle)
  {
    if n < m {
      FoundEarly(chunks, n, m - 1, needle);
      NotInPrefix(Read(chunks, m - 1), chunks[m - 1], needle);
    }
  }

  // One read: searching the kept tail with the new chunk decides the search of everything read so far.
  lemma ChunkStep(chunks: seq<Bytes>, i: nat, needle: Bytes)
    requires needle != [] && i < |chunks| && !Contains(Read(chunks, i), needle)
    ensures Contains(Tail(Read(chunks, i), needle) + chunks[i], needle) <==> Contains(Read(chunks, i + 1), needle)
    ensures Tail(Tail(Read(chunks, i), needle) + chunks[i], needle) == Tail(Read(chunks, i + 1), needle)
  {
    var consumed := Read(chunks, i);
    TailSuffices(consumed, |Tail(consumed, needle)|, chunks[i], needle);
    TailOfTail(consumed, chunks[i], needle);
  }

  method SearchChunk(previous: Bytes, chunk: Bytes, needle: Bytes) returns (hit: bool, kept: Bytes)
    requires needle != []
    ensures hit <==> Contains(previous + chunk, needle)
    ensures kept == Tail(previous + chunk, needle)
  {
    var buffer := previous + chunk;
    hit := SearchBuffer(buffer, needle);
    var keep := if |needle| - 1 <= |buffer| then |needle| - 1 else |buffer|;
    kept := buffer[|buffer| - keep..];
  }

  // chunks is what successive reads return before the read of length zero: any way to split the file.
  // The search over the chunks equals the search over the whole file; `kept` is what is left of the file
  // between this read and a further one.
  method FileContains(chunks: seq<Bytes>, needle: Bytes) returns (found: bool, kept: Bytes)
    requires needle != []
    ensures found <==> Contains(Read(chunks, |chunks|), needle)
    ensures !found ==> kept == Tail(Read(chunks, |chunks|), needle)
  {
    kept := [];
    NotInEmpty(needle);
    for i := 0 to |chunks|
      invariant kept == Tail(Read(chunks, i), needle) && !Contains(Read(chunks, i), needle)
    {
      ChunkStep(chunks, i, needle);
      found, kept := SearchChunk(kept, chunks[i], needle);
      if found {
        FoundEarly(chunks, i + 1, |chunks|, needle);
        return;
      }
    }
    found := false;
  }

  lemma NotInEmpty(needle: Bytes)
    requires needle != []
    ensures !Contains([], needle) && Tail([], needle) == []
  {
  }
}
