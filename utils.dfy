/** The optional value used for dates that may fail to parse. */
module Wrappers {

  datatype Option<+T> = None | Some(value: T)
}

/**
 Helpers of src/utils.ts: the merge batch width, the timestamp prefix of a
 file name, splitting a list into batches, and the file removal that never
 fails.
 */
module Utils {

  /** Number of merges launched together (MAX_PARALLELL_PROCESSING_AMOUNT). */
  const MaxParallelProcessingAmount: int := 4

  /** Length of the timestamp at the start of every downloaded file name. */
  const TimestampLength: nat := 19

  function Min(a: int, b: int): int
  {
    if a <= b then a else b
  }

  /**
   getDateFromVideoName: the first 19 characters of a file name; a shorter
   name is returned whole, as JavaScript's substring clamps its end.
   */
  function DateFromVideoName(fileName: string): (date: string)
    ensures |date| == Min(TimestampLength, |fileName|)
    ensures date <= fileName
  {
    if |fileName| <= TimestampLength then fileName else fileName[..TimestampLength]
  }

  /** Taking the timestamp of a timestamp changes nothing. */
  lemma DateFromVideoNameIdempotent(fileName: string)
    ensures DateFromVideoName(DateFromVideoName(fileName)) == DateFromVideoName(fileName)
  {
  }

  /** A 19-character timestamp followed by any suffix gives back the timestamp. */
  lemma DateFromVideoNameOfStamped(stamp: string, suffix: string)
    requires |stamp| == TimestampLength
    ensures DateFromVideoName(stamp + suffix) == stamp
  {
    assert (stamp + suffix)[..TimestampLength] == stamp;
  }

  /** The concatenation of a list of lists, in order. */
  function Flatten<T>(chunks: seq<seq<T>>): seq<T>
  {
    if |chunks| == 0 then [] else Flatten(chunks[..|chunks| - 1]) + chunks[|chunks| - 1]
  }

  lemma FlattenAppend<T>(chunks: seq<seq<T>>, chunk: seq<T>)
    ensures Flatten(chunks + [chunk]) == Flatten(chunks) + chunk
  {
    assert (chunks + [chunk])[..|chunks|] == chunks;
  }

  /** Flattening a prefix of the chunks gives a prefix of the flattening. */
  lemma {:induction false} FlattenPrefix<T>(chunks: seq<seq<T>>, c: nat)
    requires c <= |chunks|
    ensures Flatten(chunks[..c]) <= Flatten(chunks)
    decreases |chunks| - c
  {
    if c < |chunks| {
      FlattenPrefix(chunks, c + 1);
      FlattenAppend(chunks[..c], chunks[c]);
      assert chunks[..c + 1] == chunks[..c] + [chunks[c]];
    } else {
      assert chunks[..c] == chunks;
    }
  }

  /**
   chunkArray: cut `array` into consecutive slices of `chunkAmount` elements,
   the last one possibly shorter. The source's loop advances by
   `chunkAmount`, so it only ends on a non-empty array when that is positive.
   */
  method ChunkArray<T>(items: seq<T>, chunkAmount: int) returns (chunkedArray: seq<seq<T>>)
    requires chunkAmount > 0 || |items| == 0
    ensures Flatten(chunkedArray) == items
    ensures forall c :: 0 <= c < |chunkedArray| ==> 0 < |chunkedArray[c]| <= chunkAmount
    ensures forall c :: 0 <= c < |chunkedArray| - 1 ==> |chunkedArray[c]| == chunkAmount
    ensures |items| == 0 ==> chunkedArray == []
    ensures chunkAmount > 0 ==> (|chunkedArray| - 1) * chunkAmount < |items| <= |chunkedArray| * chunkAmount
  {
    chunkedArray := [];
    var i := 0;
    while i < |items|
      invariant 0 <= i
      invariant i == |chunkedArray| * chunkAmount
      invariant Flatten(chunkedArray) == items[..Min(i, |items|)]
      invariant forall c :: 0 <= c < |chunkedArray| ==> 0 < |chunkedArray[c]| <= chunkAmount
      invariant i < |items| ==> forall c :: 0 <= c < |chunkedArray| ==> |chunkedArray[c]| == chunkAmount
      invariant forall c :: 0 <= c < |chunkedArray| - 1 ==> |chunkedArray[c]| == chunkAmount
      invariant |chunkedArray| > 0 ==> i - chunkAmount < |items|
      decreases |items| - i
    {
      var chunk := items[i..Min(i + chunkAmount, |items|)];
      FlattenAppend(chunkedArray, chunk);
      assert items[..i] + chunk == items[..Min(i + chunkAmount, |items|)];
      MulSucc(|chunkedArray|, chunkAmount);
      chunkedArray := chunkedArray + [chunk];
      i := i + chunkAmount;
    }
    assert items[..Min(i, |items|)] == items;
  }

  lemma MulSucc(m: int, k: int)
    ensures (m + 1) * k == m * k + k
  {
  }

  /** A file of the memories folder: its year folder and its name. */
  datatype Path = Path(folder: string, name: string)

  /** The part of the file system the merge stage reads and changes. */
  class Disk {
    var files: set<Path>

    constructor (initial: set<Path>)
      ensures files == initial
    {
      files := initial;
    }

    /** A file written by an external program (ffmpeg's output). */
    method WriteFile(path: Path)
      modifies this
      ensures files == old(files) + {path}
    {
      files := files + {path};
    }

    /**
     removeFile: unlink `path`; the error raised for a missing file is
     caught and only logged, so removing an absent path changes nothing.
     */
    method RemoveFile(path: Path)
      modifies this
      ensures files == old(files) - {path}
      ensures path !in old(files) ==> files == old(files)
      ensures forall p :: p != path ==> (p in files <==> p in old(files))
    {
      if path in files {
        files := files - {path};
      }
    }
  }
}
