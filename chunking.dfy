/**
 * `send_json_response` writes the serialised reply in pieces of 8192 characters:
 * `for i in range(0, len(json_data), chunk_size)` sends `json_data[i:i + chunk_size]`.
 */
module Chunking {

  const ChunkSize: nat := 8192

  /** The pieces written one after another. */
  function Concat(chunks: seq<string>): string {
    if |chunks| == 0 then "" else Concat(chunks[..|chunks| - 1]) + chunks[|chunks| - 1]
  }

  /** Python's clamping slice `s[i:j]` for `0 <= i <= j`. */
  function Slice(s: string, i: nat, j: nat): (r: string)
    requires i <= j
    ensures |r| == if i >= |s| then 0 else (if j <= |s| then j else |s|) - i
  {
    if i >= |s| then "" else s[i..if j <= |s| then j else |s|]
  }

  method SplitIntoChunks(text: string) returns (chunks: seq<string>)
    ensures Concat(chunks) == text
    ensures forall k :: 0 <= k < |chunks| ==> 0 < |chunks[k]| <= ChunkSize
    ensures forall k :: 0 <= k < |chunks| - 1 ==> |chunks[k]| == ChunkSize
    ensures |text| == 0 <==> |chunks| == 0
    ensures |chunks| > 0 ==> (|chunks| - 1) * ChunkSize < |text| <= |chunks| * ChunkSize
  {
    chunks := [];
    var i: nat := 0;
    while i < |text|
      invariant i == |chunks| * ChunkSize
      invariant i <= |text| ==> Concat(chunks) == text[..i]
      invariant i > |text| ==> Concat(chunks) == text && |chunks| > 0
      invariant |chunks| > 0 ==> (|chunks| - 1) * ChunkSize < |text|
      invariant forall k :: 0 <= k < |chunks| ==> 0 < |chunks[k]| <= ChunkSize
      invariant forall k :: 0 <= k < |chunks| - 1 ==> |chunks[k]| == ChunkSize
      invariant i <= |text| ==> forall k :: 0 <= k < |chunks| ==> |chunks[k]| == ChunkSize
      decreases |text| - i
    {
      var chunk := Slice(text, i, i + ChunkSize);
      assert chunk == text[i..if i + ChunkSize <= |text| then i + ChunkSize else |text|];
      assert (chunks + [chunk])[..|chunks|] == chunks;
      if i + ChunkSize <= |text| {
        assert text[..i + ChunkSize] == text[..i] + chunk;
      } else {
        assert text == text[..i] + chunk;
      }
      chunks := chunks + [chunk];
      i := i + ChunkSize;
    }
    if i == |text| && |text| > 0 {
      assert text[..i] == text;
    }
  }
}
