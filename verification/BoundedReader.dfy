/** Reading a subprocess stream up to a limit while draining all of it (runtime/codex.py). */
module BoundedReader {
  import opened Wrappers

  newtype byte = x: int | 0 <= x < 256

  /** The bytes of a stream delivered in chunks. */
  function Flatten(chunks: seq<seq<byte>>): seq<byte> {
    if chunks == [] then [] else Flatten(chunks[..|chunks| - 1]) + chunks[|chunks| - 1]
  }

  function FirstBytes(s: seq<byte>, limit: nat): seq<byte> {
    if |s| <= limit then s else s[..limit]
  }

  /** However the stream is cut into chunks, the result is its first `limit` bytes, and it is called
      truncated exactly when there was more. */
  method ReadBounded(stream: Option<seq<seq<byte>>>, limit: nat) returns (output: seq<byte>, truncated: bool)
    requires stream.Some? ==> forall i :: 0 <= i < |stream.value| ==> stream.value[i] != []
    ensures stream.None? ==> output == [] && !truncated
    ensures stream.Some? ==> output == FirstBytes(Flatten(stream.value), limit)
    ensures stream.Some? ==> (truncated <==> |Flatten(stream.value)| > limit)
  {
    if stream.None? { return [], false; }
    var chunks := stream.value;
    output, truncated := [], false;
    for i := 0 to |chunks|
      invariant output == FirstBytes(Flatten(chunks[..i]), limit)
      invariant truncated <==> |Flatten(chunks[..i])| > limit
    {
      assert chunks[..i + 1][..i] == chunks[..i];
      var chunk := chunks[i];
      var remaining := limit - |output|;
      if remaining > 0 {
        output := output + FirstBytes(chunk, remaining);
      }
      if |chunk| > remaining {
        truncated := true;
      }
    }
    assert chunks[..|chunks|] == chunks;
  }
}
