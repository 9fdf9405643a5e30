/** The proxy's bounded body reader (bff.ts, BffScope.read): bytes are gathered in a buffer that
    doubles up to a cap, and a body over the cap is refused however it is cut into chunks. */
module BodyReader {
  newtype Byte = x: int | 0 <= x < 256

  datatype Source = RequestBody | UpstreamBody

  /** The content-length header: absent, a number, or anything else. */
  datatype LengthHeader = Absent | Declared(bytes: nat) | Malformed

  datatype Body =
    | Whole(bytes: seq<Byte>)
    | TooLarge(status: int)
    | InvalidLength(status: int)
    | Unavailable(status: int)

  const FIRST_BUFFER := 8192

  function Concat(chunks: seq<seq<Byte>>): seq<Byte> {
    if chunks == [] then [] else Concat(chunks[..|chunks| - 1]) + chunks[|chunks| - 1]
  }

  lemma {:induction false} PrefixIsShorter(chunks: seq<seq<Byte>>, k: nat)
    requires k <= |chunks|
    ensures |Concat(chunks[..k])| <= |Concat(chunks)|
  {
    if k == |chunks| {
      assert chunks[..k] == chunks;
    } else {
      assert chunks[..|chunks| - 1][..k] == chunks[..k];
      PrefixIsShorter(chunks[..|chunks| - 1], k);
    }
  }

  lemma NoChunks(chunks: seq<seq<Byte>>)
    ensures Concat(chunks[..0]) == []
  {
  }

  lemma OneChunkMore(chunks: seq<seq<Byte>>, k: nat)
    requires k < |chunks|
    ensures Concat(chunks[..k + 1]) == Concat(chunks[..k]) + chunks[k]
  {
    assert chunks[..k + 1][..k] == chunks[..k];
  }

  function Min(a: nat, b: nat): nat { if a < b then a else b }

  function Max(a: nat, b: nat): nat { if a < b then b else a }

  /** A larger buffer with the same first bytes. */
  method Expanded(buffer: array<Byte>, size: nat, capacity: nat) returns (expanded: array<Byte>)
    requires size <= buffer.Length && size <= capacity
    ensures fresh(expanded) && expanded.Length == capacity && expanded[..size] == buffer[..size]
  {
    expanded := new Byte[capacity];
    forall i | 0 <= i < size {
      expanded[i] := buffer[i];
    }
  }

  class BffScope {
    const requestBytes: nat
    const responseBytes: nat

    constructor (requestBytes: nat, responseBytes: nat)
      ensures this.requestBytes == requestBytes && this.responseBytes == responseBytes
    {
      this.requestBytes := requestBytes;
      this.responseBytes := responseBytes;
    }

    /** The body is returned whole exactly when its header does not rule it out, all of it
        fits under the cap and the stream ends properly; otherwise the first reason that
        applies is reported. `moved` counts the bytes copied when the buffer grew. */
    method Read(source: Source, header: LengthHeader, chunks: seq<seq<Byte>>, complete: bool)
      returns (r: Body, moved: nat)
      ensures var cap := if source == RequestBody then requestBytes else responseBytes;
              r == if header.Malformed? then InvalidLength(if source == RequestBody then 400 else 502)
                   else if (header.Declared? && header.bytes > cap) || |Concat(chunks)| > cap
                   then TooLarge(if source == RequestBody then 413 else 502)
                   else if !complete then Unavailable(if source == RequestBody then 400 else 502)
                   else Whole(Concat(chunks))
      ensures moved == 0
              || (moved < 2 * |Concat(chunks)|
                  && moved < 2 * if source == RequestBody then requestBytes else responseBytes)
    {
      hide Concat;
      moved := 0;
      var cap := if source == RequestBody then requestBytes else responseBytes;
      if header.Malformed? {
        return InvalidLength(if source == RequestBody then 400 else 502), moved;
      }
      if header.Declared? && header.bytes > cap {
        return TooLarge(if source == RequestBody then 413 else 502), moved;
      }
      var buffer := new Byte[Min(FIRST_BUFFER, cap)];
      var size: nat := 0;
      NoChunks(chunks);
      for k := 0 to |chunks|
        invariant fresh(buffer)
        invariant size <= buffer.Length <= cap
        invariant buffer[..size] == Concat(chunks[..k])
        invariant moved == 0 || moved < 2 * size
        invariant buffer.Length < cap ==> moved <= buffer.Length
      {
        var value := chunks[k];
        OneChunkMore(chunks, k);
        PrefixIsShorter(chunks, k + 1);
        PrefixIsShorter(chunks, k);
        var needed := size + |value|;
        if needed > cap {
          return TooLarge(if source == RequestBody then 413 else 502), moved;
        }
        if needed > buffer.Length {
          buffer := Expanded(buffer, size, Min(cap, Max(needed, buffer.Length * 2)));
          moved := moved + size;
        }
        ghost var gathered := buffer[..size];
        forall i | 0 <= i < |value| {
          buffer[size + i] := value[i];
        }
        assert buffer[..needed] == gathered + value;
        size := needed;
      }
      assert chunks[..|chunks|] == chunks;
      if !complete {
        return Unavailable(if source == RequestBody then 400 else 502), moved;
      }
      r := Whole(buffer[..size]);
    }
  }
}
