/** Values shared by the recorder hook, the page and the proxy route:
    recording states, audio bytes, blobs and files, and parsed JSON. */
module Media {

  datatype Option<T> = None | Some(value: T)

  /** The four recording states, `"initial" | "play" | "pause" | "stop"`. */
  datatype RecState = Initial | Play | Pause | Stop

  newtype byte = b: int | 0 <= b < 256

  /** One `BlobEvent.data` payload delivered by the recorder. */
  type Chunk = seq<byte>

  /** A browser Blob: its bytes and its MIME type. */
  datatype Blob = Blob(content: seq<byte>, mime: string) {
    function Size(): nat { |content| }
  }

  /** A browser File: a named Blob. */
  datatype File = File(name: string, blob: Blob) {
    function Size(): nat { blob.Size() }
  }

  /** The MIME type and file name the hook and the page give to every recording. */
  const WebmMime: string := "audio/webm"
  const WebmName: string := "audio.webm"

  /** A parsed JSON value (numbers are kept integral). Objects are maps
      because parsing keeps only the last binding of a repeated key. */
  datatype Json =
    | JNull
    | JBool(b: bool)
    | JNumber(n: int)
    | JString(s: string)
    | JArray(items: seq<Json>)
    | JObject(fields: map<string, Json>)

  /** The bytes of `new Blob(chunks)`: every chunk, in order. */
  function Concat(chunks: seq<Chunk>): seq<byte>
  {
    if chunks == [] then [] else chunks[0] + Concat(chunks[1..])
  }

  /** Total size of a list of chunks. */
  function TotalSize(chunks: seq<Chunk>): nat
  {
    if chunks == [] then 0 else |chunks[0]| + TotalSize(chunks[1..])
  }

  /** Appending a chunk appends its bytes to the concatenation. */
  lemma {:induction false} ConcatAppend(chunks: seq<Chunk>, c: Chunk)
    ensures Concat(chunks + [c]) == Concat(chunks) + c
  {
    if chunks == [] {
      assert [] + [c] == [c];
      assert Concat([c]) == c + Concat([]);
    } else {
      calc {
        Concat(chunks + [c]);
        { assert (chunks + [c])[0] == chunks[0] && (chunks + [c])[1..] == chunks[1..] + [c]; }
        chunks[0] + Concat(chunks[1..] + [c]);
        { ConcatAppend(chunks[1..], c); }
        chunks[0] + (Concat(chunks[1..]) + c);
      }
    }
  }

  /** The combined blob is exactly as long as all its chunks together. */
  lemma {:induction false} ConcatSize(chunks: seq<Chunk>)
    ensures |Concat(chunks)| == TotalSize(chunks)
  {
    if chunks != [] {
      ConcatSize(chunks[1..]);
    }
  }

  /** Chunk `i` sits in the combined blob at the offset given by the chunks before it. */
  lemma {:induction false} ConcatAt(chunks: seq<Chunk>, i: nat)
    requires i < |chunks|
    ensures TotalSize(chunks[..i]) + |chunks[i]| <= |Concat(chunks)|
    ensures Concat(chunks)[TotalSize(chunks[..i])..TotalSize(chunks[..i]) + |chunks[i]|] == chunks[i]
  {
    ConcatSize(chunks);
    if i == 0 {
      assert chunks[..0] == [];
    } else {
      ConcatAt(chunks[1..], i - 1);
      assert chunks[1..][..i - 1] == chunks[..i][1..];
      assert chunks[1..][i - 1] == chunks[i];
      var off := TotalSize(chunks[..i][1..]);
      assert TotalSize(chunks[..i]) == |chunks[0]| + off;
      var tail := Concat(chunks[1..]);
      assert Concat(chunks) == chunks[0] + tail;
      assert Concat(chunks)[|chunks[0]| + off..|chunks[0]| + off + |chunks[i]|]
          == tail[off..off + |chunks[i]|];
    }
  }

  /** Every earlier recording-so-far is a prefix of every later one. */
  lemma {:induction false} ConcatPrefix(chunks: seq<Chunk>, k: nat)
    requires k <= |chunks|
    ensures Concat(chunks[..k]) <= Concat(chunks)
  {
    if k < |chunks| {
      ConcatPrefix(chunks[..|chunks| - 1], k);
      assert chunks[..|chunks| - 1][..k] == chunks[..k];
      ConcatAppend(chunks[..|chunks| - 1], chunks[|chunks| - 1]);
      assert chunks[..|chunks| - 1] + [chunks[|chunks| - 1]] == chunks;
    } else {
      assert chunks[..k] == chunks;
    }
  }
}
