// Byte strings as the staging files and objects hold them, and the two file
// operations the upload protocol uses on them: truncation and a positioned write.
module Bytes {
  newtype byte = x: int | 0 <= x < 256

  type Data = seq<byte>

  // The bodies of a list of chunks, in order.
  function Flat(parts: seq<Data>): Data {
    if parts == [] then [] else Flat(parts[..|parts| - 1]) + parts[|parts| - 1]
  }

  lemma FlatAppend(parts: seq<Data>, part: Data)
    ensures Flat(parts + [part]) == Flat(parts) + part
  {
    assert (parts + [part])[..|parts|] == parts;
  }

  function Zeros(n: nat): (r: Data)
    ensures |r| == n
  {
    seq(n, i => 0)
  }

  // ftruncate: cuts a longer file, extends a shorter one with zero bytes.
  function Resize(b: Data, n: nat): (r: Data)
    ensures |r| == n
    ensures n <= |b| ==> r == b[..n]
  {
    if n <= |b| then b[..n] else b + Zeros(n - |b|)
  }

  // A write of chunk at file position at.
  function Overwrite(b: Data, at: nat, chunk: Data): Data {
    Resize(b, at) + chunk + (if at + |chunk| < |b| then b[at + |chunk|..] else [])
  }

  // When the position is the end of the file the write appends.
  lemma OverwriteAtEnd(b: Data, chunk: Data)
    ensures Overwrite(b, |b|, chunk) == b + chunk
  {
    assert b[..|b|] == b;
  }
}
