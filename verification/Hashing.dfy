/** Digests fed piece by piece: whatever the pieces, the digest is that of the
    concatenation. */
module Hashing {
  import opened Utf8
  import opened Text
  import opened Chain

  function Flat(chunks: seq<seq<Byte>>): seq<Byte> {
    if chunks == [] then [] else Flat(chunks[..|chunks| - 1]) + chunks[|chunks| - 1]
  }

  lemma FlatNothing(chunks: seq<seq<Byte>>)
    ensures Flat(chunks[..0]) == []
  {
  }

  lemma FlatNext(chunks: seq<seq<Byte>>, i: nat)
    requires i < |chunks|
    ensures Flat(chunks[..i + 1]) == Flat(chunks[..i]) + chunks[i]
  {
    assert chunks[..i + 1][..i] == chunks[..i];
  }

  lemma {:induction false} FlatAppend(a: seq<seq<Byte>>, b: seq<seq<Byte>>)
    ensures Flat(a + b) == Flat(a) + Flat(b)
  {
    if b == [] {
      assert a + b == a;
    } else {
      var front, last := b[..|b| - 1], b[|b| - 1];
      FlatAppend(a, front);
      assert (a + b)[..|a + b| - 1] == a + front;
      Assoc(Flat(a), Flat(front), last);
    }
  }

  /** A prefix of the pieces is a prefix of the bytes. */
  lemma {:induction false} FlatPrefix(chunks: seq<seq<Byte>>, i: nat)
    requires i <= |chunks|
    ensures |Flat(chunks[..i])| <= |Flat(chunks)| && Flat(chunks[..i]) == Flat(chunks)[..|Flat(chunks[..i])|]
  {
    FlatAppend(chunks[..i], chunks[i..]);
    assert chunks[..i] + chunks[i..] == chunks;
  }

  class Digest {
    const sha: Sha
    var fed: seq<Byte>

    constructor (sha: Sha)
      ensures this.sha == sha && fed == []
    {
      this.sha, fed := sha, [];
    }

    method Update(chunk: seq<Byte>)
      modifies this
      ensures fed == old(fed) + chunk
    {
      fed := fed + chunk;
    }

    method HexDigest() returns (h: string)
      ensures h == sha(fed)
    {
      h := sha(fed);
    }
  }

  method Sha256Chunks(sha: Sha, chunks: seq<seq<Byte>>) returns (h: string)
    ensures h == sha(Flat(chunks))
  {
    var digest := new Digest(sha);
    for i := 0 to |chunks|
      invariant digest.fed == Flat(chunks[..i]) && digest.sha == sha
    {
      FlatNext(chunks, i);
      digest.Update(chunks[i]);
    }
    assert chunks[..|chunks|] == chunks;
    h := digest.HexDigest();
  }

  class FileHandle {
    const content: seq<Byte>
    var position: nat

    ghost predicate Valid()
      reads this
    {
      position <= |content|
    }

    constructor (content: seq<Byte>)
      ensures this.content == content && position == 0
    {
      this.content, position := content, 0;
    }

    /** The next `size` bytes or what is left; all that is left when `size` is negative. */
    method Read(size: int) returns (chunk: seq<Byte>)
      requires Valid()
      modifies this
      ensures Valid() && position == old(position) + |chunk| && chunk == content[old(position)..position]
      ensures size >= 0 ==> |chunk| <= size
      ensures chunk == [] <==> size == 0 || old(position) == |content|
    {
      var end := if 0 <= size < |content| - position then position + size else |content|;
      chunk := content[position..end];
      position := end;
    }
  }

  /** The digest of a file is that of its bytes for every piece size but zero, with
      which nothing is ever read. */
  method Sha256File(sha: Sha, file: seq<Byte>, chunkSize: int) returns (h: string)
    ensures h == sha(if chunkSize == 0 then [] else file)
  {
    var handle := new FileHandle(file);
    var digest := new Digest(sha);
    var chunk := handle.Read(chunkSize);
    while chunk != []
      invariant handle.Valid() && handle.content == file && digest.sha == sha
      invariant digest.fed + chunk == file[..handle.position]
      invariant chunkSize == 0 ==> digest.fed == []
      invariant chunk == [] <==> chunkSize == 0 || digest.fed == file
      decreases |file| - |digest.fed|
    {
      digest.Update(chunk);
      chunk := handle.Read(chunkSize);
    }
    h := digest.HexDigest();
  }
}
