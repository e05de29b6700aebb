/**
 For content that is base64 the chunks tile the file: no gap, no overlap, whatever order they are
 written in. The reasoning holds for any decoder that splits where base64 does.
 */
module UploadTiling {
  import opened Bytes
  import opened Wrappers
  import Base64
  import opened FileUpload

  type Decoder = string -> Option<seq<byte>>

  // ---- Decoders ------------------------------------------------------------------------------

  /** A cut at a multiple of four splits the decoded bytes. */
  ghost predicate SplitsAt(decode: Decoder, s: string, k: nat)
    requires k <= |s|
  {
    && decode(s[..k]).Some? && decode(s[k..]).Some?
    && decode(s).Some? && decode(s).value == decode(s[..k]).value + decode(s[k..]).value
  }

  ghost predicate Measures(decode: Decoder, s: string) {
    decode(s).Some? && DecodedBase64Length(s) == Some(|decode(s).value|)
  }

  ghost predicate GoodDecoder(decode: Decoder) {
    && (forall s, k: nat {:trigger SplitsAt(decode, s, k)} | 0 < k < |s| && k % 4 == 0 && decode(s).Some? :: SplitsAt(decode, s, k))
    && (forall s {:trigger Measures(decode, s)} | decode(s).Some? :: Measures(decode, s))
    && decode([]) == Some([])
  }

  // ---- Base64 is one -------------------------------------------------------------------------

  /** Four characters that decode without padding give three bytes, and the same ones at the end. */
  ghost predicate GroupOk(full: Decoder, last: Decoder, q: string) {
    && (full(q).Some? ==> last(q) == full(q) && |full(q).value| == 3)
    && (last(q).Some? ==> |q| == 4 && DecodedBase64Length(q) == Some(|last(q).value|))
  }

  ghost predicate GoodGroups(full: Decoder, last: Decoder) {
    forall q {:trigger GroupOk(full, last, q)} :: GroupOk(full, last, q)
  }

  lemma {:induction false} GroupsSplit(full: Decoder, last: Decoder, s: string, k: nat)
    requires GoodGroups(full, last) && 0 < k < |s| && k % 4 == 0 && Base64.DecodeGroups(full, last, s).Some?
    ensures var whole, before, after := Base64.DecodeGroups(full, last, s), Base64.DecodeGroups(full, last, s[..k]), Base64.DecodeGroups(full, last, s[k..]);
            before.Some? && after.Some? && whole.value == before.value + after.value
    decreases k
  {
    assert GroupOk(full, last, s[..4]);
    if k > 4 {
      GroupsSplit(full, last, s[4..], k - 4);
      assert s[..k][..4] == s[..4];
      assert s[4..][..k - 4] == s[..k][4..] && s[4..][k - 4..] == s[k..];
    }
  }

  lemma GroupsShape(full: Decoder, last: Decoder, s: string)
    requires GoodGroups(full, last) && |s| > 4 && Base64.DecodeGroups(full, last, s).Some?
    ensures Base64.DecodeGroups(full, last, s[4..]).Some?
    ensures |Base64.DecodeGroups(full, last, s).value| == 3 + |Base64.DecodeGroups(full, last, s[4..]).value|
  {
    assert GroupOk(full, last, s[..4]);
  }

  lemma {:induction false} GroupsMeasure(full: Decoder, last: Decoder, s: string)
    requires GoodGroups(full, last) && Base64.DecodeGroups(full, last, s).Some?
    ensures DecodedBase64Length(s) == Some(|Base64.DecodeGroups(full, last, s).value|)
    decreases |s|
  {
    if |s| > 4 {
      GroupsShape(full, last, s);
      GroupsMeasure(full, last, s[4..]);
      LengthGrows(s);
    } else if |s| == 4 {
      assert GroupOk(full, last, s);
    }
  }

  lemma EndStays(s: string, tail: string)
    requires 4 + |tail| <= |s|
    ensures EndsWith(s, tail) == EndsWith(s[4..], tail)
  {
    assert s[|s| - |tail|..] == s[4..][|s[4..]| - |tail|..];
  }

  lemma LengthGrows(s: string)
    requires |s| > 4 && DecodedBase64Length(s[4..]).Some?
    ensures DecodedBase64Length(s) == Some(DecodedBase64Length(s[4..]).value + 3)
  {
    EndStays(s, "=");
    EndStays(s, "==");
    assert |s| / 4 == (|s| - 4) / 4 + 1;
  }

  lemma Base64Groups(q: string)
    ensures GroupOk(Base64.DecodeFull, Base64.DecodeLast, q)
  {
    if |q| == 4 { assert q[3..] == [q[3]] && q[2..] == [q[2], q[3]]; }
  }

  lemma Base64IsGood()
    ensures GoodDecoder(Base64.Decode)
  {
    forall q ensures GroupOk(Base64.DecodeFull, Base64.DecodeLast, q) { Base64Groups(q); }
    forall s, k: nat | 0 < k < |s| && k % 4 == 0 && Base64.Decode(s).Some? ensures SplitsAt(Base64.Decode, s, k) {
      GroupsSplit(Base64.DecodeFull, Base64.DecodeLast, s, k);
    }
    forall s | Base64.Decode(s).Some? ensures Measures(Base64.Decode, s) { GroupsMeasure(Base64.DecodeFull, Base64.DecodeLast, s); }
  }

  // ---- Tiling --------------------------------------------------------------------------------

  /** The chunks decode, and each starts where the one before it ends. */
  ghost predicate Contiguous(decode: Decoder, chunks: seq<Chunk>, offset: nat, end: nat)
    decreases |chunks|
  {
    if chunks == [] then offset == end
    else
      && chunks[0].offset == offset && decode(chunks[0].data).Some?
      && Contiguous(decode, chunks[1..], offset + |decode(chunks[0].data).value|, end)
  }

  /** The decoded chunks, one behind the other. */
  function Joined(decode: Decoder, chunks: seq<Chunk>): Option<seq<byte>> {
    if chunks == [] then Some([])
    else if decode(chunks[0].data).None? || Joined(decode, chunks[1..]).None? then None
    else Some(decode(chunks[0].data).value + Joined(decode, chunks[1..]).value)
  }

  /** The content was cut to its end, and the chunks hold `bytes` from `offset` on. */
  ghost predicate Tiles(decode: Decoder, cut: (seq<Chunk>, Option<nat>), offset: nat, bytes: seq<byte>) {
    && cut.1 == Some(offset + |bytes|)
    && Contiguous(decode, cut.0, offset, offset + |bytes|)
    && Joined(decode, cut.0) == Some(bytes)
  }

  lemma ChunkInFront(
    decode: Decoder, c: Chunk, rest: (seq<Chunk>, Option<nat>), first: seq<byte>, others: seq<byte>,
    cut: (seq<Chunk>, Option<nat>), bytes: seq<byte>)
    requires cut == ([c] + rest.0, rest.1) && bytes == first + others
    requires decode(c.data) == Some(first) && Tiles(decode, rest, c.offset + |first|, others)
    ensures Tiles(decode, cut, c.offset, bytes)
  {
    assert cut.0[1..] == rest.0;
  }

  /** The first chunk and what follows it. */
  lemma FirstChunk(decode: Decoder, size: nat, content: string, index: nat, data: string)
    requires GoodDecoder(decode) && size > 0 && size % 4 == 0 && index < |content| && decode(content[index..]).Some?
    requires data == Slice(size, content, index)
    ensures Measures(decode, data)
    ensures index + size >= |content| ==> data == content[index..]
    ensures index + size < |content| ==>
              && decode(content[index + size..]).Some?
              && decode(content[index..]).value == decode(data).value + decode(content[index + size..]).value
  {
    var rest := content[index..];
    if index + size < |content| {
      assert rest[..size] == data && rest[size..] == content[index + size..];
      assert SplitsAt(decode, rest, size);
    } else {
      assert data == rest;
    }
    assert Measures(decode, data);
  }

  lemma ChunksShape(size: nat, content: string, index: nat, offset: nat, data: string, length: nat)
    requires size > 0 && index < |content| && data == Slice(size, content, index) && DecodedBase64Length(data) == Some(length)
    ensures var next := Chunks(size, content, index + size, offset + length);
            Chunks(size, content, index, offset) == ([Chunk(offset, data)] + next.0, next.1)
  {
  }

  lemma NothingTiles(decode: Decoder, size: nat, content: string, index: nat, offset: nat)
    requires size > 0 && index >= |content|
    ensures Tiles(decode, Chunks(size, content, index, offset), offset, [])
  {
  }

  lemma TileInFront(
    decode: Decoder, size: nat, content: string, index: nat, offset: nat, data: string, first: seq<byte>, others: seq<byte>)
    requires size > 0 && index < |content| && data == Slice(size, content, index)
    requires decode(data) == Some(first) && DecodedBase64Length(data) == Some(|first|)
    requires Tiles(decode, Chunks(size, content, index + size, offset + |first|), offset + |first|, others)
    ensures Tiles(decode, Chunks(size, content, index, offset), offset, first + others)
  {
    ChunksShape(size, content, index, offset, data, |first|);
    ChunkInFront(decode, Chunk(offset, data), Chunks(size, content, index + size, offset + |first|), first, others,
                 Chunks(size, content, index, offset), first + others);
  }

  lemma {:induction false} ChunksTileFrom(decode: Decoder, size: nat, content: string, index: nat, offset: nat, bytes: seq<byte>)
    requires GoodDecoder(decode) && size > 0 && size % 4 == 0 && index < |content| && decode(content[index..]) == Some(bytes)
    ensures Tiles(decode, Chunks(size, content, index, offset), offset, bytes)
    decreases |content| - index
  {
    var data := Slice(size, content, index);
    FirstChunk(decode, size, content, index, data);
    var first := decode(data).value;
    if index + size < |content| {
      var others := decode(content[index + size..]).value;
      ChunksTileFrom(decode, size, content, index + size, offset + |first|, others);
      TileInFront(decode, size, content, index, offset, data, first, others);
    } else {
      NothingTiles(decode, size, content, index + size, offset + |first|);
      TileInFront(decode, size, content, index, offset, data, first, []);
      assert first + [] == bytes;
    }
  }

  lemma ChunksTileFor(decode: Decoder, content: string)
    requires GoodDecoder(decode) && decode(content).Some?
    ensures Tiles(decode, AllChunks(content), 0, decode(content).value)
  {
    if content != [] {
      assert content[0..] == content;
      ChunksTileFrom(decode, BASE64_CHARS_PER_CHUNK, content, 0, 0, decode(content).value);
    }
  }

  /** For base64 content: the offsets tile the decoded length, and the decoded chunks make up the decoded content. */
  lemma ChunksTile(content: string)
    requires Base64.Decode(content).Some?
    ensures Tiles(Base64.Decode, AllChunks(content), 0, Base64.Decode(content).value)
  {
    Base64IsGood();
    ChunksTileFor(Base64.Decode, content);
  }

  /** So the upload of base64 content completes exactly if its size is right and the backend agrees. */
  lemma UploadSucceedsIff(b: Backend, content: string, size: nat)
    requires Base64.Decode(content).Some?
    ensures Succeeds(b, content, size)
            <==> && size == |Base64.Decode(content).value| && b.completedSize == Some(size)
                 && AllAcknowledged(b, AllChunks(content).0, 0, |AllChunks(content).0|)
  {
    ChunksTile(content);
  }

  // ---- Where each chunk belongs --------------------------------------------------------------

  /** The chunk holds the bytes of `total` at its offset. */
  ghost predicate Fits(decode: Decoder, c: Chunk, total: seq<byte>) {
    && decode(c.data).Some? && c.offset + |decode(c.data).value| <= |total|
    && total[c.offset..c.offset + |decode(c.data).value|] == decode(c.data).value
  }

  ghost predicate Holds(decode: Decoder, c: Chunk, p: nat) {
    decode(c.data).Some? && c.offset <= p < c.offset + |decode(c.data).value|
  }

  lemma {:induction false} ContiguousFit(decode: Decoder, chunks: seq<Chunk>, offset: nat, total: seq<byte>, i: nat)
    requires offset <= |total| && Contiguous(decode, chunks, offset, |total|) && Joined(decode, chunks) == Some(total[offset..])
    requires i < |chunks|
    ensures Fits(decode, chunks[i], total)
    decreases |chunks|
  {
    var first := decode(chunks[0].data).value;
    var rest := Joined(decode, chunks[1..]).value;
    assert total[offset..] == first + rest;
    assert |total[offset..]| == |total| - offset;
    assert total[offset..offset + |first|] == total[offset..][..|first|] == first;
    assert total[offset + |first|..] == total[offset..][|first|..] == rest;
    if i > 0 { ContiguousFit(decode, chunks[1..], offset + |first|, total, i - 1); }
  }

  lemma {:induction false} ContiguousCover(decode: Decoder, chunks: seq<Chunk>, offset: nat, end: nat, p: nat)
    requires Contiguous(decode, chunks, offset, end) && offset <= p < end
    ensures exists i :: 0 <= i < |chunks| && Holds(decode, chunks[i], p)
    decreases |chunks|
  {
    var first := decode(chunks[0].data).value;
    if p < offset + |first| {
      assert Holds(decode, chunks[0], p);
    } else {
      ContiguousCover(decode, chunks[1..], offset + |first|, end, p);
      var i :| 0 <= i < |chunks[1..]| && Holds(decode, chunks[1..][i], p);
      assert Holds(decode, chunks[i + 1], p);
    }
  }
}
