/**
 The backend's side of an upload: chunks are written as they come, several at a time, and a write may
 fail; repeated chunks are recognised by their digest, overlapping ones refused, and the upload
 completes when all bytes are there.
 */
module UploadStore {
  import opened Bytes
  import opened Wrappers
  import opened FileUpload
  import opened UploadTiling
  import Base64

  const MAX_UPLOAD_CHUNK_BYTES: nat := 256 * 1024

  type Digest = seq<byte> -> nat

  datatype StoredChunk = StoredChunk(length: nat, digest: nat)

  /** The file has the declared size from the start; `writing` holds the bytes whose write is under way. */
  datatype Upload = Upload(file: seq<byte>, chunks: map<nat, StoredChunk>, writing: map<nat, seq<byte>>, received: nat)

  datatype Refusal = InvalidData | InvalidSize | BeyondEnd | ConflictingChunk | OverlappingChunk

  /** A failed write may have left anything where it wrote. */
  datatype Event = Appended(chunk: Chunk) | Written(offset: nat) | Failed(offset: nat, debris: seq<byte>)

  function NewUpload(size: nat): Upload {
    Upload(seq(size, i => 0), map[], map[], 0)
  }

  predicate Overlaps(chunks: map<nat, StoredChunk>, offset: nat, end: nat) {
    exists o :: o in chunks && offset < o + chunks[o].length && o < end
  }

  function Start(hash: Digest, u: Upload, offset: nat, bytes: seq<byte>): Upload {
    u.(chunks := u.chunks[offset := StoredChunk(|bytes|, hash(bytes))], writing := u.writing[offset := bytes])
  }

  /**
   The upload up to the await of `appendFileUpload`, and its answer: `Ok` names the offset that is
   acknowledged once the write at the chunk's offset is done.
   */
  function Append(decode: Decoder, hash: Digest, u: Upload, c: Chunk): (Upload, Result<nat, Refusal>) {
    match decode(c.data)
    case None => (u, Err(InvalidData))
    case Some(bytes) =>
      var end := c.offset + |bytes|;
      if |bytes| == 0 || |bytes| > MAX_UPLOAD_CHUNK_BYTES then (u, Err(InvalidSize))
      else if end > |u.file| then (u, Err(BeyondEnd))
      else if c.offset in u.chunks then
        (u, if u.chunks[c.offset] == StoredChunk(|bytes|, hash(bytes)) then Ok(end) else Err(ConflictingChunk))
      else if Overlaps(u.chunks, c.offset, end) then (u, Err(OverlappingChunk))
      else (Start(hash, u, c.offset, bytes), Ok(end))
  }

  function Overwrite(file: seq<byte>, offset: nat, bytes: seq<byte>): (r: seq<byte>)
    ensures |r| == |file|
  {
    if offset + |bytes| > |file| then file else file[..offset] + bytes + file[offset + |bytes|..]
  }

  function Finish(u: Upload, offset: nat): Upload {
    if offset !in u.writing then u
    else
      var bytes := u.writing[offset];
      Upload(Overwrite(u.file, offset, bytes), u.chunks, u.writing - {offset}, u.received + |bytes|)
  }

  function GiveUp(u: Upload, offset: nat, debris: seq<byte>): Upload {
    if offset !in u.writing || |debris| > |u.writing[offset]| then u
    else Upload(Overwrite(u.file, offset, debris), u.chunks - {offset}, u.writing - {offset}, u.received)
  }

  function Happen(decode: Decoder, hash: Digest, u: Upload, e: Event): Upload {
    match e
    case Appended(c) => Append(decode, hash, u, c).0
    case Written(offset) => Finish(u, offset)
    case Failed(offset, debris) => GiveUp(u, offset, debris)
  }

  predicate Completes(u: Upload) {
    u.received == |u.file|
  }

  function After(decode: Decoder, hash: Digest, u: Upload, events: seq<Event>): Upload {
    if events == [] then u else Happen(decode, hash, After(decode, hash, u, events[..|events| - 1]), events[|events| - 1])
  }

  /** An append of the chunk is answered at once, since its write is done. */
  predicate Acknowledged(decode: Decoder, hash: Digest, u: Upload, c: Chunk) {
    c.offset in u.chunks && c.offset !in u.writing && Append(decode, hash, u, c).1.Ok?
  }

  // ---- As the program runs it ----------------------------------------------------------------

  class ActiveUpload {
    const decode: Decoder
    const hash: Digest
    var file: seq<byte>
    var chunks: map<nat, StoredChunk>
    var writing: map<nat, seq<byte>>
    var received: nat

    ghost function View(): Upload
      reads this
    {
      Upload(file, chunks, writing, received)
    }

    constructor (decode: Decoder, hash: Digest, size: nat)
      ensures this.decode == decode && this.hash == hash && View() == NewUpload(size)
    {
      this.decode := decode;
      this.hash := hash;
      file := seq(size, i => 0);
      chunks, writing, received := map[], map[], 0;
    }

    /** `appendFileUpload` up to its await. */
    method AppendFileUpload(c: Chunk) returns (nextOffset: Result<nat, Refusal>)
      modifies this`chunks, this`writing
      ensures (View(), nextOffset) == Append(decode, hash, old(View()), c)
    {
      var decoded := decode(c.data);
      if decoded.None? { return Err(InvalidData); }
      var bytes := decoded.value;
      if |bytes| == 0 || |bytes| > MAX_UPLOAD_CHUNK_BYTES { return Err(InvalidSize); }
      var end := c.offset + |bytes|;
      if end > |file| { return Err(BeyondEnd); }
      if c.offset in chunks {
        var prior := chunks[c.offset];
        return if prior.length != |bytes| || prior.digest != hash(bytes) then Err(ConflictingChunk) else Ok(end);
      }
      var overlaps := FindOverlap(c.offset, end);
      if overlaps { return Err(OverlappingChunk); }
      chunks := chunks[c.offset := StoredChunk(|bytes|, hash(bytes))];
      writing := writing[c.offset := bytes];
      return Ok(end);
    }

    method FindOverlap(offset: nat, end: nat) returns (found: bool)
      ensures found <==> Overlaps(chunks, offset, end)
    {
      var left := chunks.Keys;
      while left != {}
        invariant left <= chunks.Keys
        invariant forall o | o in chunks && o !in left :: !(offset < o + chunks[o].length && o < end)
        decreases left
      {
        var o :| o in left;
        if offset < o + chunks[o].length && o < end { return true; }
        left := left - {o};
      }
      return false;
    }

    /** The write at the offset is done. */
    method WriteDone(offset: nat)
      modifies this
      ensures View() == Finish(old(View()), offset)
    {
      if offset !in writing { return; }
      var bytes := writing[offset];
      file := Overwrite(file, offset, bytes);
      writing := writing - {offset};
      received := received + |bytes|;
    }

    /** The write at the offset failed, and left `debris`; the chunk may be sent again. */
    method WriteFailed(offset: nat, debris: seq<byte>)
      modifies this
      ensures View() == GiveUp(old(View()), offset, debris)
    {
      if offset !in writing || |debris| > |writing[offset]| { return; }
      file := Overwrite(file, offset, debris);
      chunks := chunks - {offset};
      writing := writing - {offset};
    }
  }

  // ---- What every upload keeps ---------------------------------------------------------------

  /** A write that is done put the byte there. */
  predicate Covers(u: Upload, p: nat) {
    exists o :: o in u.chunks && o !in u.writing && o <= p < o + u.chunks[o].length
  }

  ghost function Covered(u: Upload): set<nat> {
    set p: nat | p < |u.file| && Covers(u, p)
  }

  ghost predicate ChunkOk(hash: Digest, u: Upload, o: nat)
    requires o in u.chunks
  {
    var end := o + u.chunks[o].length;
    && 0 < u.chunks[o].length && end <= |u.file|
    && (if o in u.writing then |u.writing[o]| == u.chunks[o].length && u.chunks[o].digest == hash(u.writing[o])
        else u.chunks[o].digest == hash(u.file[o..end]))
  }

  ghost predicate Apart(chunks: map<nat, StoredChunk>, o: nat, k: nat)
    requires o in chunks && k in chunks
  {
    o < k ==> o + chunks[o].length <= k
  }

  ghost predicate UploadInv(hash: Digest, u: Upload) {
    && u.writing.Keys <= u.chunks.Keys
    && (forall o {:trigger ChunkOk(hash, u, o)} | o in u.chunks :: ChunkOk(hash, u, o))
    && (forall o, k {:trigger Apart(u.chunks, o, k)} | o in u.chunks && k in u.chunks :: Apart(u.chunks, o, k))
    && u.received == |Covered(u)|
  }

  predicate Within(a: nat, p: nat, b: nat) { a <= p < b }

  ghost function Interval(a: nat, b: nat): set<nat> {
    set p: nat | p < b && Within(a, p, b)
  }

  lemma {:induction false} IntervalSize(a: nat, b: nat)
    requires a <= b
    ensures |Interval(a, b)| == b - a
    decreases b - a
  {
    if a < b {
      IntervalSize(a, b - 1);
      assert Interval(a, b) == Interval(a, b - 1) + {b - 1};
    } else {
      assert Interval(a, b) == {};
    }
  }

  lemma MoreCovered(before: set<nat>, a: nat, b: nat, after: set<nat>)
    requires a <= b && forall p :: p in after <==> p in before || a <= p < b
    requires forall p | p in before :: !(a <= p < b)
    ensures |after| == |before| + (b - a)
  {
    IntervalSize(a, b);
    assert after == before + Interval(a, b) && before !! Interval(a, b);
  }

  lemma StartKeeps(hash: Digest, u: Upload, offset: nat, bytes: seq<byte>)
    requires UploadInv(hash, u) && 0 < |bytes| && offset + |bytes| <= |u.file|
    requires offset !in u.chunks && !Overlaps(u.chunks, offset, offset + |bytes|)
    ensures UploadInv(hash, Start(hash, u, offset, bytes))
  {
    var t := Start(hash, u, offset, bytes);
    forall o | o in t.chunks ensures ChunkOk(hash, t, o) {
      if o != offset { assert ChunkOk(hash, u, o); }
    }
    forall o, k | o in t.chunks && k in t.chunks ensures Apart(t.chunks, o, k) {
      if o != offset && k != offset {
        assert Apart(u.chunks, o, k);
      } else if o != k {
        NothingTouches(hash, u, offset, offset + |bytes|, if o == offset then k else o);
      }
    }
    forall p ensures Covers(t, p) <==> Covers(u, p) { SameCover(u, t, p); }
    assert Covered(t) == Covered(u);
  }

  lemma NothingTouches(hash: Digest, u: Upload, offset: nat, end: nat, o: nat)
    requires !Overlaps(u.chunks, offset, end) && o in u.chunks && o != offset && offset < end && ChunkOk(hash, u, o)
    ensures o + u.chunks[o].length <= offset || end <= o
  {
    assert !(offset < o + u.chunks[o].length && o < end);
  }

  /** Only the writes that are done count. */
  lemma SameCover(u: Upload, t: Upload, p: nat)
    requires forall o :: o in t.chunks && o !in t.writing <==> o in u.chunks && o !in u.writing
    requires forall o | o in t.chunks && o !in t.writing :: t.chunks[o] == u.chunks[o]
    ensures Covers(t, p) <==> Covers(u, p)
  {
    if o :| o in t.chunks && o !in t.writing && o <= p < o + t.chunks[o].length { assert o in u.chunks && o !in u.writing; }
    if o :| o in u.chunks && o !in u.writing && o <= p < o + u.chunks[o].length { assert o in t.chunks && o !in t.writing; }
  }

  /** What is written at one chunk leaves the others alone. */
  lemma OverwriteLeaves(hash: Digest, u: Upload, offset: nat, bytes: seq<byte>, o: nat)
    requires UploadInv(hash, u) && offset in u.chunks && |bytes| <= u.chunks[offset].length && o in u.chunks && o != offset
    ensures var end := o + u.chunks[o].length; end <= |u.file| && Overwrite(u.file, offset, bytes)[o..end] == u.file[o..end]
  {
    assert ChunkOk(hash, u, o) && ChunkOk(hash, u, offset) && Apart(u.chunks, o, offset) && Apart(u.chunks, offset, o);
    var end := o + u.chunks[o].length;
    assert Overwrite(u.file, offset, bytes)[o..end] == u.file[o..end];
  }

  lemma FinishCovers(hash: Digest, u: Upload, offset: nat, p: nat)
    requires UploadInv(hash, u) && offset in u.writing
    ensures Covers(Finish(u, offset), p) <==> Covers(u, p) || offset <= p < offset + |u.writing[offset]|
    ensures Covers(u, p) ==> !(offset <= p < offset + |u.writing[offset]|)
  {
    var t := Finish(u, offset);
    assert ChunkOk(hash, u, offset);
    if o :| o in u.chunks && o !in u.writing && o <= p < o + u.chunks[o].length {
      assert Apart(u.chunks, o, offset) && Apart(u.chunks, offset, o);
      assert o in t.chunks && o !in t.writing;
    }
    if offset <= p < offset + |u.writing[offset]| { assert offset in t.chunks && offset !in t.writing; }
    if o :| o in t.chunks && o !in t.writing && o <= p < o + t.chunks[o].length {
      if o != offset { assert o in u.chunks && o !in u.writing; }
    }
  }

  lemma FinishKeeps(hash: Digest, u: Upload, offset: nat)
    requires UploadInv(hash, u) && offset in u.writing
    ensures UploadInv(hash, Finish(u, offset))
  {
    var t, bytes := Finish(u, offset), u.writing[offset];
    assert ChunkOk(hash, u, offset);
    assert t.file[offset..offset + |bytes|] == bytes;
    forall o | o in t.chunks ensures ChunkOk(hash, t, o) {
      assert ChunkOk(hash, u, o);
      if o != offset { OverwriteLeaves(hash, u, offset, bytes, o); }
    }
    forall o, k | o in t.chunks && k in t.chunks ensures Apart(t.chunks, o, k) { assert Apart(u.chunks, o, k); }
    forall p: nat | p < |u.file|
      ensures Covers(t, p) <==> Covers(u, p) || offset <= p < offset + |bytes|
      ensures Covers(u, p) ==> !(offset <= p < offset + |bytes|)
    {
      FinishCovers(hash, u, offset, p);
    }
    MoreCovered(Covered(u), offset, offset + |bytes|, Covered(t));
  }

  lemma GiveUpKeeps(hash: Digest, u: Upload, offset: nat, debris: seq<byte>)
    requires UploadInv(hash, u) && offset in u.writing && |debris| <= |u.writing[offset]|
    ensures UploadInv(hash, GiveUp(u, offset, debris))
  {
    var t := GiveUp(u, offset, debris);
    assert ChunkOk(hash, u, offset);
    forall o | o in t.chunks ensures ChunkOk(hash, t, o) {
      assert ChunkOk(hash, u, o);
      OverwriteLeaves(hash, u, offset, debris, o);
    }
    forall o, k | o in t.chunks && k in t.chunks ensures Apart(t.chunks, o, k) { assert Apart(u.chunks, o, k); }
    forall p ensures Covers(t, p) <==> Covers(u, p) { SameCover(u, t, p); }
    assert Covered(t) == Covered(u);
  }

  lemma HappenKeeps(decode: Decoder, hash: Digest, u: Upload, e: Event)
    requires UploadInv(hash, u)
    ensures UploadInv(hash, Happen(decode, hash, u, e)) && |Happen(decode, hash, u, e).file| == |u.file|
  {
    match e
    case Appended(c) => if Append(decode, hash, u, c).0 != u { StartKeeps(hash, u, c.offset, decode(c.data).value); }
    case Written(offset) => if offset in u.writing { FinishKeeps(hash, u, offset); }
    case Failed(offset, debris) => if offset in u.writing && |debris| <= |u.writing[offset]| { GiveUpKeeps(hash, u, offset, debris); }
  }

  lemma NewUploadInv(hash: Digest, size: nat)
    ensures UploadInv(hash, NewUpload(size))
  {
    assert Covered(NewUpload(size)) == {};
  }

  lemma {:induction false} AllKeep(decode: Decoder, hash: Digest, size: nat, events: seq<Event>)
    ensures UploadInv(hash, After(decode, hash, NewUpload(size), events))
    ensures |After(decode, hash, NewUpload(size), events).file| == size
    decreases |events|
  {
    if events == [] {
      NewUploadInv(hash, size);
    } else {
      AllKeep(decode, hash, size, events[..|events| - 1]);
      HappenKeeps(decode, hash, After(decode, hash, NewUpload(size), events[..|events| - 1]), events[|events| - 1]);
    }
  }

  // ---- Main results --------------------------------------------------------------------------

  /**
   Whatever was sent, however the writes ended and overlapped: the count of received bytes allows
   completion exactly when no byte is missing, and then no write is under way.
   */
  lemma CompletesIffCovered(decode: Decoder, hash: Digest, size: nat, events: seq<Event>)
    ensures var u := After(decode, hash, NewUpload(size), events);
            && (Completes(u) <==> forall p: nat | p < size :: Covers(u, p))
            && (Completes(u) ==> u.writing == map[])
  {
    AllKeep(decode, hash, size, events);
    var u := After(decode, hash, NewUpload(size), events);
    IntervalSize(0, size);
    assert Covered(u) <= Interval(0, size);
    if forall p: nat | p < size :: Covers(u, p) {
      assert Covered(u) == Interval(0, size);
      NoneUnderWay(hash, u);
    } else {
      var p: nat :| p < size && !Covers(u, p);
      assert p in Interval(0, size) && p !in Covered(u);
      if Completes(u) { SameSize(Covered(u), Interval(0, size)); }
    }
  }

  /** The first byte of a write under way is not covered. */
  lemma UnderWayIsUncovered(hash: Digest, u: Upload, k: nat)
    requires UploadInv(hash, u) && k in u.writing
    ensures k < |u.file| && !Covers(u, k)
  {
    assert ChunkOk(hash, u, k);
    forall o | o in u.chunks && o !in u.writing ensures !(o <= k < o + u.chunks[o].length) { assert Apart(u.chunks, o, k); }
  }

  lemma NoneUnderWay(hash: Digest, u: Upload)
    requires UploadInv(hash, u) && forall p: nat | p < |u.file| :: Covers(u, p)
    ensures u.writing == map[]
  {
    if u.writing != map[] {
      var k :| k in u.writing;
      UnderWayIsUncovered(hash, u, k);
    }
  }

  lemma SameSize(a: set<nat>, b: set<nat>)
    requires a <= b && |a| == |b|
    ensures a == b
  {
    assert |b - a| == |b| - |a|;
  }

  /** A chunk in the table, written or under way, has this byte of the file. */
  ghost predicate Claimed(u: Upload, p: nat) {
    exists o :: o in u.chunks && o <= p < o + u.chunks[o].length
  }

  /** What a chunk must be to be accepted: decodable, of a legal size, within the file, and a repeat or all on unclaimed bytes. */
  ghost predicate Acceptable(decode: Decoder, hash: Digest, u: Upload, c: Chunk) {
    && decode(c.data).Some?
    && var bytes := decode(c.data).value;
    && 0 < |bytes| <= 262_144 && c.offset + |bytes| <= |u.file|
    && if c.offset in u.chunks then u.chunks[c.offset] == StoredChunk(|bytes|, hash(bytes))
       else forall p | c.offset <= p < c.offset + |bytes| :: !Claimed(u, p)
  }

  /** At any moment an append is accepted exactly if the chunk is that; a new chunk's write begins, and nothing else changes. */
  lemma ChunkIsAcceptedIff(decode: Decoder, hash: Digest, size: nat, events: seq<Event>, c: Chunk)
    ensures var u := After(decode, hash, NewUpload(size), events);
            var (t, answer) := Append(decode, hash, u, c);
            && (answer.Ok? <==> Acceptable(decode, hash, u, c))
            && (answer.Ok? ==> answer.value == c.offset + |decode(c.data).value|)
            && t.file == u.file && t.received == u.received
            && if answer.Ok? && c.offset !in u.chunks then
                 && t.chunks == u.chunks[c.offset := StoredChunk(|decode(c.data).value|, hash(decode(c.data).value))]
                 && t.writing == u.writing[c.offset := decode(c.data).value]
               else t == u
  {
    var u := After(decode, hash, NewUpload(size), events);
    AllKeep(decode, hash, size, events);
    if decode(c.data).Some? && |decode(c.data).value| > 0 { OverlapsIff(hash, u, c.offset, c.offset + |decode(c.data).value|); }
  }

  lemma OverlapsIff(hash: Digest, u: Upload, offset: nat, end: nat)
    requires UploadInv(hash, u) && offset < end
    ensures Overlaps(u.chunks, offset, end) <==> exists p :: offset <= p < end && Claimed(u, p)
  {
    if o :| o in u.chunks && offset < o + u.chunks[o].length && o < end {
      assert ChunkOk(hash, u, o);
      var p := if o < offset then offset else o;
      assert Claimed(u, p);
    }
  }

  /** An accepted chunk is acknowledged once its write is done, unless the write fails. */
  lemma AcceptedIsAcknowledgedWhenWritten(decode: Decoder, hash: Digest, size: nat, events: seq<Event>, c: Chunk, later: seq<Event>)
    requires Append(decode, hash, After(decode, hash, NewUpload(size), events), c).1.Ok?
    requires forall e | e in later :: !(e.Failed? && e.offset == c.offset)
    ensures Acknowledged(decode, hash, After(decode, hash, NewUpload(size), events + [Appended(c)] + later + [Written(c.offset)]), c)
  {
    AllKeep(decode, hash, size, events);
    OneMore(decode, hash, NewUpload(size), events, Appended(c));
    AcceptedStays(decode, hash, size, events + [Appended(c)], c, later);
    OneMore(decode, hash, NewUpload(size), events + [Appended(c)] + later, Written(c.offset));
  }

  lemma OneMore(decode: Decoder, hash: Digest, u: Upload, events: seq<Event>, e: Event)
    ensures After(decode, hash, u, events + [e]) == Happen(decode, hash, After(decode, hash, u, events), e)
  {
    assert (events + [e])[..|events|] == events;
  }

  /** The chunk is in the table, under its own length and digest. */
  predicate Accepted(decode: Decoder, hash: Digest, u: Upload, c: Chunk) {
    && decode(c.data).Some? && 0 < |decode(c.data).value| <= MAX_UPLOAD_CHUNK_BYTES
    && c.offset + |decode(c.data).value| <= |u.file|
    && c.offset in u.chunks && u.chunks[c.offset] == StoredChunk(|decode(c.data).value|, hash(decode(c.data).value))
  }

  lemma {:induction false} AcceptedStays(decode: Decoder, hash: Digest, size: nat, events: seq<Event>, c: Chunk, later: seq<Event>)
    requires Accepted(decode, hash, After(decode, hash, NewUpload(size), events), c)
    requires forall e | e in later :: !(e.Failed? && e.offset == c.offset)
    ensures Accepted(decode, hash, After(decode, hash, NewUpload(size), events + later), c)
    decreases |later|
  {
    if later == [] {
      assert events + later == events;
    } else {
      var most, last := later[..|later| - 1], later[|later| - 1];
      AcceptedStays(decode, hash, size, events, c, most);
      assert events + later == (events + most) + [last] && last in later;
      OneMore(decode, hash, NewUpload(size), events + most, last);
      EventKeepsAccepted(decode, hash, After(decode, hash, NewUpload(size), events + most), c, last);
    }
  }

  lemma EventKeepsAccepted(decode: Decoder, hash: Digest, u: Upload, c: Chunk, e: Event)
    requires Accepted(decode, hash, u, c) && !(e.Failed? && e.offset == c.offset)
    ensures Accepted(decode, hash, Happen(decode, hash, u, e), c)
  {
  }

  /**
   Whatever is sent before or after and however the writes end: an acknowledged chunk is in the file, if
   the digest tells bytes apart, and both stay so.
   */
  lemma {:induction false} AcknowledgedIsWritten(decode: Decoder, hash: Digest, size: nat, events: seq<Event>, c: Chunk, later: seq<Event>)
    requires forall x, y | hash(x) == hash(y) :: x == y
    requires Acknowledged(decode, hash, After(decode, hash, NewUpload(size), events), c)
    ensures decode(c.data).Some?
    ensures var u := After(decode, hash, NewUpload(size), events + later);
            var end := c.offset + |decode(c.data).value|;
            && Acknowledged(decode, hash, u, c)
            && end <= |u.file| && u.file[c.offset..end] == decode(c.data).value
    decreases |later|
  {
    if later == [] {
      assert events + later == events;
      AllKeep(decode, hash, size, events);
      assert ChunkOk(hash, After(decode, hash, NewUpload(size), events), c.offset);
    } else {
      var most, last := later[..|later| - 1], later[|later| - 1];
      AcknowledgedIsWritten(decode, hash, size, events, c, most);
      AllKeep(decode, hash, size, events + most);
      assert events + later == (events + most) + [last];
      OneMore(decode, hash, NewUpload(size), events + most, last);
      EventLeaves(decode, hash, After(decode, hash, NewUpload(size), events + most), c.offset, last);
    }
  }

  /** What is written stays. */
  lemma EventLeaves(decode: Decoder, hash: Digest, u: Upload, o: nat, e: Event)
    requires UploadInv(hash, u) && o in u.chunks && o !in u.writing
    ensures var t := Happen(decode, hash, u, e);
            && o in t.chunks && o !in t.writing && t.chunks[o] == u.chunks[o] && o + u.chunks[o].length <= |u.file| == |t.file|
            && t.file[o..o + u.chunks[o].length] == u.file[o..o + u.chunks[o].length]
  {
    assert ChunkOk(hash, u, o);
    HappenKeeps(decode, hash, u, e);
    match e
    case Appended(c) =>
    case Written(offset) =>
      if offset in u.writing {
        assert ChunkOk(hash, u, offset);
        OverwriteLeaves(hash, u, offset, u.writing[offset], o);
      }
    case Failed(offset, debris) =>
      if offset in u.writing && |debris| <= |u.writing[offset]| {
        assert ChunkOk(hash, u, offset);
        OverwriteLeaves(hash, u, offset, debris, o);
      }
  }

  // ---- The client's chunks -------------------------------------------------------------------

  /** The chunks hold `total` piece by piece, and each is of a size that the backend takes. */
  ghost predicate Deliverable(decode: Decoder, chunks: seq<Chunk>, total: seq<byte>) {
    && Contiguous(decode, chunks, 0, |total|)
    && (forall c {:trigger Fits(decode, c, total)} | c in chunks :: Fits(decode, c, total))
    && (forall c | c in chunks :: decode(c.data).Some? && 0 < |decode(c.data).value| <= MAX_UPLOAD_CHUNK_BYTES)
  }

  lemma {:induction false} LaterStartsBehind(decode: Decoder, chunks: seq<Chunk>, offset: nat, end: nat, i: nat)
    requires Contiguous(decode, chunks, offset, end) && i < |chunks|
    ensures offset <= chunks[i].offset && decode(chunks[i].data).Some?
    decreases |chunks|
  {
    if i > 0 { LaterStartsBehind(decode, chunks[1..], offset + |decode(chunks[0].data).value|, end, i - 1); }
  }

  lemma {:induction false} TilesApart(decode: Decoder, chunks: seq<Chunk>, offset: nat, end: nat, i: nat, j: nat)
    requires Contiguous(decode, chunks, offset, end) && i < j < |chunks|
    ensures decode(chunks[i].data).Some? && chunks[i].offset + |decode(chunks[i].data).value| <= chunks[j].offset
    decreases |chunks|
  {
    var next := offset + |decode(chunks[0].data).value|;
    if i == 0 {
      LaterStartsBehind(decode, chunks[1..], next, end, j - 1);
    } else {
      TilesApart(decode, chunks[1..], next, end, i - 1, j - 1);
    }
  }

  /** Two of the chunks are the same or do not touch. */
  lemma SameOrApart(decode: Decoder, chunks: seq<Chunk>, total: seq<byte>, c: Chunk, d: Chunk)
    requires Deliverable(decode, chunks, total) && c in chunks && d in chunks && c != d
    ensures c.offset + |decode(c.data).value| <= d.offset || d.offset + |decode(d.data).value| <= c.offset
  {
    var i :| 0 <= i < |chunks| && chunks[i] == c;
    var j :| 0 <= j < |chunks| && chunks[j] == d;
    if i < j { TilesApart(decode, chunks, 0, |total|, i, j); } else { TilesApart(decode, chunks, 0, |total|, j, i); }
  }

  /** Where the chunk stands in the upload: its own bytes are there or being written. */
  ghost predicate Placed(decode: Decoder, hash: Digest, u: Upload, c: Chunk) {
    && Accepted(decode, hash, u, c)
    && (if c.offset in u.writing then u.writing[c.offset] == decode(c.data).value
        else u.file[c.offset..c.offset + |decode(c.data).value|] == decode(c.data).value)
  }

  /** Whatever is in the table is one of these chunks. */
  ghost predicate Fed(decode: Decoder, hash: Digest, u: Upload, chunks: seq<Chunk>) {
    forall o {:trigger o in u.chunks} | o in u.chunks :: exists c :: c in chunks && c.offset == o && Placed(decode, hash, u, c)
  }

  lemma ItsOwnChunk(decode: Decoder, hash: Digest, chunks: seq<Chunk>, total: seq<byte>, u: Upload, c: Chunk)
    requires Deliverable(decode, chunks, total) && Fed(decode, hash, u, chunks) && c in chunks && c.offset in u.chunks
    ensures Placed(decode, hash, u, c)
  {
    var d :| d in chunks && d.offset == c.offset && Placed(decode, hash, u, d);
    if d != c { SameOrApart(decode, chunks, total, c, d); }
  }

  lemma NothingOverlaps(decode: Decoder, hash: Digest, chunks: seq<Chunk>, total: seq<byte>, u: Upload, c: Chunk)
    requires Deliverable(decode, chunks, total) && Fed(decode, hash, u, chunks) && c in chunks && c.offset !in u.chunks
    ensures !Overlaps(u.chunks, c.offset, c.offset + |decode(c.data).value|)
  {
    forall o | o in u.chunks ensures !(c.offset < o + u.chunks[o].length && o < c.offset + |decode(c.data).value|) {
      var d :| d in chunks && d.offset == o && Placed(decode, hash, u, d);
      SameOrApart(decode, chunks, total, c, d);
    }
  }

  /** Each of the client's chunks is accepted, however often it comes. */
  lemma EachIsAccepted(decode: Decoder, hash: Digest, chunks: seq<Chunk>, total: seq<byte>, u: Upload, c: Chunk)
    requires Deliverable(decode, chunks, total) && |u.file| == |total| && Fed(decode, hash, u, chunks) && c in chunks
    ensures Append(decode, hash, u, c).1 == Ok(c.offset + |decode(c.data).value|)
  {
    assert Fits(decode, c, total);
    if c.offset in u.chunks {
      ItsOwnChunk(decode, hash, chunks, total, u, c);
    } else {
      NothingOverlaps(decode, hash, chunks, total, u, c);
    }
  }

  lemma StartPlaces(decode: Decoder, hash: Digest, u: Upload, c: Chunk, d: Chunk)
    requires decode(c.data).Some? && 0 < |decode(c.data).value| <= MAX_UPLOAD_CHUNK_BYTES && c.offset !in u.chunks
    requires c.offset + |decode(c.data).value| <= |u.file|
    ensures Placed(decode, hash, Start(hash, u, c.offset, decode(c.data).value), c)
    ensures Placed(decode, hash, u, d) ==> Placed(decode, hash, Start(hash, u, c.offset, decode(c.data).value), d)
  {
  }

  lemma FinishPlaces(decode: Decoder, hash: Digest, u: Upload, offset: nat, d: Chunk)
    requires UploadInv(hash, u) && offset in u.writing && Placed(decode, hash, u, d)
    ensures Placed(decode, hash, Finish(u, offset), d)
  {
    assert ChunkOk(hash, u, offset);
    if d.offset == offset {
      var bytes := u.writing[offset];
      assert Overwrite(u.file, offset, bytes)[offset..offset + |bytes|] == bytes;
    } else {
      OverwriteLeaves(hash, u, offset, u.writing[offset], d.offset);
    }
  }

  lemma GiveUpPlaces(decode: Decoder, hash: Digest, u: Upload, offset: nat, debris: seq<byte>, d: Chunk)
    requires UploadInv(hash, u) && offset in u.writing && |debris| <= |u.writing[offset]|
    requires Placed(decode, hash, u, d) && d.offset != offset
    ensures Placed(decode, hash, GiveUp(u, offset, debris), d)
  {
    assert ChunkOk(hash, u, offset);
    OverwriteLeaves(hash, u, offset, debris, d.offset);
  }

  lemma EventFeeds(decode: Decoder, hash: Digest, chunks: seq<Chunk>, total: seq<byte>, u: Upload, e: Event)
    requires Deliverable(decode, chunks, total) && |u.file| == |total| && UploadInv(hash, u) && Fed(decode, hash, u, chunks)
    requires e.Appended? ==> e.chunk in chunks
    ensures Fed(decode, hash, Happen(decode, hash, u, e), chunks)
  {
    var t := Happen(decode, hash, u, e);
    forall o | o in t.chunks ensures exists c :: c in chunks && c.offset == o && Placed(decode, hash, t, c) {
      if e.Appended? && o !in u.chunks {
        assert Fits(decode, e.chunk, total);
        StartPlaces(decode, hash, u, e.chunk, e.chunk);
      } else {
        var d :| d in chunks && d.offset == o && Placed(decode, hash, u, d);
        StaysPlaced(decode, hash, u, e, d);
      }
    }
  }

  lemma StaysPlaced(decode: Decoder, hash: Digest, u: Upload, e: Event, d: Chunk)
    requires UploadInv(hash, u) && Placed(decode, hash, u, d) && d.offset in Happen(decode, hash, u, e).chunks
    ensures Placed(decode, hash, Happen(decode, hash, u, e), d)
  {
    match e
    case Appended(c) => if Append(decode, hash, u, c).0 != u { StartPlaces(decode, hash, u, c, d); }
    case Written(offset) => if offset in u.writing { FinishPlaces(decode, hash, u, offset, d); }
    case Failed(offset, debris) =>
      if offset in u.writing && |debris| <= |u.writing[offset]| { GiveUpPlaces(decode, hash, u, offset, debris, d); }
  }

  ghost predicate OnlyFrom(events: seq<Event>, chunks: seq<Chunk>) {
    forall e | e in events && e.Appended? :: e.chunk in chunks
  }

  lemma {:induction false} AllFed(decode: Decoder, hash: Digest, chunks: seq<Chunk>, total: seq<byte>, events: seq<Event>)
    requires Deliverable(decode, chunks, total) && OnlyFrom(events, chunks)
    ensures Fed(decode, hash, After(decode, hash, NewUpload(|total|), events), chunks)
    decreases |events|
  {
    if events != [] {
      var most, last := events[..|events| - 1], events[|events| - 1];
      assert last in events && forall e | e in most :: e in events;
      AllFed(decode, hash, chunks, total, most);
      AllKeep(decode, hash, |total|, most);
      EventFeeds(decode, hash, chunks, total, After(decode, hash, NewUpload(|total|), most), last);
    }
  }

  /**
   Fed with chunks that tile a content, in any order and repeated or not, with writes that overlap and
   fail: each append is accepted; the upload completes exactly when every chunk is acknowledged; and
   then the file is the content.
   */
  lemma DeliveredIff(decode: Decoder, hash: Digest, chunks: seq<Chunk>, total: seq<byte>, events: seq<Event>)
    requires Deliverable(decode, chunks, total) && OnlyFrom(events, chunks)
    ensures var u := After(decode, hash, NewUpload(|total|), events);
            && (forall c | c in chunks :: Append(decode, hash, u, c).1 == Ok(c.offset + |decode(c.data).value|))
            && (Completes(u) <==> forall c | c in chunks :: Acknowledged(decode, hash, u, c))
            && (Completes(u) ==> u.file == total)
  {
    var u := After(decode, hash, NewUpload(|total|), events);
    AllFed(decode, hash, chunks, total, events);
    AllKeep(decode, hash, |total|, events);
    CompletesIffCovered(decode, hash, |total|, events);
    forall c | c in chunks ensures Append(decode, hash, u, c).1 == Ok(c.offset + |decode(c.data).value|) {
      EachIsAccepted(decode, hash, chunks, total, u, c);
    }
    if forall c | c in chunks :: Acknowledged(decode, hash, u, c) {
      forall p: nat | p < |total| ensures Covers(u, p) { CoveredByItsChunk(decode, hash, chunks, total, u, p); }
    }
    if Completes(u) {
      forall c | c in chunks ensures Acknowledged(decode, hash, u, c) { AcknowledgedIfCovered(decode, hash, chunks, total, u, c); }
      WholeFile(decode, hash, chunks, total, u);
    }
  }

  lemma CoveredByItsChunk(decode: Decoder, hash: Digest, chunks: seq<Chunk>, total: seq<byte>, u: Upload, p: nat)
    requires Deliverable(decode, chunks, total) && Fed(decode, hash, u, chunks) && p < |total|
    requires forall c | c in chunks :: Acknowledged(decode, hash, u, c)
    ensures Covers(u, p)
  {
    ContiguousCover(decode, chunks, 0, |total|, p);
    var i :| 0 <= i < |chunks| && Holds(decode, chunks[i], p);
    assert chunks[i] in chunks && Acknowledged(decode, hash, u, chunks[i]);
    ItsOwnChunk(decode, hash, chunks, total, u, chunks[i]);
  }

  /** A chunk that is not acknowledged leaves its first byte uncovered. */
  lemma AcknowledgedIfCovered(decode: Decoder, hash: Digest, chunks: seq<Chunk>, total: seq<byte>, u: Upload, c: Chunk)
    requires Deliverable(decode, chunks, total) && Fed(decode, hash, u, chunks) && c in chunks && |u.file| == |total|
    requires forall p: nat | p < |total| :: Covers(u, p)
    ensures Acknowledged(decode, hash, u, c)
  {
    assert Fits(decode, c, total);
    assert Covers(u, c.offset);
    var o :| o in u.chunks && o !in u.writing && o <= c.offset < o + u.chunks[o].length;
    var d :| d in chunks && d.offset == o && Placed(decode, hash, u, d);
    if d != c { SameOrApart(decode, chunks, total, c, d); }
    EachIsAccepted(decode, hash, chunks, total, u, c);
  }

  lemma WholeFile(decode: Decoder, hash: Digest, chunks: seq<Chunk>, total: seq<byte>, u: Upload)
    requires Deliverable(decode, chunks, total) && Fed(decode, hash, u, chunks) && |u.file| == |total|
    requires forall c | c in chunks :: Acknowledged(decode, hash, u, c)
    ensures u.file == total
  {
    forall p: nat | p < |total| ensures u.file[p] == total[p] {
      ContiguousCover(decode, chunks, 0, |total|, p);
      var i :| 0 <= i < |chunks| && Holds(decode, chunks[i], p);
      assert chunks[i] in chunks && Acknowledged(decode, hash, u, chunks[i]);
      ItsOwnChunk(decode, hash, chunks, total, u, chunks[i]);
      BytesAgree(decode, hash, total, u, chunks[i], p);
    }
  }

  lemma BytesAgree(decode: Decoder, hash: Digest, total: seq<byte>, u: Upload, c: Chunk, p: nat)
    requires Fits(decode, c, total) && Placed(decode, hash, u, c) && c.offset !in u.writing && Holds(decode, c, p)
    ensures p < |total| && p < |u.file| && u.file[p] == total[p]
  {
    var end := c.offset + |decode(c.data).value|;
    assert total[c.offset..end][p - c.offset] == u.file[c.offset..end][p - c.offset];
  }

  // ---- End to end ----------------------------------------------------------------------------

  ghost predicate AllSmall(chunks: seq<Chunk>, size: nat) {
    forall c | c in chunks :: 0 < |c.data| <= size
  }

  lemma {:induction false} ChunksAreSmall(measure: string -> Option<nat>, size: nat, content: string, index: nat, offset: nat)
    requires size > 0
    ensures AllSmall(ChunksBy(measure, size, content, index, offset).0, size)
    decreases |content| - index
  {
    if index < |content| && measure(Slice(size, content, index)).Some? {
      ChunksAreSmall(measure, size, content, index + size, offset + measure(Slice(size, content, index)).value);
    }
  }

  lemma SmallDataFewBytes(decode: Decoder, data: string, size: nat)
    requires Measures(decode, data) && 0 < |data| <= size
    ensures 0 < |decode(data).value| <= size / 4 * 3
  {
  }

  lemma ChunksAreDeliverable(decode: Decoder, size: nat, content: string, chunks: seq<Chunk>, total: seq<byte>)
    requires GoodDecoder(decode) && 0 < size && size / 4 * 3 <= MAX_UPLOAD_CHUNK_BYTES
    requires chunks == Chunks(size, content, 0, 0).0
    requires Contiguous(decode, chunks, 0, |total|) && Joined(decode, chunks) == Some(total)
    ensures Deliverable(decode, chunks, total)
  {
    ChunksAreSmall(DecodedBase64Length, size, content, 0, 0);
    forall c | c in chunks
      ensures Fits(decode, c, total) && 0 < |decode(c.data).value| <= MAX_UPLOAD_CHUNK_BYTES
    {
      var k :| 0 <= k < |chunks| && chunks[k] == c;
      assert total[0..] == total;
      ContiguousFit(decode, chunks, 0, total, k);
      assert Measures(decode, c.data);
      SmallDataFewBytes(decode, c.data, size);
    }
  }

  lemma Base64IsDeliverable(content: string)
    requires Base64.Decode(content).Some?
    ensures Deliverable(Base64.Decode, AllChunks(content).0, Base64.Decode(content).value)
  {
    ChunksTile(content);
    Base64IsGood();
    ChunksAreDeliverable(Base64.Decode, BASE64_CHARS_PER_CHUNK, content, AllChunks(content).0, Base64.Decode(content).value);
  }

  /** What the client is told about a chunk: the end of it, if it is acknowledged; `None` for a failure. */
  function AnswerTo(decode: Decoder, hash: Digest, u: Upload, c: Chunk): Option<nat> {
    if !Acknowledged(decode, hash, u, c) then None
    else match Append(decode, hash, u, c).1
      case Ok(nextOffset) => Some(nextOffset)
      case Err(_) => None
  }

  /** `b` tells the client what this backend, in this state at the end, answers. */
  ghost predicate Relays(b: Backend, decode: Decoder, hash: Digest, u: Upload, sent: seq<Chunk>) {
    && (forall i: nat {:trigger b.appended(i)} | i < |sent| :: b.appended(i) == AnswerTo(decode, hash, u, sent[i]))
    && b.completedSize == if Completes(u) then Some(|u.file|) else None
  }

  lemma RelayedAnswer(b: Backend, decode: Decoder, hash: Digest, chunks: seq<Chunk>, total: seq<byte>, u: Upload, i: nat)
    requires Deliverable(decode, chunks, total) && Relays(b, decode, hash, u, chunks) && i < |chunks|
    requires Append(decode, hash, u, chunks[i]).1 == Ok(chunks[i].offset + |decode(chunks[i].data).value|)
    requires Measures(decode, chunks[i].data)
    ensures Acknowledges(b.appended(i), chunks[i]) <==> Acknowledged(decode, hash, u, chunks[i])
  {
    assert b.appended(i) == AnswerTo(decode, hash, u, chunks[i]);
  }

  lemma RelayedUpload(b: Backend, decode: Decoder, hash: Digest, chunks: seq<Chunk>, total: seq<byte>, events: seq<Event>)
    requires Deliverable(decode, chunks, total) && OnlyFrom(events, chunks)
    requires Relays(b, decode, hash, After(decode, hash, NewUpload(|total|), events), chunks)
    requires forall c {:trigger Measures(decode, c.data)} | c in chunks :: Measures(decode, c.data)
    ensures var u := After(decode, hash, NewUpload(|total|), events);
            && (AllAcknowledged(b, chunks, 0, |chunks|) && b.completedSize == Some(|total|) <==> Completes(u))
            && (Completes(u) ==> u.file == total)
  {
    var u := After(decode, hash, NewUpload(|total|), events);
    DeliveredIff(decode, hash, chunks, total, events);
    AllKeep(decode, hash, |total|, events);
    forall i: nat | i < |chunks| ensures Acknowledges(b.appended(i), chunks[i]) <==> Acknowledged(decode, hash, u, chunks[i]) {
      assert chunks[i] in chunks && Measures(decode, chunks[i].data);
      RelayedAnswer(b, decode, hash, chunks, total, u, i);
    }
  }

  lemma Base64Measures(data: string)
    requires Base64.Decode(data).Some?
    ensures Measures(Base64.Decode, data)
  {
    Base64IsGood();
  }

  /**
   Client and backend together, for base64 content of its declared size, however its chunks arrive and
   their writes end: the client's upload succeeds exactly when every chunk is acknowledged at the end,
   and then the file is the content.
   */
  lemma UploadSucceedsEndToEndIff(b: Backend, hash: Digest, content: string, events: seq<Event>)
    requires Base64.Decode(content).Some? && OnlyFrom(events, AllChunks(content).0)
    requires Relays(b, Base64.Decode, hash, After(Base64.Decode, hash, NewUpload(|Base64.Decode(content).value|), events), AllChunks(content).0)
    ensures var u := After(Base64.Decode, hash, NewUpload(|Base64.Decode(content).value|), events);
            && (Succeeds(b, content, |Base64.Decode(content).value|)
                <==> forall c | c in AllChunks(content).0 :: Acknowledged(Base64.Decode, hash, u, c))
            && (Succeeds(b, content, |Base64.Decode(content).value|) ==> u.file == Base64.Decode(content).value)
  {
    var total, chunks := Base64.Decode(content).value, AllChunks(content).0;
    Base64IsDeliverable(content);
    forall c | c in chunks ensures Measures(Base64.Decode, c.data) { Base64Measures(c.data); }
    RelayedUpload(b, Base64.Decode, hash, chunks, total, events);
    DeliveredIff(Base64.Decode, hash, chunks, total, events);
    UploadSucceedsIff(b, content, |total|);
  }
}
