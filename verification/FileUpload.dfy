/**
 Uploading an attachment in chunks: the client's loop, what the chunks amount to, and what any
 order of writing them leaves in the file.
 */
module FileUpload {
  import opened Bytes
  import opened Wrappers
  import opened Base64

  const BASE64_CHARS_PER_CHUNK: nat := 192 * 1024
  const PARALLEL_UPLOAD_CHUNKS: nat := 4

  datatype Chunk = Chunk(offset: nat, data: string)

  function EndsWith(s: string, tail: string): bool {
    |tail| <= |s| && s[|s| - |tail|..] == tail
  }

  /** `None` where the program throws. */
  function DecodedBase64Length(data: string): Option<nat> {
    if |data| % 4 != 0 then None
    else
      var padding := if EndsWith(data, "==") then 2 else if EndsWith(data, "=") then 1 else 0;
      Some(|data| / 4 * 3 - padding)
  }

  function Min(a: nat, b: nat): nat { if a <= b then a else b }

  /** The chunk of `content` at `index`. */
  function Slice(size: nat, content: string, index: nat): string
    requires index < |content|
  {
    content[index..Min(index + size, |content|)]
  }

  type Measure = string -> Option<nat>

  /** The chunks of `size` characters of `content` from `index` on, up to one that cannot be measured. */
  function ChunksBy(measure: Measure, size: nat, content: string, index: nat, offset: nat): (r: (seq<Chunk>, Option<nat>))
    requires size > 0
    decreases |content| - index
  {
    if index >= |content| then ([], Some(offset))
    else
      var data := Slice(size, content, index);
      var length := measure(data);
      if length.None? then ([], None)
      else
        var rest := ChunksBy(measure, size, content, index + size, offset + length.value);
        ([Chunk(offset, data)] + rest.0, rest.1)
  }

  /** The program measures by the length of the text and its padding, and throws when it cannot. */
  function Chunks(size: nat, content: string, index: nat, offset: nat): (r: (seq<Chunk>, Option<nat>))
    requires size > 0
  {
    ChunksBy(DecodedBase64Length, size, content, index, offset)
  }

  function AllChunks(content: string): (seq<Chunk>, Option<nat>) {
    Chunks(BASE64_CHARS_PER_CHUNK, content, 0, 0)
  }

  // ---- The client's loop ---------------------------------------------------------------------

  /** The backend's answers: to the appends, in the order they were sent, and to the completion. */
  datatype Backend = Backend(appended: nat -> Option<nat>, completedSize: Option<nat>)

  datatype Trace = Trace(sent: seq<Chunk>, completed: bool, aborted: bool, mostOutstanding: nat)

  /** The answer names the end of the chunk. */
  predicate AcknowledgesBy(measure: Measure, answer: Option<nat>, c: Chunk) {
    measure(c.data).Some? && answer == Some(c.offset + measure(c.data).value)
  }

  ghost predicate AllAcknowledgedBy(measure: Measure, b: Backend, sent: seq<Chunk>, from: nat, upTo: nat)
    requires upTo <= |sent|
  {
    forall i | from <= i < upTo :: AcknowledgesBy(measure, b.appended(i), sent[i])
  }

  /** `await Promise.all(pending)`: the first answer that is not the expected one, if any. */
  method AwaitAll(measure: Measure, b: Backend, sent: seq<Chunk>, from: nat) returns (refused: Option<nat>)
    requires from <= |sent|
    ensures refused.None? ==> AllAcknowledgedBy(measure, b, sent, from, |sent|)
    ensures refused.Some? ==> from <= refused.value < |sent| && !AcknowledgesBy(measure, b.appended(refused.value), sent[refused.value])
  {
    var i := from;
    while i < |sent|
      invariant from <= i <= |sent| && AllAcknowledgedBy(measure, b, sent, from, i)
    {
      if !AcknowledgesBy(measure, b.appended(i), sent[i]) { return Some(i); }
      i := i + 1;
    }
    return None;
  }

  /** What is sent, and what is still to be cut, make up all chunks. */
  ghost predicate Cut(measure: Measure, size: nat, content: string, index: nat, offset: nat, sent: seq<Chunk>, all: (seq<Chunk>, Option<nat>))
    requires size > 0
  {
    sent <= all.0 && ChunksBy(measure, size, content, index, offset) == (all.0[|sent|..], all.1)
  }

  lemma CutStarts(measure: Measure, size: nat, content: string)
    requires size > 0
    ensures Cut(measure, size, content, 0, 0, [], ChunksBy(measure, size, content, 0, 0))
  {
    assert [] + ChunksBy(measure, size, content, 0, 0).0 == ChunksBy(measure, size, content, 0, 0).0;
  }

  lemma OneMore<T>(all: seq<T>, sent: seq<T>, c: T, rest: seq<T>)
    requires sent <= all && all[|sent|..] == [c] + rest
    ensures sent + [c] <= all && all[|sent + [c]|..] == rest
  {
    assert all[|sent|] == all[|sent|..][0] == c;
    assert all[|sent| + 1..] == all[|sent|..][1..];
  }

  lemma CutNext(measure: Measure, size: nat, content: string, index: nat, offset: nat, sent: seq<Chunk>, all: (seq<Chunk>, Option<nat>), data: string)
    requires size > 0 && index < |content| && data == Slice(size, content, index)
    requires Cut(measure, size, content, index, offset, sent, all)
    ensures sent <= all.0
    ensures measure(data).None? ==> all.1.None?
    ensures measure(data).Some? ==>
              Cut(measure, size, content, index + size, offset + measure(data).value, sent + [Chunk(offset, data)], all)
  {
    var length := measure(data);
    if length.Some? {
      OneMore(all.0, sent, Chunk(offset, data), ChunksBy(measure, size, content, index + size, offset + length.value).0);
    }
  }

  lemma CutEnds(measure: Measure, size: nat, content: string, index: nat, offset: nat, sent: seq<Chunk>, all: (seq<Chunk>, Option<nat>))
    requires size > 0 && index >= |content| && Cut(measure, size, content, index, offset, sent, all)
    ensures all == (sent, Some(offset))
  {
    assert all.0[|sent|..] == [] && |all.0| == |sent|;
    assert all == (all.0, all.1) && all.0 == sent;
  }

  lemma RefusalFails(
    measure: Measure, b: Backend, size: nat, content: string, index: nat, offset: nat, sent: seq<Chunk>, all: (seq<Chunk>, Option<nat>), i: nat)
    requires size > 0 && Cut(measure, size, content, index, offset, sent, all) && i < |sent| && !AcknowledgesBy(measure, b.appended(i), sent[i])
    ensures sent <= all.0 && !AllAcknowledgedBy(measure, b, all.0, 0, |all.0|)
  {
    assert all.0[i] == sent[i];
  }

  /** All but the last `pending` chunks are acknowledged. */
  ghost predicate Settled(measure: Measure, b: Backend, sent: seq<Chunk>, pending: nat) {
    pending <= |sent| && AllAcknowledgedBy(measure, b, sent, 0, |sent| - pending)
  }

  lemma OneMorePending(measure: Measure, b: Backend, sent: seq<Chunk>, pending: nat, c: Chunk)
    requires Settled(measure, b, sent, pending)
    ensures Settled(measure, b, sent + [c], pending + 1)
  {
    forall i | 0 <= i < |sent| - pending ensures AcknowledgesBy(measure, b.appended(i), (sent + [c])[i]) {
      assert AcknowledgesBy(measure, b.appended(i), sent[i]);
    }
  }

  lemma NonePending(measure: Measure, b: Backend, sent: seq<Chunk>, pending: nat)
    requires Settled(measure, b, sent, pending) && AllAcknowledgedBy(measure, b, sent, |sent| - pending, |sent|)
    ensures Settled(measure, b, sent, 0)
  {
  }

  /** Where the loop stands: what is cut and sent, and what of it is acknowledged. */
  ghost predicate Sending(
    measure: Measure, b: Backend, size: nat, content: string, index: nat, offset: nat, sent: seq<Chunk>, pending: nat, all: (seq<Chunk>, Option<nat>))
    requires size > 0
  {
    Cut(measure, size, content, index, offset, sent, all) && Settled(measure, b, sent, pending)
  }

  lemma OneSent(
    measure: Measure, b: Backend, size: nat, content: string, index: nat, offset: nat, sent: seq<Chunk>, pending: nat, all: (seq<Chunk>, Option<nat>),
    data: string, length: nat)
    requires size > 0 && index < |content| && data == Slice(size, content, index) && measure(data) == Some(length)
    requires Sending(measure, b, size, content, index, offset, sent, pending, all)
    ensures Sending(measure, b, size, content, index + size, offset + length, sent + [Chunk(offset, data)], pending + 1, all)
  {
    CutNext(measure, size, content, index, offset, sent, all, data);
    OneMorePending(measure, b, sent, pending, Chunk(offset, data));
  }

  /** What an upload that cuts `all` has to come to. */
  ghost predicate Outcome(measure: Measure, b: Backend, all: (seq<Chunk>, Option<nat>), size: nat, t: Trace) {
    && t.sent <= all.0
    && (t.completed <==> !t.aborted)
    && (t.completed <==> all.1 == Some(size) && AllAcknowledgedBy(measure, b, all.0, 0, |all.0|) && b.completedSize == Some(size))
    && (t.completed ==> t.sent == all.0)
  }

  lemma BadChunkAborts(
    measure: Measure, b: Backend, chunkSize: nat, content: string, index: nat, offset: nat, sent: seq<Chunk>, all: (seq<Chunk>, Option<nat>),
    size: nat, most: nat)
    requires chunkSize > 0 && index < |content| && measure(Slice(chunkSize, content, index)).None?
    requires Cut(measure, chunkSize, content, index, offset, sent, all)
    ensures Outcome(measure, b, all, size, Trace(sent, false, true, most))
  {
    CutNext(measure, chunkSize, content, index, offset, sent, all, Slice(chunkSize, content, index));
  }

  lemma RefusalAborts(
    measure: Measure, b: Backend, chunkSize: nat, content: string, index: nat, offset: nat, sent: seq<Chunk>, all: (seq<Chunk>, Option<nat>), i: nat,
    size: nat, most: nat)
    requires chunkSize > 0 && Cut(measure, chunkSize, content, index, offset, sent, all)
    requires i < |sent| && !AcknowledgesBy(measure, b.appended(i), sent[i])
    ensures Outcome(measure, b, all, size, Trace(sent, false, true, most))
  {
    RefusalFails(measure, b, chunkSize, content, index, offset, sent, all, i);
  }

  lemma LastAnswersDecide(
    measure: Measure, b: Backend, chunkSize: nat, content: string, index: nat, offset: nat, sent: seq<Chunk>, all: (seq<Chunk>, Option<nat>),
    size: nat, most: nat, succeeded: bool)
    requires chunkSize > 0 && index >= |content| && Cut(measure, chunkSize, content, index, offset, sent, all)
    requires succeeded <==> AllAcknowledgedBy(measure, b, sent, 0, |sent|) && offset == size && b.completedSize == Some(size)
    ensures Outcome(measure, b, all, size, Trace(sent, succeeded, !succeeded, most))
  {
    CutEnds(measure, chunkSize, content, index, offset, sent, all);
  }

  predicate Acknowledges(answer: Option<nat>, c: Chunk) {
    AcknowledgesBy(DecodedBase64Length, answer, c)
  }

  ghost predicate AllAcknowledged(b: Backend, sent: seq<Chunk>, from: nat, upTo: nat)
    requires upTo <= |sent|
  {
    AllAcknowledgedBy(DecodedBase64Length, b, sent, from, upTo)
  }

  /** The whole content was cut, every chunk acknowledged, and the sizes agree. */
  ghost predicate Succeeds(b: Backend, content: string, size: nat) {
    var chunks := AllChunks(content);
    && chunks.1 == Some(size)
    && AllAcknowledged(b, chunks.0, 0, |chunks.0|)
    && b.completedSize == Some(size)
  }

  /** Sends the chunks, at most four without an answer; on any failure the upload is aborted. */
  method UploadAttachmentFile(b: Backend, content: string, size: nat) returns (t: Trace)
    ensures t.mostOutstanding <= PARALLEL_UPLOAD_CHUNKS
    ensures t.sent <= AllChunks(content).0
    ensures t.completed <==> !t.aborted
    ensures t.completed <==> Succeeds(b, content, size)
    ensures t.completed ==> t.sent == AllChunks(content).0
  {
    t := SendChunks(DecodedBase64Length, b, BASE64_CHARS_PER_CHUNK, content, size);
  }

  method SendChunks(measure: Measure, b: Backend, chunkSize: nat, content: string, size: nat) returns (t: Trace)
    requires chunkSize > 0
    ensures t.mostOutstanding <= PARALLEL_UPLOAD_CHUNKS
    ensures Outcome(measure, b, ChunksBy(measure, chunkSize, content, 0, 0), size, t)
  {
    var offset, index, pending, most: nat := 0, 0, 0, 0;
    var sent: seq<Chunk> := [];
    ghost var all := ChunksBy(measure, chunkSize, content, 0, 0);
    CutStarts(measure, chunkSize, content);
    while index < |content|
      invariant pending < PARALLEL_UPLOAD_CHUNKS && most <= PARALLEL_UPLOAD_CHUNKS
      invariant Sending(measure, b, chunkSize, content, index, offset, sent, pending, all)
      decreases |content| - index
    {
      var data := Slice(chunkSize, content, index);
      var length := measure(data);
      if length.None? {
        BadChunkAborts(measure, b, chunkSize, content, index, offset, sent, all, size, most);
        return Trace(sent, false, true, most);
      }
      OneSent(measure, b, chunkSize, content, index, offset, sent, pending, all, data, length.value);
      sent := sent + [Chunk(offset, data)];
      pending := pending + 1;
      if pending > most { most := pending; }
      offset := offset + length.value;
      index := index + chunkSize;
      if pending == PARALLEL_UPLOAD_CHUNKS {
        var refused := AwaitAll(measure, b, sent, |sent| - pending);
        if refused.Some? {
          RefusalAborts(measure, b, chunkSize, content, index, offset, sent, all, refused.value, size, most);
          return Trace(sent, false, true, most);
        }
        NonePending(measure, b, sent, pending);
        pending := 0;
      }
    }
    var refused := AwaitAll(measure, b, sent, |sent| - pending);
    if refused.None? { NonePending(measure, b, sent, pending); }
    var succeeded := refused.None? && offset == size && b.completedSize == Some(size);
    LastAnswersDecide(measure, b, chunkSize, content, index, offset, sent, all, size, most, succeeded);
    return Trace(sent, succeeded, !succeeded, most);
  }
}
