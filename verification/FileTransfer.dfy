// Peer-to-peer file transfer over one ordered data channel: a chunking sender
// with backpressure and a reassembling receiver.

module FileTransfer {
  import opened Wrappers

  type byte = bv8

  const CHUNK_SIZE: nat := 16_384
  const MAX_BUFFER: nat := 262_144
  const LOW_WATER: nat := CHUNK_SIZE * 4
  // The length of the end message {"type":"file_end"}.
  const END_SIZE: nat := 19

  datatype Meta = Meta(name: string, size: nat, mimeType: string)

  // A message on the channel; `OtherText` is any text that is neither of ours.
  datatype Frame = MetaFrame(meta: Meta) | Chunk(data: seq<byte>) | EndFrame | OtherText

  datatype File = File(name: string, mimeType: string, content: seq<byte>)

  function MetaOf(file: File): Meta {
    Meta(file.name, |file.content|, if file.mimeType == "" then "application/octet-stream" else file.mimeType)
  }

  function Chunks(content: seq<byte>): (out: seq<Frame>)
    ensures |out| == (|content| + CHUNK_SIZE - 1) / CHUNK_SIZE
    decreases |content|
  {
    if |content| == 0 then []
    else if |content| <= CHUNK_SIZE then [Chunk(content)]
    else [Chunk(content[..CHUNK_SIZE])] + Chunks(content[CHUNK_SIZE..])
  }

  function Frames(file: File): seq<Frame> {
    [MetaFrame(MetaOf(file))] + Chunks(file.content) + [EndFrame]
  }

  // What goes over the channel, frame by frame.
  lemma FramesAre(file: File)
    ensures var n := (|file.content| + 16_383) / 16_384; var frames := Frames(file);
      && |frames| == n + 2 && frames[n + 1] == EndFrame
      && frames[0].MetaFrame? && frames[0].meta.name == file.name && frames[0].meta.size == |file.content|
      && frames[0].meta.mimeType == (if file.mimeType == "" then "application/octet-stream" else file.mimeType)
      && forall i :: 0 <= i < n ==>
           var end := if (i + 1) * 16_384 <= |file.content| then (i + 1) * 16_384 else |file.content|;
           i * 16_384 < |file.content| && frames[i + 1] == Chunk(file.content[i * 16_384..end])
  {
    forall i | 0 <= i < (|file.content| + 16_383) / 16_384
      ensures i * 16_384 < |file.content|
      ensures var end := if (i + 1) * 16_384 <= |file.content| then (i + 1) * 16_384 else |file.content|;
        Frames(file)[i + 1] == Chunk(file.content[i * 16_384..end])
    {
      ChunkAt(file.content, i);
    }
  }

  lemma {:induction false} ChunkAt(content: seq<byte>, i: nat)
    requires i * CHUNK_SIZE < |content|
    ensures i < |Chunks(content)|
    ensures var end := if (i + 1) * CHUNK_SIZE <= |content| then (i + 1) * CHUNK_SIZE else |content|;
      Chunks(content)[i] == Chunk(content[i * CHUNK_SIZE..end])
    decreases i
  {
    if |content| > CHUNK_SIZE && i > 0 {
      ChunkAt(content[CHUNK_SIZE..], i - 1);
    }
  }

  // ----------------------------------------------------------------- receiver

  datatype Delivery = Delivery(name: string, size: nat, mimeType: string, content: seq<byte>)

  datatype Inbox = Inbox(meta: Option<Meta>, chunks: seq<seq<byte>>)

  function Join(chunks: seq<seq<byte>>): seq<byte> {
    if chunks == [] then [] else Join(chunks[..|chunks| - 1]) + chunks[|chunks| - 1]
  }

  function Receive(s: Inbox, f: Frame): (Inbox, seq<Delivery>) {
    match f
    case MetaFrame(m) => (Inbox(Some(m), []), [])
    case EndFrame =>
      if s.meta.None? then (s, [])
      else (Inbox(None, []), [Delivery(s.meta.value.name, s.meta.value.size, s.meta.value.mimeType, Join(s.chunks))])
    case Chunk(data) => (s.(chunks := s.chunks + [data]), [])
    case OtherText => (s, [])
  }

  // The state after some frames, and what was delivered on the way.
  function ReceiveAll(s: Inbox, frames: seq<Frame>): (Inbox, seq<Delivery>)
    decreases |frames|
  {
    if frames == [] then (s, [])
    else
      var r := Receive(s, frames[0]);
      var rest := ReceiveAll(r.0, frames[1..]);
      (rest.0, r.1 + rest.1)
  }

  lemma {:induction false} ReceiveConcat(s: Inbox, a: seq<Frame>, b: seq<Frame>)
    ensures var r := ReceiveAll(s, a); var t := ReceiveAll(r.0, b);
      ReceiveAll(s, a + b) == (t.0, r.1 + t.1)
    decreases |a|
  {
    if a == [] {
      assert a + b == b && [] + ReceiveAll(s, b).1 == ReceiveAll(s, b).1;
    } else {
      assert (a + b)[1..] == a[1..] + b;
      var first := Receive(s, a[0]);
      ReceiveConcat(first.0, a[1..], b);
      var rest := ReceiveAll(first.0, a[1..]);
      var last := ReceiveAll(rest.0, b).1;
      assert first.1 + (rest.1 + last) == (first.1 + rest.1) + last;
    }
  }

  // Chunks alone deliver nothing and append their bytes to what is held.
  lemma {:induction false} ReceiveChunks(s: Inbox, frames: seq<Frame>)
    requires forall i :: 0 <= i < |frames| ==> frames[i].Chunk?
    ensures var r := ReceiveAll(s, frames);
      r.1 == [] && r.0.meta == s.meta && Join(r.0.chunks) == Join(s.chunks) + Bytes(frames)
    decreases |frames|
  {
    if frames != [] {
      JoinNext(s.chunks, frames[0].data);
      var next := s.(chunks := s.chunks + [frames[0].data]);
      ReceiveChunks(next, frames[1..]);
      var held, first, rest := Join(s.chunks), frames[0].data, Bytes(frames[1..]);
      assert (held + first) + rest == held + (first + rest);
    }
  }

  lemma JoinNext(chunks: seq<seq<byte>>, data: seq<byte>)
    ensures Join(chunks + [data]) == Join(chunks) + data
  {
    assert (chunks + [data])[..|chunks|] == chunks;
  }

  function Bytes(frames: seq<Frame>): seq<byte> {
    if frames == [] then [] else (if frames[0].Chunk? then frames[0].data else []) + Bytes(frames[1..])
  }

  lemma {:induction false} ChunksBytes(content: seq<byte>)
    ensures Bytes(Chunks(content)) == content
    ensures forall i :: 0 <= i < |Chunks(content)| ==> Chunks(content)[i].Chunk?
    decreases |content|
  {
    if |content| > CHUNK_SIZE {
      var rest := content[CHUNK_SIZE..];
      ChunksBytes(rest);
      assert Chunks(content)[1..] == Chunks(rest);
      assert content == content[..CHUNK_SIZE] + rest;
    } else if |content| > 0 {
      assert Chunks(content)[1..] == [];
    }
  }

  // A transfer that sent the first k frames of a file.
  datatype Transfer = Transfer(file: File, k: nat)

  ghost predicate Whole(t: Transfer) {
    t.k >= |Frames(t.file)|
  }

  function Stream(t: Transfer): seq<Frame> {
    if t.k <= |Frames(t.file)| then Frames(t.file)[..t.k] else Frames(t.file)
  }

  // What the receiver is to get of a file.
  function Delivered(file: File): (d: Delivery)
    ensures d.name == file.name && d.size == |file.content| && d.content == file.content
    ensures d.mimeType == if file.mimeType == "" then "application/octet-stream" else file.mimeType
  {
    Delivery(file.name, |file.content|, MetaOf(file).mimeType, file.content)
  }

  lemma WholeDelivers(s: Inbox, file: File)
    ensures ReceiveAll(s, Frames(file)).1 == [Delivered(file)]
  {
    var chunks := Chunks(file.content);
    var started := Inbox(Some(MetaOf(file)), []);
    ChunksBytes(file.content);
    assert Frames(file)[0] == MetaFrame(MetaOf(file)) && Frames(file)[1..] == chunks + [EndFrame];
    ReceiveChunks(started, chunks);
    ReceiveConcat(started, chunks, [EndFrame]);
    var full := ReceiveAll(started, chunks).0;
    assert Join(full.chunks) == file.content;
    assert [EndFrame][1..] == [] && ReceiveAll(full, [EndFrame]).1 == [Delivered(file)];
  }

  lemma CutDelivers(s: Inbox, file: File, k: nat)
    requires k < |Frames(file)|
    ensures ReceiveAll(s, Frames(file)[..k]).1 == []
  {
    if k > 0 {
      var part := Chunks(file.content)[..k - 1];
      ChunksBytes(file.content);
      assert Frames(file)[..k][0] == MetaFrame(MetaOf(file)) && Frames(file)[..k][1..] == part;
      ReceiveChunks(Inbox(Some(MetaOf(file)), []), part);
    }
  }

  // A cut transfer delivers nothing, a whole one exactly its file, whatever was
  // held before.
  lemma TransferDelivers(s: Inbox, t: Transfer)
    ensures ReceiveAll(s, Stream(t)).1 == if Whole(t) then [Delivered(t.file)] else []
  {
    if Whole(t) {
      WholeDelivers(s, t.file);
      assert Stream(t) == Frames(t.file);
    } else {
      CutDelivers(s, t.file, t.k);
    }
  }

  function StreamAll(ts: seq<Transfer>): seq<Frame> {
    if ts == [] then [] else Stream(ts[0]) + StreamAll(ts[1..])
  }

  ghost function WholeFiles(ts: seq<Transfer>): seq<Delivery> {
    if ts == [] then []
    else (if Whole(ts[0]) then [Delivered(ts[0].file)] else []) + WholeFiles(ts[1..])
  }

  // Over any transfers on one channel, some of them cut short anywhere, the
  // receiver delivers exactly the whole files, byte for byte and in order.
  lemma {:induction false} RoundTrip(s: Inbox, ts: seq<Transfer>)
    ensures ReceiveAll(s, StreamAll(ts)).1 == WholeFiles(ts)
    decreases |ts|
  {
    if ts != [] {
      TransferDelivers(s, ts[0]);
      ReceiveConcat(s, Stream(ts[0]), StreamAll(ts[1..]));
      RoundTrip(ReceiveAll(s, Stream(ts[0])).0, ts[1..]);
    }
  }

  class Receiver {
    var meta: Option<Meta>
    var chunks: seq<seq<byte>>

    constructor ()
      ensures Value() == Inbox(None, [])
    {
      meta, chunks := None, [];
    }

    ghost function Value(): Inbox
      reads this
    {
      Inbox(meta, chunks)
    }

    method OnMessage(f: Frame) returns (got: seq<Delivery>)
      modifies this
      ensures (Value(), got) == Receive(old(Value()), f)
    {
      got := [];
      match f
      case MetaFrame(m) =>
        meta, chunks := Some(m), [];
      case EndFrame =>
        if meta.Some? {
          var blob := [];
          for i := 0 to |chunks|
            invariant blob == Join(chunks[..i])
          {
            assert chunks[..i + 1][..i] == chunks[..i];
            blob := blob + chunks[i];
          }
          assert chunks[..|chunks|] == chunks;
          got := [Delivery(meta.value.name, meta.value.size, meta.value.mimeType, blob)];
          meta, chunks := None, [];
        }
      case Chunk(data) =>
        chunks := chunks + [data];
      case OtherText =>
    }
  }

  // ------------------------------------------------------------------- sender

  // How a send ended: all sent; the loop saw the channel closed; the channel
  // never drained; or it closed during an await and the next send threw.
  datatype Outcome = Sent | Cut | Stuck | Threw

  class DataChannel {
    var open: bool
    var buffered: nat
    var sent: seq<Frame>
    // The highest fill seen right after a chunk, and after any send.
    ghost var chunkPeak: nat
    ghost var peak: nat

    constructor ()
      ensures open && buffered == 0 && sent == [] && chunkPeak == 0 && peak == 0
    {
      open, buffered, sent, chunkPeak, peak := true, 0, [], 0, 0;
    }

    // Throws unless the channel is open.
    method Send(f: Frame, size: nat) returns (ok: bool)
      modifies this
      ensures ok == old(open) && open == old(open)
      ensures !ok ==> buffered == old(buffered) && sent == old(sent) && chunkPeak == old(chunkPeak) && peak == old(peak)
      ensures ok ==> buffered == old(buffered) + size && sent == old(sent) + [f]
      ensures ok ==> peak == (if buffered > old(peak) then buffered else old(peak))
      ensures ok ==> chunkPeak == (if f.Chunk? && buffered > old(chunkPeak) then buffered else old(chunkPeak))
    {
      ok := open;
      if ok {
        buffered, sent := buffered + size, sent + [f];
        if buffered > peak { peak := buffered; }
        if f.Chunk? && buffered > chunkPeak { chunkPeak := buffered; }
      }
    }

    // What the network may do during an await: drain some, and close.
    method Yield()
      modifies this`open, this`buffered
      ensures buffered <= old(buffered) && (open ==> old(open))
    {
      var drained: nat :| drained <= buffered;
      buffered := buffered - drained;
      var close: bool := *;
      open := open && !close;
    }

    // The wait for bufferedamountlow. The event fires when the buffer falls to the
    // threshold, which a channel that closes may or may not see; without it the
    // sender waits for ever.
    method AwaitLow(threshold: nat) returns (fired: bool)
      modifies this`open, this`buffered
      ensures buffered <= old(buffered) && (open ==> old(open))
      ensures fired ==> buffered <= threshold < old(buffered)
      ensures open && buffered <= threshold < old(buffered) ==> fired
    {
      var high := buffered > threshold;
      Yield();
      fired := *;
      if open { fired := true; }
      fired := fired && high && buffered <= threshold;
    }
  }

  // What is reported after a chunk: Math.min(offset / size, 1).
  function Fraction(offset: nat, size: nat): real
    requires size > 0
  {
    var f := offset as real / size as real;
    if f < 1.0 then f else 1.0
  }

  // One turn of the loop: the open check, the backpressure wait, the read of the
  // chunk and its send. None when the chunk was sent.
  method SendChunk(channel: DataChannel, chunk: seq<byte>) returns (stop: Option<Outcome>)
    requires |chunk| <= CHUNK_SIZE && channel.buffered <= channel.peak
    modifies channel
    ensures channel.buffered <= channel.peak
    ensures stop.Some? ==> channel.sent == old(channel.sent) && stop.value != Sent
    ensures stop.None? ==> channel.sent == old(channel.sent) + [Chunk(chunk)] && channel.open
    ensures stop == Some(Cut) <==> !old(channel.open)
    ensures stop == Some(Threw) ==> old(channel.open) && !channel.open
    ensures stop == Some(Stuck) ==> old(channel.buffered) > 262_144 && (channel.open ==> channel.buffered > 65_536)
    ensures stop.None? && old(channel.buffered) > 262_144 ==> channel.buffered <= 65_536 + |chunk|
    ensures channel.buffered <= old(channel.buffered) + if stop.None? then |chunk| else 0
    ensures channel.chunkPeak <= 278_528 || channel.chunkPeak == old(channel.chunkPeak)
    ensures channel.peak <= 278_528 || channel.peak == old(channel.peak)
  {
    if !channel.open { return Some(Cut); }
    if channel.buffered > MAX_BUFFER {
      var fired := channel.AwaitLow(LOW_WATER);
      if !fired { return Some(Stuck); }
    }
    channel.Yield();
    var ok := channel.Send(Chunk(chunk), |chunk|);
    stop := if ok then None else Some(Threw);
  }

  // The bound on the whole buffer before the end message: where it stood
  // already, the metadata, or a full buffer with one chunk.
  function Highest(peak: nat, withMeta: nat): nat {
    var floor := MAX_BUFFER + CHUNK_SIZE;
    if peak >= withMeta && peak >= floor then peak else if withMeta >= floor then withMeta else floor
  }

  // How many of the first k frames are chunks.
  function ChunksSent(file: File, k: nat): (n: nat)
    ensures n == 0 || (n - 1) * CHUNK_SIZE < |file.content|
  {
    if k < 1 then 0 else if k <= |Chunks(file.content)| then k - 1 else |Chunks(file.content)|
  }

  // The fractions reported for the first n chunks of a file.
  function Reported(size: nat, n: nat): seq<real>
    requires n == 0 || (n - 1) * CHUNK_SIZE < size
  {
    seq(n, i requires 0 <= i < n => Fraction((i + 1) * CHUNK_SIZE, size))
  }

  // Each is the share of the file that is out, and 1 for the last chunk.
  lemma ReportedAt(size: nat, n: nat, i: nat)
    requires i < n && (n - 1) * CHUNK_SIZE < size
    ensures |Reported(size, n)| == n
    ensures Reported(size, n)[i] ==
      if (i + 1) * 16_384 >= size then 1.0 else ((i + 1) * 16_384) as real / size as real
  {
    FractionIs((i + 1) * CHUNK_SIZE, size);
    assert Reported(size, n)[i] == Fraction((i + 1) * CHUNK_SIZE, size);
  }

  lemma FractionIs(offset: nat, size: nat)
    requires size > 0
    ensures Fraction(offset, size) == if offset >= size then 1.0 else offset as real / size as real
  {
    DivideLess(offset, size, size);
    assert size as real / size as real == 1.0;
  }

  lemma ReportedNext(size: nat, n: nat)
    requires n * CHUNK_SIZE < size
    ensures n == 0 || (n - 1) * CHUNK_SIZE < size
    ensures Reported(size, n) + [Fraction((n + 1) * CHUNK_SIZE, size)] == Reported(size, n + 1)
  {
  }

  // The chunks that follow on what was sent before.
  lemma SentNext(before: seq<Frame>, file: File, n: nat)
    requires n * CHUNK_SIZE < |file.content|
    ensures n + 2 < |Frames(file)|
    ensures var end := if (n + 1) * CHUNK_SIZE <= |file.content| then (n + 1) * CHUNK_SIZE else |file.content|;
      before + Frames(file)[1..n + 1] + [Chunk(file.content[n * CHUNK_SIZE..end])] == before + Frames(file)[1..n + 2]
  {
    ChunkAt(file.content, n);
    assert Frames(file)[n + 1] == Chunks(file.content)[n];
    assert Frames(file)[1..n + 2] == Frames(file)[1..n + 1] + [Frames(file)[n + 1]];
  }

  // The loop; `n` is how many chunks were sent.
  method SendChunks(channel: DataChannel, file: File)
    returns (stop: Option<Outcome>, progress: seq<real>, ghost n: nat)
    requires channel.open && channel.buffered <= channel.peak
    modifies channel
    ensures n <= |Chunks(file.content)| && channel.sent == old(channel.sent) + Frames(file)[1..n + 1]
    ensures stop.None? ==> n == |Chunks(file.content)| && channel.open
    ensures stop.Some? ==> n < |Chunks(file.content)| && stop.value != Sent
    ensures stop.Some? && channel.open ==> stop.value == Stuck && channel.buffered > 65_536
    ensures channel.buffered <= old(channel.buffered) + n * 16_384
    ensures stop == Some(Stuck) ==> old(channel.buffered) + n * 16_384 > 262_144
    ensures channel.buffered <= channel.peak
    ensures channel.chunkPeak <= 278_528 || channel.chunkPeak == old(channel.chunkPeak)
    ensures channel.peak <= 278_528 || channel.peak == old(channel.peak)
    ensures (n == 0 || (n - 1) * CHUNK_SIZE < |file.content|) && progress == Reported(|file.content|, n)
  {
    var size := |file.content|;
    var offset := 0;
    progress, n := [], 0;
    while offset < size
      invariant offset == n * CHUNK_SIZE && n <= |Chunks(file.content)| && (n == 0 || (n - 1) * CHUNK_SIZE < size)
      invariant channel.sent == old(channel.sent) + Frames(file)[1..n + 1]
      invariant channel.buffered <= channel.peak
      invariant channel.chunkPeak <= 278_528 || channel.chunkPeak == old(channel.chunkPeak)
      invariant channel.peak <= 278_528 || channel.peak == old(channel.peak)
      invariant progress == Reported(size, n) && channel.open && channel.buffered <= old(channel.buffered) + n * 16_384
    {
      var end := if offset + CHUNK_SIZE <= size then offset + CHUNK_SIZE else size;
      SentNext(old(channel.sent), file, n);
      ReportedNext(size, n);
      stop := SendChunk(channel, file.content[offset..end]);
      if stop.Some? { return stop, progress, n; }
      offset := offset + CHUNK_SIZE;
      progress := progress + [Fraction(offset, size)];
      n := n + 1;
    }
    stop := None;
  }

  lemma SentSoFar(before: seq<Frame>, file: File, n: nat)
    requires n <= |Chunks(file.content)|
    ensures |Frames(file)| == |Chunks(file.content)| + 2
    ensures before + [MetaFrame(MetaOf(file))] + Frames(file)[1..n + 1] == before + Frames(file)[..n + 1]
    ensures n == |Chunks(file.content)| ==> before + Frames(file)[..n + 1] + [EndFrame] == before + Frames(file)[..n + 2]
  {
    assert [Frames(file)[0]] + Frames(file)[1..n + 1] == Frames(file)[..n + 1];
    assert n == |Chunks(file.content)| ==> Frames(file)[..n + 1] + [EndFrame] == Frames(file)[..n + 2];
  }

  // Sends a file; `k` is how many of its frames were sent. The channel may close
  // or fail to drain during any await.
  method SendFile(channel: DataChannel, file: File, metaSize: nat)
    returns (outcome: Outcome, progress: seq<real>, ghost k: nat)
    modifies channel
    ensures k <= |Frames(file)| && channel.sent == old(channel.sent) + Frames(file)[..k]
    ensures outcome == Sent <==> k == (|file.content| + 16_383) / 16_384 + 2
    ensures channel.open && channel.buffered <= 65_536 ==> outcome == Sent
    ensures outcome == Stuck ==> k > 0 && old(channel.buffered) + metaSize + (k - 1) * 16_384 > 262_144
    ensures channel.open && outcome != Stuck ==> outcome == Sent
    ensures !old(channel.open) ==> k == 0 && outcome == Threw
    ensures channel.chunkPeak <= 278_528 || channel.chunkPeak == old(channel.chunkPeak)
    ensures channel.peak <= Highest(old(channel.peak), old(channel.buffered) + metaSize) + END_SIZE
    ensures progress == Reported(|file.content|, ChunksSent(file, k))
    ensures |progress| == if k == 0 then 0 else if outcome == Sent then k - 2 else k - 1
  {
    var ok := channel.Send(MetaFrame(MetaOf(file)), metaSize);
    if !ok { return Threw, [], 0; }
    ghost var n;
    var stop;
    stop, progress, n := SendChunks(channel, file);
    k := n + 1;
    SentSoFar(old(channel.sent), file, n);
    if stop.Some? { return stop.value, progress, k; }
    outcome := Cut;
    if channel.open {
      ok := channel.Send(EndFrame, END_SIZE);
      k, outcome := k + 1, Sent;
    }
  }

  // Progress over the chunks of a file rises strictly and is 1 on the chunk that
  // covers the last byte and on no other.
  lemma ProgressIsMonotone(size: nat, i: nat, j: nat)
    requires i < j && j * CHUNK_SIZE < size
    ensures Fraction((i + 1) * CHUNK_SIZE, size) < Fraction((j + 1) * CHUNK_SIZE, size) <= 1.0
  {
    assert (i + 1) * CHUNK_SIZE <= j * CHUNK_SIZE < (j + 1) * CHUNK_SIZE;
    FractionLess((i + 1) * CHUNK_SIZE, (j + 1) * CHUNK_SIZE, size);
  }

  lemma FractionLess(a: nat, b: nat, size: nat)
    requires a < b && a < size
    ensures Fraction(a, size) < Fraction(b, size) <= 1.0
  {
    DivideLess(a, b, size);
    DivideLess(a, size, size);
    assert size as real / size as real == 1.0;
  }

  lemma DivideLess(a: nat, b: nat, size: nat)
    requires size > 0
    ensures a < b <==> a as real / size as real < b as real / size as real
  {
    if a < b {
      assert (b - a) as real / size as real > 0.0;
    } else {
      assert (a - b) as real / size as real >= 0.0;
    }
  }

  lemma FullOnlyAtLastByte(size: nat, i: nat)
    requires i * CHUNK_SIZE < size
    ensures Fraction((i + 1) * CHUNK_SIZE, size) == 1.0 <==> (i + 1) * CHUNK_SIZE >= size
  {
    DivideLess((i + 1) * CHUNK_SIZE, size, size);
    assert size as real / size as real == 1.0;
  }

  // How often "File sent" is announced.
  function Toasts(progress: seq<real>): nat {
    if progress == [] then 0
    else Toasts(progress[..|progress| - 1]) + if progress[|progress| - 1] >= 1.0 then 1 else 0
  }

  // It is announced once if every chunk was sent, and never otherwise; in
  // particular never for an empty file, although that is sent as well.
  lemma {:induction false} AnnouncedOnce(size: nat, n: nat)
    requires n == 0 || (n - 1) * CHUNK_SIZE < size
    ensures Toasts(Reported(size, n)) == if n > 0 && n * CHUNK_SIZE >= size then 1 else 0
    decreases n
  {
    if n > 0 {
      FullOnlyAtLastByte(size, n - 1);
      AnnouncedOnce(size, n - 1);
      assert Reported(size, n)[..n - 1] == Reported(size, n - 1);
    }
  }
}
