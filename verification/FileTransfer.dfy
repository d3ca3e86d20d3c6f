/**
 Receiving files in chunks (web/filetransfer.js:85-99, 170-258): one file, and many at once.
 FileSend.dfy has the sender and the two together.
 */
module FileTransfer {
  import opened Prelude

  type Bytes = seq<bv8>

  const CHUNK_BYTES: nat := 65536
  const MAX_FILE_BYTES: nat := 26214400
  const FILE_TAG_BYTES: nat := 16
  const CHUNK_WINDOW: nat := 8
  const MAX_CONCURRENT_INCOMING: nat := 8
  const MAX_CHUNKS: nat := 402

  // ---- Slices of a file ----

  /** How many chunks carry n bytes: at least one. */
  function Total(n: nat): (t: nat)
    ensures t >= 1
    ensures n <= t * CHUNK_BYTES && (t > 1 ==> (t - 1) * CHUNK_BYTES < n)
  {
    if n == 0 then 1 else (n + CHUNK_BYTES - 1) / CHUNK_BYTES
  }

  /** Chunk i of a file; the bounds are clamped to its length. */
  function Slice(buf: Bytes, i: nat): Bytes {
    buf[Min(i * CHUNK_BYTES, |buf|)..Min((i + 1) * CHUNK_BYTES, |buf|)]
  }

  // ---- Receiving: one file ----

  /** The text of a chunk: base64 of some bytes, or text that does not decode. */
  datatype Body = Base64(bytes: Bytes) | Garbled

  /** What arrives as a chunk: a seq that may be no integer, and data that may be no text. */
  datatype Chunk = Chunk(seqNo: Option<int>, data: Option<Body>)

  /** armed: the idle watchdog of this record is running. */
  datatype Incoming = Incoming(total: nat, chunks: seq<Option<Body>>, received: nat, sealed: bool, armed: bool)

  function Opened(total: nat, sealed: bool): Incoming {
    Incoming(total, seq(total, _ => None), 0, sealed, true)
  }

  predicate Usable(total: nat, c: Chunk) {
    c.seqNo.Some? && 0 <= c.seqNo.value < total && c.data.Some?
  }

  function Arrive(rec: Incoming, c: Chunk): Incoming
    requires |rec.chunks| == rec.total
  {
    if Usable(rec.total, c) && rec.chunks[c.seqNo.value].None?
    then rec.(chunks := rec.chunks[c.seqNo.value := c.data], received := rec.received + 1, armed := true)
    else rec
  }

  /** How many chunks are there. */
  function Filled(chunks: seq<Option<Body>>): (n: nat)
    ensures n <= |chunks|
  {
    if chunks == [] then 0 else Filled(chunks[1..]) + if chunks[0].Some? then 1 else 0
  }

  lemma {:induction false} FillOne(chunks: seq<Option<Body>>, i: nat, b: Body)
    requires i < |chunks| && chunks[i].None?
    ensures Filled(chunks[i := Some(b)]) == Filled(chunks) + 1
  {
    if i > 0 {
      assert chunks[i := Some(b)][1..] == chunks[1..][i - 1 := Some(b)];
      FillOne(chunks[1..], i - 1, b);
    } else {
      assert chunks[i := Some(b)][1..] == chunks[1..];
    }
  }

  lemma {:induction false} FilledAll(chunks: seq<Option<Body>>)
    ensures Filled(chunks) == |chunks| <==> forall i :: 0 <= i < |chunks| ==> chunks[i].Some?
  {
    if chunks != [] {
      FilledAll(chunks[1..]);
      assert forall i :: 1 <= i < |chunks| ==> chunks[i] == chunks[1..][i - 1];
    }
  }

  lemma {:induction false} FilledNone(n: nat)
    ensures Filled(seq(n, _ => None)) == 0
  {
    if n > 0 {
      FilledNone(n - 1);
      var none: seq<Option<Body>> := seq(n, _ => None);
      assert none[1..] == seq(n - 1, _ => None);
    }
  }

  /** The counter is the number of chunks there, and one per index. */
  predicate Sound(rec: Incoming) {
    |rec.chunks| == rec.total && rec.received == Filled(rec.chunks)
  }

  lemma OpenedIsSound(total: nat, sealed: bool)
    ensures Sound(Opened(total, sealed))
  {
    FilledNone(total);
  }

  /** A usable chunk of a new index takes its place, counts once and rearms the watchdog; any other changes nothing. */
  lemma ArriveIs(rec: Incoming, c: Chunk)
    requires |rec.chunks| == rec.total
    ensures var next := Arrive(rec, c);
      if c.data.Some? && (exists i :: 0 <= i < rec.total && c.seqNo == Some(i) && rec.chunks[i] == None) then
        && next.received == rec.received + 1 && next.armed && next.total == rec.total && next.sealed == rec.sealed
        && |next.chunks| == rec.total
        && forall i :: 0 <= i < rec.total ==> next.chunks[i] == if c.seqNo == Some(i as int) then c.data else rec.chunks[i]
      else next == rec
  {
    if Usable(rec.total, c) { assert c.seqNo == Some(c.seqNo.value); }
  }

  lemma ArriveKeepsSound(rec: Incoming, c: Chunk)
    requires Sound(rec)
    ensures Sound(Arrive(rec, c))
  {
    if Usable(rec.total, c) && rec.chunks[c.seqNo.value].None? {
      FillOne(rec.chunks, c.seqNo.value, c.data.value);
    }
  }

  function ArriveAll(rec: Incoming, cs: seq<Chunk>): (r: Incoming)
    requires |rec.chunks| == rec.total
    ensures |r.chunks| == r.total == rec.total && r.sealed == rec.sealed
    decreases |cs|
  {
    if cs == [] then rec else ArriveAll(Arrive(rec, cs[0]), cs[1..])
  }

  /** The chunks glued together, or None where one does not decode; an absent one counts as empty text. */
  function Join(chunks: seq<Option<Body>>): Option<Bytes> {
    if chunks == [] then Some([])
    else
      var n := |chunks| - 1;
      match (Join(chunks[..n]), chunks[n])
      case (None, _) => None
      case (Some(bs), None) => Some(bs)
      case (Some(bs), Some(Garbled)) => None
      case (Some(bs), Some(Base64(more))) => Some(bs + more)
  }

  datatype Outcome =
    | Ignored                // no such transfer
    | Incomplete             // refused, nothing rendered
    | Broken                 // decoding throws; nothing rendered, the record stays without its watchdog
    | Rendered(bytes: Bytes)
    | ToOpen(bytes: Bytes)   // a sealed file: rendered only if it decrypts
    | DecryptFailed          // refused, nothing rendered

  function Completed(rec: Incoming): Outcome {
    if rec.received < rec.total then Incomplete
    else
      match Join(rec.chunks)
      case None => Broken
      case Some(bs) => if rec.sealed then ToOpen(bs) else Rendered(bs)
  }

  /** What becomes of a sealed file once its opening settles. */
  function AfterOpening(o: Outcome, open: Bytes -> Option<Bytes>): Outcome {
    if !o.ToOpen? then o
    else if open(o.bytes).None? then DecryptFailed
    else Rendered(open(o.bytes).value)
  }

  // ---- What a receiver makes of the chunks of a file ----

  /** A chunk that is unusable, or is the sender's chunk of that number. */
  predicate Honest(buf: Bytes, c: Chunk) {
    Usable(Total(|buf|), c) ==> c.data == Some(Base64(Slice(buf, c.seqNo.value)))
  }

  predicate Covers(cs: seq<Chunk>, total: nat, i: int) {
    exists k :: 0 <= k < |cs| && Usable(total, cs[k]) && cs[k].seqNo == Some(i)
  }

  /** The first usable chunk of an index is the one that is kept. */
  lemma {:induction false} FirstCopyStays(rec: Incoming, cs: seq<Chunk>, i: nat)
    requires Sound(rec) && i < rec.total && rec.chunks[i].Some?
    ensures ArriveAll(rec, cs).chunks[i] == rec.chunks[i]
    decreases |cs|
  {
    if cs != [] {
      ArriveKeepsSound(rec, cs[0]);
      FirstCopyStays(Arrive(rec, cs[0]), cs[1..], i);
    }
  }

  lemma {:induction false} ArriveAllKeepsSound(rec: Incoming, cs: seq<Chunk>)
    requires Sound(rec)
    ensures Sound(ArriveAll(rec, cs))
    decreases |cs|
  {
    if cs != [] {
      ArriveKeepsSound(rec, cs[0]);
      ArriveAllKeepsSound(Arrive(rec, cs[0]), cs[1..]);
    }
  }

  lemma CoversRest(cs: seq<Chunk>, total: nat, i: int)
    requires cs != [] && !(Usable(total, cs[0]) && cs[0].seqNo == Some(i))
    ensures Covers(cs, total, i) <==> Covers(cs[1..], total, i)
  {
    if Covers(cs, total, i) {
      var k :| 0 <= k < |cs| && Usable(total, cs[k]) && cs[k].seqNo == Some(i);
      assert cs[1..][k - 1] == cs[k];
    }
    if Covers(cs[1..], total, i) {
      var k :| 0 <= k < |cs[1..]| && Usable(total, cs[1..][k]) && cs[1..][k].seqNo == Some(i);
      assert cs[k + 1] == cs[1..][k];
    }
  }

  /** An index not there yet ends up with the sender's chunk exactly if one of its copies arrives. */
  lemma {:induction false} HonestArrives(buf: Bytes, rec: Incoming, cs: seq<Chunk>, i: nat)
    requires Sound(rec) && rec.total == Total(|buf|) && i < rec.total && rec.chunks[i].None?
    requires forall c :: c in cs ==> Honest(buf, c)
    ensures ArriveAll(rec, cs).chunks[i]
         == if Covers(cs, rec.total, i) then Some(Base64(Slice(buf, i))) else None
    decreases |cs|
  {
    if cs != [] {
      var next := Arrive(rec, cs[0]);
      ArriveKeepsSound(rec, cs[0]);
      assert Honest(buf, cs[0]);
      if Usable(rec.total, cs[0]) && cs[0].seqNo == Some(i as int) {
        FirstCopyStays(next, cs[1..], i);
      } else {
        CoversRest(cs, rec.total, i);
        HonestArrives(buf, next, cs[1..], i);
      }
    }
  }

  /** Slices in their order make up the file. */
  lemma {:induction false} SlicesJoin(buf: Bytes, chunks: seq<Option<Body>>)
    requires forall i :: 0 <= i < |chunks| ==> chunks[i] == Some(Base64(Slice(buf, i)))
    ensures Join(chunks) == Some(buf[..Min(|chunks| * CHUNK_BYTES, |buf|)])
    decreases |chunks|
  {
    if chunks != [] {
      var n := |chunks| - 1;
      SlicesJoin(buf, chunks[..n]);
      assert chunks[n] == Some(Base64(Slice(buf, n)));
      assert buf[..Min(n * CHUNK_BYTES, |buf|)] + Slice(buf, n) == buf[..Min((n + 1) * CHUNK_BYTES, |buf|)];
    }
  }

  /**
   The chunks of any file, in any order, any number of times and mixed with unusable ones,
   render exactly that file if every index arrived, and nothing otherwise.
   */
  lemma DeliveryIsExact(buf: Bytes, sealed: bool, cs: seq<Chunk>)
    requires forall c :: c in cs ==> Honest(buf, c)
    ensures var total := Total(|buf|);
      Completed(ArriveAll(Opened(total, sealed), cs)) ==
      if forall i :: 0 <= i < total ==> Covers(cs, total, i)
      then (if sealed then ToOpen(buf) else Rendered(buf))
      else Incomplete
  {
    var total := Total(|buf|);
    var rec := Opened(total, sealed);
    var end := ArriveAll(rec, cs);
    OpenedIsSound(total, sealed);
    ArriveAllKeepsSound(rec, cs);
    forall i | 0 <= i < total
      ensures end.chunks[i] == if Covers(cs, total, i) then Some(Base64(Slice(buf, i))) else None
    {
      HonestArrives(buf, rec, cs, i);
    }
    FilledAll(end.chunks);
    if forall i :: 0 <= i < total ==> Covers(cs, total, i) {
      SlicesJoin(buf, end.chunks);
      assert buf[..|buf|] == buf;
    } else {
      var i :| 0 <= i < total && !Covers(cs, total, i);
      assert end.chunks[i].None?;
    }
  }

  /** An authenticated cipher: under the offer's key only the sender's ciphertext opens, to the file. */
  ghost predicate OpensOnly(open: Bytes -> Option<Bytes>, ct: Bytes, plain: Bytes) {
    forall bs: Bytes :: open(bs) == if bs == ct then Some(plain) else None
  }

  /** The chunks of a sealed file render exactly the file that was sealed if every index arrived. */
  lemma SealedDeliveryIsExact(plain: Bytes, ct: Bytes, open: Bytes -> Option<Bytes>, cs: seq<Chunk>)
    requires OpensOnly(open, ct, plain) && forall c :: c in cs ==> Honest(ct, c)
    ensures var total := Total(|ct|);
      AfterOpening(Completed(ArriveAll(Opened(total, true), cs)), open) ==
      if forall i :: 0 <= i < total ==> Covers(cs, total, i) then Rendered(plain) else Incomplete
  {
    DeliveryIsExact(ct, true, cs);
  }

  /** A remark on it: since nothing else opens, whatever chunks anyone sends, nothing else is rendered. */
  lemma SealedIsGenuine(plain: Bytes, ct: Bytes, open: Bytes -> Option<Bytes>, total: nat, cs: seq<Chunk>)
    requires OpensOnly(open, ct, plain)
    ensures var o := AfterOpening(Completed(ArriveAll(Opened(total, true), cs)), open);
      o.Rendered? ==> o.bytes == plain
  {
  }

  /** Whoever sent them: something is assembled only if a usable chunk of every index arrived. */
  lemma {:induction false} NothingFromNothing(rec: Incoming, cs: seq<Chunk>, i: nat)
    requires Sound(rec) && i < rec.total && rec.chunks[i].None? && !Covers(cs, rec.total, i)
    ensures ArriveAll(rec, cs).chunks[i].None? && Completed(ArriveAll(rec, cs)) == Incomplete
    decreases |cs|
  {
    if cs == [] {
      FilledAll(rec.chunks);
    } else {
      ArriveKeepsSound(rec, cs[0]);
      assert !(Usable(rec.total, cs[0]) && cs[0].seqNo == Some(i as int));
      CoversRest(cs, rec.total, i);
      NothingFromNothing(Arrive(rec, cs[0]), cs[1..], i);
    }
  }

  // ---- Receiving: many files at once ----

  /** size and chunks are None where the offer holds no number, or no integer. */
  datatype Offered = Offered(id: string, sealedBad: bool, sealed: bool, size: Option<int>, chunks: Option<int>)

  datatype Reply = Accept | TooLarge | BadOffer | Busy

  function Judge(files: map<string, Incoming>, o: Offered): Reply {
    if o.sealedBad then BadOffer
    else if o.size.Some? && o.size.value > MAX_FILE_BYTES + (if o.sealed then FILE_TAG_BYTES else 0) then TooLarge
    else if o.chunks.None? || o.chunks.value <= 0 || o.chunks.value > MAX_CHUNKS then BadOffer
    else if |files| >= MAX_CONCURRENT_INCOMING then Busy
    else Accept
  }

  /** What an offer is answered: accepted with any size up to 25 MiB, 16 bytes more if sealed, or none that
      is a number, 1 to 402 chunks and fewer than eight transfers open; refused for the first reason that fails. */
  lemma JudgeIff(files: map<string, Incoming>, o: Offered)
    ensures var big := o.size.Some? && o.size.value > (if o.sealed then 26214416 else 26214400);
      var counted := o.chunks.Some? && 1 <= o.chunks.value <= 402;
      && (Judge(files, o) == Accept <==> !o.sealedBad && !big && counted && |files| < 8)
      && (Judge(files, o) == BadOffer <==> o.sealedBad || (!big && !counted))
      && (Judge(files, o) == TooLarge <==> !o.sealedBad && big)
      && (Judge(files, o) == Busy <==> !o.sealedBad && !big && counted && |files| >= 8)
  {
  }

  /** The offer the sender makes for what it puts on the wire. */
  function OfferOf(id: string, buf: Bytes, sealed: bool): Offered {
    Offered(id, false, sealed, Some(|buf|), Some(Total(|buf|)))
  }

  /** With a slot free, every file up to the limit is accepted, and its record awaits every chunk of it. */
  lemma OwnOfferAccepted(files: map<string, Incoming>, id: string, buf: Bytes, sealed: bool)
    requires |files| < 8 && |buf| <= (if sealed then 26214416 else 26214400)
    ensures Judge(files, OfferOf(id, buf, sealed)) == Accept
    ensures var after := After(files, Offers(OfferOf(id, buf, sealed)));
      && after.Keys == files.Keys + {id} && (forall other :: other in files && other != id ==> after[other] == files[other])
      && after[id].received == 0 && after[id].sealed == sealed && after[id].armed
      && after[id].total == |after[id].chunks| == Total(|buf|)
      && forall i :: 0 <= i < |after[id].chunks| ==> after[id].chunks[i] == None
  {
    JudgeIff(files, OfferOf(id, buf, sealed));
  }

  /** A file of n bytes is cut into just enough chunks of 64 KiB, an empty one into one. */
  lemma TotalIs(n: nat)
    ensures Total(n) >= 1 && n <= Total(n) * 65536 && forall t: nat :: t >= 1 && n <= t * 65536 ==> Total(n) <= t
  {
    assert Total(n) > 1 ==> (Total(n) - 1) * 65536 < n;
  }

  /** Idles: the watchdog of the transfer's record fires, if it is armed.  Leftover: that of an earlier
      record of the same id does, which an offer replaced without clearing it. */
  datatype Event =
    | Offers(o: Offered) | Chunks(id: string, c: Chunk) | Completes(id: string) | Idles(id: string) | Leftover(id: string)

  function Outcomes(files: map<string, Incoming>, id: string): Outcome {
    if id in files then Completed(files[id]) else Ignored
  }

  /** What a completion comes to: nothing for an unknown transfer, a refusal while a chunk is absent, an error
      once all are there and one does not decode, otherwise the bytes, to open if sealed. */
  lemma OutcomeIff(files: map<string, Incoming>, id: string)
    requires Bounded(files)
    ensures Outcomes(files, id) == Ignored <==> id !in files
    ensures id in files ==>
      var rec, o := files[id], Outcomes(files, id);
      && (o == Incomplete <==> exists i :: 0 <= i < |rec.chunks| && rec.chunks[i] == None)
      && (o == Broken <==> None !in rec.chunks && Some(Garbled) in rec.chunks)
      && (None !in rec.chunks && Some(Garbled) !in rec.chunks ==> if rec.sealed then o.ToOpen? else o.Rendered?)
  {
    if id in files {
      var rec := files[id];
      FilledAll(rec.chunks);
      JoinFailsIff(rec.chunks);
    }
  }

  lemma {:induction false} JoinFailsIff(chunks: seq<Option<Body>>)
    ensures Join(chunks) == None <==> Some(Garbled) in chunks
  {
    if chunks != [] {
      var front, last := chunks[..|chunks| - 1], chunks[|chunks| - 1];
      JoinFailsIff(front);
      assert chunks == front + [last];
    }
  }

  function After(files: map<string, Incoming>, e: Event): map<string, Incoming> {
    match e
    case Offers(o) =>
      if Judge(files, o) == Accept then files[o.id := Opened(o.chunks.value, o.sealed)] else files
    case Chunks(id, c) =>
      if id in files && |files[id].chunks| == files[id].total then files[id := Arrive(files[id], c)] else files
    case Completes(id) =>
      if Outcomes(files, id) == Broken then files[id := files[id].(armed := false)] else files - {id}
    case Idles(id) => if id in files && !files[id].armed then files else files - {id}
    case Leftover(id) => files - {id}
  }

  function AfterAll(files: map<string, Incoming>, es: seq<Event>): map<string, Incoming>
    decreases |es|
  {
    if es == [] then files else AfterAll(After(files, es[0]), es[1..])
  }

  /** At most 8 transfers, each with an honest counter and a bounded number of chunks. */
  ghost predicate Bounded(files: map<string, Incoming>) {
    && |files| <= MAX_CONCURRENT_INCOMING
    && forall id :: id in files ==> Sound(files[id]) && 1 <= files[id].total <= MAX_CHUNKS
  }

  lemma RemoveShrinks(files: map<string, Incoming>, id: string)
    ensures |files - {id}| <= |files|
  {
    assert (files - {id}).Keys <= files.Keys;
    SubsetSize((files - {id}).Keys, files.Keys);
  }

  lemma {:induction false} SubsetSize<T>(a: set<T>, b: set<T>)
    requires a <= b
    ensures |a| <= |b| && (|a| == |b| ==> a == b)
  {
    if a != {} {
      var x :| x in a;
      SubsetSize(a - {x}, b - {x});
      assert a == (a - {x}) + {x} && b == (b - {x}) + {x};
    }
  }

  lemma DropKeepsBounds(files: map<string, Incoming>, id: string)
    requires Bounded(files)
    ensures Bounded(files - {id})
  {
    RemoveShrinks(files, id);
  }

  lemma PutKeepsBounds(files: map<string, Incoming>, id: string, rec: Incoming)
    requires Bounded(files) && Sound(rec) && 1 <= rec.total <= MAX_CHUNKS
    requires id in files || |files| < MAX_CONCURRENT_INCOMING
    ensures Bounded(files[id := rec])
  {
    assert files[id := rec].Keys == files.Keys + {id};
    assert id in files ==> files[id := rec].Keys == files.Keys;
  }

  lemma EventKeepsBounds(files: map<string, Incoming>, e: Event)
    requires Bounded(files)
    ensures Bounded(After(files, e))
  {
    match e
    case Offers(o) =>
      if Judge(files, o) == Accept {
        OpenedIsSound(o.chunks.value, o.sealed);
        PutKeepsBounds(files, o.id, Opened(o.chunks.value, o.sealed));
      }
    case Chunks(id, c) =>
      if id in files {
        ArriveKeepsSound(files[id], c);
        PutKeepsBounds(files, id, Arrive(files[id], c));
      }
    case Completes(id) =>
      if Outcomes(files, id) == Broken {
        PutKeepsBounds(files, id, files[id].(armed := false));
      } else {
        DropKeepsBounds(files, id);
      }
    case Idles(id) => DropKeepsBounds(files, id);
    case Leftover(id) => DropKeepsBounds(files, id);
  }

  /** From no transfers, whatever peers send, memory stays bounded and counters honest. */
  lemma {:induction false} RunKeepsBounds(files: map<string, Incoming>, es: seq<Event>)
    requires Bounded(files)
    ensures Bounded(AfterAll(files, es))
    decreases |es|
  {
    if es != [] {
      EventKeepsBounds(files, es[0]);
      RunKeepsBounds(After(files, es[0]), es[1..]);
    }
  }

  /** The chunks of one transfer among everything that arrives. */
  function ChunksFor(es: seq<Event>, id: string): seq<Chunk> {
    if es == [] then []
    else if es[0].Chunks? && es[0].id == id then [es[0].c] + ChunksFor(es[1..], id)
    else ChunksFor(es[1..], id)
  }

  predicate Elsewhere(e: Event, id: string) {
    match e
    case Offers(o) => o.id != id
    case Chunks(_, _) => true
    case Completes(other) => other != id
    case Idles(other) => other != id
    case Leftover(other) => other != id
  }

  lemma ArriveFirst(rec: Incoming, c: Chunk, rest: seq<Chunk>)
    requires Sound(rec)
    ensures ArriveAll(rec, [c] + rest) == ArriveAll(Arrive(rec, c), rest)
  {
    assert ([c] + rest)[1..] == rest;
  }

  lemma ElsewhereLeaves(files: map<string, Incoming>, e: Event, id: string)
    requires Bounded(files) && id in files && Elsewhere(e, id)
    ensures id in After(files, e)
    ensures After(files, e)[id] == if e.Chunks? && e.id == id then Arrive(files[id], e.c) else files[id]
  {
  }

  /** Transfers do not disturb one another. */
  lemma {:induction false} TransfersAreSeparate(files: map<string, Incoming>, es: seq<Event>, id: string)
    requires Bounded(files) && id in files
    requires forall e :: e in es ==> Elsewhere(e, id)
    ensures id in AfterAll(files, es)
    ensures AfterAll(files, es)[id] == ArriveAll(files[id], ChunksFor(es, id))
    decreases |es|
  {
    if es != [] {
      var e, rest := es[0], ChunksFor(es[1..], id);
      assert e in es;
      EventKeepsBounds(files, e);
      ElsewhereLeaves(files, e, id);
      TransfersAreSeparate(After(files, e), es[1..], id);
      if e.Chunks? && e.id == id { ArriveFirst(files[id], e.c, rest); }
    }
  }

  /**
   A receiver with a slot free gets the offer of a file up to the limit; then, however the file's chunks are
   reordered, repeated and interleaved with other transfers, completing it yields exactly that file if
   every index arrived and nothing otherwise.
   */
  lemma InterleavedDelivery(files: map<string, Incoming>, es: seq<Event>, id: string, buf: Bytes, sealed: bool)
    requires Bounded(files) && |files| < 8 && |buf| <= (if sealed then 26214416 else 26214400)
    requires forall e :: e in es ==> Elsewhere(e, id)
    requires forall c :: c in ChunksFor(es, id) ==> Honest(buf, c)
    ensures Outcomes(AfterAll(files, [Offers(OfferOf(id, buf, sealed))] + es), id) ==
      if forall i :: 0 <= i < Total(|buf|) ==> Covers(ChunksFor(es, id), Total(|buf|), i)
      then (if sealed then ToOpen(buf) else Rendered(buf))
      else Incomplete
  {
    var offer := Offers(OfferOf(id, buf, sealed));
    var started := After(files, offer);
    OwnOfferAccepted(files, id, buf, sealed);
    EventKeepsBounds(files, offer);
    assert ([offer] + es)[1..] == es;
    TransfersAreSeparate(started, es, id);
    DeliveryIsExact(buf, sealed, ChunksFor(es, id));
  }

  // ---- When a slot is freed ----

  /** An event frees the slot of a transfer exactly if it completes without a decoding error, its own armed
      watchdog fires, or one left over from an earlier record does. */
  lemma SlotFreedIff(files: map<string, Incoming>, e: Event, id: string)
    requires id in files
    ensures id !in After(files, e) <==>
      || (e == Completes(id) && Outcomes(files, id) != Broken)
      || (e == Idles(id) && files[id].armed)
      || e == Leftover(id)
  {
  }

  /** All chunks there, one of them undecodable, and no watchdog. */
  predicate Stuck(rec: Incoming) { Completed(rec) == Broken && !rec.armed && rec.total == 1 && Sound(rec) }

  predicate NoneLeftOver(es: seq<Event>) { forall e :: e in es ==> !e.Leftover? }

  lemma StuckStays(rec: Incoming, c: Chunk)
    requires Stuck(rec)
    ensures Arrive(rec, c) == rec
  {
    FilledAll(rec.chunks);
  }

  /** With eight such records no event but a leftover watchdog changes anything, and every offer is refused. */
  lemma {:induction false} StuckForGood(files: map<string, Incoming>, es: seq<Event>, o: Offered)
    requires |files| == MAX_CONCURRENT_INCOMING && (forall id :: id in files ==> Stuck(files[id])) && NoneLeftOver(es)
    ensures AfterAll(files, es) == files && Judge(AfterAll(files, es), o) != Accept
    decreases |es|
  {
    if es != [] {
      assert es[0] in es;
      if es[0].Chunks? && es[0].id in files { StuckStays(files[es[0].id], es[0].c); }
      assert After(files, es[0]) == files;
      StuckForGood(files, es[1..], o);
    }
  }

  /** An offer of one chunk, that chunk undecodable, and its completion. */
  function Undecodable(id: string): seq<Event> {
    [Offers(Offered(id, false, false, Some(1), Some(1))), Chunks(id, Chunk(Some(0), Some(Garbled))), Completes(id)]
  }

  function UndecodableAll(ids: seq<string>): seq<Event> {
    if ids == [] then [] else Undecodable(ids[0]) + UndecodableAll(ids[1..])
  }

  /** The record those three events leave. */
  function StuckRecord(): Incoming { Incoming(1, [Some(Garbled)], 1, false, false) }

  lemma StuckRecordIsStuck()
    ensures Stuck(StuckRecord())
  {
    GarbledSpoils([Some(Garbled)], 0);
    assert Filled([Some(Garbled)]) == 1;
  }

  lemma ThreeEvents(files: map<string, Incoming>, a: Event, b: Event, c: Event)
    ensures AfterAll(files, [a, b, c]) == After(After(After(files, a), b), c)
  {
    assert [a, b, c][1..] == [b, c] && [b, c][1..] == [c] && [c][1..] == [];
    assert AfterAll(After(After(files, a), b), [c]) == After(After(After(files, a), b), c);
  }

  lemma UndecodableSticks(files: map<string, Incoming>, id: string)
    requires |files| < MAX_CONCURRENT_INCOMING && id !in files
    ensures AfterAll(files, Undecodable(id)) == files[id := StuckRecord()]
  {
    var es := Undecodable(id);
    var open, full := Opened(1, false), Incoming(1, [Some(Garbled)], 1, false, true);
    assert open.chunks == [None] && Arrive(open, es[1].c) == full;
    StuckRecordIsStuck();
    assert Completed(full) == Broken;
    ThreeEvents(files, es[0], es[1], es[2]);
    assert After(files, es[0]) == files[id := open];
    assert After(files[id := open], es[1]) == files[id := full];
    assert After(files[id := full], es[2]) == files[id := StuckRecord()];
  }

  lemma {:induction false} AfterConcat(files: map<string, Incoming>, es: seq<Event>, fs: seq<Event>)
    ensures AfterAll(files, es + fs) == AfterAll(AfterAll(files, es), fs)
    decreases |es|
  {
    if es == [] {
      assert es + fs == fs;
    } else {
      assert (es + fs)[1..] == es[1..] + fs;
      AfterConcat(After(files, es[0]), es[1..], fs);
    }
  }

  ghost predicate AllStuck(files: map<string, Incoming>, n: nat) {
    |files| == n && forall id :: id in files ==> Stuck(files[id])
  }

  lemma OneMoreStuck(files: map<string, Incoming>, n: nat, id: string)
    requires AllStuck(files, n) && n < MAX_CONCURRENT_INCOMING && id !in files
    ensures AllStuck(AfterAll(files, Undecodable(id)), n + 1)
    ensures forall other :: other in AfterAll(files, Undecodable(id)) ==> other == id || other in files
  {
    UndecodableSticks(files, id);
    StuckRecordIsStuck();
    assert files[id := StuckRecord()].Keys == files.Keys + {id};
  }

  lemma {:induction false} UndecodableAllStick(files: map<string, Incoming>, n: nat, ids: seq<string>)
    requires AllStuck(files, n) && n + |ids| <= MAX_CONCURRENT_INCOMING
    requires (forall id :: id in ids ==> id !in files) && forall i, j :: 0 <= i < j < |ids| ==> ids[i] != ids[j]
    ensures AllStuck(AfterAll(files, UndecodableAll(ids)), n + |ids|)
    decreases |ids|
  {
    if ids != [] {
      var id, rest := ids[0], ids[1..];
      assert id in ids && forall x :: x in rest ==> x in ids && x != id;
      OneMoreStuck(files, n, id);
      AfterConcat(files, Undecodable(id), UndecodableAll(rest));
      UndecodableAllStick(AfterAll(files, Undecodable(id)), n + 1, rest);
    }
  }

  /** Eight transfers that complete with an undecodable chunk take every slot: whatever follows short of a
      leftover watchdog, no offer is accepted again. */
  lemma EightBrokenTransfers(ids: seq<string>, es: seq<Event>, o: Offered)
    requires |ids| == MAX_CONCURRENT_INCOMING && (forall i, j :: 0 <= i < j < |ids| ==> ids[i] != ids[j]) && NoneLeftOver(es)
    ensures Judge(AfterAll(AfterAll(map[], UndecodableAll(ids)), es), o) != Accept
  {
    UndecodableAllStick(map[], 0, ids);
    StuckForGood(AfterAll(map[], UndecodableAll(ids)), es, o);
  }

  function Flat(parts: seq<Bytes>): Bytes {
    if parts == [] then [] else Flat(parts[..|parts| - 1]) + parts[|parts| - 1]
  }

  class Receiver {
    var incoming: map<string, Incoming>

    ghost predicate Valid()
      reads this
    {
      Bounded(incoming)
    }

    constructor ()
      ensures Valid() && incoming == map[]
    {
      incoming := map[];
    }

    method HandleOffer(o: Offered) returns (reply: Reply)
      requires Valid()
      modifies this
      ensures Valid() && reply == Judge(old(incoming), o) && incoming == After(old(incoming), Offers(o))
    {
      EventKeepsBounds(incoming, Offers(o));
      if o.sealedBad { return BadOffer; }
      if o.size.Some? && o.size.value > MAX_FILE_BYTES + (if o.sealed then FILE_TAG_BYTES else 0) { return TooLarge; }
      if o.chunks.None? || o.chunks.value <= 0 || o.chunks.value > MAX_CHUNKS { return BadOffer; }
      if |incoming| >= MAX_CONCURRENT_INCOMING { return Busy; }
      incoming := incoming[o.id := Opened(o.chunks.value, o.sealed)];
      return Accept;
    }

    method HandleChunk(id: string, c: Chunk)
      requires Valid()
      modifies this
      ensures Valid() && incoming == After(old(incoming), Chunks(id, c))
    {
      EventKeepsBounds(incoming, Chunks(id, c));
      if id !in incoming { return; }
      var rec := incoming[id];
      if c.seqNo.None? || c.seqNo.value < 0 || c.seqNo.value >= rec.total { return; }
      if c.data.None? { return; }
      if rec.chunks[c.seqNo.value].None? {
        rec := rec.(chunks := rec.chunks[c.seqNo.value := c.data]);
        rec := rec.(received := rec.received + 1, armed := true);
      }
      assert rec == Arrive(incoming[id], c);
      incoming := incoming[id := rec];
    }

    method HandleComplete(id: string) returns (outcome: Outcome)
      requires Valid()
      modifies this
      ensures Valid() && outcome == Outcomes(old(incoming), id) && incoming == After(old(incoming), Completes(id))
    {
      EventKeepsBounds(incoming, Completes(id));
      if id !in incoming { return Ignored; }
      var rec := incoming[id].(armed := false);
      if rec.received < rec.total {
        incoming := incoming - {id};
        return Incomplete;
      }
      var joined := JoinParts(rec.chunks);
      if joined.None? {
        incoming := incoming[id := rec];
        return Broken;
      }
      incoming := incoming - {id};
      return if rec.sealed then ToOpen(joined.value) else Rendered(joined.value);
    }

    /** A sealed file is opened after its record is gone; a failure is refused. */
    method OpenSealed(full: Bytes, open: Bytes -> Option<Bytes>) returns (outcome: Outcome)
      ensures outcome == AfterOpening(ToOpen(full), open)
    {
      var plain := open(full);
      return if plain.None? then DecryptFailed else Rendered(plain.value);
    }

    /** Decode each chunk, then lay the parts end to end. */
    method JoinParts(chunks: seq<Option<Body>>) returns (joined: Option<Bytes>)
      ensures joined == Join(chunks)
    {
      var parts: seq<Bytes> := [];
      for i := 0 to |chunks|
        invariant Join(chunks[..i]) == Some(Flat(parts))
      {
        assert chunks[..i + 1][..i] == chunks[..i];
        var part: Bytes := [];
        if chunks[i].Some? {
          if chunks[i].value.Garbled? {
            GarbledSpoils(chunks, i);
            return None;
          }
          part := chunks[i].value.bytes;
        }
        assert (parts + [part])[..|parts|] == parts;
        assert Flat(parts) + part == Flat(parts + [part]);
        assert Flat(parts) + [] == Flat(parts);
        parts := parts + [part];
      }
      assert chunks[..|chunks|] == chunks;
      var full: Bytes := [];
      for i := 0 to |parts|
        invariant full == Flat(parts[..i])
      {
        assert parts[..i + 1][..i] == parts[..i];
        full := full + parts[i];
      }
      assert parts[..|parts|] == parts;
      return Some(full);
    }

    /** The armed watchdog of a record gives its stalled transfer up. */
    method HandleIdle(id: string)
      requires Valid()
      modifies this
      ensures Valid() && incoming == After(old(incoming), Idles(id))
    {
      EventKeepsBounds(incoming, Idles(id));
      if id in incoming && incoming[id].armed { incoming := incoming - {id}; }
    }

    /** A watchdog that an offer of the same id left running drops whatever record is there now. */
    method HandleLeftover(id: string)
      requires Valid()
      modifies this
      ensures Valid() && incoming == After(old(incoming), Leftover(id))
    {
      EventKeepsBounds(incoming, Leftover(id));
      incoming := incoming - {id};
    }
  }

  lemma {:induction false} GarbledSpoils(chunks: seq<Option<Body>>, i: nat)
    requires i < |chunks| && chunks[i] == Some(Garbled)
    ensures Join(chunks) == None
    decreases |chunks|
  {
    if i < |chunks| - 1 { GarbledSpoils(chunks[..|chunks| - 1], i); }
  }
}
