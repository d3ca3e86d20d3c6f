/**
 The windowed sender of a chunked transfer (web/filetransfer.js:87-166, 268-304) as it
 steps between events, and sender and receiver together.
 */
module FileSend {
  import opened Prelude
  import opened FileTransfer

  datatype Stage = Offering | Sending | Completing

  /** A promise settled once. */
  datatype Answer = Open | Yes | No

  /** What the sender puts on the wire. */
  datatype Out = FileOffer(chunks: nat) | FileChunk(seqNo: nat, data: Bytes) | FileComplete

  datatype Send = Send(
    buf: Bytes,
    stage: Stage,
    accept: Answer,
    receipt: Answer,
    listed: bool,           // still among the outgoing files, so handlers find it
    next: nat,              // chunks sent
    acked: set<int>,
    failed: bool,
    result: Option<bool>,   // what the caller got, once it returned
    log: seq<Out>)

  datatype Signal =
    | Accepted | Refused | SendFailed | Received
    | Ack(seqNo: Option<int>)         // None: not an integer
    | AcceptTimeout | AckTimeout | ReceiptTimeout
    | Resume                          // the awaiting code runs on

  function Begin(buf: Bytes): Send {
    Send(buf, Offering, Open, Open, true, 0, {}, false, None, [FileOffer(Total(|buf|))])
  }

  function Settle(a: Answer, to: Answer): Answer { if a == Open then to else a }

  /** The failure hook of a transfer past its offer. */
  function Fail(s: Send): Send {
    match s.stage
    case Offering => s
    case Sending => s.(failed := true)
    case Completing => s.(receipt := Settle(s.receipt, No))
  }

  function Finish(s: Send, ok: bool): Send { s.(result := Some(ok), listed := false) }

  predicate WindowFull(s: Send) { s.next - |s.acked| >= CHUNK_WINDOW }

  function SendOne(s: Send): Send {
    s.(next := s.next + 1, log := s.log + [FileChunk(s.next, Slice(s.buf, s.next))])
  }

  /** Send chunks until the window is full, a failure shows or all are sent. */
  function Pump(s: Send): Send
    decreases Total(|s.buf|) - s.next
  {
    if s.failed || s.next >= Total(|s.buf|) || WindowFull(s) then s
    else Pump(SendOne(s))
  }

  lemma PumpStep(s: Send)
    requires !s.failed && s.next < Total(|s.buf|) && !WindowFull(s)
    ensures Pump(s) == Pump(SendOne(s))
  {
  }

  lemma PumpDone(s: Send)
    requires s.failed || s.next >= Total(|s.buf|) || WindowFull(s)
    ensures Pump(s) == s
  {
  }

  function Chunked(start: Send): Send {
    var s := Pump(start);
    if s.failed then Finish(s, false)
    else if s.next < Total(|s.buf|) || |s.acked| < Total(|s.buf|) then s
    else s.(stage := Completing, log := s.log + [FileComplete])
  }

  function Resumed(s: Send): Send {
    if s.result.Some? then s
    else
      match s.stage
      case Offering =>
        if s.accept == Open then s
        else if s.accept == No then Finish(s, false)
        else Chunked(s.(stage := Sending))
      case Sending => Chunked(s)
      case Completing => if s.receipt == Open then s else Finish(s, s.receipt == Yes)
  }

  function On(s: Send, e: Signal): Send {
    match e
    case Accepted => if s.listed then s.(accept := Settle(s.accept, Yes)) else s
    case Refused =>
      if !s.listed then s
      else if s.stage == Offering then s.(accept := Settle(s.accept, No), listed := false)
      else Fail(s)
    case SendFailed => if s.listed then Fail(s) else s
    case Received =>
      if s.listed && s.stage == Completing then s.(receipt := Settle(s.receipt, Yes)) else s
    case Ack(q) =>
      if s.listed && s.stage != Offering && q.Some? && 0 <= q.value < Total(|s.buf|)
      then s.(acked := s.acked + {q.value}) else s
    case AcceptTimeout => s.(accept := Settle(s.accept, No))
    case AckTimeout => if s.stage == Sending && s.result.None? then s.(failed := true) else s
    case ReceiptTimeout => if s.stage == Completing then s.(receipt := Settle(s.receipt, No)) else s
    case Resume => Resumed(s)
  }

  function Run(buf: Bytes, es: seq<Signal>): Send
    decreases |es|
  {
    if es == [] then Begin(buf) else On(Run(buf, es[..|es| - 1]), es[|es| - 1])
  }

  // ---- What every run keeps ----

  function Range(n: nat): (r: set<int>)
    ensures |r| == n && forall i :: i in r <==> 0 <= i < n
  {
    if n == 0 then {} else Range(n - 1) + {n - 1}
  }

  /** The chunks of a file up to n, each once and in order. */
  function ChunkLog(buf: Bytes, n: nat): (r: seq<Out>)
    ensures |r| == n && forall i :: 0 <= i < n ==> r[i] == FileChunk(i, Slice(buf, i))
  {
    seq(n, i requires 0 <= i < n => FileChunk(i, Slice(buf, i)))
  }

  function FullLog(buf: Bytes, n: nat, complete: bool): seq<Out> {
    [FileOffer(Total(|buf|))] + ChunkLog(buf, n) + if complete then [FileComplete] else []
  }

  predicate Inv(s: Send) {
    var total := Total(|s.buf|);
    && s.next <= total
    && (forall a :: a in s.acked ==> 0 <= a < total)
    && s.next - |s.acked| <= CHUNK_WINDOW
    && s.log == FullLog(s.buf, s.next, s.stage == Completing)
    && (s.stage == Offering ==> s.next == 0 && s.acked == {} && !s.failed)
    && (s.stage == Completing ==> s.next == total && s.acked == Range(total))
    && (s.receipt == Yes ==> s.stage == Completing)
    && (s.result == Some(true) ==> s.receipt == Yes && s.stage == Completing)
    && (s.result.Some? ==> !s.listed)
  }

  lemma ChunkLogGrows(buf: Bytes, n: nat)
    ensures FullLog(buf, n, false) + [FileChunk(n, Slice(buf, n))] == FullLog(buf, n + 1, false)
  {
  }

  lemma SendOneKeepsInv(s: Send)
    requires Inv(s) && s.stage == Sending && s.result.None? && s.next < Total(|s.buf|) && !WindowFull(s)
    ensures Inv(SendOne(s))
  {
    ChunkLogGrows(s.buf, s.next);
  }

  lemma {:induction false} PumpKeepsInv(s: Send)
    requires Inv(s) && s.stage == Sending && s.result.None?
    ensures Inv(Pump(s)) && Pump(s).stage == Sending && Pump(s).result.None?
    ensures Pump(s).acked == s.acked && Pump(s).next >= s.next && Pump(s).buf == s.buf
    decreases Total(|s.buf|) - s.next
  {
    if !(s.failed || s.next >= Total(|s.buf|) || WindowFull(s)) {
      SendOneKeepsInv(s);
      PumpKeepsInv(SendOne(s));
    }
  }

  lemma ChunkedKeepsInv(s: Send)
    requires Inv(s) && s.stage == Sending && s.result.None?
    ensures Inv(Chunked(s)) && Chunked(s).next >= s.next && Chunked(s).acked == s.acked
  {
    PumpKeepsInv(s);
    SubsetSize(s.acked, Range(Total(|s.buf|)));
  }

  lemma AckKeepsInv(s: Send, q: int)
    requires Inv(s) && s.stage != Offering && 0 <= q < Total(|s.buf|)
    ensures Inv(s.(acked := s.acked + {q}))
  {
    if s.stage == Completing { assert s.acked + {q} == s.acked; }
    SubsetSize(s.acked, s.acked + {q});
  }

  lemma ResumeKeepsInv(s: Send)
    requires Inv(s)
    ensures Inv(Resumed(s)) && Resumed(s).next >= s.next && Resumed(s).acked == s.acked
  {
    if s.result.None? && s.stage == Offering && s.accept == Yes {
      ChunkedKeepsInv(s.(stage := Sending));
    } else if s.result.None? && s.stage == Sending {
      ChunkedKeepsInv(s);
    }
  }

  lemma SignalKeepsInv(s: Send, e: Signal)
    requires Inv(s)
    ensures Inv(On(s, e))
  {
    match e
    case Ack(q) =>
      if s.stage != Offering && q.Some? && 0 <= q.value < Total(|s.buf|) { AckKeepsInv(s, q.value); }
    case Resume => ResumeKeepsInv(s);
    case _ =>
  }

  lemma {:induction false} RunKeepsInv(buf: Bytes, es: seq<Signal>)
    ensures Inv(Run(buf, es)) && Run(buf, es).buf == buf
    decreases |es|
  {
    if es != [] {
      RunKeepsInv(buf, es[..|es| - 1]);
      SignalKeepsInv(Run(buf, es[..|es| - 1]), es[|es| - 1]);
      KeepsBuf(Run(buf, es[..|es| - 1]), es[|es| - 1]);
    }
  }

  lemma {:induction false} PumpKeepsBuf(s: Send)
    ensures Pump(s).buf == s.buf
    decreases Total(|s.buf|) - s.next
  {
    if !(s.failed || s.next >= Total(|s.buf|) || WindowFull(s)) {
      PumpKeepsBuf(SendOne(s));
    }
  }

  lemma KeepsBuf(s: Send, e: Signal)
    ensures On(s, e).buf == s.buf
  {
    PumpKeepsBuf(s);
    PumpKeepsBuf(s.(stage := Sending));
  }

  /** Acks name only chunks that were sent. */
  predicate HonestAcks(buf: Bytes, es: seq<Signal>)
    decreases |es|
  {
    es == [] ||
    var before := Run(buf, es[..|es| - 1]);
    (HonestAcks(buf, es[..|es| - 1]) &&
     match es[|es| - 1]
     case Ack(q) => q.Some? && 0 <= q.value < Total(|buf|) ==> q.value < before.next
     case _ => true)
  }

  lemma {:induction false} AckedWereSent(buf: Bytes, es: seq<Signal>)
    requires HonestAcks(buf, es)
    ensures forall a :: a in Run(buf, es).acked ==> 0 <= a < Run(buf, es).next
    decreases |es|
  {
    if es != [] {
      var s := Run(buf, es[..|es| - 1]);
      RunKeepsInv(buf, es[..|es| - 1]);
      AckedWereSent(buf, es[..|es| - 1]);
      OnlyAcksAck(s, es[|es| - 1]);
    }
  }

  lemma OnlyAcksAck(s: Send, e: Signal)
    requires Inv(s)
    ensures On(s, e).next >= s.next
    ensures On(s, e).acked <= s.acked + if e.Ack? && e.seqNo.Some? && 0 <= e.seqNo.value < Total(|s.buf|) then {e.seqNo.value} else {}
  {
    if e == Resume { ResumeKeepsInv(s); }
  }

  /** With honest acks, at most one window of sent chunks is unacknowledged at any point of any run. */
  lemma WindowHolds(buf: Bytes, es: seq<Signal>)
    requires HonestAcks(buf, es)
    ensures |Range(Run(buf, es).next) - Run(buf, es).acked| <= 8
  {
    var s := Run(buf, es);
    RunKeepsInv(buf, es);
    AckedWereSent(buf, es);
    assert Range(s.next) == (Range(s.next) - s.acked) + s.acked;
    assert |Range(s.next)| == |Range(s.next) - s.acked| + |s.acked|;
  }

  /** true is returned only after every chunk was sent in order, every one acked, and the receipt came. */
  lemma TrueMeansConfirmed(buf: Bytes, es: seq<Signal>)
    requires Run(buf, es).result == Some(true)
    ensures var s := Run(buf, es); var total := Total(|buf|);
      && |s.log| == total + 2 && s.log[0] == FileOffer(total) && s.log[total + 1] == FileComplete
      && (forall i :: 0 <= i < total ==> s.log[i + 1] == FileChunk(i, Slice(buf, i)))
      && (forall i :: i in s.acked <==> 0 <= i < total)
      && exists k :: 0 <= k < |es| && es[k] == Received && Run(buf, es[..k]).stage == Completing
  {
    RunKeepsInv(buf, es);
    ReceiptCame(buf, es);
  }

  lemma {:induction false} ReceiptCame(buf: Bytes, es: seq<Signal>)
    requires Run(buf, es).receipt == Yes
    ensures exists k :: 0 <= k < |es| && es[k] == Received && Run(buf, es[..k]).stage == Completing
    decreases |es|
  {
    var n := |es| - 1;
    var before := es[..n];
    var s := Run(buf, before);
    RunKeepsInv(buf, before);
    if s.receipt == Yes {
      ReceiptCame(buf, before);
      var k :| 0 <= k < |before| && before[k] == Received && Run(buf, before[..k]).stage == Completing;
      assert es[k] == Received && es[..k] == before[..k];
    } else {
      OnlyReceiptsConfirm(s, es[n]);
      assert es[n] == Received && Run(buf, es[..n]).stage == Completing;
    }
  }

  lemma {:induction false} PumpKeepsReceipt(s: Send)
    ensures Pump(s).receipt == s.receipt
    decreases Total(|s.buf|) - s.next
  {
    if !(s.failed || s.next >= Total(|s.buf|) || WindowFull(s)) {
      PumpKeepsReceipt(SendOne(s));
    }
  }

  lemma OnlyReceiptsConfirm(s: Send, e: Signal)
    requires s.receipt != Yes && On(s, e).receipt == Yes
    ensures e == Received && s.stage == Completing
  {
    PumpKeepsReceipt(s);
    PumpKeepsReceipt(s.(stage := Sending));
  }

  /** Once everything sent is acked and nothing failed, the sender moves on: more chunks, or the completion. */
  lemma AckedMeansProgress(s: Send)
    requires Inv(s) && s.stage == Sending && s.result.None? && !s.failed && s.acked == Range(s.next)
    ensures On(s, Resume).stage == Completing || On(s, Resume).next > s.next
  {
    assert |s.acked| == s.next && !WindowFull(s);
    if s.next < Total(|s.buf|) {
      SendOneKeepsInv(s);
      PumpKeepsInv(SendOne(s));
    }
  }

  lemma {:induction false} PumpStops(s: Send)
    ensures var t := Pump(s); (t.failed || t.next >= Total(|t.buf|) || WindowFull(t)) && t.acked == s.acked
    decreases Total(|s.buf|) - s.next
  {
    if !(s.failed || s.next >= Total(|s.buf|) || WindowFull(s)) { PumpStops(SendOne(s)); }
  }

  /** A sender that waits has all chunks out or exactly eight unacknowledged, and all of them out if fewer
      than eight are left; it completes as soon as every chunk is acked. */
  lemma WaitsOnlyForAcks(s: Send)
    requires Inv(s) && s.stage == Sending && s.result.None? && !s.failed
    ensures var t := On(s, Resume);
      if t.stage == Completing then |s.acked| == Total(|s.buf|)
      else t.stage == Sending && t.result.None? && |s.acked| < Total(|s.buf|)
           && (t.next == Total(|s.buf|) || t.next - |s.acked| == 8)
  {
    PumpStops(s);
    PumpKeepsInv(s);
    PumpKeepsFailure(s);
    SubsetSize(s.acked, Range(Total(|s.buf|)));
  }

  lemma {:induction false} PumpKeepsFailure(s: Send)
    ensures Pump(s).failed == s.failed
    decreases Total(|s.buf|) - s.next
  {
    if !(s.failed || s.next >= Total(|s.buf|) || WindowFull(s)) { PumpKeepsFailure(SendOne(s)); }
  }

  /** What ends a transfer at this stage. */
  predicate Fatal(s: Send, e: Signal) {
    match s.stage
    case Offering => s.accept == Open && (e == AcceptTimeout || e == Refused)
    case Sending => e == AckTimeout || e == Refused || e == SendFailed
    case Completing => s.receipt == Open && (e == ReceiptTimeout || e == Refused || e == SendFailed)
  }

  /** An offer that times out or is refused, a chunk or receipt that times out, a later refusal and a failed
      relay all end the call with false; what it returned it keeps.  A refused offer is forgotten, and no message
      moves a forgotten transfer. */
  lemma FailureMeansFalse(s: Send, e: Signal)
    ensures s.listed && s.result.None? && Fatal(s, e) ==>
      On(On(s, e), Resume).result == Some(false) && !On(On(s, e), Resume).listed && On(On(s, e), Resume).log == s.log
    ensures s.result.Some? ==> On(s, e).result == s.result
    ensures s.listed && s.stage == Offering && e == Refused ==> !On(s, e).listed
    ensures !s.listed && (e.Accepted? || e.Refused? || e.SendFailed? || e.Received? || e.Ack?) ==> On(s, e) == s
  {
    if s.stage.Sending? && s.listed && s.result.None? && Fatal(s, e) { PumpDone(On(s, e)); }
  }

  /** Once the offer is accepted the first eight chunks, or all if there are fewer, go out at once. */
  lemma AcceptedStarts(buf: Bytes)
    ensures var s := On(On(Begin(buf), Accepted), Resume);
      s.stage == Sending && s.next == Min(8, Total(|buf|)) && s.log == FullLog(buf, s.next, false)
  {
    PumpStops(Begin(buf).(accept := Yes, stage := Sending));
    RunKeepsInv(buf, [Accepted, Resume]);
    assert [Accepted, Resume][..1] == [Accepted] && [Accepted][..0] == [];
    assert Run(buf, [Accepted]) == On(Begin(buf), Accepted);
    WaitsOnlyForAcks(Begin(buf).(accept := Yes, stage := Sending));
  }

  // ---- Sender and receiver together ----

  /** What the wire may hand the receiver for a logged chunk. */
  function Carried(o: Out): Chunk
    requires o.FileChunk?
  {
    Chunk(Some(o.seqNo), Some(Base64(o.data)))
  }

  predicate FromLog(log: seq<Out>, c: Chunk) {
    exists k :: 0 <= k < |log| && log[k].FileChunk? && Carried(log[k]) == c
  }

  lemma LoggedIsHonest(buf: Bytes, n: nat, complete: bool, c: Chunk)
    requires FromLog(FullLog(buf, n, complete), c)
    ensures Honest(buf, c)
  {
    var log := FullLog(buf, n, complete);
    var k :| 0 <= k < |log| && log[k].FileChunk? && Carried(log[k]) == c;
    assert log[k] == ChunkLog(buf, n)[k - 1];
  }

  /** How the offer sends the file: as it is, or sealed, with what opens under the offered key. */
  datatype Wrapping = Wrapping(sealed: bool, open: Bytes -> Option<Bytes>)

  /** buf on the wire stands for the file plain. */
  ghost predicate Carries(how: Wrapping, buf: Bytes, plain: Bytes) {
    if how.sealed then OpensOnly(how.open, buf, plain) else buf == plain
  }

  /**
   Whatever the sender's run, if a receiver with a slot free gets its offer and then only chunks the sender
   put on the wire, in any order and number, it renders the file, sealed or not, if it has every index
   and nothing otherwise.
   */
  lemma EndToEnd(how: Wrapping, plain: Bytes, buf: Bytes, es: seq<Signal>, files: map<string, Incoming>, id: string, cs: seq<Chunk>)
    requires Carries(how, buf, plain) && forall c :: c in cs ==> FromLog(Run(buf, es).log, c)
    requires |files| < 8 && |buf| <= (if how.sealed then 26214416 else 26214400)
    ensures var after := After(files, Offers(OfferOf(id, buf, how.sealed)));
      id in after && |after[id].chunks| == after[id].total
    ensures var total := Total(|buf|); var rec := After(files, Offers(OfferOf(id, buf, how.sealed)))[id];
      AfterOpening(Completed(ArriveAll(rec, cs)), how.open) ==
      if forall i :: 0 <= i < total ==> Covers(cs, total, i) then Rendered(plain) else Incomplete
  {
    RunKeepsInv(buf, es);
    OwnOfferAccepted(files, id, buf, how.sealed);
    var s := Run(buf, es);
    forall c | c in cs ensures Honest(buf, c) {
      LoggedIsHonest(buf, s.next, s.stage == Completing, c);
    }
    DeliveryIsExact(buf, how.sealed, cs);
  }

  // ---- Joint runs ----

  /** The sender of transfer id, how it wrapped the file, all the receiver's transfers, the sealed copies of
      this file it is opening, and what it rendered of it. */
  datatype Both = Both(id: string, s: Send, how: Wrapping, files: map<string, Incoming>, opening: seq<Bytes>, rendered: Option<Bytes>)

  function Start(id: string, buf: Bytes, how: Wrapping, files: map<string, Incoming>): Both {
    Both(id, Begin(buf), how, files, [], None)
  }

  datatype Move = AtSender(e: Signal) | AtReceiver(v: Event) | OpeningSettles(i: nat)

  /**
   Under this id the receiver may get the sender's offer, chunks of the sender's wire and the completion at
   any time and repeatedly, lose any of them, and give up; under other ids anything.  A receipt comes
   only from a receiver that rendered the file.
   */
  ghost predicate Honestly(b: Both, m: Move) {
    match m
    case AtSender(e) => e == Received ==> b.rendered.Some?
    case AtReceiver(Offers(o)) => o.id == b.id ==> o == OfferOf(b.id, b.s.buf, b.how.sealed)
    case AtReceiver(Chunks(id, c)) => id == b.id ==> FromLog(b.s.log, c)
    case AtReceiver(_) => true
    case OpeningSettles(i) => i < |b.opening|
  }

  /** What a completion hands on: a plain file is rendered, a sealed one is opened. */
  function HandedOn(b: Both, o: Outcome): Both {
    match o
    case Rendered(bs) => b.(rendered := Some(bs))
    case ToOpen(bs) => b.(opening := b.opening + [bs])
    case _ => b
  }

  function Moved(b: Both, m: Move): Both {
    match m
    case AtSender(e) => b.(s := On(b.s, e))
    case AtReceiver(v) =>
      var c := if v == Completes(b.id) then HandedOn(b, Outcomes(b.files, b.id)) else b;
      c.(files := After(b.files, v))
    case OpeningSettles(i) =>
      if i >= |b.opening| then b
      else
        HandedOn(b.(opening := b.opening[..i] + b.opening[i + 1..]), AfterOpening(ToOpen(b.opening[i]), b.how.open))
  }

  ghost predicate JointRun(b: Both, ms: seq<Move>)
    decreases |ms|
  {
    ms == [] || (Honestly(b, ms[0]) && JointRun(Moved(b, ms[0]), ms[1..]))
  }

  function JointEnd(b: Both, ms: seq<Move>): Both
    decreases |ms|
  {
    if ms == [] then b else JointEnd(Moved(b, ms[0]), ms[1..])
  }

  /** The receiver has nothing but chunks of this file in their places. */
  predicate OfFile(buf: Bytes, sealed: bool, rec: Incoming) {
    && Sound(rec) && rec.total == Total(|buf|) && rec.sealed == sealed
    && forall i :: 0 <= i < rec.total ==> rec.chunks[i].None? || rec.chunks[i] == Some(Base64(Slice(buf, i)))
  }

  ghost predicate JointInv(b: Both, plain: Bytes) {
    && Inv(b.s) && Carries(b.how, b.s.buf, plain) && Bounded(b.files)
    && (b.id in b.files ==> OfFile(b.s.buf, b.how.sealed, b.files[b.id]))
    && (forall bs :: bs in b.opening ==> b.how.sealed && bs == b.s.buf)
    && (b.rendered.Some? ==> b.rendered.value == plain)
    && (b.s.receipt == Yes ==> b.rendered.Some?)
  }

  lemma OfFileCompletes(buf: Bytes, sealed: bool, rec: Incoming)
    requires OfFile(buf, sealed, rec)
    ensures Completed(rec) == Incomplete || Completed(rec) == if sealed then ToOpen(buf) else Rendered(buf)
  {
    FilledAll(rec.chunks);
    if rec.received == rec.total {
      SlicesJoin(buf, rec.chunks);
      assert buf[..|buf|] == buf;
    }
  }

  lemma OfFileArrives(buf: Bytes, sealed: bool, rec: Incoming, c: Chunk)
    requires OfFile(buf, sealed, rec) && Honest(buf, c)
    ensures OfFile(buf, sealed, Arrive(rec, c))
  {
    ArriveKeepsSound(rec, c);
  }

  lemma SenderMoveKeepsJoint(b: Both, plain: Bytes, e: Signal)
    requires JointInv(b, plain) && Honestly(b, AtSender(e))
    ensures JointInv(Moved(b, AtSender(e)), plain)
  {
    SignalKeepsInv(b.s, e);
    KeepsBuf(b.s, e);
    if b.s.receipt != Yes && On(b.s, e).receipt == Yes { OnlyReceiptsConfirm(b.s, e); }
  }

  lemma SettleKeepsJoint(b: Both, plain: Bytes, i: nat)
    requires JointInv(b, plain) && i < |b.opening|
    ensures JointInv(Moved(b, OpeningSettles(i)), plain)
  {
    assert b.opening[i] in b.opening;
    var rest := b.opening[..i] + b.opening[i + 1..];
    forall bs | bs in rest ensures bs in b.opening {
      if bs in b.opening[..i] {} else { assert bs in b.opening[i + 1..]; }
    }
  }

  /** An event keeps what is held of the file to chunks of it. */
  lemma EventKeepsOfFile(files: map<string, Incoming>, id: string, buf: Bytes, sealed: bool, v: Event)
    requires id in files ==> OfFile(buf, sealed, files[id])
    requires v.Offers? && v.o.id == id ==> v.o == OfferOf(id, buf, sealed)
    requires v.Chunks? && v.id == id ==> Honest(buf, v.c)
    ensures id in After(files, v) ==> OfFile(buf, sealed, After(files, v)[id])
  {
    match v
    case Offers(o) => OpenedIsSound(Total(|buf|), sealed);
    case Chunks(other, c) => if other == id && id in files { OfFileArrives(buf, sealed, files[id], c); }
    case _ =>
  }

  lemma EventKeepsJoint(b: Both, plain: Bytes, v: Event)
    requires JointInv(b, plain) && Honestly(b, AtReceiver(v))
    ensures JointInv(Moved(b, AtReceiver(v)), plain)
  {
    if v.Chunks? && v.id == b.id { LoggedIsHonest(b.s.buf, b.s.next, b.s.stage == Completing, v.c); }
    FilesKeepJoint(b, plain, v);
    if v == Completes(b.id) { HandingOnKeepsJoint(b, plain, After(b.files, v)); }
  }

  lemma FilesKeepJoint(b: Both, plain: Bytes, v: Event)
    requires JointInv(b, plain)
    requires v.Offers? && v.o.id == b.id ==> v.o == OfferOf(b.id, b.s.buf, b.how.sealed)
    requires v.Chunks? && v.id == b.id ==> Honest(b.s.buf, v.c)
    ensures JointInv(b.(files := After(b.files, v)), plain)
  {
    EventKeepsBounds(b.files, v);
    EventKeepsOfFile(b.files, b.id, b.s.buf, b.how.sealed, v);
  }

  lemma HandingOnKeepsJoint(b: Both, plain: Bytes, files: map<string, Incoming>)
    requires JointInv(b, plain) && JointInv(b.(files := files), plain)
    ensures JointInv(HandedOn(b, Outcomes(b.files, b.id)).(files := files), plain)
  {
    if b.id in b.files { OfFileCompletes(b.s.buf, b.how.sealed, b.files[b.id]); }
  }

  lemma MoveKeepsJoint(b: Both, plain: Bytes, m: Move)
    requires JointInv(b, plain) && Honestly(b, m)
    ensures JointInv(Moved(b, m), plain)
  {
    match m
    case AtSender(e) => SenderMoveKeepsJoint(b, plain, e);
    case AtReceiver(v) => EventKeepsJoint(b, plain, v);
    case OpeningSettles(i) => SettleKeepsJoint(b, plain, i);
  }

  lemma {:induction false} JointRunKeeps(b: Both, plain: Bytes, ms: seq<Move>)
    requires JointInv(b, plain) && JointRun(b, ms)
    ensures JointInv(JointEnd(b, ms), plain)
    decreases |ms|
  {
    if ms != [] {
      MoveKeepsJoint(b, plain, ms[0]);
      JointRunKeeps(Moved(b, ms[0]), plain, ms[1..]);
    }
  }

  /**
   Over every joint run from a receiver with any transfers of other ids, of a sealed file or a plain one,
   however signals, timeouts, lost and repeated messages, other transfers and restarts of the receiver
   interleave: the receiver never renders anything but the file, and when the sender's call returns
   true it has rendered it.
   */
  lemma TrueMeansRendered(id: string, how: Wrapping, plain: Bytes, buf: Bytes, files: map<string, Incoming>, ms: seq<Move>)
    requires Carries(how, buf, plain) && Bounded(files) && id !in files && JointRun(Start(id, buf, how, files), ms)
    ensures var b := JointEnd(Start(id, buf, how, files), ms);
      && (b.rendered.Some? ==> b.rendered == Some(plain))
      && (b.s.result == Some(true) ==> b.rendered == Some(plain))
  {
    JointRunKeeps(Start(id, buf, how, files), plain, ms);
  }

  // ---- A run that succeeds ----

  /** The sender once chunks 0..i-1 are acked: a full window ahead, or at the completion. */
  function SentTo(buf: Bytes, i: nat): Send
    requires i <= Total(|buf|)
  {
    var total := Total(|buf|);
    var next := Min(i + CHUNK_WINDOW, total);
    Send(buf, if i == total then Completing else Sending, Yes, Open, true, next, Range(i), false, None, FullLog(buf, next, i == total))
  }

  /** The record once chunks 0..i-1 arrived. */
  function GotTo(buf: Bytes, sealed: bool, i: nat): Incoming
    requires i <= Total(|buf|)
  {
    var total := Total(|buf|);
    Incoming(total, seq(total, k requires 0 <= k < total => if k < i then Some(Base64(Slice(buf, k))) else None), i, sealed, true)
  }

  lemma {:induction false} PumpFills(s: Send, i: nat)
    requires s.acked == Range(i) && i <= s.next <= Min(i + CHUNK_WINDOW, Total(|s.buf|)) && !s.failed
    requires s.log == FullLog(s.buf, s.next, false)
    ensures var to := Min(i + CHUNK_WINDOW, Total(|s.buf|)); Pump(s) == s.(next := to, log := FullLog(s.buf, to, false))
    decreases Total(|s.buf|) - s.next
  {
    if s.next < Min(i + CHUNK_WINDOW, Total(|s.buf|)) {
      PumpStep(s);
      ChunkLogGrows(s.buf, s.next);
      assert SendOne(s) == s.(next := s.next + 1, log := FullLog(s.buf, s.next + 1, false));
      PumpFills(SendOne(s), i);
    } else {
      PumpDone(s);
    }
  }

  /** From its acceptance or its last ack the sender runs on to its next waiting point. */
  lemma ResumeFills(s: Send, i: nat)
    requires i <= Total(|s.buf|) && s.acked == Range(i) && !s.failed && s.accept == Yes && s.result.None?
    requires s.receipt == Open && s.listed && s.stage != Completing
    requires i <= s.next <= Min(i + CHUNK_WINDOW, Total(|s.buf|)) && s.log == FullLog(s.buf, s.next, false)
    ensures Resumed(s) == SentTo(s.buf, i)
  {
    PumpFills(s.(stage := Sending), i);
    assert FullLog(s.buf, Total(|s.buf|), false) + [FileComplete] == FullLog(s.buf, Total(|s.buf|), true);
  }

  lemma ArriveNext(buf: Bytes, sealed: bool, i: nat)
    requires i < Total(|buf|)
    ensures Arrive(GotTo(buf, sealed, i), Chunk(Some(i), Some(Base64(Slice(buf, i))))) == GotTo(buf, sealed, i + 1)
  {
    assert GotTo(buf, sealed, i).chunks[i := Some(Base64(Slice(buf, i)))] == GotTo(buf, sealed, i + 1).chunks;
  }

  /** The two once chunks 0..i-1 arrived and were acked. */
  function Halfway(id: string, buf: Bytes, how: Wrapping, files: map<string, Incoming>, i: nat): Both
    requires i <= Total(|buf|)
  {
    Both(id, SentTo(buf, i), how, files[id := GotTo(buf, how.sealed, i)], [], None)
  }

  function Opens(id: string, buf: Bytes, how: Wrapping): seq<Move> {
    [AtReceiver(Offers(OfferOf(id, buf, how.sealed))), AtSender(Accepted), AtSender(Resume)]
  }

  function Passes(id: string, buf: Bytes, i: nat): seq<Move> {
    [AtReceiver(Chunks(id, Chunk(Some(i), Some(Base64(Slice(buf, i)))))), AtSender(Ack(Some(i))), AtSender(Resume)]
  }

  function Closes(id: string, sealed: bool): seq<Move> {
    [AtReceiver(Completes(id))] + (if sealed then [OpeningSettles(0)] else []) + [AtSender(Received), AtSender(Resume)]
  }

  function From(id: string, buf: Bytes, sealed: bool, i: nat): seq<Move>
    requires i <= Total(|buf|)
    decreases Total(|buf|) - i
  {
    if i == Total(|buf|) then Closes(id, sealed) else Passes(id, buf, i) + From(id, buf, sealed, i + 1)
  }

  lemma OneMove(b: Both, m: Move, rest: seq<Move>)
    ensures JointEnd(b, [m] + rest) == JointEnd(Moved(b, m), rest)
    ensures JointRun(b, [m] + rest) <==> Honestly(b, m) && JointRun(Moved(b, m), rest)
  {
    assert ([m] + rest)[1..] == rest;
  }

  /** Three moves lead from b to c. */
  ghost predicate Leads(b: Both, ms: seq<Move>, c: Both) {
    && |ms| == 3 && Honestly(b, ms[0]) && Honestly(Moved(b, ms[0]), ms[1]) && Honestly(Moved(Moved(b, ms[0]), ms[1]), ms[2])
    && c == Moved(Moved(Moved(b, ms[0]), ms[1]), ms[2])
  }

  lemma ThreeMoves(b: Both, ms: seq<Move>, c: Both, rest: seq<Move>)
    requires Leads(b, ms, c) && JointRun(c, rest)
    ensures JointRun(b, ms + rest) && JointEnd(b, ms + rest) == JointEnd(c, rest)
  {
    assert ms + rest == [ms[0]] + ([ms[1]] + ([ms[2]] + rest));
    OneMove(b, ms[0], [ms[1]] + ([ms[2]] + rest));
    OneMove(Moved(b, ms[0]), ms[1], [ms[2]] + rest);
    OneMove(Moved(Moved(b, ms[0]), ms[1]), ms[2], rest);
  }

  /** Chunk i is on the wire and takes its place. */
  lemma ChunkPasses(id: string, buf: Bytes, how: Wrapping, files: map<string, Incoming>, i: nat)
    requires i < Total(|buf|)
    ensures var b := Halfway(id, buf, how, files, i); var m := Passes(id, buf, i)[0];
      Honestly(b, m) && Moved(b, m) == b.(files := files[id := GotTo(buf, how.sealed, i + 1)])
  {
    var b, m := Halfway(id, buf, how, files, i), Passes(id, buf, i)[0];
    assert b.s.log[i + 1] == FileChunk(i, Slice(buf, i)) && Carried(b.s.log[i + 1]) == m.v.c;
    ArriveNext(buf, how.sealed, i);
    assert b.files[id := GotTo(buf, how.sealed, i + 1)] == files[id := GotTo(buf, how.sealed, i + 1)];
  }

  lemma AckCounts(buf: Bytes, i: nat)
    requires i < Total(|buf|)
    ensures On(SentTo(buf, i), Ack(Some(i))) == SentTo(buf, i).(acked := Range(i + 1))
  {
    assert Range(i) + {i as int} == Range(i + 1);
  }

  lemma AckPasses(buf: Bytes, i: nat)
    requires i < Total(|buf|)
    ensures Resumed(On(SentTo(buf, i), Ack(Some(i)))) == SentTo(buf, i + 1)
  {
    AckCounts(buf, i);
    var s := SentTo(buf, i).(acked := Range(i + 1));
    assert s.buf == buf && i + 1 <= s.next <= Min(i + 1 + CHUNK_WINDOW, Total(|buf|));
    assert s.log == FullLog(buf, s.next, false);
    ResumeFills(s, i + 1);
  }

  lemma PassesOn(id: string, buf: Bytes, how: Wrapping, files: map<string, Incoming>, i: nat)
    requires i < Total(|buf|)
    ensures Leads(Halfway(id, buf, how, files, i), Passes(id, buf, i), Halfway(id, buf, how, files, i + 1))
  {
    ChunkPasses(id, buf, how, files, i);
    AckPasses(buf, i);
  }

  lemma OpensUp(id: string, buf: Bytes, how: Wrapping, files: map<string, Incoming>)
    requires |files| < 8 && |buf| <= (if how.sealed then 26214416 else 26214400)
    ensures Leads(Start(id, buf, how, files), Opens(id, buf, how), Halfway(id, buf, how, files, 0))
  {
    OwnOfferAccepted(files, id, buf, how.sealed);
    assert Opened(Total(|buf|), how.sealed) == GotTo(buf, how.sealed, 0);
    assert Begin(buf).log == FullLog(buf, 0, false);
    ResumeFills(Begin(buf).(accept := Yes), 0);
  }

  lemma FullIsComplete(buf: Bytes, sealed: bool)
    ensures Completed(GotTo(buf, sealed, Total(|buf|))) == if sealed then ToOpen(buf) else Rendered(buf)
  {
    SlicesJoin(buf, GotTo(buf, sealed, Total(|buf|)).chunks);
    assert buf[..|buf|] == buf;
  }

  /** These moves can happen, and lead to the file rendered, the slot free and true returned. */
  ghost predicate Succeeds(b: Both, plain: Bytes, ms: seq<Move>) {
    && JointRun(b, ms)
    && JointEnd(b, ms).s.result == Some(true) && JointEnd(b, ms).rendered == Some(plain) && b.id !in JointEnd(b, ms).files
  }

  /** The end: completion, opening if sealed, receipt. */
  lemma ClosesDown(id: string, plain: Bytes, buf: Bytes, how: Wrapping, files: map<string, Incoming>)
    requires Carries(how, buf, plain)
    ensures Succeeds(Halfway(id, buf, how, files, Total(|buf|)), plain, Closes(id, how.sealed))
  {
    var b := Halfway(id, buf, how, files, Total(|buf|));
    CompleteHandsOn(id, buf, how, files);
    var b1 := Moved(b, AtReceiver(Completes(id)));
    var last := [AtSender(Received), AtSender(Resume)];
    if how.sealed {
      OpeningRenders(b1, plain);
      ConfirmsTo(Moved(b1, OpeningSettles(0)), plain);
      SucceedsThen(b1, OpeningSettles(0), plain, last);
      SucceedsThen(b, AtReceiver(Completes(id)), plain, [OpeningSettles(0)] + last);
      assert Closes(id, true) == [AtReceiver(Completes(id))] + ([OpeningSettles(0)] + last);
    } else {
      ConfirmsTo(b1, plain);
      SucceedsThen(b, AtReceiver(Completes(id)), plain, last);
      assert Closes(id, false) == [AtReceiver(Completes(id))] + last;
    }
  }

  lemma CompleteHandsOn(id: string, buf: Bytes, how: Wrapping, files: map<string, Incoming>)
    ensures var b := Halfway(id, buf, how, files, Total(|buf|)); var c := Moved(b, AtReceiver(Completes(id)));
      && c.id == id && c.s == b.s && c.how == how && id !in c.files
      && (if how.sealed then c.opening == [buf] && c.rendered == None else c.rendered == Some(buf))
  {
    FullIsComplete(buf, how.sealed);
  }

  lemma OpeningRenders(b: Both, plain: Bytes)
    requires |b.opening| == 1 && b.how.open(b.opening[0]) == Some(plain)
    ensures var c := Moved(b, OpeningSettles(0)); c.rendered == Some(plain) && c.s == b.s && c.files == b.files && c.id == b.id
  {
  }

  lemma SucceedsThen(b: Both, m: Move, plain: Bytes, rest: seq<Move>)
    requires Honestly(b, m) && Moved(b, m).id == b.id && Succeeds(Moved(b, m), plain, rest)
    ensures Succeeds(b, plain, [m] + rest)
  {
    OneMove(b, m, rest);
  }

  lemma ConfirmsTo(b: Both, plain: Bytes)
    requires b.rendered == Some(plain) && b.id !in b.files
    requires b.s.stage == Completing && b.s.receipt == Open && b.s.listed && b.s.result.None?
    ensures Succeeds(b, plain, [AtSender(Received), AtSender(Resume)])
  {
    Confirms(b);
  }

  lemma Confirms(b: Both)
    requires b.rendered.Some? && b.s.stage == Completing && b.s.receipt == Open && b.s.listed && b.s.result.None?
    ensures var ms := [AtSender(Received), AtSender(Resume)];
      && JointRun(b, ms) && JointEnd(b, ms).s.result == Some(true)
      && JointEnd(b, ms).rendered == b.rendered && JointEnd(b, ms).files == b.files
  {
    OneMove(b, AtSender(Received), [AtSender(Resume)]);
    OneMove(Moved(b, AtSender(Received)), AtSender(Resume), []);
    assert [AtSender(Received)] + [AtSender(Resume)] == [AtSender(Received), AtSender(Resume)];
    assert [AtSender(Resume)] + [] == [AtSender(Resume)];
  }

  lemma SucceedsLater(b: Both, ms: seq<Move>, c: Both, plain: Bytes, rest: seq<Move>)
    requires Leads(b, ms, c) && b.id == c.id && Succeeds(c, plain, rest)
    ensures Succeeds(b, plain, ms + rest)
  {
    ThreeMoves(b, ms, c, rest);
  }

  lemma FromNext(id: string, buf: Bytes, sealed: bool, i: nat)
    requires i < Total(|buf|)
    ensures From(id, buf, sealed, i) == Passes(id, buf, i) + From(id, buf, sealed, i + 1)
  {
  }

  lemma FromLast(id: string, buf: Bytes, sealed: bool)
    ensures From(id, buf, sealed, Total(|buf|)) == Closes(id, sealed)
  {
  }

  lemma {:induction false} RunsOn(id: string, plain: Bytes, buf: Bytes, how: Wrapping, files: map<string, Incoming>, i: nat)
    requires Carries(how, buf, plain) && i <= Total(|buf|)
    ensures Succeeds(Halfway(id, buf, how, files, i), plain, From(id, buf, how.sealed, i))
    decreases Total(|buf|) - i
  {
    if i == Total(|buf|) {
      ClosesDown(id, plain, buf, how, files);
      FromLast(id, buf, how.sealed);
    } else {
      RunsOn(id, plain, buf, how, files, i + 1);
      PassesOn(id, buf, how, files, i);
      FromNext(id, buf, how.sealed, i);
      SucceedsLater(Halfway(id, buf, how, files, i), Passes(id, buf, i), Halfway(id, buf, how, files, i + 1), plain,
                    From(id, buf, how.sealed, i + 1));
    }
  }

  /**
   Every file up to the limit, sealed or not, can be sent to a receiver with a slot free: there is a run, the
   sender's window and the receiver's checks included, after which the receiver rendered the file and
   freed the slot and the sender's call returned true.
   */
  lemma TransferCanSucceed(id: string, how: Wrapping, plain: Bytes, buf: Bytes, files: map<string, Incoming>)
    returns (ms: seq<Move>)
    requires Carries(how, buf, plain) && |files| < 8 && |buf| <= (if how.sealed then 26214416 else 26214400)
    ensures JointRun(Start(id, buf, how, files), ms)
    ensures var b := JointEnd(Start(id, buf, how, files), ms);
      b.s.result == Some(true) && b.rendered == Some(plain) && id !in b.files
  {
    ms := Opens(id, buf, how) + From(id, buf, how.sealed, 0);
    OpensUp(id, buf, how, files);
    RunsOn(id, plain, buf, how, files, 0);
    SucceedsLater(Start(id, buf, how, files), Opens(id, buf, how), Halfway(id, buf, how, files, 0), plain,
                  From(id, buf, how.sealed, 0));
  }

  // ---- The sender's record ----

  class Transfer {
    const buf: Bytes
    var stage: Stage
    var accept: Answer
    var receipt: Answer
    var listed: bool
    var next: nat
    var acked: set<int>
    var failed: bool
    var result: Option<bool>
    var log: seq<Out>

    ghost function View(): Send
      reads this
    {
      Send(buf, stage, accept, receipt, listed, next, acked, failed, result, log)
    }

    constructor (buf: Bytes)
      ensures View() == Begin(buf)
    {
      this.buf := buf;
      stage, accept, receipt, listed := Offering, Open, Open, true;
      next, acked, failed, result := 0, {}, false, None;
      log := [FileOffer(Total(|buf|))];
    }

    method HandleAccept()
      modifies this
      ensures View() == On(old(View()), Accepted)
    {
      if listed && accept == Open { accept := Yes; }
    }

    method OnFail()
      modifies this
      ensures View() == Fail(old(View()))
    {
      if stage == Sending {
        failed := true;
      } else if stage == Completing && receipt == Open {
        receipt := No;
      }
    }

    /** A reject, or word that the peer cannot be reached. */
    method HandleRefused()
      modifies this
      ensures View() == On(old(View()), Refused)
    {
      if !listed { return; }
      if stage != Offering {
        OnFail();
        return;
      }
      if accept == Open { accept := No; }
      listed := false;
    }

    method HandleSendFailed()
      modifies this
      ensures View() == On(old(View()), SendFailed)
    {
      if listed { OnFail(); }
    }

    method HandleChunkAck(seqNo: Option<int>)
      modifies this
      ensures View() == On(old(View()), Ack(seqNo))
    {
      if listed && stage != Offering && seqNo.Some? && 0 <= seqNo.value < Total(|buf|) {
        acked := acked + {seqNo.value};
      }
    }

    method HandleReceived()
      modifies this
      ensures View() == On(old(View()), Received)
    {
      if listed && stage == Completing && receipt == Open { receipt := Yes; }
    }

    method Timeout(e: Signal)
      requires e == AcceptTimeout || e == AckTimeout || e == ReceiptTimeout
      modifies this
      ensures View() == On(old(View()), e)
    {
      if e == AcceptTimeout {
        if accept == Open { accept := No; }
      } else if e == AckTimeout {
        if stage == Sending && result.None? { failed := true; }
      } else if stage == Completing && receipt == Open {
        receipt := No;
      }
    }

    /** Send chunks up to where the loop waits or gives up. */
    method SendWindow(total: nat)
      requires total == Total(|buf|)
      modifies this`log, this`next
      ensures View() == Pump(old(View()))
    {
      ghost var start := View();
      while !failed && next < total && next - |acked| < CHUNK_WINDOW
        invariant Pump(View()) == Pump(start)
        decreases total - next
      {
        ghost var before := View();
        PumpStep(before);
        log := log + [FileChunk(next, Slice(buf, next))];
        next := next + 1;
        assert View() == SendOne(before);
      }
      PumpDone(View());
    }

    method SendChunks()
      modifies this
      ensures View() == Chunked(old(View()))
    {
      var total := Total(|buf|);
      SendWindow(total);
      if failed {
        result, listed := Some(false), false;
        return;
      }
      if next < total || |acked| < total { return; }
      stage := Completing;
      log := log + [FileComplete];
    }

    /** The awaiting code runs on. */
    method Continue()
      modifies this
      ensures View() == On(old(View()), Resume)
    {
      if result.Some? { return; }
      match stage
      case Offering =>
        if accept == No {
          result, listed := Some(false), false;
        } else if accept == Yes {
          stage := Sending;
          SendChunks();
        }
      case Sending => SendChunks();
      case Completing =>
        if receipt != Open { result, listed := Some(receipt == Yes), false; }
    }
  }
}
