/**
 The per-peer operation queue (web/e2e.js:42-54).  Each call waits for the previous call
 of the same peer to settle, then runs; between any two of its steps anything else may
 run.  The steps are the stretches between awaits of loadRatchetState, saveRatchetState,
 _ratchetEncryptImpl, _ratchetDecryptImpl and hasRatchetSession.
 */
module Queue {
  import opened Prelude
  import opened Crypto
  import opened Ratchet
  import opened Storage

  /** pod is what the pod answers this call when asked for the peer's copies. */
  datatype Op =
    | SendOp(plain: string, peerKey: Option<Text>, newPriv: Priv, nonce: nat, fault: Fault, pod: Pod)
    | RecvOp(m: Msg, allowInit: bool, id: Priv, newPriv: Priv, saveFails: bool, pod: Pod)
    | HasOp(pod: Pod)

  datatype Outcome =
    | SentMsg(m: Msg) | Plain(text: string) | Has(session: bool)
    | SendFailed(e: SendError) | Rejected(r: Reject)

  /** One peer's cached session, its local copy, and the sessions handed to the pod writer. */
  datatype Cell = Cell(cache: Option<Session>, local: Option<Blob>, queued: seq<Session>)

  // ---- One operation, run without interruption ----

  /** loadRatchetState: the newest copy goes into the cache, and to the pod if the device copy is missing. */
  function LoadedCell(c: Cell, pod: Pod): Cell {
    if c.cache.Some? then c
    else
      var best := Newest(c.local, DeviceCopy(pod), LegacyCopy(pod));
      if best.None? then c
      else c.(cache := best, queued := if Migrates(pod) then c.queued + [best.value] else c.queued)
  }

  /** saveRatchetState, its blob encrypted. */
  function SavedCell(c: Cell, s: Session, pod: Pod): Cell {
    Cell(Some(s), Some(Stored(s)), if pod.signedIn then c.queued + [s] else c.queued)
  }

  function Whole(op: Op, c0: Cell): (Outcome, Cell) {
    match op
    case SendOp(plain, peerKey, newPriv, nonce, fault, pod) =>
      var c := LoadedCell(c0, pod);
      var e := Encrypt(c.cache, peerKey, newPriv, nonce, plain);
      if e.Err? then (SendFailed(e.error), c)
      else if fault.NoFault? then (SentMsg(e.value.1), SavedCell(c, e.value.0, pod))
      else
        var after := AfterBrokenSend(c.cache, peerKey, newPriv, fault);
        (SendFailed(Broken), c.(cache := if after.Some? then after else c.cache))
    case RecvOp(m, allowInit, id, newPriv, saveFails, pod) =>
      if BadHeader(m).Some? then (Rejected(BadHeader(m).value), c0)
      else
        var c := LoadedCell(c0, pod);
        var d := Decrypt(c.cache, id, newPriv, m, allowInit);
        if d.Err? then (Rejected(d.error), c)
        else if saveFails then (Rejected(TagFailure), c.(cache := Some(d.value.0)))
        else (Plain(d.value.1), SavedCell(c, d.value.0, pod))
    case HasOp(pod) =>
      var c := LoadedCell(c0, pod);
      (Has(c.cache.Some?), c)
  }

  // ---- The same operation, step by step ----

  /** Where an operation is suspended.  A send holds a session it has not cached yet, or
      none when it works on the live one. */
  datatype Point =
    | Waiting
    | Deciphering(stored: Option<Blob>)                      // the local copy
    | AskingDevice(best: Option<Blob>)
    | AskingShared(best: Option<Blob>, device: Option<Blob>)
    | Migrating(copy: Session)
    | Ready
    | Ratcheting(held: Option<Session>)
    | Advancing(held: Option<Session>, header: Session)
    | Sealing(held: Option<Session>, m: Msg)
    | Saving(held: Option<Session>, m: Msg)
    | Storing(blob: Session, m: Msg)
    | Selecting(seen: Option<Session>)
    | Opening(copy: Session, key: MsgKey)
    | Committing(copy: Session, text: string)
    | Recording(blob: Session, text: string)
    | Done(out: Outcome)

  function Rank(p: Point): nat {
    match p
    case Waiting => 11
    case Deciphering(_) => 10 case AskingDevice(_) => 9 case AskingShared(_, _) => 8 case Migrating(_) => 7
    case Ready => 6
    case Ratcheting(_) => 5 case Advancing(_, _) => 4 case Sealing(_, _) => 3
    case Saving(_, _) => 2 case Storing(_, _) => 1
    case Selecting(_) => 4 case Opening(_, _) => 3 case Committing(_, _) => 2 case Recording(_, _) => 1
    case Done(_) => 0
  }

  predicate AtLoad(p: Point) {
    p.Waiting? || p.Deciphering? || p.AskingDevice? || p.AskingShared? || p.Migrating?
  }

  /** loadRatchetState to its next await. */
  function LoadStep(p: Point, c: Cell, pod: Pod): (r: (Point, Cell))
    requires AtLoad(p)
    ensures Rank(r.0) < Rank(p)
  {
    match p
    case Deciphering(stored) => (AskingDevice(Readable(stored)), c)
    case AskingDevice(best) => (AskingShared(best, Readable(DeviceCopy(pod))), c)
    case AskingShared(best, device) =>
      var b := Newer(best, if device.Some? then device else Readable(LegacyCopy(pod)));
      if b.None? || !b.value.Stored? then (Ready, c)
      else if Migrates(pod) then (Migrating(b.value.s), c.(cache := Some(b.value.s)))
      else (Ready, c.(cache := Some(b.value.s)))
    case Migrating(copy) => (Ready, c.(queued := c.queued + [copy]))
    case _ => if c.cache.Some? then (Ready, c) else (Deciphering(c.local), c)
  }

  /** The session a send works on: its own new one or the live object. */
  function Working(held: Option<Session>, c: Cell): Option<Session> {
    if held.Some? then held else c.cache
  }

  /** Assigning to the session a send works on. */
  function Assign(held: Option<Session>, c: Cell, s: Session): (Option<Session>, Cell) {
    if held.Some? then (Some(s), c) else (None, c.(cache := Some(s)))
  }

  /** A send to its next await.  It finds the session it works on gone only if another
      operation of the peer ran in between; it then breaks off. */
  function SendStep(op: Op, p: Point, c: Cell): (r: (Point, Cell))
    requires op.SendOp? && !AtLoad(p)
    ensures !p.Done? ==> Rank(r.0) < Rank(p)
  {
    match p
    case Ready =>
      if c.cache.None? && op.peerKey.None? then (Done(SendFailed(NoPeerKey)), c)
      else (Ratcheting(if c.cache.None? then Some(InitSender(op.peerKey.value, op.newPriv)) else None), c)
    case Ratcheting(held) =>
      var s := Working(held, c);
      if op.fault.AtRatchet? || s.None? then (Done(SendFailed(Broken)), c)
      else
        var t := if s.value.pending then DhSend(s.value, op.newPriv) else s.value;
        var a := Assign(held, c, t);
        (Advancing(a.0, t), a.1)
    case Advancing(held, header) =>
      var s := Working(held, c);
      if op.fault.AtAdvance? || s.None? then (Done(SendFailed(Broken)), c)
      else
        var t := s.value.(sendChain := Next(header.sendChain), sendMsgNum := s.value.sendMsgNum + 1);
        var a := Assign(held, c, t);
        (Sealing(a.0, Outgoing(header, op.nonce, op.plain)), a.1)
    case Sealing(held, m) =>
      if op.fault.AtSeal? then (Done(SendFailed(Broken)), c) else (Saving(held, m), c)
    case Saving(held, m) =>
      var s := Working(held, c);
      if s.None? then (Done(SendFailed(Broken)), c)
      else (Storing(Stamp(s.value), m), c.(cache := Some(Stamp(s.value))))
    case Storing(blob, m) =>
      if op.fault.AtStore? then (Done(SendFailed(Broken)), c)
      else (Done(SentMsg(m)), SavedCell(c, blob, op.pod).(cache := c.cache))
    case _ => (Done(SendFailed(Broken)), c)
  }

  /** A receive to its next await. */
  function ReceiveStep(op: Op, p: Point, c: Cell): (r: (Point, Cell))
    requires op.RecvOp? && !AtLoad(p)
    ensures !p.Done? ==> Rank(r.0) < Rank(p)
  {
    match p
    case Ready => (Selecting(c.cache), c)
    case Selecting(seen) =>
      var sel := Select(seen, op.id, op.newPriv, op.m, op.allowInit);
      if sel.Err? then (Done(Rejected(sel.error)), c) else (Opening(sel.value.0, sel.value.1), c)
    case Opening(copy, key) =>
      var plain := Unseal(key, op.m.nonce, op.m.cipher);
      if plain.None? then (Done(Rejected(TagFailure)), c) else (Committing(copy, plain.value), c)
    case Committing(copy, text) => (Recording(Stamp(copy), text), c.(cache := Some(Stamp(copy))))
    case Recording(blob, text) =>
      if op.saveFails then (Done(Rejected(TagFailure)), c)
      else (Done(Plain(text)), SavedCell(c, blob, op.pod).(cache := c.cache))
    case _ => (Done(Rejected(TagFailure)), c)
  }

  function Step(op: Op, p: Point, c: Cell): (r: (Point, Cell))
    ensures !p.Done? ==> Rank(r.0) < Rank(p)
  {
    if p.Waiting? && op.RecvOp? && BadHeader(op.m).Some? then (Done(Rejected(BadHeader(op.m).value)), c)
    else if AtLoad(p) then LoadStep(p, c, op.pod)
    else
      match op
      case SendOp(_, _, _, _, _, _) => SendStep(op, p, c)
      case RecvOp(_, _, _, _, _, _) => ReceiveStep(op, p, c)
      case HasOp(_) => (Done(Has(c.cache.Some?)), c)
  }

  /** Run an operation from a point to its end with nothing in between. */
  function Finish(op: Op, p: Point, c: Cell): (Outcome, Cell)
    decreases Rank(p)
  {
    if p.Done? then (p.out, c)
    else
      var s := Step(op, p, c);
      Finish(op, s.0, s.1)
  }

  lemma FinishStep(op: Op, p: Point, c: Cell)
    requires !p.Done?
    ensures Finish(op, p, c) == Finish(op, Step(op, p, c).0, Step(op, p, c).1)
  {
  }

  /** The steps of loading add up to loading. */
  lemma FinishLoad(op: Op, c: Cell)
    requires op.RecvOp? ==> BadHeader(op.m).None?
    ensures Finish(op, Waiting, c) == Finish(op, Ready, LoadedCell(c, op.pod))
  {
    FinishStep(op, Waiting, c);
    if c.cache.None? {
      var local, device := Readable(c.local), Readable(DeviceCopy(op.pod));
      FinishStep(op, Deciphering(c.local), c);
      FinishStep(op, AskingDevice(local), c);
      FinishStep(op, AskingShared(local, device), c);
      var best := Newest(c.local, DeviceCopy(op.pod), LegacyCopy(op.pod));
      if best.Some? && Migrates(op.pod) { FinishStep(op, Migrating(best.value), c.(cache := best)); }
    }
  }

  /** From the encryption on: seal, save, store. */
  lemma FinishSealing(op: Op, held: Option<Session>, m: Msg, c: Cell)
    requires op.SendOp? && Working(held, c).Some?
    ensures var s := Stamp(Working(held, c).value);
      Finish(op, Sealing(held, m), c) ==
        if op.fault.AtSeal? then (SendFailed(Broken), c)
        else if op.fault.AtStore? then (SendFailed(Broken), c.(cache := Some(s)))
        else (SentMsg(m), SavedCell(c, s, op.pod))
  {
    FinishStep(op, Sealing(held, m), c);
    if !op.fault.AtSeal? {
      FinishStep(op, Saving(held, m), c);
      FinishStep(op, Storing(Stamp(Working(held, c).value), m), c.(cache := Some(Stamp(Working(held, c).value))));
    }
  }

  lemma FinishSend(op: Op, c: Cell)
    requires op.SendOp?
    ensures Finish(op, Waiting, c) == Whole(op, c)
  {
    FinishLoad(op, c);
    FinishSendReady(op, LoadedCell(c, op.pod));
  }

  lemma FinishSendReady(op: Op, l: Cell)
    requires op.SendOp?
    ensures Finish(op, Ready, l) ==
      var e := Encrypt(l.cache, op.peerKey, op.newPriv, op.nonce, op.plain);
      if e.Err? then (SendFailed(e.error), l)
      else if op.fault.NoFault? then (SentMsg(e.value.1), SavedCell(l, e.value.0, op.pod))
      else
        var after := AfterBrokenSend(l.cache, op.peerKey, op.newPriv, op.fault);
        (SendFailed(Broken), l.(cache := if after.Some? then after else l.cache))
  {
    FinishStep(op, Ready, l);
    var p1 := Step(op, Ready, l);
    if !p1.0.Done? {
      FinishStep(op, p1.0, p1.1);
      var p2 := Step(op, p1.0, p1.1);
      if !p2.0.Done? {
        FinishStep(op, p2.0, p2.1);
        var p3 := Step(op, p2.0, p2.1);
        if !p3.0.Done? { FinishSealing(op, p3.0.held, p3.0.m, p3.1); }
      }
    }
  }

  /** From the tag check on: commit and record. */
  lemma FinishOpening(op: Op, copy: Session, key: MsgKey, c: Cell)
    requires op.RecvOp?
    ensures var plain := Unseal(key, op.m.nonce, op.m.cipher);
      Finish(op, Opening(copy, key), c) ==
        if plain.None? then (Rejected(TagFailure), c)
        else if op.saveFails then (Rejected(TagFailure), c.(cache := Some(Stamp(copy))))
        else (Plain(plain.value), SavedCell(c, Stamp(copy), op.pod))
  {
    var plain := Unseal(key, op.m.nonce, op.m.cipher);
    FinishStep(op, Opening(copy, key), c);
    if plain.Some? {
      FinishStep(op, Committing(copy, plain.value), c);
      FinishStep(op, Recording(Stamp(copy), plain.value), c.(cache := Some(Stamp(copy))));
    }
  }

  lemma FinishReceive(op: Op, c: Cell)
    requires op.RecvOp?
    ensures Finish(op, Waiting, c) == Whole(op, c)
  {
    if BadHeader(op.m).None? {
      FinishLoad(op, c);
      var l := LoadedCell(c, op.pod);
      FinishStep(op, Ready, l);
      FinishStep(op, Selecting(l.cache), l);
      var sel := Select(l.cache, op.id, op.newPriv, op.m, op.allowInit);
      if sel.Ok? { FinishOpening(op, sel.value.0, sel.value.1, l); }
    }
  }

  /** Uninterrupted, the steps add up to the whole operation. */
  lemma StepsAddUp(op: Op, c: Cell)
    ensures Finish(op, Waiting, c) == Whole(op, c)
  {
    match op
    case SendOp(_, _, _, _, _, _) => FinishSend(op, c);
    case RecvOp(_, _, _, _, _, _) => FinishReceive(op, c);
    case HasOp(_) =>
      FinishLoad(op, c);
      FinishStep(op, Ready, LoadedCell(c, op.pod));
  }

  // ---- The queue ----

  datatype Call = Call(peer: string, op: Op)

  /** Every call made so far in call order, where each is suspended, the call it waits
      for, the tail of each peer's queue, and the sessions. */
  datatype Sched = Sched(calls: seq<Call>, points: seq<Point>, after: seq<Option<nat>>,
                         tails: map<string, nat>, cells: map<string, Cell>)

  function CellOf(cells: map<string, Cell>, peer: string): Cell {
    if peer in cells then cells[peer] else Cell(None, None, [])
  }

  function Tail(s: Sched, peer: string): Option<nat> {
    if peer in s.tails then Some(s.tails[peer]) else None
  }

  /** _serialize: wait for the current tail of the peer, become the tail. */
  function Invoke(s: Sched, c: Call): Sched {
    Sched(s.calls + [c], s.points + [Waiting], s.after + [Tail(s, c.peer)], s.tails[c.peer := |s.calls|], s.cells)
  }

  predicate Shaped(s: Sched) {
    && |s.points| == |s.calls| && |s.after| == |s.calls|
    && (forall i :: 0 <= i < |s.after| && s.after[i].Some? ==> s.after[i].value < i)
    && forall p :: p in s.tails ==> s.tails[p] < |s.calls|
  }

  /** A call may run once the call it waits for has settled, whatever its outcome. */
  predicate CanResume(s: Sched, i: nat)
    requires Shaped(s)
  {
    && i < |s.calls| && !s.points[i].Done?
    && (s.points[i].Waiting? && s.after[i].Some? ==> s.points[s.after[i].value].Done?)
  }

  function Resume(s: Sched, i: nat): Sched
    requires Shaped(s) && CanResume(s, i)
  {
    var c := s.calls[i];
    var r := Step(c.op, s.points[i], CellOf(s.cells, c.peer));
    s.(points := s.points[i := r.0], cells := s.cells[c.peer := r.1])
  }

  // ---- Running the calls one at a time ----

  /** The peer's sessions after the first n calls, each run whole in call order. */
  function InOrder(calls: seq<Call>, n: nat, first: Cell, peer: string): Cell
    requires n <= |calls|
  {
    if n == 0 then first
    else
      var c := InOrder(calls, n - 1, first, peer);
      if calls[n - 1].peer == peer then Whole(calls[n - 1].op, c).1 else c
  }

  function OutcomeInOrder(calls: seq<Call>, i: nat, first: Cell): Outcome
    requires i < |calls|
  {
    Whole(calls[i].op, InOrder(calls, i, first, calls[i].peer)).0
  }

  // ---- The invariant ----

  /** Call i is next for its peer: everything the peer asked for before has settled. */
  predicate Front(s: Sched, i: nat)
    requires |s.points| == |s.calls| && i <= |s.calls|
  {
    i < |s.calls| && forall j :: 0 <= j < i && s.calls[j].peer == s.calls[i].peer ==> s.points[j].Done?
  }

  /** after[i] is the peer's previous call. */
  predicate Linked(s: Sched, i: nat)
    requires |s.after| == |s.calls| && i < |s.calls|
  {
    match s.after[i]
    case None => forall j :: 0 <= j < i ==> s.calls[j].peer != s.calls[i].peer
    case Some(k) => k < i && s.calls[k].peer == s.calls[i].peer &&
                    forall j :: k < j < i ==> s.calls[j].peer != s.calls[i].peer
  }

  predicate TailOk(s: Sched, peer: string)
    requires |s.points| == |s.calls|
  {
    match Tail(s, peer)
    case None => forall j :: 0 <= j < |s.calls| ==> s.calls[j].peer != peer
    case Some(k) => k < |s.calls| && s.calls[k].peer == peer &&
                    forall j :: k < j < |s.calls| ==> s.calls[j].peer != peer
  }

  ghost predicate Links(s: Sched) {
    && Shaped(s)
    && (forall i :: 0 <= i < |s.calls| ==> Linked(s, i))
    && forall p: string :: TailOk(s, p)
  }

  /** Done calls have their in-order outcome; the call in front of a peer's queue will
      finish with its own; a peer with nothing left to do has its in-order sessions. */
  predicate CallOk(s: Sched, cells0: map<string, Cell>, i: nat)
    requires |s.points| == |s.calls| && i < |s.calls|
  {
    var c := s.calls[i];
    var first := CellOf(cells0, c.peer);
    if s.points[i].Done? then s.points[i].out == OutcomeInOrder(s.calls, i, first) && Front(s, i)
    else if Front(s, i) then
      Finish(c.op, s.points[i], CellOf(s.cells, c.peer)) == Whole(c.op, InOrder(s.calls, i, first, c.peer))
    else s.points[i].Waiting?
  }

  predicate Idle(s: Sched, peer: string)
    requires |s.points| == |s.calls|
  {
    forall j :: 0 <= j < |s.calls| && s.calls[j].peer == peer ==> s.points[j].Done?
  }

  predicate IdleOk(s: Sched, cells0: map<string, Cell>, peer: string)
    requires |s.points| == |s.calls|
  {
    Idle(s, peer) ==> CellOf(s.cells, peer) == InOrder(s.calls, |s.calls|, CellOf(cells0, peer), peer)
  }

  ghost predicate Serial(s: Sched, cells0: map<string, Cell>) {
    && Links(s)
    && (forall i :: 0 <= i < |s.calls| ==> CallOk(s, cells0, i))
    && forall p: string :: IdleOk(s, cells0, p)
  }

  lemma {:induction false} InOrderPrefix(calls: seq<Call>, more: seq<Call>, n: nat, first: Cell, peer: string)
    requires n <= |calls|
    ensures InOrder(calls + more, n, first, peer) == InOrder(calls, n, first, peer)
  {
    if n > 0 { InOrderPrefix(calls, more, n - 1, first, peer); }
  }

  lemma {:induction false} InOrderSkips(calls: seq<Call>, a: nat, b: nat, first: Cell, peer: string)
    requires a <= b <= |calls|
    requires forall j :: a <= j < b ==> calls[j].peer != peer
    ensures InOrder(calls, b, first, peer) == InOrder(calls, a, first, peer)
    decreases b
  {
    if a < b { InOrderSkips(calls, a, b - 1, first, peer); }
  }

  lemma InvokeLinks(s: Sched, c: Call)
    requires Links(s)
    ensures Links(Invoke(s, c))
  {
    var t := Invoke(s, c);
    assert TailOk(s, c.peer);
    forall i | 0 <= i < |t.calls| ensures Linked(t, i) {
      if i < |s.calls| { assert Linked(s, i); }
    }
    forall p: string ensures TailOk(t, p) {
      assert TailOk(s, p);
    }
  }

  /** A new call leaves the earlier ones as they are. */
  lemma InvokeSame(s: Sched, c: Call, i: nat, peer: string)
    requires Shaped(s) && i <= |s.calls|
    ensures var t := Invoke(s, c);
      (forall j :: 0 <= j < i && s.calls[j].peer == peer ==> s.points[j].Done?) <==>
      (forall j :: 0 <= j < i && t.calls[j].peer == peer ==> t.points[j].Done?)
  {
    var t := Invoke(s, c);
    forall j | 0 <= j < i ensures t.calls[j] == s.calls[j] && t.points[j] == s.points[j] {}
    if forall j :: 0 <= j < i && t.calls[j].peer == peer ==> t.points[j].Done? {
      forall j | 0 <= j < i && s.calls[j].peer == peer ensures s.points[j].Done? {
        assert t.calls[j].peer == peer;
      }
    }
  }

  lemma InvokeKeeps(s: Sched, cells0: map<string, Cell>, c: Call)
    requires Serial(s, cells0)
    ensures Serial(Invoke(s, c), cells0)
  {
    var t := Invoke(s, c);
    var n := |s.calls|;
    InvokeLinks(s, c);
    forall i | 0 <= i < |t.calls| ensures CallOk(t, cells0, i) {
      var first := CellOf(cells0, t.calls[i].peer);
      InOrderPrefix(s.calls, [c], if i < n then i else n, first, t.calls[i].peer);
      if i < n {
        assert CallOk(s, cells0, i);
        InvokeSame(s, c, i, s.calls[i].peer);
      } else {
        InvokeSame(s, c, n, c.peer);
        assert IdleOk(s, cells0, c.peer);
        StepsAddUp(c.op, CellOf(s.cells, c.peer));
      }
    }
    forall p: string ensures IdleOk(t, cells0, p) {
      assert IdleOk(s, cells0, p);
      assert t.points[n] == Waiting && t.calls[n] == c;
      if p != c.peer {
        InOrderPrefix(s.calls, [c], n, CellOf(cells0, p), p);
        InvokeSame(s, c, n, p);
      }
    }
  }

  /** Only the call in front of its peer's queue can run. */
  lemma ResumeIsFront(s: Sched, cells0: map<string, Cell>, i: nat)
    requires Serial(s, cells0) && CanResume(s, i)
    ensures Front(s, i)
  {
    assert CallOk(s, cells0, i) && Linked(s, i);
    if s.points[i].Waiting? && s.after[i].Some? { assert CallOk(s, cells0, s.after[i].value); }
  }

  lemma ResumeLinks(s: Sched, i: nat)
    requires Links(s) && CanResume(s, i)
    ensures Links(Resume(s, i))
  {
    var t := Resume(s, i);
    forall j | 0 <= j < |t.calls| ensures Linked(t, j) { assert Linked(s, j); }
    forall p: string ensures TailOk(t, p) { assert TailOk(s, p); }
  }

  /** The call that ran is one step nearer its in-order end. */
  lemma ResumedOk(s: Sched, cells0: map<string, Cell>, i: nat)
    requires Serial(s, cells0) && CanResume(s, i)
    ensures var t := Resume(s, i); var c := s.calls[i];
      && CallOk(t, cells0, i)
      && (t.points[i].Done? ==>
            CellOf(t.cells, c.peer) == InOrder(s.calls, i + 1, CellOf(cells0, c.peer), c.peer))
  {
    var t, c := Resume(s, i), s.calls[i];
    ResumeIsFront(s, cells0, i);
    assert CallOk(s, cells0, i);
    FinishStep(c.op, s.points[i], CellOf(s.cells, c.peer));
    assert Front(t, i);
  }

  lemma OthersOk(s: Sched, cells0: map<string, Cell>, i: nat, j: nat)
    requires Serial(s, cells0) && CanResume(s, i) && j < |s.calls| && j != i
    ensures CallOk(Resume(s, i), cells0, j)
  {
    if s.calls[j].peer != s.calls[i].peer || j < i {
      ResumeIsFront(s, cells0, i);
      assert CallOk(s, cells0, j);
      assert Front(Resume(s, i), j) <==> Front(s, j);
    } else {
      LaterOk(s, cells0, i, j);
    }
  }

  /** A later call of the same peer waits, or is next now that call i has settled. */
  lemma LaterOk(s: Sched, cells0: map<string, Cell>, i: nat, j: nat)
    requires Serial(s, cells0) && CanResume(s, i) && i < j < |s.calls| && s.calls[j].peer == s.calls[i].peer
    ensures CallOk(Resume(s, i), cells0, j)
  {
    var t := Resume(s, i);
    assert CallOk(s, cells0, j) && CallOk(s, cells0, i);
    if Front(t, j) {
      ResumedOk(s, cells0, i);
      NoneBetween(s, cells0, i, j);
      InOrderSkips(s.calls, i + 1, j, CellOf(cells0, s.calls[i].peer), s.calls[i].peer);
      StepsAddUp(s.calls[j].op, CellOf(t.cells, s.calls[i].peer));
    }
  }

  /** If call j is next once call i has settled, their peer asked for nothing in between. */
  lemma NoneBetween(s: Sched, cells0: map<string, Cell>, i: nat, j: nat)
    requires Serial(s, cells0) && CanResume(s, i) && i < j < |s.calls| && s.calls[j].peer == s.calls[i].peer
    requires Front(Resume(s, i), j)
    ensures forall k :: i < k < j ==> s.calls[k].peer != s.calls[i].peer
  {
    forall k | i < k < j ensures s.calls[k].peer != s.calls[i].peer {
      assert CallOk(s, cells0, k);
    }
  }

  lemma ResumeIdle(s: Sched, cells0: map<string, Cell>, i: nat, p: string)
    requires Serial(s, cells0) && CanResume(s, i)
    ensures IdleOk(Resume(s, i), cells0, p)
  {
    var t := Resume(s, i);
    assert IdleOk(s, cells0, p);
    if p != s.calls[i].peer {
      assert Idle(t, p) ==> Idle(s, p);
    } else if Idle(t, p) {
      ResumedOk(s, cells0, i);
      forall k | i < k < |s.calls| ensures s.calls[k].peer != p {
        assert CallOk(s, cells0, k);
      }
      InOrderSkips(s.calls, i + 1, |s.calls|, CellOf(cells0, p), p);
    }
  }

  lemma ResumeKeeps(s: Sched, cells0: map<string, Cell>, i: nat)
    requires Serial(s, cells0) && CanResume(s, i)
    ensures Serial(Resume(s, i), cells0)
  {
    ResumeLinks(s, i);
    forall j | 0 <= j < |s.calls| ensures CallOk(Resume(s, i), cells0, j) {
      if j == i { ResumedOk(s, cells0, i); } else { OthersOk(s, cells0, i, j); }
    }
    forall p: string ensures IdleOk(Resume(s, i), cells0, p) { ResumeIdle(s, cells0, i, p); }
  }

  // ---- Any schedule ----

  datatype Event = Called(c: Call) | Resumed(i: nat)

  predicate EventOk(s: Sched, e: Event)
    requires Shaped(s)
  {
    e.Resumed? ==> CanResume(s, e.i)
  }

  function After(s: Sched, e: Event): (t: Sched)
    requires Shaped(s) && EventOk(s, e)
    ensures Shaped(t)
  {
    if e.Called? then Invoke(s, e.c) else Resume(s, e.i)
  }

  ghost predicate Schedules(s: Sched, es: seq<Event>, t: Sched)
    requires Shaped(s)
    decreases |es|
  {
    if es == [] then s == t else EventOk(s, es[0]) && Schedules(After(s, es[0]), es[1..], t)
  }

  lemma {:induction false} ScheduleKeeps(s: Sched, cells0: map<string, Cell>, es: seq<Event>, t: Sched)
    requires Serial(s, cells0) && Schedules(s, es, t)
    ensures Serial(t, cells0)
    decreases |es|
  {
    if es != [] {
      if es[0].Called? { InvokeKeeps(s, cells0, es[0].c); } else { ResumeKeeps(s, cells0, es[0].i); }
      ScheduleKeeps(After(s, es[0]), cells0, es[1..], t);
    }
  }

  /** However calls are made and interleaved, and whichever of them fail, every settled
      call has the outcome, and every peer at rest the sessions, of running that peer's
      calls whole, one at a time, in call order. */
  lemma SameAsOneAtATime(cells0: map<string, Cell>, es: seq<Event>, t: Sched)
    requires Schedules(Sched([], [], [], map[], cells0), es, t)
    ensures Shaped(t)
    ensures forall i :: 0 <= i < |t.calls| && t.points[i].Done? ==>
      t.points[i].out == OutcomeInOrder(t.calls, i, CellOf(cells0, t.calls[i].peer))
    ensures forall p: string :: Idle(t, p) ==>
      CellOf(t.cells, p) == InOrder(t.calls, |t.calls|, CellOf(cells0, p), p)
  {
    var s := Sched([], [], [], map[], cells0);
    forall p: string ensures TailOk(s, p) && IdleOk(s, cells0, p) {}
    ScheduleKeeps(s, cells0, es, t);
    forall i | 0 <= i < |t.calls| && t.points[i].Done?
      ensures t.points[i].out == OutcomeInOrder(t.calls, i, CellOf(cells0, t.calls[i].peer))
    {
      assert CallOk(t, cells0, i);
    }
    forall p: string | Idle(t, p)
      ensures CellOf(t.cells, p) == InOrder(t.calls, |t.calls|, CellOf(cells0, p), p)
    {
      assert IdleOk(t, cells0, p);
    }
  }

  /** No schedule gets stuck: while a call is unsettled, some call can run. */
  lemma NeverStuck(s: Sched, cells0: map<string, Cell>, i: nat)
    requires Serial(s, cells0) && i < |s.calls| && !s.points[i].Done?
    ensures exists j :: 0 <= j <= i && CanResume(s, j)
  {
    assert Linked(s, i);
    if s.points[i].Waiting? && s.after[i].Some? && !s.points[s.after[i].value].Done? {
      NeverStuck(s, cells0, s.after[i].value);
    } else {
      assert CanResume(s, i);
    }
  }

  /** The queue as the engine keeps it, updated in place. */
  class Scheduler {
    var calls: seq<Call>
    var points: seq<Point>
    var after: seq<Option<nat>>
    var tails: map<string, nat>    // _peerQueues
    var cells: map<string, Cell>

    function View(): Sched
      reads this
    {
      Sched(calls, points, after, tails, cells)
    }

    constructor (cells: map<string, Cell>)
      ensures View() == Sched([], [], [], map[], cells) && Serial(View(), cells)
    {
      this.cells := cells;
      calls, points, after, tails := [], [], [], map[];
      new;
      forall p: string ensures TailOk(View(), p) && IdleOk(View(), cells, p) {}
    }

    method Serialize(peer: string, op: Op, ghost cells0: map<string, Cell>) returns (ticket: nat)
      requires Serial(View(), cells0)
      modifies this
      ensures View() == Invoke(old(View()), Call(peer, op)) && Serial(View(), cells0)
      ensures ticket == old(|calls|)
    {
      InvokeKeeps(View(), cells0, Call(peer, op));
      ticket := |calls|;
      after := after + [if peer in tails then Some(tails[peer]) else None];
      calls := calls + [Call(peer, op)];
      points := points + [Waiting];
      tails := tails[peer := ticket];
    }

    method Continue(i: nat, ghost cells0: map<string, Cell>)
      requires Serial(View(), cells0) && CanResume(View(), i)
      modifies this`points, this`cells
      ensures View() == Resume(old(View()), i) && Serial(View(), cells0)
    {
      ResumeKeeps(View(), cells0, i);
      var c := calls[i];
      var r := Step(c.op, points[i], CellOf(cells, c.peer));
      points := points[i := r.0];
      cells := cells[c.peer := r.1];
    }
  }
}
