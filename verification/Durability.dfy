/**
 The per-peer queue and the stored copies together: after any schedule of calls, whichever of them fail,
 a reload finds the session of the last call that succeeded (web/e2e.js:42-54, 555-601).
 */
module Durability {
  import opened Prelude
  import opened Crypto
  import opened Ratchet
  import opened Epochs
  import opened Storage
  import Queue
  import Rejection

  // ---- One call ----

  /** A peer's cell, with what the pod holds. */
  function CopiesOf(c: Queue.Cell, pod: Pod): Copies {
    Copies(c.cache, c.local, DeviceCopy(pod), LegacyCopy(pod), c.queued)
  }

  predicate Succeeds(o: Queue.Outcome) { o.SentMsg? || o.Plain? }

  /** A session's save count is kept by every step before it is stamped. */
  lemma ReadyKeepsVer(s: Option<Session>, peer: Text, newPriv: Priv)
    ensures ReadyToSend(s, peer, newPriv).ver == if s.Some? then s.value.ver else 0
  {
  }

  lemma SelectVer(s: Option<Session>, id: Priv, newPriv: Priv, m: Msg, allowInit: bool)
    requires Select(s, id, newPriv, m, allowInit).Ok?
    ensures Select(s, id, newPriv, m, allowInit).value.0.ver == if s.Some? then s.value.ver else 0
  {
    if s.Some? { Rejection.SelectKeepsVer(s.value, id, newPriv, m, allowInit); } else { SkipFrame(InitReceiver(m.pub.text, id, newPriv), m.msgNum.n); }
  }

  /** The store events of a call on a cell: a load, then a save, a broken save, a change or nothing. */
  function EventsOf(op: Queue.Op, c0: Queue.Cell): seq<StoreEvent> {
    var load := [Loaded(Migrates(op.pod))];
    var c := Queue.LoadedCell(c0, op.pod);
    match op
    case HasOp(_) => load
    case SendOp(plain, peerKey, newPriv, nonce, fault, pod) =>
      if c.cache.None? && peerKey.None? then load
      else
        var r := ReadyToSend(c.cache, if peerKey.Some? then peerKey.value else Text(0, 0), newPriv);
        (match fault
         case NoFault => load + [Saved(TakeSendKey(r), pod.signedIn)]
         case AtRatchet => load
         case AtAdvance => if c.cache.Some? then load + [Changed(r)] else load
         case AtSeal => if c.cache.Some? then load + [Changed(TakeSendKey(r))] else load
         case AtStore => load + [SaveFailed(TakeSendKey(r))])
    case RecvOp(m, allowInit, id, newPriv, saveFails, pod) =>
      if BadHeader(m).Some? then []
      else if Decrypt(c.cache, id, newPriv, m, allowInit).Err? then load
      else
        var s := Select(c.cache, id, newPriv, m, allowInit).value.0;
        load + [if saveFails then SaveFailed(s) else Saved(s, pod.signedIn)]
  }

  /** Loading a cell is loading its copies. */
  lemma LoadIsLoaded(c: Queue.Cell, pod: Pod)
    ensures CopiesOf(Queue.LoadedCell(c, pod), pod) == StoreNext(CopiesOf(c, pod), Loaded(Migrates(pod)))
    ensures LookVersion(CopiesOf(c, pod)) == LookVersion(CopiesOf(Queue.LoadedCell(c, pod), pod))
    ensures var l := Queue.LoadedCell(c, pod); Look(CopiesOf(l, pod)) == l.cache
  {
  }

  lemma OneEvent(c: Copies, e: StoreEvent)
    requires StorePossible(c, e)
    ensures StoreRun(c, [e]) && StoreEnd(c, [e]) == StoreNext(c, e)
  {
    assert [e][1..] == [];
    assert StoreRun(StoreNext(c, e), []);
  }

  lemma TwoEvents(c: Copies, e: StoreEvent, f: StoreEvent)
    requires StorePossible(c, e) && StorePossible(StoreNext(c, e), f)
    ensures StoreRun(c, [e] + [f]) && StoreEnd(c, [e] + [f]) == StoreNext(StoreNext(c, e), f)
  {
    assert ([e] + [f])[1..] == [f];
    OneEvent(StoreNext(c, e), f);
  }

  /** A loaded cell and one event after it. */
  lemma LoadThen(c0: Queue.Cell, pod: Pod, e: StoreEvent)
    requires StorePossible(CopiesOf(Queue.LoadedCell(c0, pod), pod), e)
    ensures var es := [Loaded(Migrates(pod))] + [e];
      && StoreRun(CopiesOf(c0, pod), es)
      && StoreEnd(CopiesOf(c0, pod), es) == StoreNext(CopiesOf(Queue.LoadedCell(c0, pod), pod), e)
  {
    LoadIsLoaded(c0, pod);
    TwoEvents(CopiesOf(c0, pod), Loaded(Migrates(pod)), e);
  }

  lemma LoadOnly(c0: Queue.Cell, pod: Pod)
    ensures var es := [Loaded(Migrates(pod))];
      StoreRun(CopiesOf(c0, pod), es) && StoreEnd(CopiesOf(c0, pod), es) == CopiesOf(Queue.LoadedCell(c0, pod), pod)
  {
    LoadIsLoaded(c0, pod);
    OneEvent(CopiesOf(c0, pod), Loaded(Migrates(pod)));
  }

  /** Whatever a call does to its peer's cell is a run of store events, saving exactly if it succeeds. */
  ghost predicate IsStoreRun(op: Queue.Op, c: Queue.Cell) {
    var es := EventsOf(op, c);
    && StoreRun(CopiesOf(c, op.pod), es)
    && StoreEnd(CopiesOf(c, op.pod), es) == CopiesOf(Queue.Whole(op, c).1, op.pod)
    && (Succeeds(Queue.Whole(op, c).0) <==> exists e :: e in es && e.Saved?)
  }

  lemma SendIsStoreRun(op: Queue.Op, c: Queue.Cell)
    requires op.SendOp?
    ensures IsStoreRun(op, c)
  {
    var l := Queue.LoadedCell(c, op.pod);
    LoadIsLoaded(c, op.pod);
    LoadOnly(c, op.pod);
    if l.cache.Some? || op.peerKey.Some? {
      var r := ReadyToSend(l.cache, if op.peerKey.Some? then op.peerKey.value else Text(0, 0), op.newPriv);
      ReadyKeepsVer(l.cache, if op.peerKey.Some? then op.peerKey.value else Text(0, 0), op.newPriv);
      match op.fault
      case NoFault => LoadThen(c, op.pod, Saved(TakeSendKey(r), op.pod.signedIn));
      case AtRatchet =>
      case AtAdvance => if l.cache.Some? { LoadThen(c, op.pod, Changed(r)); }
      case AtSeal => if l.cache.Some? { LoadThen(c, op.pod, Changed(TakeSendKey(r))); }
      case AtStore => LoadThen(c, op.pod, SaveFailed(TakeSendKey(r)));
    }
  }

  lemma ReceiveIsStoreRun(op: Queue.Op, c: Queue.Cell)
    requires op.RecvOp?
    ensures IsStoreRun(op, c)
  {
    var l := Queue.LoadedCell(c, op.pod);
    LoadIsLoaded(c, op.pod);
    LoadOnly(c, op.pod);
    if BadHeader(op.m).None? && Decrypt(l.cache, op.id, op.newPriv, op.m, op.allowInit).Ok? {
      SelectVer(l.cache, op.id, op.newPriv, op.m, op.allowInit);
      var s := Select(l.cache, op.id, op.newPriv, op.m, op.allowInit).value.0;
      LoadThen(c, op.pod, if op.saveFails then SaveFailed(s) else Saved(s, op.pod.signedIn));
    }
  }

  lemma CallIsStoreRun(op: Queue.Op, c: Queue.Cell)
    ensures IsStoreRun(op, c)
  {
    match op
    case SendOp(_, _, _, _, _, _) => SendIsStoreRun(op, c);
    case RecvOp(_, _, _, _, _, _) => ReceiveIsStoreRun(op, c);
    case HasOp(_) => LoadOnly(c, op.pod);
  }

  /** What a call returns, from the session it finds: the cached one, else the newest copy. */
  lemma OutcomeMeans(op: Queue.Op, c: Queue.Cell)
    ensures var seen := Look(CopiesOf(c, op.pod)); var out := Queue.Whole(op, c).0;
      match op
      case HasOp(_) => out == Queue.Has(seen.Some?)
      case SendOp(plain, peerKey, newPriv, nonce, fault, pod) =>
        var e := Encrypt(seen, peerKey, newPriv, nonce, plain);
        out == if seen.None? && peerKey.None? then Queue.SendFailed(NoPeerKey)
               else if fault != NoFault then Queue.SendFailed(Broken)
               else Queue.SentMsg(e.value.1)
      case RecvOp(m, allowInit, id, newPriv, saveFails, pod) =>
        var d := Decrypt(seen, id, newPriv, m, allowInit);
        out == if d.Err? then Queue.Rejected(d.error) else if saveFails then Queue.Rejected(TagFailure) else Queue.Plain(d.value.1)
  {
    LoadIsLoaded(c, op.pod);
  }

  // ---- Any schedule ----

  /** Local storage holds the session saved last, and nothing in the cell is older or newer than it should be. */
  predicate Sound(c: Queue.Cell, saved: Option<Session>) {
    StoreInv(Copies(c.cache, c.local, None, None, c.queued), saved)
  }

  /** The pod answers with nothing newer than the session saved last. */
  predicate Answers(pod: Pod, saved: Option<Session>) {
    NotNewer(DeviceCopy(pod), saved) && NotNewer(LegacyCopy(pod), saved)
  }

  /** The session saved last after a call: its own if it succeeded. */
  function SavedAfter(op: Queue.Op, c: Queue.Cell, saved: Option<Session>): Option<Session> {
    var w := Queue.Whole(op, c);
    if Succeeds(w.0) then w.1.cache else saved
  }

  lemma LastSavedIs(saved: Option<Session>, e: StoreEvent, toPod: bool)
    ensures LastSaved(saved, [Loaded(toPod)]) == saved
    ensures LastSaved(saved, [Loaded(toPod)] + [e]) == if e.Saved? then Some(Stamp(e.s)) else saved
  {
    assert [Loaded(toPod)][1..] == [];
    assert [e][1..] == [] && LastSaved(saved, [e]) == if e.Saved? then Some(Stamp(e.s)) else saved;
    assert ([Loaded(toPod)] + [e])[1..] == [e];
  }

  lemma EventsSave(op: Queue.Op, c: Queue.Cell, saved: Option<Session>)
    ensures LastSaved(saved, EventsOf(op, c)) == SavedAfter(op, c, saved)
  {
    var es := EventsOf(op, c);
    if |es| >= 1 {
      LastSavedIs(saved, es[|es| - 1], Migrates(op.pod));
    }
  }

  lemma CallKeeps(op: Queue.Op, c: Queue.Cell, saved: Option<Session>)
    requires Sound(c, saved) && Answers(op.pod, saved)
    ensures Sound(Queue.Whole(op, c).1, SavedAfter(op, c, saved))
  {
    CallIsStoreRun(op, c);
    StoreRunKeeps(CopiesOf(c, op.pod), saved, EventsOf(op, c));
    EventsSave(op, c, saved);
  }

  /** The session saved last once the peer's first n calls ran one at a time. */
  function SavedInOrder(calls: seq<Queue.Call>, n: nat, first: Queue.Cell, peer: string, saved: Option<Session>): Option<Session>
    requires n <= |calls|
  {
    if n == 0 then saved
    else
      var before := SavedInOrder(calls, n - 1, first, peer, saved);
      if calls[n - 1].peer == peer then SavedAfter(calls[n - 1].op, Queue.InOrder(calls, n - 1, first, peer), before) else before
  }

  /** Every call of the peer heard from the pod nothing newer than what had been saved. */
  predicate HonestPods(calls: seq<Queue.Call>, n: nat, first: Queue.Cell, peer: string, saved: Option<Session>)
    requires n <= |calls|
  {
    forall i :: 0 <= i < n && calls[i].peer == peer ==> Answers(calls[i].op.pod, SavedInOrder(calls, i, first, peer, saved))
  }

  lemma {:induction false} InOrderKeeps(calls: seq<Queue.Call>, n: nat, first: Queue.Cell, peer: string, saved: Option<Session>)
    requires n <= |calls| && Sound(first, saved) && HonestPods(calls, n, first, peer, saved)
    ensures Sound(Queue.InOrder(calls, n, first, peer), SavedInOrder(calls, n, first, peer, saved))
  {
    if n > 0 {
      InOrderKeeps(calls, n - 1, first, peer, saved);
      if calls[n - 1].peer == peer {
        CallKeeps(calls[n - 1].op, Queue.InOrder(calls, n - 1, first, peer), SavedInOrder(calls, n - 1, first, peer, saved));
      }
    }
  }

  /** A reload finds what was saved last. */
  lemma ReloadFinds(c: Queue.Cell, saved: Option<Session>, pod: Pod)
    requires Sound(c, saved) && Answers(pod, saved)
    ensures Newest(c.local, DeviceCopy(pod), LegacyCopy(pod)) == saved
  {
    RestartFindsLastSave(CopiesOf(c, pod), saved, []);
  }

  /**
   However the calls of all peers are made and interleaved, and whichever of them break off: once a peer's
   calls have settled, a reload finds the session of the last of them that succeeded, whatever its pod
   holds that is not newer.
   */
  lemma ReloadFindsLastSuccess(cells0: map<string, Queue.Cell>, es: seq<Queue.Event>, t: Queue.Sched, peer: string,
                               saved: Option<Session>, pod: Pod)
    requires Queue.Schedules(Queue.Sched([], [], [], map[], cells0), es, t)
    requires |t.points| == |t.calls| && Queue.Idle(t, peer)
    requires Sound(Queue.CellOf(cells0, peer), saved)
    requires HonestPods(t.calls, |t.calls|, Queue.CellOf(cells0, peer), peer, saved)
    requires Answers(pod, SavedInOrder(t.calls, |t.calls|, Queue.CellOf(cells0, peer), peer, saved))
    ensures var c := Queue.CellOf(t.cells, peer);
      Newest(c.local, DeviceCopy(pod), LegacyCopy(pod))
      == SavedInOrder(t.calls, |t.calls|, Queue.CellOf(cells0, peer), peer, saved)
  {
    Queue.SameAsOneAtATime(cells0, es, t);
    InOrderKeeps(t.calls, |t.calls|, Queue.CellOf(cells0, peer), peer, saved);
    ReloadFinds(Queue.CellOf(t.cells, peer), SavedInOrder(t.calls, |t.calls|, Queue.CellOf(cells0, peer), peer, saved), pod);
  }
}
