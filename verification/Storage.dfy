/**
 Where a session is kept: local storage, a per-device pod copy written in the background,
 and an older shared pod copy (web/e2e.js:489-601).
 */
module Storage {
  import opened Prelude
  import opened Ratchet

  /** A stored copy as this device reads it back: not decryptable here, a Phase 1 state
      without a root key, or a session. */
  datatype Blob = Unreadable | PhaseOne(ver: nat) | Stored(s: Session)

  function Version(b: Blob): nat {
    match b case Unreadable => 0 case PhaseOne(v) => v case Stored(s) => s.ver
  }

  function Readable(b: Option<Blob>): Option<Blob> {
    if b == Some(Unreadable) then None else b
  }

  /** The device copy, or the old shared one when the device copy is missing. */
  function PodCopy(device: Option<Blob>, legacy: Option<Blob>): Option<Blob> {
    if Readable(device).Some? then Readable(device) else Readable(legacy)
  }

  /** The pod's copy wins only if it is newer. */
  function Newer(l: Option<Blob>, p: Option<Blob>): Option<Blob> {
    if p.Some? && (l.None? || Version(p.value) > Version(l.value)) then p else l
  }

  /** loadRatchetState with an empty cache. */
  function Best(local: Option<Blob>, device: Option<Blob>, legacy: Option<Blob>): Option<Blob> {
    Newer(Readable(local), PodCopy(device, legacy))
  }

  /** What the pod answered for the two copies of one peer, and whether it can be written. */
  datatype Pod = Pod(signedIn: bool, device: Option<Blob>, legacy: Option<Blob>)

  function DeviceCopy(p: Pod): Option<Blob> { if p.signedIn then p.device else None }
  function LegacyCopy(p: Pod): Option<Blob> { if p.signedIn then p.legacy else None }

  /** The per-device copy is missing and can be written. */
  predicate Migrates(p: Pod) { p.signedIn && Readable(p.device).None? }

  function Newest(local: Option<Blob>, device: Option<Blob>, legacy: Option<Blob>): Option<Session> {
    var b := Best(local, device, legacy);
    if b.Some? && b.value.Stored? then Some(b.value.s) else None
  }

  /** The copy chosen is readable and no readable copy looked at is newer; local storage
      wins ties. */
  lemma BestIsNewest(local: Option<Blob>, device: Option<Blob>, legacy: Option<Blob>)
    ensures var b, p := Best(local, device, legacy), PodCopy(device, legacy);
      && (b.None? <==> Readable(local).None? && Readable(device).None? && Readable(legacy).None?)
      && (b.Some? ==> b == Readable(local) || b == Readable(device) || b == Readable(legacy))
      && (b.Some? && Readable(local).Some? ==> Version(b.value) >= Version(local.value))
      && (b.Some? && p.Some? ==> Version(b.value) >= Version(p.value))
      && (Readable(local).Some? && (p.None? || Version(p.value) <= Version(local.value)) ==> b == local)
  {
  }

  /** Signed out, only local storage counts; signed in, the pod's copies do too. */
  lemma SignedOutReadsLocal(local: Option<Blob>, p: Pod)
    ensures Newest(local, DeviceCopy(p), LegacyCopy(p)) ==
      if p.signedIn then Newest(local, p.device, p.legacy)
      else if local.Some? && local.value.Stored? then Some(local.value.s) else None
  {
  }

  predicate AtMost(b: Option<Blob>, ver: nat) { Readable(b).Some? ==> Version(b.value) <= ver }

  /** It is the newest of all three copies unless the old shared copy is newer than the device
      copy that hides it and than local storage. */
  lemma BestIsHighestIff(local: Option<Blob>, device: Option<Blob>, legacy: Option<Blob>)
    requires Best(local, device, legacy).Some?
    ensures var ver := Version(Best(local, device, legacy).value);
      (AtMost(local, ver) && AtMost(device, ver) && AtMost(legacy, ver)) <==>
      !(Readable(device).Some? && Readable(legacy).Some? && Version(legacy.value) > Version(device.value)
        && (Readable(local).Some? ==> Version(legacy.value) > Version(local.value)))
  {
  }

  /** A device copy of version 1 hides a shared copy of version 2. */
  lemma NewerSharedCopyIsSkipped(older: Session, newer: Session)
    requires older.ver == 1 && newer.ver == 2
    ensures Newest(None, Some(Stored(older)), Some(Stored(newer))) == Some(older)
    ensures Newest(None, Some(Unreadable), Some(Stored(newer))) == Some(newer)
  {
  }

  // ---- The coalescing pod writer of one peer ----

  /** _podWrites[peer]: the latest blob waiting and whether the loop runs; inFlight and
      issued record the PUTs not yet settled and all PUTs ever issued. */
  datatype Writer = Writer(pending: Option<Session>, running: bool, inFlight: seq<Session>, issued: seq<Session>)

  const IdleWriter := Writer(None, false, [], [])

  /** The write loop up to its next suspension. */
  function Loop(q: Writer): Writer {
    if q.pending.Some? then
      q.(pending := None, inFlight := q.inFlight + [q.pending.value], issued := q.issued + [q.pending.value])
    else q.(running := false)
  }

  function QueueWrite(q: Writer, s: Session): Writer {
    var q1 := q.(pending := Some(s));
    if q1.running then q1 else Loop(q1.(running := true))
  }

  /** PUT number i settles, landed or failed, and the loop that awaited it goes on. */
  function Settle(q: Writer, i: nat): Writer
    requires i < |q.inFlight|
  {
    Loop(q.(inFlight := q.inFlight[..i] + q.inFlight[i + 1..]))
  }

  datatype WriterEvent = Queue(s: Session) | Settled(i: nat)

  predicate Possible(q: Writer, e: WriterEvent) { e.Settled? ==> e.i < |q.inFlight| }

  function WriterNext(q: Writer, e: WriterEvent): Writer
    requires Possible(q, e)
  {
    if e.Queue? then QueueWrite(q, e.s) else Settle(q, e.i)
  }

  predicate PossibleRun(q: Writer, es: seq<WriterEvent>)
    decreases |es|
  {
    es == [] || (Possible(q, es[0]) && PossibleRun(WriterNext(q, es[0]), es[1..]))
  }

  function WriterRun(q: Writer, es: seq<WriterEvent>): Writer
    requires PossibleRun(q, es)
    decreases |es|
  {
    if es == [] then q else WriterRun(WriterNext(q, es[0]), es[1..])
  }

  function Queued(es: seq<WriterEvent>): seq<Session> {
    if es == [] then []
    else (if es[0].Queue? then [es[0].s] else []) + Queued(es[1..])
  }

  predicate NonDecreasing(ss: seq<Session>) {
    forall i, j :: 0 <= i < j < |ss| ==> ss[i].ver <= ss[j].ver
  }

  function LastOf(ss: seq<Session>): Session
    requires ss != []
  {
    ss[|ss| - 1]
  }

  /** Everything queued so far, against what the writer did with it. */
  predicate WriterInv(q: Writer, queued: seq<Session>) {
    && (queued != [] ==> LastOf(queued) == if q.pending.Some? then q.pending.value
                                          else if q.issued != [] then LastOf(q.issued) else LastOf(queued))
    && |q.inFlight| == (if q.running then 1 else 0)
    && (q.pending.Some? ==> q.running)
    && (q.running ==> q.issued != [])
    && (q.pending.Some? ==> queued != [])
    && (forall s :: s in q.issued ==> s in queued)
    && (q.issued == [] ==> queued == [])
    && (NonDecreasing(queued) ==> NonDecreasing(q.issued))
  }

  lemma InOrder(issued: seq<Session>, queued: seq<Session>)
    requires queued != [] && (forall s :: s in issued ==> s in queued)
    requires NonDecreasing(queued) ==> NonDecreasing(issued)
    ensures NonDecreasing(queued) ==> NonDecreasing(issued + [LastOf(queued)])
  {
    if NonDecreasing(queued) {
      forall i | 0 <= i < |issued| ensures issued[i].ver <= LastOf(queued).ver {
        assert issued[i] in queued;
        var k :| 0 <= k < |queued| && queued[k] == issued[i];
      }
    }
  }

  lemma PrefixInOrder(queued: seq<Session>, s: Session)
    ensures NonDecreasing(queued + [s]) ==> NonDecreasing(queued)
  {
    var more := queued + [s];
    if NonDecreasing(more) {
      forall i, j | 0 <= i < j < |queued| ensures queued[i].ver <= queued[j].ver {
        assert more[i].ver <= more[j].ver;
      }
    }
  }

  function With(queued: seq<Session>, e: WriterEvent): seq<Session> {
    if e.Queue? then queued + [e.s] else queued
  }

  lemma NextKeeps(q: Writer, queued: seq<Session>, e: WriterEvent)
    requires WriterInv(q, queued) && Possible(q, e)
    ensures WriterInv(WriterNext(q, e), With(queued, e))
  {
    if e.Queue? {
      var more := queued + [e.s];
      PrefixInOrder(queued, e.s);
      assert forall s :: s in q.issued ==> s in more;
      InOrder(q.issued, more);
      assert LastOf(more) == e.s && e.s in more;
    } else if q.pending.Some? {
      InOrder(q.issued, queued);
      assert LastOf(queued) in queued;
    }
  }

  lemma QueuedFirst(queued: seq<Session>, e: WriterEvent, es: seq<WriterEvent>)
    requires es != [] && es[0] == e
    ensures With(queued, e) + Queued(es[1..]) == queued + Queued(es)
  {
  }

  lemma {:induction false} RunKeeps(q: Writer, queued: seq<Session>, es: seq<WriterEvent>, total: seq<Session>)
    requires WriterInv(q, queued) && PossibleRun(q, es) && total == queued + Queued(es)
    ensures WriterInv(WriterRun(q, es), total)
    decreases |es|
  {
    if es == [] {
      assert total == queued;
    } else {
      NextKeeps(q, queued, es[0]);
      QueuedFirst(queued, es[0], es);
      RunKeeps(WriterNext(q, es[0]), With(queued, es[0]), es[1..], total);
    }
  }

  /** Over any run: at most one PUT is in flight, versions go out in order, and an idle
      writer has issued the last save queued. */
  lemma WriterSafe(es: seq<WriterEvent>)
    requires PossibleRun(IdleWriter, es)
    ensures var q, queued := WriterRun(IdleWriter, es), Queued(es);
      && |q.inFlight| == (if q.running then 1 else 0) && (q.pending.Some? ==> q.running)
      && (NonDecreasing(queued) ==> NonDecreasing(q.issued))
      && (forall s :: s in q.issued ==> s in queued)
      && (!q.running && queued != [] ==> q.issued != [] && LastOf(q.issued) == LastOf(queued))
  {
    assert [] + Queued(es) == Queued(es);
    RunKeeps(IdleWriter, [], es, Queued(es));
  }

  /** One peer's entry of _podWrites, updated in place. */
  class PodWriter {
    var pending: Option<Session>
    var running: bool
    ghost var inFlight: seq<Session>
    ghost var issued: seq<Session>

    ghost function View(): Writer
      reads this
    {
      Writer(pending, running, inFlight, issued)
    }

    constructor ()
      ensures View() == IdleWriter
    {
      pending, running, inFlight, issued := None, false, [], [];
    }

    method Queue(s: Session)
      modifies this
      ensures View() == QueueWrite(old(View()), s)
    {
      pending := Some(s);
      if running { return; }
      running := true;
      WriteOn();
    }

    /** The loop body up to its await: take the waiting job and start its PUT, or stop. */
    method WriteOn()
      modifies this
      ensures View() == Loop(old(View()))
    {
      if pending.Some? {
        var job := pending.value;
        pending := None;
        inFlight, issued := inFlight + [job], issued + [job];
      } else {
        running := false;
      }
    }

    /** A PUT settles, landed or failed. */
    method Settled(ghost i: nat)
      requires i < |inFlight|
      modifies this
      ensures View() == Settle(old(View()), i)
    {
      inFlight := inFlight[..i] + inFlight[i + 1..];
      WriteOn();
    }
  }

  // ---- Newest copy wins, over any run ----

  /** One peer's copies: the cache, local storage, the pod's device copy, the old shared
      copy, and every session ever handed to the pod writer. */
  datatype Copies = Copies(cache: Option<Session>, local: Option<Blob>, device: Option<Blob>,
                           legacy: Option<Blob>, queued: seq<Session>)

  /** change is any rewrite of the loaded session, including starting a new one. */
  datatype StoreEvent =
    | Saved(s: Session, toPod: bool)     // loaded, changed, stamped and stored
    | SaveFailed(s: Session)             // stamped into the cache only
    | Changed(s: Session)                // changed in the cache and not stamped
    | Loaded(toPod: bool)                // read into the cache, perhaps copied to the pod
    | Landed(i: nat)                     // some queued PUT reaches the pod
    | Restarted                          // the cache is gone

  function Look(c: Copies): Option<Session> {
    if c.cache.Some? then c.cache else Newest(c.local, c.device, c.legacy)
  }

  function LookVersion(c: Copies): nat { if Look(c).Some? then Look(c).value.ver else 0 }

  predicate StorePossible(c: Copies, e: StoreEvent) {
    match e
    case Saved(s, _) => s.ver == LookVersion(c)
    case SaveFailed(s) => s.ver == LookVersion(c)
    case Changed(s) => c.cache.Some? && s.ver == LookVersion(c)
    case Landed(i) => i < |c.queued|
    case _ => true
  }

  function StoreNext(c: Copies, e: StoreEvent): Copies
    requires StorePossible(c, e)
  {
    match e
    case Saved(s, toPod) =>
      c.(cache := Some(Stamp(s)), local := Some(Stored(Stamp(s))),
         queued := if toPod then c.queued + [Stamp(s)] else c.queued)
    case SaveFailed(s) => c.(cache := Some(Stamp(s)))
    case Changed(s) => c.(cache := Some(s))
    case Loaded(toPod) =>
      if c.cache.Some? then c else
      c.(cache := Look(c), queued := if toPod && Look(c).Some? then c.queued + [Look(c).value] else c.queued)
    case Landed(i) => c.(device := Some(Stored(c.queued[i])))
    case Restarted => c.(cache := None)
  }

  predicate StoreRun(c: Copies, es: seq<StoreEvent>)
    decreases |es|
  {
    es == [] || (StorePossible(c, es[0]) && StoreRun(StoreNext(c, es[0]), es[1..]))
  }

  function StoreEnd(c: Copies, es: seq<StoreEvent>): Copies
    requires StoreRun(c, es)
    decreases |es|
  {
    if es == [] then c else StoreEnd(StoreNext(c, es[0]), es[1..])
  }

  /** What local storage should hold: the session of the last completed save. */
  function LastSaved(first: Option<Session>, es: seq<StoreEvent>): Option<Session>
    decreases |es|
  {
    if es == [] then first
    else LastSaved(if es[0].Saved? then Some(Stamp(es[0].s)) else first, es[1..])
  }

  predicate NotNewer(b: Option<Blob>, s: Option<Session>) {
    b.Some? && b.value != Unreadable ==> s.Some? && Version(b.value) <= s.value.ver
  }

  /** Local storage holds the last save, and the cache aside nothing is newer. */
  predicate StoreInv(c: Copies, saved: Option<Session>) {
    && c.local == (if saved.Some? then Some(Stored(saved.value)) else None)
    && NotNewer(c.device, saved) && NotNewer(c.legacy, saved)
    && (saved.Some? && c.cache.Some? ==> c.cache.value.ver >= saved.value.ver)
    && forall q :: q in c.queued ==> saved.Some? && q.ver <= saved.value.ver
  }

  lemma StoreStepKeeps(c: Copies, saved: Option<Session>, e: StoreEvent)
    requires StoreInv(c, saved) && StorePossible(c, e)
    ensures StoreInv(StoreNext(c, e), if e.Saved? then Some(Stamp(e.s)) else saved)
  {
    BestIsNewest(c.local, c.device, c.legacy);
    if e.Landed? { assert c.queued[e.i] in c.queued; }
  }

  lemma {:induction false} StoreRunKeeps(c: Copies, saved: Option<Session>, es: seq<StoreEvent>)
    requires StoreInv(c, saved) && StoreRun(c, es)
    ensures StoreInv(StoreEnd(c, es), LastSaved(saved, es))
    decreases |es|
  {
    if es != [] {
      StoreStepKeeps(c, saved, es[0]);
      StoreRunKeeps(StoreNext(c, es[0]), if es[0].Saved? then Some(Stamp(es[0].s)) else saved, es[1..]);
    }
  }

  /** Whatever subset of pod writes landed, in whatever order, and however many saves
      failed, a restart finds the session of the last completed save. */
  lemma RestartFindsLastSave(c: Copies, saved: Option<Session>, es: seq<StoreEvent>)
    requires StoreInv(c, saved) && StoreRun(c, es)
    ensures Look(StoreNext(StoreEnd(c, es), Restarted)) == LastSaved(saved, es)
  {
    StoreRunKeeps(c, saved, es);
    var d := StoreEnd(c, es);
    BestIsNewest(d.local, d.device, d.legacy);
  }

  // ---- Saves, reloads and the writer together ----

  /** One browser page: the copies, the writer, and what this page handed to it.  issued of the
      writer goes on over reloads. */
  datatype Page = Page(c: Copies, q: Writer, here: seq<Session>)

  datatype PageEvent = Store(e: StoreEvent) | PutSettled(i: nat)

  predicate PagePossible(p: Page, e: PageEvent) {
    match e
    case Store(se) => StorePossible(p.c, se)
    case PutSettled(i) => i < |p.q.inFlight|
  }

  /** A reload forgets the writer; whatever a store event queues goes to it at once. */
  function PageNext(p: Page, e: PageEvent): Page
    requires PagePossible(p, e)
  {
    match e
    case PutSettled(i) => p.(q := Settle(p.q, i))
    case Store(se) =>
      var c := StoreNext(p.c, se);
      if se.Restarted? then Page(c, Writer(None, false, [], p.q.issued), [])
      else if |c.queued| > |p.c.queued| then Handed(p.(c := c), LastOf(c.queued))
      else p.(c := c)
  }

  function Handed(p: Page, s: Session): Page {
    p.(q := QueueWrite(p.q, s), here := p.here + [s])
  }

  predicate PageRun(p: Page, es: seq<PageEvent>)
    decreases |es|
  {
    es == [] || (PagePossible(p, es[0]) && PageRun(PageNext(p, es[0]), es[1..]))
  }

  function PageEnd(p: Page, es: seq<PageEvent>): Page
    requires PageRun(p, es)
    decreases |es|
  {
    if es == [] then p else PageEnd(PageNext(p, es[0]), es[1..])
  }

  predicate NoneNewer(ss: seq<Session>, ver: nat) { forall s :: s in ss ==> s.ver <= ver }

  /** PUTs went out in version order and what waits is no older. */
  predicate InVersionOrder(q: Writer, queued: seq<Session>) {
    && NonDecreasing(q.issued) && (forall s :: s in q.issued ==> s in queued)
    && (q.pending.Some? ==> q.pending.value in queued && NoneNewer(q.issued, q.pending.value.ver))
  }

  /** At most one PUT is in flight, and the last save handed over waits or was issued last. */
  predicate KeepsUp(q: Writer, here: seq<Session>) {
    && |q.inFlight| == (if q.running then 1 else 0)
    && (q.running ==> here != []) && (q.pending.Some? ==> q.running)
    && (here != [] ==>
          if q.pending.Some? then LastOf(here) == q.pending.value
          else q.issued != [] && LastOf(here) == LastOf(q.issued))
  }

  predicate PageInv(p: Page, saved: Option<Session>) {
    && StoreInv(p.c, saved) && NonDecreasing(p.c.queued)
    && InVersionOrder(p.q, p.c.queued) && KeepsUp(p.q, p.here)
  }

  lemma AppendInOrder(ss: seq<Session>, s: Session)
    requires NonDecreasing(ss) && NoneNewer(ss, s.ver)
    ensures NonDecreasing(ss + [s])
  {
    forall i | 0 <= i < |ss| ensures ss[i].ver <= s.ver { assert ss[i] in ss; }
  }

  lemma LoopInOrder(q: Writer, queued: seq<Session>)
    requires InVersionOrder(q, queued)
    ensures InVersionOrder(Loop(q), queued)
  {
    if q.pending.Some? { AppendInOrder(q.issued, q.pending.value); }
  }

  /** A save no older than any queued before joins the queue. */
  lemma HandKeeps(q: Writer, queued: seq<Session>, here: seq<Session>, s: Session)
    requires InVersionOrder(q, queued) && KeepsUp(q, here) && NoneNewer(queued, s.ver)
    ensures InVersionOrder(QueueWrite(q, s), queued + [s]) && KeepsUp(QueueWrite(q, s), here + [s])
  {
    var q1 := q.(pending := Some(s));
    assert InVersionOrder(q1, queued + [s]);
    LoopInOrder(q1.(running := true), queued + [s]);
    assert LastOf(here + [s]) == s;
  }

  lemma SettleKeeps(q: Writer, queued: seq<Session>, here: seq<Session>, i: nat)
    requires InVersionOrder(q, queued) && KeepsUp(q, here) && i < |q.inFlight|
    ensures InVersionOrder(Settle(q, i), queued) && KeepsUp(Settle(q, i), here)
  {
    var q1 := q.(inFlight := q.inFlight[..i] + q.inFlight[i + 1..]);
    assert q1.inFlight == [];
    LoopInOrder(q1, queued);
  }

  /** What a store event adds to the queue is no older than what is there. */
  lemma QueueGrows(c: Copies, saved: Option<Session>, e: StoreEvent)
    requires StoreInv(c, saved) && StorePossible(c, e)
    ensures var d := StoreNext(c, e);
      d.queued == c.queued || (d.queued != [] && d.queued == c.queued + [LastOf(d.queued)] && NoneNewer(c.queued, LastOf(d.queued).ver))
  {
    BestIsNewest(c.local, c.device, c.legacy);
  }

  function SavedBy(saved: Option<Session>, e: PageEvent): Option<Session> {
    if e.Store? && e.e.Saved? then Some(Stamp(e.e.s)) else saved
  }

  lemma PageStepKeeps(p: Page, saved: Option<Session>, e: PageEvent)
    requires PageInv(p, saved) && PagePossible(p, e)
    ensures PageInv(PageNext(p, e), SavedBy(saved, e))
  {
    match e
    case PutSettled(i) => SettleKeeps(p.q, p.c.queued, p.here, i);
    case Store(se) =>
      StoreStepKeeps(p.c, saved, se);
      QueueGrows(p.c, saved, se);
      var c := StoreNext(p.c, se);
      if c.queued != p.c.queued {
        var s := LastOf(c.queued);
        AppendInOrder(p.c.queued, s);
        HandKeeps(p.q, p.c.queued, p.here, s);
      }
  }

  lemma {:induction false} PageRunKeeps(p: Page, saved: Option<Session>, es: seq<PageEvent>) returns (last: Option<Session>)
    requires PageInv(p, saved) && PageRun(p, es)
    ensures PageInv(PageEnd(p, es), last)
    decreases |es|
  {
    last := saved;
    if es != [] {
      PageStepKeeps(p, saved, es[0]);
      last := PageRunKeeps(PageNext(p, es[0]), SavedBy(saved, es[0]), es[1..]);
    }
  }

  /**
   Over any run of saves, broken saves, loads, reloads and settled PUTs from the state of a last
   save: PUTs go out with nondecreasing versions, at most one of the page is in flight, only what
   was queued is written, and a writer at rest has issued the last save the page handed it.
   */
  lemma PutsGoOutInOrder(c: Copies, saved: Option<Session>, es: seq<PageEvent>)
    requires StoreInv(c, saved) && c.queued == [] && PageRun(Page(c, IdleWriter, []), es)
    ensures var p := PageEnd(Page(c, IdleWriter, []), es);
      && NonDecreasing(p.q.issued)
      && |p.q.inFlight| == (if p.q.running then 1 else 0) && (p.q.pending.Some? ==> p.q.running)
      && (forall s :: s in p.q.issued ==> s in p.c.queued)
      && (!p.q.running && p.here != [] ==> p.q.issued != [] && LastOf(p.q.issued) == LastOf(p.here))
  {
    var last := PageRunKeeps(Page(c, IdleWriter, []), saved, es);
  }
}
