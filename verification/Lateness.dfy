/**
 What late messages can count on: the keys of skipped messages are all buffered, and pn
 covers the whole chain before it.
 */
module Lateness {
  import opened Prelude
  import opened Crypto
  import opened Ratchet
  import opened Epochs
  import opened Sessions
  import opened Selection
  import opened Agreement
  import opened Conversation

  // ---- Age in the buffer ----

  /** The label is among the last k of the buffer, so the cap evicts others first. */
  predicate Young(sk: seq<Entry>, p: Text, n: nat, k: nat) {
    exists i :: 0 <= i < |sk| && Labelled(sk[i], p, n) && |sk| - i <= k
  }

  lemma YoungIsBuffered(sk: seq<Entry>, p: Text, n: nat, k: nat)
    requires Young(sk, p, n, k)
    ensures Buffered(sk, p, n)
  {
    BufferedIff(sk, p, n);
  }

  /** The cap spares the last hundred. */
  lemma YoungSurvivesCap(sk: seq<Entry>, p: Text, n: nat, k: nat)
    requires Young(sk, p, n, k) && k <= 100
    ensures Young(Cap(sk), p, n, k)
  {
    var i :| 0 <= i < |sk| && Labelled(sk[i], p, n) && |sk| - i <= k;
    var c := Cap(sk);
    assert c[i - (|sk| - |c|)] == sk[i];
  }

  lemma YoungAppend(sk: seq<Entry>, x: Entry, p: Text, n: nat, k: nat)
    requires Young(sk, p, n, k)
    ensures Young(sk + [x], p, n, k + 1)
  {
    var i :| 0 <= i < |sk| && Labelled(sk[i], p, n) && |sk| - i <= k;
    assert (sk + [x])[i] == sk[i];
  }

  /** Under the invariant a skip appends. */
  lemma SkipOneAppends(keys: seq<Priv>, r: nat, s: Session)
    requires KeysOk(keys) && 1 <= r < |keys| && RecvOk(keys, r, s)
    ensures SkipOne(s).skipped == s.skipped + [Entry(s.their, s.recvMsgNum, MsgKey(s.recvChain.value))]
    ensures RecvOk(keys, r, SkipOne(s))
  {
    forall i | 0 <= i < |s.skipped| ensures !Labelled(s.skipped[i], s.their, s.recvMsgNum) {
      assert EntryOk(keys, r, s.their, s.recvMsgNum, s.skipped[i]);
    }
    SkipKeeps(keys, r, s, s.recvMsgNum + 1);
    assert SkipTo(s, s.recvMsgNum + 1) == SkipOne(s);
  }

  /** Skipping ages every label by one per key. */
  lemma {:induction false} SkipAges(keys: seq<Priv>, r: nat, s: Session, stop: int, p: Text, n: nat, k: nat)
    requires KeysOk(keys) && 1 <= r < |keys| && RecvOk(keys, r, s) && s.recvMsgNum <= stop
    requires Young(s.skipped, p, n, k)
    ensures Young(SkipTo(s, stop).skipped, p, n, k + (stop - s.recvMsgNum))
    decreases stop - s.recvMsgNum
  {
    if s.recvMsgNum < stop {
      SkipOneAppends(keys, r, s);
      YoungAppend(s.skipped, Entry(s.their, s.recvMsgNum, MsgKey(s.recvChain.value)), p, n, k);
      SkipAges(keys, r, SkipOne(s), stop, p, n, k + 1);
    }
  }

  /** Every skipped number is buffered, the last one youngest. */
  lemma {:induction false} SkipBuffers(keys: seq<Priv>, r: nat, s: Session, stop: int, n: nat)
    requires KeysOk(keys) && 1 <= r < |keys| && RecvOk(keys, r, s)
    requires s.recvMsgNum <= n < stop
    ensures Young(SkipTo(s, stop).skipped, s.their, n, stop - n)
    decreases stop - s.recvMsgNum
  {
    SkipOneAppends(keys, r, s);
    var s1 := SkipOne(s);
    if n == s.recvMsgNum {
      assert Labelled(s1.skipped[|s.skipped|], s.their, n);
      SkipAges(keys, r, s1, stop, s.their, n, 1);
    } else {
      SkipBuffers(keys, r, s1, stop, n);
    }
  }

  lemma {:induction false} OfChainYoung(sk: seq<Entry>, p: Text, n: nat, k: nat)
    requires Young(sk, p, n, k)
    ensures Young(OfChain(sk, p), p, n, k)
  {
    var i :| 0 <= i < |sk| && Labelled(sk[i], p, n) && |sk| - i <= k;
    var rest := sk[1..];
    OfChainMembers(sk, p);
    if i > 0 {
      assert Labelled(rest[i - 1], p, n) && |rest| - (i - 1) <= k;
      OfChainYoung(rest, p, n, k);
      var j :| 0 <= j < |OfChain(rest, p)| && Labelled(OfChain(rest, p)[j], p, n) && |OfChain(rest, p)| - j <= k;
      var shift := |OfChain(sk, p)| - |OfChain(rest, p)|;
      assert OfChain(sk, p)[j + shift] == OfChain(rest, p)[j];
    } else {
      assert OfChain(sk, p)[0] == sk[0];
    }
  }

  // ---- One delivery ----

  /** Taking message num buffers every number before it, and ages what was there by as many. */
  lemma TakeBuffers(keys: seq<Priv>, role: Role, s: Session, num: nat, n: nat)
    requires KeysOk(keys) && SessionAt(keys, role, Some(s)) && Take(s, num).Ok?
    requires s.recvMsgNum <= n < num
    ensures Young(Take(s, num).value.0.skipped, s.their, n, MAX_SKIP)
  {
    SkipBuffers(keys, RecvEpoch(role, Epoch(Some(s))), s, num, n);
    var u := SkipTo(s, num);
    YoungSurvivesCap(u.skipped, s.their, n, num - n);
  }

  /** Skipping at most MAX_SKIP keys and capping keeps what is young enough. */
  lemma SkipAndCapAges(keys: seq<Priv>, r: nat, s: Session, stop: int, p: Text, n: nat, k: nat)
    requires KeysOk(keys) && 1 <= r < |keys| && RecvOk(keys, r, s) && stop <= s.recvMsgNum + MAX_SKIP
    requires Young(s.skipped, p, n, k) && k + MAX_SKIP <= MAX_SKIPPED_KEYS
    ensures Young(Cap(SkipTo(s, stop).skipped), p, n, k + MAX_SKIP)
  {
    if s.recvMsgNum <= stop {
      SkipAges(keys, r, s, stop, p, n, k);
      YoungSurvivesCap(SkipTo(s, stop).skipped, p, n, k + (stop - s.recvMsgNum));
    } else {
      YoungSurvivesCap(s.skipped, p, n, k);
    }
  }

  lemma TakeAges(keys: seq<Priv>, role: Role, s: Session, num: nat, p: Text, n: nat, k: nat)
    requires KeysOk(keys) && SessionAt(keys, role, Some(s)) && Take(s, num).Ok?
    requires Young(s.skipped, p, n, k) && k + MAX_SKIP <= MAX_SKIPPED_KEYS
    ensures Young(Take(s, num).value.0.skipped, p, n, k + MAX_SKIP)
  {
    SkipAndCapAges(keys, RecvEpoch(role, Epoch(Some(s))), s, num, p, n, k);
  }

  /** Retiring a chain buffers its missing numbers below pn, up to MAX_SKIP of them. */
  lemma RetireBuffers(keys: seq<Priv>, r: nat, s: Session, pn: int, n: nat)
    requires KeysOk(keys) && 1 <= r < |keys| && RecvOk(keys, r, s)
    requires s.recvMsgNum <= n < pn && n < s.recvMsgNum + MAX_SKIP
    ensures Young(Retire(s, pn).skipped, s.their, n, MAX_SKIP)
  {
    var s1 := s.(skipped := OfChain(s.skipped, s.their));
    var stop := Min(pn, s.recvMsgNum + MAX_SKIP);
    OfChainAt(keys, r, s.their, s.recvMsgNum, s.skipped);
    SkipBuffers(keys, r, s1, stop, n);
    YoungSurvivesCap(SkipTo(s1, stop).skipped, s.their, n, stop - n);
  }

  lemma RetireIs(s: Session, pn: int, s1: Session, stop: int)
    requires s.recvChain.Some? && s1 == s.(skipped := OfChain(s.skipped, s.their)) && stop == Min(pn, s.recvMsgNum + MAX_SKIP)
    ensures Retire(s, pn).skipped == Cap(SkipTo(s1, stop).skipped)
  {
  }

  /** Retiring a chain keeps its own buffered keys that are young enough. */
  lemma RetireAges(keys: seq<Priv>, r: nat, s: Session, pn: int, n: nat, k: nat)
    requires KeysOk(keys) && 1 <= r < |keys| && RecvOk(keys, r, s)
    requires Young(s.skipped, s.their, n, k) && k + MAX_SKIP <= MAX_SKIPPED_KEYS
    ensures Young(Retire(s, pn).skipped, s.their, n, k + MAX_SKIP)
  {
    var s1 := s.(skipped := OfChain(s.skipped, s.their));
    var stop := Min(pn, s.recvMsgNum + MAX_SKIP);
    OfChainAt(keys, r, s.their, s.recvMsgNum, s.skipped);
    OfChainYoung(s.skipped, s.their, n, k);
    SkipAndCapAges(keys, r, s1, stop, s.their, n, k);
    RetireIs(s, pn, s1, stop);
  }

  // ---- pn ----

  /** pn as a message of this epoch must have it, after x of the same side: over x's number if x is of the
      previous chain, x's own on the same chain, and zero on either side's first chain. */
  predicate PnFits(x: Sent, epoch: int, pn: nat) {
    && (x.epoch + 2 == epoch ==> x.num < pn)
    && (x.epoch == epoch ==> x.pn == pn)
    && (epoch <= 2 ==> pn == 0)
  }

  predicate PnLog(sent: seq<Sent>) {
    forall i, j :: 0 <= i < |sent| && 0 <= j < |sent| ==> PnFits(sent[i], sent[j].epoch, sent[j].pn)
  }

  /** So will the pn that session s sends next. */
  predicate PnNext(role: Role, s: Option<Session>, sent: seq<Sent>) {
    s.Some? ==>
      && (SendEpoch(role, Epoch(s)) <= 2 ==> s.value.sendPrevLen == 0)
      && forall i :: 0 <= i < |sent| ==> PnFits(sent[i], SendEpoch(role, Epoch(s)), s.value.sendPrevLen)
  }

  predicate PnParty(role: Role, p: Party) {
    PnLog(p.sent) && PnNext(role, p.live, p.sent) && PnNext(role, p.saved, p.sent)
  }

  /** From one side: that side, then its peer. */
  predicate PnFrom(w: World, role: Role) {
    PnParty(role, Get(w, role)) && PnParty(Peer(role), Get(w, Peer(role)))
  }

  predicate PnInv(w: World) { PnFrom(w, Initiator) }

  lemma PnEitherSide(w: World, role: Role)
    ensures PnFrom(w, role) <==> PnInv(w)
  {
  }

  /** The sending step closes a chain and counts all of it. */
  lemma ReadyPn(keys: seq<Priv>, role: Role, live: Option<Session>, peer: Text, k: Priv, sent: seq<Sent>)
    requires |keys| >= 1 && SessionAt(keys, role, live) && (live.None? ==> sent == [])
    requires Below(role, live, sent) && PnNext(role, live, sent)
    ensures PnNext(role, Some(ReadyToSend(live, peer, k)), sent)
  {
    if live.Some? && live.value.pending {
      var r := ReadyToSend(live, peer, k);
      forall i | 0 <= i < |sent| ensures PnFits(sent[i], SendEpoch(role, Epoch(Some(r))), r.sendPrevLen) {
        assert NumberedBelow(sent[i], SendEpoch(role, Epoch(live)), live.value.sendMsgNum);
      }
    }
  }

  lemma PnGrows(role: Role, r: Session, sent: seq<Sent>, nonce: nat, plain: string)
    requires PnLog(sent) && PnNext(role, Some(r), sent) && Below(role, Some(r), sent) && SendEpoch(role, Epoch(Some(r))) >= 0
    ensures var t := Stamp(TakeSendKey(r)); var more := sent + [Record(role, t, nonce, plain)];
      PnLog(more) && PnNext(role, Some(t), more)
  {
    var t := Stamp(TakeSendKey(r));
    var x := Record(role, t, nonce, plain);
    var more := sent + [x];
    assert x.epoch == SendEpoch(role, Epoch(Some(r)));
    forall j | 0 <= j < |sent| ensures sent[j].epoch <= x.epoch {
      assert NumberedBelow(sent[j], SendEpoch(role, Epoch(Some(r))), r.sendMsgNum);
    }
  }

  lemma SendKeepsPn(w: World, st: Step)
    requires InvFrom(w, st.role) && st.Send? && Legal(w, st) && st.fault.NoFault?
    requires PnParty(st.role, Get(w, st.role))
    ensures PnParty(st.role, Get(ApplySend(w, st), st.role))
    ensures Get(ApplySend(w, st), Peer(st.role)) == Get(w, Peer(st.role))
  {
    SendIsStaged(w, st);
    var p := Get(w, st.role);
    if p.live.Some? || st.role.Initiator? {
      var r := ReadyToSend(p.live, PeerText(w), st.newPriv);
      ReadyPn(w.keys + p.tip, st.role, p.live, PeerText(w), st.newPriv, p.sent);
      ReadyPlaced(w.keys, st.role, p.live, p.tip, PeerText(w), st.newPriv);
      SendsFromKeeps(w.keys, st.role, p.live, r, p.sent, p.accepted);
      PnGrows(st.role, r, p.sent, st.nonce, st.plain);
    }
  }

  lemma PnSame(role: Role, s: Session, t: Session, sent: seq<Sent>)
    requires PnNext(role, Some(s), sent) && t.rootKey == s.rootKey && t.sendPrevLen == s.sendPrevLen
    ensures PnNext(role, Some(t), sent)
  {
  }

  lemma BrokenPn(role: Role, live: Option<Session>, peer: Option<Text>, keys: seq<Priv>, k: Priv, f: Fault, sent: seq<Sent>)
    requires |keys| >= 1 && SessionAt(keys, role, live) && (live.None? ==> sent == []) && f != NoFault
    requires Below(role, live, sent) && PnNext(role, live, sent)
    ensures PnNext(role, AfterBrokenSend(live, peer, k, f), sent)
  {
    if live.Some? {
      ReadyPn(keys, role, live, Text(0, 0), k, sent);
      var r := ReadyToSend(live, Text(0, 0), k);
      PnSame(role, r, TakeSendKey(r), sent);
      PnSame(role, r, Stamp(TakeSendKey(r)), sent);
    }
  }

  lemma BrokenSendKeepsPn(w: World, st: Step)
    requires InvFrom(w, st.role) && st.Send? && Legal(w, st) && !st.fault.NoFault?
    requires PnParty(st.role, Get(w, st.role))
    ensures PnParty(st.role, Get(ApplySend(w, st), st.role))
    ensures Get(ApplySend(w, st), Peer(st.role)) == Get(w, Peer(st.role))
  {
    var p := Get(w, st.role);
    var live := AfterBrokenSend(p.live, PeerKey(w, st.role), st.newPriv, st.fault);
    BrokenPn(st.role, p.live, PeerKey(w, st.role), w.keys + p.tip, st.newPriv, st.fault, p.sent);
    RelivePn(w, st.role, p, live, st.newPriv);
  }

  lemma RelivePn(w: World, role: Role, p: Party, live: Option<Session>, k: Priv)
    requires PnParty(role, p) && PnNext(role, live, p.sent)
    ensures var v := Set(w, role, Relive(p, live, k));
      PnParty(role, Get(v, role)) && Get(v, Peer(role)) == Get(w, Peer(role))
  {
  }

  /** Receiving leaves the sending half alone. */
  lemma SelectKeepsSending(s: Session, id: Priv, k: Priv, m: Msg, allowInit: bool)
    requires Select(Some(s), id, k, m, allowInit).Ok?
    ensures Select(Some(s), id, k, m, allowInit).value.0.sendPrevLen == s.sendPrevLen
  {
    if !FromBuffer(s, m) {
      var u := Enter(Some(s), id, k, m.pub, m.pn.n, allowInit).value;
      SkipFrame(u, m.msgNum.n);
      if FromNewChain(s, m) { RetireFrame(s, m.pn.n); }
    }
  }

  /** What a delivery leaves: the old session or the one it accepted, in the cache and perhaps in storage. */
  lemma ReceiveShape(w: World, st: Step)
    requires |w.keys| >= 1 && st.Receive?
    ensures var p, q := Get(w, st.role), Get(ApplyReceive(w, st), st.role);
      var d := Decrypt(p.live, Identity(w, st.role), st.newPriv, st.m, st.allowInit);
      && q.sent == p.sent
      && (q.live == p.live || (d.Ok? && q.live == Some(d.value.0)))
      && (q.saved == p.saved || q.saved == q.live)
    ensures Get(ApplyReceive(w, st), Peer(st.role)) == Get(w, Peer(st.role))
  {
  }

  lemma ReceiveKeepsPn(w: World, st: Step)
    requires InvFrom(w, st.role) && st.Receive? && Legal(w, st)
    requires PnParty(st.role, Get(w, st.role))
    ensures PnParty(st.role, Get(ApplyReceive(w, st), st.role))
    ensures Get(ApplyReceive(w, st), Peer(st.role)) == Get(w, Peer(st.role))
  {
    ReceiveShape(w, st);
    if Decrypt(Get(w, st.role).live, Identity(w, st.role), st.newPriv, st.m, st.allowInit).Ok? {
      ReceivedPn(w, st.role, Identity(w, st.role), st.newPriv, st.m, st.allowInit);
    }
  }

  lemma ReceivedPn(w: World, role: Role, id: Priv, k: Priv, m: Msg, allowInit: bool)
    requires InvFrom(w, role) && Deliverable(w, role, m, allowInit) && PnParty(role, Get(w, role))
    requires Decrypt(Get(w, role).live, id, k, m, allowInit).Ok?
    ensures PnNext(role, Some(Decrypt(Get(w, role).live, id, k, m, allowInit).value.0), Get(w, role).sent)
  {
    var p := Get(w, role);
    if p.live.Some? {
      var x := AcceptedMoves(w, role, id, k, m, allowInit);
      var t := Select(p.live, id, k, m, allowInit).value.0;
      SelectKeepsSending(p.live.value, id, k, m, allowInit);
      MovesKeepsPn(w, role, m, p.live.value, p.tip, t, x, p.sent);
    } else {
      var x := FirstMessage(w, role, id, k, m, allowInit);
      SkipFrame(InitReceiver(m.pub.text, id, k), m.msgNum.n);
    }
  }

  lemma MovesKeepsPn(w: World, role: Role, m: Msg, s: Session, tip: seq<Priv>, t: Session, x: Sent, sent: seq<Sent>)
    requires KeysOk(w.keys) && Moves(w, role, m, s, tip, t, x) && PnNext(role, Some(s), sent)
    requires t.sendPrevLen == s.sendPrevLen
    ensures PnNext(role, Some(Stamp(t)), sent)
  {
  }

  lemma RestartKeepsPn(w: World, role: Role)
    requires |w.keys| >= 1 && PnParty(role, Get(w, role))
    ensures PnParty(role, Get(Apply(w, Restart(role)), role))
    ensures Get(Apply(w, Restart(role)), Peer(role)) == Get(w, Peer(role))
  {
  }

  lemma StepKeepsPnFrom(w: World, st: Step)
    requires InvFrom(w, st.role) && Legal(w, st) && PnFrom(w, st.role)
    ensures PnFrom(Apply(w, st), st.role)
  {
    match st
    case Send(_, _, _, _, f, _) => if f.NoFault? { SendKeepsPn(w, st); } else { BrokenSendKeepsPn(w, st); }
    case Receive(_, _, _, _, _) => ReceiveKeepsPn(w, st);
    case Restart(role) => RestartKeepsPn(w, role);
  }

  lemma StepKeepsPn(w: World, st: Step)
    requires Inv(w) && Legal(w, st) && PnInv(w)
    ensures PnInv(Apply(w, st))
  {
    EitherSide(w, st.role);
    PnEitherSide(w, st.role);
    StepKeepsPnFrom(w, st);
    PnEitherSide(Apply(w, st), st.role);
  }

  lemma {:induction false} RunKeepsPn(w: World, steps: seq<Step>, w2: World)
    requires Inv(w) && PnInv(w) && Reaches(w, steps, w2)
    ensures PnInv(w2)
    decreases |steps|
  {
    if steps != [] {
      StepKeepsInv(w, steps[0]);
      StepKeepsPn(w, steps[0]);
      RunKeepsPn(Apply(w, steps[0]), steps[1..], w2);
    }
  }

  /** In every reachable world pn of a released message exceeds every number its side released on the chain
      before, is the same on every message of its chain, and is zero on the first. */
  lemma PnCoversPreviousChain(w: World, role: Role, x: Sent, y: Sent)
    requires Reachable(w) && x in Get(w, role).sent && y in Get(w, role).sent
    ensures x.epoch + 2 == y.epoch ==> x.num < y.pn
    ensures x.epoch == y.epoch ==> x.pn == y.pn
    ensures y.epoch <= 2 ==> y.pn == 0
  {
    var r: Priv, i: Priv, form: nat, steps: seq<Step> :| Honest(r) && Reaches(Start(r, i, form), steps, w);
    StartInv(r, i, form);
    RunKeepsPn(Start(r, i, form), steps, w);
    PnEitherSide(w, role);
  }

  // ---- Late messages ----

  /** Entering the next chain and taking a message there buffers the retired chain's missing numbers. */
  lemma NewChainBuffers(keys: seq<Priv>, role: Role, s: Session, pub: Text, pn: int, num: nat, n: nat)
    requires KeysOk(keys) && SessionAt(keys, role, Some(s)) && Sends(role, Epoch(Some(s)))
    requires Epoch(Some(s)) + 1 < |keys| && pub.key == keys[Epoch(Some(s)) + 1]
    requires RecvEpoch(role, Epoch(Some(s))) >= 1 && s.recvMsgNum <= n < pn && n < s.recvMsgNum + MAX_SKIP
    requires Take(DhReceive(s, pub, pn), num).Ok?
    ensures Young(Take(DhReceive(s, pub, pn), num).value.0.skipped, s.their, n, 2 * MAX_SKIP)
  {
    RetireBuffers(keys, RecvEpoch(role, Epoch(Some(s))), s, pn, n);
    DhReceiveAt(keys, role, s, pub, pn);
    TakeAges(keys, role, DhReceive(s, pub, pn), num, s.their, n, MAX_SKIP);
  }

  /** Missing numbers from pn on, or MAX_SKIP ahead, are given up with the retired chain; the others are
      buffered under the text that chain was entered by, and no other. */
  lemma NewChainForgets(keys: seq<Priv>, role: Role, s: Session, pub: Text, pn: int, num: nat, p: Text, n: nat)
    requires KeysOk(keys) && SessionAt(keys, role, Some(s)) && Sends(role, Epoch(Some(s)))
    requires Epoch(Some(s)) + 1 < |keys| && pub.key == keys[Epoch(Some(s)) + 1]
    requires RecvEpoch(role, Epoch(Some(s))) >= 1 && s.recvMsgNum <= n && p.key == s.their.key
    requires p != s.their || n >= Min(pn, s.recvMsgNum + MAX_SKIP)
    requires Take(DhReceive(s, pub, pn), num).Ok?
    ensures !Buffered(Take(DhReceive(s, pub, pn), num).value.0.skipped, p, n)
  {
    var r: nat := RecvEpoch(role, Epoch(Some(s)));
    AheadIsNotHeld(keys, r, s, n);
    assert p == Text(keys[r], p.form);
    RetireAt(keys, r, s, pn);
    RetireFrame(s, pn);
    assert !Buffered(Retire(s, pn).skipped, p, n);
    DhReceiveAt(keys, role, s, pub, pn);
    TakeAt(keys, role, DhReceive(s, pub, pn), num);
    assert p != pub;
  }

  /** On a session at its schedule, accepting y leaves x buffered if x was still open on the chain
      that y continues or retires. */
  lemma StillOpen(keys: seq<Priv>, role: Role, s: Session, id: Priv, k: Priv, y: Sent, form: nat, pn: nat, x: Sent, allowInit: bool)
    requires KeysOk(keys) && SessionAt(keys, role, Some(s))
    requires 1 <= y.epoch < |keys| && !Sends(role, y.epoch)
    requires Select(Some(s), id, k, Written(keys, y, form, pn), allowInit).Ok?
    requires Select(Some(s), id, k, Written(keys, y, form, pn), allowInit).value.1 == KeyAt(keys, y.epoch, y.num)
    requires 1 <= x.epoch == RecvEpoch(role, Epoch(Some(s))) && s.recvMsgNum <= x.num
    requires if y.epoch == x.epoch then x.num < y.num
             else y.epoch > x.epoch && x.num < pn && x.num < s.recvMsgNum + MAX_SKIP
    requires y.epoch > x.epoch ==> !FromBuffer(s, Written(keys, y, form, pn))
    requires y.epoch == x.epoch ==> form == s.their.form
    ensures Young(Select(Some(s), id, k, Written(keys, y, form, pn), allowInit).value.0.skipped, s.their, x.num, 2 * MAX_SKIP)
  {
    var m := Written(keys, y, form, pn);
    var r: nat := RecvEpoch(role, Epoch(Some(s)));
    if y.epoch == x.epoch {
      assert Text(keys[r], form) == s.their;
      assert !FromBuffer(s, m) by { AheadIsNotHeld(keys, r, s, y.num); }
      TakeBuffers(keys, role, s, y.num, x.num);
    } else {
      assert m.pub != PubOf(s.their);
      NewChainIsNext(keys, role, s, id, k, m, allowInit, y.epoch, y.num);
      NewChainBuffers(keys, role, s, m.pub.text, pn, y.num, x.num);
    }
  }

  /** A session with x's key buffered under a text opens x so written. */
  lemma BufferedOpens(keys: seq<Priv>, role: Role, s: Session, id: Priv, k: Priv, x: Sent, form: nat, pn: nat, allowInit: bool)
    requires KeysOk(keys) && SessionAt(keys, role, Some(s)) && 1 <= x.epoch < |keys|
    requires Buffered(s.skipped, Text(keys[x.epoch], form), x.num) && Counter(Int(x.num)) && Counter(Int(pn))
    ensures var d := Decrypt(Some(s), id, k, Written(keys, x, form, pn), allowInit);
      d.Ok? && d.value.1 == x.plain
  {
    BufferedAt(keys, role, s, Text(keys[x.epoch], form), x.num);
  }

  /** No key of an epoch beyond the current receiving chain is buffered. */
  lemma NewerIsUnbuffered(keys: seq<Priv>, role: Role, s: Session, y: Sent, form: nat)
    requires KeysOk(keys) && SessionAt(keys, role, Some(s)) && RecvEpoch(role, Epoch(Some(s))) < y.epoch < |keys|
    ensures !Buffered(s.skipped, Text(keys[y.epoch], form), y.num)
  {
    var r: nat := RecvEpoch(role, Epoch(Some(s)));
    BufferedIff(s.skipped, Text(keys[y.epoch], form), y.num);
    forall i | 0 <= i < |s.skipped| ensures !Labelled(s.skipped[i], Text(keys[y.epoch], form), y.num) {
      assert EntryOk(keys, r, s.their, s.recvMsgNum, s.skipped[i]);
    }
  }

  /** Keys of the current chain are buffered under one text only. */
  lemma OneTextOnly(keys: seq<Priv>, r: nat, s: Session, p: Text, n: nat)
    requires KeysOk(keys) && r < |keys| && RecvOk(keys, r, s) && p.key == keys[r] && p != s.their
    ensures !Buffered(s.skipped, p, n)
  {
    BufferedIff(s.skipped, p, n);
    forall i | 0 <= i < |s.skipped| ensures !Labelled(s.skipped[i], p, n) {
      assert EntryOk(keys, r, s.their, s.recvMsgNum, s.skipped[i]);
    }
  }

  /** Accepting y with this pn leaves x, its ratchet key so written, open. */
  predicate StaysOpen(s: Session, y: Sent, pn: nat, x: Sent, form: nat) {
    form == s.their.form && (y.epoch == x.epoch || x.num < Min(pn, s.recvMsgNum + MAX_SKIP))
  }

  /** Session t opens x so written, with its own plaintext and any valid pn, exactly if opens holds. */
  ghost predicate OpensAfter(keys: seq<Priv>, t: Session, id: Priv, x: Sent, form: nat, opens: bool)
    requires 1 <= x.epoch < |keys|
  {
    forall k: Priv, pn: nat, again: bool :: Counter(Int(pn)) ==>
      var d := Decrypt(Some(t), id, k, Written(keys, x, form, pn), again);
      (d.Ok? <==> opens) && (d.Ok? ==> d.value.1 == x.plain)
  }

  /**
   In every reachable world, while the session has x ahead of it on its current chain: accepting a
   later message of that chain keeps x open; accepting one of the next chain, however its header is
   written, keeps x open exactly if x is below that pn and less than MAX_SKIP ahead.  x must come under
   the text by which the session entered its chain.
   */
  lemma OvertakenMessageOpensIff(w: World, role: Role, k: Priv, s: Session, y: Sent, yForm: nat, pn: nat,
                                 x: Sent, xForm: nat, allowInit: bool)
    requires Reachable(w) && NewKey(w, k) && Get(w, role).live == Some(s)
    requires x in Get(w, Peer(role)).sent && y in Get(w, Peer(role)).sent
    requires Counter(Int(x.num)) && Counter(Int(y.num)) && Counter(Int(pn))
    requires x.epoch == RecvEpoch(role, Epoch(Some(s))) && s.recvMsgNum <= x.num
    requires y.epoch > x.epoch || (y.epoch == x.epoch && y.num > x.num)
    requires 1 <= y.epoch < |w.keys| && Decrypt(Some(s), Identity(w, role), k, Written(w.keys, y, yForm, pn), allowInit).Ok?
    ensures 1 <= x.epoch < |w.keys|
    ensures OpensAfter(w.keys, Decrypt(Some(s), Identity(w, role), k, Written(w.keys, y, yForm, pn), allowInit).value.0,
                       Identity(w, role), x, xForm, StaysOpen(s, y, pn, x, xForm))
  {
    ReachablePlaced(w, role);
    ReachableSent(w, Peer(role), x);
    ReachableSent(w, Peer(role), y);
    var p, id := Get(w, role), Identity(w, role);
    var all := w.keys + p.tip;
    WrittenPrefix(w.keys, p.tip, y, yForm, pn);
    OvertakenOnSession(all, role, s, id, k, y, yForm, pn, x, xForm, allowInit);
    var t := Decrypt(Some(s), id, k, Written(w.keys, y, yForm, pn), allowInit).value.0;
    forall k2: Priv, pn2: nat, again: bool | Counter(Int(pn2))
      ensures var d := Decrypt(Some(t), id, k2, Written(w.keys, x, xForm, pn2), again);
        (d.Ok? <==> StaysOpen(s, y, pn, x, xForm)) && (d.Ok? ==> d.value.1 == x.plain)
    {
      WrittenPrefix(w.keys, p.tip, x, xForm, pn2);
    }
  }

  /** So when nobody rewrote a header, a message of the next chain leaves every earlier one less than
      MAX_SKIP ahead open, and no other. */
  lemma OvertakenMessageOpens(w: World, role: Role, k: Priv, s: Session, y: Sent, x: Sent, allowInit: bool)
    requires Reachable(w) && NewKey(w, k) && Get(w, role).live == Some(s) && s.their.form == 0
    requires x in Get(w, Peer(role)).sent && y in Get(w, Peer(role)).sent
    requires Counter(Int(x.num)) && Counter(Int(y.num)) && Counter(Int(y.pn))
    requires x.epoch == RecvEpoch(role, Epoch(Some(s))) && s.recvMsgNum <= x.num && y.epoch > x.epoch
    requires 1 <= y.epoch < |w.keys| && Decrypt(Some(s), Identity(w, role), k, Wire(w.keys, y), allowInit).Ok?
    ensures 1 <= x.epoch < |w.keys|
    ensures OpensAfter(w.keys, Decrypt(Some(s), Identity(w, role), k, Wire(w.keys, y), allowInit).value.0,
                       Identity(w, role), x, 0, x.num < s.recvMsgNum + MAX_SKIP)
  {
    ReachablePlaced(w, role);
    ReachableSent(w, Peer(role), y);
    assert Written(w.keys, y, 0, y.pn) == Wire(w.keys, y);
    OvertakenMessageOpensIff(w, role, k, s, y, 0, y.pn, x, 0, allowInit);
    NextIsTwoOn(w, role, s, Get(w, role).tip, x, y);
    PnCoversPreviousChain(w, Peer(role), x, y);
  }

  /** The peer's next chain is two epochs on. */
  lemma NextIsTwoOn(w: World, role: Role, s: Session, tip: seq<Priv>, x: Sent, y: Sent)
    requires KeysOk(w.keys) && LivePlaced(w.keys, role, Some(s), tip)
    requires x.epoch == RecvEpoch(role, Epoch(Some(s))) && x.epoch < y.epoch < |w.keys| && !Sends(role, y.epoch)
    ensures y.epoch == x.epoch + 2
  {
  }

  /** The current chain is continued only under the text it was entered by. */
  lemma SameChainSameText(keys: seq<Priv>, role: Role, s: Session, id: Priv, k: Priv, y: Sent, form: nat, pn: nat, allowInit: bool)
    requires KeysOk(keys) && SessionAt(keys, role, Some(s))
    requires 1 <= y.epoch == RecvEpoch(role, Epoch(Some(s))) && s.recvMsgNum <= y.num
    requires Decrypt(Some(s), id, k, Written(keys, y, form, pn), allowInit).Ok?
    ensures form == s.their.form
  {
    AheadIsNotHeld(keys, y.epoch, s, y.num);
    if Text(keys[y.epoch], form) != s.their { OtherTextStaysShut(keys, role, s, id, k, y, form, pn, allowInit); }
  }

  lemma OvertakenOnSession(keys: seq<Priv>, role: Role, s: Session, id: Priv, k: Priv, y: Sent, yForm: nat, pn: nat,
                           x: Sent, xForm: nat, allowInit: bool)
    requires KeysOk(keys) && SessionAt(keys, role, Some(s))
    requires 1 <= x.epoch < |keys| && 1 <= y.epoch < |keys| && !Sends(role, y.epoch)
    requires Counter(Int(x.num)) && Counter(Int(y.num)) && Counter(Int(pn))
    requires x.epoch == RecvEpoch(role, Epoch(Some(s))) && s.recvMsgNum <= x.num
    requires y.epoch > x.epoch || (y.epoch == x.epoch && y.num > x.num)
    requires Decrypt(Some(s), id, k, Written(keys, y, yForm, pn), allowInit).Ok?
    ensures OpensAfter(keys, Decrypt(Some(s), id, k, Written(keys, y, yForm, pn), allowInit).value.0, id, x, xForm,
                       StaysOpen(s, y, pn, x, xForm))
  {
    var m := Written(keys, y, yForm, pn);
    if y.epoch > x.epoch {
      NewerIsUnbuffered(keys, role, s, y, yForm);
    } else {
      SameChainSameText(keys, role, s, id, k, y, yForm, pn, allowInit);
    }
    var t := Select(Some(s), id, k, m, allowInit).value.0;
    SelectedIsNamed(keys, role, s, id, k, m, allowInit, y.epoch, y.num);
    if StaysOpen(s, y, pn, x, xForm) {
      StillOpen(keys, role, s, id, k, y, yForm, pn, x, allowInit);
      YoungIsBuffered(t.skipped, s.their, x.num, 2 * MAX_SKIP);
      assert s.their == Text(keys[x.epoch], xForm);
      forall k2: Priv, pn2: nat, again: bool | Counter(Int(pn2))
        ensures var d := Decrypt(Some(Stamp(t)), id, k2, Written(keys, x, xForm, pn2), again); d.Ok? && d.value.1 == x.plain
      {
        BufferedOpens(keys, role, Stamp(t), id, k2, x, xForm, pn2, again);
      }
    } else {
      LostOnSession(keys, role, s, id, k, y, yForm, pn, x, xForm, allowInit);
      forall k2: Priv, pn2: nat, again: bool ensures Decrypt(Some(Stamp(t)), id, k2, Written(keys, x, xForm, pn2), again).Err? {
        OtherTextStaysShut(keys, role, Stamp(t), id, k2, x, xForm, pn2, again);
      }
    }
  }

  /** What does not stay open is neither buffered nor on the current chain under this text. */
  lemma LostOnSession(keys: seq<Priv>, role: Role, s: Session, id: Priv, k: Priv, y: Sent, yForm: nat, pn: nat,
                      x: Sent, xForm: nat, allowInit: bool)
    requires KeysOk(keys) && SessionAt(keys, role, Some(s))
    requires 1 <= x.epoch < |keys| && 1 <= y.epoch < |keys| && !Sends(role, y.epoch)
    requires x.epoch == RecvEpoch(role, Epoch(Some(s))) && s.recvMsgNum <= x.num
    requires if y.epoch == x.epoch then yForm == s.their.form && y.num > x.num
             else y.epoch > x.epoch && !FromBuffer(s, Written(keys, y, yForm, pn))
    requires Decrypt(Some(s), id, k, Written(keys, y, yForm, pn), allowInit).Ok?
    requires !StaysOpen(s, y, pn, x, xForm)
    ensures var t := Select(Some(s), id, k, Written(keys, y, yForm, pn), allowInit).value.0;
      t.their != Text(keys[x.epoch], xForm) && !Buffered(t.skipped, Text(keys[x.epoch], xForm), x.num)
  {
    var m := Written(keys, y, yForm, pn);
    var p := Text(keys[x.epoch], xForm);
    if y.epoch == x.epoch {
      assert Text(keys[x.epoch], yForm) == s.their;
      AheadIsNotHeld(keys, x.epoch, s, y.num);
      assert !FromBuffer(s, m);
      TakeAt(keys, role, s, y.num);
      OneTextOnly(keys, x.epoch, Take(s, y.num).value.0, p, x.num);
    } else {
      assert m.pub != PubOf(s.their);
      NewChainIsNext(keys, role, s, id, k, m, allowInit, y.epoch, y.num);
      DhReceiveAt(keys, role, s, m.pub.text, pn);
      TakeAt(keys, role, DhReceive(s, m.pub.text, pn), y.num);
      NewChainForgets(keys, role, s, m.pub.text, pn, y.num, p, x.num);
    }
  }

  // ---- Rewritten headers ----

  /**
   In every reachable world: two messages of the peer's next chain both open here.  Once one of them
   was accepted under another writing of its ratchet key, the other, untouched, is refused.
   */
  lemma RewrittenHeaderShutsChain(w: World, role: Role, k: Priv, s: Session, x: Sent, y: Sent, form: nat, pn: nat, allowInit: bool)
    requires Reachable(w) && NewKey(w, k) && Get(w, role).live == Some(s)
    requires x in Get(w, Peer(role)).sent && y in Get(w, Peer(role)).sent
    requires x.epoch == y.epoch > RecvEpoch(role, Epoch(Some(s))) && x.num <= MAX_SKIP && y.num <= MAX_SKIP
    requires form != 0 && Counter(Int(pn)) && Counter(Int(y.pn))
    ensures 1 <= x.epoch < |w.keys|
    ensures Decrypt(Some(s), Identity(w, role), k, Wire(w.keys, y), allowInit).Ok?
    ensures var d := Decrypt(Some(s), Identity(w, role), k, Written(w.keys, x, form, pn), allowInit);
      && d.Ok?
      && forall k2: Priv, again: bool :: Decrypt(Some(d.value.0), Identity(w, role), k2, Wire(w.keys, y), again).Err?
  {
    ReachablePlaced(w, role);
    ReachableSent(w, Peer(role), x);
    var id := Identity(w, role);
    var all := w.keys + Get(w, role).tip;
    OpensIff(w, role, k, y, 0, y.pn, allowInit);
    OpensIff(w, role, k, x, form, pn, allowInit);
    assert Written(w.keys, y, 0, y.pn) == Wire(w.keys, y);
    WrittenPrefix(w.keys, Get(w, role).tip, x, form, pn);
    ShutOnSession(all, role, s, id, k, x, form, pn, y, allowInit);
    forall k2: Priv, again: bool
      ensures Decrypt(Some(Decrypt(Some(s), id, k, Written(w.keys, x, form, pn), allowInit).value.0), id, k2, Wire(w.keys, y), again).Err?
    {
      WrittenPrefix(w.keys, Get(w, role).tip, y, 0, y.pn);
    }
  }

  lemma ShutOnSession(keys: seq<Priv>, role: Role, s: Session, id: Priv, k: Priv, x: Sent, form: nat, pn: nat, y: Sent, allowInit: bool)
    requires KeysOk(keys) && SessionAt(keys, role, Some(s))
    requires 1 <= x.epoch == y.epoch < |keys| && x.epoch > RecvEpoch(role, Epoch(Some(s))) && form != 0
    requires Decrypt(Some(s), id, k, Written(keys, x, form, pn), allowInit).Ok?
    ensures var t := Decrypt(Some(s), id, k, Written(keys, x, form, pn), allowInit).value.0;
      forall k2: Priv, again: bool :: Decrypt(Some(t), id, k2, Written(keys, y, 0, y.pn), again).Err?
  {
    var m := Written(keys, x, form, pn);
    NewerIsUnbuffered(keys, role, s, x, form);
    assert m.pub != PubOf(s.their);
    NewChainIsNext(keys, role, s, id, k, m, allowInit, x.epoch, x.num);
    DhReceiveAt(keys, role, s, m.pub.text, pn);
    var u := DhReceive(s, m.pub.text, pn);
    TakeAt(keys, role, u, x.num);
    var t := Stamp(Take(u, x.num).value.0);
    OneTextOnly(keys, x.epoch, t, Text(keys[x.epoch], 0), y.num);
    forall k2: Priv, again: bool ensures Decrypt(Some(t), id, k2, Written(keys, y, 0, y.pn), again).Err? {
      OtherTextStaysShut(keys, role, t, id, k2, y, 0, y.pn, again);
    }
  }

  /** One such input: after one message each way, the second reply is lost when the first comes with its
      ratchet key, 5, written otherwise. */
  lemma RewrittenHeaderExample() returns (alice: Session, bob: Session, first: Msg, second: Msg)
    ensures alice == TakeSendKey(InitSender(Text(2, 0), 3))
    ensures var hello := Decrypt(None, 2, 5, Outgoing(InitSender(Text(2, 0), 3), 0, "hello"), true);
      hello.Ok? && bob == hello.value.0
    ensures first == Outgoing(bob, 0, "one") && second == Outgoing(TakeSendKey(bob), 1, "two")
    ensures Decrypt(Some(alice), 7, 9, second, false).Ok?
    ensures Decrypt(Some(alice), 7, 9, first.(pub := PubOf(Text(5, 1))), false).Ok?
    ensures Decrypt(Some(Decrypt(Some(alice), 7, 9, first.(pub := PubOf(Text(5, 1))), false).value.0), 7, 9, second, false).Err?
  {
    var keys := [2, 3, 5];
    alice := TakeSendKey(InitSender(Text(2, 0), 3));
    HelloOpens();
    bob := Decrypt(None, 2, 5, Outgoing(InitSender(Text(2, 0), 3), 0, "hello"), true).value.0;
    first, second := Outgoing(bob, 0, "one"), Outgoing(TakeSendKey(bob), 1, "two");
    InitSenderAt(Text(2, 0), 3);
    TakeSendKeyAt([2, 3], Initiator, InitSender(Text(2, 0), 3));
    SessionAtPrefix([2, 3], [5], Initiator, Some(alice));
    assert [2, 3] + [5] == keys;
    var x, y := Sent(2, 0, 0, 0, "one"), Sent(2, 1, 0, 1, "two");
    BobReplies(bob, first, second, x, y);
    OpensNextChain(keys, Initiator, alice, 7, 9, y, 0, 0, false);
    OpensNextChain(keys, Initiator, alice, 7, 9, x, 1, 0, false);
    ShutOnSession(keys, Initiator, alice, 7, 9, x, 1, 0, y, false);
  }

  lemma HelloOpens()
    ensures Decrypt(None, 2, 5, Outgoing(InitSender(Text(2, 0), 3), 0, "hello"), true).Ok?
  {
    assert Agree(2, 3) == Agree(3, 2);
    assert SkipTo(InitReceiver(Text(3, 0), 2, 5), 0) == InitReceiver(Text(3, 0), 2, 5);
  }

  lemma BobReplies(bob: Session, first: Msg, second: Msg, x: Sent, y: Sent)
    requires Decrypt(None, 2, 5, Outgoing(InitSender(Text(2, 0), 3), 0, "hello"), true).Ok?
    requires bob == Decrypt(None, 2, 5, Outgoing(InitSender(Text(2, 0), 3), 0, "hello"), true).value.0
    requires first == Outgoing(bob, 0, "one") && second == Outgoing(TakeSendKey(bob), 1, "two")
    requires x == Sent(2, 0, 0, 0, "one") && y == Sent(2, 1, 0, 1, "two")
    ensures first == Wire([2, 3, 5], x) && second == Wire([2, 3, 5], y)
    ensures first.(pub := PubOf(Text(5, 1))) == Written([2, 3, 5], x, 1, 0) && second == Written([2, 3, 5], y, 0, 0)
  {
    var keys := [2, 3, 5];
    var s := InitReceiver(Text(3, 0), 2, 5);
    InitReceiverAt(2, Text(3, 0), 5);
    assert Take(s, 0).Ok? && SkipTo(s, 0) == s;
    assert bob.sendChain == s.sendChain && bob.sendMsgNum == 0 && bob.sendPrevLen == 0 && bob.myPriv == 5;
    assert s.sendChain == ChainAt(keys, 2, 0);
    assert ChainAt(keys, 2, 1) == Next(ChainAt(keys, 2, 0));
  }
}
