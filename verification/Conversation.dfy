/** What every run of two parties and a hostile network guarantees. */
module Conversation {
  import opened Prelude
  import opened Crypto
  import opened Ratchet
  import opened Epochs
  import opened Sessions
  import opened Selection
  import opened Agreement

  /** A world some run from a fresh start can reach. */
  ghost predicate Reachable(w: World) {
    exists r: Priv, i: Priv, form: nat, steps: seq<Step> {:trigger Reaches(Start(r, i, form), steps, w)} ::
      Honest(r) && Reaches(Start(r, i, form), steps, w)
  }

  lemma ReachableInv(w: World)
    requires Reachable(w)
    ensures Inv(w)
  {
    var r: Priv, i: Priv, form: nat, steps: seq<Step> :| Honest(r) && Reaches(Start(r, i, form), steps, w);
    StartInv(r, i, form);
    RunKeepsInv(Start(r, i, form), steps, w);
  }

  /** Where a party's session stands in any reachable world. */
  lemma ReachablePlaced(w: World, role: Role)
    requires Reachable(w)
    ensures KeysOk(w.keys) && LivePlaced(w.keys, role, Get(w, role).live, Get(w, role).tip)
    ensures LivePlaced(w.keys, role, Get(w, role).saved, [])
  {
    ReachableInv(w);
    EitherSide(w, role);
  }

  /** Released messages are of recorded epochs of their side. */
  lemma ReachableSent(w: World, role: Role, x: Sent)
    requires Reachable(w) && x in Get(w, role).sent
    ensures 1 <= x.epoch < |w.keys| && Sends(role, x.epoch)
  {
    ReachableInv(w);
    EitherSide(w, role);
    SenderOf(w, role, role, x);
  }

  /** One more legal step is one more reachable world. */
  lemma ReachableStep(w: World, st: Step)
    requires Reachable(w) && |w.keys| >= 1 && Legal(w, st)
    ensures Reachable(Apply(w, st))
  {
    NextIsInv(w, st);
    var r: Priv, i: Priv, form: nat, steps: seq<Step> :| Honest(r) && Reaches(Start(r, i, form), steps, w);
    ReachesAppend(Start(r, i, form), steps, w, st);
    ReachedIsReachable(r, i, form, steps + [st], Apply(w, st));
  }

  lemma NextIsInv(w: World, st: Step)
    requires Reachable(w) && |w.keys| >= 1 && Legal(w, st)
    ensures |Apply(w, st).keys| >= 1
  {
    ReachableInv(w);
    StepKeepsInv(w, st);
  }

  lemma ReachedIsReachable(r: Priv, i: Priv, form: nat, steps: seq<Step>, w: World)
    requires Honest(r) && Reaches(Start(r, i, form), steps, w)
    ensures Reachable(w)
  {
  }

  lemma ReachesOne(w: World, st: Step)
    requires |w.keys| >= 1 && Legal(w, st) && |Apply(w, st).keys| >= 1
    ensures Reaches(w, [st], Apply(w, st))
  {
    assert [st][1..] == [];
  }

  lemma ReachesMore(w0: World, steps: seq<Step>, w: World)
    requires |w0.keys| >= 1 && steps != [] && Legal(w0, steps[0]) && |Apply(w0, steps[0]).keys| >= 1
    requires Reaches(Apply(w0, steps[0]), steps[1..], w)
    ensures Reaches(w0, steps, w)
  {
  }

  lemma {:induction false} ReachesAppend(w0: World, steps: seq<Step>, w: World, st: Step)
    requires |w0.keys| >= 1 && Reaches(w0, steps, w) && |w.keys| >= 1
    requires Legal(w, st) && |Apply(w, st).keys| >= 1
    ensures Reaches(w0, steps + [st], Apply(w, st))
    decreases |steps|
  {
    if steps == [] {
      ReachesOne(w, st);
      assert steps + [st] == [st];
    } else {
      ReachesAppend(Apply(w0, steps[0]), steps[1..], w, st);
      assert (steps + [st])[1..] == steps[1..] + [st];
      ReachesMore(w0, steps + [st], Apply(w, st));
    }
  }

  // ---- What a send returns ----

  /** The session a completed send works from: at its epoch under the keys recorded afterwards. */
  lemma SendReady(w: World, st: Step)
    requires InvFrom(w, st.role) && st.Send? && Legal(w, st) && st.fault.NoFault?
    requires Get(w, st.role).live.Some? || st.role.Initiator?
    ensures var r := ReadyToSend(Get(w, st.role).live, PeerText(w), st.newPriv);
      SessionAt(Apply(w, st).keys, st.role, Some(r))
  {
    var p := Get(w, st.role);
    ReadyPlaced(w.keys, st.role, p.live, p.tip, PeerText(w), st.newPriv);
    SendIsStaged(w, st);
  }

  /**
   In every reachable world, the message that a completed send returns is the wire form of the record
   it adds: the caller's own text, sealed under that record's key.
   */
  lemma ReturnedIsRecorded(w: World, st: Step)
    requires Reachable(w) && st.Send? && Legal(w, st) && st.fault.NoFault? && st.released && |w.keys| >= 1
    requires Encrypt(Get(w, st.role).live, PeerKey(w, st.role), st.newPriv, st.nonce, st.plain).Ok?
    ensures var before, after := Get(w, st.role).sent, Get(Apply(w, st), st.role).sent;
      && |after| == |before| + 1 && before <= after
      && var x := after[|before|];
      && x.plain == st.plain && x.nonce == st.nonce && 1 <= x.epoch < |Apply(w, st).keys|
      && Encrypt(Get(w, st.role).live, PeerKey(w, st.role), st.newPriv, st.nonce, st.plain).value.1
         == Wire(Apply(w, st).keys, x)
  {
    ReachableInv(w);
    EitherSide(w, st.role);
    SendIsStaged(w, st);
    SendReady(w, st);
    var r := ReadyToSend(Get(w, st.role).live, PeerText(w), st.newPriv);
    OutgoingIsWire(Apply(w, st).keys, st.role, r, st.nonce, st.plain);
  }

  /** Where the record of a send stands, from the session in the cache before it. */
  predicate NumberedFrom(keys: seq<Priv>, live: Option<Session>, x: Sent) {
    if live.None? then x.epoch == 1 && x.num == 0 && x.pn == 0
    else var s := live.value;
      if s.pending then
        && x.epoch == Epoch(live) + 1 && x.num == 0 && x.pn == s.sendMsgNum
        && 3 <= x.epoch < |keys| && s.sendChain == ChainAt(keys, x.epoch - 2, x.pn)
      else
        && x.epoch == Epoch(live) && x.num == s.sendMsgNum && x.pn == s.sendPrevLen
        && 1 <= x.epoch < |keys| && s.sendChain == ChainAt(keys, x.epoch, x.num)
  }

  lemma RecordNumbers(keys: seq<Priv>, tip: seq<Priv>, role: Role, live: Option<Session>, peer: Text, k: Priv,
                      nonce: nat, plain: string)
    requires |keys| >= 1 && LivePlaced(keys, role, live, tip) && (live.None? ==> role.Initiator?)
    ensures var r := ReadyToSend(live, peer, k);
      NumberedFrom(if live.Some? && live.value.pending then keys + [k] else keys + tip, live,
                   Record(role, Stamp(TakeSendKey(r)), nonce, plain))
  {
    if live.Some? && live.value.pending {
      assert tip == [] && keys + [] == keys;
      ChainAtPrefix(keys, [k], SendEpoch(role, Epoch(live)), live.value.sendMsgNum);
    }
    if live.None? { InitSenderAt(peer, k); }
  }

  /**
   In every reachable world: the first send of a session is number 0 of epoch 1; the first after the peer's
   new key opens the next epoch as its number 0 and announces how far the side's previous chain was
   advanced; any other goes on where the chain stands and announces the same.
   */
  lemma SendIsNumbered(w: World, st: Step)
    requires Reachable(w) && st.Send? && Legal(w, st) && st.fault.NoFault? && st.released && |w.keys| >= 1
    requires Encrypt(Get(w, st.role).live, PeerKey(w, st.role), st.newPriv, st.nonce, st.plain).Ok?
    ensures var sent := Get(Apply(w, st), st.role).sent;
      sent != [] && NumberedFrom(Apply(w, st).keys, Get(w, st.role).live, sent[|sent| - 1])
  {
    ReachablePlaced(w, st.role);
    var p := Get(w, st.role);
    SendIsStaged(w, st);
    RecordNumbers(w.keys, p.tip, st.role, p.live, PeerText(w), st.newPriv, st.nonce, st.plain);
    LiveKeyKnown(w.keys, st.role, p.live, p.tip);
  }

  /** What the session in the cache has spent once a send from s broke off at f. */
  predicate Spent(s: Session, k: Priv, f: Fault, t: Session) {
    && !t.pending && t.myPriv == (if s.pending then k else s.myPriv)
    && t.sendMsgNum == (if s.pending then 0 else s.sendMsgNum) + (if f.AtAdvance? then 0 else 1)
    && t.sendPrevLen == (if s.pending then s.sendMsgNum else s.sendPrevLen)
    && t.ver == s.ver + (if f.AtStore? then 1 else 0)
    && t.their == s.their && t.recvChain == s.recvChain && t.recvMsgNum == s.recvMsgNum && t.skipped == s.skipped
  }

  /**
   In every reachable world a send that breaks off releases and stores nothing.  In the cache, one that broke
   off before the DH step leaves no trace; a later one leaves that step taken and, from the sealing on, its
   number spent; a session it was about to start is there only from the storing on.
   */
  lemma BrokenSendSpends(w: World, st: Step)
    requires Reachable(w) && st.Send? && Legal(w, st) && !st.fault.NoFault? && |w.keys| >= 1
    ensures var p, q := Get(w, st.role), Get(Apply(w, st), st.role);
      && Apply(w, st).keys == w.keys && Get(Apply(w, st), Peer(st.role)) == Get(w, Peer(st.role))
      && q.saved == p.saved && q.sent == p.sent && q.accepted == p.accepted
      && (st.fault.AtRatchet? ==> q.live == p.live)
      && (p.live.Some? && !st.fault.AtRatchet? ==>
            && q.live.Some? && Spent(p.live.value, st.newPriv, st.fault, q.live.value)
            && Epoch(q.live) == Epoch(p.live) + (if p.live.value.pending then 1 else 0))
      && (p.live.None? ==> (q.live.Some? <==> st.role.Initiator? && st.fault.AtStore?))
      && (p.live.None? && q.live.Some? ==> Epoch(q.live) == 1 && q.live.value.sendMsgNum == 1)
  {
    if Get(w, st.role).live.None? { InitSenderAt(PeerText(w), st.newPriv); }
  }

  // ---- Authenticity ----

  /** Whatever the network delivers, a plaintext comes out only for a message the peer
      released, under that header apart from pn and the writing of its ratchet key, and it is
      that plaintext. */
  lemma AcceptedIsAuthentic(w: World, role: Role, k: Priv, m: Msg, allowInit: bool)
    requires Reachable(w) && NewKey(w, k) && Deliverable(w, role, m, allowInit)
    requires |w.keys| >= 1
    requires Decrypt(Get(w, role).live, Identity(w, role), k, m, allowInit).Ok?
    ensures exists x ::
      && x in Get(w, Peer(role)).sent && 1 <= x.epoch < |w.keys|
      && IsWriting(w.keys, m, x)
      && Decrypt(Get(w, role).live, Identity(w, role), k, m, allowInit).value.1 == x.plain
  {
    ReachableInv(w);
    EitherSide(w, role);
    var p := Get(w, role);
    var id := Identity(w, role);
    if p.live.None? {
      var x := FirstMessage(w, role, id, k, m, allowInit);
      assert IsWriting(w.keys, m, x);
    } else {
      ReachablePlaced(w, role);
      AcceptedCipher(w, role, p.live.value, p.tip, id, k, m, allowInit);
    }
  }

  /** The opened ciphertext is the released one, nonce included. */
  lemma AcceptedCipher(w: World, role: Role, s: Session, tip: seq<Priv>, id: Priv, k: Priv, m: Msg, allowInit: bool)
    requires Reachable(w) && KeysOk(w.keys) && LivePlaced(w.keys, role, Some(s), tip)
    requires Deliverable(w, role, m, allowInit) && Decrypt(Some(s), id, k, m, allowInit).Ok?
    ensures exists y ::
      && y in Get(w, Peer(role)).sent && 1 <= y.epoch < |w.keys|
      && IsWriting(w.keys, m, y) && Decrypt(Some(s), id, k, m, allowInit).value.1 == y.plain
  {
    var all := w.keys + tip;
    SelectedKeySecret(all, role, s, id, k, m, allowInit);
    var q: Role, y: Sent :| y in Get(w, q).sent && 1 <= y.epoch < |w.keys| && m.cipher == Wire(w.keys, y).cipher;
    ChainAtPrefix(w.keys, tip, y.epoch, y.num);
    SelectedIsNamed(all, role, s, id, k, m, allowInit, y.epoch, y.num);
    ReachableSent(w, q, y);
    assert q == Peer(role);
    assert all[y.epoch] == w.keys[y.epoch];
  }

  lemma LogOnce(keys: seq<Priv>, acc: seq<Accepted>, from: seq<Sent>)
    requires KeysOk(keys) && AcceptedLog(keys, acc, from)
    ensures forall i, j :: 0 <= i < j < |acc| ==> !(acc[i].pub == acc[j].pub && acc[i].num == acc[j].num)
  {
    forall i, j | 0 <= i < j < |acc| ensures !(acc[i].pub == acc[j].pub && acc[i].num == acc[j].num) {
      assert acc[i].pub == keys[acc[i].epoch] && acc[j].pub == keys[acc[j].epoch];
    }
  }

  /** An accepted message is a released one with the same header and plaintext. */
  predicate Traced(keys: seq<Priv>, y: Accepted, from: seq<Sent>) {
    exists x :: x in from && x.epoch < |keys| && y.pub == keys[x.epoch] && y.num == x.num && y.plain == x.plain
  }

  lemma LogTraced(keys: seq<Priv>, acc: seq<Accepted>, from: seq<Sent>)
    requires AcceptedLog(keys, acc, from)
    ensures forall i :: 0 <= i < |acc| ==> Traced(keys, acc[i], from)
  {
    forall i | 0 <= i < |acc| ensures Traced(keys, acc[i], from) {
      assert Released(acc[i], from);
      var x :| x in from && Matches(acc[i], x);
    }
  }

  /** The log of accepted messages holds only what the peer released, and nothing twice. */
  lemma AtMostOnce(w: World, role: Role)
    requires Reachable(w)
    ensures var acc := Get(w, role).accepted;
      && (forall i :: 0 <= i < |acc| ==> Traced(w.keys, acc[i], Get(w, Peer(role)).sent))
      && forall i, j :: 0 <= i < j < |acc| ==> !(acc[i].pub == acc[j].pub && acc[i].num == acc[j].num)
  {
    ReachableInv(w);
    EitherSide(w, role);
    var acc, from := Get(w, role).accepted, Get(w, Peer(role)).sent;
    assert LiveInv(w, role);
    LogOnce(w.keys, acc, from);
    LogTraced(w.keys, acc, from);
  }

  // ---- Keys are never reused ----

  /** Released messages only go forward, across breakdowns and restarts. */
  lemma SendsGoForward(w: World, role: Role)
    requires Reachable(w)
    ensures var sent := Get(w, role).sent; forall i, j :: 0 <= i < j < |sent| ==> Later(sent[i], sent[j])
  {
    ReachableInv(w);
    EitherSide(w, role);
    assert SavedInv(w, role);
  }

  lemma NoKeySealsTwice(w: World, q: Role, i: nat, r: Role, j: nat)
    requires Reachable(w)
    requires i < |Get(w, q).sent| && j < |Get(w, r).sent| && !(q == r && i == j)
    ensures var x, y := Get(w, q).sent[i], Get(w, r).sent[j];
      && 1 <= x.epoch < |w.keys| && 1 <= y.epoch < |w.keys|
      && KeyAt(w.keys, x.epoch, x.num) != KeyAt(w.keys, y.epoch, y.num)
  {
    ReachablePlaced(w, q);
    var x, y := Get(w, q).sent[i], Get(w, r).sent[j];
    ReachableSent(w, q, x);
    ReachableSent(w, r, y);
    if KeyAt(w.keys, x.epoch, x.num) == KeyAt(w.keys, y.epoch, y.num) {
      KeyInjective(w.keys, x.epoch, x.num, y.epoch, y.num);
      SendsGoForward(w, q);
    }
  }

  // ---- Agreement ----

  /** The two live sessions are never more than one epoch apart, each holds the ideal
      schedule's keys, and when one receives the chain the other sends on, both hold the
      same chain, each advanced to its own number. */
  lemma SessionsAgree(w: World, role: Role)
    requires Reachable(w)
    ensures var p, q := Get(w, role), Get(w, Peer(role));
      && -1 <= Epoch(p.live) - Epoch(q.live) <= 1
      && SessionAt(w.keys + p.tip, role, p.live) && SessionAt(w.keys, role, p.saved)
      && (p.live.Some? && q.live.Some? && RecvEpoch(role, Epoch(p.live)) == SendEpoch(Peer(role), Epoch(q.live)) ==>
            exists c :: p.live.value.recvChain == Some(Advance(c, p.live.value.recvMsgNum))
                     && q.live.value.sendChain == Advance(c, q.live.value.sendMsgNum))
  {
    ReachablePlaced(w, role);
    ReachablePlaced(w, Peer(role));
    var p, q := Get(w, role), Get(w, Peer(role));
    assert w.keys + [] == w.keys;
    if p.live.Some? && q.live.Some? && RecvEpoch(role, Epoch(p.live)) == SendEpoch(Peer(role), Epoch(q.live)) {
      SharedChain(w.keys, p.tip, q.tip, role, p.live.value, q.live.value);
    }
  }

  lemma SharedChain(keys: seq<Priv>, tp: seq<Priv>, tq: seq<Priv>, role: Role, s: Session, t: Session)
    requires |keys| >= 1
    requires LivePlaced(keys, role, Some(s), tp) && LivePlaced(keys, Peer(role), Some(t), tq)
    requires RecvEpoch(role, Epoch(Some(s))) == SendEpoch(Peer(role), Epoch(Some(t)))
    ensures exists c :: s.recvChain == Some(Advance(c, s.recvMsgNum)) && t.sendChain == Advance(c, t.sendMsgNum)
  {
    var r: nat := RecvEpoch(role, Epoch(Some(s)));
    var c := FromRoot(RootAt(keys + tp, r - 1), Agree((keys + tp)[r], (keys + tp)[r - 1]));
    assert r < |keys|;
    ChainAtPrefix(keys, tp, r, s.recvMsgNum);
    ChainAtPrefix(keys, tp, r, t.sendMsgNum);
    ChainAtPrefix(keys, tq, r, t.sendMsgNum);
    assert s.recvChain == Some(Advance(c, s.recvMsgNum));
    assert t.sendChain == Advance(c, t.sendMsgNum);
  }

  // ---- The skip buffer ----

  /** At every moment the buffer holds at most 100 keys, only of the current
      receiving chain below the next expected number and of the one just before it, the
      earlier chain first and each ascending: the first entry is always the oldest. */
  lemma SkipBufferShape(w: World, role: Role, s: Session)
    requires Reachable(w)
    requires Get(w, role).live == Some(s) || Get(w, role).saved == Some(s)
    ensures var keys := w.keys + Get(w, role).tip; var r := RecvEpoch(role, Epoch(Some(s)));
      && 0 <= r < |keys| && |s.skipped| <= 100 && BufferOk(keys, r, s.their, s.recvMsgNum, s.skipped)
  {
    ReachablePlaced(w, role);
    var p := Get(w, role);
    assert w.keys + [] == w.keys;
    if p.saved == Some(s) { SessionAtPrefix(w.keys, p.tip, role, p.saved); }
  }

  // ---- Deliverability ----

  /** When a session opens a released message, its ratchet key written this way. */
  predicate OpensAt(keys: seq<Priv>, role: Role, s: Session, x: Sent, form: nat)
    requires x.epoch < |keys|
  {
    var r := RecvEpoch(role, Epoch(Some(s)));
    || Buffered(s.skipped, Text(keys[x.epoch], form), x.num)
    || (x.epoch == r && form == s.their.form && s.recvMsgNum <= x.num <= s.recvMsgNum + MAX_SKIP)
    || (x.epoch > r && x.num <= MAX_SKIP)
  }

  /** When a released message opens, its ratchet key written this way. */
  predicate CanOpen(w: World, role: Role, x: Sent, form: nat, allowInit: bool)
    requires x.epoch < |w.keys|
  {
    match Get(w, role).live
    case None => allowInit && x.num <= MAX_SKIP
    case Some(s) => OpensAt(w.keys, role, s, x, form)
  }

  /** A message of the peer's next chain. */
  lemma OpensNextChain(keys: seq<Priv>, role: Role, s: Session, id: Priv, k: Priv, x: Sent, form: nat, pn: nat, allowInit: bool)
    requires KeysOk(keys) && SessionAt(keys, role, Some(s)) && Sends(role, Epoch(Some(s)))
    requires x.epoch == Epoch(Some(s)) + 1 < |keys| && Counter(Int(x.num)) && Counter(Int(pn))
    requires !Buffered(s.skipped, Text(keys[x.epoch], form), x.num)
    ensures var d := Decrypt(Some(s), id, k, Written(keys, x, form, pn), allowInit);
      (d.Ok? <==> x.num <= MAX_SKIP) && (d.Ok? ==> d.value.1 == x.plain)
  {
    var pub := Text(keys[x.epoch], form);
    DhReceiveAt(keys, role, s, pub, pn);
    var u := DhReceive(s, pub, pn);
    if Take(u, x.num).Ok? { TakeAt(keys, role, u, x.num); }
  }

  /** A message of the current receiving chain, under the text the chain was entered by. */
  lemma OpensCurrentChain(keys: seq<Priv>, role: Role, s: Session, id: Priv, k: Priv, x: Sent, pn: nat, allowInit: bool)
    requires KeysOk(keys) && SessionAt(keys, role, Some(s))
    requires 1 <= x.epoch == RecvEpoch(role, Epoch(Some(s))) && Counter(Int(x.num)) && Counter(Int(pn))
    requires !Buffered(s.skipped, s.their, x.num)
    ensures var d := Decrypt(Some(s), id, k, Written(keys, x, s.their.form, pn), allowInit);
      && (d.Ok? <==> s.recvMsgNum <= x.num <= s.recvMsgNum + MAX_SKIP)
      && (d.Ok? ==> d.value.1 == x.plain)
  {
    assert Text(keys[x.epoch], s.their.form) == s.their;
    if Take(s, x.num).Ok? { TakeAt(keys, role, s, x.num); }
  }

  /** A message, with no buffered key under its text, of a chain already left behind or of the current
      one under another text: the DH step it makes selects some other key. */
  lemma OtherTextStaysShut(keys: seq<Priv>, role: Role, s: Session, id: Priv, k: Priv, x: Sent, form: nat, pn: nat, allowInit: bool)
    requires KeysOk(keys) && SessionAt(keys, role, Some(s))
    requires 1 <= x.epoch <= RecvEpoch(role, Epoch(Some(s))) && Text(keys[x.epoch], form) != s.their
    requires !Buffered(s.skipped, Text(keys[x.epoch], form), x.num)
    ensures Decrypt(Some(s), id, k, Written(keys, x, form, pn), allowInit).Err?
  {
    if Decrypt(Some(s), id, k, Written(keys, x, form, pn), allowInit).Ok? {
      NewChainIsNext(keys, role, s, id, k, Written(keys, x, form, pn), allowInit, x.epoch, x.num);
    }
  }

  lemma WrittenPrefix(keys: seq<Priv>, more: seq<Priv>, x: Sent, form: nat, pn: nat)
    requires 1 <= x.epoch < |keys|
    ensures Written(keys + more, x, form, pn) == Written(keys, x, form, pn)
  {
    ChainAtPrefix(keys, more, x.epoch, x.num);
  }

  lemma OpensScheduled(keys: seq<Priv>, role: Role, s: Session, id: Priv, k: Priv, x: Sent, form: nat, pn: nat, allowInit: bool)
    requires KeysOk(keys) && SessionAt(keys, role, Some(s)) && 1 <= x.epoch < |keys|
    requires x.epoch > RecvEpoch(role, Epoch(Some(s))) ==> Sends(role, Epoch(Some(s))) && x.epoch == Epoch(Some(s)) + 1
    requires Counter(Int(x.num)) && Counter(Int(pn))
    ensures var d := Decrypt(Some(s), id, k, Written(keys, x, form, pn), allowInit);
      && (d.Ok? <==> OpensAt(keys, role, s, x, form))
      && (d.Ok? ==> d.value.1 == x.plain)
  {
    var pub := Text(keys[x.epoch], form);
    if Buffered(s.skipped, pub, x.num) {
      BufferedAt(keys, role, s, pub, x.num);
    } else if pub == s.their {
      ChainNumber(keys, role, s, x);
      OpensCurrentChain(keys, role, s, id, k, x, pn, allowInit);
    } else if x.epoch > RecvEpoch(role, Epoch(Some(s))) {
      OpensNextChain(keys, role, s, id, k, x, form, pn, allowInit);
    } else {
      OtherTextStaysShut(keys, role, s, id, k, x, form, pn, allowInit);
    }
  }

  /** A recorded epoch of the peer's beyond the receiving chain comes right after one of ours. */
  lemma NewerIsNext(keys: seq<Priv>, role: Role, s: Session, tip: seq<Priv>, e: nat)
    requires KeysOk(keys) && LivePlaced(keys, role, Some(s), tip) && 1 <= e < |keys| && !Sends(role, e)
    requires e > RecvEpoch(role, Epoch(Some(s)))
    ensures Sends(role, Epoch(Some(s))) && e == Epoch(Some(s)) + 1
  {
  }

  lemma OpensOnSession(w: World, role: Role, s: Session, tip: seq<Priv>, id: Priv, k: Priv, x: Sent,
                       form: nat, pn: nat, allowInit: bool)
    requires KeysOk(w.keys) && LivePlaced(w.keys, role, Some(s), tip) && Get(w, role).live == Some(s)
    requires 1 <= x.epoch < |w.keys| && !Sends(role, x.epoch)
    requires Counter(Int(x.num)) && Counter(Int(pn))
    ensures var d := Decrypt(Some(s), id, k, Written(w.keys, x, form, pn), allowInit);
      && (d.Ok? <==> CanOpen(w, role, x, form, allowInit))
      && (d.Ok? ==> d.value.1 == x.plain)
  {
    WrittenPrefix(w.keys, tip, x, form, pn);
    assert (w.keys + tip)[x.epoch] == w.keys[x.epoch];
    if x.epoch > RecvEpoch(role, Epoch(Some(s))) { NewerIsNext(w.keys, role, s, tip, x.epoch); }
    OpensScheduled(w.keys + tip, role, s, id, k, x, form, pn, allowInit);
  }

  lemma ChainNumber(keys: seq<Priv>, role: Role, s: Session, x: Sent)
    requires KeysOk(keys) && SessionAt(keys, role, Some(s)) && x.epoch < |keys| && keys[x.epoch] == s.their.key
    ensures x.epoch == RecvEpoch(role, Epoch(Some(s)))
  {
  }

  /** While a side has no session, it is the responder and only the first chain exists. */
  lemma NoneYet(w: World, role: Role, x: Sent)
    requires KeysOk(w.keys) && LivePlaced(w.keys, role, None, Get(w, role).tip)
    requires 1 <= x.epoch < |w.keys| && Sends(Peer(role), x.epoch)
    ensures role.Responder? && |w.keys| == 2 && x.epoch == 1
  {
  }

  /** A message of the first chain, with no session yet. */
  lemma OpensFirst(keys: seq<Priv>, k: Priv, x: Sent, form: nat, pn: nat, allowInit: bool)
    requires KeysOk(keys) && |keys| == 2 && Honest(k) && k !in keys && x.epoch == 1
    requires Counter(Int(x.num)) && Counter(Int(pn))
    ensures var d := Decrypt(None, keys[0], k, Written(keys, x, form, pn), allowInit);
      && (d.Ok? <==> allowInit && x.num <= MAX_SKIP)
      && (d.Ok? ==> d.value.1 == x.plain)
  {
    if allowInit && x.num <= MAX_SKIP { FirstSession(keys, Text(keys[1], form), k, x.num); }
  }

  /** A released message, with any valid pn and its ratchet key written in any way, opens exactly
      when its key is buffered under that text, or the session entered its chain under that text and it
      is at most MAX_SKIP ahead, or it opens the next chain or the session with a number at most
      MAX_SKIP.  How many messages of the retiring chain are missing plays no part. */
  lemma OpensIff(w: World, role: Role, k: Priv, x: Sent, form: nat, pn: nat, allowInit: bool)
    requires Reachable(w) && NewKey(w, k) && x in Get(w, Peer(role)).sent
    requires Counter(Int(x.num)) && Counter(Int(pn))
    ensures 1 <= x.epoch < |w.keys|
    ensures var d := Decrypt(Get(w, role).live, Identity(w, role), k, Written(w.keys, x, form, pn), allowInit);
      && (d.Ok? <==> CanOpen(w, role, x, form, allowInit))
      && (d.Ok? ==> d.value.1 == x.plain)
  {
    ReachablePlaced(w, role);
    ReachableSent(w, Peer(role), x);
    var p := Get(w, role);
    if p.live.Some? {
      OpensOnSession(w, role, p.live.value, p.tip, Identity(w, role), k, x, form, pn, allowInit);
    } else {
      NoneYet(w, role, x);
      OpensFirst(w.keys, k, x, form, pn, allowInit);
    }
  }

  /**
   Sending and receiving undo each other: in every reachable world, if the message a completed send
   returned is open at the peer, the peer's receiving of that very message gives the text sent.
   */
  lemma SentTextArrives(w: World, st: Step, k: Priv, allowInit: bool)
    requires Reachable(w) && st.Send? && Legal(w, st) && st.fault.NoFault? && st.released && |w.keys| >= 1
    requires Encrypt(Get(w, st.role).live, PeerKey(w, st.role), st.newPriv, st.nonce, st.plain).Ok?
    requires NewKey(Apply(w, st), k) && |Apply(w, st).keys| >= 1
    requires var sent := Get(Apply(w, st), st.role).sent;
      && sent != [] && Counter(Int(sent[|sent| - 1].num)) && Counter(Int(sent[|sent| - 1].pn))
    ensures var w2 := Apply(w, st); var x := Get(w2, st.role).sent[|Get(w2, st.role).sent| - 1];
      var m := Encrypt(Get(w, st.role).live, PeerKey(w, st.role), st.newPriv, st.nonce, st.plain).value.1;
      var d := Decrypt(Get(w2, Peer(st.role)).live, Identity(w2, Peer(st.role)), k, m, allowInit);
      && x.epoch < |w2.keys| && (d.Ok? <==> CanOpen(w2, Peer(st.role), x, 0, allowInit))
      && (d.Ok? ==> d.value.1 == st.plain)
  {
    var w2 := Apply(w, st);
    ReturnedIsRecorded(w, st);
    ReachableStep(w, st);
    var sent := Get(w2, st.role).sent;
    var x := sent[|sent| - 1];
    assert Peer(Peer(st.role)) == st.role && x in sent;
    OpensIff(w2, Peer(st.role), k, x, 0, x.pn, allowInit);
    assert Written(w2.keys, x, 0, x.pn) == Wire(w2.keys, x);
  }

  // ---- Runs only add to the record ----

  predicate Extends(w: World, w2: World) {
    && w.keys <= w2.keys
    && w.a.sent <= w2.a.sent && w.b.sent <= w2.b.sent
    && w.a.accepted <= w2.a.accepted && w.b.accepted <= w2.b.accepted
  }

  lemma StepExtends(w: World, st: Step)
    requires |w.keys| >= 1
    ensures Extends(w, Apply(w, st))
  {
  }

  /** Nothing released, accepted or recorded is ever taken back, so the guarantees above
      hold of the whole history of a run. */
  lemma {:induction false} RunExtends(w: World, steps: seq<Step>, w2: World)
    requires |w.keys| >= 1 && Reaches(w, steps, w2)
    ensures Extends(w, w2)
    decreases |steps|
  {
    if steps != [] {
      var w1 := Apply(w, steps[0]);
      StepExtends(w, steps[0]);
      RunExtends(w1, steps[1..], w2);
      ExtendsTwice(w, w1, w2);
    }
  }

  lemma ExtendsTwice(a: World, b: World, c: World)
    requires Extends(a, b) && Extends(b, c)
    ensures Extends(a, c)
  {
  }
}
