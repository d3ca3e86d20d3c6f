/**
 Two parties, one conversation: the initiator and the responder run the ratchet while the
 network reorders, drops, duplicates and forges, operations break off part-way, and either
 side restarts from local storage.
 */
module Agreement {
  import opened Prelude
  import opened Crypto
  import opened Ratchet
  import opened Epochs
  import opened Sessions
  import opened Selection

  /** A released message, by its place on the key schedule. */
  datatype Sent = Sent(epoch: nat, num: nat, pn: nat, nonce: nat, plain: string)

  /** A message whose plaintext was handed to the caller, with its header. */
  datatype Accepted = Accepted(pub: Priv, num: nat, epoch: nat, plain: string)

  /** live is the cached session, saved the local-storage copy.  tip holds the newest
      ratchet key of live when no save has recorded it yet. */
  datatype Party = Party(live: Option<Session>, saved: Option<Session>, tip: seq<Priv>,
                         sent: seq<Sent>, accepted: seq<Accepted>)

  /** cached is how the initiator's cached identity key of the responder is written. */
  datatype World = World(keys: seq<Priv>, initiatorId: Priv, cached: nat, a: Party, b: Party)

  function Get(w: World, role: Role): Party { if role.Initiator? then w.a else w.b }

  function Set(w: World, role: Role, p: Party): World {
    if role.Initiator? then w.(a := p) else w.(b := p)
  }

  /** The message on the wire. */
  function Wire(keys: seq<Priv>, x: Sent): Msg
    requires 1 <= x.epoch < |keys|
  {
    Msg(Sealed(KeyAt(keys, x.epoch, x.num), x.nonce, x.plain), x.nonce, Int(x.num), PubOf(Text(keys[x.epoch], 0)), Int(x.pn))
  }

  /** The same message as the network may hand it on: nothing binds pn, nor how the ratchet key is written. */
  function Written(keys: seq<Priv>, x: Sent, form: nat, pn: nat): Msg
    requires 1 <= x.epoch < |keys|
  {
    Wire(keys, x).(pub := PubOf(Text(keys[x.epoch], form)), pn := Int(pn))
  }

  /** m is message x, whatever its pn and however its ratchet key is written. */
  predicate IsWriting(keys: seq<Priv>, m: Msg, x: Sent)
    requires 1 <= x.epoch < |keys|
  {
    m.pub.PubOf? && Counter(m.pn) && m == Written(keys, x, m.pub.text.form, m.pn.n)
  }

  datatype Step =
    | Send(role: Role, plain: string, newPriv: Priv, nonce: nat, fault: Fault, released: bool)
    | Receive(role: Role, m: Msg, allowInit: bool, newPriv: Priv, saveFails: bool)
    | Restart(role: Role)

  function Start(responderId: Priv, initiatorId: Priv, cached: nat): World {
    World([responderId], initiatorId, cached, Party(None, None, [], [], []), Party(None, None, [], [], []))
  }

  /** Local storage records the live session, and with it the newest ratchet key. */
  function Save(w: World, role: Role): World {
    var p := Get(w, role);
    Set(w, role, p.(saved := p.live, tip := [])).(keys := w.keys + p.tip)
  }

  /** Replace the live session; a ratchet key made for it becomes the tip. */
  function Relive(p: Party, live: Option<Session>, newPriv: Priv): Party {
    p.(live := live, tip := if live.Some? && live.value.myPriv == newPriv then [newPriv] else p.tip)
  }

  /** Only the initiator has the peer's identity key to start from. */
  function PeerKey(w: World, role: Role): Option<Text>
    requires |w.keys| >= 1
  {
    if role.Initiator? then Some(PeerText(w)) else None
  }

  function PeerText(w: World): Text
    requires |w.keys| >= 1
  {
    Text(w.keys[0], w.cached)
  }

  function Identity(w: World, role: Role): Priv
    requires |w.keys| >= 1
  {
    if role.Initiator? then w.initiatorId else w.keys[0]
  }

  function Record(role: Role, s: Session, nonce: nat, plain: string): Sent
    requires s.sendMsgNum >= 1
  {
    var d := SendEpoch(role, Epoch(Some(s)));
    Sent(if d >= 0 then d else 0, s.sendMsgNum - 1, s.sendPrevLen, nonce, plain)
  }

  function ApplySend(w: World, st: Step): World
    requires st.Send? && |w.keys| >= 1
  {
    var p := Get(w, st.role);
    if st.fault.NoFault? then
      var r := Encrypt(p.live, PeerKey(w, st.role), st.newPriv, st.nonce, st.plain);
      if r.Err? then w
      else
        var s := r.value.0;
        var p1 := Relive(p, Some(s), st.newPriv);
        var p2 := if st.released then p1.(sent := p1.sent + [Record(st.role, s, st.nonce, st.plain)]) else p1;
        Save(Set(w, st.role, p2), st.role)
    else
      Set(w, st.role, Relive(p, AfterBrokenSend(p.live, PeerKey(w, st.role), st.newPriv, st.fault), st.newPriv))
  }

  function Where(keys: seq<Priv>, pub: Priv): (i: nat)
    ensures i <= |keys| && (i < |keys| ==> keys[i] == pub)
    ensures forall j :: 0 <= j < i ==> keys[j] != pub
  {
    if keys == [] || keys[0] == pub then 0 else 1 + Where(keys[1..], pub)
  }

  function ApplyReceive(w: World, st: Step): World
    requires st.Receive? && |w.keys| >= 1
  {
    var p := Get(w, st.role);
    var r := Decrypt(p.live, Identity(w, st.role), st.newPriv, st.m, st.allowInit);
    if r.Err? then w
    else
      var p1 := Relive(p, Some(r.value.0), st.newPriv);
      if st.saveFails || !st.m.pub.PubOf? || !Counter(st.m.msgNum) then Set(w, st.role, p1)
      else
        var acc := Accepted(st.m.pub.text.key, st.m.msgNum.n, Where(w.keys, st.m.pub.text.key), r.value.1);
        Save(Set(w, st.role, p1.(accepted := p1.accepted + [acc])), st.role)
  }

  function Apply(w: World, st: Step): World
    requires |w.keys| >= 1
  {
    match st
    case Send(_, _, _, _, _, _) => ApplySend(w, st)
    case Receive(_, _, _, _, _) => ApplyReceive(w, st)
    case Restart(role) =>
      var p := Get(w, role);
      Set(w, role, p.(live := p.saved, tip := []))
  }

  ghost predicate WasSent(w: World, c: Cipher) {
    exists role: Role, x: Sent {:trigger x in Get(w, role).sent} ::
      x in Get(w, role).sent && 1 <= x.epoch < |w.keys| && c == Wire(w.keys, x).cipher
  }

  /** What the network may deliver: any header with any ciphertext it has seen or can
      make.  Starting a session takes an envelope authenticated as the peer's. */
  ghost predicate Deliverable(w: World, role: Role, m: Msg, allowInit: bool) {
    && (m.cipher.Noise? || KnownKey(m.cipher.key) || WasSent(w, m.cipher))
    && (allowInit ==> exists x :: x in Get(w, Peer(role)).sent && 1 <= x.epoch < |w.keys| && m == Wire(w.keys, x))
  }

  /** A newly generated key is unlike every key in use. */
  predicate NewKey(w: World, k: Priv) {
    Honest(k) && k !in w.keys && k !in w.a.tip && k !in w.b.tip
  }

  ghost predicate Legal(w: World, st: Step) {
    match st
    case Send(_, _, k, _, _, _) => NewKey(w, k)
    case Receive(role, m, allowInit, k, _) => NewKey(w, k) && Deliverable(w, role, m, allowInit)
    case Restart(_) => true
  }

  // ---- The invariant ----

  predicate Later(x: Sent, y: Sent) {
    x.epoch < y.epoch || (x.epoch == y.epoch && x.num < y.num)
  }

  /** Released messages belong to this side and only go forward. */
  predicate SentLog(keys: seq<Priv>, role: Role, sent: seq<Sent>) {
    && (forall i :: 0 <= i < |sent| ==> 1 <= sent[i].epoch < |keys| && Sends(role, sent[i].epoch))
    && forall i, j :: 0 <= i < j < |sent| ==> Later(sent[i], sent[j])
  }

  predicate NumberedBelow(x: Sent, epoch: int, num: nat) {
    x.epoch < epoch || (x.epoch == epoch && x.num < num)
  }

  /** Every released message is numbered below the next one session s would send. */
  predicate Below(role: Role, s: Option<Session>, sent: seq<Sent>) {
    && (s.None? ==> sent == [])
    && forall i :: 0 <= i < |sent| ==> s.Some? && NumberedBelow(sent[i], SendEpoch(role, Epoch(s)), s.value.sendMsgNum)
  }

  predicate Matches(x: Accepted, y: Sent) { x.epoch == y.epoch && x.num == y.num && x.plain == y.plain }

  predicate Released(x: Accepted, from: seq<Sent>) { exists y :: y in from && Matches(x, y) }

  /** Accepted messages are the peer's, under their own header, each once. */
  predicate AcceptedLog(keys: seq<Priv>, accepted: seq<Accepted>, from: seq<Sent>) {
    && (forall i :: 0 <= i < |accepted| ==>
          && accepted[i].epoch < |keys| && accepted[i].pub == keys[accepted[i].epoch]
          && Released(accepted[i], from))
    && forall i, j :: 0 <= i < j < |accepted| ==>
         !(accepted[i].epoch == accepted[j].epoch && accepted[i].num == accepted[j].num)
  }

  /** Message (x.epoch, x.num) can no longer be taken from session s. */
  ghost predicate UsedUp(keys: seq<Priv>, role: Role, s: Session, x: Accepted) {
    var r := RecvEpoch(role, Epoch(Some(s)));
    && x.epoch < |keys| && x.epoch <= r
    && (x.epoch == r ==> x.num < s.recvMsgNum)
    && !Holds(s.skipped, keys[x.epoch], x.num)
  }

  ghost predicate AllUsedUp(keys: seq<Priv>, role: Role, s: Option<Session>, accepted: seq<Accepted>) {
    && (s.None? ==> accepted == [])
    && forall i :: 0 <= i < |accepted| ==> s.Some? && UsedUp(keys, role, s.value, accepted[i])
  }

  /** Where a session may stand when m is the newest recorded epoch: the sender of m is
      at m, the other side there, one behind, or one ahead with an unrecorded key. */
  predicate LivePlaced(keys: seq<Priv>, role: Role, live: Option<Session>, tip: seq<Priv>)
    requires |keys| >= 1
  {
    var m := |keys| - 1;
    && KeysOk(keys + tip) && |tip| <= 1
    && SessionAt(keys + tip, role, live)
    && m - 1 <= Epoch(live)
    && (tip != [] ==> !Sends(role, m) && Epoch(live) == m + 1)
    && (Sends(role, m) ==> Epoch(live) == m)
  }

  /** What the session in the cache guarantees about itself and the logs. */
  ghost predicate LiveInv(w: World, role: Role)
    requires |w.keys| >= 1
  {
    var p := Get(w, role);
    && LivePlaced(w.keys, role, p.live, p.tip)
    && SentLog(w.keys + p.tip, role, p.sent) && Below(role, p.live, p.sent)
    && AcceptedLog(w.keys, p.accepted, Get(w, Peer(role)).sent)
    && AllUsedUp(w.keys, role, p.live, p.accepted)
  }

  /** The saved copy guarantees the same, with every key recorded. */
  ghost predicate SavedInv(w: World, role: Role)
    requires |w.keys| >= 1
  {
    var p := Get(w, role);
    && LivePlaced(w.keys, role, p.saved, [])
    && SentLog(w.keys, role, p.sent) && Below(role, p.saved, p.sent)
    && AllUsedUp(w.keys, role, p.saved, p.accepted)
  }

  ghost predicate PartyInv(w: World, role: Role)
    requires |w.keys| >= 1
  {
    LiveInv(w, role) && SavedInv(w, role)
  }

  /** Seen from one side: that side, then its peer. */
  ghost predicate InvFrom(w: World, role: Role) {
    KeysOk(w.keys) && PartyInv(w, role) && PartyInv(w, Peer(role))
  }

  ghost predicate Inv(w: World) { InvFrom(w, Initiator) }

  lemma EitherSide(w: World, role: Role)
    ensures InvFrom(w, role) <==> Inv(w)
  {
  }

  lemma StartInv(responderId: Priv, initiatorId: Priv, cached: nat)
    requires Honest(responderId)
    ensures Inv(Start(responderId, initiatorId, cached))
  {
  }

  // ---- Saving ----

  lemma UsedUpPrefix(keys: seq<Priv>, more: seq<Priv>, role: Role, s: Option<Session>, accepted: seq<Accepted>)
    requires AllUsedUp(keys, role, s, accepted)
    ensures AllUsedUp(keys + more, role, s, accepted)
  {
    forall i | 0 <= i < |accepted| ensures UsedUp(keys + more, role, s.value, accepted[i]) {
      assert UsedUp(keys, role, s.value, accepted[i]);
    }
  }

  /** Recording the live session makes it the saved one. */
  lemma SaveOwn(w: World, role: Role)
    requires KeysOk(w.keys) && LiveInv(w, role)
    ensures PartyInv(Save(w, role), role) && KeysOk(Save(w, role).keys)
  {
    var p := Get(w, role);
    var keys2 := w.keys + p.tip;
    assert keys2 + [] == keys2;
    UsedUpPrefix(w.keys, p.tip, role, p.live, p.accepted);
    assert LivePlaced(keys2, role, p.live, []);
  }

  /** The other side does not notice, except that a new epoch may now be recorded. */
  lemma SaveOther(w: World, role: Role, q: Option<Session>, qTip: seq<Priv>)
    requires KeysOk(w.keys) && LivePlaced(w.keys, role, Get(w, role).live, Get(w, role).tip)
    requires LivePlaced(w.keys, Peer(role), q, qTip)
    ensures LivePlaced(w.keys + Get(w, role).tip, Peer(role), q, qTip)
  {
    var tip := Get(w, role).tip;
    if tip == [] {
      assert w.keys + tip == w.keys;
    } else {
      assert qTip == [];
      assert w.keys + [] == w.keys && (w.keys + tip) + [] == w.keys + tip;
      SessionAtPrefix(w.keys, tip, Peer(role), q);
    }
  }

  lemma SaveKeepsInv(w: World, role: Role)
    requires KeysOk(w.keys) && LiveInv(w, role) && PartyInv(w, Peer(role))
    ensures InvFrom(Save(w, role), role)
  {
    var q := Get(w, Peer(role));
    var tip := Get(w, role).tip;
    SaveOwn(w, role);
    SaveOther(w, role, q.live, q.tip);
    SaveOther(w, role, q.saved, []);
    UsedUpPrefix(w.keys, tip, Peer(role), q.live, q.accepted);
    UsedUpPrefix(w.keys, tip, Peer(role), q.saved, q.accepted);
    assert Get(Save(w, role), Peer(role)) == q;
  }

  // ---- Sending ----

  /** t receives exactly as s does, and numbers its next message no lower. */
  predicate SendsFrom(role: Role, s: Option<Session>, t: Session) {
    s.Some? ==>
      var d, d2 := SendEpoch(role, Epoch(s)), SendEpoch(role, Epoch(Some(t)));
      && t.skipped == s.value.skipped && t.recvMsgNum == s.value.recvMsgNum
      && RecvEpoch(role, Epoch(Some(t))) == RecvEpoch(role, Epoch(s))
      && (d < d2 || (d == d2 && s.value.sendMsgNum <= t.sendMsgNum))
  }

  /** Preparing to send opens the next epoch exactly when it is this side's turn. */
  lemma ReadyPlaced(keys: seq<Priv>, role: Role, live: Option<Session>, tip: seq<Priv>, peer: Text, k: Priv)
    requires KeysOk(keys) && LivePlaced(keys, role, live, tip) && (live.Some? || role.Initiator?) && peer.key == keys[0]
    requires Honest(k) && k !in keys && k !in tip
    ensures var r := ReadyToSend(live, peer, k);
      && LivePlaced(keys, role, Some(r), if r.myPriv == k then [k] else tip)
      && SendsFrom(role, live, r)
  {
    var r := ReadyToSend(live, peer, k);
    assert KeysOk(keys + [k]);
    assert keys + [] == keys;
    if live.None? {
      assert keys == [keys[0]];
      assert keys + [k] == [keys[0], k];
      InitSenderAt(peer, k);
    } else if live.value.pending {
      assert tip == [];
      DhSendAt(keys, role, live.value, k);
    } else {
      assert r.myPriv in keys + tip;
    }
  }

  lemma SendsFromKeeps(keys: seq<Priv>, role: Role, s: Option<Session>, t: Session, sent: seq<Sent>, accepted: seq<Accepted>)
    requires SendsFrom(role, s, t) && Below(role, s, sent) && AllUsedUp(keys, role, s, accepted)
    ensures Below(role, Some(t), sent) && AllUsedUp(keys, role, Some(t), accepted)
  {
    forall i | 0 <= i < |accepted| ensures UsedUp(keys, role, t, accepted[i]) {
      assert UsedUp(keys, role, s.value, accepted[i]);
    }
    forall i | 0 <= i < |sent| ensures NumberedBelow(sent[i], SendEpoch(role, Epoch(Some(t))), t.sendMsgNum) {
      assert NumberedBelow(sent[i], SendEpoch(role, Epoch(s)), s.value.sendMsgNum);
    }
  }

  /** This side's half of replacing the live session. */
  lemma ReliveOwn(w: World, role: Role, t: Session, tip: seq<Priv>)
    requires |w.keys| >= 1 && PartyInv(w, role)
    requires LivePlaced(w.keys, role, Some(t), tip) && SendsFrom(role, Get(w, role).live, t)
    ensures PartyInv(Set(w, role, Get(w, role).(live := Some(t), tip := tip)), role)
  {
    var p := Get(w, role);
    SendsFromKeeps(w.keys, role, p.live, t, p.sent, p.accepted);
    SentLogPrefix(w.keys, tip, role, p.sent);
    assert SavedInv(w, role);
  }

  /** Replacing the live session by a later sending state of itself. */
  lemma ReliveKeepsInv(w: World, role: Role, t: Session, tip: seq<Priv>)
    requires InvFrom(w, role)
    requires LivePlaced(w.keys, role, Some(t), tip) && SendsFrom(role, Get(w, role).live, t)
    ensures InvFrom(Set(w, role, Get(w, role).(live := Some(t), tip := tip)), role)
  {
    var p := Get(w, role);
    SetOther(w, role, p.(live := Some(t), tip := tip));
    ReliveOwn(w, role, t, tip);
  }

  lemma StampPlaced(keys: seq<Priv>, role: Role, s: Session, tip: seq<Priv>)
    requires |keys| >= 1 && LivePlaced(keys, role, Some(s), tip)
    ensures LivePlaced(keys, role, Some(TakeSendKey(s)), tip)
    ensures LivePlaced(keys, role, Some(Stamp(TakeSendKey(s))), tip)
    ensures LivePlaced(keys, role, Some(Stamp(s)), tip)
  {
    TakeSendKeyAt(keys + tip, role, s);
  }

  /** A broken-off send leaves the live session as it was or at a later sending state. */
  lemma BrokenPlaced(keys: seq<Priv>, role: Role, live: Option<Session>, tip: seq<Priv>, peer: Text, k: Priv, f: Fault)
    requires KeysOk(keys) && LivePlaced(keys, role, live, tip) && f != NoFault && peer.key == keys[0]
    requires Honest(k) && k !in keys && k !in tip
    ensures var t := AfterBrokenSend(live, if role.Initiator? then Some(peer) else None, k, f);
      t == live ||
      (t.Some? && SendsFrom(role, live, t.value) && LivePlaced(keys, role, t, if t.value.myPriv == k then [k] else tip))
  {
    var t := AfterBrokenSend(live, if role.Initiator? then Some(peer) else None, k, f);
    if t != live {
      ReadyPlaced(keys, role, live, tip, peer, k);
      var r := ReadyToSend(live, peer, k);
      StampPlaced(keys, role, r, if r.myPriv == k then [k] else tip);
    }
  }

  lemma LiveKeyKnown(keys: seq<Priv>, role: Role, live: Option<Session>, tip: seq<Priv>)
    requires |keys| >= 1 && LivePlaced(keys, role, live, tip)
    ensures live.Some? ==> live.value.myPriv in keys || live.value.myPriv in tip
  {
    if live.Some? { assert live.value.myPriv in keys + tip; }
  }

  lemma BrokenSendKeepsInv(w: World, st: Step)
    requires InvFrom(w, st.role) && st.Send? && Legal(w, st) && !st.fault.NoFault?
    ensures InvFrom(ApplySend(w, st), st.role)
  {
    var p := Get(w, st.role);
    var live := AfterBrokenSend(p.live, PeerKey(w, st.role), st.newPriv, st.fault);
    BrokenPlaced(w.keys, st.role, p.live, p.tip, PeerText(w), st.newPriv, st.fault);
    if live != p.live {
      ReliveKeepsInv(w, st.role, live.value, if live.value.myPriv == st.newPriv then [st.newPriv] else p.tip);
    } else {
      LiveKeyKnown(w.keys, st.role, p.live, p.tip);
      assert ApplySend(w, st) == w;
    }
  }

  /** The released message is the wire form of its record. */
  lemma OutgoingIsWire(keys: seq<Priv>, role: Role, r: Session, nonce: nat, plain: string)
    requires SessionAt(keys, role, Some(r))
    ensures var x := Record(role, Stamp(TakeSendKey(r)), nonce, plain);
      1 <= x.epoch < |keys| && Sends(role, x.epoch) && Outgoing(r, nonce, plain) == Wire(keys, x)
  {
  }

  /** The new record goes after every earlier one and before the next. */
  lemma RecordIsLater(keys: seq<Priv>, role: Role, s: Session, sent: seq<Sent>, nonce: nat, plain: string)
    requires SessionAt(keys, role, Some(s)) && SentLog(keys, role, sent) && Below(role, Some(s), sent)
    ensures var t := Stamp(TakeSendKey(s)); var sent2 := sent + [Record(role, t, nonce, plain)];
      SentLog(keys, role, sent2) && Below(role, Some(t), sent2)
  {
    var t := Stamp(TakeSendKey(s));
    var sent2 := sent + [Record(role, t, nonce, plain)];
    OutgoingIsWire(keys, role, s, nonce, plain);
    forall i | 0 <= i < |sent2| ensures NumberedBelow(sent2[i], SendEpoch(role, Epoch(Some(t))), t.sendMsgNum) {
      if i < |sent| { assert NumberedBelow(sent[i], SendEpoch(role, Epoch(Some(s))), s.sendMsgNum); }
    }
    forall i, j | 0 <= i < j < |sent2| ensures Later(sent2[i], sent2[j]) {
      if j == |sent| { assert NumberedBelow(sent[i], SendEpoch(role, Epoch(Some(s))), s.sendMsgNum); }
    }
  }

  lemma SentLogPrefix(keys: seq<Priv>, more: seq<Priv>, role: Role, sent: seq<Sent>)
    requires SentLog(keys, role, sent)
    ensures SentLog(keys + more, role, sent)
  {
  }

  /** The party after a completed send, before the save. */
  function AfterSend(p: Party, role: Role, r: Session, tip: seq<Priv>, st: Step): Party
    requires st.Send?
  {
    var t := Stamp(TakeSendKey(r));
    p.(live := Some(t), tip := tip,
       sent := if st.released then p.sent + [Record(role, t, st.nonce, st.plain)] else p.sent)
  }

  lemma SendLive(w: World, st: Step, r: Session, tip: seq<Priv>)
    requires |w.keys| >= 1 && LiveInv(w, st.role) && SavedInv(w, st.role) && st.Send?
    requires LivePlaced(w.keys, st.role, Some(r), tip) && SendsFrom(st.role, Get(w, st.role).live, r)
    ensures LiveInv(Set(w, st.role, AfterSend(Get(w, st.role), st.role, r, tip, st)), st.role)
  {
    var p := Get(w, st.role);
    var t := Stamp(TakeSendKey(r));
    StampPlaced(w.keys, st.role, r, tip);
    SendsFromKeeps(w.keys, st.role, p.live, r, p.sent, p.accepted);
    SendsFromKeeps(w.keys, st.role, Some(r), t, p.sent, p.accepted);
    SentLogPrefix(w.keys, tip, st.role, p.sent);
    RecordIsLater(w.keys + tip, st.role, r, p.sent, st.nonce, st.plain);
  }

  /** More sent messages never hurt the receiver's log. */
  lemma MoreSent(w: World, role: Role, sent: seq<Sent>)
    requires |w.keys| >= 1 && PartyInv(w, Peer(role)) && Get(w, role).sent <= sent
    ensures AcceptedLog(w.keys, Get(w, Peer(role)).accepted, sent)
  {
    var q := Get(w, Peer(role));
    assert Peer(Peer(role)) == role;
    forall i | 0 <= i < |q.accepted| ensures Released(q.accepted[i], sent) {
      assert Released(q.accepted[i], Get(w, role).sent);
      var y :| y in Get(w, role).sent && Matches(q.accepted[i], y);
      assert y in sent;
    }
  }

  /** The world after a completed send, before the save. */
  function Staged(w: World, st: Step): World
    requires |w.keys| >= 1 && st.Send?
  {
    var p := Get(w, st.role);
    var r := ReadyToSend(p.live, PeerText(w), st.newPriv);
    Set(w, st.role, AfterSend(p, st.role, r, if r.myPriv == st.newPriv then [st.newPriv] else p.tip, st))
  }

  lemma SendIsStaged(w: World, st: Step)
    requires |w.keys| >= 1 && st.Send? && st.fault.NoFault?
    ensures ApplySend(w, st) ==
      if Get(w, st.role).live.Some? || st.role.Initiator? then Save(Staged(w, st), st.role) else w
  {
  }

  lemma StagedOwn(w: World, st: Step)
    requires KeysOk(w.keys) && PartyInv(w, st.role) && st.Send? && Legal(w, st)
    requires Get(w, st.role).live.Some? || st.role.Initiator?
    ensures LiveInv(Staged(w, st), st.role)
  {
    var p := Get(w, st.role);
    ReadyPlaced(w.keys, st.role, p.live, p.tip, PeerText(w), st.newPriv);
    var r := ReadyToSend(p.live, PeerText(w), st.newPriv);
    SendLive(w, st, r, if r.myPriv == st.newPriv then [st.newPriv] else p.tip);
  }

  lemma StagedOther(w: World, st: Step)
    requires InvFrom(w, st.role) && st.Send?
    ensures PartyInv(Staged(w, st), Peer(st.role))
  {
    var p2 := Get(Staged(w, st), st.role);
    MoreSent(w, st.role, p2.sent);
    SetOther(w, st.role, p2);
  }

  lemma SendKeepsInv(w: World, st: Step)
    requires InvFrom(w, st.role) && st.Send? && Legal(w, st) && st.fault.NoFault?
    ensures InvFrom(ApplySend(w, st), st.role)
  {
    SendIsStaged(w, st);
    if Get(w, st.role).live.Some? || st.role.Initiator? {
      StagedOwn(w, st);
      StagedOther(w, st);
      SaveKeepsInv(Staged(w, st), st.role);
    }
  }

  lemma SetOther(w: World, role: Role, p: Party)
    requires |w.keys| >= 1 && PartyInv(w, Peer(role))
    requires AcceptedLog(w.keys, Get(w, Peer(role)).accepted, p.sent)
    ensures PartyInv(Set(w, role, p), Peer(role))
  {
  }

  // ---- Receiving ----

  /** An opened ciphertext was sealed by an honest sender under the selected key. */
  lemma OpenedWasSent(w: World, role: Role, s: Session, tip: seq<Priv>, id: Priv, k: Priv, m: Msg, allowInit: bool)
    requires KeysOk(w.keys) && LivePlaced(w.keys, role, Some(s), tip)
    requires Deliverable(w, role, m, allowInit)
    requires Decrypt(Some(s), id, k, m, allowInit).Ok?
    ensures exists q: Role, x: Sent {:trigger x in Get(w, q).sent} ::
      && x in Get(w, q).sent && 1 <= x.epoch < |w.keys|
      && Select(Some(s), id, k, m, allowInit).value.1 == KeyAt(w.keys + tip, x.epoch, x.num)
      && Decrypt(Some(s), id, k, m, allowInit).value.1 == x.plain
  {
    SelectedKeySecret(w.keys + tip, role, s, id, k, m, allowInit);
    var q: Role, x: Sent :| x in Get(w, q).sent && 1 <= x.epoch < |w.keys| && m.cipher == Wire(w.keys, x).cipher;
    ChainAtPrefix(w.keys, tip, x.epoch, x.num);
  }

  /** Progress along the chains keeps used messages used. */
  lemma ProgressKeepsUsed(keys: seq<Priv>, all: seq<Priv>, role: Role, s: Session, t: Session, accepted: seq<Accepted>)
    requires keys <= all && KeysOk(all) && SessionAt(all, role, Some(s)) && SessionAt(all, role, Some(t))
    requires Progress(all, RecvEpoch(role, Epoch(Some(s))), s, RecvEpoch(role, Epoch(Some(t))), t)
    requires AllUsedUp(keys, role, Some(s), accepted)
    ensures AllUsedUp(keys, role, Some(t), accepted)
  {
    forall i | 0 <= i < |accepted| ensures UsedUp(keys, role, t, accepted[i]) {
      assert UsedUp(keys, role, s, accepted[i]);
      assert all[accepted[i].epoch] == keys[accepted[i].epoch];
    }
  }

  /** What an accepted delivery does to an existing session. */
  ghost predicate Moves(w: World, role: Role, m: Msg, s: Session, tip: seq<Priv>, t: Session, x: Sent)
    requires KeysOk(w.keys)
  {
    && x in Get(w, Peer(role)).sent && 1 <= x.epoch < |w.keys|
    && Headed(w.keys, m, x.epoch, x.num)
    && LivePlaced(w.keys, role, Some(t), tip)
    && t.sendMsgNum == s.sendMsgNum && t.myPriv == s.myPriv
    && SendEpoch(role, Epoch(Some(t))) == SendEpoch(role, Epoch(Some(s)))
    && LivePlaced(w.keys, role, Some(s), tip)
    && Progress(w.keys + tip, RecvEpoch(role, Epoch(Some(s))), s, RecvEpoch(role, Epoch(Some(t))), t)
    && Consumes(w.keys + tip, RecvEpoch(role, Epoch(Some(s))), s, RecvEpoch(role, Epoch(Some(t))), t, x.epoch, x.num)
  }

  lemma SelectedMoves(w: World, role: Role, s: Session, tip: seq<Priv>, id: Priv, k: Priv, m: Msg, allowInit: bool,
                      q: Role, x: Sent)
    requires KeysOk(w.keys) && LivePlaced(w.keys, role, Some(s), tip)
    requires Select(Some(s), id, k, m, allowInit).Ok?
    requires x in Get(w, q).sent && 1 <= x.epoch < |w.keys| && Sends(q, x.epoch)
    requires Select(Some(s), id, k, m, allowInit).value.1 == KeyAt(w.keys + tip, x.epoch, x.num)
    ensures Moves(w, role, m, s, tip, Select(Some(s), id, k, m, allowInit).value.0, x)
  {
    SelectedIsNamed(w.keys + tip, role, s, id, k, m, allowInit, x.epoch, x.num);
    assert q == Peer(role);
    assert w.keys + [] == w.keys;
  }

  /** Every accepted message on an existing session is the peer's, under its own header. */
  lemma AcceptedMoves(w: World, role: Role, id: Priv, k: Priv, m: Msg, allowInit: bool) returns (x: Sent)
    requires InvFrom(w, role) && Get(w, role).live.Some?
    requires Deliverable(w, role, m, allowInit)
    requires Decrypt(Get(w, role).live, id, k, m, allowInit).Ok?
    ensures var p := Get(w, role);
      && Moves(w, role, m, p.live.value, p.tip, Select(p.live, id, k, m, allowInit).value.0, x)
      && Decrypt(p.live, id, k, m, allowInit).value.1 == x.plain
  {
    var p := Get(w, role);
    OpenedWasSent(w, role, p.live.value, p.tip, id, k, m, allowInit);
    var q: Role, y: Sent :|
      && y in Get(w, q).sent && 1 <= y.epoch < |w.keys|
      && Select(p.live, id, k, m, allowInit).value.1 == KeyAt(w.keys + p.tip, y.epoch, y.num)
      && Decrypt(p.live, id, k, m, allowInit).value.1 == y.plain;
    SenderOf(w, role, q, y);
    SelectedMoves(w, role, p.live.value, p.tip, id, k, m, allowInit, q, y);
    x := y;
  }

  lemma SenderOf(w: World, role: Role, q: Role, y: Sent)
    requires InvFrom(w, role) && y in Get(w, q).sent
    ensures 1 <= y.epoch < |w.keys| && Sends(q, y.epoch)
  {
    if q == role { assert SavedInv(w, role); } else { assert SavedInv(w, Peer(role)); }
    var i :| 0 <= i < |Get(w, q).sent| && Get(w, q).sent[i] == y;
  }

  function Entry4(x: Sent, pub: Priv): Accepted { Accepted(pub, x.num, x.epoch, x.plain) }

  /** A message the session still had open is not in the log yet. */
  lemma NotYetAccepted(keys: seq<Priv>, all: seq<Priv>, role: Role, s: Session, t: Session, r2: nat, accepted: seq<Accepted>, x: Sent)
    requires keys <= all && SessionAt(all, role, Some(s)) && x.epoch < |keys| && r2 < |all|
    requires Consumes(all, RecvEpoch(role, Epoch(Some(s))), s, r2, t, x.epoch, x.num)
    requires AllUsedUp(keys, role, Some(s), accepted)
    ensures forall i :: 0 <= i < |accepted| ==> !(accepted[i].epoch == x.epoch && accepted[i].num == x.num)
  {
    forall i | 0 <= i < |accepted| ensures !(accepted[i].epoch == x.epoch && accepted[i].num == x.num) {
      assert UsedUp(keys, role, s, accepted[i]);
      assert all[accepted[i].epoch] == keys[accepted[i].epoch];
    }
  }

  lemma LogAccepted(keys: seq<Priv>, accepted: seq<Accepted>, from: seq<Sent>, x: Sent)
    requires AcceptedLog(keys, accepted, from) && x in from && x.epoch < |keys|
    requires forall i :: 0 <= i < |accepted| ==> !(accepted[i].epoch == x.epoch && accepted[i].num == x.num)
    ensures AcceptedLog(keys, accepted + [Entry4(x, keys[x.epoch])], from)
  {
    var more := accepted + [Entry4(x, keys[x.epoch])];
    assert Matches(Entry4(x, keys[x.epoch]), x);
    forall i | 0 <= i < |more| ensures Released(more[i], from) {
      if i < |accepted| { assert Released(accepted[i], from); }
    }
  }

  lemma UseUp(keys: seq<Priv>, all: seq<Priv>, role: Role, s: Session, t: Session, accepted: seq<Accepted>, x: Sent)
    requires keys <= all && SessionAt(all, role, Some(s)) && SessionAt(all, role, Some(t)) && x.epoch < |keys|
    requires Consumes(all, RecvEpoch(role, Epoch(Some(s))), s, RecvEpoch(role, Epoch(Some(t))), t, x.epoch, x.num)
    requires AllUsedUp(keys, role, Some(t), accepted)
    ensures AllUsedUp(keys, role, Some(Stamp(t)), accepted + [Entry4(x, keys[x.epoch])])
  {
    var more := accepted + [Entry4(x, keys[x.epoch])];
    assert all[x.epoch] == keys[x.epoch];
    forall i | 0 <= i < |more| ensures UsedUp(keys, role, Stamp(t), more[i]) {
      if i < |accepted| { assert UsedUp(keys, role, t, accepted[i]); }
    }
  }

  /** The receiver with message x accepted and session t in the cache. */
  function AfterReceive(p: Party, t: Session, pub: Priv, x: Sent): Party {
    p.(live := Some(Stamp(t)), accepted := p.accepted + [Entry4(x, pub)])
  }

  lemma ReceivedLive(w: World, role: Role, m: Msg, t: Session, x: Sent)
    requires InvFrom(w, role) && Get(w, role).live.Some?
    requires Moves(w, role, m, Get(w, role).live.value, Get(w, role).tip, t, x)
    ensures LiveInv(Set(w, role, Get(w, role).(live := Some(Stamp(t)))), role)
    ensures LiveInv(Set(w, role, AfterReceive(Get(w, role), t, w.keys[x.epoch], x)), role)
  {
    var p := Get(w, role);
    var s := p.live.value;
    StampPlaced(w.keys, role, t, p.tip);
    ProgressKeepsUsed(w.keys, w.keys + p.tip, role, s, t, p.accepted);
    BelowSame(role, s, Stamp(t), p.sent);
    NotYetAccepted(w.keys, w.keys + p.tip, role, s, t, RecvEpoch(role, Epoch(Some(t))), p.accepted, x);
    LogAccepted(w.keys, p.accepted, Get(w, Peer(role)).sent, x);
    UseUp(w.keys, w.keys + p.tip, role, s, t, p.accepted, x);
    StampKeepsUsed(w.keys, role, t, p.accepted);
  }

  lemma StampKeepsUsed(keys: seq<Priv>, role: Role, t: Session, accepted: seq<Accepted>)
    requires AllUsedUp(keys, role, Some(t), accepted)
    ensures AllUsedUp(keys, role, Some(Stamp(t)), accepted)
  {
    forall i | 0 <= i < |accepted| ensures UsedUp(keys, role, Stamp(t), accepted[i]) {
      assert UsedUp(keys, role, t, accepted[i]);
    }
  }

  lemma BelowSame(role: Role, s: Session, t: Session, sent: seq<Sent>)
    requires Below(role, Some(s), sent) && s.sendMsgNum == t.sendMsgNum
    requires SendEpoch(role, Epoch(Some(s))) == SendEpoch(role, Epoch(Some(t)))
    ensures Below(role, Some(t), sent)
  {
    forall i | 0 <= i < |sent| ensures NumberedBelow(sent[i], SendEpoch(role, Epoch(Some(t))), t.sendMsgNum) {
      assert NumberedBelow(sent[i], SendEpoch(role, Epoch(Some(s))), s.sendMsgNum);
    }
  }

  lemma WhereIs(keys: seq<Priv>, e: nat)
    requires KeysOk(keys) && e < |keys|
    ensures Where(keys, keys[e]) == e
  {
  }

  /** ApplyReceive written with the record the accepted message comes from. */
  lemma ReceiveIsAfterReceive(w: World, st: Step, x: Sent)
    requires KeysOk(w.keys) && st.Receive? && 1 <= x.epoch < |w.keys|
    requires var r := Decrypt(Get(w, st.role).live, Identity(w, st.role), st.newPriv, st.m, st.allowInit);
      r.Ok? && r.value.1 == x.plain
    requires Headed(w.keys, st.m, x.epoch, x.num) && Counter(st.m.msgNum)
    ensures var p := Get(w, st.role);
      var t := Select(p.live, Identity(w, st.role), st.newPriv, st.m, st.allowInit).value.0;
      var p1 := Relive(p, Some(Stamp(t)), st.newPriv);
      ApplyReceive(w, st) ==
        if st.saveFails then Set(w, st.role, p1)
        else Save(Set(w, st.role, p1.(accepted := p1.accepted + [Entry4(x, w.keys[x.epoch])])), st.role)
  {
    WhereIs(w.keys, x.epoch);
  }

  /** A received session keeps its own ratchet key, which is not the new one. */
  lemma ReliveSame(w: World, p: Party, role: Role, t: Session, k: Priv)
    requires |w.keys| >= 1 && NewKey(w, k) && (p == w.a || p == w.b) && LivePlaced(w.keys, role, Some(t), p.tip)
    ensures Relive(p, Some(Stamp(t)), k) == p.(live := Some(Stamp(t)))
  {
    LiveKeyKnown(w.keys, role, Some(t), p.tip);
  }

  /** An accepted delivery on a session, written with the record it comes from. */
  lemma ReceiveForm(w: World, st: Step) returns (t: Session, x: Sent)
    requires InvFrom(w, st.role) && st.Receive? && Legal(w, st) && Get(w, st.role).live.Some?
    requires Decrypt(Get(w, st.role).live, Identity(w, st.role), st.newPriv, st.m, st.allowInit).Ok?
    ensures var p := Get(w, st.role);
      && Moves(w, st.role, st.m, p.live.value, p.tip, t, x)
      && ApplyReceive(w, st) ==
           if st.saveFails then Set(w, st.role, p.(live := Some(Stamp(t))))
           else Save(Set(w, st.role, AfterReceive(p, t, w.keys[x.epoch], x)), st.role)
  {
    var p := Get(w, st.role);
    var id := Identity(w, st.role);
    x := AcceptedMoves(w, st.role, id, st.newPriv, st.m, st.allowInit);
    t := Select(p.live, id, st.newPriv, st.m, st.allowInit).value.0;
    ReliveSame(w, p, st.role, t, st.newPriv);
    ReceiveIsAfterReceive(w, st, x);
  }

  lemma ReceiveOnSession(w: World, st: Step)
    requires InvFrom(w, st.role) && st.Receive? && Legal(w, st) && Get(w, st.role).live.Some?
    ensures InvFrom(ApplyReceive(w, st), st.role)
  {
    var p := Get(w, st.role);
    if Decrypt(p.live, Identity(w, st.role), st.newPriv, st.m, st.allowInit).Ok? {
      var t, x := ReceiveForm(w, st);
      ReceivedLive(w, st.role, st.m, t, x);
      AfterReceiveKeeps(w, st.role, p.(live := Some(Stamp(t))), AfterReceive(p, t, w.keys[x.epoch], x));
    }
  }

  /** Both outcomes of the save that follows a good tag keep the invariant. */
  lemma AfterReceiveKeeps(w: World, role: Role, failed: Party, saved: Party)
    requires InvFrom(w, role)
    requires failed.saved == Get(w, role).saved && failed.sent == Get(w, role).sent && failed.accepted == Get(w, role).accepted
    requires saved.sent == Get(w, role).sent
    requires LiveInv(Set(w, role, failed), role) && LiveInv(Set(w, role, saved), role)
    ensures InvFrom(Set(w, role, failed), role)
    ensures InvFrom(Save(Set(w, role, saved), role), role)
  {
    assert Peer(Peer(role)) == role;
    SetOther(w, role, failed);
    SetOther(w, role, saved);
    assert SavedInv(Set(w, role, failed), role);
    SaveKeepsInv(Set(w, role, saved), role);
  }

  // ---- The first message ----

  /** Without a session only the responder can accept anything: the initiator's first
      chain, from an authenticated envelope. */
  lemma FirstMessage(w: World, role: Role, id: Priv, k: Priv, m: Msg, allowInit: bool) returns (x: Sent)
    requires InvFrom(w, role) && Get(w, role).live.None?
    requires Deliverable(w, role, m, allowInit) && Decrypt(None, id, k, m, allowInit).Ok?
    ensures role.Responder? && |w.keys| == 2
    ensures x in Get(w, Peer(role)).sent && x.epoch == 1 && m == Wire(w.keys, x)
    ensures Get(w, role).tip == [] && Get(w, role).sent == [] && Get(w, role).accepted == []
  {
    x :| x in Get(w, Peer(role)).sent && 1 <= x.epoch < |w.keys| && m == Wire(w.keys, x);
    assert LivePlaced(w.keys, role, None, Get(w, role).tip);
  }

  lemma FirstSession(keys: seq<Priv>, pub: Text, k: Priv, num: nat)
    requires KeysOk(keys) && |keys| == 2 && Honest(k) && k !in keys && pub.key == keys[1]
    requires Take(InitReceiver(pub, keys[0], k), num).Ok?
    ensures var (t, key) := Take(InitReceiver(pub, keys[0], k), num).value;
      && LivePlaced(keys, Responder, Some(Stamp(t)), [k]) && t.myPriv == k
      && key == KeyAt(keys, 1, num)
      && UsedUp(keys, Responder, Stamp(t), Accepted(keys[1], num, 1, ""))
  {
    var s := InitReceiver(pub, keys[0], k);
    var all := [keys[0], keys[1], k];
    assert keys + [k] == all;
    InitReceiverAt(keys[0], pub, k);
    assert KeysOk(all);
    TakeAt(all, Responder, s, num);
    ChainAtPrefix(keys, [k], 1, num);
    var t := Take(s, num).value.0;
    StampPlaced(keys, Responder, t, [k]);
    NotGrown(s.skipped, t.skipped, pub, 0, num, keys[1], num);
  }

  lemma FirstLive(w: World, t: Session, k: Priv, x: Sent)
    requires InvFrom(w, Responder) && |w.keys| == 2
    requires Get(w, Responder).sent == [] && Get(w, Responder).accepted == []
    requires LivePlaced(w.keys, Responder, Some(Stamp(t)), [k])
    requires x in Get(w, Initiator).sent && x.epoch == 1
    requires UsedUp(w.keys, Responder, Stamp(t), Accepted(w.keys[1], x.num, 1, ""))
    ensures var p := Get(w, Responder).(tip := [k]);
      && LiveInv(Set(w, Responder, p.(live := Some(Stamp(t)))), Responder)
      && LiveInv(Set(w, Responder, AfterReceive(p, t, w.keys[1], x)), Responder)
  {
    var acc := Entry4(x, w.keys[1]);
    assert Matches(acc, x);
    assert UsedUp(w.keys, Responder, Stamp(t), acc);
  }

  lemma FirstForm(w: World, st: Step, x: Sent)
    requires KeysOk(w.keys) && |w.keys| == 2 && st.Receive? && st.role.Responder?
    requires Get(w, st.role).live.None? && x.epoch == 1 && st.m == Wire(w.keys, x)
    requires Honest(st.newPriv) && st.newPriv !in w.keys
    requires Decrypt(None, w.keys[0], st.newPriv, st.m, st.allowInit).Ok?
    ensures var p := Get(w, st.role).(tip := [st.newPriv]);
      && Take(InitReceiver(Text(w.keys[1], 0), w.keys[0], st.newPriv), x.num).Ok?
      && var t := Take(InitReceiver(Text(w.keys[1], 0), w.keys[0], st.newPriv), x.num).value.0;
      ApplyReceive(w, st) ==
           if st.saveFails then Set(w, st.role, p.(live := Some(Stamp(t))))
           else Save(Set(w, st.role, AfterReceive(p, t, w.keys[1], x)), st.role)
  {
    FirstSession(w.keys, Text(w.keys[1], 0), st.newPriv, x.num);
    WhereIs(w.keys, 1);
  }

  lemma ReceiveFirst(w: World, st: Step)
    requires InvFrom(w, st.role) && st.Receive? && Legal(w, st) && Get(w, st.role).live.None?
    ensures InvFrom(ApplyReceive(w, st), st.role)
  {
    var id := Identity(w, st.role);
    if Decrypt(None, id, st.newPriv, st.m, st.allowInit).Ok? {
      var x := FirstMessage(w, st.role, id, st.newPriv, st.m, st.allowInit);
      FirstForm(w, st, x);
      var t := Take(InitReceiver(Text(w.keys[1], 0), w.keys[0], st.newPriv), x.num).value.0;
      FirstSession(w.keys, Text(w.keys[1], 0), st.newPriv, x.num);
      FirstLive(w, t, st.newPriv, x);
      var p := Get(w, st.role).(tip := [st.newPriv]);
      AfterReceiveKeeps(w, st.role, p.(live := Some(Stamp(t))), AfterReceive(p, t, w.keys[1], x));
    }
  }

  lemma RestartKeepsInv(w: World, role: Role)
    requires InvFrom(w, role)
    ensures InvFrom(Apply(w, Restart(role)), role)
  {
    var p := Get(w, role).(live := Get(w, role).saved, tip := []);
    assert Peer(Peer(role)) == role;
    SetOther(w, role, p);
    SavedBecomesLive(w, role, p);
  }

  lemma SavedBecomesLive(w: World, role: Role, p: Party)
    requires |w.keys| >= 1 && PartyInv(w, role) && p == Get(w, role).(live := Get(w, role).saved, tip := [])
    ensures PartyInv(Set(w, role, p), role)
  {
    assert w.keys + [] == w.keys;
  }

  // ---- Runs ----

  lemma StepKeepsInvFrom(w: World, st: Step)
    requires InvFrom(w, st.role) && Legal(w, st)
    ensures InvFrom(Apply(w, st), st.role)
  {
    match st
    case Send(_, _, _, _, f, _) => if f.NoFault? { SendKeepsInv(w, st); } else { BrokenSendKeepsInv(w, st); }
    case Receive(_, _, _, _, _) => if Get(w, st.role).live.Some? { ReceiveOnSession(w, st); } else { ReceiveFirst(w, st); }
    case Restart(role) => RestartKeepsInv(w, role);
  }

  lemma StepKeepsInv(w: World, st: Step)
    requires Inv(w) && Legal(w, st)
    ensures Inv(Apply(w, st))
  {
    EitherSide(w, st.role);
    StepKeepsInvFrom(w, st);
    EitherSide(Apply(w, st), st.role);
  }

  /** The world after a run of steps, each legal where it happens. */
  ghost predicate Reaches(w: World, steps: seq<Step>, w2: World)
    requires |w.keys| >= 1
    decreases |steps|
  {
    if steps == [] then w == w2
    else Legal(w, steps[0]) && |Apply(w, steps[0]).keys| >= 1 && Reaches(Apply(w, steps[0]), steps[1..], w2)
  }

  lemma {:induction false} RunKeepsInv(w: World, steps: seq<Step>, w2: World)
    requires Inv(w) && Reaches(w, steps, w2)
    ensures Inv(w2)
    decreases |steps|
  {
    if steps != [] {
      StepKeepsInv(w, steps[0]);
      RunKeepsInv(Apply(w, steps[0]), steps[1..], w2);
    }
  }
}
