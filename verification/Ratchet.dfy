/**
 One peer's Double Ratchet session as a value, and what sending and receiving do to it
 (web/e2e.js:607-864).  Engine.dfy runs the same steps on a mutable session object and
 is proved against these functions.
 */
module Ratchet {
  import opened Prelude
  import opened Crypto

  const MAX_SKIP: nat := 20
  const MAX_SKIPPED_KEYS: nat := 100
  const MAX_SAFE_INTEGER: int := 9007199254740991

  /** One entry of the skipped-key object: label "pub:num" and the buffered key. */
  datatype Entry = Entry(pub: Text, num: nat, key: MsgKey)

  datatype Session = Session(
    rootKey: RootKey,
    myPriv: Priv,
    their: Text,
    pending: bool,
    sendChain: ChainKey,
    sendMsgNum: nat,
    sendPrevLen: nat,
    recvChain: Option<ChainKey>,
    recvMsgNum: nat,
    skipped: seq<Entry>,      // insertion order, as JavaScript object keys
    ver: nat)

  /** A ratchet_pub header: absent, text that is no 32-byte key, or the text of a public key. */
  datatype Pub = Missing | Malformed(junk: string) | PubOf(text: Text)

  /** A header number after Number(): an integer or something else (NaN, a fraction). */
  datatype Num = Int(n: int) | NotInt

  datatype Msg = Msg(cipher: Cipher, nonce: nat, msgNum: Num, pub: Pub, pn: Num)

  datatype Reject =
    | NoPub | BadNumber | NoSession | BadKey | Consumed | SkipOverflow | NoRecvChain
    | TagFailure

  predicate Counter(x: Num) { x.Int? && 0 <= x.n <= MAX_SAFE_INTEGER }

  // ---- The skip buffer: an object whose keys keep insertion order ----

  predicate Labelled(x: Entry, pub: Text, num: nat) { x.pub == pub && x.num == num }

  /** Position of a label, or the length when it is absent. */
  function IndexOf(sk: seq<Entry>, pub: Text, num: nat): (i: nat)
    ensures i <= |sk|
    ensures i < |sk| ==> Labelled(sk[i], pub, num)
    ensures forall j :: 0 <= j < i ==> !Labelled(sk[j], pub, num)
  {
    if sk == [] then 0
    else if Labelled(sk[0], pub, num) then 0
    else 1 + IndexOf(sk[1..], pub, num)
  }

  predicate Buffered(sk: seq<Entry>, pub: Text, num: nat) { IndexOf(sk, pub, num) < |sk| }

  /** Assigning to a present label keeps its place; a new label goes last. */
  function Put(sk: seq<Entry>, x: Entry): seq<Entry> {
    var i := IndexOf(sk, x.pub, x.num);
    if i < |sk| then sk[i := x] else sk + [x]
  }

  function Remove(sk: seq<Entry>, i: nat): seq<Entry>
    requires i < |sk|
  {
    sk[..i] + sk[i + 1..]
  }

  function OfChain(sk: seq<Entry>, pub: Text): seq<Entry> {
    if sk == [] then []
    else if sk[0].pub == pub then [sk[0]] + OfChain(sk[1..], pub)
    else OfChain(sk[1..], pub)
  }

  function Cap(sk: seq<Entry>): seq<Entry> {
    if |sk| > MAX_SKIPPED_KEYS then sk[|sk| - MAX_SKIPPED_KEYS..] else sk
  }

  // ---- Ratchet steps ----

  /** Derive one key of the receiving chain and buffer it. */
  function SkipOne(s: Session): Session
    requires s.recvChain.Some?
  {
    s.(skipped := Put(s.skipped, Entry(s.their, s.recvMsgNum, MsgKey(s.recvChain.value))),
       recvChain := Some(Next(s.recvChain.value)),
       recvMsgNum := s.recvMsgNum + 1)
  }

  function SkipTo(s: Session, stop: int): (t: Session)
    requires s.recvChain.Some?
    ensures t.recvChain.Some?
    decreases stop - s.recvMsgNum
  {
    if s.recvMsgNum < stop then SkipTo(SkipOne(s), stop) else s
  }

  /** What a message of a new chain does to the retiring one: older keys go, at most
      MAX_SKIP missing keys are derived, and the total is capped. */
  function Retire(s: Session, pn: int): Session {
    var s1 := s.(skipped := OfChain(s.skipped, s.their));
    var s2 := if s1.recvChain.Some? then SkipTo(s1, Min(pn, s1.recvMsgNum + MAX_SKIP)) else s1;
    s2.(skipped := Cap(s2.skipped))
  }

  function DhReceive(s: Session, pub: Text, pn: int): Session {
    var t := Retire(s, pn);
    var dh := Agree(t.myPriv, pub.key);
    t.(rootKey := RootKey(t.rootKey, dh), recvChain := Some(FromRoot(t.rootKey, dh)),
       recvMsgNum := 0, their := pub, pending := true)
  }

  function DhSend(s: Session, newPriv: Priv): Session {
    var dh := Agree(newPriv, s.their.key);
    s.(sendPrevLen := s.sendMsgNum, sendChain := FromRoot(s.rootKey, dh), sendMsgNum := 0,
       rootKey := RootKey(s.rootKey, dh), myPriv := newPriv, pending := false)
  }

  function InitSender(peer: Text, newPriv: Priv): Session {
    var dh := Agree(newPriv, peer.key);
    Session(RootKey(ZeroRoot, dh), newPriv, peer, false, FromRoot(ZeroRoot, dh), 0, 0, None, 0, [], 0)
  }

  function InitReceiver(sender: Text, id: Priv, newPriv: Priv): Session {
    var dh := Agree(id, sender.key);
    var root := RootKey(ZeroRoot, dh);
    var dh2 := Agree(newPriv, sender.key);
    Session(RootKey(root, dh2), newPriv, sender, false, FromRoot(root, dh2), 0, 0,
            Some(FromRoot(ZeroRoot, dh)), 0, [], 0)
  }

  /** saveRatchetState counts saves inside the state. */
  function Stamp(s: Session): Session { s.(ver := s.ver + 1) }

  // ---- Receiving ----

  /** The session a header leads to before its message key is taken from the chain. */
  function Enter(s: Option<Session>, id: Priv, newPriv: Priv, pub: Pub, pn: int, allowInit: bool)
    : Result<Session, Reject>
  {
    if s.None? then
      if !allowInit then Err(NoSession)
      else if !pub.PubOf? then Err(BadKey)
      else Ok(InitReceiver(pub.text, id, newPriv))
    else if pub == PubOf(s.value.their) then Ok(s.value)
    else if !pub.PubOf? then Err(BadKey)
    else Ok(DhReceive(s.value, pub.text, pn))
  }

  /** Take message key num from the receiving chain, buffering the ones before it. */
  function Take(s: Session, num: nat): Result<(Session, MsgKey), Reject> {
    if num < s.recvMsgNum then Err(Consumed)
    else if num - s.recvMsgNum > MAX_SKIP then Err(SkipOverflow)
    else if s.recvChain.None? then Err(NoRecvChain)
    else
      var t := SkipTo(s, num);
      var ck := t.recvChain.value;
      Ok((t.(recvChain := Some(Next(ck)), recvMsgNum := t.recvMsgNum + 1, skipped := Cap(t.skipped)),
          MsgKey(ck)))
  }

  /** Refused before the session is loaded. */
  function BadHeader(m: Msg): Option<Reject> {
    if m.pub.Missing? then Some(NoPub)
    else if !Counter(m.msgNum) || !Counter(m.pn) then Some(BadNumber)
    else None
  }

  /** Everything ratchetDecrypt does before the tag check. */
  function Select(s: Option<Session>, id: Priv, newPriv: Priv, m: Msg, allowInit: bool)
    : Result<(Session, MsgKey), Reject>
  {
    if BadHeader(m).Some? then Err(BadHeader(m).value)
    else if s.Some? && m.pub.PubOf? && Buffered(s.value.skipped, m.pub.text, m.msgNum.n) then
      var i := IndexOf(s.value.skipped, m.pub.text, m.msgNum.n);
      Ok((s.value.(skipped := Remove(s.value.skipped, i)), s.value.skipped[i].key))
    else
      var e := Enter(s, id, newPriv, m.pub, m.pn.n, allowInit);
      if e.Err? then Err(e.error) else Take(e.value, m.msgNum.n)
  }

  function Decrypt(s: Option<Session>, id: Priv, newPriv: Priv, m: Msg, allowInit: bool)
    : Result<(Session, string), Reject>
  {
    var sel := Select(s, id, newPriv, m, allowInit);
    if sel.Err? then Err(sel.error)
    else
      var p := Unseal(sel.value.1, m.nonce, m.cipher);
      if p.None? then Err(TagFailure) else Ok((Stamp(sel.value.0), p.value))
  }

  // ---- Sending ----

  /** Where an operation may break off.  AtStore is a failure of saveRatchetState after
      the cache was set and before local storage was written. */
  datatype Fault = NoFault | AtRatchet | AtAdvance | AtSeal | AtStore

  datatype SendError = NoPeerKey | Broken

  /** The session the message will be numbered in. */
  function ReadyToSend(s: Option<Session>, peer: Text, newPriv: Priv): Session {
    if s.None? then InitSender(peer, newPriv)
    else if s.value.pending then DhSend(s.value, newPriv)
    else s.value
  }

  function TakeSendKey(s: Session): Session {
    s.(sendChain := Next(s.sendChain), sendMsgNum := s.sendMsgNum + 1)
  }

  function Outgoing(s: Session, nonce: nat, plain: string): Msg {
    Msg(Sealed(MsgKey(s.sendChain), nonce, plain), nonce, Int(s.sendMsgNum), PubOf(Text(s.myPriv, 0)), Int(s.sendPrevLen))
  }

  function Encrypt(s: Option<Session>, peer: Option<Text>, newPriv: Priv, nonce: nat, plain: string)
    : Result<(Session, Msg), SendError>
  {
    if s.None? && peer.None? then Err(NoPeerKey)
    else
      var r := ReadyToSend(s, if peer.Some? then peer.value else Text(0, 0), newPriv);
      Ok((Stamp(TakeSendKey(r)), Outgoing(r, nonce, plain)))
  }

  /** The session later operations see after a send broke off at f.  ratchetEncrypt
      works on the live cached object, so its changes stay; a session it was about to
      create is not cached until the save. */
  function AfterBrokenSend(s: Option<Session>, peer: Option<Text>, newPriv: Priv, f: Fault): Option<Session>
    requires f != NoFault
  {
    if s.None? then
      if f.AtStore? && peer.Some? then Some(Stamp(TakeSendKey(InitSender(peer.value, newPriv)))) else None
    else
      var r := ReadyToSend(s, Text(0, 0), newPriv);
      match f
      case AtRatchet => s
      case AtAdvance => Some(r)
      case AtSeal => Some(TakeSendKey(r))
      case AtStore => Some(Stamp(TakeSendKey(r)))
  }
}
