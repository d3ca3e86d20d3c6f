/**
 Which message key a header selects.  For any header, honest or forged, the selected key
 is secret, and it equals the key of message n of epoch i only when the header says so.
 */
module Selection {
  import opened Prelude
  import opened Crypto
  import opened Ratchet
  import opened Epochs
  import opened Sessions

  /** How receiving moves a session from chain r to chain r2: buffered labels are old
      labels, numbers of r not yet reached, or numbers of the new chain. */
  ghost predicate Progress(keys: seq<Priv>, r: int, s: Session, r2: int, t: Session)
    requires 0 <= r < |keys| && 0 <= r2 < |keys|
  {
    && r <= r2 && (r == r2 ==> s.recvMsgNum <= t.recvMsgNum)
    && forall p: Text, n: nat :: Buffered(t.skipped, p, n) ==>
         || Buffered(s.skipped, p, n)
         || (p.key == keys[r] && s.recvMsgNum <= n)
         || (r < r2 && p.key == keys[r2])
  }

  /** Message (i, n) was open in s and is used up in t. */
  ghost predicate Consumes(keys: seq<Priv>, r: int, s: Session, r2: int, t: Session, i: nat, n: nat)
    requires 0 <= r < |keys| && 0 <= r2 < |keys| && i < |keys|
  {
    && (Holds(s.skipped, keys[i], n) || (i == r && s.recvMsgNum <= n) || i > r)
    && i <= r2 && (i == r2 ==> n < t.recvMsgNum) && !Holds(t.skipped, keys[i], n)
  }

  /** The header names this ratchet key, however written, and this number. */
  predicate Headed(keys: seq<Priv>, m: Msg, i: nat, n: nat)
    requires i < |keys|
  {
    m.pub.PubOf? && m.pub.text.key == keys[i] && m.msgNum == Int(n)
  }

  predicate FromBuffer(s: Session, m: Msg) {
    m.pub.PubOf? && Counter(m.msgNum) && Buffered(s.skipped, m.pub.text, m.msgNum.n)
  }

  predicate FromNewChain(s: Session, m: Msg) {
    !FromBuffer(s, m) && m.pub != PubOf(s.their)
  }

  /** A header naming an unknown ratchet key leads to a chain one root deeper. */
  lemma NewChainKey(keys: seq<Priv>, role: Role, s: Session, id: Priv, newPriv: Priv, m: Msg, allowInit: bool)
    requires KeysOk(keys) && SessionAt(keys, role, Some(s))
    requires Select(Some(s), id, newPriv, m, allowInit).Ok? && FromNewChain(s, m)
    ensures m.pub.PubOf?
    ensures var k := Select(Some(s), id, newPriv, m, allowInit).value.1;
      && Origin(k.chain) == FromRoot(s.rootKey, Agree(s.myPriv, m.pub.text.key))
      && Steps(k.chain) == m.msgNum.n
  {
    RetireFrame(s, m.pn.n);
    var u := DhReceive(s, m.pub.text, m.pn.n);
    SkipFrame(u, m.msgNum.n);
    AdvanceShape(u.recvChain.value, m.msgNum.n);
  }

  /** No selected key is one the attacker can compute. */
  lemma SelectedKeySecret(keys: seq<Priv>, role: Role, s: Session, id: Priv, newPriv: Priv, m: Msg, allowInit: bool)
    requires KeysOk(keys) && SessionAt(keys, role, Some(s))
    requires Select(Some(s), id, newPriv, m, allowInit).Ok?
    ensures !KnownKey(Select(Some(s), id, newPriv, m, allowInit).value.1)
  {
    var e := Epoch(Some(s));
    var r := RecvEpoch(role, e);
    var k := Select(Some(s), id, newPriv, m, allowInit).value.1;
    if FromBuffer(s, m) {
      BufferedAt(keys, role, s, m.pub.text, m.msgNum.n);
      KeySecret(keys, if m.pub.text.key == keys[r] then r else r - 2, m.msgNum.n);
    } else if FromNewChain(s, m) {
      NewChainKey(keys, role, s, id, newPriv, m, allowInit);
      RootSecret(keys, e);
      KnownByOrigin(k.chain);
    } else {
      TakeAt(keys, role, s, m.msgNum.n);
      KeySecret(keys, r, m.msgNum.n);
    }
  }

  lemma AgreeInjective(a: Priv, b: Priv, c: Priv)
    requires Agree(a, b) == Agree(c, a)
    ensures b == c
  {
  }

  /** An unknown ratchet key selects an honest message key only when it is the peer's
      next one. */
  lemma NewChainIsNext(keys: seq<Priv>, role: Role, s: Session, id: Priv, newPriv: Priv, m: Msg,
                       allowInit: bool, i: nat, n: nat)
    requires KeysOk(keys) && SessionAt(keys, role, Some(s))
    requires Select(Some(s), id, newPriv, m, allowInit).Ok? && FromNewChain(s, m)
    requires 1 <= i < |keys| && Select(Some(s), id, newPriv, m, allowInit).value.1 == KeyAt(keys, i, n)
    ensures Headed(keys, m, i, n) && i == Epoch(Some(s)) + 1 && Sends(role, Epoch(Some(s)))
  {
    var e := Epoch(Some(s));
    NewChainKey(keys, role, s, id, newPriv, m, allowInit);
    KeyShape(keys, i, n);
    RootAtDepth(keys, e);
    RootAtDepth(keys, i - 1);
    var d: nat := SendEpoch(role, e);
    if d == e { AgreeInjective(s.myPriv, m.pub.text.key, keys[i]); }
  }

  /** Selecting the key of message (i, n) moves a session from s to t on the schedule, to
      epoch e2, and uses (i, n) up. */
  ghost predicate Lands(keys: seq<Priv>, role: Role, s: Session, e2: nat, t: Session, i: nat, n: nat)
    requires SessionAt(keys, role, Some(s)) && i < |keys|
  {
    && SessionAt(keys, role, Some(t))
    && t.sendMsgNum == s.sendMsgNum && t.myPriv == s.myPriv
    && SendEpoch(role, e2) == SendEpoch(role, Epoch(Some(s)))
    && Epoch(Some(t)) == e2
    && Progress(keys, RecvEpoch(role, Epoch(Some(s))), s, RecvEpoch(role, e2), t)
    && Consumes(keys, RecvEpoch(role, Epoch(Some(s))), s, RecvEpoch(role, e2), t, i, n)
  }

  lemma BufferedLands(keys: seq<Priv>, role: Role, s: Session, pub: Text, num: nat, i: nat, n: nat)
    requires KeysOk(keys) && SessionAt(keys, role, Some(s)) && Buffered(s.skipped, pub, num)
    requires 1 <= i < |keys| && s.skipped[IndexOf(s.skipped, pub, num)].key == KeyAt(keys, i, n)
    ensures pub.key == keys[i] && num == n && !Sends(role, i)
    ensures Lands(keys, role, s, Epoch(Some(s)),
                  s.(skipped := Remove(s.skipped, IndexOf(s.skipped, pub, num))), i, n)
  {
    BufferedAt(keys, role, s, pub, num);
    BufferedHolds(s.skipped, pub, num);
    var r := RecvEpoch(role, Epoch(Some(s)));
    KeyInjective(keys, if pub.key == keys[r] then r else r - 2, num, i, n);
    var t := s.(skipped := Remove(s.skipped, IndexOf(s.skipped, pub, num)));
    assert Grows(s.skipped, t.skipped, pub, 0, 0);
  }

  /** Numbers of the current chain not reached yet are not buffered. */
  lemma AheadIsNotHeld(keys: seq<Priv>, r: nat, s: Session, n: nat)
    requires KeysOk(keys) && r < |keys| && RecvOk(keys, r, s) && s.recvMsgNum <= n
    ensures !Holds(s.skipped, keys[r], n)
  {
    forall form: nat ensures !Buffered(s.skipped, Text(keys[r], form), n) {
      BufferedIff(s.skipped, Text(keys[r], form), n);
      forall i | 0 <= i < |s.skipped| ensures !Labelled(s.skipped[i], Text(keys[r], form), n) {
        assert EntryOk(keys, r, s.their, s.recvMsgNum, s.skipped[i]);
      }
    }
  }

  /** Labels outside the numbers added stay absent. */
  lemma NotGrown(a: seq<Entry>, b: seq<Entry>, pub: Text, lo: int, hi: int, p: Priv, n: nat)
    requires Grows(a, b, pub, lo, hi) && n >= hi && !Holds(a, p, n)
    ensures !Holds(b, p, n)
  {
  }

  lemma CurrentLands(keys: seq<Priv>, role: Role, s: Session, num: nat, i: nat, n: nat)
    requires KeysOk(keys) && SessionAt(keys, role, Some(s)) && Take(s, num).Ok?
    requires 1 <= i < |keys| && Take(s, num).value.1 == KeyAt(keys, i, n)
    ensures s.their.key == keys[i] && num == n && !Sends(role, i)
    ensures Lands(keys, role, s, Epoch(Some(s)), Take(s, num).value.0, i, n)
  {
    TakeAt(keys, role, s, num);
    KeyInjective(keys, RecvEpoch(role, Epoch(Some(s))), num, i, n);
    TakeConsumes(keys, i, s, Take(s, num).value.0, num);
  }

  /** Taking number num of chain r uses it up, and moves nothing else. */
  lemma TakeConsumes(keys: seq<Priv>, r: nat, s: Session, t: Session, num: nat)
    requires KeysOk(keys) && r < |keys| && RecvOk(keys, r, s) && s.recvMsgNum <= num && t.recvMsgNum == num + 1
    requires Grows(s.skipped, t.skipped, s.their, s.recvMsgNum, num)
    ensures Progress(keys, r, s, r, t) && Consumes(keys, r, s, r, t, r, num)
  {
    AheadIsNotHeld(keys, r, s, num);
    NotGrown(s.skipped, t.skipped, s.their, s.recvMsgNum, num, keys[r], num);
  }

  /** The main fact about receiving: a header that selects the key of message (i, n) is
      that message's header, the session stays on schedule, and (i, n) is used up. */
  lemma SelectedIsNamed(keys: seq<Priv>, role: Role, s: Session, id: Priv, newPriv: Priv, m: Msg,
                        allowInit: bool, i: nat, n: nat)
    requires KeysOk(keys) && SessionAt(keys, role, Some(s))
    requires Select(Some(s), id, newPriv, m, allowInit).Ok?
    requires 1 <= i < |keys| && Select(Some(s), id, newPriv, m, allowInit).value.1 == KeyAt(keys, i, n)
    ensures Headed(keys, m, i, n) && !Sends(role, i)
    ensures FromNewChain(s, m) ==> i == Epoch(Some(s)) + 1 && Sends(role, Epoch(Some(s)))
    ensures Lands(keys, role, s, if FromNewChain(s, m) then Epoch(Some(s)) + 1 else Epoch(Some(s)),
                  Select(Some(s), id, newPriv, m, allowInit).value.0, i, n)
  {
    if FromBuffer(s, m) {
      BufferedLands(keys, role, s, m.pub.text, m.msgNum.n, i, n);
    } else if FromNewChain(s, m) {
      NewChainIsNext(keys, role, s, id, newPriv, m, allowInit, i, n);
      NewChainTaken(keys, role, s, m.pub.text, m.pn.n, n);
    } else {
      CurrentLands(keys, role, s, m.msgNum.n, i, n);
    }
  }

  /** First some labels of one chain are added, then some of another. */
  lemma GrowsOnNext(a: seq<Entry>, b: seq<Entry>, c: seq<Entry>, p1: Text, lo: int, hi: int, p2: Text, n: int)
    requires Grows(a, b, p1, lo, hi) && Grows(b, c, p2, 0, n)
    ensures forall p: Text, k: nat :: Buffered(c, p, k) ==> Buffered(a, p, k) || (p == p1 && lo <= k) || (p == p2 && k < n)
    ensures forall p: Text, k: nat :: k >= n && !Buffered(b, p, k) ==> !Buffered(c, p, k)
  {
  }

  lemma NewChainTaken(keys: seq<Priv>, role: Role, s: Session, pub: Text, pn: int, n: nat)
    requires KeysOk(keys) && SessionAt(keys, role, Some(s))
    requires Sends(role, Epoch(Some(s))) && Epoch(Some(s)) + 1 < |keys| && pub.key == keys[Epoch(Some(s)) + 1]
    requires Take(DhReceive(s, pub, pn), n).Ok?
    ensures var e := Epoch(Some(s)); var t := Take(DhReceive(s, pub, pn), n).value.0;
      Lands(keys, role, s, e + 1, t, e + 1, n)
  {
    var e := Epoch(Some(s));
    DhReceiveAt(keys, role, s, pub, pn);
    var u := DhReceive(s, pub, pn);
    TakeAt(keys, role, u, n);
    var t := Take(u, n).value.0;
    assert u.their == pub;
    assert t.myPriv == s.myPriv;
    var hi :| Grows(s.skipped, u.skipped, s.their, s.recvMsgNum, hi);
    GrowsOnNext(s.skipped, u.skipped, t.skipped, s.their, s.recvMsgNum, hi, u.their, n);
    AheadIsNotHeld(keys, e + 1, u, n);
  }
}
