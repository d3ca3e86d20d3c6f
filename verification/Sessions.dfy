/** Every ratchet operation keeps a session on the ideal key schedule. */
module Sessions {
  import opened Prelude
  import opened Crypto
  import opened Ratchet
  import opened Epochs

  // ---- Sending ----

  lemma InitSenderAt(k0: Text, k1: Priv)
    ensures SessionAt([k0.key, k1], Initiator, Some(InitSender(k0, k1)))
    ensures Epoch(Some(InitSender(k0, k1))) == 1
  {
    var keys := [k0.key, k1];
    assert RootAt(keys, 0) == ZeroRoot;
    assert RootAt(keys, 1) == RootKey(ZeroRoot, Agree(k1, k0.key));
    RootAtDepth(keys, 1);
    assert ChainAt(keys, 1, 0) == FromRoot(ZeroRoot, Agree(k1, k0.key));
  }

  lemma DhSendAt(keys: seq<Priv>, role: Role, s: Session, k: Priv)
    requires SessionAt(keys, role, Some(s)) && s.pending && Epoch(Some(s)) == |keys| - 1
    ensures SessionAt(keys + [k], role, Some(DhSend(s, k)))
    ensures Epoch(Some(DhSend(s, k))) == |keys|
  {
    var e := Epoch(Some(s));
    var all := keys + [k];
    SessionAtPrefix(keys, [k], role, Some(s));
    assert RootAt(all, e + 1) == RootKey(RootAt(all, e), Agree(k, all[e]));
    assert ChainAt(all, e + 1, 0) == FromRoot(RootAt(all, e), Agree(k, all[e]));
  }

  lemma TakeSendKeyAt(keys: seq<Priv>, role: Role, s: Session)
    requires SessionAt(keys, role, Some(s))
    ensures SessionAt(keys, role, Some(TakeSendKey(s)))
    ensures SessionAt(keys, role, Some(Stamp(TakeSendKey(s))))
  {
  }

  // ---- Receiving ----

  lemma InitReceiverAt(k0: Priv, k1: Text, k2: Priv)
    ensures SessionAt([k0, k1.key, k2], Responder, Some(InitReceiver(k1, k0, k2)))
    ensures Epoch(Some(InitReceiver(k1, k0, k2))) == 2
  {
    var keys := [k0, k1.key, k2];
    assert RootAt(keys, 0) == ZeroRoot;
    assert RootAt(keys, 1) == RootKey(ZeroRoot, Agree(k1.key, k0));
    assert RootAt(keys, 2) == RootKey(RootAt(keys, 1), Agree(k2, k1.key));
    RootAtDepth(keys, 2);
    assert ChainAt(keys, 1, 0) == FromRoot(ZeroRoot, Agree(k1.key, k0));
    assert ChainAt(keys, 2, 0) == FromRoot(RootAt(keys, 1), Agree(k2, k1.key));
  }

  /** Dropping the keys of older chains. */
  lemma OfChainAt(keys: seq<Priv>, r: nat, cur: Text, lim: nat, sk: seq<Entry>)
    requires r < |keys| && BufferOk(keys, r, cur, lim, sk)
    ensures var kept := OfChain(sk, cur);
      && BufferOk(keys, r, cur, lim, kept)
      && (forall i :: 0 <= i < |kept| ==> kept[i].pub == cur)
      && forall p: Text :: Grows(sk, kept, p, 0, 0)
  {
    var kept := OfChain(sk, cur);
    OfChainMembers(sk, cur);
    OfChainOrder(cur, sk, cur);
    forall i | 0 <= i < |kept| ensures EntryOk(keys, r, cur, lim, kept[i]) && kept[i].pub == cur {
      assert kept[i] in kept;
    }
    forall p: Text, n: nat | Buffered(kept, p, n) ensures Buffered(sk, p, n) {
      assert kept[IndexOf(kept, p, n)] in kept;
      var i :| 0 <= i < |sk| && sk[i] == kept[IndexOf(kept, p, n)];
      assert Labelled(sk[i], p, n);
      BufferedIff(sk, p, n);
    }
  }

  /** Skips add keys of the current chain only. */
  lemma SkippedPubs(keys: seq<Priv>, r: nat, s: Session, stop: int)
    requires KeysOk(keys) && 1 <= r < |keys| && RecvOk(keys, r, s)
    requires forall i :: 0 <= i < |s.skipped| ==> s.skipped[i].pub == s.their
    ensures var t := SkipTo(s, stop).skipped; forall i :: 0 <= i < |t| ==> t[i].pub == s.their
  {
    SkipFrame(s, stop);
    var t := SkipTo(s, stop).skipped;
    forall i | 0 <= i < |t| ensures t[i].pub == s.their {
      BufferedIff(t, t[i].pub, t[i].num);
      assert Labelled(t[i], t[i].pub, t[i].num);
      assert Buffered(t, t[i].pub, t[i].num);
    }
  }

  /** What retiring a chain changes, for any session. */
  lemma RetireFrame(s: Session, pn: int)
    ensures var t := Retire(s, pn); var stop := Min(pn, s.recvMsgNum + MAX_SKIP);
      && t == s.(skipped := t.skipped, recvChain := t.recvChain, recvMsgNum := t.recvMsgNum)
      && t.recvMsgNum == if s.recvChain.Some? && s.recvMsgNum < stop then stop else s.recvMsgNum
  {
    var s1 := s.(skipped := OfChain(s.skipped, s.their));
    if s1.recvChain.Some? { SkipFrame(s1, Min(pn, s1.recvMsgNum + MAX_SKIP)); }
  }

  /** Retiring a chain keeps only its own keys, still in order, and at most the cap. */
  lemma RetireAt(keys: seq<Priv>, r: nat, s: Session, pn: int)
    requires KeysOk(keys) && r < |keys| && RecvOk(keys, r, s)
    ensures var t := Retire(s, pn);
      && t == s.(skipped := t.skipped, recvChain := t.recvChain, recvMsgNum := t.recvMsgNum)
      && s.recvMsgNum <= t.recvMsgNum
      && BufferOk(keys, r, s.their, t.recvMsgNum, t.skipped)
      && |t.skipped| <= MAX_SKIPPED_KEYS
      && (forall i :: 0 <= i < |t.skipped| ==> t.skipped[i].pub == s.their)
      && Grows(s.skipped, t.skipped, s.their, s.recvMsgNum, t.recvMsgNum)
  {
    var s1 := s.(skipped := OfChain(s.skipped, s.their));
    OfChainAt(keys, r, s.their, s.recvMsgNum, s.skipped);
    var s2 := if s1.recvChain.Some? then SkipTo(s1, Min(pn, s1.recvMsgNum + MAX_SKIP)) else s1;
    if s1.recvChain.Some? {
      var stop := Min(pn, s1.recvMsgNum + MAX_SKIP);
      SkipFrame(s1, stop);
      SkipKeeps(keys, r, s1, stop);
      SkippedPubs(keys, r, s1, stop);
    }
    CapKeeps(keys, r, s.their, s2.recvMsgNum, s2.skipped);
    GrowsTwice(s.skipped, s1.skipped, s2.skipped, s.their, s.recvMsgNum, s2.recvMsgNum);
    GrowsTwice(s.skipped, s2.skipped, Cap(s2.skipped), s.their, s.recvMsgNum, s2.recvMsgNum);
  }

  lemma GrowsTwice(a: seq<Entry>, b: seq<Entry>, c: seq<Entry>, pub: Text, lo: int, hi: int)
    requires Grows(a, b, pub, 0, 0) || Grows(a, b, pub, lo, hi)
    requires Grows(b, c, pub, 0, 0) || Grows(b, c, pub, lo, hi)
    ensures Grows(a, c, pub, lo, hi)
  {
  }

  /** Keys of the retired chain are keys of the chain just before the next one. */
  lemma RetiredBufferAt(keys: seq<Priv>, r: nat, cur: Text, lim: nat, sk: seq<Entry>, next: Text)
    requires KeysOk(keys) && r + 2 < |keys| && BufferOk(keys, r, cur, lim, sk) && next.key == keys[r + 2]
    requires forall i :: 0 <= i < |sk| ==> sk[i].pub == cur
    ensures BufferOk(keys, r + 2, next, 0, sk)
  {
    forall i | 0 <= i < |sk| ensures EntryOk(keys, r + 2, next, 0, sk[i]) {
      assert EntryOk(keys, r, cur, lim, sk[i]);
    }
    forall i, j | 0 <= i < j < |sk| ensures Before(next, sk[i], sk[j]) {
      assert Before(cur, sk[i], sk[j]);
    }
  }

  /** Following the peer to its next ratchet key, however written. */
  lemma DhReceiveAt(keys: seq<Priv>, role: Role, s: Session, pub: Text, pn: int)
    requires KeysOk(keys) && SessionAt(keys, role, Some(s))
    requires Sends(role, Epoch(Some(s))) && Epoch(Some(s)) + 1 < |keys| && pub.key == keys[Epoch(Some(s)) + 1]
    ensures var e := Epoch(Some(s)); var t := DhReceive(s, pub, pn);
      && SessionAt(keys, role, Some(t)) && Epoch(Some(t)) == e + 1
      && t.recvChain == Some(ChainAt(keys, e + 1, 0))
      && t.sendMsgNum == s.sendMsgNum
      && exists hi :: Grows(s.skipped, t.skipped, s.their, s.recvMsgNum, hi)
  {
    var e := Epoch(Some(s));
    var r: nat := e - 1;
    RetireAt(keys, r, s, pn);
    var u := Retire(s, pn);
    RetiredBufferAt(keys, r, s.their, u.recvMsgNum, u.skipped, pub);
    assert RootAt(keys, e + 1) == RootKey(RootAt(keys, e), Agree(keys[e + 1], keys[e]));
    assert ChainAt(keys, e + 1, 0) == FromRoot(RootAt(keys, e), Agree(keys[e + 1], keys[e]));
  }

  /** The next key of the receiving chain is taken and the buffer capped. */
  function Taken(u: Session): Session
    requires u.recvChain.Some?
  {
    u.(recvChain := Some(Next(u.recvChain.value)), recvMsgNum := u.recvMsgNum + 1, skipped := Cap(u.skipped))
  }

  lemma TakeNextAt(keys: seq<Priv>, r: nat, u: Session)
    requires KeysOk(keys) && 1 <= r < |keys| && RecvOk(keys, r, u)
    ensures MsgKey(u.recvChain.value) == KeyAt(keys, r, u.recvMsgNum)
    ensures RecvOk(keys, r, Taken(u)) && |Taken(u).skipped| <= MAX_SKIPPED_KEYS
    ensures Grows(u.skipped, Taken(u).skipped, u.their, 0, 0)
  {
    BufferOkLater(keys, r, u.their, u.recvMsgNum, u.recvMsgNum + 1, u.skipped);
    CapKeeps(keys, r, u.their, u.recvMsgNum + 1, u.skipped);
  }

  /** Taking message num from the current receiving chain. */
  lemma TakeAt(keys: seq<Priv>, role: Role, s: Session, num: nat)
    requires KeysOk(keys) && SessionAt(keys, role, Some(s))
    requires Take(s, num).Ok?
    ensures var r := RecvEpoch(role, Epoch(Some(s))); var (t, k) := Take(s, num).value;
      && r >= 1 && k == KeyAt(keys, r, num)
      && SessionAt(keys, role, Some(t)) && Epoch(Some(t)) == Epoch(Some(s))
      && t == s.(skipped := t.skipped, recvChain := t.recvChain, recvMsgNum := num + 1)
      && s.recvMsgNum <= num
      && Grows(s.skipped, t.skipped, s.their, s.recvMsgNum, num)
  {
    var r: nat := RecvEpoch(role, Epoch(Some(s)));
    SkipKeeps(keys, r, s, num);
    SkipFrame(s, num);
    var u := SkipTo(s, num);
    assert u.recvMsgNum == num && u.their == s.their;
    TakeNextAt(keys, r, u);
    var t := Taken(u);
    assert Take(s, num) == Ok((t, MsgKey(u.recvChain.value)));
    assert t == s.(skipped := t.skipped, recvChain := t.recvChain, recvMsgNum := num + 1);
    GrowsTwice(s.skipped, u.skipped, t.skipped, s.their, s.recvMsgNum, num);
  }

  lemma BufferOkLater(keys: seq<Priv>, r: nat, cur: Text, lim: nat, lim2: nat, sk: seq<Entry>)
    requires r < |keys| && BufferOk(keys, r, cur, lim, sk) && lim <= lim2
    ensures BufferOk(keys, r, cur, lim2, sk)
  {
    forall i | 0 <= i < |sk| ensures EntryOk(keys, r, cur, lim2, sk[i]) {
      assert EntryOk(keys, r, cur, lim, sk[i]);
    }
  }

  /** Taking a buffered key. */
  lemma BufferedAt(keys: seq<Priv>, role: Role, s: Session, pub: Text, num: nat)
    requires KeysOk(keys) && SessionAt(keys, role, Some(s)) && Buffered(s.skipped, pub, num)
    ensures var r := RecvEpoch(role, Epoch(Some(s))); var i := IndexOf(s.skipped, pub, num);
      var t := s.(skipped := Remove(s.skipped, i));
      && r >= 1
      && (if pub.key == keys[r] then pub == s.their && num < s.recvMsgNum && s.skipped[i].key == KeyAt(keys, r, num)
          else r >= 3 && pub.key == keys[r - 2] && s.skipped[i].key == KeyAt(keys, r - 2, num))
      && SessionAt(keys, role, Some(t)) && Epoch(Some(t)) == Epoch(Some(s))
      && (forall p: Text :: Grows(s.skipped, t.skipped, p, 0, 0))
      && !Holds(t.skipped, pub.key, num)
  {
    var r: nat := RecvEpoch(role, Epoch(Some(s)));
    var i := IndexOf(s.skipped, pub, num);
    assert EntryOk(keys, r, s.their, s.recvMsgNum, s.skipped[i]);
    RemoveKeeps(keys, r, s.their, s.recvMsgNum, s.skipped, i);
  }
}
