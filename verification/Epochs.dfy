/**
 What a session must look like when both sides follow the protocol.  keys[0] is the
 responder's identity key and keys[e] the ratchet key whose creation opened epoch e;
 the initiator sends in odd epochs, the responder in even ones.
 */
module Epochs {
  import opened Prelude
  import opened Crypto
  import opened Ratchet

  datatype Role = Initiator | Responder

  function Peer(r: Role): Role { if r.Initiator? then Responder else Initiator }

  predicate Sends(r: Role, e: nat) { (e % 2 == 1) == r.Initiator? }

  // ---- The ideal key schedule ----

  function RootAt(keys: seq<Priv>, e: nat): RootKey
    requires e < |keys|
  {
    if e == 0 then ZeroRoot else RootKey(RootAt(keys, e - 1), Agree(keys[e], keys[e - 1]))
  }

  function ChainAt(keys: seq<Priv>, e: nat, n: nat): ChainKey
    requires 1 <= e < |keys|
  {
    Advance(FromRoot(RootAt(keys, e - 1), Agree(keys[e], keys[e - 1])), n)
  }

  /** The one key for message n of epoch e. */
  function KeyAt(keys: seq<Priv>, e: nat, n: nat): MsgKey
    requires 1 <= e < |keys|
  {
    MsgKey(ChainAt(keys, e, n))
  }

  predicate KeysOk(keys: seq<Priv>) {
    && |keys| >= 1
    && (forall i :: 0 <= i < |keys| ==> Honest(keys[i]))
    && forall i, j :: 0 <= i < j < |keys| ==> keys[i] != keys[j]
  }

  lemma {:induction false} RootAtPrefix(keys: seq<Priv>, more: seq<Priv>, e: nat)
    requires e < |keys|
    ensures RootAt(keys + more, e) == RootAt(keys, e)
  {
    if e > 0 { RootAtPrefix(keys, more, e - 1); }
  }

  lemma ChainAtPrefix(keys: seq<Priv>, more: seq<Priv>, e: nat, n: nat)
    requires 1 <= e < |keys|
    ensures ChainAt(keys + more, e, n) == ChainAt(keys, e, n)
  {
    RootAtPrefix(keys, more, e - 1);
  }

  lemma {:induction false} RootAtDepth(keys: seq<Priv>, e: nat)
    requires e < |keys|
    ensures RootDepth(RootAt(keys, e)) == e
  {
    if e > 0 { RootAtDepth(keys, e - 1); }
  }

  lemma {:induction false} RootSecret(keys: seq<Priv>, e: nat)
    requires KeysOk(keys) && 1 <= e < |keys|
    ensures !KnownRoot(RootAt(keys, e))
  {
    if e > 1 { RootSecret(keys, e - 1); }
  }

  /** Which chain and which step a message key comes from can be read off the key. */
  lemma KeyShape(keys: seq<Priv>, e: nat, n: nat)
    requires 1 <= e < |keys|
    ensures Origin(KeyAt(keys, e, n).chain) == FromRoot(RootAt(keys, e - 1), Agree(keys[e], keys[e - 1]))
    ensures Steps(KeyAt(keys, e, n).chain) == n
  {
    AdvanceShape(FromRoot(RootAt(keys, e - 1), Agree(keys[e], keys[e - 1])), n);
  }

  /** Distinct (epoch, number) pairs have distinct message keys. */
  lemma KeyInjective(keys: seq<Priv>, e: nat, n: nat, f: nat, k: nat)
    requires 1 <= e < |keys| && 1 <= f < |keys|
    requires KeyAt(keys, e, n) == KeyAt(keys, f, k)
    ensures e == f && n == k
  {
    KeyShape(keys, e, n);
    KeyShape(keys, f, k);
    RootAtDepth(keys, e - 1);
    RootAtDepth(keys, f - 1);
  }

  /** The attacker cannot compute any message key of the schedule. */
  lemma KeySecret(keys: seq<Priv>, e: nat, n: nat)
    requires KeysOk(keys) && 1 <= e < |keys|
    ensures !KnownKey(KeyAt(keys, e, n))
  {
    KeyShape(keys, e, n);
    KnownByOrigin(KeyAt(keys, e, n).chain);
  }

  // ---- The session invariant ----

  function RecvEpoch(r: Role, e: nat): int { if Sends(r, e) then e - 1 else e }
  function SendEpoch(r: Role, e: nat): int { if Sends(r, e) then e else e - 1 }

  function Epoch(s: Option<Session>): nat {
    if s.None? then 0 else RootDepth(s.value.rootKey)
  }

  /** A buffered key is a key of the current receiving chain below the next expected number, under the
      text cur that the chain was entered by, or of the receiving chain just before it. */
  predicate EntryOk(keys: seq<Priv>, r: nat, cur: Text, lim: nat, x: Entry)
    requires r < |keys|
  {
    || (r >= 1 && x.pub == cur && x.num < lim && x.key == KeyAt(keys, r, x.num))
    || (r >= 3 && x.pub.key == keys[r - 2] && x.key == KeyAt(keys, r - 2, x.num))
  }

  predicate Before(cur: Text, x: Entry, y: Entry) {
    if x.pub == y.pub then x.num < y.num else y.pub == cur
  }

  predicate InOrder(cur: Text, sk: seq<Entry>) { forall i, j :: 0 <= i < j < |sk| ==> Before(cur, sk[i], sk[j]) }

  /** Previous chain first, all under one text, then the current one, each ascending by number. */
  predicate BufferOk(keys: seq<Priv>, r: nat, cur: Text, lim: nat, sk: seq<Entry>)
    requires r < |keys|
  {
    && cur.key == keys[r]
    && (forall i :: 0 <= i < |sk| ==> EntryOk(keys, r, cur, lim, sk[i]))
    && InOrder(cur, sk)
  }

  /** The receiving half: chain r advanced recvMsgNum times, or nothing received yet. */
  predicate RecvOk(keys: seq<Priv>, r: nat, s: Session)
    requires r < |keys|
  {
    && (r == 0 ==> s.recvChain.None? && s.recvMsgNum == 0)
    && (r >= 1 ==> s.recvChain == Some(ChainAt(keys, r, s.recvMsgNum)))
    && BufferOk(keys, r, s.their, s.recvMsgNum, s.skipped)
  }

  /** The key of message n of a chain is buffered, under whatever text of its ratchet key. */
  ghost predicate Holds(sk: seq<Entry>, p: Priv, n: nat) {
    exists form: nat :: Buffered(sk, Text(p, form), n)
  }

  lemma BufferedHolds(sk: seq<Entry>, p: Text, n: nat)
    requires Buffered(sk, p, n)
    ensures Holds(sk, p.key, n)
  {
    assert Buffered(sk, Text(p.key, p.form), n);
  }

  predicate SendOk(keys: seq<Priv>, d: nat, s: Session)
    requires 1 <= d < |keys|
  {
    && s.myPriv == keys[d]
    && s.sendChain == ChainAt(keys, d, s.sendMsgNum)
  }

  predicate SessionAt(keys: seq<Priv>, role: Role, s: Option<Session>) {
    var e := Epoch(s);
    && e < |keys|
    && (s.Some? ==>
      && (e >= if role.Initiator? then 1 else 2)
      && s.value.rootKey == RootAt(keys, e)
      && s.value.pending == !Sends(role, e)
      && SendOk(keys, SendEpoch(role, e), s.value)
      && RecvOk(keys, RecvEpoch(role, e), s.value)
      && |s.value.skipped| <= MAX_SKIPPED_KEYS)
  }

  lemma BufferOkPrefix(keys: seq<Priv>, more: seq<Priv>, r: nat, cur: Text, lim: nat, sk: seq<Entry>)
    requires r < |keys| && BufferOk(keys, r, cur, lim, sk)
    ensures BufferOk(keys + more, r, cur, lim, sk)
  {
    forall i | 0 <= i < |sk| ensures EntryOk(keys + more, r, cur, lim, sk[i]) {
      if r >= 1 { ChainAtPrefix(keys, more, r, sk[i].num); }
      if r >= 3 { ChainAtPrefix(keys, more, r - 2, sk[i].num); }
    }
  }

  lemma SessionAtPrefix(keys: seq<Priv>, more: seq<Priv>, role: Role, s: Option<Session>)
    requires SessionAt(keys, role, s)
    ensures SessionAt(keys + more, role, s)
  {
    if s.Some? {
      var e := Epoch(s);
      var r, d := RecvEpoch(role, e), SendEpoch(role, e);
      RootAtPrefix(keys, more, e);
      ChainAtPrefix(keys, more, d, s.value.sendMsgNum);
      if r >= 1 { ChainAtPrefix(keys, more, r, s.value.recvMsgNum); }
      BufferOkPrefix(keys, more, r, s.value.their, s.value.recvMsgNum, s.value.skipped);
    }
  }

  // ---- Skipping ----

  /** The labels of sk2 are labels of sk1 or numbers lo..hi-1 of one chain. */
  ghost predicate Grows(sk1: seq<Entry>, sk2: seq<Entry>, pub: Text, lo: int, hi: int) {
    forall p: Text, n: nat :: Buffered(sk2, p, n) ==> Buffered(sk1, p, n) || (p == pub && lo <= n < hi)
  }

  /** What a run of skips changes, for any session. */
  lemma {:induction false} SkipFrame(s: Session, stop: int)
    requires s.recvChain.Some?
    ensures var t := SkipTo(s, stop);
      && t == s.(skipped := t.skipped, recvChain := t.recvChain, recvMsgNum := t.recvMsgNum)
      && t.recvMsgNum == (if s.recvMsgNum < stop then stop else s.recvMsgNum)
      && t.recvChain == Some(Advance(s.recvChain.value, t.recvMsgNum - s.recvMsgNum))
      && Grows(s.skipped, t.skipped, s.their, s.recvMsgNum, t.recvMsgNum)
    decreases stop - s.recvMsgNum
  {
    if s.recvMsgNum < stop {
      var s1 := SkipOne(s);
      SkipFrame(s1, stop);
      var t := SkipTo(s1, stop);
      AdvanceAdds(s.recvChain.value, 1, t.recvMsgNum - s1.recvMsgNum);
      assert Advance(s.recvChain.value, 1) == Next(s.recvChain.value);
      forall p: Text, n: nat | Buffered(t.skipped, p, n)
        ensures Buffered(s.skipped, p, n) || (p == s.their && s.recvMsgNum <= n < t.recvMsgNum)
      {
        if Buffered(s1.skipped, p, n) { PutLabels(s.skipped, Entry(s.their, s.recvMsgNum, MsgKey(s.recvChain.value)), p, n); }
      }
    }
  }

  lemma BufferedIff(sk: seq<Entry>, p: Text, n: nat)
    ensures Buffered(sk, p, n) <==> exists i :: 0 <= i < |sk| && Labelled(sk[i], p, n)
  {
    if Buffered(sk, p, n) { assert Labelled(sk[IndexOf(sk, p, n)], p, n); }
  }

  lemma PutLabels(sk: seq<Entry>, x: Entry, p: Text, n: nat)
    ensures Buffered(Put(sk, x), p, n) <==> Buffered(sk, p, n) || Labelled(x, p, n)
  {
    BufferedIff(sk, p, n);
    BufferedIff(Put(sk, x), p, n);
    var i := IndexOf(sk, x.pub, x.num);
    var t := Put(sk, x);
    if i < |sk| { assert Labelled(t[i], x.pub, x.num); } else { assert t[|sk|] == x; }
    if Buffered(sk, p, n) {
      var j := IndexOf(sk, p, n);
      assert Labelled(t[j], p, n);
    }
  }

  /** Under the invariant every skip appends, in order. */
  lemma {:induction false} SkipKeeps(keys: seq<Priv>, r: nat, s: Session, stop: int)
    requires KeysOk(keys) && 1 <= r < |keys| && RecvOk(keys, r, s)
    ensures var t := SkipTo(s, stop);
      && RecvOk(keys, r, t)
      && |t.skipped| == |s.skipped| + (t.recvMsgNum - s.recvMsgNum)
    decreases stop - s.recvMsgNum
  {
    if s.recvMsgNum < stop {
      var s1 := SkipOne(s);
      var x := Entry(s.their, s.recvMsgNum, MsgKey(s.recvChain.value));
      forall i | 0 <= i < |s.skipped| ensures !Labelled(s.skipped[i], x.pub, x.num) {
        assert EntryOk(keys, r, s.their, s.recvMsgNum, s.skipped[i]);
      }
      assert s1.skipped == s.skipped + [x];
      forall i | 0 <= i < |s1.skipped| ensures EntryOk(keys, r, s.their, s1.recvMsgNum, s1.skipped[i]) {
        if i < |s.skipped| { assert EntryOk(keys, r, s.their, s.recvMsgNum, s.skipped[i]); }
      }
      forall i, j | 0 <= i < j < |s1.skipped| ensures Before(s.their, s1.skipped[i], s1.skipped[j]) {
        assert EntryOk(keys, r, s.their, s.recvMsgNum, s.skipped[i]);
        if j < |s.skipped| { assert Before(s.their, s.skipped[i], s.skipped[j]); }
      }
      SkipKeeps(keys, r, s1, stop);
    }
  }

  lemma CapKeeps(keys: seq<Priv>, r: nat, cur: Text, lim: nat, sk: seq<Entry>)
    requires r < |keys| && BufferOk(keys, r, cur, lim, sk)
    ensures BufferOk(keys, r, cur, lim, Cap(sk)) && |Cap(sk)| <= MAX_SKIPPED_KEYS
    ensures forall p: Text :: Grows(sk, Cap(sk), p, 0, 0)
  {
    var c := Cap(sk);
    forall p: Text, n: nat | Buffered(c, p, n) ensures Buffered(sk, p, n) {
      var i := IndexOf(c, p, n);
      assert Labelled(sk[|sk| - |c| + i], p, n);
      BufferedIff(sk, p, n);
    }
    forall i, j | 0 <= i < j < |c| ensures Before(cur, c[i], c[j]) {
      assert Before(cur, sk[|sk| - |c| + i], sk[|sk| - |c| + j]);
    }
  }

  lemma RemoveKeeps(keys: seq<Priv>, r: nat, cur: Text, lim: nat, sk: seq<Entry>, i: nat)
    requires KeysOk(keys) && r < |keys| && BufferOk(keys, r, cur, lim, sk) && i < |sk|
    ensures BufferOk(keys, r, cur, lim, Remove(sk, i))
    ensures forall p: Text, n: nat :: Buffered(Remove(sk, i), p, n) ==>
      Buffered(sk, p, n) && !(p.key == sk[i].pub.key && n == sk[i].num)
  {
    var t := Remove(sk, i);
    forall k | 0 <= k < |t| ensures EntryOk(keys, r, cur, lim, t[k]) {
      assert EntryOk(keys, r, cur, lim, sk[if k < i then k else k + 1]);
    }
    forall k, l | 0 <= k < l < |t| ensures Before(cur, t[k], t[l]) {
      assert Before(cur, sk[if k < i then k else k + 1], sk[if l < i then l else l + 1]);
    }
    forall p: Text, n: nat | Buffered(t, p, n)
      ensures Buffered(sk, p, n) && !(p.key == sk[i].pub.key && n == sk[i].num)
    {
      var k := IndexOf(t, p, n);
      var k' := if k < i then k else k + 1;
      assert sk[k'] == t[k] && Labelled(sk[k'], p, n);
      BufferedIff(sk, p, n);
      assert EntryOk(keys, r, cur, lim, sk[k']) && EntryOk(keys, r, cur, lim, sk[i]);
      if k' < i { assert Before(cur, sk[k'], sk[i]); } else { assert Before(cur, sk[i], sk[k']); }
    }
  }

  lemma {:induction false} OfChainMembers(sk: seq<Entry>, pub: Text)
    ensures forall x :: x in OfChain(sk, pub) <==> x in sk && x.pub == pub
    ensures |OfChain(sk, pub)| <= |sk|
  {
    if sk != [] {
      OfChainMembers(sk[1..], pub);
      assert sk == [sk[0]] + sk[1..];
    }
  }

  predicate Ascending(t: seq<Entry>) { forall i, j :: 0 <= i < j < |t| ==> t[i].num < t[j].num }

  lemma {:induction false} OfChainOrder(cur: Text, sk: seq<Entry>, pub: Text)
    requires InOrder(cur, sk)
    ensures Ascending(OfChain(sk, pub))
  {
    if sk != [] {
      var rest := sk[1..];
      RestInOrder(cur, sk);
      OfChainOrder(cur, rest, pub);
      if sk[0].pub == pub {
        FirstIsLowest(cur, sk, pub);
        AscendingCons(sk[0], OfChain(rest, pub));
      }
    }
  }

  lemma RestInOrder(cur: Text, sk: seq<Entry>)
    requires InOrder(cur, sk) && sk != []
    ensures InOrder(cur, sk[1..])
  {
    var rest := sk[1..];
    forall i, j | 0 <= i < j < |rest| ensures Before(cur, rest[i], rest[j]) {
      assert Before(cur, sk[i + 1], sk[j + 1]);
    }
  }

  lemma AscendingCons(x: Entry, u: seq<Entry>)
    requires Ascending(u) && forall y :: y in u ==> x.num < y.num
    ensures Ascending([x] + u)
  {
    var t := [x] + u;
    forall i, j | 0 <= i < j < |t| ensures t[i].num < t[j].num {
      assert t[j] == u[j - 1];
      if i > 0 { assert t[i] == u[i - 1]; }
    }
  }

  lemma FirstIsLowest(cur: Text, sk: seq<Entry>, pub: Text)
    requires sk != [] && sk[0].pub == pub && InOrder(cur, sk)
    ensures forall x :: x in OfChain(sk[1..], pub) ==> sk[0].num < x.num
  {
    OfChainMembers(sk[1..], pub);
    forall x | x in OfChain(sk[1..], pub) ensures sk[0].num < x.num {
      var k :| 0 <= k < |sk[1..]| && sk[1..][k] == x;
      assert Before(cur, sk[0], sk[k + 1]);
    }
  }
}
