/**
 The session engine as it runs: mutable session objects, a cache that hands out live
 references, and the store.  Every method is proved against Ratchet.dfy and Storage.dfy.
 */
module Engine {
  import opened Prelude
  import opened Crypto
  import opened Ratchet
  import opened Storage

  // ---- Facts about labels ----

  /** A JavaScript object has each key once. */
  ghost predicate Distinct(sk: seq<Entry>) {
    forall i, j :: 0 <= i < j < |sk| ==> !Labelled(sk[j], sk[i].pub, sk[i].num)
  }

  lemma IndexAt(sk: seq<Entry>, i: nat)
    requires Distinct(sk) && i < |sk|
    ensures IndexOf(sk, sk[i].pub, sk[i].num) == i
  {
    forall k | 0 <= k < i ensures !Labelled(sk[k], sk[i].pub, sk[i].num) {
      assert !Labelled(sk[i], sk[k].pub, sk[k].num);
    }
  }

  lemma PutDistinct(sk: seq<Entry>, x: Entry)
    requires Distinct(sk)
    ensures Distinct(Put(sk, x))
  {
  }

  lemma RemoveDistinct(sk: seq<Entry>, i: nat)
    requires Distinct(sk) && i < |sk|
    ensures Distinct(Remove(sk, i))
  {
    var t := Remove(sk, i);
    forall k, l | 0 <= k < l < |t| ensures !Labelled(t[l], t[k].pub, t[k].num) {
      assert t[k] == sk[if k < i then k else k + 1] && t[l] == sk[if l < i then l else l + 1];
    }
  }

  lemma {:induction false} OfChainAppend(a: seq<Entry>, x: Entry, pub: Text)
    ensures OfChain(a + [x], pub) == OfChain(a, pub) + (if x.pub == pub then [x] else [])
  {
    if a != [] {
      OfChainAppend(a[1..], x, pub);
      assert (a + [x])[1..] == a[1..] + [x];
    }
  }

  /** Where the i-th of the keys stands once the earlier ones of other chains are gone. */
  lemma DropStep(sk: seq<Entry>, keys: seq<Entry>, i: nat, pub: Text)
    requires i < |keys| && sk == OfChain(keys[..i], pub) + keys[i..] && Distinct(sk)
    ensures var x := keys[i];
      if x.pub == pub then sk == OfChain(keys[..i + 1], pub) + keys[i + 1..]
      else
        && Buffered(sk, x.pub, x.num)
        && Remove(sk, IndexOf(sk, x.pub, x.num)) == OfChain(keys[..i + 1], pub) + keys[i + 1..]
  {
    var kept, x, rest := OfChain(keys[..i], pub), keys[i], keys[i + 1..];
    assert keys[i..] == [x] + rest && keys[..i + 1] == keys[..i] + [x];
    OfChainAppend(keys[..i], x, pub);
    RemoveMiddle(sk, kept, x, rest);
  }

  lemma RemoveMiddle(sk: seq<Entry>, kept: seq<Entry>, x: Entry, rest: seq<Entry>)
    requires sk == kept + ([x] + rest) && Distinct(sk)
    ensures Buffered(sk, x.pub, x.num) && Remove(sk, IndexOf(sk, x.pub, x.num)) == kept + rest
    ensures sk == kept + [x] + rest
  {
    assert sk[|kept|] == x;
    IndexAt(sk, |kept|);
  }

  /** The session object: the fields ratchetEncrypt and ratchetDecrypt assign to. */
  class State {
    var rootKey: RootKey
    var myPriv: Priv
    var their: Text
    var pending: bool
    var sendChain: ChainKey
    var sendMsgNum: nat
    var sendPrevLen: nat
    var recvChain: Option<ChainKey>
    var recvMsgNum: nat
    var skipped: seq<Entry>
    var ver: nat
    ghost var advances: nat    // advanceChain calls made for this object

    function View(): Session
      reads this
    {
      Session(rootKey, myPriv, their, pending, sendChain, sendMsgNum, sendPrevLen,
              recvChain, recvMsgNum, skipped, ver)
    }

    ghost predicate Valid()
      reads this
    {
      Distinct(skipped)
    }

    /** A session object read from a value: a new session, a stored copy, or the JSON
        round trip that copies the live one. */
    constructor (s: Session)
      requires Distinct(s.skipped)
      ensures View() == s && Valid() && advances == 0
    {
      rootKey, myPriv, their, pending := s.rootKey, s.myPriv, s.their, s.pending;
      sendChain, sendMsgNum, sendPrevLen := s.sendChain, s.sendMsgNum, s.sendPrevLen;
      recvChain, recvMsgNum, skipped, ver := s.recvChain, s.recvMsgNum, s.skipped, s.ver;
      advances := 0;
    }

    method Delete(pub: Text, num: nat)
      requires Valid()
      modifies this`skipped
      ensures Valid()
      ensures skipped == if Buffered(old(skipped), pub, num)
                         then Remove(old(skipped), IndexOf(old(skipped), pub, num)) else old(skipped)
    {
      var i := IndexOf(skipped, pub, num);
      if i < |skipped| {
        RemoveDistinct(skipped, i);
        skipped := Remove(skipped, i);
      }
    }

    /** Delete every buffered key whose label is not of the retiring chain. */
    method DropOlder()
      requires Valid()
      modifies this`skipped
      ensures Valid() && skipped == OfChain(old(skipped), their)
    {
      var keys := skipped;
      var i := 0;
      while i < |keys|
        invariant 0 <= i <= |keys| && Valid()
        invariant skipped == OfChain(keys[..i], their) + keys[i..]
      {
        var x := keys[i];
        DropStep(skipped, keys, i, their);
        if x.pub != their {
          Delete(x.pub, x.num);
        }
        i := i + 1;
      }
      assert keys[..i] == keys;
    }

    /** _capSkippedKeys: delete the first keys until MAX_SKIPPED_KEYS remain. */
    method CapSkipped()
      requires Valid()
      modifies this`skipped
      ensures Valid() && skipped == Cap(old(skipped))
    {
      var keys := skipped;
      var i := 0;
      while i < |keys| - MAX_SKIPPED_KEYS
        invariant 0 <= i <= |keys| && (i == 0 || i <= |keys| - MAX_SKIPPED_KEYS)
        invariant Valid() && skipped == keys[i..]
      {
        assert skipped[0] == keys[i];
        IndexAt(skipped, 0);
        Delete(keys[i].pub, keys[i].num);
        i := i + 1;
      }
    }

    /** The skip loop of both receive paths. */
    method SkipUpTo(stop: int)
      requires Valid() && recvChain.Some?
      modifies this`skipped, this`recvChain, this`recvMsgNum, this`advances
      ensures Valid() && View() == SkipTo(old(View()), stop)
      ensures advances == old(advances) + (if old(recvMsgNum) < stop then stop - old(recvMsgNum) else 0)
    {
      while recvMsgNum < stop
        invariant Valid() && recvChain.Some?
        invariant SkipTo(View(), stop) == SkipTo(old(View()), stop)
        invariant recvMsgNum >= old(recvMsgNum) && advances - old(advances) == recvMsgNum - old(recvMsgNum)
        invariant recvMsgNum <= stop || recvMsgNum == old(recvMsgNum)
        decreases stop - recvMsgNum
      {
        ghost var before := View();
        var ck := recvChain.value;
        advances := advances + 1;
        PutDistinct(skipped, Entry(their, recvMsgNum, MsgKey(ck)));
        skipped := Put(skipped, Entry(their, recvMsgNum, MsgKey(ck)));
        recvChain := Some(Next(ck));
        recvMsgNum := recvMsgNum + 1;
        assert View() == SkipOne(before);
      }
    }

    /** Keep what may still arrive of the chain being left. */
    method RetireChain(pn: int)
      requires Valid() && pn >= 0
      modifies this`skipped, this`recvChain, this`recvMsgNum, this`advances
      ensures Valid() && View() == Retire(old(View()), pn)
      ensures advances <= old(advances) + MAX_SKIP
    {
      DropOlder();
      if recvChain.Some? {
        SkipUpTo(Min(pn, recvMsgNum + MAX_SKIP));
      }
      CapSkipped();
    }

    method DhRatchetReceive(pub: Text, pn: int)
      requires Valid() && pn >= 0
      modifies this
      ensures Valid() && View() == DhReceive(old(View()), pub, pn)
      ensures advances <= old(advances) + MAX_SKIP
    {
      RetireChain(pn);
      var dh := Agree(myPriv, pub.key);
      recvChain := Some(FromRoot(rootKey, dh));
      rootKey := RootKey(rootKey, dh);
      recvMsgNum := 0;
      their := pub;
      pending := true;
    }

    /** The receive path after the right chain is in place. */
    method TakeKey(num: nat) returns (r: Result<MsgKey, Reject>)
      requires Valid()
      modifies this`skipped, this`recvChain, this`recvMsgNum, this`advances
      ensures Valid()
      ensures Take(old(View()), num).Err? ==> r == Err(Take(old(View()), num).error)
      ensures Take(old(View()), num).Ok? ==> (View(), r) == (Take(old(View()), num).value.0, Ok(Take(old(View()), num).value.1))
      ensures advances <= old(advances) + MAX_SKIP + 1
    {
      if num < recvMsgNum { return Err(Consumed); }
      if num - recvMsgNum > MAX_SKIP { return Err(SkipOverflow); }
      if recvChain.None? { return Err(NoRecvChain); }
      SkipUpTo(num);
      var ck := recvChain.value;
      advances := advances + 1;
      r := Ok(MsgKey(ck));
      recvChain := Some(Next(ck));
      recvMsgNum := recvMsgNum + 1;
      CapSkipped();
    }

    method DhRatchetSend(newPriv: Priv)
      requires Valid()
      modifies this
      ensures Valid() && View() == DhSend(old(View()), newPriv) && advances == old(advances)
    {
      var dh := Agree(newPriv, their.key);
      sendPrevLen := sendMsgNum;
      sendChain := FromRoot(rootKey, dh);
      sendMsgNum := 0;
      rootKey := RootKey(rootKey, dh);
      myPriv := newPriv;
      pending := false;
    }
  }

  // ---- What a rejected message leaves behind ----

  /** The session later operations see after a message was received on session s, whether or not
      the save that follows a good tag breaks off: the cache is set first. */
  function SeenAfterReceive(s: Option<Session>, id: Priv, newPriv: Priv, m: Msg, allowInit: bool): Option<Session> {
    var d := Decrypt(s, id, newPriv, m, allowInit);
    if d.Err? then s else Some(d.value.0)
  }

  /** An honest first message, ratchet key 3, to identity 2: when its save breaks off it is reported as
      failed, and yet a session is there. */
  lemma BrokenSaveStillAdvances(m: Msg)
    requires m == Outgoing(InitSender(Text(2, 0), 3), 0, "hello")
    ensures Decrypt(None, 2, 5, m, true).Ok?
    ensures SeenAfterReceive(None, 2, 5, m, true) != None
  {
    assert Agree(2, 3) == Agree(3, 2);
    var t := InitReceiver(Text(3, 0), 2, 5);
    assert SkipTo(t, 0) == t;
  }

  // ---- What is handed to the pod writers ----

  function WriterIn(writers: map<string, Writer>, peer: string): Writer {
    if peer in writers then writers[peer] else IdleWriter
  }

  function Wrote(writers: map<string, Writer>, peer: string, s: Session): map<string, Writer> {
    writers[peer := QueueWrite(WriterIn(writers, peer), s)]
  }

  /** Loading an uncached session writes a missing device copy. */
  function LoadWrites(writers: map<string, Writer>, peer: string, cached: bool, best: Option<Session>, pod: Pod): map<string, Writer> {
    if !cached && best.Some? && Migrates(pod) then Wrote(writers, peer, best.value) else writers
  }

  /** A completed save goes to the pod while signed in. */
  function SaveWrites(writers: map<string, Writer>, peer: string, s: Session, pod: Pod): map<string, Writer> {
    if pod.signedIn then Wrote(writers, peer, s) else writers
  }

  /** The last session handed to a writer: waiting, or the last PUT issued. */
  function LatestJob(q: Writer): Option<Session> {
    if q.pending.Some? then q.pending else if q.issued != [] then Some(LastOf(q.issued)) else None
  }

  /** A completed save while signed in is the last job of a running writer of that peer, and of no other;
      signed out nothing is handed over. */
  lemma SavedIsHandedOver(writers: map<string, Writer>, peer: string, s: Session, pod: Pod)
    ensures var after := SaveWrites(writers, peer, s, pod);
      if pod.signedIn then
        && LatestJob(WriterIn(after, peer)) == Some(s) && WriterIn(after, peer).running
        && forall other :: other != peer ==> WriterIn(after, other) == WriterIn(writers, other)
      else after == writers
  {
  }

  /** Loading hands the session over exactly if it was not cached, one was found, and the pod can be written
      but has no device copy that can be read. */
  lemma LoadedIsHandedOverIff(writers: map<string, Writer>, peer: string, cached: bool, best: Option<Session>, pod: Pod)
    ensures var after := LoadWrites(writers, peer, cached, best, pod);
      if !cached && best.Some? && pod.signedIn && (pod.device == None || pod.device == Some(Unreadable)) then
        && LatestJob(WriterIn(after, peer)) == best && WriterIn(after, peer).running
        && forall other :: other != peer ==> WriterIn(after, other) == WriterIn(writers, other)
      else after == writers
  {
  }

  class Engine {
    const id: Priv
    var cache: map<string, State>
    var local: map<string, Blob>
    var writers: map<string, Writer>
    ghost var advances: nat      // advanceChain calls made by this engine

    constructor (id: Priv, local: map<string, Blob>)
      ensures Valid() && this.id == id && cache == map[] && this.local == local && writers == map[]
    {
      this.id := id;
      this.local := local;
      cache, writers, advances := map[], map[], 0;
    }

    /** No two peers share a session object. */
    ghost predicate Valid()
      reads this, cache.Values
    {
      && (forall p :: p in cache ==> cache[p].Valid())
      && (forall p, q :: p in cache && q in cache && p != q ==> cache[p] != cache[q])
    }

    function LocalCopy(peer: string): Option<Blob>
      reads this
    {
      if peer in local then Some(local[peer]) else None
    }

    /** The session the next operation on a peer works from. */
    function Seen(peer: string, pod: Pod): Option<Session>
      reads this, cache.Values
    {
      if peer in cache then Some(cache[peer].View())
      else StoredCopy(peer, pod)
    }

    /** The newest stored copy. */
    function StoredCopy(peer: string, pod: Pod): Option<Session>
      reads this
    {
      Newest(LocalCopy(peer), DeviceCopy(pod), LegacyCopy(pod))
    }

    /** Stored sessions come from objects, so their labels are distinct. */
    ghost predicate GoodCopies(peer: string, pod: Pod)
      reads this
    {
      var s := StoredCopy(peer, pod);
      s.Some? ==> Distinct(s.value.skipped)
    }

    /** Every other peer keeps its session object, unchanged. */
    twostate predicate OthersKept(peer: string, before: map<string, State>)
      reads this, cache.Values
    {
      && cache.Keys - {peer} == before.Keys - {peer}
      && forall q :: q in before && q != peer ==> q in cache && cache[q] == before[q]
    }

    method QueuePodWrite(peer: string, s: Session)
      modifies this`writers
      ensures writers == Wrote(old(writers), peer, s)
    {
      writers := writers[peer := QueueWrite(WriterIn(writers, peer), s)];
    }

    /** loadRatchetState: the live object itself, not a copy of it. */
    method Load(peer: string, pod: Pod) returns (s: State?)
      requires Valid() && GoodCopies(peer, pod)
      modifies this`cache, this`writers
      ensures Valid()
      ensures old(Seen(peer, pod)).None? ==> s == null && cache == old(cache)
      ensures old(Seen(peer, pod)).Some? ==>
        s != null && s.View() == old(Seen(peer, pod)).value && cache == old(cache)[peer := s]
      ensures s != null && peer !in old(cache) ==> fresh(s)
      ensures old(peer in cache) ==> cache == old(cache)
      ensures writers == LoadWrites(old(writers), peer, old(peer in cache), old(StoredCopy(peer, pod)), pod)
    {
      if peer in cache { s := cache[peer]; return; }
      var best := StoredCopy(peer, pod);
      if best.None? { s := null; return; }
      s := new State(best.value);
      cache := cache[peer := s];
      if Migrates(pod) {
        QueuePodWrite(peer, best.value);
      }
    }

    /** saveRatchetState.  When encrypting the blob fails the cache is already set. */
    method Save(peer: string, s: State, fails: bool, pod: Pod)
      requires Valid() && s.Valid()
      requires forall q :: q in cache && q != peer ==> cache[q] != s
      modifies this`cache, this`local, this`writers, s`ver
      ensures Valid() && cache == old(cache)[peer := s] && s.View() == Stamp(old(s.View()))
      ensures local == if fails then old(local) else old(local)[peer := Stored(Stamp(old(s.View())))]
      ensures writers == if fails then old(writers) else SaveWrites(old(writers), peer, Stamp(old(s.View())), pod)
    {
      s.ver := s.ver + 1;
      cache := cache[peer := s];
      if fails { return; }
      local := local[peer := Stored(s.View())];
      if pod.signedIn { QueuePodWrite(peer, s.View()); }
    }

    /** Number, seal and save the next message of a session that is ready to send. */
    method SealNext(peer: string, live: State, plain: string, nonce: nat, fault: Fault, pod: Pod)
      returns (r: Result<Msg, SendError>)
      requires Valid() && live.Valid()
      requires forall q :: q in cache && q != peer ==> cache[q] != live
      modifies this`cache, this`local, this`writers, live
      ensures Valid() && live.Valid()
      ensures fault.AtRatchet? || fault.AtAdvance? ==> live.View() == old(live.View())
      ensures fault.AtSeal? ==> live.View() == TakeSendKey(old(live.View()))
      ensures fault.AtStore? || fault.NoFault? ==> live.View() == Stamp(TakeSendKey(old(live.View())))
      ensures cache == if fault.AtStore? || fault.NoFault? then old(cache)[peer := live] else old(cache)
      ensures local == if fault.NoFault? then old(local)[peer := Stored(live.View())] else old(local)
      ensures writers == if fault.NoFault? then SaveWrites(old(writers), peer, live.View(), pod) else old(writers)
      ensures r == if fault.NoFault? then Ok(Outgoing(old(live.View()), nonce, plain)) else Err(Broken)
    {
      if fault.AtRatchet? || fault.AtAdvance? { return Err(Broken); }
      var m := Outgoing(live.View(), nonce, plain);
      live.sendChain := Next(live.sendChain);
      live.sendMsgNum := live.sendMsgNum + 1;
      if fault.AtSeal? { return Err(Broken); }
      Save(peer, live, fault.AtStore?, pod);
      r := if fault.AtStore? then Err(Broken) else Ok(m);
    }

    /** ratchetEncrypt on an existing session works on the live object. */
    method EncryptOn(peer: string, live: State, peerKey: Option<Text>, plain: string, newPriv: Priv, nonce: nat, fault: Fault, pod: Pod)
      returns (r: Result<Msg, SendError>)
      requires Valid() && peer in cache && cache[peer] == live
      modifies this`cache, this`local, this`writers, live
      ensures Valid() && cache == old(cache)
      ensures Some(live.View()) == SeenAfterSend(Some(old(live.View())), peerKey, newPriv, nonce, plain, fault)
      ensures var e := Encrypt(Some(old(live.View())), peerKey, newPriv, nonce, plain);
        && e.Ok? && r == (if fault.NoFault? then Ok(e.value.1) else Err(Broken))
        && local == (if r.Ok? then old(local)[peer := Stored(e.value.0)] else old(local))
        && writers == if r.Ok? then SaveWrites(old(writers), peer, e.value.0, pod) else old(writers)
    {
      if live.pending && !fault.AtRatchet? { live.DhRatchetSend(newPriv); }
      r := SealNext(peer, live, plain, nonce, fault, pod);
    }

    /** ratchetEncrypt with no session starts one, cached only by the save. */
    method EncryptFirst(peer: string, peerKey: Option<Text>, plain: string, newPriv: Priv, nonce: nat, fault: Fault, pod: Pod)
      returns (r: Result<Msg, SendError>)
      requires Valid() && peer !in cache
      modifies this`cache, this`local, this`writers
      ensures Valid()
      ensures SeenAfterSend(None, peerKey, newPriv, nonce, plain, fault).None? ==> cache == old(cache)
      ensures var after := SeenAfterSend(None, peerKey, newPriv, nonce, plain, fault);
        after.Some? ==> peer in cache && cache == old(cache)[peer := cache[peer]] && cache[peer].View() == after.value
      ensures var e := Encrypt(None, peerKey, newPriv, nonce, plain);
        && r == (if e.Err? then Err(e.error) else if fault.NoFault? then Ok(e.value.1) else Err(Broken))
        && local == (if r.Ok? then old(local)[peer := Stored(e.value.0)] else old(local))
        && writers == if r.Ok? then SaveWrites(old(writers), peer, e.value.0, pod) else old(writers)
    {
      if peerKey.None? { return Err(NoPeerKey); }
      var live := new State(InitSender(peerKey.value, newPriv));
      r := SealNext(peer, live, plain, nonce, fault, pod);
    }

    /** The session later operations see after a send from session s. */
    static function SeenAfterSend(s: Option<Session>, peerKey: Option<Text>, newPriv: Priv, nonce: nat,
                                  plain: string, fault: Fault): Option<Session>
    {
      var e := Encrypt(s, peerKey, newPriv, nonce, plain);
      if e.Err? then s
      else if fault.NoFault? then Some(e.value.0)
      else AfterBrokenSend(s, peerKey, newPriv, fault)
    }

    /** _ratchetEncryptImpl.  peerKey is the cached identity key of the peer; fault says
        where the operation breaks off, if it does. */
    method RatchetEncrypt(peer: string, peerKey: Option<Text>, plain: string, newPriv: Priv, nonce: nat, fault: Fault, pod: Pod)
      returns (r: Result<Msg, SendError>)
      requires Valid() && GoodCopies(peer, pod)
      modifies this, if peer in cache then {cache[peer]} else {}
      ensures Valid() && OthersKept(peer, old(cache))
      ensures Seen(peer, pod) == SeenAfterSend(old(Seen(peer, pod)), peerKey, newPriv, nonce, plain, fault)
      ensures var e := Encrypt(old(Seen(peer, pod)), peerKey, newPriv, nonce, plain);
        && r == (if e.Err? then Err(e.error) else if fault.NoFault? then Ok(e.value.1) else Err(Broken))
        && local == (if r.Ok? then old(local)[peer := Stored(e.value.0)] else old(local))
      ensures var w := LoadWrites(old(writers), peer, old(peer in cache), old(StoredCopy(peer, pod)), pod);
        writers == if r.Ok? then SaveWrites(w, peer, Encrypt(old(Seen(peer, pod)), peerKey, newPriv, nonce, plain).value.0, pod) else w
    {
      var s := Load(peer, pod);
      if s != null {
        r := EncryptOn(peer, s, peerKey, plain, newPriv, nonce, fault, pod);
      } else {
        r := EncryptFirst(peer, peerKey, plain, newPriv, nonce, fault, pod);
      }
    }

    /** The receive path on the working copy, up to the tag check. */
    method SelectOn(copy: State, m: Msg) returns (r: Result<MsgKey, Reject>)
      requires copy.Valid() && copy.advances == 0
      requires m.pub.PubOf? || m.pub.Malformed?
      requires Counter(m.msgNum) && Counter(m.pn)
      modifies copy
      ensures copy.Valid() && copy.advances <= 2 * MAX_SKIP + 1
      ensures forall i: Priv, k: Priv, allowInit: bool ::
        var sel := Select(Some(old(copy.View())), i, k, m, allowInit);
        if sel.Err? then r == Err(sel.error) else r == Ok(sel.value.1) && copy.View() == sel.value.0
    {
      if m.pub.PubOf? && Buffered(copy.skipped, m.pub.text, m.msgNum.n) {
        r := Ok(copy.skipped[IndexOf(copy.skipped, m.pub.text, m.msgNum.n)].key);
        copy.Delete(m.pub.text, m.msgNum.n);
        return;
      }
      if m.pub != PubOf(copy.their) {
        if m.pub.Malformed? {
          copy.RetireChain(m.pn.n);    // the key is imported after the skip loop
          return Err(BadKey);
        }
        copy.DhRatchetReceive(m.pub.text, m.pn.n);
      }
      r := copy.TakeKey(m.msgNum.n);
    }

    /** A session started from a message of the peer. */
    method SelectFirst(m: Msg, newPriv: Priv) returns (copy: State, r: Result<MsgKey, Reject>)
      requires m.pub.PubOf? && Counter(m.msgNum) && Counter(m.pn)
      ensures fresh(copy) && copy.Valid() && copy.advances <= MAX_SKIP + 1
      ensures var sel := Select(None, id, newPriv, m, true);
        if sel.Err? then r == Err(sel.error) else r == Ok(sel.value.1) && copy.View() == sel.value.0
    {
      copy := new State(InitReceiver(m.pub.text, id, newPriv));
      r := copy.TakeKey(m.msgNum.n);
    }

    /** Load the session and select a message key on a copy of it, or on a new session. */
    method SelectOnCopy(peer: string, m: Msg, allowInit: bool, newPriv: Priv, pod: Pod)
      returns (copy: State?, r: Result<MsgKey, Reject>)
      requires Valid() && GoodCopies(peer, pod)
      modifies this`cache, this`writers
      ensures Valid() && OthersKept(peer, old(cache)) && Seen(peer, pod) == old(Seen(peer, pod))
      ensures peer in old(cache) ==> cache == old(cache)
      ensures copy != null ==> fresh(copy) && copy.Valid() && copy.advances <= 2 * MAX_SKIP + 1 && copy !in cache.Values
      ensures writers == if BadHeader(m).Some? then old(writers)
                         else LoadWrites(old(writers), peer, old(peer in cache), old(StoredCopy(peer, pod)), pod)
      ensures var sel := Select(old(Seen(peer, pod)), id, newPriv, m, allowInit);
        if sel.Err? then r == Err(sel.error)
        else copy != null && r == Ok(sel.value.1) && copy.View() == sel.value.0
    {
      copy := null;
      if m.pub.Missing? { return copy, Err(NoPub); }
      if !Counter(m.msgNum) || !Counter(m.pn) { return copy, Err(BadNumber); }
      var s := Load(peer, pod);
      if s != null {
        var working := new State(s.View());
        r := SelectOn(working, m);
        copy := working;
      } else if !allowInit {
        r := Err(NoSession);
      } else if m.pub.Malformed? {
        r := Err(BadKey);
      } else {
        copy, r := SelectFirst(m, newPriv);
      }
    }

    /** _ratchetDecryptImpl.  All work is done on a copy, committed only once the tag has
        verified.  saveFails: encrypting the state blob fails after that. */
    method RatchetDecrypt(peer: string, m: Msg, allowInit: bool, newPriv: Priv, saveFails: bool, pod: Pod)
      returns (r: Result<string, Reject>)
      requires Valid() && GoodCopies(peer, pod)
      modifies this
      ensures Valid() && OthersKept(peer, old(cache))
      ensures advances <= old(advances) + 2 * MAX_SKIP + 1
      ensures var d := Decrypt(old(Seen(peer, pod)), id, newPriv, m, allowInit);
        && r == (if d.Err? then Err(d.error) else if saveFails then Err(TagFailure) else Ok(d.value.1))
        && Seen(peer, pod) == SeenAfterReceive(old(Seen(peer, pod)), id, newPriv, m, allowInit)
        && local == (if r.Ok? then old(local)[peer := Stored(d.value.0)] else old(local))
      ensures var w := if BadHeader(m).Some? then old(writers)
                       else LoadWrites(old(writers), peer, old(peer in cache), old(StoredCopy(peer, pod)), pod);
        writers == if r.Ok? then SaveWrites(w, peer, Decrypt(old(Seen(peer, pod)), id, newPriv, m, allowInit).value.0, pod) else w
      ensures peer in old(cache) && r.Err? && !saveFails ==> cache == old(cache)
    {
      var copy, sel := SelectOnCopy(peer, m, allowInit, newPriv, pod);
      if copy != null { advances := advances + copy.advances; }
      if sel.Err? { return Err(sel.error); }
      var plain := Unseal(sel.value, m.nonce, m.cipher);
      if plain.None? { return Err(TagFailure); }
      Save(peer, copy, saveFails, pod);
      r := if saveFails then Err(TagFailure) else Ok(plain.value);
    }

    /** A reload of the page: the cache is gone, storage stays. */
    method Restart()
      modifies this`cache
      ensures Valid() && cache == map[] && local == old(local)
    {
      cache := map[];
    }
  }
}
