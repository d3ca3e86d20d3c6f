/** Which deliveries are accepted, and what a rejected one leaves behind (web/e2e.js:798-864). */
module Rejection {
  import opened Prelude
  import opened Crypto
  import opened Ratchet
  import opened Epochs
  import opened Sessions
  import opened Agreement
  import opened Conversation
  import Engine

  /** The message is, pn and the writing of its ratchet key aside, one the peer released that is open here as written. */
  ghost predicate OpensNow(w: World, role: Role, m: Msg, allowInit: bool) {
    && Counter(m.msgNum) && Counter(m.pn)
    && exists x :: x in Get(w, Peer(role)).sent && 1 <= x.epoch < |w.keys|
         && IsWriting(w.keys, m, x) && CanOpen(w, role, x, m.pub.text.form, allowInit)
  }

  /** In every reachable world, of all the network can deliver exactly these messages are accepted. */
  lemma AcceptedIff(w: World, role: Role, k: Priv, m: Msg, allowInit: bool)
    requires Reachable(w) && NewKey(w, k) && Deliverable(w, role, m, allowInit) && |w.keys| >= 1
    ensures Decrypt(Get(w, role).live, Identity(w, role), k, m, allowInit).Ok? <==> OpensNow(w, role, m, allowInit)
  {
    if Decrypt(Get(w, role).live, Identity(w, role), k, m, allowInit).Ok? {
      AcceptedIsAuthentic(w, role, k, m, allowInit);
      var x :| x in Get(w, Peer(role)).sent && 1 <= x.epoch < |w.keys| && IsWriting(w.keys, m, x);
      OpensIff(w, role, k, x, m.pub.text.form, m.pn.n, allowInit);
    }
    if OpensNow(w, role, m, allowInit) {
      var x :| x in Get(w, Peer(role)).sent && 1 <= x.epoch < |w.keys|
               && IsWriting(w.keys, m, x) && CanOpen(w, role, x, m.pub.text.form, allowInit);
      OpensIff(w, role, k, x, m.pub.text.form, m.pn.n, allowInit);
    }
  }

  // ---- Why a message is refused ----

  /** A number the header may carry. */
  predicate SafeInteger(x: Num) { x.Int? && 0 <= x.n <= 9007199254740991 }

  /** Which refusal comes before the tag is checked, for every session and header. */
  lemma RefusedBecause(s: Option<Session>, id: Priv, newPriv: Priv, m: Msg, allowInit: bool)
    ensures var r := Select(s, id, newPriv, m, allowInit);
      (if r.Err? then Some(r.error) else None) ==
      if m.pub.Missing? then Some(NoPub)
      else if !SafeInteger(m.msgNum) || !SafeInteger(m.pn) then Some(BadNumber)
      else if s.None? && !allowInit then Some(NoSession)
      else if m.pub.Malformed? then Some(BadKey)
      else if s.Some? && (exists i :: 0 <= i < |s.value.skipped| && Labelled(s.value.skipped[i], m.pub.text, m.msgNum.n)) then None
      else
        var same := s.Some? && s.value.their == m.pub.text;
        var next := if same then s.value.recvMsgNum else 0;
        if m.msgNum.n < next then Some(Consumed)
        else if m.msgNum.n > next + 20 then Some(SkipOverflow)
        else if same && s.value.recvChain.None? then Some(NoRecvChain)
        else None
  {
    if s.Some? && m.pub.PubOf? && Counter(m.msgNum) { BufferedIff(s.value.skipped, m.pub.text, m.msgNum.n); }
  }

  /** Past that, a message is refused exactly if its ciphertext is not sealed under the selected key and its nonce. */
  lemma RefusedByTagIff(s: Option<Session>, id: Priv, newPriv: Priv, m: Msg, allowInit: bool)
    requires Select(s, id, newPriv, m, allowInit).Ok?
    ensures var k := Select(s, id, newPriv, m, allowInit).value.1; var d := Decrypt(s, id, newPriv, m, allowInit);
      && (d == Err(TagFailure) <==> !(m.cipher.Sealed? && m.cipher.key == k && m.cipher.nonce == m.nonce))
      && (d.Ok? <==> d != Err(TagFailure)) && (d.Ok? ==> d.value.1 == m.cipher.plain)
  {
  }

  // ---- Accepting changes the session ----

  lemma SelectKeepsVer(s: Session, id: Priv, newPriv: Priv, m: Msg, allowInit: bool)
    requires Select(Some(s), id, newPriv, m, allowInit).Ok?
    ensures Select(Some(s), id, newPriv, m, allowInit).value.0.ver == s.ver
  {
    if !(m.pub.PubOf? && Buffered(s.skipped, m.pub.text, m.msgNum.n)) {
      if m.pub != PubOf(s.their) { RetireFrame(s, m.pn.n); }
      SkipFrame(Enter(Some(s), id, newPriv, m.pub, m.pn.n, allowInit).value, m.msgNum.n);
    }
  }

  lemma AcceptedCountsASave(s: Option<Session>, id: Priv, newPriv: Priv, m: Msg, allowInit: bool)
    requires Decrypt(s, id, newPriv, m, allowInit).Ok?
    ensures Some(Decrypt(s, id, newPriv, m, allowInit).value.0) != s
  {
    if s.Some? { SelectKeepsVer(s.value, id, newPriv, m, allowInit); }
  }

  // ---- Rejection ----

  /**
   In every reachable world, a delivery the caller sees rejected leaves storage and log alone, and
   the session as it was exactly unless the save breaks off and the message is one the peer released
   that is still open: such a message has already advanced the session.
   */
  lemma RejectedLeavesSessionIff(w: World, role: Role, k: Priv, m: Msg, allowInit: bool, saveFails: bool)
    requires Reachable(w) && NewKey(w, k) && Deliverable(w, role, m, allowInit) && |w.keys| >= 1
    requires Decrypt(Get(w, role).live, Identity(w, role), k, m, allowInit).Err? || saveFails
    ensures var before := Get(w, role);
      var after := Get(Apply(w, Receive(role, m, allowInit, k, saveFails)), role);
      && after.saved == before.saved && after.accepted == before.accepted && after.sent == before.sent
      && after.live == Engine.SeenAfterReceive(before.live, Identity(w, role), k, m, allowInit)
      && (after.live == before.live <==> !(saveFails && OpensNow(w, role, m, allowInit)))
  {
    AcceptedIff(w, role, k, m, allowInit);
    var live, id := Get(w, role).live, Identity(w, role);
    if Decrypt(live, id, k, m, allowInit).Ok? { AcceptedCountsASave(live, id, k, m, allowInit); }
  }
}
