/**
 The cryptography of web/e2e.js as a free term algebra.  X25519 agreement commutes,
 HKDF and HMAC outputs are distinct terms for distinct inputs, and AES-GCM opens a
 ciphertext only with the key and nonce that sealed it.
 */
module Crypto {
  import opened Prelude

  /** A private X25519 key, by name; its public key carries the same name.
      Negative names are the attacker's own keys. */
  type Priv = int

  predicate Honest(k: Priv) { k >= 0 }

  /** A public key as it travels: the private key it belongs to and how it is written.  Writing 0 is
      what exporting the key gives; base64 with other spare bits, with the other alphabet or with
      padding, and encodings of a key that agreement does not tell apart, are the others. */
  datatype Text = Text(key: Priv, form: nat)

  /** The output of X25519 agreement between two keys, independent of who computes it. */
  datatype Dh = Dh(lo: Priv, hi: Priv)

  function Agree(mine: Priv, theirs: Priv): Dh {
    if mine <= theirs then Dh(mine, theirs) else Dh(theirs, mine)
  }

  /** HKDF salted with a root key: first half is the next root key. */
  datatype RootKey = ZeroRoot | RootKey(salt: RootKey, dh: Dh)

  /** HKDF second half starts a chain; HMAC with 0x02 moves it one step. */
  datatype ChainKey = FromRoot(salt: RootKey, dh: Dh) | Next(prev: ChainKey)

  /** HMAC with 0x01 over a chain key. */
  datatype MsgKey = MsgKey(chain: ChainKey)

  datatype Cipher = Sealed(key: MsgKey, nonce: nat, plain: string) | Noise(bytes: seq<nat>)

  function Unseal(key: MsgKey, nonce: nat, c: Cipher): (r: Option<string>)
    ensures r.Some? <==> c == Sealed(key, nonce, if c.Sealed? then c.plain else "")
  {
    if c.Sealed? && c.key == key && c.nonce == nonce then Some(c.plain) else None
  }

  function Advance(ck: ChainKey, n: nat): ChainKey {
    if n == 0 then ck else Next(Advance(ck, n - 1))
  }

  function RootDepth(r: RootKey): nat {
    match r case ZeroRoot => 0 case RootKey(salt, _) => 1 + RootDepth(salt)
  }

  function Origin(ck: ChainKey): ChainKey {
    match ck case FromRoot(_, _) => ck case Next(p) => Origin(p)
  }

  function Steps(ck: ChainKey): nat {
    match ck case FromRoot(_, _) => 0 case Next(p) => 1 + Steps(p)
  }

  lemma {:induction false} AdvanceShape(ck: ChainKey, n: nat)
    ensures Origin(Advance(ck, n)) == Origin(ck)
    ensures Steps(Advance(ck, n)) == Steps(ck) + n
  {
    if n > 0 { AdvanceShape(ck, n - 1); }
  }

  lemma {:induction false} AdvanceAdds(ck: ChainKey, a: nat, b: nat)
    ensures Advance(Advance(ck, a), b) == Advance(ck, a + b)
  {
    if b > 0 { AdvanceAdds(ck, a, b - 1); }
  }

  // ---- What the attacker can compute ----

  predicate KnownDh(d: Dh) { !Honest(d.lo) || !Honest(d.hi) }

  /** A root key is computable iff every agreement in it involves an attacker key. */
  predicate KnownRoot(r: RootKey) {
    match r case ZeroRoot => true case RootKey(salt, dh) => KnownRoot(salt) && KnownDh(dh)
  }

  predicate KnownChain(ck: ChainKey) {
    match ck case FromRoot(salt, dh) => KnownRoot(salt) && KnownDh(dh) case Next(p) => KnownChain(p)
  }

  predicate KnownKey(k: MsgKey) { KnownChain(k.chain) }

  lemma {:induction false} KnownByOrigin(ck: ChainKey)
    ensures KnownChain(ck) <==> KnownChain(Origin(ck))
  {
    if ck.Next? { KnownByOrigin(ck.prev); }
  }
}
