/**
 The signing frame of web/dmsig.js: length-prefixed fields joined by 0x7c, a current and a
 legacy scheme, and what a verifying envelope says about the signed one.
 */
module Frame {
  import opened Prelude

  /** Byte strings, each element 0 to 255. */
  type Byte = int
  type Bytes = seq<Byte>

  const BAR: Byte := 0x7c

  // ---- Length headers ----

  /** A way to write a length in front of a field and read it back. */
  datatype Scheme = Scheme(width: nat, room: nat, put: nat -> Bytes, get: Bytes -> int)

  ghost predicate Sound(s: Scheme) {
    forall n: nat :: |s.put(n)| == s.width && (n < s.room ==> s.get(s.put(n)) == n)
  }

  /** The low 2 or 4 bytes of a length, most significant first. */
  function Put2(n: nat): Bytes { [n / 256 % 256, n % 256] }
  function Put4(n: nat): Bytes { [n / 0x100_0000 % 256, n / 0x1_0000 % 256, n / 256 % 256, n % 256] }

  function Get2(h: Bytes): int { if |h| == 2 then h[0] * 256 + h[1] else 0 }
  function Get4(h: Bytes): int {
    if |h| == 4 then h[0] * 0x100_0000 + h[1] * 0x1_0000 + h[2] * 256 + h[3] else 0
  }

  /** The legacy scheme, 2 bytes, and the current one, 4 bytes. */
  function Narrow(): Scheme { Scheme(2, 0x1_0000, Put2, Get2) }
  function Wide(): Scheme { Scheme(4, 0x1_0000_0000, Put4, Get4) }

  lemma GetPut4(n: nat)
    requires n < 0x1_0000_0000
    ensures Get4(Put4(n)) == n
  {
    assert n / 0x1_0000 == n / 0x100_0000 * 256 + n / 0x1_0000 % 256;
    assert n / 256 == n / 0x1_0000 * 256 + n / 256 % 256;
    assert n == n / 256 * 256 + n % 256;
  }

  lemma SchemesSound()
    ensures Sound(Narrow()) && Sound(Wide())
  {
    forall n: nat ensures |Put4(n)| == 4 && (n < 0x1_0000_0000 ==> Get4(Put4(n)) == n) {
      if n < 0x1_0000_0000 { GetPut4(n); }
    }
  }

  /** Both headers hold a length most significant byte first. */
  lemma HeadersAreBigEndian(n: nat)
    ensures n < 0x1_0000 ==>
      var h := Narrow().put(n); |h| == 2 && 0 <= h[0] < 256 && 0 <= h[1] < 256 && n == h[0] * 256 + h[1]
    ensures n < 0x1_0000_0000 ==>
      var h := Wide().put(n);
      && |h| == 4 && (forall i :: 0 <= i < 4 ==> 0 <= h[i] < 256)
      && n == h[0] * 0x100_0000 + h[1] * 0x1_0000 + h[2] * 256 + h[3]
  {
    if n < 0x1_0000_0000 { GetPut4(n); }
  }

  // ---- Frames ----

  function Chunk(p: Bytes, w: Scheme): Bytes { w.put(|p|) + p }

  function Framed(parts: seq<Bytes>, w: Scheme): Bytes
    requires parts != []
  {
    if |parts| == 1 then Chunk(parts[0], w)
    else Chunk(parts[0], w) + [BAR] + Framed(parts[1..], w)
  }

  /** The field a frame starts with, and what follows it. */
  function TakeField(bs: Bytes, w: Scheme): Option<(Bytes, Bytes)> {
    if |bs| < w.width then None
    else
      var end := w.width + w.get(bs[..w.width]);
      if end < w.width || |bs| < end then None else Some((bs[w.width..end], bs[end..]))
  }

  /** Split a frame back into count fields. */
  function Parse(bs: Bytes, count: nat, w: Scheme): Option<seq<Bytes>>
    requires count >= 1
    decreases count
  {
    var t := TakeField(bs, w);
    if t.None? then None
    else if count == 1 then (if t.value.1 == [] then Some([t.value.0]) else None)
    else if t.value.1 == [] || t.value.1[0] != BAR then None
    else
      var rest := Parse(t.value.1[1..], count - 1, w);
      if rest.None? then None else Some([t.value.0] + rest.value)
  }

  predicate Fits(parts: seq<Bytes>, w: Scheme) { forall i :: 0 <= i < |parts| ==> |parts[i]| < w.room }

  /** What a frame has after its first field. */
  function RestOf(parts: seq<Bytes>, w: Scheme): Bytes
    requires parts != []
  {
    if |parts| == 1 then [] else [BAR] + Framed(parts[1..], w)
  }

  lemma TakeChunk(p: Bytes, w: Scheme, tail: Bytes)
    requires Sound(w) && |p| < w.room
    ensures TakeField(Chunk(p, w) + tail, w) == Some((p, tail))
  {
    var bs := Chunk(p, w) + tail;
    assert bs[..w.width] == w.put(|p|);
    assert bs[w.width..w.width + |p|] == p && bs[w.width + |p|..] == tail;
  }

  lemma TakeFramed(parts: seq<Bytes>, w: Scheme)
    requires Sound(w) && parts != [] && Fits(parts, w)
    ensures TakeField(Framed(parts, w), w) == Some((parts[0], RestOf(parts, w)))
  {
    assert Framed(parts, w) == Chunk(parts[0], w) + RestOf(parts, w);
    TakeChunk(parts[0], w, RestOf(parts, w));
  }

  lemma ParseStep(bs: Bytes, p: Bytes, rest: Bytes, count: nat, w: Scheme)
    requires TakeField(bs, w) == Some((p, [BAR] + rest)) && count > 1
    ensures var r := Parse(rest, count - 1, w);
      Parse(bs, count, w) == if r.None? then None else Some([p] + r.value)
  {
    assert ([BAR] + rest)[1..] == rest;
  }

  lemma ParseEnd(bs: Bytes, p: Bytes, rest: Bytes, w: Scheme)
    requires TakeField(bs, w) == Some((p, rest))
    ensures Parse(bs, 1, w) == if rest == [] then Some([p]) else None
  {
  }

  lemma FramedCons(p: Bytes, rest: seq<Bytes>, w: Scheme)
    requires rest != []
    ensures Framed([p] + rest, w) == Chunk(p, w) + ([BAR] + Framed(rest, w))
  {
    assert ([p] + rest)[1..] == rest;
  }

  /** One more field in front of a frame that parses. */
  lemma ParsePrepend(p: Bytes, rest: seq<Bytes>, w: Scheme)
    requires Sound(w) && |p| < w.room && rest != []
    requires Parse(Framed(rest, w), |rest|, w) == Some(rest)
    ensures Parse(Framed([p] + rest, w), |rest| + 1, w) == Some([p] + rest)
  {
    FramedCons(p, rest, w);
    TakeChunk(p, w, [BAR] + Framed(rest, w));
    ParseStep(Framed([p] + rest, w), p, Framed(rest, w), |rest| + 1, w);
  }

  /** Every field's bytes can be recovered from a frame. */
  lemma {:induction false} ParseFramed(parts: seq<Bytes>, w: Scheme)
    requires Sound(w) && parts != [] && Fits(parts, w)
    ensures Parse(Framed(parts, w), |parts|, w) == Some(parts)
  {
    if |parts| > 1 {
      ParseFramed(parts[1..], w);
      ParsePrepend(parts[0], parts[1..], w);
      assert parts == [parts[0]] + parts[1..];
    } else {
      TakeFramed(parts, w);
      ParseEnd(Framed(parts, w), parts[0], [], w);
      assert parts == [parts[0]];
    }
  }

  /** A frame cannot be read as one of fewer fields. */
  lemma {:induction false} ParseFewer(parts: seq<Bytes>, count: nat, w: Scheme)
    requires Sound(w) && 1 <= count < |parts| && Fits(parts, w)
    ensures Parse(Framed(parts, w), count, w) == None
  {
    TakeFramed(parts, w);
    if count > 1 {
      ParseFewer(parts[1..], count - 1, w);
      ParseStep(Framed(parts, w), parts[0], Framed(parts[1..], w), count, w);
    } else {
      ParseEnd(Framed(parts, w), parts[0], RestOf(parts, w), w);
    }
  }

  lemma FramedInjective(a: seq<Bytes>, b: seq<Bytes>, w: Scheme)
    requires Sound(w) && a != [] && |a| == |b| && Fits(a, w) && Fits(b, w) && Framed(a, w) == Framed(b, w)
    ensures a == b
  {
    ParseFramed(a, w);
    ParseFramed(b, w);
  }

  /** Frames of different field counts never coincide. */
  lemma CountsDiffer(a: seq<Bytes>, b: seq<Bytes>, w: Scheme)
    requires Sound(w) && 1 <= |a| < |b| && Fits(a, w) && Fits(b, w)
    ensures Framed(a, w) != Framed(b, w)
  {
    ParseFramed(a, w);
    ParseFewer(b, |a|, w);
  }

  lemma StartsWithHeader(parts: seq<Bytes>, w: Scheme)
    requires parts != [] && Sound(w)
    ensures w.put(|parts[0]|) <= Framed(parts, w)
    ensures |parts| > 1 && parts[0] == [] ==> |Framed(parts, w)| > w.width && Framed(parts, w)[w.width] == BAR
  {
    assert Framed(parts, w) == Chunk(parts[0], w) + RestOf(parts, w);
  }

  lemma PrefixAt(h: Bytes, f: Bytes)
    requires h <= f
    ensures forall i :: 0 <= i < |h| ==> f[i] == h[i]
  {
  }

  /** No 4-byte frame whose first field is shorter than 0x7c00 bytes is a 2-byte frame. */
  lemma SchemesDiffer(a: seq<Bytes>, b: seq<Bytes>)
    requires |a| >= 1 && |b| >= 2 && Fits(b, Narrow()) && |a[0]| < 0x7c00
    ensures Framed(a, Wide()) != Framed(b, Narrow())
  {
    SchemesSound();
    StartsWithHeader(a, Wide());
    StartsWithHeader(b, Narrow());
    Heads(Framed(a, Wide()), |a[0]|, Framed(b, Narrow()), |b[0]|);
  }

  /** Zero high bytes of the one header read as an empty first field of the other. */
  lemma Heads(fa: Bytes, n: nat, fb: Bytes, l: nat)
    requires Put4(n) <= fa && n < 0x7c00 && Put2(l) <= fb && l < 0x1_0000
    requires l == 0 ==> |fb| > 2 && fb[2] == BAR
    ensures fa != fb
  {
    PrefixAt(Put4(n), fa);
    PrefixAt(Put2(l), fb);
    assert fa[0] == 0 && fa[1] == 0 && fa[2] < 0x7c;
    assert fb[0] == 0 && fb[1] == 0 ==> l == 0;
  }

  // ---- Canonical bytes ----

  /** An object's fields as UTF-8 text; an absent or null field is missing. */
  type Fields = map<string, Bytes>

  function FieldOf(obj: Fields, k: string): Bytes { if k in obj then obj[k] else [] }

  function Values(names: seq<string>, obj: Fields): (vs: seq<Bytes>)
    ensures |vs| == |names| && forall i :: 0 <= i < |vs| ==> vs[i] == FieldOf(obj, names[i])
  {
    seq(|names|, i requires 0 <= i < |names| => FieldOf(obj, names[i]))
  }

  const SIGNED: seq<string> :=
    ["from_webid", "message_id", "content", "nonce", "msg_num", "pn", "ratchet_pub", "x25519_pub",
     "e2e", "reply_to_id", "from_display_name", "timestamp"]
  const SIGNED_FANOUT: seq<string> :=
    ["from_webid", "message_id", "to_device_id", "content", "nonce", "msg_num", "pn", "ratchet_pub",
     "x25519_pub", "e2e"]
  const SIGNED_LEGACY: seq<string> :=
    ["from_webid", "message_id", "content", "nonce", "msg_num", "pn", "ratchet_pub", "x25519_pub", "timestamp"]
  const SIGNED_FANOUT_LEGACY: seq<string> :=
    ["from_webid", "message_id", "to_device_id", "content", "nonce", "msg_num", "pn", "ratchet_pub", "x25519_pub"]

  function Canonical(names: seq<string>, obj: Fields): Bytes
    requires names != []
  {
    Framed(Values(names, obj), Wide())
  }

  /** Nothing when a field is too long for a 2-byte header. */
  function CanonicalLegacy(names: seq<string>, obj: Fields): Option<Bytes>
    requires names != []
  {
    if exists i :: 0 <= i < |names| && |FieldOf(obj, names[i])| >= 65536 then None
    else Some(Framed(Values(names, obj), Narrow()))
  }

  // ---- Envelopes and ideal signatures ----

  /** An ideal signature names its signer and the bytes it covers. */
  datatype Sig = Sig(signer: string, over: Bytes)

  datatype Env = Env(top: Fields, payload: Fields, signer: Option<string>, sig: Option<Sig>)

  function FanoutObj(e: Env): Fields {
    var here := {"from_webid", "message_id", "to_device_id"};
    var nested := {"content", "nonce", "msg_num", "pn", "ratchet_pub", "x25519_pub", "e2e"};
    (map k | k in here && k in e.top :: e.top[k]) + (map k | k in nested && k in e.payload :: e.payload[k])
  }

  function DmBytes(e: Env): Bytes { Canonical(SIGNED, e.top) }
  function FanoutBytes(e: Env): Bytes { Canonical(SIGNED_FANOUT, FanoutObj(e)) }

  predicate Verify(e: Env, over: Bytes) {
    e.signer.Some? && e.sig == Some(Sig(e.signer.value, over))
  }

  predicate CurrentOnlyDm(e: Env) {
    || "e2e" in e.top
    || FieldOf(e.top, "reply_to_id") != []
    || FieldOf(e.top, "from_display_name") != []
  }

  predicate VerifyDm(e: Env) {
    var legacy := CanonicalLegacy(SIGNED_LEGACY, e.top);
    Verify(e, DmBytes(e)) || (!CurrentOnlyDm(e) && legacy.Some? && Verify(e, legacy.value))
  }

  predicate VerifyFanout(e: Env) {
    var legacy := CanonicalLegacy(SIGNED_FANOUT_LEGACY, FanoutObj(e));
    Verify(e, FanoutBytes(e)) || (!("e2e" in e.payload) && legacy.Some? && Verify(e, legacy.value))
  }

  // ---- The values behind the names ----

  lemma NineValues(names: seq<string>, obj: Fields)
    requires |names| == 9
    ensures Values(names, obj) ==
      [FieldOf(obj, names[0]), FieldOf(obj, names[1]), FieldOf(obj, names[2]), FieldOf(obj, names[3]), FieldOf(obj, names[4]),
       FieldOf(obj, names[5]), FieldOf(obj, names[6]), FieldOf(obj, names[7]), FieldOf(obj, names[8])]
  {
  }

  lemma TenValues(names: seq<string>, obj: Fields)
    requires |names| == 10
    ensures Values(names, obj) ==
      [FieldOf(obj, names[0]), FieldOf(obj, names[1]), FieldOf(obj, names[2]), FieldOf(obj, names[3]), FieldOf(obj, names[4]),
       FieldOf(obj, names[5]), FieldOf(obj, names[6]), FieldOf(obj, names[7]), FieldOf(obj, names[8]), FieldOf(obj, names[9])]
  {
  }

  lemma TwelveValues(names: seq<string>, obj: Fields)
    requires |names| == 12
    ensures Values(names, obj) ==
      [FieldOf(obj, names[0]), FieldOf(obj, names[1]), FieldOf(obj, names[2]), FieldOf(obj, names[3]), FieldOf(obj, names[4]),
       FieldOf(obj, names[5]), FieldOf(obj, names[6]), FieldOf(obj, names[7]), FieldOf(obj, names[8]), FieldOf(obj, names[9]),
       FieldOf(obj, names[10]), FieldOf(obj, names[11])]
  {
  }

  /** The twelve values a message signature covers, in their order. */
  lemma SignedValues(e: Env)
    ensures Values(SIGNED, e.top) ==
      [FieldOf(e.top, "from_webid"), FieldOf(e.top, "message_id"), FieldOf(e.top, "content"),
       FieldOf(e.top, "nonce"), FieldOf(e.top, "msg_num"), FieldOf(e.top, "pn"),
       FieldOf(e.top, "ratchet_pub"), FieldOf(e.top, "x25519_pub"), FieldOf(e.top, "e2e"),
       FieldOf(e.top, "reply_to_id"), FieldOf(e.top, "from_display_name"), FieldOf(e.top, "timestamp")]
  {
    TwelveValues(SIGNED, e.top);
  }

  /** The nine an older client's covers. */
  lemma SignedLegacyValues(e: Env)
    ensures Values(SIGNED_LEGACY, e.top) ==
      [FieldOf(e.top, "from_webid"), FieldOf(e.top, "message_id"), FieldOf(e.top, "content"),
       FieldOf(e.top, "nonce"), FieldOf(e.top, "msg_num"), FieldOf(e.top, "pn"),
       FieldOf(e.top, "ratchet_pub"), FieldOf(e.top, "x25519_pub"), FieldOf(e.top, "timestamp")]
  {
    NineValues(SIGNED_LEGACY, e.top);
  }

  /** The ten a device copy's signature covers: three of the envelope, the rest of its payload. */
  lemma FanoutValues(e: Env)
    ensures Values(SIGNED_FANOUT, FanoutObj(e)) ==
      [FieldOf(e.top, "from_webid"), FieldOf(e.top, "message_id"), FieldOf(e.top, "to_device_id"),
       FieldOf(e.payload, "content"), FieldOf(e.payload, "nonce"), FieldOf(e.payload, "msg_num"),
       FieldOf(e.payload, "pn"), FieldOf(e.payload, "ratchet_pub"), FieldOf(e.payload, "x25519_pub"),
       FieldOf(e.payload, "e2e")]
  {
    TenValues(SIGNED_FANOUT, FanoutObj(e));
    FanoutTop(e);
    FanoutPayload(e);
  }

  lemma FanoutLegacyValues(e: Env)
    ensures Values(SIGNED_FANOUT_LEGACY, FanoutObj(e)) ==
      [FieldOf(e.top, "from_webid"), FieldOf(e.top, "message_id"), FieldOf(e.top, "to_device_id"),
       FieldOf(e.payload, "content"), FieldOf(e.payload, "nonce"), FieldOf(e.payload, "msg_num"),
       FieldOf(e.payload, "pn"), FieldOf(e.payload, "ratchet_pub"), FieldOf(e.payload, "x25519_pub")]
  {
    NineValues(SIGNED_FANOUT_LEGACY, FanoutObj(e));
    FanoutTop(e);
    FanoutPayload(e);
  }

  lemma FanoutTop(e: Env)
    ensures FieldOf(FanoutObj(e), "from_webid") == FieldOf(e.top, "from_webid")
    ensures FieldOf(FanoutObj(e), "message_id") == FieldOf(e.top, "message_id")
    ensures FieldOf(FanoutObj(e), "to_device_id") == FieldOf(e.top, "to_device_id")
  {
  }

  lemma FanoutPayload(e: Env)
    ensures FieldOf(FanoutObj(e), "content") == FieldOf(e.payload, "content")
    ensures FieldOf(FanoutObj(e), "nonce") == FieldOf(e.payload, "nonce")
    ensures FieldOf(FanoutObj(e), "msg_num") == FieldOf(e.payload, "msg_num")
    ensures FieldOf(FanoutObj(e), "pn") == FieldOf(e.payload, "pn")
    ensures FieldOf(FanoutObj(e), "ratchet_pub") == FieldOf(e.payload, "ratchet_pub")
    ensures FieldOf(FanoutObj(e), "x25519_pub") == FieldOf(e.payload, "x25519_pub")
    ensures FieldOf(FanoutObj(e), "e2e") == FieldOf(e.payload, "e2e")
  {
  }

  // ---- What verifies ----

  /** A message envelope verifies exactly when it carries its signer's signature over the 4-byte frame of
      these twelve values, or has no newer field and carries one over the 2-byte frame of these nine. */
  lemma VerifyDmIff(e: Env)
    ensures
      VerifyDm(e) <==>
      && e.signer.Some? && e.sig.Some? && e.sig.value.signer == e.signer.value
      && (|| e.sig.value.over == Framed(
               [FieldOf(e.top, "from_webid"), FieldOf(e.top, "message_id"), FieldOf(e.top, "content"),
                FieldOf(e.top, "nonce"), FieldOf(e.top, "msg_num"), FieldOf(e.top, "pn"),
                FieldOf(e.top, "ratchet_pub"), FieldOf(e.top, "x25519_pub"), FieldOf(e.top, "e2e"),
                FieldOf(e.top, "reply_to_id"), FieldOf(e.top, "from_display_name"), FieldOf(e.top, "timestamp")], Wide())
          || (&& "e2e" !in e.top && FieldOf(e.top, "reply_to_id") == [] && FieldOf(e.top, "from_display_name") == []
              && Fits(
                   [FieldOf(e.top, "from_webid"), FieldOf(e.top, "message_id"), FieldOf(e.top, "content"),
                    FieldOf(e.top, "nonce"), FieldOf(e.top, "msg_num"), FieldOf(e.top, "pn"),
                    FieldOf(e.top, "ratchet_pub"), FieldOf(e.top, "x25519_pub"), FieldOf(e.top, "timestamp")], Narrow())
              && e.sig.value.over == Framed(
                   [FieldOf(e.top, "from_webid"), FieldOf(e.top, "message_id"), FieldOf(e.top, "content"),
                    FieldOf(e.top, "nonce"), FieldOf(e.top, "msg_num"), FieldOf(e.top, "pn"),
                    FieldOf(e.top, "ratchet_pub"), FieldOf(e.top, "x25519_pub"), FieldOf(e.top, "timestamp")], Narrow())))
  {
    SignedValues(e);
    SignedLegacyValues(e);
    LegacySomeIff(SIGNED_LEGACY, e.top);
  }

  /** The same for a device copy, whose signature also covers the device it is for. */
  lemma VerifyFanoutIff(e: Env)
    ensures
      VerifyFanout(e) <==>
      && e.signer.Some? && e.sig.Some? && e.sig.value.signer == e.signer.value
      && (|| e.sig.value.over == Framed(
               [FieldOf(e.top, "from_webid"), FieldOf(e.top, "message_id"), FieldOf(e.top, "to_device_id"),
                FieldOf(e.payload, "content"), FieldOf(e.payload, "nonce"), FieldOf(e.payload, "msg_num"),
                FieldOf(e.payload, "pn"), FieldOf(e.payload, "ratchet_pub"), FieldOf(e.payload, "x25519_pub"),
                FieldOf(e.payload, "e2e")], Wide())
          || (&& "e2e" !in e.payload
              && Fits(
                   [FieldOf(e.top, "from_webid"), FieldOf(e.top, "message_id"), FieldOf(e.top, "to_device_id"),
                    FieldOf(e.payload, "content"), FieldOf(e.payload, "nonce"), FieldOf(e.payload, "msg_num"),
                    FieldOf(e.payload, "pn"), FieldOf(e.payload, "ratchet_pub"), FieldOf(e.payload, "x25519_pub")], Narrow())
              && e.sig.value.over == Framed(
                   [FieldOf(e.top, "from_webid"), FieldOf(e.top, "message_id"), FieldOf(e.top, "to_device_id"),
                    FieldOf(e.payload, "content"), FieldOf(e.payload, "nonce"), FieldOf(e.payload, "msg_num"),
                    FieldOf(e.payload, "pn"), FieldOf(e.payload, "ratchet_pub"), FieldOf(e.payload, "x25519_pub")], Narrow())))
  {
    FanoutValues(e);
    FanoutLegacyValues(e);
    LegacySomeIff(SIGNED_FANOUT_LEGACY, FanoutObj(e));
  }

  /** Legacy bytes exist exactly when every value has a 2-byte length. */
  lemma LegacySomeIff(names: seq<string>, obj: Fields)
    requires names != []
    ensures CanonicalLegacy(names, obj) ==
      if Fits(Values(names, obj), Narrow()) then Some(Framed(Values(names, obj), Narrow())) else None
  {
    var vs := Values(names, obj);
    if !Fits(vs, Narrow()) {
      var i :| 0 <= i < |vs| && |vs[i]| >= 65536;
      assert |FieldOf(obj, names[i])| >= 65536;
    }
  }

  lemma LegacyFits(names: seq<string>, obj: Fields)
    requires names != [] && CanonicalLegacy(names, obj).Some?
    ensures Fits(Values(names, obj), Narrow())
  {
  }

  lemma CurrentIsNotLegacy(names: seq<string>, obj: Fields, oldNames: seq<string>, oldObj: Fields)
    requires |names| >= 1 && |oldNames| >= 2 && |FieldOf(obj, names[0])| < 0x7c00
    requires CanonicalLegacy(oldNames, oldObj).Some?
    ensures Canonical(names, obj) != CanonicalLegacy(oldNames, oldObj).value
  {
    LegacyFits(oldNames, oldObj);
    SchemesDiffer(Values(names, obj), Values(oldNames, oldObj));
  }

  /** Canonical bytes agree exactly when every named field does. */
  lemma CanonicalInjective(names: seq<string>, a: Fields, b: Fields)
    requires names != [] && Fits(Values(names, a), Wide()) && Fits(Values(names, b), Wide())
    ensures Canonical(names, a) == Canonical(names, b) <==> Values(names, a) == Values(names, b)
  {
    SchemesSound();
    if Canonical(names, a) == Canonical(names, b) {
      FramedInjective(Values(names, a), Values(names, b), Wide());
    }
  }

  lemma CanonicalCounts(few: seq<string>, a: Fields, many: seq<string>, b: Fields)
    requires 1 <= |few| < |many| && Fits(Values(few, a), Wide()) && Fits(Values(many, b), Wide())
    ensures Canonical(few, a) != Canonical(many, b)
  {
    SchemesSound();
    CountsDiffer(Values(few, a), Values(many, b), Wide());
  }

  /** An envelope carrying the signature signDm made for another one verifies exactly when
      it names the same signer and agrees with it on these twelve fields. */
  lemma DmSignatureBinds(e: Env, signed: Env, signer: string)
    requires e.sig == Some(Sig(signer, DmBytes(signed)))
    requires Fits(Values(SIGNED, e.top), Wide()) && Fits(Values(SIGNED, signed.top), Wide())
    requires |FieldOf(signed.top, "from_webid")| < 0x7c00
    ensures VerifyDm(e) <==>
      && e.signer == Some(signer)
      && FieldOf(e.top, "from_webid") == FieldOf(signed.top, "from_webid")
      && FieldOf(e.top, "message_id") == FieldOf(signed.top, "message_id")
      && FieldOf(e.top, "content") == FieldOf(signed.top, "content")
      && FieldOf(e.top, "nonce") == FieldOf(signed.top, "nonce")
      && FieldOf(e.top, "msg_num") == FieldOf(signed.top, "msg_num")
      && FieldOf(e.top, "pn") == FieldOf(signed.top, "pn")
      && FieldOf(e.top, "ratchet_pub") == FieldOf(signed.top, "ratchet_pub")
      && FieldOf(e.top, "x25519_pub") == FieldOf(signed.top, "x25519_pub")
      && FieldOf(e.top, "e2e") == FieldOf(signed.top, "e2e")
      && FieldOf(e.top, "reply_to_id") == FieldOf(signed.top, "reply_to_id")
      && FieldOf(e.top, "from_display_name") == FieldOf(signed.top, "from_display_name")
      && FieldOf(e.top, "timestamp") == FieldOf(signed.top, "timestamp")
  {
    DmBindsValues(e, signed, signer);
    SignedValues(e);
    SignedValues(signed);
  }

  lemma DmBindsValues(e: Env, signed: Env, signer: string)
    requires e.sig == Some(Sig(signer, DmBytes(signed)))
    requires Fits(Values(SIGNED, e.top), Wide()) && Fits(Values(SIGNED, signed.top), Wide())
    requires |FieldOf(signed.top, "from_webid")| < 0x7c00
    ensures VerifyDm(e) <==> e.signer == Some(signer) && Values(SIGNED, e.top) == Values(SIGNED, signed.top)
  {
    assert SIGNED[0] == "from_webid";
    if CanonicalLegacy(SIGNED_LEGACY, e.top).Some? {
      CurrentIsNotLegacy(SIGNED, signed.top, SIGNED_LEGACY, e.top);
    }
    CanonicalInjective(SIGNED, e.top, signed.top);
  }

  /** The same for a device copy: its ten fields, the target device among them. */
  lemma FanoutSignatureBinds(e: Env, signed: Env, signer: string)
    requires e.sig == Some(Sig(signer, FanoutBytes(signed)))
    requires Fits(Values(SIGNED_FANOUT, FanoutObj(e)), Wide()) && Fits(Values(SIGNED_FANOUT, FanoutObj(signed)), Wide())
    requires |FieldOf(signed.top, "from_webid")| < 0x7c00
    ensures VerifyFanout(e) <==>
      && e.signer == Some(signer)
      && FieldOf(e.top, "from_webid") == FieldOf(signed.top, "from_webid")
      && FieldOf(e.top, "message_id") == FieldOf(signed.top, "message_id")
      && FieldOf(e.top, "to_device_id") == FieldOf(signed.top, "to_device_id")
      && FieldOf(e.payload, "content") == FieldOf(signed.payload, "content")
      && FieldOf(e.payload, "nonce") == FieldOf(signed.payload, "nonce")
      && FieldOf(e.payload, "msg_num") == FieldOf(signed.payload, "msg_num")
      && FieldOf(e.payload, "pn") == FieldOf(signed.payload, "pn")
      && FieldOf(e.payload, "ratchet_pub") == FieldOf(signed.payload, "ratchet_pub")
      && FieldOf(e.payload, "x25519_pub") == FieldOf(signed.payload, "x25519_pub")
      && FieldOf(e.payload, "e2e") == FieldOf(signed.payload, "e2e")
  {
    FanoutTop(signed);
    FanoutBindsValues(e, signed, signer);
    FanoutValues(e);
    FanoutValues(signed);
  }

  lemma FanoutBindsValues(e: Env, signed: Env, signer: string)
    requires e.sig == Some(Sig(signer, FanoutBytes(signed)))
    requires Fits(Values(SIGNED_FANOUT, FanoutObj(e)), Wide()) && Fits(Values(SIGNED_FANOUT, FanoutObj(signed)), Wide())
    requires |FieldOf(FanoutObj(signed), "from_webid")| < 0x7c00
    ensures VerifyFanout(e) <==>
      e.signer == Some(signer) && Values(SIGNED_FANOUT, FanoutObj(e)) == Values(SIGNED_FANOUT, FanoutObj(signed))
  {
    assert SIGNED_FANOUT[0] == "from_webid";
    if CanonicalLegacy(SIGNED_FANOUT_LEGACY, FanoutObj(e)).Some? {
      CurrentIsNotLegacy(SIGNED_FANOUT, FanoutObj(signed), SIGNED_FANOUT_LEGACY, FanoutObj(e));
    }
    CanonicalInjective(SIGNED_FANOUT, FanoutObj(e), FanoutObj(signed));
  }

  /** Legacy bytes agree exactly when the values do in their order, whatever the fields are called. */
  lemma LegacyInjective(names: seq<string>, a: Fields, others: seq<string>, b: Fields)
    requires names != [] && |names| == |others| && CanonicalLegacy(others, b).Some?
    ensures CanonicalLegacy(names, a) == CanonicalLegacy(others, b) <==> Values(names, a) == Values(others, b)
  {
    SchemesSound();
    LegacyFits(others, b);
    var va, vb := Values(names, a), Values(others, b);
    if CanonicalLegacy(names, a) == CanonicalLegacy(others, b) {
      LegacyFits(names, a);
      FramedInjective(va, vb, Narrow());
    } else if va == vb {
      forall i | 0 <= i < |names| ensures |FieldOf(a, names[i])| < 65536 {
        assert va[i] == vb[i];
      }
    }
  }

  /** A signature an older client made for a message verifies exactly for the same signer, no newer
      field, and the same nine values. */
  lemma LegacyDmSignatureBinds(e: Env, signed: Env, signer: string)
    requires CanonicalLegacy(SIGNED_LEGACY, signed.top).Some?
    requires e.sig == Some(Sig(signer, CanonicalLegacy(SIGNED_LEGACY, signed.top).value))
    requires |FieldOf(e.top, "from_webid")| < 0x7c00
    ensures VerifyDm(e) <==>
      && e.signer == Some(signer)
      && "e2e" !in e.top && FieldOf(e.top, "reply_to_id") == [] && FieldOf(e.top, "from_display_name") == []
      && FieldOf(e.top, "from_webid") == FieldOf(signed.top, "from_webid")
      && FieldOf(e.top, "message_id") == FieldOf(signed.top, "message_id")
      && FieldOf(e.top, "content") == FieldOf(signed.top, "content")
      && FieldOf(e.top, "nonce") == FieldOf(signed.top, "nonce")
      && FieldOf(e.top, "msg_num") == FieldOf(signed.top, "msg_num")
      && FieldOf(e.top, "pn") == FieldOf(signed.top, "pn")
      && FieldOf(e.top, "ratchet_pub") == FieldOf(signed.top, "ratchet_pub")
      && FieldOf(e.top, "x25519_pub") == FieldOf(signed.top, "x25519_pub")
      && FieldOf(e.top, "timestamp") == FieldOf(signed.top, "timestamp")
  {
    SignedLegacyValues(e);
    SignedLegacyValues(signed);
    assert SIGNED[0] == "from_webid";
    CurrentIsNotLegacy(SIGNED, e.top, SIGNED_LEGACY, signed.top);
    LegacyInjective(SIGNED_LEGACY, e.top, SIGNED_LEGACY, signed.top);
  }

  /** It passes for a device copy's exactly for the same signer, no e2e, and the same nine values in
      their order, although the third to ninth then stand for other fields. */
  lemma LegacyDmAsFanout(e: Env, signed: Env, signer: string)
    requires CanonicalLegacy(SIGNED_LEGACY, signed.top).Some?
    requires e.sig == Some(Sig(signer, CanonicalLegacy(SIGNED_LEGACY, signed.top).value))
    requires |FieldOf(e.top, "from_webid")| < 0x7c00
    ensures VerifyFanout(e) <==>
      && e.signer == Some(signer) && "e2e" !in e.payload
      && FieldOf(e.top, "from_webid") == FieldOf(signed.top, "from_webid")
      && FieldOf(e.top, "message_id") == FieldOf(signed.top, "message_id")
      && FieldOf(e.top, "to_device_id") == FieldOf(signed.top, "content")
      && FieldOf(e.payload, "content") == FieldOf(signed.top, "nonce")
      && FieldOf(e.payload, "nonce") == FieldOf(signed.top, "msg_num")
      && FieldOf(e.payload, "msg_num") == FieldOf(signed.top, "pn")
      && FieldOf(e.payload, "pn") == FieldOf(signed.top, "ratchet_pub")
      && FieldOf(e.payload, "ratchet_pub") == FieldOf(signed.top, "x25519_pub")
      && FieldOf(e.payload, "x25519_pub") == FieldOf(signed.top, "timestamp")
  {
    FanoutTop(e);
    FanoutLegacyValues(e);
    SignedLegacyValues(signed);
    assert SIGNED_FANOUT[0] == "from_webid";
    CurrentIsNotLegacy(SIGNED_FANOUT, FanoutObj(e), SIGNED_LEGACY, signed.top);
    LegacyInjective(SIGNED_FANOUT_LEGACY, FanoutObj(e), SIGNED_LEGACY, signed.top);
  }

  lemma LegacyFanoutSignatureBinds(e: Env, signed: Env, signer: string)
    requires CanonicalLegacy(SIGNED_FANOUT_LEGACY, FanoutObj(signed)).Some?
    requires e.sig == Some(Sig(signer, CanonicalLegacy(SIGNED_FANOUT_LEGACY, FanoutObj(signed)).value))
    requires |FieldOf(e.top, "from_webid")| < 0x7c00
    ensures VerifyFanout(e) <==>
      && e.signer == Some(signer) && "e2e" !in e.payload
      && FieldOf(e.top, "from_webid") == FieldOf(signed.top, "from_webid")
      && FieldOf(e.top, "message_id") == FieldOf(signed.top, "message_id")
      && FieldOf(e.top, "to_device_id") == FieldOf(signed.top, "to_device_id")
      && FieldOf(e.payload, "content") == FieldOf(signed.payload, "content")
      && FieldOf(e.payload, "nonce") == FieldOf(signed.payload, "nonce")
      && FieldOf(e.payload, "msg_num") == FieldOf(signed.payload, "msg_num")
      && FieldOf(e.payload, "pn") == FieldOf(signed.payload, "pn")
      && FieldOf(e.payload, "ratchet_pub") == FieldOf(signed.payload, "ratchet_pub")
      && FieldOf(e.payload, "x25519_pub") == FieldOf(signed.payload, "x25519_pub")
  {
    FanoutTop(e);
    FanoutLegacyValues(e);
    FanoutLegacyValues(signed);
    assert SIGNED_FANOUT[0] == "from_webid";
    CurrentIsNotLegacy(SIGNED_FANOUT, FanoutObj(e), SIGNED_FANOUT_LEGACY, FanoutObj(signed));
    LegacyInjective(SIGNED_FANOUT_LEGACY, FanoutObj(e), SIGNED_FANOUT_LEGACY, FanoutObj(signed));
  }

  lemma LegacyFanoutAsDm(e: Env, signed: Env, signer: string)
    requires CanonicalLegacy(SIGNED_FANOUT_LEGACY, FanoutObj(signed)).Some?
    requires e.sig == Some(Sig(signer, CanonicalLegacy(SIGNED_FANOUT_LEGACY, FanoutObj(signed)).value))
    requires |FieldOf(e.top, "from_webid")| < 0x7c00
    ensures VerifyDm(e) <==>
      && e.signer == Some(signer)
      && "e2e" !in e.top && FieldOf(e.top, "reply_to_id") == [] && FieldOf(e.top, "from_display_name") == []
      && FieldOf(e.top, "from_webid") == FieldOf(signed.top, "from_webid")
      && FieldOf(e.top, "message_id") == FieldOf(signed.top, "message_id")
      && FieldOf(e.top, "content") == FieldOf(signed.top, "to_device_id")
      && FieldOf(e.top, "nonce") == FieldOf(signed.payload, "content")
      && FieldOf(e.top, "msg_num") == FieldOf(signed.payload, "nonce")
      && FieldOf(e.top, "pn") == FieldOf(signed.payload, "msg_num")
      && FieldOf(e.top, "ratchet_pub") == FieldOf(signed.payload, "pn")
      && FieldOf(e.top, "x25519_pub") == FieldOf(signed.payload, "ratchet_pub")
      && FieldOf(e.top, "timestamp") == FieldOf(signed.payload, "x25519_pub")
  {
    SignedLegacyValues(e);
    FanoutLegacyValues(signed);
    assert SIGNED[0] == "from_webid";
    CurrentIsNotLegacy(SIGNED, e.top, SIGNED_FANOUT_LEGACY, FanoutObj(signed));
    LegacyInjective(SIGNED_LEGACY, e.top, SIGNED_FANOUT_LEGACY, FanoutObj(signed));
  }

  /** A message signature of the current scheme never passes for a device copy's. */
  lemma DmIsNotFanout(e: Env, signed: Env, signer: string)
    requires Fits(Values(SIGNED, signed.top), Wide()) && Fits(Values(SIGNED_FANOUT, FanoutObj(e)), Wide())
    requires |FieldOf(signed.top, "from_webid")| < 0x7c00
    requires e.sig == Some(Sig(signer, DmBytes(signed)))
    ensures !VerifyFanout(e)
  {
    assert SIGNED[0] == "from_webid";
    CanonicalCounts(SIGNED_FANOUT, FanoutObj(e), SIGNED, signed.top);
    if CanonicalLegacy(SIGNED_FANOUT_LEGACY, FanoutObj(e)).Some? {
      CurrentIsNotLegacy(SIGNED, signed.top, SIGNED_FANOUT_LEGACY, FanoutObj(e));
    }
  }

  /** Nor such a signature of a device copy for a message's. */
  lemma FanoutIsNotDm(e: Env, signed: Env, signer: string)
    requires Fits(Values(SIGNED, e.top), Wide()) && Fits(Values(SIGNED_FANOUT, FanoutObj(signed)), Wide())
    requires |FieldOf(signed.top, "from_webid")| < 0x7c00
    requires e.sig == Some(Sig(signer, FanoutBytes(signed)))
    ensures !VerifyDm(e)
  {
    FanoutTop(signed);
    assert SIGNED_FANOUT[0] == "from_webid";
    CanonicalCounts(SIGNED_FANOUT, FanoutObj(signed), SIGNED, e.top);
    if CanonicalLegacy(SIGNED_LEGACY, e.top).Some? {
      CurrentIsNotLegacy(SIGNED_FANOUT, FanoutObj(signed), SIGNED_LEGACY, e.top);
    }
  }

  // ---- The bound on from_webid is tight ----

  function Empties(n: nat): seq<Bytes> { Repeat([], n) }

  lemma {:induction false} EmptiesTail(n: nat, w: Scheme)
    requires n >= 1 && Sound(w)
    ensures |Framed(Empties(n), w)| == n * w.width + (n - 1)
  {
    if n > 1 {
      assert Empties(n)[1..] == Empties(n - 1);
      EmptiesTail(n - 1, w);
      assert n * w.width == (n - 1) * w.width + w.width;
    }
  }

  lemma {:induction false} LeadingEmpties(n: nat, tail: Bytes)
    requires |tail| < 0x1_0000
    ensures var f := Framed(Empties(n) + [tail], Narrow());
      && |f| == 3 * n + 2 + |tail| && f[3 * n + 2..] == tail
      && (n >= 2 ==> f[..4] == [0, 0, BAR, 0])
  {
    var parts := Empties(n) + [tail];
    if n > 0 {
      assert parts[1..] == Empties(n - 1) + [tail];
      LeadingEmpties(n - 1, tail);
      var rest := Framed(parts[1..], Narrow());
      assert Framed(parts, Narrow()) == [0, 0, BAR] + rest;
      if n >= 2 {
        assert parts[1] == [];
        assert rest == Chunk([], Narrow()) + [BAR] + Framed(parts[1..][1..], Narrow());
        assert rest[0] == 0;
      }
    }
  }

  lemma FirstOfMany(d: Bytes, n: nat, w: Scheme)
    requires n >= 1
    ensures Framed([d] + Empties(n), w) == w.put(|d|) + d + ([BAR] + Framed(Empties(n), w))
  {
    assert ([d] + Empties(n))[1..] == Empties(n);
  }

  lemma Cut(f: Bytes, k: nat, rest: Bytes)
    requires |f| == 4 + k + |rest| && f[4 + k..] == rest
    ensures f == f[..4] + f[4..4 + k] + rest
  {
  }

  lemma Suffix(f: Bytes, at: nat, tail: Bytes, pad: nat, rest: Bytes)
    requires at <= |f| && f[at..] == tail && tail == Repeat(0, pad) + rest
    ensures |f| == at + pad + |rest| && f[at + pad..] == rest
  {
    assert f[at + pad..] == tail[pad..];
  }

  /** Eleven empty fields after a current frame's first. */
  function TightRest(): Bytes { [BAR] + Framed(Empties(11), Wide()) }

  /** Eight empty legacy fields and a ninth reaching to the end. */
  function TightLegacy(): seq<Bytes> { Empties(8) + [Repeat(0, 31722) + TightRest()] }

  lemma TightTail(tail: Bytes)
    requires tail == Repeat(0, 31722) + TightRest()
    ensures |TightRest()| == 55 && |tail| == 31777
  {
    SchemesSound();
    EmptiesTail(11, Wide());
  }

  /** A current frame with a from_webid of 0x7c00 bytes and eleven empty fields. */
  lemma TightCurrent(d: Bytes)
    requires |d| == 0x7c00
    ensures var a := [d] + Empties(11);
      |a| == 12 && Fits(a, Wide()) && Framed(a, Wide()) == Put4(0x7c00) + d + TightRest()
  {
    FirstOfMany(d, 11, Wide());
  }

  lemma TightHead(f: Bytes, rest: Bytes)
    requires |f| == 4 + 0x7c00 + |rest|
    requires f[..4] == [0, 0, BAR, 0] && f[4 + 0x7c00..] == rest
    ensures f == Put4(0x7c00) + f[4..4 + 0x7c00] + rest
  {
    Cut(f, 0x7c00, rest);
    assert Put4(0x7c00) == [0, 0, BAR, 0];
  }

  /** Where the parts of the legacy frame lie. */
  lemma TightFramed(f: Bytes)
    requires f == Framed(TightLegacy(), Narrow())
    ensures |f| == 4 + 0x7c00 + |TightRest()| && f[..4] == [0, 0, BAR, 0] && f[4 + 0x7c00..] == TightRest()
  {
    var tail := Repeat(0, 31722) + TightRest();
    TightTail(tail);
    LeadingEmpties(8, tail);
    Suffix(f, 26, tail, 31722, TightRest());
  }

  lemma TightLegacyFits()
    ensures |TightLegacy()| == 9 && Fits(TightLegacy(), Narrow())
  {
    TightTail(Repeat(0, 31722) + TightRest());
  }

  /** With a from_webid of exactly 0x7c00 bytes a current frame can equal a legacy one. */
  lemma BoundIsTight() returns (a: seq<Bytes>, b: seq<Bytes>)
    ensures |a| == 12 && Fits(a, Wide()) && |a[0]| == 0x7c00
    ensures |b| == 9 && Fits(b, Narrow()) && Framed(a, Wide()) == Framed(b, Narrow())
  {
    b := TightLegacy();
    TightLegacyFits();
    var f := Framed(b, Narrow());
    TightFramed(f);
    var d := f[4..4 + 0x7c00];
    TightHead(f, TightRest());
    TightCurrent(d);
    a := [d] + Empties(11);
  }

  // ---- The buffer that is filled ----

  lemma {:induction false} FramedAppend(parts: seq<Bytes>, p: Bytes, w: Scheme)
    requires parts != []
    ensures Framed(parts + [p], w) == Framed(parts, w) + [BAR] + Chunk(p, w)
  {
    var more := parts + [p];
    if |parts| == 1 {
      assert more[1..] == [p];
    } else {
      assert more[1..] == parts[1..] + [p];
      FramedAppend(parts[1..], p, w);
    }
  }

  /** The frame of the first n parts, empty when there are none. */
  function FramedFirst(parts: seq<Bytes>, n: nat, w: Scheme): Bytes
    requires n <= |parts|
  {
    if n == 0 then [] else Framed(parts[..n], w)
  }

  lemma FramedNext(parts: seq<Bytes>, n: nat, w: Scheme)
    requires n < |parts|
    ensures FramedFirst(parts, n + 1, w) ==
      FramedFirst(parts, n, w) + (if n > 0 then [BAR] else []) + Chunk(parts[n], w)
  {
    if n > 0 {
      assert parts[..n + 1] == parts[..n] + [parts[n]];
      FramedAppend(parts[..n], parts[n], w);
    }
  }

  /** Copy bytes into a buffer. */
  method SetAt(out: array<Byte>, p: Bytes, off: nat)
    requires off + |p| <= out.Length
    modifies out
    ensures out[..off + |p|] == old(out[..off]) + p
  {
    var i := 0;
    while i < |p|
      invariant 0 <= i <= |p| && out[..off + i] == old(out[..off]) + p[..i]
    {
      out[off + i] := p[i];
      i := i + 1;
    }
    assert p[..i] == p;
  }

  /** The chunk lengths and the bars between them. */
  method FrameSize(parts: seq<Bytes>, w: Scheme) returns (total: nat)
    requires parts != [] && Sound(w)
    ensures total == |Framed(parts, w)|
  {
    var sum, i := 0, 0;
    while i < |parts|
      invariant 0 <= i <= |parts| && |FramedFirst(parts, i, w)| == sum + (if i == 0 then 0 else i - 1)
    {
      FramedNext(parts, i, w);
      sum := sum + (w.width + |parts[i]|);
      i := i + 1;
    }
    assert parts[..i] == parts;
    total := sum + (|parts| - 1);
  }

  /** _canonicalP: size the buffer, then fill it chunk by chunk. */
  method CanonicalLoop(parts: seq<Bytes>, w: Scheme) returns (out: array<Byte>)
    requires parts != [] && Sound(w)
    ensures fresh(out) && out[..] == Framed(parts, w)
  {
    var total := FrameSize(parts, w);
    out := new Byte[total](i => 0);
    var off, n := 0, 0;
    while n < |parts|
      invariant 0 <= n <= |parts| && 0 <= off <= out.Length
      invariant off == |FramedFirst(parts, n, w)| && out[..off] == FramedFirst(parts, n, w)
    {
      FramedNext(parts, n, w);
      FramedFits(parts, n + 1, w);
      if n > 0 {
        SetAt(out, [BAR], off);
        off := off + 1;
      }
      SetAt(out, Chunk(parts[n], w), off);
      off := off + w.width + |parts[n]|;
      n := n + 1;
    }
    assert parts[..n] == parts;
    assert out[..off] == out[..];
  }

  lemma {:induction false} FramedFits(parts: seq<Bytes>, n: nat, w: Scheme)
    requires n <= |parts| && parts != []
    ensures |FramedFirst(parts, n, w)| <= |Framed(parts, w)|
    decreases |parts| - n
  {
    if n == |parts| {
      assert parts[..n] == parts;
    } else {
      FramedNext(parts, n, w);
      FramedFits(parts, n + 1, w);
    }
  }
}
