/**
 Settings and mutes shared by the devices of one account (web/account-sync.js:55-144) and
 the account's record at the gateway
 (proxion-messenger-core/src/proxion_messenger_core/_gateway_misc.py:390-455).
 */
module AccountSync {
  import opened Prelude

  const SYNCED_PREFS: seq<string> := ["proxion_receipts_enabled", "proxion_link_previews_enabled", "proxion_locale", "proxion_theme"]
  const MAX_PREF_LEN: nat := 32
  const MAX_MUTES: nat := 2000
  const MAX_THREAD_ID: nat := 256

  datatype Device = Device(
    store: map<string, string>,  // local settings
    last: map<string, string>,   // the value last exchanged with the account
    muted: seq<string>,          // a set in insertion order
    seeded: bool)                // a snapshot was applied before

  datatype Account = Account(prefs: map<string, string>, mutes: seq<string>)

  /** What a snapshot holds under a key: text, or something else. */
  datatype PrefValue = Text(s: string) | NotText

  datatype Snapshot = Snapshot(prefs: map<string, PrefValue>, mutes: seq<string>)

  datatype Command = SetPref(key: string, value: string) | SetMute(tid: string, muted: bool)

  /** A string's length as JavaScript counts it, in UTF-16 units; the gateway counts characters. */
  function Units(s: string): (n: nat)
    ensures n >= |s|
  {
    if s == "" then 0 else Units(s[1..]) + if s[0] as int >= 0x1_0000 then 2 else 1
  }

  function Get<T>(m: map<string, T>, k: string): Option<T> { if k in m then Some(m[k]) else None }

  /** A missing setting counts as the empty one. */
  function Value(m: map<string, string>, k: string): string { if k in m then m[k] else "" }

  // ---- One device ----

  function Pushed(d: Device, k: string): Device { d.(last := d.last[k := Value(d.store, k)]) }

  /** Take over a value from the account. */
  function Taken(d: Device, k: string, v: PrefValue): Device {
    if v.NotText? || Units(v.s) > MAX_PREF_LEN then d
    else
      d.(last := d.last[k := v.s],
         store := if v.s == "" then d.store - {k} else d.store[k := v.s])
  }

  /** Changed here since the last exchange. */
  predicate Pending(d: Device, k: string) {
    k in d.last && Value(d.store, k) != d.last[k]
  }

  predicate Pushes(d: Device, k: string, snap: Snapshot) {
    Pending(d, k) || (k !in snap.prefs && k in d.store)
  }

  function SyncKey(d: Device, k: string, snap: Snapshot): Device {
    if Pushes(d, k, snap) then Pushed(d, k)
    else if k in snap.prefs then Taken(d, k, snap.prefs[k])
    else d
  }

  function SyncKeys(d: Device, keys: seq<string>, snap: Snapshot): Device {
    if keys == [] then d
    else SyncKey(SyncKeys(d, keys[..|keys| - 1], snap), keys[|keys| - 1], snap)
  }

  function KeyCommands(d: Device, keys: seq<string>, snap: Snapshot): seq<Command> {
    if keys == [] then []
    else
      var front, k := keys[..|keys| - 1], keys[|keys| - 1];
      var rest := KeyCommands(d, front, snap);
      if Pushes(d, k, snap) then rest + [SetPref(k, Value(d.store, k))] else rest
  }

  /** The keys whose stored value the snapshot changes. */
  function ChangedKeys(d: Device, keys: seq<string>, snap: Snapshot): seq<string> {
    if keys == [] then []
    else
      var rest, k := ChangedKeys(d, keys[..|keys| - 1], snap), keys[|keys| - 1];
      if Get(SyncKey(d, k, snap).store, k) != Get(d.store, k) then rest + [k] else rest
  }

  /** The threads of ts that are not in others, in order. */
  function Except(ts: seq<string>, others: seq<string>): seq<string> {
    if ts == [] then []
    else
      var rest := Except(ts[..|ts| - 1], others);
      if ts[|ts| - 1] in others then rest else rest + [ts[|ts| - 1]]
  }

  function Mutes(ts: seq<string>): seq<Command> {
    seq(|ts|, i requires 0 <= i < |ts| => SetMute(ts[i], true))
  }

  /** The first snapshot merges both ways; later ones are the truth. */
  function SyncMutes(d: Device, snap: Snapshot): Device {
    var server := Except(snap.mutes, [""]);
    var kept := if d.seeded then Except(d.muted, Except(d.muted, server)) else d.muted;
    d.(muted := kept + Except(server, d.muted), seeded := true)
  }

  function MuteCommands(d: Device, snap: Snapshot): seq<Command> {
    if d.seeded then [] else Mutes(Except(d.muted, Except(snap.mutes, [""])))
  }

  function Synced(d: Device, snap: Snapshot): Device {
    SyncMutes(SyncKeys(d, SYNCED_PREFS, snap), snap)
  }

  function Commands(d: Device, snap: Snapshot): seq<Command> {
    KeyCommands(d, SYNCED_PREFS, snap) + MuteCommands(d, snap)
  }

  // ---- The account ----

  function Serve(a: Account, c: Command): Account {
    match c
    case SetPref(k, v) => if k in SYNCED_PREFS && |v| <= MAX_PREF_LEN then a.(prefs := a.prefs[k := v]) else a
    case SetMute(tid, muted) =>
      if !(0 < |tid| <= MAX_THREAD_ID) then a
      else if !muted then a.(mutes := Except(a.mutes, [tid]))
      else if |a.mutes| >= MAX_MUTES || tid in a.mutes then a
      else a.(mutes := a.mutes + [tid])
  }

  function ServeAll(a: Account, cs: seq<Command>): Account {
    if cs == [] then a else Serve(ServeAll(a, cs[..|cs| - 1]), cs[|cs| - 1])
  }

  function SnapshotOf(a: Account): Snapshot {
    Snapshot(map k | k in a.prefs :: Text(a.prefs[k]), a.mutes)
  }

  /** What the gateway takes: these four settings up to 32 characters; thread ids of 1 to 256 characters, new
      ones up to 2000 mutes. */
  lemma ServeTakesIff(a: Account, c: Command)
    ensures c.SetPref? ==>
      Serve(a, c) == if |c.value| <= 32 && (c.key == "proxion_receipts_enabled" || c.key == "proxion_link_previews_enabled"
                                            || c.key == "proxion_locale" || c.key == "proxion_theme")
                     then a.(prefs := a.prefs[c.key := c.value]) else a
    ensures c.SetMute? ==>
      && Serve(a, c).prefs == a.prefs
      && forall t :: t in Serve(a, c).mutes <==>
           if t != c.tid || |t| < 1 || |t| > 256 then t in a.mutes
           else c.muted && (t in a.mutes || |a.mutes| < 2000)
  {
    if c.SetMute? { ExceptMembers(a.mutes, [c.tid]); }
  }

  /** What the gateway's own limits keep. */
  ghost predicate Kept(a: Account) {
    && (forall k :: k in a.prefs ==> |a.prefs[k]| <= MAX_PREF_LEN)
    && "" !in a.mutes && |a.mutes| <= MAX_MUTES
  }

  lemma {:induction false} ServeAllKept(a: Account, cs: seq<Command>)
    requires Kept(a)
    ensures Kept(ServeAll(a, cs))
  {
    if cs != [] {
      var before := ServeAll(a, cs[..|cs| - 1]);
      ServeAllKept(a, cs[..|cs| - 1]);
      match cs[|cs| - 1]
      case SetPref(k, v) =>
      case SetMute(tid, muted) =>
        ExceptMembers(before.mutes, [tid]);
    }
  }

  lemma {:induction false} ExceptMembers(ts: seq<string>, others: seq<string>)
    ensures forall t :: t in Except(ts, others) <==> t in ts && t !in others
    ensures |Except(ts, others)| <= |ts|
  {
    if ts != [] {
      ExceptMembers(ts[..|ts| - 1], others);
      assert ts == ts[..|ts| - 1] + [ts[|ts| - 1]];
    }
  }

  // ---- One snapshot, key by key ----

  lemma SyncKeyFrame(d: Device, k: string, other: string, snap: Snapshot)
    requires k != other
    ensures Get(SyncKey(d, k, snap).store, other) == Get(d.store, other)
    ensures Get(SyncKey(d, k, snap).last, other) == Get(d.last, other)
  {
  }

  lemma SyncKeyDepends(d: Device, e: Device, k: string, snap: Snapshot)
    requires Get(d.store, k) == Get(e.store, k) && Get(d.last, k) == Get(e.last, k)
    ensures Pushes(d, k, snap) == Pushes(e, k, snap) && Value(d.store, k) == Value(e.store, k)
    ensures Get(SyncKey(d, k, snap).store, k) == Get(SyncKey(e, k, snap).store, k)
    ensures Get(SyncKey(d, k, snap).last, k) == Get(SyncKey(e, k, snap).last, k)
  {
  }

  predicate NoRepeats(keys: seq<string>) {
    forall i, j :: 0 <= i < j < |keys| ==> keys[i] != keys[j]
  }

  /** The keys are synced independently of one another. */
  lemma {:induction false} SyncKeysAt(d: Device, keys: seq<string>, snap: Snapshot, k: string)
    requires NoRepeats(keys)
    ensures var e := if k in keys then SyncKey(d, k, snap) else d;
      && Get(SyncKeys(d, keys, snap).store, k) == Get(e.store, k)
      && Get(SyncKeys(d, keys, snap).last, k) == Get(e.last, k)
    ensures SyncKeys(d, keys, snap).muted == d.muted && SyncKeys(d, keys, snap).seeded == d.seeded
  {
    if keys != [] {
      var front, last := keys[..|keys| - 1], keys[|keys| - 1];
      SyncKeysAt(d, front, snap, k);
      assert keys == front + [last];
      var before := SyncKeys(d, front, snap);
      if k == last {
        assert k !in front;
        SyncKeyDepends(before, d, k, snap);
      } else {
        SyncKeyFrame(before, last, k, snap);
      }
    }
  }

  lemma ServePref(a: Account, key: string, v: string, k: string)
    requires key in SYNCED_PREFS
    ensures Get(Serve(a, SetPref(key, v)).prefs, k) ==
      if k == key && |v| <= MAX_PREF_LEN then Some(v) else Get(a.prefs, k)
    ensures Serve(a, SetPref(key, v)).mutes == a.mutes
  {
  }

  /** Syncing a key leaves the other settings, so the stored settings change exactly if that one does. */
  lemma SetChanges(d: Device, k: string, snap: Snapshot)
    ensures SyncKey(d, k, snap).store != d.store <==> Get(SyncKey(d, k, snap).store, k) != Get(d.store, k)
  {
    if Get(SyncKey(d, k, snap).store, k) == Get(d.store, k) {
      assert SyncKey(d, k, snap).store == d.store;
    }
  }

  lemma {:induction false} ChangedKeysMembers(d: Device, keys: seq<string>, snap: Snapshot, k: string)
    ensures k in ChangedKeys(d, keys, snap) <==> k in keys && Get(SyncKey(d, k, snap).store, k) != Get(d.store, k)
  {
    if keys != [] {
      ChangedKeysMembers(d, keys[..|keys| - 1], snap, k);
      assert keys == keys[..|keys| - 1] + [keys[|keys| - 1]];
    }
  }

  /** The keys reported are exactly those whose stored value the snapshot changed. */
  lemma ReportedIffChanged(d: Device, snap: Snapshot, k: string)
    ensures k in ChangedKeys(d, SYNCED_PREFS, snap) <==> Get(Synced(d, snap).store, k) != Get(d.store, k)
  {
    KeysAreDistinct();
    SyncKeysAt(d, SYNCED_PREFS, snap, k);
    ChangedKeysMembers(d, SYNCED_PREFS, snap, k);
  }

  /** What the account has under a key after the pushes of a snapshot. */
  lemma {:induction false} ServeKeysAt(a: Account, d: Device, keys: seq<string>, snap: Snapshot, k: string)
    requires NoRepeats(keys) && forall x :: x in keys ==> x in SYNCED_PREFS
    ensures Get(ServeAll(a, KeyCommands(d, keys, snap)).prefs, k) ==
      if k in keys && Pushes(d, k, snap) && |Value(d.store, k)| <= MAX_PREF_LEN then Some(Value(d.store, k))
      else Get(a.prefs, k)
    ensures ServeAll(a, KeyCommands(d, keys, snap)).mutes == a.mutes
  {
    if keys != [] {
      var front, last := keys[..|keys| - 1], keys[|keys| - 1];
      ServeKeysAt(a, d, front, snap, k);
      assert keys == front + [last] && last in keys;
      if Pushes(d, last, snap) {
        ServePref(ServeAll(a, KeyCommands(d, front, snap)), last, Value(d.store, last), k);
        ServePush(a, KeyCommands(d, front, snap), SetPref(last, Value(d.store, last)));
      }
    }
  }

  lemma ServePush(a: Account, cs: seq<Command>, c: Command)
    ensures ServeAll(a, cs + [c]) == Serve(ServeAll(a, cs), c)
  {
    assert (cs + [c])[..|cs|] == cs;
  }

  lemma {:induction false} ServeConcat(a: Account, cs: seq<Command>, ds: seq<Command>)
    ensures ServeAll(a, cs + ds) == ServeAll(ServeAll(a, cs), ds)
    decreases |ds|
  {
    if ds == [] {
      assert cs + ds == cs;
    } else {
      ServeConcat(a, cs, ds[..|ds| - 1]);
      assert cs + ds == cs + ds[..|ds| - 1] + [ds[|ds| - 1]];
      ServePush(a, cs + ds[..|ds| - 1], ds[|ds| - 1]);
    }
  }

  lemma {:induction false} ServeMutesKeepsPrefs(a: Account, ts: seq<string>)
    ensures ServeAll(a, Mutes(ts)).prefs == a.prefs
  {
    if ts != [] {
      ServeMutesKeepsPrefs(a, ts[..|ts| - 1]);
      assert Mutes(ts)[..|ts| - 1] == Mutes(ts[..|ts| - 1]);
    }
  }

  lemma KeysAreDistinct()
    ensures NoRepeats(SYNCED_PREFS)
  {
    assert |"proxion_receipts_enabled"| == 24 && |"proxion_link_previews_enabled"| == 29;
    assert |"proxion_locale"| == 14 && |"proxion_theme"| == 13;
  }

  /** The state under a key after a snapshot of the account and the pushes it triggers. */
  lemma SnapshotAt(d: Device, a: Account, k: string)
    requires k in SYNCED_PREFS
    ensures var snap := SnapshotOf(a);
      var e, b := Synced(d, snap), ServeAll(a, Commands(d, snap));
      && Get(e.store, k) == Get(SyncKey(d, k, snap).store, k)
      && Get(e.last, k) == Get(SyncKey(d, k, snap).last, k)
      && Get(b.prefs, k) ==
        (if Pushes(d, k, snap) && |Value(d.store, k)| <= MAX_PREF_LEN then Some(Value(d.store, k)) else Get(a.prefs, k))
  {
    var snap := SnapshotOf(a);
    KeysAreDistinct();
    SyncKeysAt(d, SYNCED_PREFS, snap, k);
    ServeKeysAt(a, d, SYNCED_PREFS, snap, k);
    ServeConcat(a, KeyCommands(d, SYNCED_PREFS, snap), MuteCommands(d, snap));
    if !d.seeded {
      ServeMutesKeepsPrefs(ServeAll(a, KeyCommands(d, SYNCED_PREFS, snap)), Except(d.muted, Except(a.mutes, [""])));
    }
  }

  /** The account holds a value here that the device refuses: within the gateway's length but over its own. */
  predicate Refuses(d: Device, a: Account, k: string) {
    k in a.prefs && Units(a.prefs[k]) > MAX_PREF_LEN && Value(d.store, k) != a.prefs[k]
  }

  /**
   After a snapshot and its pushes device and account hold the same setting exactly unless the device
   pushed a value longer than the gateway takes, or was offered one longer than it takes itself.
   */
  lemma SettingConvergesIff(d: Device, a: Account, k: string)
    requires Kept(a) && k in SYNCED_PREFS
    ensures var snap := SnapshotOf(a);
      Value(Synced(d, snap).store, k) == Value(ServeAll(a, Commands(d, snap)).prefs, k)
      <==> if Pushes(d, k, snap) then |Value(d.store, k)| <= MAX_PREF_LEN else !Refuses(d, a, k)
  {
    SnapshotAt(d, a, k);
  }

  /** A setting changed here since the last exchange survives the snapshot and, if the account takes it, reaches it. */
  lemma LocalChangeSurvives(d: Device, a: Account, k: string)
    requires k in SYNCED_PREFS && k in d.last && d.last[k] != (if k in d.store then d.store[k] else "")
    ensures var snap := SnapshotOf(a);
      && Get(Synced(d, snap).store, k) == Get(d.store, k)
      && (|Value(d.store, k)| <= MAX_PREF_LEN ==>
            Get(ServeAll(a, Commands(d, snap)).prefs, k) == Some(Value(d.store, k)))
  {
    SnapshotAt(d, a, k);
  }

  /** Without such a change the account's setting wins, if the device takes its length; a setting the
      account lacks is seeded, and an empty one is cleared here. */
  lemma AccountSettingWins(d: Device, a: Account, k: string)
    requires Kept(a) && k in SYNCED_PREFS && (k in d.last ==> d.last[k] == (if k in d.store then d.store[k] else ""))
    ensures var snap := SnapshotOf(a);
      Get(Synced(d, snap).store, k)
      == if k in a.prefs && Units(a.prefs[k]) <= 32 then (if a.prefs[k] == "" then None else Some(a.prefs[k]))
         else Get(d.store, k)
  {
    SnapshotAt(d, a, k);
  }

  /** Whatever a snapshot holds: a setting it gives no text for, or one over the device's length, stays as it is
      here, and no snapshot mutes the empty thread. */
  lemma MalformedIsIgnored(d: Device, snap: Snapshot, k: string)
    requires k in SYNCED_PREFS && (k in snap.prefs ==> snap.prefs[k].NotText? || Units(snap.prefs[k].s) > 32)
    ensures Get(Synced(d, snap).store, k) == Get(d.store, k)
    ensures "" in Synced(d, snap).muted ==> "" in d.muted
  {
    KeysAreDistinct();
    SyncKeysAt(d, SYNCED_PREFS, snap, k);
    var server := Except(snap.mutes, [""]);
    ExceptMembers(snap.mutes, [""]);
    ExceptMembers(server, d.muted);
    ExceptMembers(d.muted, Except(d.muted, server));
  }

  /** A value exchanged in a snapshot is remembered, so that a change made here later survives the next snapshot,
      whatever the account then holds, and reaches it. */
  lemma LaterChangeSurvives(d: Device, a: Account, b: Account, k: string, v: string)
    requires k in SYNCED_PREFS && |v| <= 32 && v != Value(Synced(d, SnapshotOf(a)).store, k)
    requires k in d.last || (if k in a.prefs then Units(a.prefs[k]) <= 32 else k in d.store)
    ensures var e := Synced(d, SnapshotOf(a)); var changed := e.(store := e.store[k := v]);
      && Value(Synced(changed, SnapshotOf(b)).store, k) == v
      && Get(ServeAll(b, Commands(changed, SnapshotOf(b))).prefs, k) == Some(v)
  {
    SnapshotAt(d, a, k);
    var e := Synced(d, SnapshotOf(a));
    var changed := e.(store := e.store[k := v]);
    RememberedIs(d, a, k);
    LocalChangeSurvives(changed, b, k);
  }

  lemma RememberedIs(d: Device, a: Account, k: string)
    requires k in SYNCED_PREFS
    requires k in d.last || (if k in a.prefs then Units(a.prefs[k]) <= 32 else k in d.store)
    ensures var e := Synced(d, SnapshotOf(a)); k in e.last && e.last[k] == Value(e.store, k)
  {
    SnapshotAt(d, a, k);
  }

  // ---- One snapshot, the mutes ----

  /** The mutes of the device that the account lacks. */
  function NewMutes(d: Device, a: Account): seq<string> { Except(d.muted, a.mutes) }

  predicate ValidThread(tid: string) { 0 < |tid| <= MAX_THREAD_ID }

  /** The gateway takes all that a first snapshot would add. */
  predicate Room(d: Device, a: Account) {
    d.seeded ||
    ((forall t :: t in NewMutes(d, a) ==> ValidThread(t)) && |a.mutes| + |NewMutes(d, a)| <= MAX_MUTES)
  }

  lemma {:induction false} ExceptDistinct(ts: seq<string>, others: seq<string>)
    requires NoRepeats(ts)
    ensures NoRepeats(Except(ts, others))
  {
    if ts != [] {
      var front, last := ts[..|ts| - 1], ts[|ts| - 1];
      ExceptDistinct(front, others);
      ExceptMembers(front, others);
      assert last !in front;
    }
  }

  lemma {:induction false} ExceptNothing(ts: seq<string>, others: seq<string>)
    requires forall t :: t in ts ==> t !in others
    ensures Except(ts, others) == ts
  {
    if ts != [] {
      ExceptNothing(ts[..|ts| - 1], others);
      assert ts[|ts| - 1] in ts;
    }
  }

  lemma {:induction false} ExceptMore(ts: seq<string>, few: seq<string>, many: seq<string>)
    requires forall t :: t in few ==> t in many
    ensures |Except(ts, many)| <= |Except(ts, few)|
  {
    if ts != [] { ExceptMore(ts[..|ts| - 1], few, many); }
  }

  /** The record filled up with ts as far as there is room. */
  function Filled(before: seq<string>, ts: seq<string>): seq<string>
    requires |before| <= MAX_MUTES
  {
    var room := MAX_MUTES - |before|;
    before + if |ts| <= room then ts else ts[..room]
  }

  /** Valid new mutes land one after another until the record is full. */
  lemma {:induction false} ServeMutesPrefix(a: Account, ts: seq<string>)
    requires NoRepeats(ts) && |a.mutes| <= MAX_MUTES
    requires forall t :: t in ts ==> ValidThread(t) && t !in a.mutes
    ensures ServeAll(a, Mutes(ts)).mutes == Filled(a.mutes, ts)
  {
    if ts == [] {
      assert Filled(a.mutes, ts) == a.mutes;
    } else {
      var front, last := ts[..|ts| - 1], ts[|ts| - 1];
      assert last in ts && last !in front && forall t :: t in front ==> t in ts;
      ServeMutesPrefix(a, front);
      assert Mutes(ts) == Mutes(front) + [SetMute(last, true)] && ts == front + [last];
      ServePush(a, Mutes(front), SetMute(last, true));
      ServeMuteNext(ServeAll(a, Mutes(front)), a.mutes, front, last);
    }
  }

  lemma ServeMuteNext(b: Account, before: seq<string>, front: seq<string>, last: string)
    requires ValidThread(last) && last !in before && last !in front && |before| <= MAX_MUTES
    requires b.mutes == Filled(before, front)
    ensures Serve(b, SetMute(last, true)).mutes == Filled(before, front + [last])
  {
  }

  /** Only valid mutes are added. */
  lemma {:induction false} ServeMutesValid(a: Account, ts: seq<string>, t: string)
    requires t in ServeAll(a, Mutes(ts)).mutes
    ensures t in a.mutes || (t in ts && ValidThread(t))
  {
    if ts != [] {
      var front, last := ts[..|ts| - 1], ts[|ts| - 1];
      assert Mutes(ts) == Mutes(front) + [SetMute(last, true)];
      ServePush(a, Mutes(front), SetMute(last, true));
      if t in ServeAll(a, Mutes(front)).mutes { ServeMutesValid(a, front, t); }
    }
  }

  lemma SyncedMutes(d: Device, a: Account, t: string)
    requires "" !in a.mutes
    ensures t in Synced(d, SnapshotOf(a)).muted <==> t in a.mutes || (!d.seeded && t in d.muted)
    ensures Synced(d, SnapshotOf(a)).seeded
  {
    var snap := SnapshotOf(a);
    var server := Except(snap.mutes, [""]);
    KeysAreDistinct();
    SyncKeysAt(d, SYNCED_PREFS, snap, "");
    ExceptMembers(snap.mutes, [""]);
    ExceptMembers(d.muted, server);
    ExceptMembers(d.muted, Except(d.muted, server));
    ExceptMembers(server, d.muted);
  }

  /** What the mutes of a snapshot's commands leave at the account. */
  lemma ServedMutes(d: Device, a: Account) returns (b: Account)
    requires "" !in a.mutes
    ensures b.mutes == a.mutes
    ensures ServeAll(a, Commands(d, SnapshotOf(a))).mutes
         == if d.seeded then a.mutes else ServeAll(b, Mutes(NewMutes(d, a))).mutes
  {
    var snap := SnapshotOf(a);
    KeysAreDistinct();
    ServeKeysAt(a, d, SYNCED_PREFS, snap, "");
    ServeConcat(a, KeyCommands(d, SYNCED_PREFS, snap), MuteCommands(d, snap));
    ExceptNothing(a.mutes, [""]);
    b := ServeAll(a, KeyCommands(d, SYNCED_PREFS, snap));
    assert d.seeded ==> MuteCommands(d, snap) == [];
  }

  /** Given room, the account ends up with its own mutes and, on a first snapshot, the device's. */
  lemma ServedUnion(d: Device, a: Account)
    requires Kept(a) && NoRepeats(d.muted) && Room(d, a)
    ensures var served := ServeAll(a, Commands(d, SnapshotOf(a))).mutes;
      served == if d.seeded then a.mutes else a.mutes + NewMutes(d, a)
  {
    var b := ServedMutes(d, a);
    if !d.seeded {
      ExceptDistinct(d.muted, a.mutes);
      ExceptMembers(d.muted, a.mutes);
      ServeMutesPrefix(b, NewMutes(d, a));
    }
  }

  /** Without room some new mute is missing at the account. */
  lemma NoRoomLosesOne(d: Device, a: Account) returns (t: string)
    requires Kept(a) && NoRepeats(d.muted) && !Room(d, a)
    ensures t in d.muted && t !in a.mutes && t !in ServeAll(a, Commands(d, SnapshotOf(a))).mutes
  {
    var b := ServedMutes(d, a);
    var ts := NewMutes(d, a);
    ExceptDistinct(d.muted, a.mutes);
    ExceptMembers(d.muted, a.mutes);
    if forall x :: x in ts ==> ValidThread(x) {
      ServeMutesPrefix(b, ts);
      t := ts[|ts| - 1];
      assert t in ts;
    } else {
      t :| t in ts && !ValidThread(t);
      if t in ServeAll(b, Mutes(ts)).mutes { ServeMutesValid(b, ts, t); }
    }
  }

  /** Device and account mute the same threads. */
  ghost predicate SameMutes(d: Device, a: Account) {
    forall t :: t in d.muted <==> t in a.mutes
  }

  /**
   After a snapshot and its commands device and account mute the same threads exactly if this was
   not the first, or every mute the account lacked has a length it takes and there is room for all.
   */
  lemma MutesConvergeIff(d: Device, a: Account)
    requires Kept(a) && NoRepeats(d.muted)
    ensures SameMutes(Synced(d, SnapshotOf(a)), ServeAll(a, Commands(d, SnapshotOf(a)))) <==> Room(d, a)
  {
    var e, b := Synced(d, SnapshotOf(a)), ServeAll(a, Commands(d, SnapshotOf(a)));
    if Room(d, a) {
      ServedUnion(d, a);
      ExceptMembers(d.muted, a.mutes);
      forall t ensures t in e.muted <==> t in b.mutes { SyncedMutes(d, a, t); }
    } else {
      var t := NoRoomLosesOne(d, a);
      SyncedMutes(d, a, t);
      assert t in e.muted && t !in b.mutes;
    }
  }

  /** One thread id of 257 characters, muted before a first snapshot, stays on the device alone. */
  lemma LongMuteStaysLocal(d: Device, a: Account, t: string)
    requires a == Account(map[], []) && t == seq(257, _ => 'x') && d == Device(map[], map[], [t], false)
    ensures t in Synced(d, SnapshotOf(a)).muted && t !in ServeAll(a, Commands(d, SnapshotOf(a))).mutes
  {
    SyncedMutes(d, a, t);
    ExceptMembers(d.muted, a.mutes);
    var b := ServedMutes(d, a);
    if t in ServeAll(b, Mutes(NewMutes(d, a))).mutes { ServeMutesValid(b, NewMutes(d, a), t); }
  }

  // ---- Any number of devices ----

  datatype World = World(devices: seq<Device>, account: Account)

  /** Device i takes a snapshot and the account serves what it sends. */
  function Round(w: World, i: int): World {
    if 0 <= i < |w.devices| then
      var snap := SnapshotOf(w.account);
      World(w.devices[i := Synced(w.devices[i], snap)], ServeAll(w.account, Commands(w.devices[i], snap)))
    else w
  }

  function Rounds(w: World, es: seq<int>): World
    decreases |es|
  {
    if es == [] then w else Round(Rounds(w, es[..|es| - 1]), es[|es| - 1])
  }

  /** Every synced setting of the device fits the account and the other devices. */
  predicate Short(d: Device) {
    forall k :: k in SYNCED_PREFS ==> Units(Value(d.store, k)) <= MAX_PREF_LEN
  }

  /** Every setting of the account fits the devices. */
  predicate ShortPrefs(a: Account) {
    forall k :: k in SYNCED_PREFS ==> Units(Value(a.prefs, k)) <= MAX_PREF_LEN
  }

  /** Nothing left to tell the account. */
  predicate SettledAt(d: Device, a: Account, k: string) {
    !Pending(d, k) && (k in d.store ==> k in a.prefs)
  }

  predicate Settled(d: Device, a: Account) {
    d.seeded && forall k :: k in SYNCED_PREFS ==> SettledAt(d, a, k)
  }

  predicate AgreesAt(d: Device, a: Account, k: string) {
    Value(d.store, k) == Value(a.prefs, k)
  }

  /** Device and account hold the same settings and mutes. */
  ghost predicate Agrees(d: Device, a: Account) {
    && (forall k :: k in SYNCED_PREFS ==> AgreesAt(d, a, k))
    && (forall t :: t in d.muted <==> t in a.mutes)
  }

  ghost predicate Fits(w: World) {
    Kept(w.account) && ShortPrefs(w.account) && forall d :: d in w.devices ==> Short(d)
  }

  /** One snapshot settles the device, keeps the others settled and the values short. */
  lemma SnapshotSettles(d: Device, a: Account)
    requires Kept(a) && ShortPrefs(a) && Short(d)
    ensures var e, b := Synced(d, SnapshotOf(a)), ServeAll(a, Commands(d, SnapshotOf(a)));
      Settled(e, b) && Short(e) && Kept(b) && ShortPrefs(b)
  {
    var e, b := Synced(d, SnapshotOf(a)), ServeAll(a, Commands(d, SnapshotOf(a)));
    ServeAllKept(a, Commands(d, SnapshotOf(a)));
    SyncedMutes(d, a, "");
    forall k | k in SYNCED_PREFS
      ensures SettledAt(e, b, k) && Units(Value(e.store, k)) <= MAX_PREF_LEN && Units(Value(b.prefs, k)) <= MAX_PREF_LEN
    {
      SettlesAt(d, a, k);
    }
  }

  lemma SettlesAt(d: Device, a: Account, k: string)
    requires k in SYNCED_PREFS && Units(Value(d.store, k)) <= MAX_PREF_LEN && Units(Value(a.prefs, k)) <= MAX_PREF_LEN
    ensures var e, b := Synced(d, SnapshotOf(a)), ServeAll(a, Commands(d, SnapshotOf(a)));
      SettledAt(e, b, k) && Units(Value(e.store, k)) <= MAX_PREF_LEN && Units(Value(b.prefs, k)) <= MAX_PREF_LEN
  {
    SnapshotAt(d, a, k);
  }

  lemma AccountKeepsKeys(d: Device, a: Account, other: Device)
    requires Settled(other, a)
    ensures Settled(other, ServeAll(a, Commands(d, SnapshotOf(a))))
  {
    forall k | k in SYNCED_PREFS ensures SettledAt(other, ServeAll(a, Commands(d, SnapshotOf(a))), k) {
      SnapshotAt(d, a, k);
      assert SettledAt(other, a, k);
    }
  }

  lemma {:induction false} NothingToPush(d: Device, a: Account, keys: seq<string>)
    requires forall k :: k in keys ==> SettledAt(d, a, k)
    ensures KeyCommands(d, keys, SnapshotOf(a)) == []
  {
    if keys != [] {
      var front := keys[..|keys| - 1];
      assert forall k :: k in front ==> k in keys;
      NothingToPush(d, a, front);
      assert SettledAt(d, a, keys[|keys| - 1]);
    }
  }

  /** A settled device's snapshot changes nothing at the account and makes the device agree with it. */
  lemma SettledAgrees(d: Device, a: Account)
    requires Kept(a) && ShortPrefs(a) && Settled(d, a)
    ensures ServeAll(a, Commands(d, SnapshotOf(a))) == a
    ensures Agrees(Synced(d, SnapshotOf(a)), a) && Settled(Synced(d, SnapshotOf(a)), a)
  {
    var e := Synced(d, SnapshotOf(a));
    NothingToPush(d, a, SYNCED_PREFS);
    forall k | k in SYNCED_PREFS ensures AgreesAt(e, a, k) && SettledAt(e, a, k) {
      SnapshotAt(d, a, k);
      assert SettledAt(d, a, k);
    }
    SyncedMutes(d, a, "");
    forall t ensures t in e.muted <==> t in a.mutes {
      SyncedMutes(d, a, t);
    }
  }

  /** Every device of es has settled. */
  lemma {:induction false} FirstRoundSettles(w: World, es: seq<int>)
    requires Fits(w)
    ensures var v := Rounds(w, es);
      && Fits(v) && |v.devices| == |w.devices|
      && forall i :: i in es && 0 <= i < |w.devices| ==> Settled(v.devices[i], v.account)
    decreases |es|
  {
    if es != [] {
      var front, j := es[..|es| - 1], es[|es| - 1];
      assert es == front + [j];
      FirstRoundSettles(w, front);
      var u := Rounds(w, front);
      if 0 <= j < |u.devices| {
        var d := u.devices[j];
        assert d in u.devices;
        SnapshotSettles(d, u.account);
        forall i | i in es && 0 <= i < |w.devices|
          ensures Settled(Round(u, j).devices[i], Round(u, j).account)
        {
          if i != j { AccountKeepsKeys(d, u.account, u.devices[i]); }
        }
      }
    }
  }

  ghost predicate AllSettled(w: World) {
    Kept(w.account) && ShortPrefs(w.account) && forall i :: 0 <= i < |w.devices| ==> Settled(w.devices[i], w.account)
  }

  lemma {:induction false} SecondRoundAgrees(w: World, es: seq<int>)
    requires AllSettled(w)
    ensures var v := Rounds(w, es);
      && v.account == w.account && |v.devices| == |w.devices| && AllSettled(v)
      && forall i :: i in es && 0 <= i < |w.devices| ==> Agrees(v.devices[i], w.account)
    decreases |es|
  {
    if es != [] {
      var front, j := es[..|es| - 1], es[|es| - 1];
      assert es == front + [j];
      SecondRoundAgrees(w, front);
      var u := Rounds(w, front);
      if 0 <= j < |u.devices| { SettledAgrees(u.devices[j], u.account); }
    }
  }

  lemma RoundsPush(w: World, es: seq<int>, e: int)
    ensures Rounds(w, es + [e]) == Round(Rounds(w, es), e)
  {
    assert (es + [e])[..|es|] == es;
  }

  lemma {:induction false} RoundsConcat(w: World, es: seq<int>, fs: seq<int>)
    ensures Rounds(w, es + fs) == Rounds(Rounds(w, es), fs)
    decreases |fs|
  {
    if fs == [] {
      assert es + fs == es;
    } else {
      var front, last := fs[..|fs| - 1], fs[|fs| - 1];
      RoundsConcat(w, es, front);
      RoundsPush(w, es + front, last);
      assert fs == front + [last] && es + fs == es + front + [last];
      RoundsPush(Rounds(w, es), front, last);
    }
  }

  /**
   Without edits between, once every device has taken a snapshot and then every device takes
   another, in whatever orders, all of them agree with the account and so with each other.
   */
  lemma DevicesConverge(w: World, es: seq<int>, fs: seq<int>)
    requires Fits(w)
    requires forall i :: 0 <= i < |w.devices| ==> i in es && i in fs
    ensures var v := Rounds(w, es + fs);
      |v.devices| == |w.devices| && forall i :: 0 <= i < |v.devices| ==> Agrees(v.devices[i], v.account)
  {
    FirstRoundSettles(w, es);
    RoundsConcat(w, es, fs);
    SecondRoundAgrees(Rounds(w, es), fs);
  }

  /** A snapshot makes the device agree with the account exactly if the account has room for its mutes. */
  lemma SnapshotAgreesIff(d: Device, a: Account)
    requires Kept(a) && ShortPrefs(a) && Short(d) && NoRepeats(d.muted)
    ensures Agrees(Synced(d, SnapshotOf(a)), ServeAll(a, Commands(d, SnapshotOf(a)))) <==> Room(d, a)
  {
    var e, b := Synced(d, SnapshotOf(a)), ServeAll(a, Commands(d, SnapshotOf(a)));
    MutesConvergeIff(d, a);
    forall k | k in SYNCED_PREFS ensures AgreesAt(e, b, k) {
      SettingConvergesIff(d, a, k);
    }
  }

  lemma FirstSecondFirstIs(w: World) returns (u: World, v: World)
    requires |w.devices| == 2
    ensures u == Round(w, 0) && v == Round(u, 1) && Rounds(w, [0, 1, 0]) == Round(v, 0)
  {
    u, v := Round(w, 0), Round(Round(w, 0), 1);
    assert [0, 1, 0][..2] == [0, 1] && [0, 1][..1] == [0] && [0][..0] == [];
    assert Rounds(w, [0]) == u && Rounds(w, [0, 1]) == v;
  }

  /**
   Two devices, new or not and with whatever unsent changes, take snapshots in the order first,
   second, first: the first agrees with the account, and the second exactly if the account had
   room for its mutes when it came.
   */
  lemma FirstSecondFirst(w: World)
    requires Fits(w) && |w.devices| == 2 && NoRepeats(w.devices[1].muted)
    ensures var v := Rounds(w, [0, 1, 0]);
      && |v.devices| == 2 && Agrees(v.devices[0], v.account)
      && (Agrees(v.devices[1], v.account) <==> Room(w.devices[1], Round(w, 0).account))
  {
    var d0, d1, a := w.devices[0], w.devices[1], w.account;
    assert d0 in w.devices && d1 in w.devices;
    var u, v := FirstSecondFirstIs(w);
    SnapshotSettles(d0, a);
    SnapshotSettles(d1, u.account);
    AccountKeepsKeys(d1, u.account, u.devices[0]);
    SnapshotAgreesIff(d1, u.account);
    SettledAgrees(u.devices[0], v.account);
  }

  /** How many mutes the device may add. */
  function Adds(d: Device, a: Account): nat { if d.seeded then 0 else |NewMutes(d, a)| }

  /** The first device's second snapshot sends nothing. */
  lemma FirstSecondFirstAccount(w: World)
    requires Fits(w) && |w.devices| == 2
    ensures var d0, d1, a := w.devices[0], w.devices[1], w.account;
      var b := ServeAll(a, Commands(d0, SnapshotOf(a)));
      && Round(w, 0).account == b && Kept(b) && ShortPrefs(b)
      && Rounds(w, [0, 1, 0]).account == ServeAll(b, Commands(d1, SnapshotOf(b)))
  {
    var d0, d1, a := w.devices[0], w.devices[1], w.account;
    assert d0 in w.devices && d1 in w.devices;
    var u, v := FirstSecondFirstIs(w);
    SnapshotSettles(d0, a);
    SnapshotSettles(d1, u.account);
    AccountKeepsKeys(d1, u.account, u.devices[0]);
    SettledAgrees(u.devices[0], v.account);
  }

  /** With room for what both devices add, all agree and nothing either had muted before its first snapshot is lost. */
  lemma FirstSecondFirstUnion(w: World, t: string)
    requires Fits(w) && |w.devices| == 2
    requires NoRepeats(w.devices[0].muted) && NoRepeats(w.devices[1].muted)
    requires forall d :: d in w.devices ==> d.seeded || forall x :: x in d.muted ==> ValidThread(x)
    requires |w.account.mutes| + Adds(w.devices[0], w.account) + Adds(w.devices[1], w.account) <= MAX_MUTES
    ensures var v := Rounds(w, [0, 1, 0]); var d0, d1 := w.devices[0], w.devices[1];
      && |v.devices| == 2
      && Agrees(v.devices[0], v.account) && Agrees(v.devices[1], v.account)
      && (t in v.account.mutes <==>
            t in w.account.mutes || (!d0.seeded && t in d0.muted) || (!d1.seeded && t in d1.muted))
  {
    assert w.devices[0] in w.devices && w.devices[1] in w.devices;
    FirstSecondFirstAccount(w);
    TwoServed(w.devices[0], w.devices[1], w.account, Round(w, 0).account, t);
    FirstSecondFirst(w);
  }

  /** What the first device adds leaves room for the second, and the account ends up with both. */
  lemma TwoServed(d0: Device, d1: Device, a: Account, b: Account, t: string)
    requires Kept(a) && Kept(b) && NoRepeats(d0.muted) && NoRepeats(d1.muted)
    requires b == ServeAll(a, Commands(d0, SnapshotOf(a)))
    requires d0.seeded || forall x :: x in d0.muted ==> ValidThread(x)
    requires d1.seeded || forall x :: x in d1.muted ==> ValidThread(x)
    requires |a.mutes| + Adds(d0, a) + Adds(d1, a) <= MAX_MUTES
    ensures Room(d1, b)
    ensures t in ServeAll(b, Commands(d1, SnapshotOf(b))).mutes
       <==> t in a.mutes || (!d0.seeded && t in d0.muted) || (!d1.seeded && t in d1.muted)
  {
    ExceptMembers(d0.muted, a.mutes);
    ServedUnion(d0, a);
    ExceptMembers(d1.muted, b.mutes);
    ExceptMore(d1.muted, a.mutes, b.mutes);
    ServedUnion(d1, b);
  }

  // ---- Single changes pushed to the other devices ----

  function ChangedPref(d: Device, k: string, v: PrefValue): Device {
    if k in SYNCED_PREFS then Taken(d, k, v) else d
  }

  function ChangedMute(d: Device, tid: string, muted: bool): Device {
    if tid == "" || (tid in d.muted) == muted then d
    else if muted then d.(muted := d.muted + [tid])
    else d.(muted := Except(d.muted, [tid]))
  }

  /** A pushed setting that is none of the four, no text or over 32 UTF-16 units changes nothing, nor does a mute
      of the empty thread; any other is taken as it is, an empty setting by clearing it. */
  lemma ChangeTakenIff(d: Device, k: string, v: PrefValue, tid: string, muted: bool)
    ensures var e := ChangedPref(d, k, v);
      if v.Text? && Units(v.s) <= 32 && (k == "proxion_receipts_enabled" || k == "proxion_link_previews_enabled"
                                         || k == "proxion_locale" || k == "proxion_theme")
      then e.store == (if v.s == "" then d.store - {k} else d.store[k := v.s])
           && e.last == d.last[k := v.s] && e.muted == d.muted && e.seeded == d.seeded
      else e == d
    ensures var e := ChangedMute(d, tid, muted);
      && e == d.(muted := e.muted)
      && forall t :: t in e.muted <==> if t == tid && t != "" then muted else t in d.muted
  {
    ExceptMembers(d.muted, [tid]);
  }

  /** What the gateway tells the account's other devices of a served command: nothing if it dropped it. */
  function Told(d: Device, a: Account, c: Command): Device {
    match c
    case SetPref(k, v) => if k in SYNCED_PREFS && |v| <= MAX_PREF_LEN then ChangedPref(d, k, Text(v)) else d
    case SetMute(tid, muted) =>
      if !ValidThread(tid) || (muted && |a.mutes| >= MAX_MUTES) then d else ChangedMute(d, tid, muted)
  }

  /** A device that agrees with the account still does after both hear of a change, exactly unless it is a
      new value within the gateway's length but over the device's. */
  lemma ToldStaysInAgreementIff(d: Device, a: Account, c: Command)
    requires Agrees(d, a)
    ensures Agrees(Told(d, a, c), Serve(a, c)) <==>
      !(c.SetPref? && c.key in SYNCED_PREFS && |c.value| <= MAX_PREF_LEN < Units(c.value) && c.value != Value(a.prefs, c.key))
  {
    var e, b := Told(d, a, c), Serve(a, c);
    match c
    case SetPref(key, v) =>
      assert key in SYNCED_PREFS ==> AgreesAt(d, a, key);
      forall k | k in SYNCED_PREFS && k != key ensures AgreesAt(e, b, k) {
        assert AgreesAt(d, a, k);
      }
    case SetMute(tid, muted) =>
      ExceptMembers(d.muted, [tid]);
      ExceptMembers(a.mutes, [tid]);
      forall k | k in SYNCED_PREFS ensures AgreesAt(e, b, k) {
        assert AgreesAt(d, a, k);
      }
  }

  // ---- A value only the gateway takes ----

  function Theme(): string { "proxion_theme" }

  function Emoji(n: nat): string { Repeat('\U{1F600}', n) }

  lemma {:induction false} EmojiUnits(n: nat)
    ensures Units(Emoji(n)) == 2 * n
  {
    if n > 0 {
      EmojiUnits(n - 1);
      assert Emoji(n)[1..] == Emoji(n - 1);
    }
  }

  /** This device never heard of the theme the account has. */
  predicate Unthemed(d: Device) { Theme() !in d.store && Theme() !in d.last }

  /** The account has a theme of 20 emoji. */
  ghost predicate EmojiAccount(a: Account) {
    Kept(a) && Theme() in a.prefs && a.prefs[Theme()] == Emoji(20)
  }

  lemma UnthemedStays(d: Device, a: Account)
    requires Unthemed(d) && EmojiAccount(a)
    ensures Unthemed(Synced(d, SnapshotOf(a))) && EmojiAccount(ServeAll(a, Commands(d, SnapshotOf(a))))
  {
    assert Theme() == SYNCED_PREFS[3];
    EmojiUnits(20);
    SnapshotAt(d, a, Theme());
    ServeAllKept(a, Commands(d, SnapshotOf(a)));
  }

  lemma UnthemedDisagrees(d: Device, a: Account)
    requires Unthemed(d) && EmojiAccount(a)
    ensures !Agrees(d, a)
  {
    assert Theme() == SYNCED_PREFS[3];
    assert !AgreesAt(d, a, Theme());
  }

  /** A theme of 20 emoji is taken by the gateway, and a device without one never agrees, however many
      snapshots it takes. */
  lemma {:induction false} EmojiThemeNeverArrives(w: World, es: seq<int>)
    requires |w.devices| == 1 && Unthemed(w.devices[0]) && EmojiAccount(w.account)
    ensures Serve(Account(map[], []), SetPref(Theme(), Emoji(20))).prefs == map[Theme() := Emoji(20)]
    ensures var v := Rounds(w, es);
      |v.devices| == 1 && Unthemed(v.devices[0]) && EmojiAccount(v.account) && !Agrees(v.devices[0], v.account)
    decreases |es|
  {
    assert Theme() == SYNCED_PREFS[3];
    if es != [] {
      EmojiThemeNeverArrives(w, es[..|es| - 1]);
      var u := Rounds(w, es[..|es| - 1]);
      UnthemedStays(u.devices[0], u.account);
    }
    UnthemedDisagrees(Rounds(w, es).devices[0], Rounds(w, es).account);
  }

  // ---- The device's record ----

  class Sync {
    var store: map<string, string>
    var last: map<string, string>
    var muted: seq<string>
    var seeded: bool

    ghost function View(): Device
      reads this
    {
      Device(store, last, muted, seeded)
    }

    constructor (d: Device)
      ensures View() == d
    {
      store, last, muted, seeded := d.store, d.last, d.muted, d.seeded;
    }

    /** Send a setting to the account and remember it as exchanged. */
    method PushPref(k: string) returns (sent: seq<Command>)
      modifies this`last
      ensures View() == if k in SYNCED_PREFS then Pushed(old(View()), k) else old(View())
      ensures sent == if k in SYNCED_PREFS then [SetPref(k, Value(store, k))] else []
    {
      if k !in SYNCED_PREFS { return []; }
      var value := if k in store then store[k] else "";
      last := last[k := value];
      return [SetPref(k, value)];
    }

    /** Write a setting that came from the account; true when the stored value changed. */
    method SetLocal(k: string, v: PrefValue) returns (changed: bool)
      modifies this`last, this`store
      ensures View() == ChangedPref(old(View()), k, v)
      ensures changed <==> store != old(store)
    {
      if k !in SYNCED_PREFS || v.NotText? || Units(v.s) > MAX_PREF_LEN { return false; }
      last := last[k := v.s];
      if v.s == "" {
        changed := k in store;
        store := store - {k};
      } else {
        changed := !(k in store && store[k] == v.s);
        store := store[k := v.s];
      }
    }

    method ApplyFull(snap: Snapshot) returns (sent: seq<Command>, changed: seq<string>)
      modifies this
      ensures View() == Synced(old(View()), snap) && sent == Commands(old(View()), snap)
      ensures changed == ChangedKeys(old(View()), SYNCED_PREFS, snap)
    {
      sent, changed := [], [];
      KeysAreDistinct();
      for i := 0 to |SYNCED_PREFS|
        invariant View() == SyncKeys(old(View()), SYNCED_PREFS[..i], snap)
        invariant sent == KeyCommands(old(View()), SYNCED_PREFS[..i], snap)
        invariant changed == ChangedKeys(old(View()), SYNCED_PREFS[..i], snap)
      {
        var k := SYNCED_PREFS[i];
        assert SYNCED_PREFS[..i + 1][..i] == SYNCED_PREFS[..i];
        SyncKeysAt(old(View()), SYNCED_PREFS[..i], snap, k);
        SyncKeyDepends(View(), old(View()), k, snap);
        SetChanges(View(), k, snap);
        if (k in last && (if k in store then store[k] else "") != last[k]) || (k !in snap.prefs && k in store) {
          var pushed := PushPref(k);
          sent := sent + pushed;
        } else if k in snap.prefs {
          var wrote := SetLocal(k, snap.prefs[k]);
          if wrote { changed := changed + [k]; }
        }
      }
      assert SYNCED_PREFS[..|SYNCED_PREFS|] == SYNCED_PREFS;
      SyncKeysAt(old(View()), SYNCED_PREFS, snap, "");
      var muting := ApplyMutes(snap);
      sent := sent + muting;
    }

    method ApplyMutes(snap: Snapshot) returns (sent: seq<Command>)
      modifies this`muted, this`seeded
      ensures View() == SyncMutes(old(View()), snap) && sent == MuteCommands(old(View()), snap)
    {
      var server := Except(snap.mutes, [""]);
      var missing := Except(muted, server);
      var added := Except(server, muted);
      sent := [];
      if !seeded {
        for i := 0 to |missing|
          invariant sent == Mutes(missing[..i])
        {
          sent := sent + [SetMute(missing[i], true)];
        }
        assert missing[..|missing|] == missing;
        seeded := true;
      } else {
        muted := Except(muted, missing);
      }
      muted := muted + added;
    }

    method ApplyMute(tid: string, mute: bool)
      modifies this`muted
      ensures View() == ChangedMute(old(View()), tid, mute)
    {
      if tid == "" || (tid in muted) == mute { return; }
      muted := if mute then muted + [tid] else Except(muted, [tid]);
    }
  }
}
