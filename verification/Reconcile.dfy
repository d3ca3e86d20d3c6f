/**
 A room's history with the pod as its authority (web/longchat.js:310-315, 480-525) and the
 authentication of tombstones and reactions before it (web/longchat.js:616-652, 706-736).
 */
module Reconcile {
  import opened Prelude

  /** A timestamp: its text and its place in the order localeCompare gives; empty text comes first. */
  datatype Stamp = NoStamp | Stamp(text: string, rank: nat)

  /** An ideal signature: who signed which list of fields. */
  datatype Proof = NoProof | Proof(signer: string, over: seq<string>)

  datatype Message = Message(
    id: string,                 // empty: none
    iri: string,
    content: string,
    deleted: bool,
    deletedAt: string,          // empty: no tombstone
    deleteProof: Proof,
    proof: Proof,
    verified: Option<bool>,
    time: Stamp,
    seqNo: Option<int>,         // the gateway's order hint, where a finite number
    from: string,
    name: string,
    extra: string)              // reactions, reply context and the like

  // ---- The order ----

  function Rank(t: Stamp): int { if t.NoStamp? then -1 else t.rank }

  function Compare(a: Message, b: Message): int {
    if a.seqNo.Some? && b.seqNo.Some? then a.seqNo.value - b.seqNo.value
    else Rank(a.time) - Rank(b.time)
  }

  /** Stable sorting by insertion from the end. */
  function Insert(ms: seq<Message>, m: Message): seq<Message> {
    if ms == [] || Compare(ms[|ms| - 1], m) <= 0 then ms + [m]
    else Insert(ms[..|ms| - 1], m) + [ms[|ms| - 1]]
  }

  function Sort(ms: seq<Message>): seq<Message> {
    if ms == [] then [] else Insert(Sort(ms[..|ms| - 1]), ms[|ms| - 1])
  }

  ghost predicate Ordered(ms: seq<Message>) {
    forall i, j :: 0 <= i < j < |ms| ==> Compare(ms[i], ms[j]) <= 0
  }

  ghost predicate Transitive(ms: seq<Message>) {
    forall a, b, c :: a in ms && b in ms && c in ms && Compare(a, b) <= 0 && Compare(b, c) <= 0 ==> Compare(a, c) <= 0
  }

  lemma {:induction false} InsertMembers(ms: seq<Message>, m: Message)
    ensures forall x :: x in Insert(ms, m) <==> x == m || x in ms
    ensures |Insert(ms, m)| == |ms| + 1
  {
    if !(ms == [] || Compare(ms[|ms| - 1], m) <= 0) {
      InsertMembers(ms[..|ms| - 1], m);
      assert ms == ms[..|ms| - 1] + [ms[|ms| - 1]];
    }
  }

  lemma {:induction false} SortMembers(ms: seq<Message>)
    ensures forall x :: x in Sort(ms) <==> x in ms
    ensures |Sort(ms)| == |ms|
  {
    if ms != [] {
      SortMembers(ms[..|ms| - 1]);
      InsertMembers(Sort(ms[..|ms| - 1]), ms[|ms| - 1]);
      assert ms == ms[..|ms| - 1] + [ms[|ms| - 1]];
    }
  }

  lemma OrderedAppend(ms: seq<Message>, m: Message)
    requires Ordered(ms) && forall x :: x in ms ==> Compare(x, m) <= 0
    ensures Ordered(ms + [m])
  {
  }

  lemma LastIsGreatest(ms: seq<Message>, m: Message)
    requires ms != [] && Ordered(ms) && Transitive(ms + [m]) && Compare(ms[|ms| - 1], m) <= 0
    ensures forall x :: x in ms ==> Compare(x, m) <= 0
  {
    var last := ms[|ms| - 1];
    forall x | x in ms ensures Compare(x, m) <= 0 {
      assert Compare(x, last) <= 0 && x in ms + [m] && last in ms + [m] && m in ms + [m];
    }
  }

  lemma {:induction false} InsertOrders(ms: seq<Message>, m: Message)
    requires Ordered(ms) && Transitive(ms + [m])
    ensures Ordered(Insert(ms, m))
  {
    if ms == [] {
    } else {
      var n := |ms| - 1;
      var last := ms[n];
      if Compare(last, m) <= 0 {
        LastIsGreatest(ms, m);
        OrderedAppend(ms, m);
      } else {
        InsertOrders(ms[..n], m);
        InsertMembers(ms[..n], m);
        OrderedAppend(Insert(ms[..n], m), last);
      }
    }
  }

  lemma {:induction false} SortOrders(ms: seq<Message>)
    requires Transitive(ms)
    ensures Ordered(Sort(ms))
  {
    if ms != [] {
      var n := |ms| - 1;
      SortOrders(ms[..n]);
      SortMembers(ms[..n]);
      InsertOrders(Sort(ms[..n]), ms[n]);
    }
  }

  /** Every list of these messages sorts into order exactly if the comparison is transitive on them. */
  lemma SortsIff(ms: seq<Message>)
    ensures Transitive(ms) <==> (forall xs: seq<Message> :: (forall x :: x in xs ==> x in ms) ==> Ordered(Sort(xs)))
  {
    if Transitive(ms) {
      forall xs: seq<Message> | forall x :: x in xs ==> x in ms ensures Ordered(Sort(xs)) {
        SortOrders(xs);
      }
    } else {
      var a, b, c :| a in ms && b in ms && c in ms && Compare(a, b) <= 0 && Compare(b, c) <= 0 && Compare(a, c) > 0;
      var xs := [a, b, c];
      SortThree(a, b, c);
      assert Compare(Sort(xs)[0], Sort(xs)[2]) > 0;
      assert !Ordered(Sort(xs));
      assert forall x :: x in xs ==> x in ms;
    }
  }

  lemma SortThree(a: Message, b: Message, c: Message)
    requires Compare(a, b) <= 0 && Compare(b, c) <= 0
    ensures Sort([a, b, c]) == [a, b, c]
  {
    assert [a, b, c][..2] == [a, b] && [a, b][..1] == [a] && [a][..0] == [];
    assert Sort([a]) == [a];
    assert Sort([a, b]) == [a, b];
  }

  /** The hints of a and c put a first or level, their times c first or level, not both level,
      and b, without a hint, lies between them in time. */
  predicate Crosses(a: Message, b: Message, c: Message) {
    && a.seqNo.Some? && b.seqNo.None? && c.seqNo.Some?
    && a.seqNo.value <= c.seqNo.value && Rank(c.time) <= Rank(b.time) <= Rank(a.time)
    && (a.seqNo.value < c.seqNo.value || Rank(c.time) < Rank(a.time))
  }

  /** Some message without a hint lies in time between two whose hints and times disagree. */
  ghost predicate Crossed(ms: seq<Message>) {
    exists a, b, c :: a in ms && b in ms && c in ms && Crosses(a, b, c)
  }

  lemma CrossingIsNotTransitive(a: Message, b: Message, c: Message)
    requires Crosses(a, b, c)
    ensures (Compare(c, b) <= 0 && Compare(b, a) <= 0 && Compare(c, a) > 0)
         || (Compare(a, c) <= 0 && Compare(c, b) <= 0 && Compare(a, b) > 0)
         || (Compare(b, a) <= 0 && Compare(a, c) <= 0 && Compare(b, c) > 0)
  {
  }

  /** Any failure of transitivity is such a crossing. */
  lemma FailureCrosses(a: Message, b: Message, c: Message)
    requires Compare(a, b) <= 0 && Compare(b, c) <= 0 && Compare(a, c) > 0
    ensures Crosses(a, b, c) || Crosses(a, c, b) || Crosses(b, a, c) || Crosses(b, c, a) || Crosses(c, a, b) || Crosses(c, b, a)
  {
  }

  /** The comparison is transitive on some messages exactly if no message without a hint lies in
      time between two whose hints and times disagree. */
  lemma TransitiveIff(ms: seq<Message>)
    ensures Transitive(ms) <==> !Crossed(ms)
  {
    if Crossed(ms) {
      var a, b, c :| a in ms && b in ms && c in ms && Crosses(a, b, c);
      CrossingIsNotTransitive(a, b, c);
    }
    if !Transitive(ms) {
      var a, b, c :| a in ms && b in ms && c in ms && Compare(a, b) <= 0 && Compare(b, c) <= 0 && Compare(a, c) > 0;
      FailureCrosses(a, b, c);
    }
  }

  /** So lists of these messages always come out in order exactly if none of them cross. */
  lemma AlwaysSortsIff(ms: seq<Message>)
    ensures (forall xs: seq<Message> :: (forall x :: x in xs ==> x in ms) ==> Ordered(Sort(xs))) <==> !Crossed(ms)
  {
    SortsIff(ms);
    TransitiveIff(ms);
  }

  predicate IsLevel(m: Message, x: Message) { Compare(m, x) == 0 && Compare(x, m) == 0 }

  /** The messages level with x, in order. */
  function Level(ms: seq<Message>, x: Message): seq<Message> {
    if ms == [] then []
    else Level(ms[..|ms| - 1], x) + (if IsLevel(ms[|ms| - 1], x) then [ms[|ms| - 1]] else [])
  }

  lemma LevelPush(ms: seq<Message>, m: Message, x: Message)
    ensures Level(ms + [m], x) == Level(ms, x) + (if IsLevel(m, x) then [m] else [])
  {
    assert (ms + [m])[..|ms|] == ms;
  }

  lemma NotBothLevel(all: seq<Message>, a: Message, b: Message, x: Message)
    requires Transitive(all) && a in all && b in all && x in all && Compare(a, b) > 0
    ensures !(IsLevel(a, x) && IsLevel(b, x))
  {
  }

  lemma InsertBefore(ms: seq<Message>, m: Message)
    requires ms != [] && Compare(ms[|ms| - 1], m) > 0
    ensures Insert(ms, m) == Insert(ms[..|ms| - 1], m) + [ms[|ms| - 1]]
  {
  }

  lemma LevelLast(ms: seq<Message>, x: Message)
    requires ms != []
    ensures Level(ms, x) == Level(ms[..|ms| - 1], x) + (if IsLevel(ms[|ms| - 1], x) then [ms[|ms| - 1]] else [])
  {
  }

  lemma {:induction false} InsertIsStable(all: seq<Message>, ms: seq<Message>, m: Message, x: Message)
    requires Transitive(all) && m in all && x in all && forall y :: y in ms ==> y in all
    ensures Level(Insert(ms, m), x) == Level(ms, x) + (if IsLevel(m, x) then [m] else [])
    decreases |ms|
  {
    if ms == [] || Compare(ms[|ms| - 1], m) <= 0 {
      LevelPush(ms, m, x);
    } else {
      var front, last := ms[..|ms| - 1], ms[|ms| - 1];
      assert last in ms && forall y :: y in front ==> y in ms;
      InsertBefore(ms, m);
      InsertIsStable(all, front, m, x);
      LevelPush(Insert(front, m), last, x);
      LevelLast(ms, x);
      NotBothLevel(all, last, m, x);
    }
  }

  lemma {:induction false} SortStable(all: seq<Message>, ms: seq<Message>, x: Message)
    requires Transitive(all) && x in all && forall y :: y in ms ==> y in all
    ensures Level(Sort(ms), x) == Level(ms, x)
    decreases |ms|
  {
    if ms != [] {
      var front, last := ms[..|ms| - 1], ms[|ms| - 1];
      SortStable(all, front, x);
      SortMembers(front);
      assert last in ms;
      InsertIsStable(all, Sort(front), last, x);
    }
  }

  /** Messages level in the order come out as they went in. */
  lemma SortIsStable(ms: seq<Message>, x: Message)
    requires Transitive(ms) && x in ms
    ensures Level(Sort(ms), x) == Level(ms, x)
  {
    SortStable(ms, ms, x);
  }

  /** With a hint on all messages or on none the comparison is transitive. */
  lemma UniformIsTransitive(ms: seq<Message>)
    requires (forall m :: m in ms ==> m.seqNo.Some?) || (forall m :: m in ms ==> m.seqNo.None?)
    ensures Transitive(ms)
  {
  }

  /** Hints that disagree with the clocks leave three messages in a circle. */
  lemma MixedGoesInCircles(a: Message, b: Message, c: Message)
    requires a.seqNo == Some(1) && b.seqNo == None && c.seqNo == Some(2)
    requires a.time == Stamp("09:05", 5) && b.time == Stamp("09:03", 3) && c.time == Stamp("09:01", 1)
    ensures Compare(a, c) < 0 && Compare(c, b) < 0 && Compare(b, a) < 0
    ensures !Transitive([a, b, c])
  {
    assert a in [a, b, c] && b in [a, b, c] && c in [a, b, c];
  }

  // ---- Looking a message up ----

  /** The last message with this id. */
  function Find(ms: seq<Message>, id: string): Option<Message> {
    if ms == [] then None
    else if ms[|ms| - 1].id == id then Some(ms[|ms| - 1])
    else Find(ms[..|ms| - 1], id)
  }

  /** The first message with this id. */
  function First(ms: seq<Message>, id: string): Option<Message> {
    if ms == [] then None else if ms[0].id == id then Some(ms[0]) else First(ms[1..], id)
  }

  /** The first name that any copy with this id carries. */
  function NameOf(ms: seq<Message>, id: string): string {
    if ms == [] then ""
    else if ms[0].id == id && ms[0].name != "" then ms[0].name
    else NameOf(ms[1..], id)
  }

  predicate Distinct(ms: seq<Message>) {
    ms != [] ==> Distinct(ms[..|ms| - 1]) && Find(ms[..|ms| - 1], ms[|ms| - 1].id).None?
  }

  lemma FindPush(ms: seq<Message>, m: Message, id: string)
    ensures Find(ms + [m], id) == if m.id == id then Some(m) else Find(ms, id)
  {
    assert (ms + [m])[..|ms|] == ms;
  }

  lemma DistinctPush(ms: seq<Message>, m: Message)
    ensures Distinct(ms + [m]) <==> Distinct(ms) && Find(ms, m.id).None?
  {
    assert (ms + [m])[..|ms|] == ms;
  }

  lemma {:induction false} FirstPush(ms: seq<Message>, m: Message, id: string)
    ensures First(ms + [m], id) == if First(ms, id).Some? then First(ms, id) else if m.id == id then Some(m) else None
    ensures NameOf(ms + [m], id) == if NameOf(ms, id) != "" then NameOf(ms, id) else if m.id == id then m.name else ""
  {
    if ms == [] {
      assert ms + [m] == [m];
    } else {
      assert (ms + [m])[1..] == ms[1..] + [m];
      FirstPush(ms[1..], m, id);
    }
  }

  lemma {:induction false} FindConcat(a: seq<Message>, b: seq<Message>, id: string)
    ensures Find(a + b, id) == if Find(b, id).Some? then Find(b, id) else Find(a, id)
    decreases |b|
  {
    if b == [] {
      assert a + b == a;
    } else {
      FindConcat(a, b[..|b| - 1], id);
      assert (a + b)[..|a + b| - 1] == a + b[..|b| - 1];
    }
  }

  lemma {:induction false} InsertFinds(ms: seq<Message>, m: Message, id: string)
    requires Distinct(ms) && Find(ms, m.id).None?
    ensures Find(Insert(ms, m), id) == if m.id == id then Some(m) else Find(ms, id)
    ensures Distinct(Insert(ms, m))
  {
    if ms == [] || Compare(ms[|ms| - 1], m) <= 0 {
      FindPush(ms, m, id);
      DistinctPush(ms, m);
    } else {
      var front, last := ms[..|ms| - 1], ms[|ms| - 1];
      InsertFinds(front, m, id);
      InsertFinds(front, m, last.id);
      FindPush(Insert(front, m), last, id);
      DistinctPush(Insert(front, m), last);
    }
  }

  lemma {:induction false} SortFinds(ms: seq<Message>, id: string)
    requires Distinct(ms)
    ensures Find(Sort(ms), id) == Find(ms, id) && Distinct(Sort(ms))
  {
    if ms != [] {
      var front, last := ms[..|ms| - 1], ms[|ms| - 1];
      SortFinds(front, id);
      SortFinds(front, last.id);
      InsertFinds(Sort(front), last, id);
    }
  }

  // ---- The merge ----

  /** Where the message with this id stands, or the length when it is absent. */
  function At(ms: seq<Message>, id: string): (i: nat)
    ensures i <= |ms|
    ensures i < |ms| ==> ms[i].id == id && Find(ms, id).Some?
    ensures i == |ms| <==> Find(ms, id).None?
  {
    if ms == [] then 0
    else if ms[|ms| - 1].id == id then |ms| - 1
    else
      var i := At(ms[..|ms| - 1], id);
      if i == |ms| - 1 then |ms| else i
  }

  /** One more pod message: a first copy is kept, a later one only lends a missing name. */
  function AddCopy(list: seq<Message>, p: Message): seq<Message> {
    if p.id == "" then list
    else
      var i := At(list, p.id);
      if i == |list| then list + [p]
      else if list[i].name == "" && p.name != "" then list[i := list[i].(name := p.name)]
      else list
  }

  function Pods(pod: seq<Message>): seq<Message> {
    if pod == [] then [] else AddCopy(Pods(pod[..|pod| - 1]), pod[|pod| - 1])
  }

  /** A pod copy over the local one: the pod wins, local fields fill what it leaves blank. */
  function Merge(l: Option<Message>, p: Message): Message {
    if l.None? then p
    else
      l.value.(
        content := p.content,
        deleted := false,
        time := if p.time.NoStamp? then l.value.time else p.time,
        from := if p.from == "" then l.value.from else p.from,
        name := if p.name == "" then l.value.name else p.name,
        seqNo := if p.seqNo.Some? then p.seqNo else l.value.seqNo,
        verified := if p.verified.Some? then p.verified else l.value.verified)
  }

  function Live(ps: seq<Message>, local: seq<Message>): seq<Message> {
    if ps == [] then []
    else
      var p := ps[|ps| - 1];
      var rest := Live(ps[..|ps| - 1], local);
      if p.deleted then rest else rest + [Merge(Find(local, p.id), p)]
  }

  function LocalOnly(local: seq<Message>, ps: seq<Message>): seq<Message> {
    if local == [] then []
    else
      var l := local[|local| - 1];
      var rest := LocalOnly(local[..|local| - 1], ps);
      if l.id != "" && Find(ps, l.id).None? then rest + [l] else rest
  }

  function Reconciled(local: seq<Message>, pod: seq<Message>): seq<Message> {
    Sort(Live(Pods(pod), local) + LocalOnly(local, Pods(pod)))
  }

  // ---- What the merge holds, id by id ----

  /** What a room shows under an id: nothing for a tombstone, the first pod copy, else the local message. */
  function Expected(local: seq<Message>, pod: seq<Message>, id: string): Option<Message> {
    if id == "" then None
    else
      match First(pod, id)
      case None => Find(local, id)
      case Some(p) => if p.deleted then None else Some(Merge(Find(local, id), p.(name := NameOf(pod, id))))
  }

  lemma {:induction false} ReplaceFinds(list: seq<Message>, i: nat, m: Message, id: string)
    requires Distinct(list) && i < |list| && m.id == list[i].id
    ensures Distinct(list[i := m])
    ensures Find(list[i := m], id) == if id == m.id then Some(m) else Find(list, id)
  {
    var n := |list| - 1;
    if i == n {
      assert list[i := m] == list[..n] + [m];
      FindPush(list[..n], m, id);
      DistinctPush(list[..n], m);
    } else {
      assert list[i := m] == list[..n][i := m] + [list[n]];
      ReplaceFinds(list[..n], i, m, id);
      ReplaceFinds(list[..n], i, m, list[n].id);
      FindPush(list[..n][i := m], list[n], id);
      DistinctPush(list[..n][i := m], list[n]);
      MemberFinds(list[..n], i);
    }
  }

  lemma {:induction false} MemberFinds(list: seq<Message>, i: nat)
    requires i < |list|
    ensures Find(list, list[i].id).Some?
    ensures Distinct(list) ==> Find(list, list[i].id) == Some(list[i]) && At(list, list[i].id) == i
  {
    var n := |list| - 1;
    if i < n { MemberFinds(list[..n], i); }
  }

  /** A pod list read as a map: the first copy under each id, with the first name any copy carries. */
  function FirstNamed(pod: seq<Message>, id: string): Option<Message> {
    if id == "" then None
    else
      match First(pod, id)
      case None => None
      case Some(p) => Some(p.(name := NameOf(pod, id)))
  }

  lemma FirstNamedPush(front: seq<Message>, p: Message, id: string)
    ensures FirstNamed(front + [p], id) ==
      if id == "" || p.id != id then FirstNamed(front, id)
      else if FirstNamed(front, id).None? then Some(p)
      else if FirstNamed(front, id).value.name == "" then Some(FirstNamed(front, id).value.(name := p.name))
      else FirstNamed(front, id)
  {
    FirstPush(front, p, id);
    NameFromFirst(front, id);
  }

  lemma {:induction false} PodsFind(pod: seq<Message>, id: string)
    ensures Distinct(Pods(pod)) && Find(Pods(pod), id) == FirstNamed(pod, id)
  {
    if pod != [] {
      var front, p := pod[..|pod| - 1], pod[|pod| - 1];
      assert pod == front + [p];
      PodsFind(front, id);
      FirstNamedPush(front, p, id);
      AddCopyFinds(Pods(front), p, id);
    }
  }

  lemma {:induction false} NameFromFirst(pod: seq<Message>, id: string)
    ensures NameOf(pod, id) != "" ==> First(pod, id).Some?
    ensures First(pod, id).Some? && First(pod, id).value.name != "" ==> NameOf(pod, id) == First(pod, id).value.name
    ensures First(pod, id).Some? ==> First(pod, id).value.id == id
  {
    if pod != [] { NameFromFirst(pod[1..], id); }
  }

  lemma AddCopyFinds(list: seq<Message>, p: Message, id: string)
    requires Distinct(list)
    ensures Distinct(AddCopy(list, p))
    ensures Find(AddCopy(list, p), id) ==
      if p.id == "" || p.id != id then Find(list, id)
      else if Find(list, id).None? then Some(p)
      else if Find(list, id).value.name == "" then Some(Find(list, id).value.(name := p.name))
      else Find(list, id)
  {
    if p.id != "" {
      var i := At(list, p.id);
      if i == |list| {
        FindPush(list, p, id);
        DistinctPush(list, p);
      } else {
        MemberFinds(list, i);
        ReplaceFinds(list, i, list[i].(name := p.name), id);
      }
    }
  }

  lemma {:induction false} LiveFinds(ps: seq<Message>, local: seq<Message>, id: string)
    requires Distinct(ps)
    ensures Find(Live(ps, local), id) ==
      match Find(ps, id)
      case None => None
      case Some(p) => if p.deleted then None else Some(Merge(Find(local, id), p))
    ensures Distinct(Live(ps, local))
  {
    if ps != [] {
      var front, p := ps[..|ps| - 1], ps[|ps| - 1];
      LiveFinds(front, local, id);
      LiveFinds(front, local, p.id);
      FindHasId(local, p.id);
      if !p.deleted {
        FindPush(Live(front, local), Merge(Find(local, p.id), p), id);
        DistinctPush(Live(front, local), Merge(Find(local, p.id), p));
      }
    }
  }

  lemma {:induction false} FindHasId(ms: seq<Message>, id: string)
    ensures Find(ms, id).Some? ==> Find(ms, id).value.id == id && Find(ms, id).value in ms
  {
    if ms != [] { FindHasId(ms[..|ms| - 1], id); }
  }

  lemma {:induction false} LocalOnlyFinds(local: seq<Message>, ps: seq<Message>, id: string)
    ensures Find(LocalOnly(local, ps), id) ==
      if id == "" || Find(ps, id).Some? then None else Find(local, id)
    ensures Distinct(local) ==> Distinct(LocalOnly(local, ps))
  {
    if local != [] {
      var front, l := local[..|local| - 1], local[|local| - 1];
      LocalOnlyFinds(front, ps, id);
      LocalOnlyFinds(front, ps, l.id);
      FindPush(LocalOnly(front, ps), l, id);
      DistinctPush(LocalOnly(front, ps), l);
    }
  }

  lemma {:induction false} DistinctConcat(a: seq<Message>, b: seq<Message>)
    requires Distinct(a) && Distinct(b) && forall m :: m in b ==> Find(a, m.id).None?
    ensures Distinct(a + b)
    decreases |b|
  {
    if b == [] {
      assert a + b == a;
    } else {
      var front, m := b[..|b| - 1], b[|b| - 1];
      DistinctConcat(a, front);
      FindConcat(a, front, m.id);
      assert a + b == a + front + [m];
      DistinctPush(a + front, m);
    }
  }

  /**
   For distinct local ids the merged history holds, under every id, exactly what is expected
   there, and no id twice.
   */
  lemma MergeIsExact(local: seq<Message>, pod: seq<Message>, id: string)
    requires Distinct(local)
    ensures Find(Reconciled(local, pod), id) == Expected(local, pod, id)
    ensures Distinct(Reconciled(local, pod))
  {
    var ps := Pods(pod);
    var a, b := Live(ps, local), LocalOnly(local, ps);
    PodsFind(pod, id);
    LiveFinds(ps, local, id);
    LocalOnlyFinds(local, ps, id);
    FindConcat(a, b, id);
    forall m | m in b ensures Find(a, m.id).None? {
      var i :| 0 <= i < |b| && b[i] == m;
      MemberFinds(b, i);
      LocalOnlyFinds(local, ps, m.id);
      LiveFinds(ps, local, m.id);
    }
    DistinctConcat(a, b);
    SortFinds(a + b, id);
  }

  /** Field by field: the first pod copy wins, and the local message fills what it leaves blank. */
  lemma PodWins(local: seq<Message>, pod: seq<Message>, id: string)
    requires Distinct(local) && id != "" && First(pod, id).Some? && !First(pod, id).value.deleted
    ensures Find(Reconciled(local, pod), id).Some?
    ensures var p, l, m := First(pod, id).value, Find(local, id), Find(Reconciled(local, pod), id).value;
      && m.content == p.content && !m.deleted
      && m.time == (if p.time.NoStamp? && l.Some? then l.value.time else p.time)
      && m.from == (if p.from == "" && l.Some? then l.value.from else p.from)
      && m.seqNo == (if p.seqNo.None? && l.Some? then l.value.seqNo else p.seqNo)
      && m.verified == (if p.verified.None? && l.Some? then l.value.verified else p.verified)
      && m.name == (if NameOf(pod, id) == "" && l.Some? then l.value.name else NameOf(pod, id))
      && m.extra == (if l.Some? then l.value.extra else p.extra)
      && m.id == id && m.iri == (if l.Some? then l.value.iri else p.iri)
      && m.proof == (if l.Some? then l.value.proof else p.proof)
      && m.deletedAt == (if l.Some? then l.value.deletedAt else p.deletedAt)
      && m.deleteProof == (if l.Some? then l.value.deleteProof else p.deleteProof)
  {
    MergeIsExact(local, pod, id);
    FindHasId(local, id);
    NameFromFirst(pod, id);
  }

  /** With nothing read from the pod every local message stays as it is. */
  lemma OutageKeepsLocal(local: seq<Message>, id: string)
    requires Distinct(local) && id != ""
    ensures Find(Reconciled(local, []), id) == Find(local, id)
  {
    MergeIsExact(local, [], id);
  }

  /** Reading the same pod again changes nothing under any id. */
  lemma MergeIsIdempotent(local: seq<Message>, pod: seq<Message>, id: string)
    requires Distinct(local)
    ensures Find(Reconciled(Reconciled(local, pod), pod), id) == Find(Reconciled(local, pod), id)
  {
    MergeIsExact(local, pod, id);
    MergeIsExact(Reconciled(local, pod), pod, id);
    NameFromFirst(pod, id);
  }

  // ---- The order of the merge ----

  predicate Hinted(ms: seq<Message>, hint: bool) {
    forall m :: m in ms ==> m.seqNo.Some? == hint
  }

  lemma {:induction false} PodsHinted(pod: seq<Message>, hint: bool)
    requires Hinted(pod, hint)
    ensures Hinted(Pods(pod), hint)
  {
    if pod != [] {
      var front, p := pod[..|pod| - 1], pod[|pod| - 1];
      PodsHinted(front, hint);
      assert p in pod;
      var i := At(Pods(front), p.id);
      assert i < |Pods(front)| ==> Pods(front)[i] in Pods(front);
    }
  }

  lemma {:induction false} LiveHinted(ps: seq<Message>, local: seq<Message>, hint: bool)
    requires Hinted(ps, hint) && (Hinted(local, hint) || hint)
    ensures Hinted(Live(ps, local), hint)
  {
    if ps != [] {
      LiveHinted(ps[..|ps| - 1], local, hint);
      FindHasId(local, ps[|ps| - 1].id);
      assert ps[|ps| - 1] in ps;
    }
  }

  lemma {:induction false} LocalOnlyMembers(local: seq<Message>, ps: seq<Message>)
    ensures forall m :: m in LocalOnly(local, ps) ==> m in local && m.id != "" && Find(ps, m.id).None?
  {
    if local != [] { LocalOnlyMembers(local[..|local| - 1], ps); }
  }

  /** The history comes out in order when all messages carry the order hint, or none does. */
  lemma MergeIsOrdered(local: seq<Message>, pod: seq<Message>, hint: bool)
    requires Hinted(local, hint) && Hinted(pod, hint)
    ensures Ordered(Reconciled(local, pod)) && Hinted(Reconciled(local, pod), hint)
  {
    var ps := Pods(pod);
    var all := Live(ps, local) + LocalOnly(local, ps);
    PodsHinted(pod, hint);
    LiveHinted(ps, local, hint);
    LocalOnlyMembers(local, ps);
    assert Hinted(all, hint);
    UniformIsTransitive(all);
    SortOrders(all);
    SortMembers(all);
  }

  /** Each id of the pod has its own place in the gateway's order. */
  ghost predicate Clocked(pod: seq<Message>) {
    && Hinted(pod, true)
    && forall a, b :: a in pod && b in pod && a.seqNo == b.seqNo ==> a.id == b.id
  }

  /** Nothing in this list is unknown to the pod. */
  ghost predicate Known(local: seq<Message>, pod: seq<Message>) {
    forall m :: m in local ==> m.id == "" || First(pod, m.id).Some?
  }

  lemma {:induction false} FirstIsMember(pod: seq<Message>, id: string)
    ensures First(pod, id).Some? ==> First(pod, id).value in pod && First(pod, id).value.id == id
  {
    if pod != [] { FirstIsMember(pod[1..], id); }
  }

  /** This message is in the pod, and stands where the first copy's hint puts it. */
  ghost predicate Placed(pod: seq<Message>, m: Message) {
    m.seqNo.Some? && exists p :: p in pod && p.id == m.id && p.seqNo == m.seqNo && First(pod, m.id) == Some(p)
  }

  lemma PlacedApart(pod: seq<Message>, a: Message, b: Message)
    requires Clocked(pod) && Placed(pod, a) && Placed(pod, b)
    ensures a.seqNo == b.seqNo <==> a.id == b.id
  {
  }

  /** A merged message that the pod has stands where its first pod copy's hint puts it. */
  lemma PlacedInPod(local: seq<Message>, pod: seq<Message>, i: nat)
    requires Distinct(local) && Clocked(pod) && i < |Reconciled(local, pod)|
    requires First(pod, Reconciled(local, pod)[i].id).Some?
    ensures Placed(pod, Reconciled(local, pod)[i])
  {
    var r := Reconciled(local, pod);
    MergeIsExact(local, pod, r[i].id);
    MemberFinds(r, i);
    FirstIsMember(pod, r[i].id);
    FindHasId(local, r[i].id);
  }

  /** In a known list that is every message. */
  lemma PlacedByPod(local: seq<Message>, pod: seq<Message>, i: nat)
    requires Distinct(local) && Clocked(pod) && Known(local, pod) && i < |Reconciled(local, pod)|
    ensures Placed(pod, Reconciled(local, pod)[i])
  {
    var r := Reconciled(local, pod);
    MergeIsExact(local, pod, r[i].id);
    MemberFinds(r, i);
    FindHasId(local, r[i].id);
    PlacedInPod(local, pod, i);
  }

  function SeqNos(ms: seq<Message>): (r: seq<int>)
    requires Hinted(ms, true)
    ensures |r| == |ms| && forall i :: 0 <= i < |ms| ==> r[i] == ms[i].seqNo.value
  {
    seq(|ms|, i requires 0 <= i < |ms| => (assert ms[i] in ms; ms[i].seqNo.value))
  }

  ghost predicate Rising(ns: seq<int>) { forall i, j :: 0 <= i < j < |ns| ==> ns[i] < ns[j] }

  lemma FirstIsIn(a: seq<int>)
    ensures a != [] ==> a[0] in a
  {
  }

  lemma LastIsLargest(a: seq<int>, x: int)
    requires Rising(a) && x in a
    ensures x <= a[|a| - 1] && (x in a[..|a| - 1] <==> x != a[|a| - 1])
  {
    var i :| 0 <= i < |a| && a[i] == x;
    assert i < |a| - 1 ==> a[..|a| - 1][i] == x;
  }

  /** A rising list is determined by its members. */
  lemma {:induction false} RisingIsUnique(a: seq<int>, b: seq<int>)
    requires Rising(a) && Rising(b) && forall x :: x in a <==> x in b
    ensures a == b
  {
    FirstIsIn(a);
    FirstIsIn(b);
    if a != [] && b != [] {
      var m, n := |a| - 1, |b| - 1;
      assert a[m] in b && b[n] in a;
      LastIsLargest(a, b[n]);
      LastIsLargest(b, a[m]);
      forall x ensures x in a[..m] <==> x in b[..n] {
        if x in a { LastIsLargest(a, x); LastIsLargest(b, x); }
      }
      RisingIsUnique(a[..m], b[..n]);
      assert a == a[..m] + [a[m]] && b == b[..n] + [b[n]];
    }
  }

  lemma MergeIsDistinct(local: seq<Message>, pod: seq<Message>)
    requires Distinct(local)
    ensures Distinct(Reconciled(local, pod))
  {
    MergeIsExact(local, pod, "");
  }

  lemma MergeHinted(local: seq<Message>, pod: seq<Message>)
    requires Distinct(local) && Clocked(pod) && Known(local, pod)
    ensures Hinted(Reconciled(local, pod), true) && Ordered(Reconciled(local, pod))
  {
    var r := Reconciled(local, pod);
    forall m | m in r ensures m.seqNo.Some? {
      var i :| 0 <= i < |r| && r[i] == m;
      PlacedByPod(local, pod, i);
    }
    var all := Live(Pods(pod), local) + LocalOnly(local, Pods(pod));
    SortMembers(all);
    UniformIsTransitive(all);
    SortOrders(all);
  }

  lemma DistinctPlaces(ms: seq<Message>, i: nat, j: nat)
    requires Distinct(ms) && i < j < |ms|
    ensures ms[i].id != ms[j].id
  {
    MemberFinds(ms, i);
    MemberFinds(ms, j);
  }

  lemma PlacedRises(pod: seq<Message>, a: Message, b: Message)
    requires Clocked(pod) && Placed(pod, a) && Placed(pod, b) && a.id != b.id && Compare(a, b) <= 0
    ensures a.seqNo.value < b.seqNo.value
  {
    PlacedApart(pod, a, b);
  }

  lemma MergeRises(local: seq<Message>, pod: seq<Message>)
    requires Distinct(local) && Clocked(pod) && Known(local, pod)
    ensures Hinted(Reconciled(local, pod), true) && Rising(SeqNos(Reconciled(local, pod)))
  {
    var r := Reconciled(local, pod);
    MergeHinted(local, pod);
    MergeIsDistinct(local, pod);
    forall i, j | 0 <= i < j < |r| ensures SeqNos(r)[i] < SeqNos(r)[j]
    {
      PlacedByPod(local, pod, i);
      PlacedByPod(local, pod, j);
      DistinctPlaces(r, i, j);
      PlacedRises(pod, r[i], r[j]);
    }
  }

  /** What one device shows under the pod's ids, the other shows too. */
  lemma ShownByBoth(local: seq<Message>, other: seq<Message>, pod: seq<Message>, i: nat) returns (j: nat)
    requires Distinct(local) && Distinct(other) && Clocked(pod) && Known(local, pod)
    requires i < |Reconciled(local, pod)|
    ensures j < |Reconciled(other, pod)| && Reconciled(other, pod)[j].id == Reconciled(local, pod)[i].id
  {
    var r, q := Reconciled(local, pod), Reconciled(other, pod);
    PlacedByPod(local, pod, i);
    MergeIsExact(local, pod, r[i].id);
    MergeIsExact(other, pod, r[i].id);
    MemberFinds(r, i);
    FindHasId(q, r[i].id);
    j :| 0 <= j < |q| && q[j] == Find(q, r[i].id).value;
  }

  lemma SeqNosSubset(local: seq<Message>, other: seq<Message>, pod: seq<Message>, n: int)
    requires Distinct(local) && Distinct(other) && Clocked(pod) && Known(local, pod) && Known(other, pod)
    requires Hinted(Reconciled(local, pod), true) && Hinted(Reconciled(other, pod), true)
    requires n in SeqNos(Reconciled(local, pod))
    ensures n in SeqNos(Reconciled(other, pod))
  {
    var r, q := Reconciled(local, pod), Reconciled(other, pod);
    var i :| 0 <= i < |r| && SeqNos(r)[i] == n;
    var j := ShownByBoth(local, other, pod, i);
    PlacedByPod(local, pod, i);
    PlacedByPod(other, pod, j);
    PlacedApart(pod, r[i], q[j]);
    assert SeqNos(q)[j] == n;
  }

  /** Two devices that read the same clocked pod show the same ids in the same order. */
  lemma DevicesAgreeOnOrder(mine: seq<Message>, yours: seq<Message>, pod: seq<Message>)
    requires Distinct(mine) && Distinct(yours) && Clocked(pod) && Known(mine, pod) && Known(yours, pod)
    ensures |Reconciled(mine, pod)| == |Reconciled(yours, pod)|
    ensures forall i :: 0 <= i < |Reconciled(mine, pod)| ==> Reconciled(mine, pod)[i].id == Reconciled(yours, pod)[i].id
  {
    var r, q := Reconciled(mine, pod), Reconciled(yours, pod);
    MergeRises(mine, pod);
    MergeRises(yours, pod);
    forall n ensures n in SeqNos(r) <==> n in SeqNos(q) {
      if n in SeqNos(r) { SeqNosSubset(mine, yours, pod, n); }
      if n in SeqNos(q) { SeqNosSubset(yours, mine, pod, n); }
    }
    RisingIsUnique(SeqNos(r), SeqNos(q));
    forall i | 0 <= i < |r| ensures r[i].id == q[i].id {
      PlacedByPod(mine, pod, i);
      PlacedByPod(yours, pod, i);
      PlacedApart(pod, r[i], q[i]);
      assert SeqNos(r)[i] == SeqNos(q)[i];
    }
  }

  /** A merge without crossings comes out in order. */
  lemma UncrossedIsOrdered(local: seq<Message>, pod: seq<Message>)
    requires !Crossed(Reconciled(local, pod))
    ensures Ordered(Reconciled(local, pod))
  {
    var all := Live(Pods(pod), local) + LocalOnly(local, Pods(pod));
    SortMembers(all);
    assert !Crossed(all);
    TransitiveIff(all);
    SortOrders(all);
  }

  lemma OutOfOrder(q: seq<Message>, i: nat, j: nat)
    requires Ordered(q) && i < |q| && j < |q| && i != j && Compare(q[j], q[i]) > 0
    ensures i < j
  {
  }

  lemma SameSide(pod: seq<Message>, r: seq<Message>, q: seq<Message>, i: nat, j: nat, i2: nat, j2: nat)
    requires Clocked(pod) && Ordered(r) && Ordered(q) && Distinct(r)
    requires i < j < |r| && i2 < |q| && j2 < |q| && r[i].id == q[i2].id && r[j].id == q[j2].id
    requires Placed(pod, r[i]) && Placed(pod, r[j]) && Placed(pod, q[i2]) && Placed(pod, q[j2])
    ensures i2 < j2
  {
    DistinctPlaces(r, i, j);
    PlacedRises(pod, r[i], r[j]);
    PlacedApart(pod, r[i], q[i2]);
    PlacedApart(pod, r[j], q[j2]);
    OutOfOrder(q, i2, j2);
  }

  /**
   Two devices that read the same clocked pod show any two of its messages in the same order,
   whatever else each of them holds, as long as nothing it shows crosses.
   */
  lemma DevicesAgreeOnPairs(mine: seq<Message>, yours: seq<Message>, pod: seq<Message>, i: nat, j: nat, i2: nat, j2: nat)
    requires Distinct(mine) && Distinct(yours) && Clocked(pod)
    requires !Crossed(Reconciled(mine, pod)) && !Crossed(Reconciled(yours, pod))
    requires i < j < |Reconciled(mine, pod)| && i2 < |Reconciled(yours, pod)| && j2 < |Reconciled(yours, pod)|
    requires Reconciled(mine, pod)[i].id == Reconciled(yours, pod)[i2].id && First(pod, Reconciled(mine, pod)[i].id).Some?
    requires Reconciled(mine, pod)[j].id == Reconciled(yours, pod)[j2].id && First(pod, Reconciled(mine, pod)[j].id).Some?
    ensures i2 < j2
  {
    UncrossedIsOrdered(mine, pod);
    UncrossedIsOrdered(yours, pod);
    MergeIsDistinct(mine, pod);
    PlacedInPod(mine, pod, i);
    PlacedInPod(mine, pod, j);
    PlacedInPod(yours, pod, i2);
    PlacedInPod(yours, pod, j2);
    SameSide(pod, Reconciled(mine, pod), Reconciled(yours, pod), i, j, i2, j2);
  }

  // ---- Who may delete ----

  /** Where a WebID's pod is (empty: nowhere) and the signer published there (empty: none). */
  datatype Trust = Trust(podRoot: string -> string, signerAt: string -> string)

  function Published(t: Trust, webid: string): string {
    if webid == "" || t.podRoot(webid) == "" then "" else t.signerAt(t.podRoot(webid))
  }

  function SignedBy(p: Proof, fields: seq<string>): string {
    if p.Proof? && p.over == fields then p.signer else ""
  }

  function TimeText(t: Stamp): string { if t.NoStamp? then "" else t.text }

  /** The signer of a message: over all five fields, or over the older four if no name is shown. */
  function MessageSigner(m: Message): string {
    var s := SignedBy(m.proof, [m.iri, TimeText(m.time), m.content, m.from, m.name]);
    if s != "" || m.name != "" then s else SignedBy(m.proof, [m.iri, TimeText(m.time), m.content, m.from])
  }

  predicate Proven(t: Trust, m: Message) {
    m.from != "" && MessageSigner(m) != "" && MessageSigner(m) == Published(t, m.from)
  }

  /** A name shown with a verified message is one its maker's published signer signed. */
  lemma ProvenIff(t: Trust, m: Message)
    ensures Proven(t, m) <==>
      && m.from != "" && t.podRoot(m.from) != "" && m.proof.Proof?
      && m.proof.signer != "" && m.proof.signer == t.signerAt(t.podRoot(m.from))
      && var time := if m.time.Stamp? then m.time.text else "";
         m.proof.over == [m.iri, time, m.content, m.from, m.name]
         || (m.name == "" && m.proof.over == [m.iri, time, m.content, m.from])
  {
  }

  /** The tombstone is signed for this message and time by the maker's or the owner's published signer. */
  predicate Authorised(t: Trust, owner: string, m: Message) {
    var s := SignedBy(m.deleteProof, [m.iri, m.deletedAt]);
    m.deletedAt != "" && s != "" && (s == Published(t, m.from) || s == Published(t, owner))
  }

  lemma AuthorisedIff(t: Trust, owner: string, m: Message)
    ensures Authorised(t, owner, m) <==>
      && m.deletedAt != "" && m.deleteProof.Proof? && m.deleteProof.over == [m.iri, m.deletedAt] && m.deleteProof.signer != ""
      && (|| (m.from != "" && t.podRoot(m.from) != "" && m.deleteProof.signer == t.signerAt(t.podRoot(m.from)))
          || (owner != "" && t.podRoot(owner) != "" && m.deleteProof.signer == t.signerAt(t.podRoot(owner))))
  {
  }

  function Checked(t: Trust, owner: string, m: Message): Message {
    if m.iri == "" then m
    else
      var v := if Proven(t, m) then m.(verified := Some(true)) else m;
      if Authorised(t, owner, m) then v.(deleted := true, content := "") else v
  }

  function CheckedAll(t: Trust, owner: string, ms: seq<Message>): (r: seq<Message>)
    ensures |r| == |ms| && forall i :: 0 <= i < |ms| ==> r[i] == Checked(t, owner, ms[i])
  {
    seq(|ms|, i requires 0 <= i < |ms| => Checked(t, owner, ms[i]))
  }

  /**
   Checking a list marks a message verified exactly if it has an IRI and its maker's published signer
   signed its five fields, or the older four where no name is shown; any other mark stays as it was.
   An authorised tombstone blanks it, and nothing else about it changes.
   */
  lemma VerifiedIff(t: Trust, owner: string, ms: seq<Message>, i: nat)
    requires i < |ms|
    ensures var m, c := ms[i], CheckedAll(t, owner, ms)[i]; var time := if m.time.Stamp? then m.time.text else "";
      c.verified == if
        && m.iri != "" && m.from != "" && t.podRoot(m.from) != "" && m.proof.Proof?
        && m.proof.signer != "" && m.proof.signer == t.signerAt(t.podRoot(m.from))
        && (m.proof.over == [m.iri, time, m.content, m.from, m.name]
            || (m.name == "" && m.proof.over == [m.iri, time, m.content, m.from]))
        then Some(true) else m.verified
    ensures var m, c := ms[i], CheckedAll(t, owner, ms)[i]; var gone := m.iri != "" && Authorised(t, owner, m);
      && c.deleted == (gone || m.deleted) && c.content == (if gone then "" else m.content)
      && c == m.(verified := c.verified, deleted := c.deleted, content := c.content)
  {
    ProvenIff(t, ms[i]);
  }

  function Bare(m: Message): Message { m.(deletedAt := "", deleteProof := NoProof) }

  function BareAll(ms: seq<Message>): (r: seq<Message>)
    ensures |r| == |ms| && forall i :: 0 <= i < |ms| ==> r[i] == Bare(ms[i])
  {
    seq(|ms|, i requires 0 <= i < |ms| => Bare(ms[i]))
  }

  lemma {:induction false} CheckedFirst(t: Trust, owner: string, ms: seq<Message>, id: string)
    ensures First(CheckedAll(t, owner, ms), id) ==
      match First(ms, id)
      case None => None
      case Some(p) => Some(Checked(t, owner, p))
    ensures NameOf(CheckedAll(t, owner, ms), id) == NameOf(ms, id)
  {
    if ms != [] {
      CheckedFirst(t, owner, ms[1..], id);
      assert CheckedAll(t, owner, ms)[1..] == CheckedAll(t, owner, ms[1..]);
    }
  }

  lemma {:induction false} BareFirst(ms: seq<Message>, id: string)
    ensures First(BareAll(ms), id) ==
      match First(ms, id)
      case None => None
      case Some(p) => Some(Bare(p))
    ensures NameOf(BareAll(ms), id) == NameOf(ms, id)
  {
    if ms != [] {
      BareFirst(ms[1..], id);
      assert BareAll(ms)[1..] == BareAll(ms[1..]);
    }
  }

  /** What a room shows under an id, tombstone fields aside. */
  function Shown(t: Trust, owner: string, local: seq<Message>, pod: seq<Message>, id: string): Option<Message> {
    match Find(Reconciled(local, CheckedAll(t, owner, pod)), id)
    case None => None
    case Some(m) => Some(Bare(m))
  }

  /** A message the pod has is hidden exactly if its first copy is already marked deleted, or has an
      IRI and an authorised tombstone. */
  lemma HiddenIff(t: Trust, owner: string, local: seq<Message>, pod: seq<Message>, id: string)
    requires Distinct(local) && id != "" && First(pod, id).Some?
    ensures var p := First(pod, id).value;
      Shown(t, owner, local, pod, id).None? <==> p.deleted || (p.iri != "" && Authorised(t, owner, p))
  {
    CheckedFirst(t, owner, pod, id);
    FirstIsMember(pod, id);
    MergeIsExact(local, CheckedAll(t, owner, pod), id);
  }

  /** In an own room the index copy, without an IRI, comes before the Long Chat copy; there an
      authorised deletion on the Long Chat copy does not hide the message. */
  lemma LaterTombstoneIsNotHonoured(t: Trust, owner: string, indexed: Message, chat: Message)
    requires indexed.id == "m1" && indexed.iri == "" && !indexed.deleted && indexed.deletedAt == ""
    requires chat.id == "m1" && chat.iri != "" && Authorised(t, owner, chat)
    ensures Shown(t, owner, [], [indexed, chat], "m1").Some?
    ensures Shown(t, owner, [], [chat, indexed], "m1").None?
  {
    assert First([indexed, chat], "m1") == Some(indexed) && First([chat, indexed], "m1") == Some(chat);
    HiddenIff(t, owner, [], [indexed, chat], "m1");
    HiddenIff(t, owner, [], [chat, indexed], "m1");
  }

  /**
   A pod message is shown as verified exactly if its first copy has an IRI and is proven as read; where it
   is not, the pod's own mark is shown, and only without one the local mark.  Text, maker and time come
   from that copy, and a name from it or, missing there, from a later copy of the pod.
   */
  lemma ShownAsVerifiedIff(t: Trust, owner: string, local: seq<Message>, pod: seq<Message>, id: string)
    requires Distinct(local) && id != "" && Shown(t, owner, local, pod, id).Some? && First(pod, id).Some?
    ensures var p, l, m := First(pod, id).value, Find(local, id), Shown(t, owner, local, pod, id).value;
      && m.verified == (if p.iri != "" && Proven(t, p) then Some(true)
                        else if p.verified.Some? then p.verified
                        else if l.Some? then l.value.verified else None)
      && m.content == p.content && (p.from != "" ==> m.from == p.from) && (p.time.Stamp? ==> m.time == p.time)
      && m.name == (if p.name != "" then p.name else if NameOf(pod, id) != "" then NameOf(pod, id)
                    else if l.Some? then l.value.name else "")
  {
    CheckedFirst(t, owner, pod, id);
    MergeIsExact(local, CheckedAll(t, owner, pod), id);
    NameFromFirst(pod, id);
  }

  /** The name shown with a proven message is empty or signed with it exactly if the first copy carries a
      name, or nothing else has one to lend. */
  lemma ShownNameIsSignedIff(t: Trust, owner: string, local: seq<Message>, pod: seq<Message>, id: string)
    requires Distinct(local) && id != "" && Shown(t, owner, local, pod, id).Some? && First(pod, id).Some?
    requires First(pod, id).value.iri != "" && Proven(t, First(pod, id).value)
    ensures var p, l, m := First(pod, id).value, Find(local, id), Shown(t, owner, local, pod, id).value;
      (m.name == "" || p.proof.over == [p.iri, TimeText(p.time), p.content, p.from, m.name])
      <==> p.name != "" || (NameOf(pod, id) == "" && (l.None? || l.value.name == ""))
  {
    ShownAsVerifiedIff(t, owner, local, pod, id);
    NameIsLast(First(pod, id).value.proof.over);
  }

  lemma NameIsLast(over: seq<string>)
    ensures forall a, b, c, d, n, n2 :: over == [a, b, c, d, n] && over == [a, b, c, d, n2] ==> n == n2
  {
    forall a, b, c, d, n, n2 | over == [a, b, c, d, n] && over == [a, b, c, d, n2] ensures n == n2 {
      assert over[4] == n;
    }
  }

  /** One such list: a proven nameless copy is shown as verified under the name of an unsigned second copy. */
  lemma LentNameIsUnsigned(t: Trust, owner: string, first: Message, later: Message)
    requires first.id == "m1" && first.iri != "" && first.name == "" && Proven(t, first)
    requires !first.deleted && first.deletedAt == ""
    requires later.id == "m1" && later.name == "Carol" && later.proof == NoProof
    ensures var m := Shown(t, owner, [], [first, later], "m1");
      m.Some? && m.value.verified == Some(true) && m.value.name == "Carol"
  {
    var pod := [first, later];
    assert First(pod, "m1") == Some(first) && pod[1..] == [later];
    assert NameOf(pod, "m1") == "Carol";
    HiddenIff(t, owner, [], pod, "m1");
    ShownAsVerifiedIff(t, owner, [], pod, "m1");
  }

  /** What the pod does not have is shown as this device has it, mark included. */
  lemma LocalShownAsIs(t: Trust, owner: string, local: seq<Message>, pod: seq<Message>, id: string)
    requires Distinct(local) && id != "" && First(pod, id).None? && Find(local, id).Some?
    ensures Shown(t, owner, local, pod, id) == Some(Bare(Find(local, id).value))
  {
    CheckedFirst(t, owner, pod, id);
    MergeIsExact(local, CheckedAll(t, owner, pod), id);
  }

  /** What is shown under an id depends on the local message, the first pod copy and the name. */
  function ShownFrom(t: Trust, owner: string, l: Option<Message>, first: Option<Message>, name: string): Option<Message> {
    match first
    case None => (match l case None => None case Some(m) => Some(Bare(m)))
    case Some(p) =>
      var c := Checked(t, owner, p);
      if c.deleted then None else Some(Bare(Merge(l, c.(name := name))))
  }

  lemma ShownIs(t: Trust, owner: string, local: seq<Message>, pod: seq<Message>, id: string)
    requires Distinct(local) && id != ""
    ensures Shown(t, owner, local, pod, id)
         == ShownFrom(t, owner, Find(local, id), First(pod, id), NameOf(pod, id))
  {
    CheckedFirst(t, owner, pod, id);
    MergeIsExact(local, CheckedAll(t, owner, pod), id);
  }

  lemma BareShowsTheSame(t: Trust, owner: string, l: Option<Message>, p: Message, name: string)
    requires !Authorised(t, owner, p)
    ensures ShownFrom(t, owner, l, Some(p), name) == ShownFrom(t, owner, l, Some(Bare(p)), name)
  {
    assert Proven(t, p) == Proven(t, Bare(p)) && !Authorised(t, owner, Bare(p));
  }

  /** Whatever tombstones nobody authorised are added, changed or removed, every id shows the same. */
  lemma ForgedTombstonesChangeNothing(t: Trust, owner: string, local: seq<Message>, pod: seq<Message>, id: string)
    requires Distinct(local) && (First(pod, id).Some? ==> !Authorised(t, owner, First(pod, id).value))
    ensures Shown(t, owner, local, pod, id) == Shown(t, owner, local, BareAll(pod), id)
  {
    if id == "" {
      MergeIsExact(local, CheckedAll(t, owner, pod), id);
      MergeIsExact(local, CheckedAll(t, owner, BareAll(pod)), id);
    } else {
      BareFirst(pod, id);
      ShownIs(t, owner, local, pod, id);
      ShownIs(t, owner, local, BareAll(pod), id);
      if First(pod, id).Some? {
        BareShowsTheSame(t, owner, Find(local, id), First(pod, id).value, NameOf(pod, id));
      }
    }
  }

  // ---- The loops ----

  lemma {:induction false} AtPush(list: seq<Message>, m: Message, id: string)
    ensures At(list + [m], id) ==
      if m.id == id then |list| else if At(list, id) == |list| then |list| + 1 else At(list, id)
  {
    assert (list + [m])[..|list|] == list;
  }

  lemma {:induction false} AtReplace(list: seq<Message>, i: nat, m: Message, id: string)
    requires i < |list| && m.id == list[i].id
    ensures At(list[i := m], id) == At(list, id)
  {
    var n := |list| - 1;
    var front, last := list[..n], list[n];
    AtPush(front, last, id);
    assert list == front + [last];
    if i == n {
      AtPush(front, m, id);
      assert list[i := m] == front + [m];
    } else {
      AtReplace(front, i, m, id);
      AtPush(front[i := m], last, id);
      assert list[i := m] == front[i := m] + [last];
    }
  }

  /** The index map says where each id stands. */
  ghost predicate Indexes(idx: map<string, nat>, list: seq<Message>) {
    && (forall id :: id in idx ==> id != "" && At(list, id) == idx[id] < |list|)
    && (forall id :: id != "" && At(list, id) < |list| ==> id in idx)
  }

  lemma IndexesPush(idx: map<string, nat>, list: seq<Message>, p: Message)
    requires Indexes(idx, list) && p.id != "" && p.id !in idx
    ensures Indexes(idx[p.id := |list|], list + [p])
  {
    forall id ensures At(list + [p], id) == if p.id == id then |list| else if At(list, id) == |list| then |list| + 1 else At(list, id) {
      AtPush(list, p, id);
    }
  }

  lemma IndexesReplace(idx: map<string, nat>, list: seq<Message>, i: nat, m: Message)
    requires Indexes(idx, list) && i < |list| && m.id == list[i].id
    ensures Indexes(idx, list[i := m])
  {
    forall id ensures At(list[i := m], id) == At(list, id) {
      AtReplace(list, i, m, id);
    }
  }

  /** One entry per id of the pod: the first copy, with a name from a later one if it has none. */
  method CollectPods(pod: seq<Message>) returns (list: seq<Message>)
    ensures list == Pods(pod)
  {
    list := [];
    var idx: map<string, nat> := map[];
    for k := 0 to |pod|
      invariant list == Pods(pod[..k]) && Indexes(idx, list)
    {
      var p := pod[k];
      assert pod[..k + 1][..k] == pod[..k];
      if p.id == "" {
      } else if p.id !in idx {
        IndexesPush(idx, list, p);
        idx := idx[p.id := |list|];
        list := list + [p];
      } else {
        var i := idx[p.id];
        if list[i].name == "" && p.name != "" {
          IndexesReplace(idx, list, i, list[i].(name := p.name));
          list := list[i := list[i].(name := p.name)];
        }
      }
    }
    assert pod[..|pod|] == pod;
  }

  /** The local map holds the last message of each id. */
  ghost predicate Maps(byId: map<string, Message>, local: seq<Message>) {
    forall id :: id != "" ==> (if id in byId then Find(local, id) == Some(byId[id]) else Find(local, id) == None)
  }

  function Lookup(byId: map<string, Message>, id: string): Option<Message> {
    if id in byId then Some(byId[id]) else None
  }

  method MapLocal(local: seq<Message>) returns (byId: map<string, Message>)
    ensures Maps(byId, local)
  {
    byId := map[];
    for k := 0 to |local|
      invariant Maps(byId, local[..k])
    {
      assert local[..k + 1][..k] == local[..k];
      if local[k].id != "" { byId := byId[local[k].id := local[k]]; }
    }
    assert local[..|local|] == local;
  }

  lemma {:induction false} PodsHaveIds(pod: seq<Message>)
    ensures forall p :: p in Pods(pod) ==> p.id != ""
  {
    if pod != [] { PodsHaveIds(pod[..|pod| - 1]); }
  }

  /** The ids seen so far are those of the list. */
  ghost predicate Seen(seen: set<string>, ps: seq<Message>) {
    forall id :: id in seen <==> Find(ps, id).Some?
  }

  lemma SeenPush(seen: set<string>, ps: seq<Message>, p: Message)
    requires Seen(seen, ps)
    ensures Seen(seen + {p.id}, ps + [p])
  {
    forall id ensures Find(ps + [p], id) == if p.id == id then Some(p) else Find(ps, id) {
      FindPush(ps, p, id);
    }
  }

  method ReconcileRoomHistory(local: seq<Message>, pod: seq<Message>) returns (merged: seq<Message>)
    ensures merged == Reconciled(local, pod)
  {
    var byId := MapLocal(local);
    var ps := CollectPods(pod);
    PodsHaveIds(pod);
    var out: seq<Message> := [];
    var seen: set<string> := {};
    for k := 0 to |ps|
      invariant out == Live(ps[..k], local) && Seen(seen, ps[..k])
    {
      var p := ps[k];
      assert ps[..k + 1] == ps[..k] + [p] && ps[..k + 1][..k] == ps[..k];
      SeenPush(seen, ps[..k], p);
      seen := seen + {p.id};
      assert p in ps;
      if !p.deleted { out := out + [Merge(Lookup(byId, p.id), p)]; }
    }
    assert ps[..|ps|] == ps;
    ghost var live := out;
    for k := 0 to |local|
      invariant out == live + LocalOnly(local[..k], ps)
    {
      assert local[..k + 1][..k] == local[..k];
      if local[k].id != "" && local[k].id !in seen { out := out + [local[k]]; }
    }
    assert local[..|local|] == local;
    merged := Sort(out);
  }

  /** Fetch each pod's signer once. */
  method PublishedSigner(t: Trust, cache: map<string, string>, webid: string)
    returns (signer: string, after: map<string, string>)
    requires forall root :: root in cache ==> cache[root] == t.signerAt(root)
    ensures signer == Published(t, webid)
    ensures forall root :: root in after ==> after[root] == t.signerAt(root)
  {
    after := cache;
    if webid == "" || t.podRoot(webid) == "" { return "", after; }
    var root := t.podRoot(webid);
    if root !in after { after := after[root := t.signerAt(root)]; }
    signer := after[root];
  }

  /** Check one message; the signers fetched so far are kept. */
  method CheckOne(t: Trust, owner: string, cache: map<string, string>, before: Message)
    returns (m: Message, after: map<string, string>)
    requires forall root :: root in cache ==> cache[root] == t.signerAt(root)
    ensures m == Checked(t, owner, before)
    ensures forall root :: root in after ==> after[root] == t.signerAt(root)
  {
    m, after := before, cache;
    if m.iri == "" { return; }
    if m.proof.Proof? && m.from != "" {
      var signer := MessageSigner(m);
      if signer != "" {
        var published;
        published, after := PublishedSigner(t, after, m.from);
        if signer == published { m := m.(verified := Some(true)); }
      }
    }
    if m.deletedAt != "" && m.deleteProof.Proof? {
      var signer := SignedBy(m.deleteProof, [m.iri, m.deletedAt]);
      if signer != "" {
        var maker, owning := "", "";
        maker, after := PublishedSigner(t, after, m.from);
        if owner != "" { owning, after := PublishedSigner(t, after, owner); }
        if signer == maker || signer == owning { m := m.(deleted := true, content := ""); }
      }
    }
  }

  method VerifyLongChatMessages(ms: array<Message>, t: Trust, owner: string)
    modifies ms
    ensures ms[..] == CheckedAll(t, owner, old(ms[..]))
  {
    var cache: map<string, string> := map[];
    for k := 0 to ms.Length
      invariant forall root :: root in cache ==> cache[root] == t.signerAt(root)
      invariant forall i :: 0 <= i < k ==> ms[i] == Checked(t, owner, old(ms[i]))
      invariant forall i :: k <= i < ms.Length ==> ms[i] == old(ms[i])
    {
      var m;
      m, cache := CheckOne(t, owner, cache, ms[k]);
      ms[k] := m;
    }
    assert forall i :: 0 <= i < ms.Length ==> ms[..][i] == CheckedAll(t, owner, old(ms[..]))[i];
  }

  // ---- Reactions ----

  datatype Reaction = Reaction(
    action: string, target: string, emoji: string, agent: string, proof: Proof,
    canceledAt: string, cancelProof: Proof, verified: bool)

  predicate Reacted(t: Trust, r: Reaction) {
    var s := SignedBy(r.proof, [r.action, r.target, r.agent, r.emoji]);
    r.action != "" && r.agent != "" && s != "" && s == Published(t, r.agent)
  }

  predicate Withdrawn(t: Trust, r: Reaction) {
    var s := SignedBy(r.cancelProof, [r.action, r.canceledAt]);
    r.canceledAt != "" && s != "" && s == Published(t, r.agent)
  }

  function Active(t: Trust, rs: seq<Reaction>): seq<Reaction> {
    if rs == [] then []
    else
      var rest, r := Active(t, rs[..|rs| - 1]), rs[|rs| - 1];
      if Reacted(t, r) && !Withdrawn(t, r) then rest + [r.(verified := true)] else rest
  }

  /** A reaction counts exactly if its agent signed it and has not signed its withdrawal. */
  lemma {:induction false} ActiveIff(t: Trust, rs: seq<Reaction>, x: Reaction)
    ensures x in Active(t, rs) <==>
      exists i :: 0 <= i < |rs| && x == rs[i].(verified := true) && Reacted(t, rs[i]) && !Withdrawn(t, rs[i])
  {
    if rs != [] {
      var n := |rs| - 1;
      ActiveIff(t, rs[..n], x);
      assert forall i :: 0 <= i < n ==> rs[..n][i] == rs[i];
    }
  }

  lemma ReactedIff(t: Trust, r: Reaction)
    ensures Reacted(t, r) <==>
      && r.action != "" && r.agent != "" && t.podRoot(r.agent) != "" && r.proof.Proof? && r.proof.signer != ""
      && r.proof.over == [r.action, r.target, r.agent, r.emoji] && r.proof.signer == t.signerAt(t.podRoot(r.agent))
    ensures r.agent != "" && t.podRoot(r.agent) != "" ==>
      (Withdrawn(t, r) <==>
        && r.canceledAt != "" && r.cancelProof.Proof? && r.cancelProof.signer != ""
        && r.cancelProof.over == [r.action, r.canceledAt] && r.cancelProof.signer == t.signerAt(t.podRoot(r.agent)))
  {
  }

  lemma ActivePush(t: Trust, rs: seq<Reaction>, r: Reaction)
    ensures Active(t, rs + [r]) == Active(t, rs) + (if Reacted(t, r) && !Withdrawn(t, r) then [r.(verified := true)] else [])
  {
    assert (rs + [r])[..|rs|] == rs;
  }

  /** Each reaction is judged alone, and those that count keep their order. */
  lemma {:induction false} ActiveOneByOne(t: Trust, front: seq<Reaction>, back: seq<Reaction>)
    ensures Active(t, front + back) == Active(t, front) + Active(t, back)
    decreases |back|
  {
    if back == [] {
      assert front + back == front;
    } else {
      var most, last := back[..|back| - 1], back[|back| - 1];
      assert back == most + [last] && front + back == front + most + [last];
      ActiveOneByOne(t, front, most);
      ActivePush(t, front + most, last);
      ActivePush(t, most, last);
    }
  }

  method VerifyReactionActions(rs: seq<Reaction>, t: Trust) returns (out: seq<Reaction>)
    ensures out == Active(t, rs)
  {
    out := [];
    var cache: map<string, string> := map[];
    for k := 0 to |rs|
      invariant out == Active(t, rs[..k])
      invariant forall root :: root in cache ==> cache[root] == t.signerAt(root)
    {
      var r := rs[k];
      assert rs[..k + 1][..k] == rs[..k];
      if r.action != "" && r.agent != "" && r.proof.Proof? {
        var published;
        published, cache := PublishedSigner(t, cache, r.agent);
        var signer := SignedBy(r.proof, [r.action, r.target, r.agent, r.emoji]);
        if published != "" && signer == published {
          var withdrawn := false;
          if r.canceledAt != "" && r.cancelProof.Proof? {
            withdrawn := SignedBy(r.cancelProof, [r.action, r.canceledAt]) == published;
          }
          if !withdrawn { out := out + [r.(verified := true)]; }
        }
      }
    }
    assert rs[..|rs|] == rs;
  }
}
