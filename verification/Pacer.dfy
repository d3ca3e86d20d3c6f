/**
 The send pacer and the hand-back of held frames (web/connection.js:103-166, 238-258,
 316-332, 588-598).  Times are milliseconds on a clock that never goes back.
 */
module Pacer {
  import opened Prelude

  /** A command object; tag is the command _cmdOf finds in its JSON text. */
  datatype Payload = Payload(cmd: string, tag: string, body: string)

  /** A text frame: its tag and the object it parses to, if any. */
  datatype Frame = Frame(tag: string, parsed: Option<Payload>)

  function Stringify(p: Payload): Frame { Frame(p.tag, Some(p)) }

  // ---- The rate bound ----

  /** The sends that still count at time ts: the oldest are dropped while a whole window old. */
  function Recent(times: seq<int>, window: int, ts: int): (r: seq<int>)
    ensures |r| <= |times|
    ensures r != [] ==> ts - r[0] < window
  {
    if times != [] && ts - times[0] >= window then Recent(times[1..], window, ts) else times
  }

  /** Dropping at an earlier time first makes no difference. */
  lemma {:induction false} RecentTwice(times: seq<int>, window: int, early: int, late: int)
    requires early <= late
    ensures Recent(Recent(times, window, early), window, late) == Recent(times, window, late)
  {
    if times != [] && early - times[0] >= window { RecentTwice(times[1..], window, early, late); }
  }

  lemma {:induction false} RecentAppend(times: seq<int>, window: int, ts: int)
    requires window >= 1
    ensures Recent(times + [ts], window, ts) == Recent(times, window, ts) + [ts]
  {
    if times == [] {
      assert times + [ts] == [ts];
    } else if ts - times[0] >= window {
      RecentAppend(times[1..], window, ts);
      assert (times + [ts])[1..] == times[1..] + [ts];
    }
  }

  /** Every send found fewer than limit others that still counted. */
  predicate Admitted(times: seq<int>, limit: nat, window: int) {
    times != [] ==>
      var n := |times| - 1;
      Admitted(times[..n], limit, window) && |Recent(times[..n], window, times[n])| < limit
  }

  lemma AdmittedAppend(times: seq<int>, limit: nat, window: int, ts: int)
    requires Admitted(times, limit, window) && |Recent(times, window, ts)| < limit
    ensures Admitted(times + [ts], limit, window)
  {
    assert (times + [ts])[..|times|] == times;
  }

  /** How many of the times lie in [from, to). */
  function CountIn(times: seq<int>, from: int, to: int): nat {
    if times == [] then 0 else CountIn(times[1..], from, to) + if from <= times[0] < to then 1 else 0
  }

  lemma {:induction false} CountAppend(times: seq<int>, ts: int, from: int, to: int)
    ensures CountIn(times + [ts], from, to) == CountIn(times, from, to) + if from <= ts < to then 1 else 0
  {
    if times == [] {
      assert times + [ts] == [ts];
    } else {
      CountAppend(times[1..], ts, from, to);
      assert (times + [ts])[1..] == times[1..] + [ts];
    }
  }

  lemma {:induction false} CountAtMostAll(times: seq<int>, from: int, to: int)
    ensures CountIn(times, from, to) <= |times|
  {
    if times != [] { CountAtMostAll(times[1..], from, to); }
  }

  /** Times after ts - window are never dropped at ts. */
  lemma {:induction false} CountAtMostRecent(times: seq<int>, window: int, ts: int, from: int, to: int)
    requires ts - window < from
    ensures CountIn(times, from, to) <= |Recent(times, window, ts)|
  {
    if times != [] && ts - times[0] >= window {
      CountAtMostRecent(times[1..], window, ts, from, to);
    } else {
      CountAtMostAll(times, from, to);
    }
  }

  /** At most limit sends in every half-open interval of one window. */
  lemma {:induction false} RateBound(times: seq<int>, limit: nat, window: int, from: int)
    requires Admitted(times, limit, window)
    ensures CountIn(times, from, from + window) <= limit
  {
    if times != [] {
      var n := |times| - 1;
      var last := times[n];
      assert times == times[..n] + [last];
      CountAppend(times[..n], last, from, from + window);
      RateBound(times[..n], limit, window, from);
      if from <= last < from + window {
        CountAtMostRecent(times[..n], window, last, from, from + window);
      }
    }
  }

  // ---- The order of frames ----

  /** The frames whose tag is in tags (inside) or is not (not inside), in order. */
  function Tagged(frames: seq<Frame>, tags: set<string>, inside: bool): seq<Frame> {
    if frames == [] then []
    else (if (frames[0].tag in tags) == inside then [frames[0]] else []) + Tagged(frames[1..], tags, inside)
  }

  lemma {:induction false} TaggedAppend(frames: seq<Frame>, f: Frame, tags: set<string>, inside: bool)
    ensures Tagged(frames + [f], tags, inside)
         == Tagged(frames, tags, inside) + if (f.tag in tags) == inside then [f] else []
  {
    if frames == [] {
      assert frames + [f] == [f];
    } else {
      TaggedAppend(frames[1..], f, tags, inside);
      assert (frames + [f])[1..] == frames[1..] + [f];
    }
  }

  /** What became of a paced frame that is no longer held. */
  datatype Fate = Sent(frame: Frame) | HandedBack(frame: Frame)

  function FramesOf(gone: seq<Fate>): (r: seq<Frame>) {
    seq(|gone|, i requires 0 <= i < |gone| => gone[i].frame)
  }

  function SentOf(gone: seq<Fate>): seq<Frame> {
    if gone == [] then [] else (if gone[0].Sent? then [gone[0].frame] else []) + SentOf(gone[1..])
  }

  lemma {:induction false} SentAppend(gone: seq<Fate>, f: Fate)
    ensures SentOf(gone + [f]) == SentOf(gone) + if f.Sent? then [f.frame] else []
  {
    if gone == [] {
      assert gone + [f] == [f];
    } else {
      SentAppend(gone[1..], f);
      assert (gone + [f])[1..] == gone[1..] + [f];
    }
  }

  lemma {:induction false} SentOfAll(gone: seq<Fate>)
    requires forall f :: f in gone ==> f.Sent?
    ensures SentOf(gone) == FramesOf(gone)
  {
    if gone != [] {
      SentOfAll(gone[1..]);
      assert FramesOf(gone) == [gone[0].frame] + FramesOf(gone[1..]);
    }
  }

  function BackOf(frames: seq<Frame>): (r: seq<Fate>) {
    seq(|frames|, i requires 0 <= i < |frames| => HandedBack(frames[i]))
  }

  lemma {:induction false} BackIsNotSent(gone: seq<Fate>, frames: seq<Frame>)
    ensures SentOf(gone + BackOf(frames)) == SentOf(gone)
    ensures FramesOf(gone + BackOf(frames)) == FramesOf(gone) + frames
    decreases |frames|
  {
    if frames == [] {
      assert gone + BackOf(frames) == gone;
    } else {
      BackIsNotSent(gone + [HandedBack(frames[0])], frames[1..]);
      SentAppend(gone, HandedBack(frames[0]));
      assert gone + BackOf(frames) == gone + [HandedBack(frames[0])] + BackOf(frames[1..]);
    }
  }

  // ---- The pacer as a value, with what has happened to it ----

  datatype Rules = Rules(limit: nat, window: int, unpaced: set<string>)

  datatype World = World(
    sentAt: seq<int>,
    held: seq<Frame>,
    timer: Option<int>,  // when the armed timer is due
    open: bool,          // the socket; once closed it stays closed
    clock: int,          // when sentAt was last pruned
    times: seq<int>,     // times of all paced sends
    given: seq<Frame>,   // frames pushed
    wire: seq<Frame>,    // frames passed to the socket
    gone: seq<Fate>)     // paced frames sent or handed back

  function Fresh(now: int): World { World([], [], None, true, now, [], [], [], []) }

  /** When a timer armed at ts is due: at once if nothing sent counts. */
  function Due(sentAt: seq<int>, window: int, ts: int): int {
    if sentAt == [] || sentAt[0] + window <= ts then ts else sentAt[0] + window
  }

  function Pruned(r: Rules, w: World, ts: int): World {
    w.(sentAt := Recent(w.sentAt, r.window, ts), clock := ts)
  }

  function Armed(r: Rules, w: World, ts: int): World {
    if w.timer.None? && w.held != [] then w.(timer := Some(Due(w.sentAt, r.window, ts))) else w
  }

  /** A paced frame is passed to the socket. */
  function Passed(w: World, f: Frame, ts: int): World {
    w.(sentAt := w.sentAt + [ts], times := w.times + [ts], wire := w.wire + [f], gone := w.gone + [Sent(f)])
  }

  function Released(r: Rules, w: World, ts: int): World
    decreases |w.held|
  {
    if w.held != [] && |w.sentAt| < r.limit then Released(r, Passed(w, w.held[0], ts).(held := w.held[1..]), ts) else w
  }

  function PushOn(r: Rules, before: World, f: Frame, ts: int): World {
    var w := before.(given := before.given + [f]);
    if f.tag in r.unpaced then w.(wire := w.wire + [f])
    else
      var p := Pruned(r, w, ts);
      if p.held == [] && |p.sentAt| < r.limit then Passed(p, f, ts)
      else Armed(r, p.(held := p.held + [f]), ts)
  }

  function PushAllOn(r: Rules, w: World, frames: seq<Frame>, ts: int): World
    decreases |frames|
  {
    if frames == [] then w
    else PushOn(r, PushAllOn(r, w, frames[..|frames| - 1], ts), frames[|frames| - 1], ts)
  }

  function DrainOn(r: Rules, w: World, ts: int): World {
    if !w.open then w.(timer := None)
    else Armed(r, Released(r, Pruned(r, w.(timer := None), ts), ts), ts)
  }

  function TakeOn(w: World): World {
    w.(timer := None, held := [], gone := w.gone + BackOf(w.held))
  }

  datatype Event = Pushes(f: Frame, ts: int) | Fires(ts: int) | HandsBack | Closes

  /** The clock never goes back.  An armed timer may fire early or late. */
  predicate Possible(w: World, e: Event) {
    match e
    case Pushes(_, ts) => ts >= w.clock
    case Fires(ts) => ts >= w.clock && w.timer.Some?
    case _ => true
  }

  function After(r: Rules, w: World, e: Event): World {
    match e
    case Pushes(f, ts) => PushOn(r, w, f, ts)
    case Fires(ts) => DrainOn(r, w, ts)
    case HandsBack => TakeOn(w)
    case Closes => w.(open := false)
  }

  function Run(r: Rules, now: int, es: seq<Event>): World
    decreases |es|
  {
    if es == [] then Fresh(now) else After(r, Run(r, now, es[..|es| - 1]), es[|es| - 1])
  }

  predicate PossibleRun(r: Rules, now: int, es: seq<Event>)
    decreases |es|
  {
    es == [] ||
    (PossibleRun(r, now, es[..|es| - 1]) && Possible(Run(r, now, es[..|es| - 1]), es[|es| - 1]))
  }

  // ---- What every run keeps ----

  /** sentAt holds the sends that still count, and the limit was kept at each. */
  predicate Paced(r: Rules, w: World) {
    && |w.sentAt| <= r.limit
    && w.sentAt == Recent(w.times, r.window, w.clock)
    && Admitted(w.times, r.limit, r.window)
  }

  /**
   Frames off the budget all went out, in order.  The paced ones are, in the order pushed,
   those sent or handed back and then those held.
   */
  predicate Conserved(r: Rules, w: World) {
    && Tagged(w.given, r.unpaced, true) == Tagged(w.wire, r.unpaced, true)
    && Tagged(w.given, r.unpaced, false) == FramesOf(w.gone) + w.held
    && Tagged(w.wire, r.unpaced, false) == SentOf(w.gone)
    && |w.times| == |SentOf(w.gone)|
  }

  /** Frames wait on an open socket only behind an armed timer, whose firing finds room. */
  predicate Timed(r: Rules, w: World) {
    && (w.open && w.held != [] ==> w.timer.Some?)
    && (w.timer.Some? ==> w.held != [])
    && (w.timer.Some? && w.sentAt != [] && |w.sentAt| >= r.limit ==> w.sentAt[0] + r.window <= w.timer.value)
    && HoldsPaced(r, w)
    && (w.open && w.timer.Some? && w.timer.value > w.clock ==> FullUntil(r, w, w.timer.value))
  }

  /** The window is full, and the oldest send in it stops counting at this time. */
  predicate FullUntil(r: Rules, w: World, due: int) {
    |w.sentAt| == r.limit && w.sentAt != [] && due == w.sentAt[0] + r.window
  }

  predicate Inv(r: Rules, w: World) {
    r.limit >= 1 && r.window >= 1 && Paced(r, w) && Conserved(r, w) && Timed(r, w)
  }

  lemma PruneKeepsPace(r: Rules, w: World, ts: int)
    requires Paced(r, w) && ts >= w.clock
    ensures Paced(r, Pruned(r, w, ts))
  {
    RecentTwice(w.times, r.window, w.clock, ts);
  }

  lemma PassKeepsPace(r: Rules, w: World, f: Frame)
    requires r.window >= 1 && Paced(r, w) && |w.sentAt| < r.limit
    ensures Paced(r, Passed(w, f, w.clock))
  {
    RecentAppend(w.times, r.window, w.clock);
    AdmittedAppend(w.times, r.limit, r.window, w.clock);
  }

  lemma DirectConserves(r: Rules, w: World, f: Frame)
    requires Conserved(r, w) && f.tag in r.unpaced
    ensures Conserved(r, w.(given := w.given + [f], wire := w.wire + [f]))
  {
    TaggedAppend(w.given, f, r.unpaced, true);
    TaggedAppend(w.given, f, r.unpaced, false);
    TaggedAppend(w.wire, f, r.unpaced, true);
    TaggedAppend(w.wire, f, r.unpaced, false);
  }

  lemma HoldConserves(r: Rules, w: World, f: Frame)
    requires Conserved(r, w) && f.tag !in r.unpaced
    ensures Conserved(r, w.(given := w.given + [f], held := w.held + [f]))
  {
    TaggedAppend(w.given, f, r.unpaced, true);
    TaggedAppend(w.given, f, r.unpaced, false);
    assert FramesOf(w.gone) + w.held + [f] == FramesOf(w.gone) + (w.held + [f]);
  }

  lemma PassConserves(r: Rules, w: World, f: Frame, rest: seq<Frame>, ts: int)
    requires Conserved(r, w) && w.held == [f] + rest && f.tag !in r.unpaced
    ensures Conserved(r, Passed(w, f, ts).(held := rest))
  {
    TaggedAppend(w.wire, f, r.unpaced, true);
    TaggedAppend(w.wire, f, r.unpaced, false);
    SentAppend(w.gone, Sent(f));
    assert FramesOf(w.gone) + ([f] + rest) == FramesOf(w.gone + [Sent(f)]) + rest;
  }

  /** Releasing passes the oldest frames on, as many as there is room for. */
  lemma {:induction false} ReleaseSends(r: Rules, w: World, ts: int, n: nat)
    requires |w.sentAt| <= r.limit
    requires n == if r.limit - |w.sentAt| < |w.held| then r.limit - |w.sentAt| else |w.held|
    ensures var v := Released(r, w, ts);
      && v.wire == w.wire + w.held[..n] && v.held == w.held[n..] && |v.sentAt| == |w.sentAt| + n
      && (n > 0 ==> v.sentAt != []) && (w.sentAt != [] ==> v.sentAt != [] && v.sentAt[0] == w.sentAt[0])
      && (w.sentAt == [] && n > 0 ==> v.sentAt[0] == ts)
      && v.timer == w.timer && v.open == w.open
    decreases |w.held|
  {
    if n > 0 {
      var next := Passed(w, w.held[0], ts).(held := w.held[1..]);
      ReleaseSends(r, next, ts, n - 1);
      assert w.wire + [w.held[0]] + w.held[1..][..n - 1] == w.wire + w.held[..n];
    }
  }

  lemma {:induction false} ReleaseKeepsPace(r: Rules, w: World)
    requires r.window >= 1 && Paced(r, w)
    ensures Paced(r, Released(r, w, w.clock))
    decreases |w.held|
  {
    if w.held != [] && |w.sentAt| < r.limit {
      PassKeepsPace(r, w, w.held[0]);
      ReleaseKeepsPace(r, Passed(w, w.held[0], w.clock).(held := w.held[1..]));
    }
  }

  predicate HoldsPaced(r: Rules, w: World) {
    forall i :: 0 <= i < |w.held| ==> w.held[i].tag !in r.unpaced
  }

  lemma {:induction false} ReleaseConserves(r: Rules, w: World, ts: int)
    requires Conserved(r, w) && HoldsPaced(r, w)
    ensures Conserved(r, Released(r, w, ts)) && HoldsPaced(r, Released(r, w, ts))
    decreases |w.held|
  {
    if w.held != [] && |w.sentAt| < r.limit {
      assert w.held == [w.held[0]] + w.held[1..];
      PassConserves(r, w, w.held[0], w.held[1..], ts);
      ReleaseConserves(r, Passed(w, w.held[0], ts).(held := w.held[1..]), ts);
    }
  }

  /** The last held frame is passed on if it is the only one and there is room; else the timer is armed. */
  lemma PacedPushKeepsInv(r: Rules, p: World, before: seq<Frame>, f: Frame)
    requires r.limit >= 1 && r.window >= 1 && Paced(r, p) && Conserved(r, p) && HoldsPaced(r, p)
    requires p.held == before + [f] && Timed(r, p.(held := before))
    ensures Inv(r, if before == [] && |p.sentAt| < r.limit then Passed(p.(held := []), f, p.clock) else Armed(r, p, p.clock))
  {
    if before == [] && |p.sentAt| < r.limit {
      PassKeepsPace(r, p, f);
      assert p.held == [f] + [] && p.held[0] == f;
      PassConserves(r, p, f, [], p.clock);
    }
  }

  lemma PushKeepsInv(r: Rules, w: World, f: Frame, ts: int)
    requires Inv(r, w) && ts >= w.clock
    ensures Inv(r, PushOn(r, w, f, ts))
  {
    if f.tag in r.unpaced {
      DirectConserves(r, w, f);
    } else {
      HoldConserves(r, w, f);
      PruneKeepsPace(r, w, ts);
      PacedPushKeepsInv(r, Pruned(r, w.(given := w.given + [f], held := w.held + [f]), ts), w.held, f);
    }
  }

  /** A timer that fires on an open socket releases as many of the oldest frames as there is room
      for, at least one if it was due, and is armed again exactly if some remain. */
  lemma DrainReleases(r: Rules, w: World, ts: int) returns (n: nat)
    requires Inv(r, w) && Possible(w, Fires(ts))
    ensures Inv(r, DrainOn(r, w, ts))
    ensures w.open ==>
      var v := DrainOn(r, w, ts);
      && n <= |w.held| && v.wire == w.wire + w.held[..n] && v.held == w.held[n..]
      && (ts >= w.timer.value ==> n >= 1)
      && (n == |w.held| || |v.sentAt| == r.limit)
      && (v.timer.Some? <==> v.held != [])
    ensures !w.open ==> DrainOn(r, w, ts) == w.(timer := None)
  {
    n := 0;
    if w.open {
      PruneKeepsPace(r, w, ts);
      var p := Pruned(r, w.(timer := None), ts);
      n := if r.limit - |p.sentAt| < |p.held| then r.limit - |p.sentAt| else |p.held|;
      ReleaseSends(r, p, ts, n);
      ReleaseKeepsPace(r, p);
      ReleaseConserves(r, p, ts);
    }
  }

  lemma TakeHeldKeepsInv(r: Rules, w: World)
    requires Inv(r, w)
    ensures Inv(r, TakeOn(w))
  {
    BackIsNotSent(w.gone, w.held);
  }

  lemma {:induction false} RunKeepsInv(r: Rules, now: int, es: seq<Event>)
    requires r.limit >= 1 && r.window >= 1 && PossibleRun(r, now, es)
    ensures Inv(r, Run(r, now, es))
    decreases |es|
  {
    if es != [] {
      var v := Run(r, now, es[..|es| - 1]);
      RunKeepsInv(r, now, es[..|es| - 1]);
      match es[|es| - 1]
      case Pushes(f, ts) => PushKeepsInv(r, v, f, ts);
      case Fires(ts) => var n := DrainReleases(r, v, ts);
      case HandsBack => TakeHeldKeepsInv(r, v);
      case Closes =>
    }
  }

  /** Over every run, every interval of one window holds at most limit paced sends. */
  lemma RunKeepsRate(r: Rules, now: int, es: seq<Event>, from: int)
    requires r.limit >= 1 && r.window >= 1 && PossibleRun(r, now, es)
    ensures var w := Run(r, now, es);
      && CountIn(w.times, from, from + r.window) <= r.limit
      && |w.times| == |Tagged(w.wire, r.unpaced, false)|
  {
    RunKeepsInv(r, now, es);
    RateBound(Run(r, now, es).times, r.limit, r.window, from);
  }

  /**
   Over every run, frames off the budget all went out in order, and the paced frames are, in the
   order pushed, those sent or handed back and then those held; without a hand-back they are
   those sent and then those held.
   */
  lemma RunKeepsOrder(r: Rules, now: int, es: seq<Event>)
    requires r.limit >= 1 && r.window >= 1 && PossibleRun(r, now, es)
    ensures var w := Run(r, now, es);
      && Tagged(w.given, r.unpaced, true) == Tagged(w.wire, r.unpaced, true)
      && Tagged(w.given, r.unpaced, false) == FramesOf(w.gone) + w.held
      && Tagged(w.wire, r.unpaced, false) == SentOf(w.gone)
      && ((forall f :: f in w.gone ==> f.Sent?) ==>
            Tagged(w.given, r.unpaced, false) == Tagged(w.wire, r.unpaced, false) + w.held)
  {
    RunKeepsInv(r, now, es);
    var gone := Run(r, now, es).gone;
    if forall f :: f in gone ==> f.Sent? { SentOfAll(gone); }
  }

  /** Over every run, frames wait on an open socket only while the window is full, and no longer. */
  lemma RunWaitsOnlyWhenFull(r: Rules, now: int, es: seq<Event>)
    requires r.limit >= 1 && r.window >= 1 && PossibleRun(r, now, es)
    ensures var w := Run(r, now, es);
      w.open && w.held != [] ==>
        w.timer.Some? && (w.timer.value <= w.clock || FullUntil(r, w, w.timer.value))
  {
    RunKeepsInv(r, now, es);
  }

  /** Over every run, frames held on an open socket wait for an armed timer, which releases at least one. */
  lemma RunMakesProgress(r: Rules, now: int, es: seq<Event>, ts: int) returns (n: nat)
    requires r.limit >= 1 && r.window >= 1 && PossibleRun(r, now, es)
    requires var w := Run(r, now, es);
      w.open && w.held != [] && ts >= w.clock && (w.timer.Some? ==> ts >= w.timer.value)
    ensures var w := Run(r, now, es);
      && PossibleRun(r, now, es + [Fires(ts)])
      && 1 <= n <= |w.held| && Run(r, now, es + [Fires(ts)]).wire == w.wire + w.held[..n]
  {
    RunKeepsInv(r, now, es);
    n := DrainReleases(r, Run(r, now, es), ts);
    assert (es + [Fires(ts)])[..|es|] == es;
  }

  // ---- Many pushes ----

  lemma PushAllMore(r: Rules, w: World, frames: seq<Frame>, f: Frame, ts: int)
    ensures PushAllOn(r, w, frames + [f], ts) == PushOn(r, PushAllOn(r, w, frames, ts), f, ts)
  {
    assert (frames + [f])[..|frames|] == frames;
  }

  lemma PushFrame(r: Rules, w: World, f: Frame, ts: int)
    ensures var v := PushOn(r, w, f, ts);
      && v.given == w.given + [f] && (ts >= w.clock ==> ts >= v.clock) && v.open == w.open
      && if f.tag in r.unpaced then v.wire == w.wire + [f] && v.held == w.held
         else if w.held == [] && v.held == [] then v.wire == w.wire + [f]
         else v.wire == w.wire && v.held == w.held + [f]
  {
  }

  /** One push puts its frame on the wire or behind those held. */
  lemma PushDelivers(tags: set<string>, wire: seq<Frame>, held: seq<Frame>, f: Frame, wire2: seq<Frame>, held2: seq<Frame>)
    requires if f.tag in tags then wire2 == wire + [f] && held2 == held
             else if held == [] && held2 == [] then wire2 == wire + [f]
             else wire2 == wire && held2 == held + [f]
    ensures Tagged(wire2, tags, true) == Tagged(wire, tags, true) + (if f.tag in tags then [f] else [])
    ensures Tagged(wire2, tags, false) + held2 == Tagged(wire, tags, false) + held + (if f.tag in tags then [] else [f])
  {
    TaggedAppend(wire, f, tags, true);
    TaggedAppend(wire, f, tags, false);
    if f.tag !in tags && wire2 == wire {
      assert Tagged(wire, tags, false) + (held + [f]) == Tagged(wire, tags, false) + held + [f];
    }
  }

  /** Extending a delivered list by one frame, for each kind of frame. */
  lemma DeliveredMore(r: Rules, front: seq<Frame>, f: Frame, before: seq<Frame>, direct: bool)
    ensures before + Tagged(front, r.unpaced, direct) + (if (f.tag in r.unpaced) == direct then [f] else [])
         == before + Tagged(front + [f], r.unpaced, direct)
  {
    TaggedAppend(front, f, r.unpaced, direct);
  }

  /**
   Frames pushed one after the other are all recorded in their order.  Those off the budget are all on the
   wire; each of the others is, once and in order, on the wire or held behind what was held before.
   */
  lemma {:induction false} PushAllDelivers(r: Rules, w: World, frames: seq<Frame>, ts: int)
    requires ts >= w.clock
    ensures var v := PushAllOn(r, w, frames, ts);
      && v.given == w.given + frames && ts >= v.clock && v.open == w.open
      && Tagged(v.wire, r.unpaced, true) == Tagged(w.wire, r.unpaced, true) + Tagged(frames, r.unpaced, true)
      && Tagged(v.wire, r.unpaced, false) + v.held
         == Tagged(w.wire, r.unpaced, false) + w.held + Tagged(frames, r.unpaced, false)
      && (Inv(r, w) ==> Inv(r, v))
    decreases |frames|
  {
    if frames != [] {
      var front, f := frames[..|frames| - 1], frames[|frames| - 1];
      assert frames == front + [f];
      var u := PushAllOn(r, w, front, ts);
      PushAllDelivers(r, w, front, ts);
      PushFrame(r, u, f, ts);
      var v := PushOn(r, u, f, ts);
      PushDelivers(r.unpaced, u.wire, u.held, f, v.wire, v.held);
      DeliveredMore(r, front, f, Tagged(w.wire, r.unpaced, true), true);
      DeliveredMore(r, front, f, Tagged(w.wire, r.unpaced, false) + w.held, false);
      if Inv(r, w) { PushKeepsInv(r, u, f, ts); }
    }
  }

  // ---- The pacer ----

  class Pacer {
    const rules: Rules
    var sentAt: seq<int>
    var held: seq<Frame>
    var timer: Option<int>
    var open: bool
    ghost var past: World    // its clock, times, given, wire and gone record what has happened

    ghost function View(): World
      reads this
    {
      past.(sentAt := sentAt, held := held, timer := timer, open := open)
    }

    constructor (rules: Rules, now: int)
      ensures View() == Fresh(now) && this.rules == rules
    {
      this.rules := rules;
      sentAt, held, timer, open, past := [], [], None, true, Fresh(now);
    }

    /** Forget sends a whole window old. */
    method Prune(ts: int)
      modifies this
      ensures View() == Pruned(rules, old(View()), ts)
    {
      while sentAt != [] && ts - sentAt[0] >= rules.window
        invariant Recent(sentAt, rules.window, ts) == Recent(old(sentAt), rules.window, ts)
        invariant View() == old(View()).(sentAt := sentAt)
        decreases |sentAt|
      {
        sentAt := sentAt[1..];
      }
      past := past.(clock := ts);
    }

    method Arm(ts: int)
      modifies this
      ensures View() == Armed(rules, old(View()), ts)
    {
      if timer.None? && held != [] {
        timer := Some(if sentAt == [] || sentAt[0] + rules.window <= ts then ts else sentAt[0] + rules.window);
      }
    }

    /** Pass one paced frame to the socket. */
    method Send(data: Frame, ts: int)
      modifies this
      ensures View() == Passed(old(View()), data, ts)
    {
      sentAt := sentAt + [ts];
      past := past.(times := past.times + [ts], wire := past.wire + [data], gone := past.gone + [Sent(data)]);
    }

    method Push(data: Frame, ts: int)
      modifies this
      ensures View() == PushOn(rules, old(View()), data, ts)
    {
      past := past.(given := past.given + [data]);
      if data.tag in rules.unpaced {
        past := past.(wire := past.wire + [data]);
        return;
      }
      Prune(ts);
      if held == [] && |sentAt| < rules.limit {
        Send(data, ts);
        return;
      }
      held := held + [data];
      Arm(ts);
    }

    /** The timer fires. */
    method Drain(ts: int)
      modifies this
      ensures View() == DrainOn(rules, old(View()), ts)
    {
      timer := None;
      if !open { return; }
      Prune(ts);
      ghost var start := View();
      while held != [] && |sentAt| < rules.limit
        invariant Released(rules, View(), ts) == Released(rules, start, ts)
        decreases |held|
      {
        Send(held[0], ts);
        held := held[1..];
      }
      Arm(ts);
    }

    /** Hand the waiting frames back. */
    method TakeHeld() returns (frames: seq<Frame>)
      modifies this
      ensures frames == old(held) && View() == TakeOn(old(View()))
    {
      timer := None;
      frames := held;
      past := past.(gone := past.gone + BackOf(held));
      held := [];
    }

    method Close()
      modifies this
      ensures View() == old(View()).(open := false)
    {
      open := false;
    }
  }

  // ---- The queue for the next connection ----

  const MAX_PENDING: nat := 200
  const SOCKET_ONLY: set<string> := {"register", "auth_response", "ping", "pong", "typing"}

  function Kept(f: Frame, socketOnly: set<string>): (ps: seq<Payload>) {
    if f.parsed.Some? && f.parsed.value.cmd !in socketOnly then [f.parsed.value] else []
  }

  /** The commands that frames carry, without those that belong to their own socket. */
  function Keepable(frames: seq<Frame>, socketOnly: set<string>): (ps: seq<Payload>)
    ensures |ps| <= |frames|
  {
    if frames == [] then []
    else Kept(frames[0], socketOnly) + Keepable(frames[1..], socketOnly)
  }

  /** A hand-back drops exactly what is no command and these five. */
  lemma KeptIff(f: Frame)
    ensures Kept(f, SOCKET_ONLY) ==
      if && f.parsed.Some? && f.parsed.value.cmd != "register" && f.parsed.value.cmd != "auth_response"
         && f.parsed.value.cmd != "ping" && f.parsed.value.cmd != "pong" && f.parsed.value.cmd != "typing"
      then [f.parsed.value] else []
  {
  }

  /** The frames are gone through one by one, in order. */
  lemma {:induction false} KeepableConcat(a: seq<Frame>, b: seq<Frame>, socketOnly: set<string>)
    ensures Keepable(a + b, socketOnly) == Keepable(a, socketOnly) + Keepable(b, socketOnly)
  {
    if a == [] {
      assert a + b == b;
    } else {
      assert (a + b)[1..] == a[1..] + b;
      KeepableConcat(a[1..], b, socketOnly);
      Assoc(Kept(a[0], socketOnly), Keepable(a[1..], socketOnly), Keepable(b, socketOnly));
    }
  }

  lemma Assoc(a: seq<Payload>, b: seq<Payload>, c: seq<Payload>)
    ensures a + (b + c) == a + b + c
  {
  }

  lemma {:induction false} KeepableAppend(frames: seq<Frame>, f: Frame, socketOnly: set<string>)
    ensures Keepable(frames + [f], socketOnly)
         == Keepable(frames, socketOnly) + Kept(f, socketOnly)
  {
    if frames == [] {
      assert frames + [f] == [f];
    } else {
      var rest := frames[1..];
      KeepableAppend(rest, f, socketOnly);
      assert (frames + [f])[1..] == rest + [f] && (frames + [f])[0] == frames[0];
      Assoc(Kept(frames[0], socketOnly), Keepable(rest, socketOnly), Kept(f, socketOnly));
    }
  }

  function Stringified(ps: seq<Payload>): (frames: seq<Frame>)
    ensures |frames| == |ps| && forall i :: 0 <= i < |ps| ==> frames[i] == Stringify(ps[i])
  {
    seq(|ps|, i requires 0 <= i < |ps| => Stringify(ps[i]))
  }

  /** Commands survive being sent, held and handed back, in order. */
  lemma {:induction false} HandBackKeepsCommands(ps: seq<Payload>, socketOnly: set<string>)
    requires forall p :: p in ps ==> p.cmd !in socketOnly
    ensures Keepable(Stringified(ps), socketOnly) == ps
  {
    if ps != [] {
      HandBackKeepsCommands(ps[1..], socketOnly);
      assert Stringified(ps)[1..] == Stringified(ps[1..]);
    }
  }

  function Last(ps: seq<Payload>, n: nat): (r: seq<Payload>)
    ensures |r| == if |ps| < n then |ps| else n
    ensures r == ps[|ps| - |r|..]
  {
    if |ps| <= n then ps else ps[|ps| - n..]
  }

  /** The queue after one more command: a full queue drops its oldest. */
  function Queued(ps: seq<Payload>, p: Payload): seq<Payload> {
    (if |ps| >= MAX_PENDING then ps[1..] else ps) + [p]
  }

  lemma QueuedKeepsLast(ps: seq<Payload>, p: Payload)
    ensures Queued(Last(ps, MAX_PENDING), p) == Last(ps + [p], MAX_PENDING)
  {
  }

  /** What a hand-back leaves of these frames: the last MAX_PENDING of their keepable commands. */
  function Remaining(frames: seq<Frame>, socketOnly: set<string>): seq<Payload> {
    Last(Keepable(frames, socketOnly), MAX_PENDING)
  }

  /** All of them while they are at most 200, else the last 200. */
  lemma RemainingIs(frames: seq<Frame>, socketOnly: set<string>)
    ensures var all, kept := Keepable(frames, socketOnly), Remaining(frames, socketOnly);
      && (|all| <= 200 ==> kept == all)
      && (|all| > 200 ==> |kept| == 200 && all[|all| - 200..] == kept)
  {
  }

  lemma RemainingStep(frames: seq<Frame>, i: nat, socketOnly: set<string>)
    requires i < |frames|
    ensures var kept := Kept(frames[i], socketOnly);
      Remaining(frames[..i + 1], socketOnly) ==
        if kept == [] then Remaining(frames[..i], socketOnly) else Queued(Remaining(frames[..i], socketOnly), kept[0])
  {
    KeepableStep(frames, i, socketOnly);
    var kept := Kept(frames[i], socketOnly);
    if kept != [] { QueuedKeepsLast(Keepable(frames[..i], socketOnly), kept[0]); }
  }

  lemma KeepableStep(frames: seq<Frame>, i: nat, socketOnly: set<string>)
    requires i < |frames|
    ensures Keepable(frames[..i + 1], socketOnly) == Keepable(frames[..i], socketOnly) + Kept(frames[i], socketOnly)
  {
    KeepableAppend(frames[..i], frames[i], socketOnly);
    assert frames[..i + 1] == frames[..i] + [frames[i]];
  }

  class Connection {
    const socketOnly: set<string>
    var pending: seq<Payload>

    constructor ()
      ensures pending == [] && socketOnly == SOCKET_ONLY
    {
      pending, socketOnly := [], SOCKET_ONLY;
    }

    /** Queue a command; a full queue drops its oldest. */
    method Enqueue(p: Payload)
      modifies this
      ensures pending == Queued(old(pending), p)
      ensures pending == if |old(pending)| < 200 then old(pending) + [p] else old(pending)[1..] + [p]
    {
      if |pending| >= MAX_PENDING { pending := pending[1..]; }
      pending := pending + [p];
    }

    /** Queue the commands of some frames. */
    method EnqueueKeepable(frames: seq<Frame>)
      requires pending == []
      modifies this
      ensures pending == Remaining(frames, socketOnly)
    {
      for i := 0 to |frames|
        invariant pending == Remaining(frames[..i], socketOnly)
      {
        RemainingStep(frames, i, socketOnly);
        if frames[i].parsed.Some? && frames[i].parsed.value.cmd !in socketOnly {
          Enqueue(frames[i].parsed.value);
        }
      }
      assert frames[..|frames|] == frames;
    }

    /** Held frames of a dead socket go ahead of what was queued since; a second run finds nothing. */
    method RequeueHeld(pacer: Pacer)
      modifies this, pacer
      ensures pacer.View() == TakeOn(old(pacer.View()))
      ensures pending == Remaining(old(pacer.held), socketOnly) + old(pending)
    {
      var frames := pacer.TakeHeld();
      if frames == [] { return; }
      var later := pending;
      pending := [];
      EnqueueKeepable(frames);
      pending := pending + later;
    }

    /** Once registered, everything queued is pushed in order: on the wire or held, none lost. */
    method FlushPending(pacer: Pacer, ts: int)
      modifies this, pacer
      ensures if old(pacer.open) then
          pending == [] && pacer.View() == PushAllOn(pacer.rules, old(pacer.View()), Stringified(old(pending)), ts)
        else
          pending == old(pending) && pacer.View() == old(pacer.View())
      ensures old(pacer.open) && ts >= old(pacer.View()).clock ==>
        var r, w, v, frames := pacer.rules, old(pacer.View()), pacer.View(), Stringified(old(pending));
        && v.given == w.given + frames
        && Tagged(v.wire, r.unpaced, true) == Tagged(w.wire, r.unpaced, true) + Tagged(frames, r.unpaced, true)
        && Tagged(v.wire, r.unpaced, false) + v.held
           == Tagged(w.wire, r.unpaced, false) + w.held + Tagged(frames, r.unpaced, false)
        && (Inv(r, w) ==> Inv(r, v))
    {
      if !pacer.open { return; }
      var queued := pending;
      pending := [];
      for i := 0 to |queued|
        invariant pending == []
        invariant pacer.View() == PushAllOn(pacer.rules, old(pacer.View()), Stringified(queued[..i]), ts)
      {
        assert Stringified(queued[..i + 1])[..i] == Stringified(queued[..i]);
        pacer.Push(Stringify(queued[i]), ts);
      }
      assert queued[..|queued|] == queued;
      if ts >= old(pacer.View()).clock { PushAllDelivers(pacer.rules, old(pacer.View()), Stringified(queued), ts); }
    }
  }
}
