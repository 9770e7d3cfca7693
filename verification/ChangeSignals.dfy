/**
 Change signalling for resources: the per-URI debouncer (`mcpservice/fs_resources.go`) feeding a
 `ChangeNotifier` (`mcpservice/change_notifier.go`) that fans signals out to one-slot channels.
 Bursts are merged; the point is that no change is lost in the merging.
 */
module ChangeSignals {
  import opened Wrappers

  type ChanId = nat

  /** A signal channel: its buffer, and how often it has been closed. */
  datatype Chan = Chan(token: bool, closes: nat)

  // ----- the notifier -----

  datatype Notifier = Notifier(subs: seq<ChanId>, closed: bool, chans: seq<Chan>)

  const SILENT := Notifier([], false, [])

  /** A non-blocking send to a one-slot channel: a full one already holds the signal. */
  function Send(chans: seq<Chan>, c: ChanId): seq<Chan> {
    if c < |chans| then chans[c := chans[c].(token := true)] else chans
  }

  function SendAll(chans: seq<Chan>, cs: seq<ChanId>): (r: seq<Chan>)
    ensures |r| == |chans|
    ensures forall c: nat | c < |chans| :: r[c] == if c in cs then chans[c].(token := true) else chans[c]
  {
    if cs == [] then chans
    else
      assert forall c | c in cs :: c in cs[..|cs| - 1] || c == cs[|cs| - 1];
      Send(SendAll(chans, cs[..|cs| - 1]), cs[|cs| - 1])
  }

  function Notify(n: Notifier): Notifier {
    if n.closed then n else n.(chans := SendAll(n.chans, n.subs))
  }

  /** A new channel; after closing, one that is already closed and never signalled. */
  function Subscribe(n: Notifier): (Notifier, ChanId) {
    if n.closed then (n.(chans := n.chans + [Chan(false, 1)]), |n.chans|)
    else (n.(chans := n.chans + [Chan(false, 0)], subs := n.subs + [|n.chans|]), |n.chans|)
  }

  /** Under the lock, closing only takes the subscriber list away. */
  function BeginClose(n: Notifier): (Notifier, seq<ChanId>) {
    if n.closed then (n, []) else (n.(closed := true, subs := []), n.subs)
  }

  function CloseOne(n: Notifier, c: ChanId): Notifier {
    if c < |n.chans| then n.(chans := n.chans[c := n.chans[c].(closes := n.chans[c].closes + 1)]) else n
  }

  function TakeToken(n: Notifier, c: ChanId): Notifier {
    if c < |n.chans| then n.(chans := n.chans[c := n.chans[c].(token := false)]) else n
  }

  class ChangeNotifier {
    var subscribers: seq<ChanId>
    var closed: bool
    var chans: seq<Chan>

    ghost function Contents(): Notifier
      reads this
    {
      Notifier(subscribers, closed, chans)
    }

    constructor ()
      ensures Contents() == SILENT
    {
      subscribers, closed, chans := [], false, [];
    }

    method NotifyAll()
      modifies this
      ensures Contents() == Notify(old(Contents()))
    {
      if closed {
        return;
      }
      var subs := subscribers;
      for i := 0 to |subs|
        invariant subscribers == old(subscribers) && closed == old(closed)
        invariant chans == SendAll(old(chans), subs[..i])
      {
        assert subs[..i + 1][..i] == subs[..i];
        if subs[i] < |chans| {
          chans := chans[subs[i] := chans[subs[i]].(token := true)];
        }
      }
      assert subs[..|subs|] == subs;
    }

    method Subscriber() returns (c: ChanId)
      modifies this
      ensures (Contents(), c) == Subscribe(old(Contents()))
    {
      c := |chans|;
      if closed {
        chans := chans + [Chan(false, 1)];
        return;
      }
      chans := chans + [Chan(false, 0)];
      subscribers := subscribers + [c];
    }

    method MarkClosed() returns (toClose: seq<ChanId>)
      modifies this
      ensures (Contents(), toClose) == BeginClose(old(Contents()))
    {
      if closed {
        return [];
      }
      closed := true;
      toClose := subscribers;
      subscribers := [];
    }
  }

  // ----- the debouncer -----

  /** `flushing` counts timer callbacks between clearing the flag and firing. */
  datatype Debouncer = Debouncer(pending: bool, flushing: nat, accepted: nat, fires: nat)

  /** Without an interval it fires at once; with one, the first trigger arms the timer and later ones are absorbed. */
  function Trigger(d: Debouncer, interval: int): Debouncer {
    if interval <= 0 then d.(accepted := d.accepted + 1, fires := d.fires + 1)
    else if d.pending then d
    else d.(pending := true, accepted := d.accepted + 1)
  }

  /** The debouncer's lock-protected halves; `fires` counts calls of its callback. */
  class UriDebouncer {
    const interval: int
    var pending: bool
    ghost var accepted: nat     // triggers that fired or armed the timer
    ghost var flushing: nat
    ghost var fires: nat

    /** Every accepted trigger has fired, is pending or is being flushed. */
    ghost predicate Valid()
      reads this
    {
      accepted == fires + One(pending) + flushing
    }

    ghost function Contents(): Debouncer
      reads this
    {
      Debouncer(pending, flushing, accepted, fires)
    }

    constructor (interval: int)
      ensures Valid() && this.interval == interval && Contents() == Debouncer(false, 0, 0, 0)
    {
      this.interval := interval;
      pending, accepted, flushing, fires := false, 0, 0, 0;
    }

    method OnTrigger() returns (fireNow: bool)
      requires Valid()
      modifies this
      ensures Valid()
      ensures fireNow == (interval <= 0)
      ensures Contents() == Trigger(old(Contents()), interval)
    {
      if interval <= 0 {
        accepted, fires := accepted + 1, fires + 1;
        return true;
      }
      if pending {
        return false;
      }
      pending := true;
      accepted := accepted + 1;
      fireNow := false;
    }

    /** The timer callback up to the point where it releases the lock. */
    method BeginFlush()
      requires Valid() && pending
      modifies this
      ensures Valid()
      ensures Contents() == old(Contents()).(pending := false, flushing := old(flushing) + 1)
    {
      pending := false;
      flushing := flushing + 1;
    }

    method FinishFlush()
      requires Valid() && flushing > 0
      modifies this
      ensures Valid()
      ensures Contents() == old(Contents()).(flushing := old(flushing) - 1, fires := old(fires) + 1)
    {
      flushing := flushing - 1;
      fires := fires + 1;
    }
  }

  function One(b: bool): nat {
    if b then 1 else 0
  }

  // ----- runs -----

  datatype World = World(
    interval: int,
    n: Notifier,
    d: Debouncer,
    closing: set<ChanId>,       // channels the closing call still has to close
    now: nat,
    lastTrigger: int,
    lastFire: int,
    lastNotify: int,            // the latest notify that reached the subscribers
    joined: seq<int>,           // per channel: when it was created
    got: seq<int>)              // per channel: when a signal was last received, or -1

  datatype Step =
    | DoTrigger
    | DoFlush                   // timer callback, first half: clear the flag
    | DoFire                    // second half: notify
    | DoNotify                  // a direct notification
    | DoSubscribe
    | DoReceive(c: ChanId)
    | DoBeginClose
    | DoCloseOne(c: ChanId)

  function Initial(interval: int): World {
    World(interval, SILENT, Debouncer(false, 0, 0, 0), {}, 0, -1, -1, -1, [], [])
  }

  predicate Enabled(w: World, step: Step) {
    match step
    case DoFlush => w.d.pending
    case DoFire => w.d.flushing > 0
    case DoReceive(c) => c < |w.n.chans| && w.n.chans[c].token
    case DoCloseOne(c) => c in w.closing
    case _ => true
  }

  function Notified(w: World): World {
    w.(n := Notify(w.n), lastNotify := if w.n.closed then w.lastNotify else w.now)
  }

  function Act(w: World, step: Step): World
    requires Enabled(w, step)
  {
    match step
    case DoTrigger =>
      var d' := Trigger(w.d, w.interval);
      if w.interval <= 0 then Notified(w).(d := d', lastTrigger := w.now, lastFire := w.now)
      else w.(d := d', lastTrigger := w.now)
    case DoFlush => w.(d := w.d.(pending := false, flushing := w.d.flushing + 1))
    case DoFire => Notified(w).(d := w.d.(flushing := w.d.flushing - 1, fires := w.d.fires + 1), lastFire := w.now)
    case DoNotify => Notified(w)
    case DoSubscribe => w.(n := Subscribe(w.n).0, joined := w.joined + [w.now], got := w.got + [-1])
    case DoReceive(c) =>
      w.(n := TakeToken(w.n, c), got := if c < |w.got| then w.got[c := w.now] else w.got)
    case DoBeginClose =>
      var (n', cs) := BeginClose(w.n);
      w.(n := n', closing := w.closing + set c | c in cs)
    case DoCloseOne(c) => w.(n := CloseOne(w.n, c), closing := w.closing - {c})
  }

  function Next(w: World, step: Step): World
    requires Enabled(w, step)
  {
    Act(w, step).(now := w.now + 1)
  }

  predicate Legal(w: World, steps: seq<Step>)
    decreases |steps|
  {
    steps == [] || (Enabled(w, steps[0]) && Legal(Next(w, steps[0]), steps[1..]))
  }

  function After(w: World, steps: seq<Step>): World
    requires Legal(w, steps)
    decreases |steps|
  {
    if steps == [] then w else After(Next(w, steps[0]), steps[1..])
  }

  // ----- the invariant -----

  ghost predicate TriggersBalance(w: World) {
    && w.d.accepted == w.d.fires + One(w.d.pending) + w.d.flushing
    && (w.lastTrigger < 0 || w.d.pending || w.d.flushing > 0 || w.lastTrigger <= w.lastFire)
    && (w.interval <= 0 ==> !w.d.pending && w.d.flushing == 0)
    && w.lastTrigger < w.now && w.lastFire < w.now && w.lastNotify < w.now
    && (!w.n.closed ==> w.lastFire <= w.lastNotify)
  }

  ghost predicate ChannelsSound(w: World) {
    && |w.joined| == |w.got| == |w.n.chans|
    && (forall c | c in w.n.subs :: c < |w.n.chans| && w.n.chans[c].closes == 0 && c !in w.closing)
    && (forall c | c in w.closing :: c < |w.n.chans| && w.n.chans[c].closes == 0)
    && (forall c: nat | c < |w.n.chans| :: w.n.chans[c].closes <= 1)
    && (w.n.closed ==> w.n.subs == [])
    && (!w.n.closed ==> w.closing == {} && forall c: nat | c < |w.n.chans| :: c in w.n.subs)
  }

  ghost predicate SignalsKept(w: World) {
    forall c | c in w.n.subs && c < |w.n.chans| && c < |w.joined| && c < |w.got| && w.joined[c] < w.lastNotify ::
      w.n.chans[c].token || w.got[c] > w.lastNotify
  }

  ghost predicate Inv(w: World) {
    TriggersBalance(w) && ChannelsSound(w) && SignalsKept(w)
  }

  lemma {:induction false} NextKeepsTriggers(w: World, step: Step)
    requires Inv(w) && Enabled(w, step)
    ensures TriggersBalance(Next(w, step))
  {
  }

  lemma {:induction false} NextKeepsChannels(w: World, step: Step)
    requires Inv(w) && Enabled(w, step)
    ensures ChannelsSound(Next(w, step))
  {
  }

  lemma {:induction false} NextKeepsSignals(w: World, step: Step)
    requires Inv(w) && Enabled(w, step)
    ensures SignalsKept(Next(w, step))
  {
  }

  lemma {:induction false} NextKeepsInv(w: World, step: Step)
    requires Inv(w) && Enabled(w, step)
    ensures Inv(Next(w, step))
  {
    NextKeepsTriggers(w, step);
    NextKeepsChannels(w, step);
    NextKeepsSignals(w, step);
  }

  lemma {:induction false} RunsKeepInv(w: World, steps: seq<Step>)
    requires Inv(w) && Legal(w, steps)
    ensures Inv(After(w, steps))
    decreases |steps|
  {
    if steps != [] {
      NextKeepsInv(w, steps[0]);
      RunsKeepInv(Next(w, steps[0]), steps[1..]);
    }
  }

  // ----- theorems over whole runs -----

  /**
   Triggers are merged, never dropped: accepted triggers are exactly the fires so far, plus
   the armed one, plus the flushes under way.
   */
  lemma {:induction false} TriggersAreConserved(interval: int, steps: seq<Step>)
    requires Legal(Initial(interval), steps)
    ensures var w := After(Initial(interval), steps); w.d.accepted == w.d.fires + One(w.d.pending) + w.d.flushing
  {
    RunsKeepInv(Initial(interval), steps);
  }

  /** No channel is sent to once closed, and none is closed twice. */
  lemma {:induction false} ChannelSafety(interval: int, steps: seq<Step>)
    requires Legal(Initial(interval), steps)
    ensures var w := After(Initial(interval), steps);
      && (forall c | c in w.n.subs :: c < |w.n.chans| && w.n.chans[c].closes == 0)
      && (forall c | c in w.closing :: c < |w.n.chans| && w.n.chans[c].closes == 0)
      && (forall c: nat | c < |w.n.chans| :: w.n.chans[c].closes <= 1)
  {
    RunsKeepInv(Initial(interval), steps);
  }

  /**
   A subscriber that joined before the latest notification holds a signal or has received
   one since.
   */
  lemma {:induction false} NotificationsAreKept(interval: int, steps: seq<Step>, c: ChanId)
    requires Legal(Initial(interval), steps) && c in After(Initial(interval), steps).n.subs
    ensures var w := After(Initial(interval), steps);
      c < |w.n.chans| == |w.joined| == |w.got| && (w.joined[c] < w.lastNotify ==> w.n.chans[c].token || w.got[c] > w.lastNotify)
  {
    RunsKeepInv(Initial(interval), steps);
  }

  /**
   End to end. Once the debouncer is idle again, every subscriber that joined before the
   latest trigger, absorbed or not, holds a signal or received one after that trigger.
   */
  lemma {:induction false} NoChangeIsLost(interval: int, steps: seq<Step>, c: ChanId)
    requires Legal(Initial(interval), steps)
    requires var w := After(Initial(interval), steps);
      && c in w.n.subs && !w.d.pending && w.d.flushing == 0
      && c < |w.joined| && 0 <= w.joined[c] < w.lastTrigger
    ensures var w := After(Initial(interval), steps);
      c < |w.n.chans| == |w.got| && (w.n.chans[c].token || w.got[c] > w.lastTrigger)
  {
    RunsKeepInv(Initial(interval), steps);
  }

  lemma {:induction false} ClosingProceeds(w: World, step: Step, c: ChanId)
    requires Inv(w) && Enabled(w, step) && w.n.closed && c < |w.n.chans| && (c in w.closing || w.n.chans[c].closes == 1)
    ensures var w' := Next(w, step);
      w'.n.closed && c < |w'.n.chans| && (c in w'.closing || w'.n.chans[c].closes == 1)
  {
  }

  lemma {:induction false} ClosingCompletes(w: World, steps: seq<Step>, c: ChanId)
    requires Inv(w) && Legal(w, steps) && w.n.closed && c < |w.n.chans| && (c in w.closing || w.n.chans[c].closes == 1)
    ensures var w' := After(w, steps);
      w'.n.closed && c < |w'.n.chans| && (c in w'.closing || w'.n.chans[c].closes == 1)
    decreases |steps|
  {
    if steps != [] {
      ClosingProceeds(w, steps[0], c);
      NextKeepsInv(w, steps[0]);
      ClosingCompletes(Next(w, steps[0]), steps[1..], c);
    }
  }

  /**
   Closing. It ends the notifier at once: later notifications reach nobody and later subscribers
   get a closed channel. When the closing call is through, every channel handed out before is
   closed exactly once.
   */
  lemma {:induction false} ClosingReachesEverySubscriber(interval: int, before: seq<Step>, after: seq<Step>, c: ChanId)
    requires Legal(Initial(interval), before)
    requires var w := After(Initial(interval), before);
      c in w.n.subs && Legal(Next(w, DoBeginClose), after)
    ensures var w := After(Next(After(Initial(interval), before), DoBeginClose), after);
      && c < |w.n.chans|
      && (w.closing == {} ==> w.n.chans[c].closes == 1)
      && Next(w, DoNotify).n == w.n
      && Next(w, DoSubscribe).n.chans == w.n.chans + [Chan(false, 1)]
  {
    RunsKeepInv(Initial(interval), before);
    var w := After(Initial(interval), before);
    var w1 := Next(w, DoBeginClose);
    NextKeepsInv(w, DoBeginClose);
    assert w1.n.closed && c in w1.closing;
    ClosingCompletes(w1, after, c);
  }
}
