/**
 Every interleaving of publishers, any number of competing subscribers and a deletion on
 one session stream. A world is the stream plus each subscriber's local variables; a run
 is a sequence of steps, one per critical section or channel operation of
 `PublishSession`, `SubscribeSession` and `DeleteSession`.
 */
module StreamRuns {
  import opened Wrappers
  import opened SessionStream
  import Decimal

  type SubId = nat

  datatype Phase =
    | Ready                 // at the top of the subscription loop
    | Holding(i: nat)       // handler running on the claimed message at position i
    | Parked(w: Waiter)     // blocked on a waiter channel
    | Ended                 // SubscribeSession returned

  datatype Sub = Sub(start: int, cursor: int, phase: Phase)

  datatype Event = Took(sub: SubId, i: nat) | Finished(sub: SubId, i: nat) | GaveBack(sub: SubId, i: nat)

  datatype World = World(
    s: State,
    subs: map<SubId, Sub>,
    closing: set<Waiter>,   // waiters the deletion captured and has yet to signal
    log: seq<Event>)        // claims, acknowledgements and releases, in order

  datatype Step =
    | DoPublish(data: Payload)
    | DoSubscribe(sub: SubId, lastEventID: string)
    | DoAttempt(sub: SubId)
    | DoWake(sub: SubId)
    | DoCancel(sub: SubId)        // the subscriber observes its context cancelled
    | DoAck(sub: SubId)           // handler returned nil
    | DoRelease(sub: SubId)       // handler returned an error
    | DoClose
    | DoSignal(w: Waiter)

  const INITIAL := World(EMPTY, map[], {}, [])

  predicate Enabled(w: World, step: Step) {
    match step
    case DoPublish(_) => true
    case DoSubscribe(k, _) => k !in w.subs
    case DoAttempt(k) => k in w.subs && w.subs[k].phase.Ready?
    case DoWake(k) => k in w.subs && w.subs[k].phase.Parked? && w.subs[k].phase.w in w.s.tokens
    case DoCancel(k) => k in w.subs && (w.subs[k].phase.Ready? || w.subs[k].phase.Parked?)
    case DoAck(k) => k in w.subs && w.subs[k].phase.Holding?
    case DoRelease(k) => k in w.subs && w.subs[k].phase.Holding?
    case DoClose => true
    case DoSignal(x) => x in w.closing
  }

  function Next(w: World, step: Step): World
    requires Enabled(w, step)
  {
    match step
    case DoPublish(data) => w.(s := Publish(w.s, data))
    case DoSubscribe(k, id) =>
      var c := StartCursor(w.s, id);
      w.(subs := w.subs[k := Sub(c, c, Ready)])
    case DoAttempt(k) =>
      var u := w.subs[k];
      var (s', outcome) := TryClaim(w.s, u.cursor);
      (match outcome
       case StreamClosed => w.(subs := w.subs[k := u.(phase := Ended)])
       case Claimed(i) => w.(s := s', subs := w.subs[k := u.(phase := Holding(i))], log := w.log + [Took(k, i)])
       case MustWait(x) => w.(s := s', subs := w.subs[k := u.(phase := Parked(x))]))
    case DoWake(k) =>
      var u := w.subs[k];
      w.(s := TakeToken(w.s, u.phase.w), subs := w.subs[k := u.(phase := Ready)])
    case DoCancel(k) => w.(subs := w.subs[k := w.subs[k].(phase := Ended)])
    case DoAck(k) =>
      var u := w.subs[k];
      var id := IdAt(u.phase.i);
      w.(s := Ack(w.s, id),
      subs := w.subs[k := Sub(u.start, AckCursor(w.s, id, u.cursor), Ready)],
      log := w.log + [Finished(k, u.phase.i)])
    case DoRelease(k) =>
      var u := w.subs[k];
      w.(s := Release(w.s, IdAt(u.phase.i)),
      subs := w.subs[k := u.(phase := Ended)],
      log := w.log + [GaveBack(k, u.phase.i)])
    case DoClose =>
      var (s', snapshot) := Close(w.s);
      w.(s := s', closing := w.closing + Elements(snapshot))
    case DoSignal(x) => w.(s := Signal(w.s, x), closing := w.closing - {x})
  }

  predicate Legal(w: World, steps: seq<Step>)
    decreases |steps|
  {
    steps == [] || (Enabled(w, steps[0]) && Legal(Next(w, steps[0]), steps[1..]))
  }

  function After(w: World, steps: seq<Step>): World
    requires Legal(w, steps)
    decreases |steps|
  {
    if steps == [] then w else After(Next(w, steps[0]), steps[1..])
  }

  // ----- how often a message was claimed, acknowledged and released -----

  function Claims(log: seq<Event>, i: nat): nat {
    if log == [] then 0
    else Claims(log[..|log| - 1], i) + if log[|log| - 1].Took? && log[|log| - 1].i == i then 1 else 0
  }

  function Acks(log: seq<Event>, i: nat): nat {
    if log == [] then 0
    else Acks(log[..|log| - 1], i) + if log[|log| - 1].Finished? && log[|log| - 1].i == i then 1 else 0
  }

  function Releases(log: seq<Event>, i: nat): nat {
    if log == [] then 0
    else Releases(log[..|log| - 1], i) + if log[|log| - 1].GaveBack? && log[|log| - 1].i == i then 1 else 0
  }

  lemma {:induction false} CountsOfAppend(log: seq<Event>, e: Event, i: nat)
    ensures Claims(log + [e], i) == Claims(log, i) + if e.Took? && e.i == i then 1 else 0
    ensures Acks(log + [e], i) == Acks(log, i) + if e.Finished? && e.i == i then 1 else 0
    ensures Releases(log + [e], i) == Releases(log, i) + if e.GaveBack? && e.i == i then 1 else 0
  {
    assert (log + [e])[..|log|] == log;
  }

  // ----- the invariant -----

  ghost predicate IdsMatchPositions(s: State) {
    && s.nextID == |s.messages|
    && forall i: nat | i < |s.messages| :: s.messages[i].id == IdAt(i)
  }

  ghost predicate Holds(w: World, k: SubId, i: nat) {
    k in w.subs && w.subs[k].phase == Holding(i)
  }

  /** In flight means held by exactly one subscriber, and never already delivered. */
  ghost predicate ClaimsAreExclusive(w: World) {
    && (forall k, i: nat | Holds(w, k, i) :: w.subs[k].cursor < i < |w.s.messages| && IdAt(i) in w.s.inflight)
    && (forall k, l, i: nat | Holds(w, k, i) && Holds(w, l, i) :: k == l)
    && (forall id | id in w.s.inflight :: exists k, i: nat :: Holds(w, k, i) && IdAt(i) == id)
    && w.s.inflight !! w.s.delivered
    && (forall id | id in w.s.delivered :: exists i: nat :: i < |w.s.messages| && IdAt(i) == id)
  }

  /** Delivered, in flight, or handed back at least once by a failing handler. */
  ghost predicate Settled(w: World, i: nat) {
    IdAt(i) in w.s.delivered || IdAt(i) in w.s.inflight || Releases(w.log, i) > 0
  }

  ghost predicate SettledBetween(w: World, lo: int, hi: int) {
    forall j: nat | lo < j < hi :: Settled(w, j)
  }

  /** What a subscriber has moved past is settled; what a parked one waits behind is too. */
  ghost predicate SkipsNothing(w: World, u: Sub) {
    && -1 <= u.start <= u.cursor < |w.s.messages|
    && SettledBetween(w, u.start, u.cursor + 1)
    && (u.phase.Holding? ==> SettledBetween(w, u.cursor, u.phase.i))
    && (u.phase.Parked? && u.phase.w in w.s.waiters ==> SettledBetween(w, u.cursor, |w.s.messages|))
  }

  ghost predicate NothingSkipped(w: World) {
    forall k | k in w.subs :: SkipsNothing(w, w.subs[k])
  }

  /** A parked subscriber is signalled, registered, or about to be signalled by a deletion. */
  ghost predicate NoLostWakeup(w: World) {
    && (forall x | x in w.s.waiters || x in w.s.tokens || x in w.closing :: x < w.s.created)
    && (w.s.closed ==> w.s.waiters == [])
    && (w.closing != {} ==> w.s.closed)
    && (forall k | k in w.subs && w.subs[k].phase.Parked? ::
          var x := w.subs[k].phase.w;
          x < w.s.created && (x in w.s.tokens || x in w.s.waiters || x in w.closing))
    && (forall k, l | k in w.subs && l in w.subs && w.subs[k].phase.Parked? && w.subs[k].phase == w.subs[l].phase :: k == l)
  }

  /** Claims, acknowledgements and releases balance, message by message. */
  ghost predicate CountsBalance(w: World) {
    forall i: nat :: Balanced(w, i)
  }

  ghost predicate Balanced(w: World, i: nat) {
    && Claims(w.log, i) == Acks(w.log, i) + Releases(w.log, i) + (if IdAt(i) in w.s.inflight then 1 else 0)
    && Acks(w.log, i) == (if IdAt(i) in w.s.delivered then 1 else 0)
  }

  /** Position i lies after the subscriber's start and no further than it has got. */
  ghost predicate Reaches(u: Sub, i: nat) {
    && u.start < i
    && (u.phase.Ready? || u.phase.Parked? ==> i <= u.cursor)
    && (u.phase.Holding? ==> i <= u.phase.i)
  }

  ghost predicate ClaimsInOrder(w: World) {
    && (forall a | 0 <= a < |w.log| && w.log[a].Took? ::
          w.log[a].sub in w.subs && Reaches(w.subs[w.log[a].sub], w.log[a].i))
    && (forall a, b | 0 <= a < b < |w.log| && w.log[a].Took? && w.log[b].Took? && w.log[a].sub == w.log[b].sub ::
          w.log[a].i < w.log[b].i)
  }

  ghost predicate Inv(w: World) {
    && IdsMatchPositions(w.s)
    && ClaimsAreExclusive(w)
    && NothingSkipped(w)
    && NoLostWakeup(w)
    && CountsBalance(w)
    && ClaimsInOrder(w)
  }

  lemma {:induction false} IdsAreDistinct()
    ensures forall i: nat, j: nat :: IdAt(i) == IdAt(j) ==> i == j
  {
    forall i: nat, j: nat ensures IdAt(i) == IdAt(j) ==> i == j {
      IdAtInjective(i, j);
    }
  }

  lemma {:induction false} InitialInv()
    ensures Inv(INITIAL)
  {
  }

  /** Under the invariant the id search finds exactly the position it started from. */
  lemma {:induction false} IndexOfId(s: State, i: nat)
    requires IdsMatchPositions(s) && i < |s.messages|
    ensures IndexOf(s.messages, IdAt(i)) == Some(i)
  {
    IdsAreDistinct();
    assert s.messages[i].id == IdAt(i);
  }

  lemma {:induction false} NextKeepsIds(w: World, step: Step)
    requires Inv(w) && Enabled(w, step)
    ensures IdsMatchPositions(Next(w, step).s)
  {
  }

  /** A step that neither claims nor settles anything leaves the holders alone. */
  lemma {:induction false} SameHolders(w: World, w': World)
    requires ClaimsAreExclusive(w)
    requires w'.s.inflight == w.s.inflight && w'.s.delivered == w.s.delivered && |w'.s.messages| >= |w.s.messages|
    requires forall k, i: nat :: Holds(w, k, i) <==> Holds(w', k, i)
    requires forall k, i: nat | Holds(w, k, i) && Holds(w', k, i) :: w'.subs[k].cursor == w.subs[k].cursor
    ensures ClaimsAreExclusive(w')
  {
    forall id | id in w'.s.inflight ensures exists k, i: nat :: Holds(w', k, i) && IdAt(i) == id {
      var k, i: nat :| Holds(w, k, i) && IdAt(i) == id;
      assert Holds(w', k, i);
    }
  }

  lemma {:induction false} ClaimKeepsClaims(w: World, k: SubId, i: nat)
    requires IdsMatchPositions(w.s) && ClaimsAreExclusive(w) && Enabled(w, DoAttempt(k))
    requires TryClaim(w.s, w.subs[k].cursor).1 == Claimed(i)
    ensures ClaimsAreExclusive(Next(w, DoAttempt(k)))
  {
    IdsAreDistinct();
    var w' := Next(w, DoAttempt(k));
    assert w.s.messages[i].id == IdAt(i);
    assert forall l, j: nat :: Holds(w', l, j) <==> (if l == k then j == i else Holds(w, l, j));
    forall id | id in w'.s.inflight ensures exists l, j: nat :: Holds(w', l, j) && IdAt(j) == id {
      if id == IdAt(i) {
        assert Holds(w', k, i);
      } else {
        var l, j: nat :| Holds(w, l, j) && IdAt(j) == id;
        assert Holds(w', l, j);
      }
    }
  }

  /** Acknowledging and releasing both take one id out of flight, with its only holder. */
  lemma {:induction false} SettleKeepsClaims(w: World, k: SubId, step: Step)
    requires ClaimsAreExclusive(w) && Enabled(w, step) && (step == DoAck(k) || step == DoRelease(k))
    ensures ClaimsAreExclusive(Next(w, step))
  {
    IdsAreDistinct();
    var w' := Next(w, step);
    var i := w.subs[k].phase.i;
    assert Holds(w, k, i);
    assert forall l, j: nat :: Holds(w', l, j) <==> l != k && Holds(w, l, j);
    forall id | id in w'.s.inflight ensures exists l, j: nat :: Holds(w', l, j) && IdAt(j) == id {
      var l, j: nat :| Holds(w, l, j) && IdAt(j) == id;
      assert Holds(w', l, j);
    }
  }

  lemma {:induction false} NextKeepsClaims(w: World, step: Step)
    requires IdsMatchPositions(w.s) && ClaimsAreExclusive(w) && Enabled(w, step)
    ensures ClaimsAreExclusive(Next(w, step))
  {
    match step
    case DoAck(k) => SettleKeepsClaims(w, k, step);
    case DoRelease(k) => SettleKeepsClaims(w, k, step);
    case DoAttempt(k) =>
      var (_, outcome) := TryClaim(w.s, w.subs[k].cursor);
      if outcome.Claimed? {
        ClaimKeepsClaims(w, k, outcome.i);
      } else {
        SameHolders(w, Next(w, step));
      }
    case _ => SameHolders(w, Next(w, step));
  }

  /** Which positions a step settles or hands back, read off the ids it touches. */
  lemma {:induction false} LogGrowsByOne(w: World, step: Step)
    requires Enabled(w, step)
    ensures var w' := Next(w, step); w'.log == w.log || w'.log == w.log + [w'.log[|w.log|]]
  {
  }

  lemma {:induction false} ReleasesGrow(w: World, step: Step, i: nat)
    requires Enabled(w, step)
    ensures Releases(Next(w, step).log, i) >= Releases(w.log, i)
    ensures step.DoRelease? && w.subs[step.sub].phase.i == i ==> Releases(Next(w, step).log, i) > 0
  {
    var w' := Next(w, step);
    LogGrowsByOne(w, step);
    if w'.log != w.log {
      CountsOfAppend(w.log, w'.log[|w.log|], i);
    }
  }

  /** Settled is for good: acknowledging and releasing only trade one reason for another. */
  lemma {:induction false} SettledStays(w: World, step: Step, i: nat)
    requires Enabled(w, step) && Settled(w, i)
    ensures Settled(Next(w, step), i)
  {
    ReleasesGrow(w, step, i);
    if step.DoRelease? {
      IdAtInjective(w.subs[step.sub].phase.i, i);
    } else {
      MarksGrow(w, step);
    }
  }

  /** Only a release takes an id out of flight without delivering it. */
  lemma {:induction false} MarksGrow(w: World, step: Step)
    requires Enabled(w, step) && !step.DoRelease?
    ensures w.s.inflight + w.s.delivered <= Next(w, step).s.inflight + Next(w, step).s.delivered
  {
    match step
    case DoAck(_) =>
    case DoAttempt(_) =>
    case DoPublish(_) =>
    case DoSubscribe(_, _) =>
    case DoWake(_) =>
    case DoCancel(_) =>
    case DoClose =>
    case DoSignal(_) =>
  }

  lemma {:induction false} AllSettledStay(w: World, step: Step)
    requires Enabled(w, step)
    ensures forall i: nat | Settled(w, i) :: Settled(Next(w, step), i)
  {
    forall i: nat | Settled(w, i) ensures Settled(Next(w, step), i) {
      SettledStays(w, step, i);
    }
  }

  lemma {:induction false} BystanderSkipsNothing(w: World, step: Step, k: SubId)
    requires Inv(w) && Enabled(w, step) && k in w.subs
    requires Next(w, step).subs[k] == w.subs[k]
    ensures SkipsNothing(Next(w, step), w.subs[k])
  {
    AllSettledStay(w, step);
    assert SkipsNothing(w, w.subs[k]);
    assert step.DoAttempt? ==> forall x | x in Next(w, step).s.waiters :: x in w.s.waiters || x == w.s.created;
  }

  lemma {:induction false} AttemptSkipsNothing(w: World, k: SubId)
    requires Inv(w) && Enabled(w, DoAttempt(k))
    ensures SkipsNothing(Next(w, DoAttempt(k)), Next(w, DoAttempt(k)).subs[k])
  {
    AllSettledStay(w, DoAttempt(k));
    assert SkipsNothing(w, w.subs[k]);
    assert forall j: nat | j < |w.s.messages| && Taken(w.s, j) :: Settled(w, j);
  }

  lemma {:induction false} AckMoves(w: World, k: SubId)
    requires IdsMatchPositions(w.s) && ClaimsAreExclusive(w) && Enabled(w, DoAck(k))
    ensures var i, w' := w.subs[k].phase.i, Next(w, DoAck(k));
      && i < |w.s.messages| && IdAt(i) in w.s.inflight
      && w'.subs[k] == Sub(w.subs[k].start, i, Ready) && |w'.s.messages| == |w.s.messages|
  {
    assert Holds(w, k, w.subs[k].phase.i);
    IndexOfId(w.s, w.subs[k].phase.i);
  }

  lemma {:induction false} AckSkipsNothing(w: World, k: SubId)
    requires IdsMatchPositions(w.s) && ClaimsAreExclusive(w) && Enabled(w, DoAck(k)) && SkipsNothing(w, w.subs[k])
    requires w.subs[k].cursor < w.subs[k].phase.i
    ensures SkipsNothing(Next(w, DoAck(k)), Next(w, DoAck(k)).subs[k])
  {
    AllSettledStay(w, DoAck(k));
    AckMoves(w, k);
    assert Settled(w, w.subs[k].phase.i);
    assert SettledBetween(Next(w, DoAck(k)), w.subs[k].start, w.subs[k].phase.i + 1);
  }

  lemma {:induction false} NextKeepsNothingSkipped(w: World, step: Step)
    requires Inv(w) && Enabled(w, step)
    ensures NothingSkipped(Next(w, step))
  {
    var w' := Next(w, step);
    forall k | k in w'.subs ensures SkipsNothing(w', w'.subs[k]) {
      if k in w.subs && w'.subs[k] == w.subs[k] {
        BystanderSkipsNothing(w, step, k);
      } else if step.DoAttempt? {
        AttemptSkipsNothing(w, k);
      } else if step.DoAck? {
        assert SkipsNothing(w, w.subs[k]) && Holds(w, k, w.subs[k].phase.i);
        AckSkipsNothing(w, k);
      } else {
        AllSettledStay(w, step);
        assert k in w.subs ==> SkipsNothing(w, w.subs[k]);
      }
    }
  }

  lemma {:induction false} NextKeepsWakeups(w: World, step: Step)
    requires NoLostWakeup(w) && Enabled(w, step)
    ensures NoLostWakeup(Next(w, step))
  {
  }

  /** Claiming puts one fresh id in flight; acknowledging and releasing take a held one out. */
  ghost predicate MovesOneId(w: World, w': World) {
    if w'.log == w.log then w'.s.inflight == w.s.inflight && w'.s.delivered == w.s.delivered
    else
      && |w.log| < |w'.log| && w'.log == w.log + [w'.log[|w.log|]]
      && match w'.log[|w.log|]
         case Took(_, j) =>
           IdAt(j) !in w.s.inflight + w.s.delivered && w'.s.inflight == w.s.inflight + {IdAt(j)} && w'.s.delivered == w.s.delivered
         case Finished(_, j) =>
           IdAt(j) in w.s.inflight && w'.s.inflight == w.s.inflight - {IdAt(j)} && w'.s.delivered == w.s.delivered + {IdAt(j)}
         case GaveBack(_, j) =>
           IdAt(j) in w.s.inflight && w'.s.inflight == w.s.inflight - {IdAt(j)} && w'.s.delivered == w.s.delivered
  }

  lemma {:induction false} StepMovesOneId(w: World, step: Step)
    requires IdsMatchPositions(w.s) && ClaimsAreExclusive(w) && Enabled(w, step)
    ensures MovesOneId(w, Next(w, step))
  {
    match step
    case DoAck(k) => assert Holds(w, k, w.subs[k].phase.i);
    case DoRelease(k) => assert Holds(w, k, w.subs[k].phase.i);
    case _ =>
  }

  lemma {:induction false} MoveKeepsBalance(w: World, w': World, i: nat)
    requires MovesOneId(w, w') && w.s.inflight !! w.s.delivered && Balanced(w, i)
    ensures Balanced(w', i)
  {
    if w'.log != w.log {
      var e := w'.log[|w.log|];
      CountsOfAppend(w.log, e, i);
      IdAtInjective(e.i, i);
    }
  }

  lemma {:induction false} NextKeepsBalance(w: World, step: Step, i: nat)
    requires IdsMatchPositions(w.s) && ClaimsAreExclusive(w) && Enabled(w, step) && Balanced(w, i)
    ensures Balanced(Next(w, step), i)
  {
    StepMovesOneId(w, step);
    MoveKeepsBalance(w, Next(w, step), i);
  }

  lemma {:induction false} NextKeepsCounts(w: World, step: Step)
    requires Inv(w) && Enabled(w, step)
    ensures CountsBalance(Next(w, step))
  {
    forall i: nat ensures Balanced(Next(w, step), i) {
      assert Balanced(w, i);
      NextKeepsBalance(w, step, i);
    }
  }

  lemma {:induction false} ReachStays(w: World, step: Step, k: SubId, i: nat)
    requires Inv(w) && Enabled(w, step) && k in w.subs && Reaches(w.subs[k], i)
    ensures k in Next(w, step).subs && Reaches(Next(w, step).subs[k], i)
  {
    match step
    case DoAck(l) =>
      assert Holds(w, l, w.subs[l].phase.i);
      IndexOfId(w.s, w.subs[l].phase.i);
    case DoPublish(_) =>
    case DoSubscribe(_, _) =>
    case DoAttempt(_) =>
    case DoWake(_) =>
    case DoCancel(_) =>
    case DoRelease(_) =>
    case DoClose =>
    case DoSignal(_) =>
  }

  lemma {:induction false} NewClaimIsAhead(w: World, step: Step)
    requires Inv(w) && Enabled(w, step)
    ensures var w' := Next(w, step);
      w'.log != w.log && w'.log[|w.log|].Took? ==>
        && var e := w'.log[|w.log|];
        && e.sub in w.subs
        && w.subs[e.sub].phase.Ready?
        && w.subs[e.sub].cursor < e.i
        && e.sub in w'.subs
        && Reaches(w'.subs[e.sub], e.i)
  {
    LogGrowsByOne(w, step);
    if step.DoAttempt? {
      assert SkipsNothing(w, w.subs[step.sub]);
    }
  }

  lemma {:induction false} NextKeepsOrder(w: World, step: Step)
    requires Inv(w) && Enabled(w, step)
    ensures ClaimsInOrder(Next(w, step))
  {
    var w' := Next(w, step);
    LogGrowsByOne(w, step);
    NewClaimIsAhead(w, step);
    forall a | 0 <= a < |w'.log| && w'.log[a].Took?
      ensures w'.log[a].sub in w'.subs && Reaches(w'.subs[w'.log[a].sub], w'.log[a].i)
    {
      if a < |w.log| {
        ReachStays(w, step, w.log[a].sub, w.log[a].i);
      }
    }
  }

  lemma {:induction false} NextKeepsInv(w: World, step: Step)
    requires Inv(w) && Enabled(w, step)
    ensures Inv(Next(w, step))
  {
    NextKeepsIds(w, step);
    NextKeepsClaims(w, step);
    NextKeepsNothingSkipped(w, step);
    NextKeepsWakeups(w, step);
    NextKeepsCounts(w, step);
    NextKeepsOrder(w, step);
  }

  // ----- theorems over whole runs -----

  /** Every interleaving keeps the invariant. */
  lemma {:induction false} RunsKeepInv(w: World, steps: seq<Step>)
    requires Inv(w) && Legal(w, steps)
    ensures Inv(After(w, steps))
    decreases |steps|
  {
    if steps != [] {
      NextKeepsInv(w, steps[0]);
      RunsKeepInv(Next(w, steps[0]), steps[1..]);
    }
  }

  /**
   Exclusive delivery. After any run from an empty stream: a claimed id has exactly one
   holder and is not delivered, only held ids are in flight, and no message has been
   acknowledged twice.
   */
  lemma {:induction false} ExclusiveDelivery(steps: seq<Step>)
    requires Legal(INITIAL, steps)
    ensures var w := After(INITIAL, steps);
      && w.s.inflight !! w.s.delivered
      && (forall id :: id in w.s.inflight <==> exists k, i: nat :: Holds(w, k, i) && IdAt(i) == id)
      && (forall k, l, i: nat | Holds(w, k, i) && Holds(w, l, i) :: k == l)
      && (forall i: nat :: Acks(w.log, i) == if IdAt(i) in w.s.delivered then 1 else 0)
      && (forall i: nat :: Claims(w.log, i) == Acks(w.log, i) + Releases(w.log, i) + if IdAt(i) in w.s.inflight then 1 else 0)
  {
    InitialInv();
    RunsKeepInv(INITIAL, steps);
    var w := After(INITIAL, steps);
    HoldersAreExact(w);
    forall i: nat
      ensures Acks(w.log, i) == (if IdAt(i) in w.s.delivered then 1 else 0)
      ensures Claims(w.log, i) == Acks(w.log, i) + Releases(w.log, i) + (if IdAt(i) in w.s.inflight then 1 else 0)
    {
      assert Balanced(w, i);
    }
  }

  lemma {:induction false} HoldersAreExact(w: World)
    requires ClaimsAreExclusive(w)
    ensures forall id :: id in w.s.inflight <==> exists k, i: nat :: Holds(w, k, i) && IdAt(i) == id
  {
  }

  /**
   Order. Each subscriber claims messages in strictly increasing publish order, all of them
   strictly after its starting point.
   */
  lemma {:induction false} SubscribersSeePublishOrder(steps: seq<Step>)
    requires Legal(INITIAL, steps)
    ensures var w := After(INITIAL, steps);
      && (forall a | 0 <= a < |w.log| && w.log[a].Took? ::
            w.log[a].sub in w.subs && w.subs[w.log[a].sub].start < w.log[a].i)
      && (forall a, b | 0 <= a < b < |w.log| && w.log[a].Took? && w.log[b].Took? && w.log[a].sub == w.log[b].sub ::
            w.log[a].i < w.log[b].i)
  {
    InitialInv();
    RunsKeepInv(INITIAL, steps);
  }

  /**
   Resumption. A subscriber that names the id of the message at position i starts exactly
   there; a blank or unknown id starts it at the end of what has been published.
   */
  lemma {:induction false} ResumesAfterNamedMessage(steps: seq<Step>, k: SubId, lastEventID: string)
    requires Legal(INITIAL, steps) && k !in After(INITIAL, steps).subs
    ensures var w := After(INITIAL, steps);
      var u := Next(w, DoSubscribe(k, lastEventID)).subs[k];
      if exists i: nat :: i < |w.s.messages| && IdAt(i) == lastEventID
      then 0 <= u.start < |w.s.messages| && IdAt(u.start) == lastEventID
      else u.start == |w.s.messages| - 1
  {
    InitialInv();
    RunsKeepInv(INITIAL, steps);
    StartOfNamed(After(INITIAL, steps).s, lastEventID);
  }

  lemma {:induction false} StartOfNamed(s: State, lastEventID: string)
    requires IdsMatchPositions(s)
    ensures var start := StartCursor(s, lastEventID);
      if exists i: nat :: i < |s.messages| && IdAt(i) == lastEventID
      then 0 <= start < |s.messages| && IdAt(start) == lastEventID
      else start == |s.messages| - 1
  {
    if i: nat :| i < |s.messages| && IdAt(i) == lastEventID {
      IndexOfId(s, i);
      Decimal.ItoaSign(i + 1);
    } else {
      assert forall i: nat | i < |s.messages| :: s.messages[i].id == IdAt(i);
    }
  }

  /**
   No lost wake-up. A parked subscriber without a signal is either registered, with every
   message ahead of it settled, or about to be signalled by a deletion of the stream.
   */
  lemma {:induction false} ParkedSubscribersMissNothing(steps: seq<Step>, k: SubId)
    requires Legal(INITIAL, steps)
    requires var w := After(INITIAL, steps);
      k in w.subs && w.subs[k].phase.Parked? && w.subs[k].phase.w !in w.s.tokens
    ensures var w := After(INITIAL, steps);
      || (w.subs[k].phase.w in w.s.waiters && SettledBetween(w, w.subs[k].start, |w.s.messages|))
      || (w.subs[k].phase.w in w.closing && w.s.closed)
  {
    InitialInv();
    RunsKeepInv(INITIAL, steps);
    var w := After(INITIAL, steps);
    assert SkipsNothing(w, w.subs[k]);
  }

  /** No subscriber has anything left to do until someone publishes, resumes or deletes. */
  ghost predicate Quiescent(w: World) {
    && !w.s.closed
    && forall k | k in w.subs ::
         w.subs[k].phase.Ended? || (w.subs[k].phase.Parked? && w.subs[k].phase.w !in w.s.tokens)
  }

  /**
   No lost message. When an open stream comes to rest, everything published after a parked
   subscriber's start has been acknowledged, unless a failing handler once handed it back;
   what was never handed back was claimed and acknowledged exactly once.
   */
  lemma {:induction false} QuiescentStreamHasDelivered(steps: seq<Step>, k: SubId, i: nat)
    requires Legal(INITIAL, steps) && Quiescent(After(INITIAL, steps))
    requires var w := After(INITIAL, steps);
      k in w.subs && w.subs[k].phase.Parked? && w.subs[k].start < i < |w.s.messages|
    ensures var w := After(INITIAL, steps); IdAt(i) in w.s.delivered || Releases(w.log, i) > 0
    ensures var w := After(INITIAL, steps); Releases(w.log, i) == 0 ==> Claims(w.log, i) == 1 && Acks(w.log, i) == 1
  {
    InitialInv();
    RunsKeepInv(INITIAL, steps);
    var w := After(INITIAL, steps);
    ParkedSubscribersMissNothing(steps, k);
    assert Settled(w, i) && Balanced(w, i);
    assert forall l, j: nat :: !Holds(w, l, j);
    assert IdAt(i) !in w.s.inflight;
  }

  lemma {:induction false} ClosedStreamGrantsNoClaim(w: World, steps: seq<Step>, i: nat)
    requires w.s.closed && Legal(w, steps)
    ensures After(w, steps).s.closed
    ensures Claims(After(w, steps).log, i) == Claims(w.log, i)
    decreases |steps|
  {
    if steps != [] {
      var w' := Next(w, steps[0]);
      LogGrowsByOne(w, steps[0]);
      if w'.log != w.log {
        CountsOfAppend(w.log, w'.log[|w.log|], i);
      }
      ClosedStreamGrantsNoClaim(w', steps[1..], i);
    }
  }

  /**
   Deletion is final. Once the stream is deleted no further claim happens, in any
   continuation, and when the deletion has signalled the waiters it captured, every parked
   subscriber holds a signal, after which its next attempt ends it.
   */
  lemma {:induction false} DeletionEndsTheStream(before: seq<Step>, after: seq<Step>, k: SubId, i: nat)
    requires Legal(INITIAL, before) && Legal(Next(After(INITIAL, before), DoClose), after)
    ensures var w := After(INITIAL, before);
      var w' := After(Next(w, DoClose), after);
      && Claims(w'.log, i) == Claims(w.log, i)
      && (k in w'.subs && w'.subs[k].phase.Parked? && w'.closing == {} ==> w'.subs[k].phase.w in w'.s.tokens)
      && (Enabled(w', DoAttempt(k)) ==> Next(w', DoAttempt(k)).subs[k].phase.Ended?)
  {
    InitialInv();
    RunsKeepInv(INITIAL, before);
    var w := After(INITIAL, before);
    NextKeepsInv(w, DoClose);
    RunsKeepInv(Next(w, DoClose), after);
    ClosedStreamGrantsNoClaim(Next(w, DoClose), after, i);
    ClosedStreamEnds(After(Next(w, DoClose), after), k);
  }

  lemma {:induction false} ClosedStreamEnds(w: World, k: SubId)
    requires NoLostWakeup(w) && w.s.closed
    ensures k in w.subs && w.subs[k].phase.Parked? && w.closing == {} ==> w.subs[k].phase.w in w.s.tokens
    ensures Enabled(w, DoAttempt(k)) ==> Next(w, DoAttempt(k)).subs[k].phase.Ended?
  {
  }

  // ----- what a claim hands over -----

  /** The payloads published in a run, in order. */
  function Published(steps: seq<Step>): seq<Payload> {
    if steps == [] then []
    else (if steps[0].DoPublish? then [steps[0].data] else []) + Published(steps[1..])
  }

  /** Messages with consecutive ids, the first being n + 1. */
  function Numbered(data: seq<Payload>, n: nat): seq<Message> {
    if data == [] then [] else [Message(Decimal.Itoa(n + 1), data[0])] + Numbered(data[1..], n + 1)
  }

  lemma {:induction false} NumberedAt(data: seq<Payload>, n: nat, i: nat)
    requires i < |data|
    ensures |Numbered(data, n)| == |data| && Numbered(data, n)[i] == Message(Decimal.Itoa(n + i + 1), data[i])
    decreases |data|
  {
    if i > 0 {
      NumberedAt(data[1..], n + 1, i - 1);
    } else if |data| > 1 {
      NumberedAt(data[1..], n + 1, 0);
    }
  }

  lemma {:induction false} NumberedFromOne(data: seq<Payload>)
    ensures |Numbered(data, 0)| == |data|
    ensures forall i | 0 <= i < |data| :: Numbered(data, 0)[i] == Message(Decimal.Itoa(i + 1), data[i])
  {
    NumberedLength(data, 0);
    forall i | 0 <= i < |data| ensures Numbered(data, 0)[i] == Message(Decimal.Itoa(i + 1), data[i]) {
      NumberedAt(data, 0, i);
    }
  }

  lemma {:induction false} MessagesStep(w: World, step: Step)
    requires Enabled(w, step) && w.s.nextID == |w.s.messages|
    ensures var s' := Next(w, step).s;
      && s'.messages == w.s.messages + Numbered(Published([step]), |w.s.messages|)
      && s'.nextID == |s'.messages|
  {
    assert [step][1..] == [];
    assert Published([step]) == if step.DoPublish? then [step.data] else [];
    assert step.DoPublish? ==> [step.data][1..] == [];
  }

  lemma {:induction false} NumberedConcat(a: seq<Payload>, b: seq<Payload>, n: nat)
    ensures Numbered(a + b, n) == Numbered(a, n) + Numbered(b, n + |a|)
    decreases |a|
  {
    if a == [] {
      assert a + b == b;
    } else {
      assert (a + b)[1..] == a[1..] + b;
      NumberedConcat(a[1..], b, n + 1);
    }
  }

  lemma {:induction false} NumberedLength(data: seq<Payload>, n: nat)
    ensures |Numbered(data, n)| == |data|
  {
    if data != [] {
      NumberedAt(data, n, 0);
    }
  }

  lemma {:induction false} JoinNumbered(m: seq<Message>, m': seq<Message>, all: seq<Message>, first: seq<Payload>, rest: seq<Payload>)
    requires m' == m + Numbered(first, |m|) && all == m' + Numbered(rest, |m'|)
    ensures all == m + Numbered(first + rest, |m|)
  {
    NumberedLength(first, |m|);
    NumberedConcat(first, rest, |m|);
    Regroup(m, Numbered(first, |m|), Numbered(rest, |m| + |first|));
  }

  lemma {:induction false} Regroup(a: seq<Message>, b: seq<Message>, c: seq<Message>)
    ensures (a + b) + c == a + (b + c)
  {
  }

  lemma {:induction false} PublishedFirst(steps: seq<Step>)
    requires steps != []
    ensures Published(steps) == Published([steps[0]]) + Published(steps[1..])
  {
    assert [steps[0]][1..] == [];
  }

  lemma {:induction false} PublishedAreStored(w: World, steps: seq<Step>)
    requires Legal(w, steps) && w.s.nextID == |w.s.messages|
    ensures After(w, steps).s.messages == w.s.messages + Numbered(Published(steps), |w.s.messages|)
    decreases |steps|
  {
    if steps != [] {
      var w' := Next(w, steps[0]);
      MessagesStep(w, steps[0]);
      PublishedAreStored(w', steps[1..]);
      PublishedFirst(steps);
      JoinNumbered(w.s.messages, w'.s.messages, After(w', steps[1..]).s.messages, Published([steps[0]]), Published(steps[1..]));
    }
  }

  lemma {:induction false} ClaimsAreInRange(w: World, steps: seq<Step>)
    requires Legal(w, steps) && forall e | e in w.log && e.Took? :: e.i < |w.s.messages|
    ensures forall e | e in After(w, steps).log && e.Took? :: e.i < |After(w, steps).s.messages|
    decreases |steps|
  {
    if steps != [] {
      LogGrowsByOne(w, steps[0]);
      ClaimsAreInRange(Next(w, steps[0]), steps[1..]);
    }
  }

  /**
   Delivery. In every run the stream holds exactly the published payloads, in order, under the
   ids "1", "2" and so on; so a claim of position i hands over the i-th published payload.
   */
  lemma {:induction false} ClaimsHandOverWhatWasPublished(steps: seq<Step>)
    requires Legal(INITIAL, steps)
    ensures var messages, data := After(INITIAL, steps).s.messages, Published(steps);
      && |messages| == |data|
      && (forall i | 0 <= i < |data| :: messages[i] == Message(Decimal.Itoa(i + 1), data[i]))
      && (forall e | e in After(INITIAL, steps).log && e.Took? :: e.i < |data| && messages[e.i].data == data[e.i])
  {
    PublishedAreStored(INITIAL, steps);
    ClaimsAreInRange(INITIAL, steps);
    NumberedFromOne(Published(steps));
    assert [] + Numbered(Published(steps), 0) == Numbered(Published(steps), 0);
  }

  /**
   A message that is never handed back is claimed at most once; conversely a second claim
   is always preceded by a release.
   */
  lemma {:induction false} RedeliveryNeedsRelease(steps: seq<Step>, i: nat)
    requires Legal(INITIAL, steps)
    ensures Claims(After(INITIAL, steps).log, i) <= 1 + Releases(After(INITIAL, steps).log, i)
  {
    ExclusiveDelivery(steps);
  }

  // ----- what becomes of a message nobody holds -----

  /** Subscribers keep claiming, waking and acknowledging; nothing else happens. */
  predicate Settling(step: Step) {
    step.DoAttempt? || step.DoWake? || step.DoAck?
  }

  /** The subscriber will come past position i: it stands before it and is not asleep. */
  ghost predicate WillPass(w: World, k: SubId, i: nat) {
    && k in w.subs
    && w.subs[k].cursor < i
    && match w.subs[k].phase
       case Ready => true
       case Parked(x) => x in w.s.tokens
       case Holding(j) => j < i
       case Ended => false
  }

  ghost predicate HasProspect(w: World, i: nat) {
    IdAt(i) in w.s.delivered || IdAt(i) in w.s.inflight || exists k :: WillPass(w, k, i)
  }

  /** The first claimable message is no later than any other. */
  lemma {:induction false} ClaimsNoLater(s: State, cursor: int, i: nat)
    requires !s.closed && IdsMatchPositions(s) && cursor < i < |s.messages| && IdAt(i) !in s.delivered + s.inflight
    ensures TryClaim(s, cursor).1.Claimed? && TryClaim(s, cursor).1.i <= i
  {
    assert s.messages[i].id == IdAt(i);
    assert !Taken(s, i);
  }

  /** A subscriber's own step keeps it coming, unless it claims the message itself. */
  lemma {:induction false} OwnStepKeepsCourse(w: World, step: Step, i: nat)
    requires Inv(w) && Enabled(w, step) && Settling(step) && !w.s.closed
    requires i < |w.s.messages| && WillPass(w, step.sub, i) && IdAt(i) !in w.s.delivered + w.s.inflight
    ensures WillPass(Next(w, step), step.sub, i) || IdAt(i) in Next(w, step).s.inflight
  {
    var k := step.sub;
    match step
    case DoAttempt(_) =>
      ClaimsNoLater(w.s, w.subs[k].cursor, i);
      var j := TryClaim(w.s, w.subs[k].cursor).1.i;
      assert w.s.messages[j].id == IdAt(j);
    case DoWake(_) =>
    case DoAck(_) =>
      assert Holds(w, k, w.subs[k].phase.i);
      IndexOfId(w.s, w.subs[k].phase.i);
  }

  lemma {:induction false} OthersStepKeepsCourse(w: World, step: Step, k: SubId, i: nat)
    requires Inv(w) && Enabled(w, step) && Settling(step) && step.sub != k && WillPass(w, k, i)
    ensures WillPass(Next(w, step), k, i)
  {
  }

  /** A subscriber that has passed a message, or sleeps before it, does not turn back to it. */
  lemma {:induction false} NobodyTurnsBack(w: World, step: Step, i: nat)
    requires Inv(w) && Enabled(w, step) && Settling(step) && i < |w.s.messages|
    requires IdAt(i) !in w.s.inflight && !WillPass(w, step.sub, i)
    ensures !WillPass(Next(w, step), step.sub, i)
    ensures IdAt(i) in Next(w, step).s.inflight + Next(w, step).s.delivered ==> IdAt(i) in w.s.delivered
  {
    var k := step.sub;
    match step
    case DoAttempt(_) =>
      IdsAreDistinct();
      var (_, outcome) := TryClaim(w.s, w.subs[k].cursor);
      assert outcome.Claimed? ==> w.s.messages[outcome.i].id == IdAt(outcome.i);
    case DoWake(_) =>
    case DoAck(_) =>
      var j := w.subs[k].phase.i;
      assert Holds(w, k, j);
      IndexOfId(w.s, j);
      IdAtInjective(i, j);
  }

  lemma {:induction false} OthersStay(w: World, step: Step, k: SubId, i: nat)
    requires Inv(w) && Enabled(w, step) && Settling(step) && step.sub != k && !WillPass(w, k, i)
    ensures !WillPass(Next(w, step), k, i)
  {
  }

  lemma {:induction false} ProspectIsKept(w: World, step: Step, i: nat)
    requires Inv(w) && Enabled(w, step) && Settling(step) && !w.s.closed && i < |w.s.messages|
    ensures HasProspect(w, i) ==> HasProspect(Next(w, step), i)
  {
    var w' := Next(w, step);
    StepMovesOneId(w, step);
    if IdAt(i) !in w.s.delivered + w.s.inflight {
      if k :| WillPass(w, k, i) {
        if k == step.sub {
          OwnStepKeepsCourse(w, step, i);
        } else {
          OthersStepKeepsCourse(w, step, k, i);
        }
      }
    }
  }

  lemma {:induction false} NoProspectIsKept(w: World, step: Step, i: nat)
    requires Inv(w) && Enabled(w, step) && Settling(step) && i < |w.s.messages|
    ensures HasProspect(Next(w, step), i) ==> HasProspect(w, i)
  {
    if !HasProspect(w, i) {
      assert !WillPass(w, step.sub, i);
      NobodyTurnsBack(w, step, i);
      forall k ensures !WillPass(Next(w, step), k, i) {
        assert !WillPass(w, k, i);
        if k != step.sub {
          OthersStay(w, step, k, i);
        }
      }
    }
  }

  lemma {:induction false} SettlingDecidedBy(w: World, steps: seq<Step>, i: nat)
    requires Inv(w) && Legal(w, steps) && !w.s.closed && i < |w.s.messages|
    requires forall n | 0 <= n < |steps| :: Settling(steps[n])
    requires Quiescent(After(w, steps))
    ensures IdAt(i) in After(w, steps).s.delivered <==> HasProspect(w, i)
    decreases |steps|
  {
    if steps == [] {
      assert forall l, j: nat :: !Holds(w, l, j);
    } else {
      ProspectIsKept(w, steps[0], i);
      NoProspectIsKept(w, steps[0], i);
      NextKeepsInv(w, steps[0]);
      SettlingDecidedBy(Next(w, steps[0]), steps[1..], i);
    }
  }

  // ----- a stream left alone comes to rest -----

  function ReadySubs(w: World): set<SubId> {
    set k | k in w.subs && w.subs[k].phase.Ready?
  }

  /** How many claims, wake-ups and acknowledgements are still to come. */
  function Work(w: World): int {
    2 * (|w.s.messages| - |w.s.delivered|) + 2 * |w.s.tokens| + |ReadySubs(w)|
  }

  lemma {:induction false} SubsetSize<T>(a: set<T>, b: set<T>)
    requires a <= b
    ensures |a| <= |b|
  {
    if x :| x in a {
      SubsetSize(a - {x}, b - {x});
    }
  }

  function IdsBelow(n: nat): set<string> {
    set i | 0 <= i < n :: IdAt(i)
  }

  lemma {:induction false} IdsBelowSize(n: nat)
    ensures |IdsBelow(n)| <= n
  {
    if n == 0 {
      assert IdsBelow(n) == {};
    } else {
      IdsBelowSize(n - 1);
      assert IdsBelow(n) == IdsBelow(n - 1) + {IdAt(n - 1)};
    }
  }

  lemma {:induction false} WorkIsNatural(w: World)
    requires ClaimsAreExclusive(w)
    ensures Work(w) >= 0
  {
    IdsBelowSize(|w.s.messages|);
    assert w.s.delivered <= IdsBelow(|w.s.messages|);
    SubsetSize(w.s.delivered, IdsBelow(|w.s.messages|));
  }

  lemma {:induction false} AttemptWork(w: World, k: SubId)
    requires Enabled(w, DoAttempt(k)) && !w.s.closed
    ensures Work(Next(w, DoAttempt(k))) == Work(w) - 1
  {
    var w' := Next(w, DoAttempt(k));
    assert w'.s.messages == w.s.messages && w'.s.delivered == w.s.delivered && w'.s.tokens == w.s.tokens;
    assert ReadySubs(w') == ReadySubs(w) - {k};
  }

  lemma {:induction false} WakeWork(w: World, k: SubId)
    requires Enabled(w, DoWake(k))
    ensures Work(Next(w, DoWake(k))) == Work(w) - 1
  {
    var w' := Next(w, DoWake(k));
    assert w'.s.tokens == w.s.tokens - {w.subs[k].phase.w};
    assert ReadySubs(w') == ReadySubs(w) + {k};
  }

  lemma {:induction false} AckWork(w: World, k: SubId)
    requires Enabled(w, DoAck(k)) && ClaimsAreExclusive(w)
    ensures Work(Next(w, DoAck(k))) == Work(w) - 1
  {
    var w' := Next(w, DoAck(k));
    var id := IdAt(w.subs[k].phase.i);
    assert Holds(w, k, w.subs[k].phase.i);
    assert w'.s.delivered == w.s.delivered + {id} && id !in w.s.delivered;
    assert ReadySubs(w') == ReadySubs(w) + {k};
  }

  /** Every settling step does one unit of work. */
  lemma {:induction false} WorkIsDone(w: World, step: Step)
    requires ClaimsAreExclusive(w) && Enabled(w, step) && Settling(step) && !w.s.closed
    ensures Work(Next(w, step)) == Work(w) - 1 && !Next(w, step).s.closed
  {
    match step
    case DoAttempt(k) => AttemptWork(w, k);
    case DoWake(k) => WakeWork(w, k);
    case DoAck(k) => AckWork(w, k);
  }

  /** At rest means that no settling step is possible. */
  lemma {:induction false} RestIff(w: World)
    requires !w.s.closed
    ensures Quiescent(w) <==> forall step | Settling(step) :: !Enabled(w, step)
  {
    if !Quiescent(w) {
      var k :| k in w.subs && !(w.subs[k].phase.Ended? || (w.subs[k].phase.Parked? && w.subs[k].phase.w !in w.s.tokens));
      assert Enabled(w, DoAttempt(k)) || Enabled(w, DoWake(k)) || Enabled(w, DoAck(k));
    }
  }

  lemma {:induction false} SettlingIsBounded(w: World, steps: seq<Step>)
    requires Inv(w) && !w.s.closed && Legal(w, steps) && forall n | 0 <= n < |steps| :: Settling(steps[n])
    ensures |steps| == Work(w) - Work(After(w, steps)) <= Work(w)
    decreases |steps|
  {
    if steps == [] {
      WorkIsNatural(w);
    } else {
      WorkIsDone(w, steps[0]);
      NextKeepsInv(w, steps[0]);
      SettlingIsBounded(Next(w, steps[0]), steps[1..]);
    }
  }

  lemma {:induction false} SettlesFrom(w: World) returns (steps: seq<Step>)
    requires Inv(w) && !w.s.closed
    ensures Legal(w, steps) && Quiescent(After(w, steps)) && forall n | 0 <= n < |steps| :: Settling(steps[n])
    decreases Work(w)
  {
    steps := [];
    if !Quiescent(w) {
      var step := SettlingStep(w);
      var rest := SettlesFrom(Next(w, step));
      steps := [step] + rest;
      Prepend(w, step, rest);
      AllSettling(step, rest);
    }
  }

  lemma {:induction false} AllSettling(step: Step, rest: seq<Step>)
    requires Settling(step) && forall n | 0 <= n < |rest| :: Settling(rest[n])
    ensures forall n | 0 <= n < |[step] + rest| :: Settling(([step] + rest)[n])
  {
  }

  lemma {:induction false} SettlingStep(w: World) returns (step: Step)
    requires Inv(w) && !w.s.closed && !Quiescent(w)
    ensures Settling(step) && Enabled(w, step) && Inv(Next(w, step)) && !Next(w, step).s.closed
    ensures 0 <= Work(w) && Work(Next(w, step)) == Work(w) - 1
  {
    WorkIsNatural(w);
    RestIff(w);
    step :| Settling(step) && Enabled(w, step);
    WorkIsDone(w, step);
    NextKeepsInv(w, step);
  }

  /**
   Rest. From every open reachable state the subscribers can settle the stream, they cannot
   go on for more steps than there is work, and they stop only at rest: settling always ends
   there, whatever the order.
   */
  lemma {:induction false} StreamComesToRest(before: seq<Step>)
    requires Legal(INITIAL, before) && !After(INITIAL, before).s.closed
    ensures var w := After(INITIAL, before);
      && (exists steps ::
            Legal(w, steps) && (forall n | 0 <= n < |steps| :: Settling(steps[n])) && Quiescent(After(w, steps)))
      && (forall steps | Legal(w, steps) && (forall n | 0 <= n < |steps| :: Settling(steps[n])) ::
            && |steps| <= Work(w)
            && (Quiescent(After(w, steps)) <==> forall step | Settling(step) :: !Enabled(After(w, steps), step)))
  {
    InitialInv();
    RunsKeepInv(INITIAL, before);
    var w := After(INITIAL, before);
    var steps := SettlesFrom(w);
    forall steps | Legal(w, steps) && (forall n | 0 <= n < |steps| :: Settling(steps[n]))
      ensures |steps| <= Work(w)
      ensures Quiescent(After(w, steps)) <==> forall step | Settling(step) :: !Enabled(After(w, steps), step)
    {
      SettlingIsBounded(w, steps);
      SettlingStaysOpen(w, steps);
      RestIff(After(w, steps));
    }
  }

  lemma {:induction false} SettlingStaysOpen(w: World, steps: seq<Step>)
    requires !w.s.closed && Legal(w, steps) && forall n | 0 <= n < |steps| :: Settling(steps[n])
    ensures !After(w, steps).s.closed
    decreases |steps|
  {
    if steps != [] {
      SettlingStaysOpen(Next(w, steps[0]), steps[1..]);
    }
  }

  /**
   Redelivery. When a handler fails on message i, the stream, left to settle, delivers that
   message if and only if at that moment some other subscriber stands before it and is not
   asleep: about to look, already signalled, or busy with an earlier message.
   */
  lemma {:induction false} ReleasedMessageIsDeliveredIff(before: seq<Step>, k: SubId, i: nat, after: seq<Step>)
    requires Legal(INITIAL, before)
    requires var w := After(INITIAL, before);
      && !w.s.closed
      && Holds(w, k, i)
      && Legal(Next(w, DoRelease(k)), after)
      && Quiescent(After(Next(w, DoRelease(k)), after))
    requires forall n | 0 <= n < |after| :: Settling(after[n])
    ensures var w := After(INITIAL, before);
      IdAt(i) in After(Next(w, DoRelease(k)), after).s.delivered <==> exists l :: l != k && WillPass(w, l, i)
  {
    InitialInv();
    RunsKeepInv(INITIAL, before);
    var w := After(INITIAL, before);
    var w' := Next(w, DoRelease(k));
    NextKeepsInv(w, DoRelease(k));
    SettlingDecidedBy(w', after, i);
    forall l ensures WillPass(w', l, i) <==> l != k && WillPass(w, l, i) {
    }
    assert IdAt(i) in w.s.inflight;
  }

  /**
   Releasing wakes nobody: the subscriber that could have handled the message again may
   already be parked past it, so the exemption for released messages cannot be dropped.
   */
  lemma {:induction false} ReleasedMessageCanBeStranded()
    ensures exists steps: seq<Step> :: (
      && Legal(INITIAL, steps)
      && Quiescent(After(INITIAL, steps))
      && var w := After(INITIAL, steps);
      && 0 in w.subs && w.subs[0].phase.Parked?
      && w.subs[0].start < 0 < |w.s.messages|
      && IdAt(0) !in w.s.delivered)
  {
    // two subscribers; 1 claims the only message, 0 parks behind it, 1's handler fails
    var w1 := Next(INITIAL, DoSubscribe(0, ""));
    var w2 := Next(w1, DoSubscribe(1, ""));
    var w3 := Next(w2, DoPublish([]));
    assert w3.s.messages == [Message(IdAt(0), [])] && w3.subs == map[0 := Sub(-1, -1, Ready), 1 := Sub(-1, -1, Ready)];
    var steps := StrandingTail(w3);
    Prepend(w2, DoPublish([]), steps);
    Prepend(w1, DoSubscribe(1, ""), [DoPublish([])] + steps);
    Prepend(INITIAL, DoSubscribe(0, ""), [DoSubscribe(1, "")] + ([DoPublish([])] + steps));
  }

  lemma {:induction false} StrandingTail(w3: World) returns (steps: seq<Step>)
    requires !w3.s.closed && w3.s.messages == [Message(IdAt(0), [])] && w3.s.inflight == w3.s.delivered == {}
    requires w3.s.tokens == {} && w3.s.waiters == [] && w3.subs == map[0 := Sub(-1, -1, Ready), 1 := Sub(-1, -1, Ready)]
    ensures Legal(w3, steps) && Quiescent(After(w3, steps))
    ensures var w := After(w3, steps);
      0 in w.subs && w.subs[0].phase.Parked? && w.subs[0].start < 0 < |w.s.messages| && IdAt(0) !in w.s.delivered
  {
    assert Claimable(w3.s, -1, 0) == Some(0);
    var w4 := Next(w3, DoAttempt(1));
    assert w4.subs == map[0 := Sub(-1, -1, Ready), 1 := Sub(-1, -1, Holding(0))];
    assert Claimable(w4.s, -1, 0) == None;
    var w5 := Next(w4, DoAttempt(0));
    assert w5.subs[0].phase.Parked? && w5.subs[1] == w4.subs[1];
    var w6 := Next(w5, DoRelease(1));
    assert Quiescent(w6);
    Prepend(w5, DoRelease(1), []);
    Prepend(w4, DoAttempt(0), [DoRelease(1)]);
    Prepend(w3, DoAttempt(1), [DoAttempt(0)] + [DoRelease(1)]);
    steps := [DoAttempt(1)] + ([DoAttempt(0)] + [DoRelease(1)]);
  }

  lemma {:induction false} Prepend(w: World, step: Step, rest: seq<Step>)
    requires Enabled(w, step) && Legal(Next(w, step), rest)
    ensures Legal(w, [step] + rest) && After(w, [step] + rest) == After(Next(w, step), rest)
  {
    assert ([step] + rest)[1..] == rest;
  }
}
