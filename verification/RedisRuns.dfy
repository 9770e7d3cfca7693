/**
 Every interleaving of session creations, deletions, mutations and touches that any number
 of nodes issue against one metadata key. The steps of a call are WATCH, GET, the local
 computation with its clock reading, and EXEC, each atomic on its own.
 */
module RedisRuns {
  import opened Wrappers
  import opened RedisStore

  type CallId = nat

  datatype Change = Created(m: Record) | Edited(kind: Kind, at: Time) | Deleted

  /** A committed write; creations and deletions carry no call. */
  datatype Commit = Commit(author: Option<CallId>, change: Change)

  datatype Stage =
    | Starting
    | Watching(ver: nat)
    | HasRead(ver: nat, base: Record)
    | Prepared(ver: nat, base: Record, next: Record, d: Duration, at: Time)
    | Returned(outcome: Outcome, ended: nat)   // `ended`: commits so far when the call returned

  datatype Call = Call(kind: Kind, tries: nat, begun: nat, stage: Stage)

  datatype World = World(now: Time, cell: Cell, log: seq<Commit>, calls: map<CallId, Call>)

  datatype Step =
    | Tick(d: nat)
    | CreateKey(m: Record)
    | DeleteKey
    | Begin(c: CallId, kind: Kind)
    | Watch(c: CallId)
    | Read(c: CallId)
    | Compute(c: CallId)
    | Exec(c: CallId)

  predicate At(w: World, c: CallId, stage: Stage -> bool) {
    c in w.calls && stage(w.calls[c].stage)
  }

  predicate Enabled(w: World, step: Step) {
    match step
    case Begin(c, _) => c !in w.calls
    case Watch(c) => At(w, c, (s: Stage) => s.Starting?)
    case Read(c) => At(w, c, (s: Stage) => s.Watching?)
    case Compute(c) => At(w, c, (s: Stage) => s.HasRead?)
    case Exec(c) => At(w, c, (s: Stage) => s.Prepared?)
    case _ => true
  }

  function SetStage(w: World, c: CallId, stage: Stage): World
    requires c in w.calls
  {
    w.(calls := w.calls[c := w.calls[c].(stage := stage)])
  }

  /** EXEC refused: a touch reports it, a mutation tries again up to its bound. */
  function Conflict(w: World, c: CallId): World
    requires c in w.calls
  {
    var call := w.calls[c];
    if call.kind.Touch? then SetStage(w, c, Returned(TxConflict, |w.log|))
    else
      var tries := call.tries + 1;
      var stage := if tries == MAX_TRIES then Returned(RetriesExceeded, |w.log|) else Starting;
      w.(calls := w.calls[c := call.(tries := tries, stage := stage)])
  }

  function Next(w: World, step: Step): World
    requires Enabled(w, step)
  {
    match step
    case Tick(d) => w.(now := w.now + d)
    case CreateKey(m) =>
      if Visible(w.cell, w.now).Some? then w   // SETNX refused: "session exists"
      else w.(cell := Write(w.cell, m, w.now, m.ttl), log := w.log + [Commit(None, Created(m))])
    case DeleteKey =>
      if Visible(w.cell, w.now).None? then w
      else w.(cell := Remove(w.cell), log := w.log + [Commit(None, Deleted)])
    case Begin(c, kind) => w.(calls := w.calls[c := Call(kind, 0, |w.log|, Starting)])
    case Watch(c) => SetStage(w, c, Watching(w.cell.version))
    case Read(c) =>
      (match Visible(w.cell, w.now)
       case None => SetStage(w, c, Returned(Failed(Missing(w.calls[c].kind)), |w.log|))
       case Some(m) => SetStage(w, c, HasRead(w.calls[c].stage.ver, m)))
    case Compute(c) =>
      var s := w.calls[c].stage;
      (match Prepare(w.calls[c].kind, s.base, w.now)
       case Err(why) => SetStage(w, c, Returned(Failed(why), |w.log|))
       case Ok((m, d)) => SetStage(w, c, Prepared(s.ver, s.base, m, d, w.now)))
    case Exec(c) =>
      var s := w.calls[c].stage;
      if w.cell.version != s.ver then Conflict(w, c)
      else
        SetStage(w, c, Returned(Committed, |w.log| + 1))
        .(cell := Write(w.cell, s.next, w.now, s.d),
        log := w.log + [Commit(Some(c), Edited(w.calls[c].kind, s.at))])
  }

  predicate Legal(w: World, steps: seq<Step>)
    decreases |steps|
  {
    steps == [] || (Enabled(w, steps[0]) && Legal(Next(w, steps[0]), steps[1..]))
  }

  function After(w: World, steps: seq<Step>): World
    requires Legal(w, steps)
    decreases |steps|
  {
    if steps == [] then w else After(Next(w, steps[0]), steps[1..])
  }

  function Initial(now: Time): World {
    World(now, Cell(None, None, 0), [], map[])
  }

  // ----- serial meaning of the commit log -----

  /** The commits applied one after the other, with no concurrency at all. */
  function Replay(log: seq<Commit>): Option<Record> {
    if log == [] then None
    else
      var before := Replay(log[..|log| - 1]);
      match log[|log| - 1].change
      case Created(m) => Some(m)
      case Deleted => None
      case Edited(kind, at) =>
        if before.Some? && Prepare(kind, before.value, at).Ok?
        then Some(Prepare(kind, before.value, at).value.0)
        else None
  }

  lemma {:induction false} ReplayAppend(log: seq<Commit>, e: Commit)
    ensures Replay(log + [e]) ==
      match e.change
      case Created(m) => Some(m)
      case Deleted => None
      case Edited(kind, at) =>
        if Replay(log).Some? && Prepare(kind, Replay(log).value, at).Ok?
        then Some(Prepare(kind, Replay(log).value, at).value.0)
        else None
  {
    assert (log + [e])[..|log|] == log;
  }

  /** How many commits a call contributed. */
  function Contributions(log: seq<Commit>, c: CallId): nat {
    if log == [] then 0
    else Contributions(log[..|log| - 1], c) + if log[|log| - 1].author == Some(c) then 1 else 0
  }

  lemma {:induction false} ContributionsAppend(log: seq<Commit>, e: Commit, c: CallId)
    ensures Contributions(log + [e], c) == Contributions(log, c) + if e.author == Some(c) then 1 else 0
  {
    assert (log + [e])[..|log|] == log;
  }

  // ----- the invariant -----

  /** A snapshot taken under a version that is still current is still the stored record. */
  ghost predicate SnapshotCurrent(w: World, c: Call) {
    match c.stage
    case Watching(v) => c.begun + c.tries <= v <= w.cell.version
    case HasRead(v, base) =>
      c.begun + c.tries <= v <= w.cell.version && (v == w.cell.version ==> w.cell.value == Some(base))
    case Prepared(v, base, next, d, at) =>
      && c.begun + c.tries <= v <= w.cell.version
      && (v == w.cell.version ==> w.cell.value == Some(base))
      && Prepare(c.kind, base, at) == Ok((next, d))
      && at <= w.now
    case Returned(outcome, ended) =>
      c.begun <= ended <= |w.log| && (outcome == RetriesExceeded ==> c.begun + MAX_TRIES <= ended)
    case Starting => c.begun + c.tries <= w.cell.version
  }

  ghost predicate Accounted(w: World, id: CallId)
    requires id in w.calls
  {
    Contributions(w.log, id) == if w.calls[id].stage.Returned? && w.calls[id].stage.outcome == Committed then 1 else 0
  }

  ghost predicate Inv(w: World) {
    && w.cell.version == |w.log|
    && Replay(w.log) == w.cell.value
    && (forall c | c in w.calls :: SnapshotCurrent(w, w.calls[c]) && w.calls[c].tries <= MAX_TRIES)
    && (forall c | c in w.calls && !w.calls[c].stage.Returned? :: w.calls[c].tries < MAX_TRIES)
    && (forall c | c in w.calls :: Accounted(w, c))
    && (forall c | c !in w.calls :: Contributions(w.log, c) == 0)
  }

  lemma {:induction false} NextKeepsReplay(w: World, step: Step)
    requires Inv(w) && Enabled(w, step)
    ensures var w' := Next(w, step); w'.cell.version == |w'.log| && Replay(w'.log) == w'.cell.value
  {
    var w' := Next(w, step);
    if w'.log != w.log {
      var e := w'.log[|w.log|];
      assert w'.log == w.log + [e];
      ReplayAppend(w.log, e);
      if step.Exec? {
        assert SnapshotCurrent(w, w.calls[step.c]);
      }
    }
  }

  predicate Concerns(step: Step, c: CallId) {
    match step
    case Begin(d, _) => c == d
    case Watch(d) => c == d
    case Read(d) => c == d
    case Compute(d) => c == d
    case Exec(d) => c == d
    case _ => false
  }

  /** The store only moves forward, and keeps its value while its version stands. */
  ghost predicate Forward(w: World, w': World) {
    && w.now <= w'.now
    && w.cell.version <= w'.cell.version
    && |w.log| <= |w'.log|
    && (w'.cell.version == w.cell.version ==> w'.cell.value == w.cell.value)
  }

  lemma {:induction false} StepsMoveForward(w: World, step: Step)
    requires Enabled(w, step)
    ensures Forward(w, Next(w, step))
  {
  }

  lemma {:induction false} StepLeavesOthers(w: World, step: Step, c: CallId)
    requires Enabled(w, step) && !Concerns(step, c)
    ensures var w' := Next(w, step); (c in w'.calls <==> c in w.calls) && (c in w.calls ==> w'.calls[c] == w.calls[c])
  {
  }

  lemma {:induction false} SnapshotStable(w: World, w': World, call: Call)
    requires Forward(w, w') && SnapshotCurrent(w, call)
    ensures SnapshotCurrent(w', call)
  {
  }

  lemma {:induction false} StepKeepsOwnCall(w: World, step: Step, c: CallId)
    requires Enabled(w, step) && Concerns(step, c) && w.cell.version == |w.log|
    requires c in w.calls ==> SnapshotCurrent(w, w.calls[c]) && (w.calls[c].stage.Returned? || w.calls[c].tries < MAX_TRIES)
    ensures var w' := Next(w, step);
      && c in w'.calls
      && SnapshotCurrent(w', w'.calls[c])
      && w'.calls[c].tries <= MAX_TRIES
      && (!w'.calls[c].stage.Returned? ==> w'.calls[c].tries < MAX_TRIES)
  {
    match step
    case Begin(_, _) =>
    case Watch(_) =>
    case Read(_) =>
    case Compute(_) =>
    case Exec(_) =>
  }

  lemma {:induction false} NextKeepsCalls(w: World, step: Step, c: CallId)
    requires Inv(w) && Enabled(w, step) && c in Next(w, step).calls
    ensures var w' := Next(w, step);
      && SnapshotCurrent(w', w'.calls[c])
      && w'.calls[c].tries <= MAX_TRIES
      && (!w'.calls[c].stage.Returned? ==> w'.calls[c].tries < MAX_TRIES)
  {
    if Concerns(step, c) {
      StepKeepsOwnCall(w, step, c);
    } else {
      StepsMoveForward(w, step);
      StepLeavesOthers(w, step, c);
      SnapshotStable(w, Next(w, step), w.calls[c]);
    }
  }

  /** Only a call's own EXEC writes in its name, and then it has returned with success. */
  lemma {:induction false} StepAuthorship(w: World, step: Step, c: CallId)
    requires Enabled(w, step)
    ensures var w' := Next(w, step);
      var commits := c in w.calls && step == Exec(c) && w.cell.version == w.calls[c].stage.ver;
      Contributions(w'.log, c) == Contributions(w.log, c) + if commits then 1 else 0
  {
    var w' := Next(w, step);
    if w'.log != w.log {
      var e := w'.log[|w.log|];
      assert w'.log == w.log + [e];
      ContributionsAppend(w.log, e, c);
    }
  }

  lemma {:induction false} NextKeepsAccounts(w: World, step: Step, c: CallId)
    requires Enabled(w, step)
    requires if c in w.calls then Accounted(w, c) else Contributions(w.log, c) == 0
    ensures var w' := Next(w, step);
      if c in w'.calls then Accounted(w', c) else Contributions(w'.log, c) == 0
  {
    StepAuthorship(w, step, c);
    if !Concerns(step, c) {
      StepLeavesOthers(w, step, c);
    }
  }

  lemma {:induction false} NextKeepsInv(w: World, step: Step)
    requires Inv(w) && Enabled(w, step)
    ensures Inv(Next(w, step))
  {
    NextKeepsReplay(w, step);
    forall c { NextKeepsAccounts(w, step, c); }
    forall c | c in Next(w, step).calls { NextKeepsCalls(w, step, c); }
  }

  lemma {:induction false} RunsKeepInv(w: World, steps: seq<Step>)
    requires Inv(w) && Legal(w, steps)
    ensures Inv(After(w, steps))
    decreases |steps|
  {
    if steps != [] {
      NextKeepsInv(w, steps[0]);
      RunsKeepInv(Next(w, steps[0]), steps[1..]);
    }
  }

  // ----- theorems over whole runs -----

  /**
   Serialisability. Whatever the interleaving, the stored record is the commit log replayed
   serially, and a call appears in that log exactly once if it reported success and not at
   all otherwise.
   */
  lemma {:induction false} RunsAreSerial(now: Time, steps: seq<Step>)
    requires Legal(Initial(now), steps)
    ensures var w := After(Initial(now), steps);
      && w.cell.value == Replay(w.log)
      && forall c | c in w.calls ::
           Contributions(w.log, c) == if w.calls[c].stage.Returned? && w.calls[c].stage.outcome == Committed then 1 else 0
  {
    RunsKeepInv(Initial(now), steps);
    assert forall c | c in After(Initial(now), steps).calls :: Accounted(After(Initial(now), steps), c);
  }

  lemma {:induction false} NoContribution(log: seq<Commit>, c: CallId, i: nat)
    requires Contributions(log, c) == 0 && i < |log|
    ensures log[i].author != Some(c)
    decreases |log|
  {
    if i < |log| - 1 {
      NoContribution(log[..|log| - 1], c, i);
    }
  }

  /**
   Giving up is earned: a call that reports exhausted retries saw at least five commits
   between its first step and its return, none of them its own.
   */
  lemma {:induction false} GivingUpMeansFiveForeignWrites(now: Time, steps: seq<Step>, c: CallId)
    requires Legal(Initial(now), steps)
    requires var w := After(Initial(now), steps);
      c in w.calls && w.calls[c].stage.Returned? && w.calls[c].stage.outcome == RetriesExceeded
    ensures var w := After(Initial(now), steps);
      var call := w.calls[c];
      && call.begun + 5 <= call.stage.ended <= |w.log|
      && forall i | 0 <= i < |w.log| :: w.log[i].author != Some(c)
  {
    RunsKeepInv(Initial(now), steps);
    var w := After(Initial(now), steps);
    assert SnapshotCurrent(w, w.calls[c]) && Accounted(w, c);
    forall i | 0 <= i < |w.log| ensures w.log[i].author != Some(c) {
      NoContribution(w.log, c, i);
    }
  }

  // ----- what each command does -----

  /** The key holds a record that has not lapsed. */
  predicate Holds(w: World, m: Record) {
    w.cell.value == Some(m) && (w.cell.expiry.None? || w.now < w.cell.expiry.value)
  }

  /** SETNX: a record that is there stays untouched; otherwise the new one is, for its TTL. */
  lemma {:induction false} CreateOnlyIfAbsent(w: World, m: Record)
    ensures var w' := Next(w, CreateKey(m));
      && ((exists r :: Holds(w, r)) ==> w' == w)
      && (!(exists r :: Holds(w, r)) ==>
            && w'.cell.value == Some(m)
            && (m.ttl > 0 ==> w'.cell.expiry == Some(w.now + m.ttl) && Holds(w', m))
            && w'.log == w.log + [Commit(None, Created(m))])
  {
    if Visible(w.cell, w.now).Some? {
      assert Holds(w, w.cell.value.value);
    }
  }

  lemma {:induction false} DeleteRemoves(w: World)
    ensures forall m :: !Holds(Next(w, DeleteKey), m)
  {
    if Visible(w.cell, w.now).None? {
      forall m ensures !Holds(w, m) {
      }
    }
  }

  /**
   EXEC. A write since WATCH makes it fail without a trace: a touch reports that, a mutation
   starts over, and the fifth time gives up. Otherwise the prepared record is stored.
   */
  lemma {:induction false} ExecOutcome(w: World, c: CallId)
    requires Enabled(w, Exec(c))
    ensures var call, w' := w.calls[c], Next(w, Exec(c));
      if w.cell.version == call.stage.ver then
        && w'.cell.value == Some(call.stage.next)
        && (call.stage.d > 0 ==> w'.cell.expiry == Some(w.now + call.stage.d))
        && w'.calls[c].stage == Returned(Committed, |w.log| + 1)
      else
        && w'.cell == w.cell && w'.log == w.log
        && if call.kind.Touch? then w'.calls[c].stage == Returned(TxConflict, |w.log|)
           else if call.tries + 1 == 5 then w'.calls[c].stage == Returned(RetriesExceeded, |w.log|)
           else w'.calls[c].stage == Starting && w'.calls[c].tries == call.tries + 1
  {
  }

  /** The state after a call has run its four commands with nobody in between. */
  function Alone(w: World, c: CallId, kind: Kind): World
    requires c !in w.calls
  {
    var w3 := Next(Next(Next(w, Begin(c, kind)), Watch(c)), Read(c));
    if !w3.calls[c].stage.HasRead? then w3
    else
      var w4 := Next(w3, Compute(c));
      if !w4.calls[c].stage.Prepared? then w4 else Next(w4, Exec(c))
  }

  /**
   Undisturbed, a call finds the record exactly while it has not lapsed, and then commits
   what it computed from it, or reports why it could not.
   */
  lemma {:induction false} UndisturbedCallSucceeds(w: World, c: CallId, kind: Kind)
    requires c !in w.calls
    ensures var w' := Alone(w, c, kind);
      && c in w'.calls && w'.calls[c].stage.Returned?
      && (forall m | Holds(w, m) ::
            match Prepare(kind, m, w.now)
            case Ok((next, _)) => w'.cell.value == Some(next) && w'.calls[c].stage.outcome == Committed
            case Err(why) => w'.cell == w.cell && w'.calls[c].stage.outcome == Failed(why))
      && (!(exists m :: Holds(w, m)) ==>
            w'.cell == w.cell && w'.calls[c].stage.outcome == Failed(if kind.Touch? then NoKey else NotFound))
  {
    var w2 := Next(Next(w, Begin(c, kind)), Watch(c));
    assert w2.calls[c].stage == Watching(w.cell.version) && w2.cell == w.cell && w2.now == w.now;
    if Visible(w.cell, w.now).Some? {
      var m := w.cell.value.value;
      assert Holds(w, m);
      var w3 := Next(w2, Read(c));
      assert w3.calls[c].stage == HasRead(w.cell.version, m) && w3.calls[c].kind == kind;
    } else {
      assert forall m :: !Holds(w, m);
    }
  }

  // ----- lifetimes -----

  /** An edit leaves the identity of the lifetime alone and keeps the TTL positive. */
  ghost predicate KeepsLifetime(kind: Kind) {
    kind.Mutate? ==> forall m: Record | kind.edit(m).Ok? ::
      var m' := kind.edit(m).value;
      && m'.createdAt == m.createdAt
      && m'.maxLifetime == m.maxLifetime
      && (m.ttl > 0 ==> m'.ttl > 0)
  }

  /**
   The assumptions on a step: edits keep the lifetime, a created record has positive TTL
   within its lifetime, and no write reaches Redis more than `slack` after its clock reading.
   */
  ghost predicate Timely(w: World, step: Step, slack: nat)
    requires Enabled(w, step)
  {
    match step
    case Begin(_, kind) => KeepsLifetime(kind)
    case CreateKey(m) => m.ttl > 0 && (m.maxLifetime > 0 ==> (w.now - m.createdAt) + m.ttl <= m.maxLifetime + slack)
    case Exec(c) => w.now - w.calls[c].stage.at <= slack
    case _ => true
  }

  ghost predicate TimelyRun(w: World, steps: seq<Step>, slack: nat)
    requires Legal(w, steps)
    decreases |steps|
  {
    steps == [] || (Timely(w, steps[0], slack) && TimelyRun(Next(w, steps[0]), steps[1..], slack))
  }

  ghost predicate WithinLifetime(w: World, slack: nat) {
    w.cell.value.Some? ==>
      var m := w.cell.value.value;
      && m.ttl > 0
      && w.cell.expiry.Some?
      && w.cell.expiry.value <= w.now + m.ttl
      && (m.maxLifetime > 0 ==> w.cell.expiry.value <= m.createdAt + m.maxLifetime + slack)
  }

  ghost predicate LifetimeInv(w: World, slack: nat) {
    && Inv(w)
    && WithinLifetime(w, slack)
    && forall c | c in w.calls :: KeepsLifetime(w.calls[c].kind)
  }

  lemma {:induction false} NextKeepsLifetime(w: World, step: Step, slack: nat)
    requires LifetimeInv(w, slack) && Enabled(w, step) && Timely(w, step, slack)
    ensures LifetimeInv(Next(w, step), slack)
  {
    NextKeepsInv(w, step);
    NextKeepsExpiry(w, step, slack);
  }

  lemma {:induction false} NextKeepsExpiry(w: World, step: Step, slack: nat)
    requires LifetimeInv(w, slack) && Enabled(w, step) && Timely(w, step, slack)
    ensures WithinLifetime(Next(w, step), slack)
  {
    match step
    case Exec(c) => assert SnapshotCurrent(w, w.calls[c]) && KeepsLifetime(w.calls[c].kind);
    case _ =>
  }

  lemma {:induction false} RunsKeepLifetime(w: World, steps: seq<Step>, slack: nat)
    requires LifetimeInv(w, slack) && Legal(w, steps) && TimelyRun(w, steps, slack)
    ensures LifetimeInv(After(w, steps), slack)
    decreases |steps|
  {
    if steps != [] {
      NextKeepsLifetime(w, steps[0], slack);
      RunsKeepLifetime(Next(w, steps[0]), steps[1..], slack);
    }
  }

  /**
   Absolute lifetime. Over any run of creations, touches and mutations (a TTL change on
   opening included), the key never outlives creation plus maximum lifetime by more than
   the longest delay between a clock reading and its write; with no delay, never at all.
   */
  lemma {:induction false} ExpiryBoundedByLifetime(now: Time, steps: seq<Step>, slack: nat)
    requires Legal(Initial(now), steps) && TimelyRun(Initial(now), steps, slack)
    ensures var w := After(Initial(now), steps);
      w.cell.value.Some? && w.cell.value.value.maxLifetime > 0 ==>
        && w.cell.expiry.Some?
        && w.cell.expiry.value <= w.cell.value.value.createdAt + w.cell.value.value.maxLifetime + slack
  {
    RunsKeepLifetime(Initial(now), steps, slack);
  }

  /**
   Lapse. In a run whose writes are at most `slack` late, nothing is left of a session once its
   lifetime and the slack are over: no call finds it, and a new one may take its place.
   */
  lemma {:induction false} LapsedSessionIsGone(now: Time, steps: seq<Step>, slack: nat, m: Record)
    requires Legal(Initial(now), steps) && TimelyRun(Initial(now), steps, slack)
    requires var w := After(Initial(now), steps);
      w.cell.value == Some(m) && m.maxLifetime > 0 && m.createdAt + m.maxLifetime + slack <= w.now
    ensures var w := After(Initial(now), steps);
      && (forall r :: !Holds(w, r))
      && (forall c, kind | c !in w.calls :: Alone(w, c, kind).calls[c].stage.outcome.Failed?)
      && (forall newcomer :: Next(w, CreateKey(newcomer)).cell.value == Some(newcomer))
  {
    RunsKeepLifetime(Initial(now), steps, slack);
    var w := After(Initial(now), steps);
    forall c, kind | c !in w.calls ensures Alone(w, c, kind).calls[c].stage.outcome.Failed? {
      UndisturbedCallSucceeds(w, c, kind);
    }
  }

  /**
   Sliding window. A committing touch or mutation that leaves the TTL alone brings the expiry
   forward exactly when the stored one overran the lifetime by more than this write's own
   delay, and never by more than the longest delay; without delays, never at all.
   */
  lemma {:induction false} RefreshShortensIff(now: Time, steps: seq<Step>, slack: nat, c: CallId)
    requires Legal(Initial(now), steps) && TimelyRun(Initial(now), steps, slack)
    requires var w := After(Initial(now), steps);
      && Enabled(w, Exec(c))
      && w.cell.version == w.calls[c].stage.ver
      && w.calls[c].stage.next.ttl == w.calls[c].stage.base.ttl
    ensures var w := After(Initial(now), steps);
      var e, e' := w.cell.expiry, Next(w, Exec(c)).cell.expiry;
      var m := w.calls[c].stage.base;
      && e.Some? && e'.Some? && e.value <= e'.value + slack
      && (e'.value < e.value <==>
            m.maxLifetime > 0 && m.createdAt + m.maxLifetime + (w.now - w.calls[c].stage.at) < e.value)
  {
    RunsKeepLifetime(Initial(now), steps, slack);
    var w := After(Initial(now), steps);
    assert SnapshotCurrent(w, w.calls[c]) && KeepsLifetime(w.calls[c].kind);
  }

  /**
   The slack is real: a run with one touch whose EXEC is one tick late stores an expiry one
   tick past the end of the record's lifetime.
   */
  lemma {:induction false} DelayedTouchOverruns()
    ensures exists steps: seq<Step> :: (
      && Legal(Initial(0), steps)
      && TimelyRun(Initial(0), steps, 1)
      && var w := After(Initial(0), steps);
      && w.cell.value.Some? && w.cell.expiry.Some?
      && w.cell.expiry.value == w.cell.value.value.createdAt + w.cell.value.value.maxLifetime + 1)
  {
    var m := Record(0, 0, 0, 10, 10, "");
    var steps := DelayedTouchRun(m);
  }

  /** And after it a touch with no delay at all brings the expiry forward. */
  lemma {:induction false} PromptTouchCanShorten()
    ensures exists steps: seq<Step> :: (
      && Legal(Initial(0), steps)
      && TimelyRun(Initial(0), steps, 1)
      && var w := After(Initial(0), steps);
      && Enabled(w, Exec(1)) && w.cell.version == w.calls[1].stage.ver && w.calls[1].stage.at == w.now
      && w.calls[1].stage.next.ttl == w.calls[1].stage.base.ttl
      && w.cell.expiry == Some(11) && Next(w, Exec(1)).cell.expiry == Some(10))
  {
    var m := Record(0, 0, 0, 10, 10, "");
    var first := DelayedTouchRun(m);
    var w := After(Initial(0), first);
    var second := PromptTouch(m.(lastAccess := 1, updatedAt := 1), w);
    Append(Initial(0), first, second, 1);
  }

  lemma {:induction false} DelayedTouchRun(m: Record) returns (steps: seq<Step>)
    requires m == Record(0, 0, 0, 10, 10, "")
    ensures Legal(Initial(0), steps) && TimelyRun(Initial(0), steps, 1)
    ensures var w := After(Initial(0), steps);
      w.now == 2 && w.cell == Cell(Some(m.(lastAccess := 1, updatedAt := 1)), Some(11), 2) && 1 !in w.calls
  {
    var w0 := Initial(0);
    var w1 := Next(w0, CreateKey(m));
    var w2 := Next(w1, Begin(0, Touch));
    var w3 := Next(w2, Watch(0));
    assert w3.calls[0].stage == Watching(1);
    steps := LateTouchTail(m, w3);
    Prepend(w2, Watch(0), steps, 1);
    Prepend(w1, Begin(0, Touch), [Watch(0)] + steps, 1);
    Prepend(w0, CreateKey(m), [Begin(0, Touch)] + ([Watch(0)] + steps), 1);
    steps := [CreateKey(m)] + ([Begin(0, Touch)] + ([Watch(0)] + steps));
  }

  lemma {:induction false} LateTouchTail(m: Record, w3: World) returns (steps: seq<Step>)
    requires m == Record(0, 0, 0, 10, 10, "") && w3.now == 0 && w3.cell == Cell(Some(m), Some(10), 1)
    requires w3.calls.Keys == {0} && w3.calls[0].kind == Touch && w3.calls[0].stage == Watching(1)
    ensures Legal(w3, steps) && TimelyRun(w3, steps, 1)
    ensures var w := After(w3, steps);
      w.now == 2 && w.cell == Cell(Some(m.(lastAccess := 1, updatedAt := 1)), Some(11), 2) && 1 !in w.calls
  {
    var w4 := Next(w3, Read(0));
    var w5 := Next(w4, Tick(1));
    var w6 := Next(w5, Compute(0));
    assert w6.calls[0].stage == Prepared(1, m, m.(lastAccess := 1, updatedAt := 1), 9, 1);
    var w7 := Next(w6, Tick(1));
    Prepend(w7, Exec(0), [], 1);
    Prepend(w6, Tick(1), [Exec(0)], 1);
    var s6 := [Tick(1)] + [Exec(0)];
    Prepend(w5, Compute(0), s6, 1);
    var s5 := [Compute(0)] + s6;
    Prepend(w4, Tick(1), s5, 1);
    Prepend(w3, Read(0), [Tick(1)] + s5, 1);
    steps := [Read(0)] + ([Tick(1)] + s5);
  }

  lemma {:induction false} PromptTouch(m: Record, w: World) returns (steps: seq<Step>)
    requires m == Record(0, 1, 1, 10, 10, "") && w.now == 2 && w.cell == Cell(Some(m), Some(11), 2) && 1 !in w.calls
    ensures Legal(w, steps) && TimelyRun(w, steps, 1)
    ensures var w' := After(w, steps);
      && w'.now == 2 && w'.cell == w.cell && 1 in w'.calls
      && w'.calls[1].stage == Prepared(2, m, m.(lastAccess := 2, updatedAt := 2), 8, 2)
  {
    var w1 := Next(w, Begin(1, Touch));
    var w2 := Next(w1, Watch(1));
    var w3 := Next(w2, Read(1));
    assert w3.calls[1].stage == HasRead(2, m);
    Prepend(w3, Compute(1), [], 1);
    Prepend(w2, Read(1), [Compute(1)], 1);
    var s2 := [Read(1)] + [Compute(1)];
    Prepend(w1, Watch(1), s2, 1);
    Prepend(w, Begin(1, Touch), [Watch(1)] + s2, 1);
    steps := [Begin(1, Touch)] + ([Watch(1)] + s2);
  }

  lemma {:induction false} Append(w: World, first: seq<Step>, second: seq<Step>, slack: nat)
    requires Legal(w, first) && TimelyRun(w, first, slack)
    requires Legal(After(w, first), second) && TimelyRun(After(w, first), second, slack)
    ensures Legal(w, first + second) && TimelyRun(w, first + second, slack)
    ensures After(w, first + second) == After(After(w, first), second)
    decreases |first|
  {
    if first == [] {
      assert first + second == second;
    } else {
      Append(Next(w, first[0]), first[1..], second, slack);
      assert first + second == [first[0]] + (first[1..] + second);
      Prepend(w, first[0], first[1..] + second, slack);
    }
  }

  lemma {:induction false} Prepend(w: World, step: Step, rest: seq<Step>, slack: nat)
    requires Enabled(w, step) && Timely(w, step, slack)
    requires Legal(Next(w, step), rest) && TimelyRun(Next(w, step), rest, slack)
    ensures Legal(w, [step] + rest)
    ensures TimelyRun(w, [step] + rest, slack)
    ensures After(w, [step] + rest) == After(Next(w, step), rest)
  {
    assert ([step] + rest)[1..] == rest;
  }
}
